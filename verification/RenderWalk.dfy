// The walk both renderers make.
module RenderWalk {
  // What the HTML and the Markdown renderer share: how they walk an article, place its links and meet its citations
  // (app/services/article_render.py and article_markdown.py). What they write is their own.

  import opened Sequences
  import opened Wrappers

  datatype LinkKind = Internal | External

  datatype Link = Link(kind: LinkKind, anchor: string, url: string, title: Option<string>)

  datatype BlockKind = Subheading | ListBlock | Paragraph

  datatype Block = Block(kind: BlockKind, text: Option<string>, items: seq<string>, ordered: bool)

  datatype Section = Section(heading: string, introduction: bool, blocks: seq<Block>)

  /**
   * The regular-expression engine and the string functions: where the citation markers are, the labels in one, the
   * first whole-word occurrence of an anchor in a text, and stripping and tidying white space.
   */
  datatype Engine = Engine(markers: string -> seq<(nat, nat)>, labels: string -> seq<string>,
                           search: (string, string) -> Option<(nat, nat)>,
                           strip: string -> string, rstrip: string -> string, tidy: string -> string)

  /** A match of a non-empty anchor is a non-empty stretch of the text. */
  ghost predicate Lawful(e: Engine) {
    forall anchor: string, text: string ::
      var m := e.search(anchor, text);
      m.Some? && anchor != "" ==> m.value.0 < m.value.1 <= |text|
  }

  ghost predicate HaveAnchors(links: seq<Link>) {
    forall i | 0 <= i < |links| :: links[i].anchor != ""
  }

  // ---------- placing links ----------

  /** Where link number `link` goes in a text. */
  datatype Span = Span(start: nat, end: nat, link: nat)

  predicate Overlaps(spans: seq<Span>, start: nat, end: nat) {
    exists s | s in spans :: s.start < end && start < s.end
  }

  datatype Placing = Placing(spans: seq<Span>, placed: seq<bool>)

  /** The links, from number `i` on, that are not placed yet and find their anchor clear of the earlier ones. */
  function PlaceFrom(e: Engine, links: seq<Link>, text: string, i: nat, p: Placing): Placing
    decreases |links| - i
  {
    if i >= |links| || i >= |p.placed| then p
    else if p.placed[i] then PlaceFrom(e, links, text, i + 1, p)
    else
      match e.search(links[i].anchor, text)
      case None => PlaceFrom(e, links, text, i + 1, p)
      case Some((start, end)) =>
        if Overlaps(p.spans, start, end) then PlaceFrom(e, links, text, i + 1, p)
        else PlaceFrom(e, links, text, i + 1, Placing(p.spans + [Span(start, end, i)], p.placed[i := true]))
  }

  function Place(e: Engine, links: seq<Link>, text: string, placed: seq<bool>): Placing {
    PlaceFrom(e, links, text, 0, Placing([], placed))
  }

  ghost predicate Within(text: string, s: Span) {
    s.start < s.end <= |text|
  }

  ghost predicate Clear(s: Span, t: Span) {
    s.end <= t.start || t.end <= s.start
  }

  /** Spans inside the text that never overlap, one for each link newly placed. */
  ghost predicate GoodPlacing(text: string, before: seq<bool>, i: nat, p: Placing) {
    && |p.placed| == |before|
    && (forall s | s in p.spans ::
         Within(text, s) && s.link < i && s.link < |before| && !before[s.link] && p.placed[s.link])
    && (forall x, y | 0 <= x < y < |p.spans| :: Clear(p.spans[x], p.spans[y]) && p.spans[x].link < p.spans[y].link)
    && (forall k | 0 <= k < |before| :: p.placed[k] <==> before[k] || HasLink(p.spans, k))
  }

  predicate HasLink(spans: seq<Span>, k: nat) {
    exists s | s in spans :: s.link == k
  }

  lemma AddSpan(text: string, before: seq<bool>, i: nat, p: Placing, s: Span)
    requires GoodPlacing(text, before, i, p) && i < |before| && !p.placed[i] && s.link == i && Within(text, s)
    requires !Overlaps(p.spans, s.start, s.end)
    ensures GoodPlacing(text, before, i + 1, Placing(p.spans + [s], p.placed[i := true]))
  {
    var q := Placing(p.spans + [s], p.placed[i := true]);
    forall x, y | 0 <= x < y < |q.spans| ensures Clear(q.spans[x], q.spans[y]) && q.spans[x].link < q.spans[y].link {
      if y == |p.spans| {
        assert p.spans[x] in p.spans;
      }
    }
    forall k | 0 <= k < |before| ensures q.placed[k] <==> before[k] || HasLink(q.spans, k) {
      if HasLink(p.spans, k) {
        var t :| t in p.spans && t.link == k;
        assert t in q.spans;
      }
      if k == i {
        assert s in q.spans;
      }
    }
  }

  lemma SkipLink(text: string, before: seq<bool>, i: nat, p: Placing)
    requires GoodPlacing(text, before, i, p)
    ensures GoodPlacing(text, before, i + 1, p)
  {
  }

  lemma {:induction false} PlaceFromIsGood(e: Engine, links: seq<Link>, text: string, before: seq<bool>, i: nat,
                                           p: Placing)
    requires Lawful(e) && HaveAnchors(links) && |before| == |links| && GoodPlacing(text, before, i, p)
    ensures GoodPlacing(text, before, |links|, PlaceFrom(e, links, text, i, p)) || i > |links|
    decreases |links| - i
  {
    if i < |links| {
      SkipLink(text, before, i, p);
      if p.placed[i] {
        PlaceFromIsGood(e, links, text, before, i + 1, p);
      } else {
        match e.search(links[i].anchor, text) {
          case None => PlaceFromIsGood(e, links, text, before, i + 1, p);
          case Some((start, end)) =>
            if Overlaps(p.spans, start, end) {
              PlaceFromIsGood(e, links, text, before, i + 1, p);
            } else {
              AddSpan(text, before, i, p, Span(start, end, i));
              PlaceFromIsGood(e, links, text, before, i + 1,
                              Placing(p.spans + [Span(start, end, i)], p.placed[i := true]));
            }
        }
      }
    }
  }

  /** Placing links in a text: the spans are inside it and apart, and exactly the links they stand for become placed. */
  lemma PlaceIsGood(e: Engine, links: seq<Link>, text: string, placed: seq<bool>)
    requires Lawful(e) && HaveAnchors(links) && |placed| == |links|
    ensures GoodPlacing(text, placed, |links|, Place(e, links, text, placed))
  {
    PlaceFromIsGood(e, links, text, placed, 0, Placing([], placed));
  }

  // ---------- the spans in text order ----------

  function InsertSpan(s: Span, sorted: seq<Span>): seq<Span> {
    if sorted == [] || s.start < sorted[0].start then [s] + sorted else [sorted[0]] + InsertSpan(s, sorted[1..])
  }

  /** `sorted(spans, key=start)` */
  function InTextOrder(spans: seq<Span>): seq<Span> {
    if spans == [] then [] else InsertSpan(spans[|spans| - 1], InTextOrder(spans[..|spans| - 1]))
  }

  /** Each span ends before the next one starts; the first starts at `pos` or later. */
  ghost predicate Consecutive(text: string, pos: nat, spans: seq<Span>)
    decreases |spans|
  {
    if spans == [] then pos <= |text|
    else pos <= spans[0].start < spans[0].end <= |text| && Consecutive(text, spans[0].end, spans[1..])
  }

  lemma {:induction false} InsertConsecutive(text: string, pos: nat, s: Span, sorted: seq<Span>)
    requires Consecutive(text, pos, sorted) && pos <= s.start && Within(text, s)
             && forall t | t in sorted :: Clear(s, t)
    ensures Consecutive(text, pos, InsertSpan(s, sorted))
    decreases |sorted|
  {
    if sorted == [] {
      assert [s][1..] == [];
    } else {
      assert Clear(s, sorted[0]);
      if s.start < sorted[0].start {
        assert ([s] + sorted)[1..] == sorted;
      } else {
        InsertConsecutive(text, sorted[0].end, s, sorted[1..]);
        assert InsertSpan(s, sorted)[1..] == InsertSpan(s, sorted[1..]);
      }
    }
  }

  lemma {:induction false} InsertedAre(s: Span, sorted: seq<Span>)
    ensures forall t :: t in InsertSpan(s, sorted) <==> t == s || t in sorted
    ensures |InsertSpan(s, sorted)| == |sorted| + 1
  {
    if sorted != [] && s.start >= sorted[0].start {
      InsertedAre(s, sorted[1..]);
      assert sorted == [sorted[0]] + sorted[1..];
    }
  }

  lemma {:induction false} OrderedAre(spans: seq<Span>)
    ensures |InTextOrder(spans)| == |spans| && forall t :: t in InTextOrder(spans) <==> t in spans
  {
    if spans != [] {
      var n := |spans| - 1;
      OrderedAre(spans[..n]);
      InsertedAre(spans[n], InTextOrder(spans[..n]));
      assert spans == spans[..n] + [spans[n]];
    }
  }

  /** Spans that are apart come one after the other once sorted. */
  lemma {:induction false} OrderedIsConsecutive(text: string, spans: seq<Span>)
    requires forall s | s in spans :: Within(text, s)
    requires forall x, y | 0 <= x < y < |spans| :: Clear(spans[x], spans[y])
    ensures Consecutive(text, 0, InTextOrder(spans))
  {
    if spans != [] {
      var n := |spans| - 1;
      OrderedIsConsecutive(text, spans[..n]);
      OrderedAre(spans[..n]);
      forall t | t in InTextOrder(spans[..n]) ensures Clear(spans[n], t) {
        var x :| 0 <= x < n && spans[..n][x] == t;
        assert Clear(spans[x], spans[n]);
      }
      InsertConsecutive(text, 0, spans[n], InTextOrder(spans[..n]));
    }
  }

  // ---------- the walk ----------

  /** What a renderer does, one piece of text after the other. */
  datatype Op = Prose(text: string, allowLinks: bool) | Marks(text: string)

  /** Which links are placed, which unknown labels were met, and which known ones were cited, in order of first use. */
  datatype State = State(placed: seq<bool>, unknown: seq<string>, cited: seq<string>)

  function Add(name: string, list: seq<string>): seq<string> {
    if name in list then list else list + [name]
  }

  /** What meeting one label changes: a known one is cited, another is remembered as unknown. */
  function Meeting(known: set<string>, name: string, s: State): State {
    if name in known then s.(cited := Add(name, s.cited)) else s.(unknown := Add(name, s.unknown))
  }

  function Meet(known: set<string>, labels: seq<string>, s: State): State
    decreases |labels|
  {
    if labels == [] then s else Meet(known, labels[1..], Meeting(known, labels[0], s))
  }

  lemma MeetStep(known: set<string>, labels: seq<string>, i: nat, s: State)
    requires i < |labels|
    ensures Meet(known, labels[i..], s) == Meet(known, labels[i + 1..], Meeting(known, labels[i], s))
  {
    assert labels[i..][0] == labels[i] && labels[i..][1..] == labels[i + 1..];
  }

  function Apply(e: Engine, known: set<string>, links: seq<Link>, op: Op, s: State): State {
    match op
    case Prose(text, allow) => if allow && text != "" then s.(placed := Place(e, links, text, s.placed).placed) else s
    case Marks(text) => Meet(known, Unique(e.labels(text)), s)
  }

  function Walk(e: Engine, known: set<string>, links: seq<Link>, ops: seq<Op>, s: State): State
    decreases |ops|
  {
    if ops == [] then s else Walk(e, known, links, ops[1..], Apply(e, known, links, ops[0], s))
  }

  lemma {:induction false} WalkJoin(e: Engine, known: set<string>, links: seq<Link>, a: seq<Op>, b: seq<Op>, s: State)
    ensures Walk(e, known, links, a + b, s) == Walk(e, known, links, b, Walk(e, known, links, a, s))
    decreases |a|
  {
    if a == [] {
      assert a + b == b;
    } else {
      assert (a + b)[0] == a[0] && (a + b)[1..] == a[1..] + b;
      WalkJoin(e, known, links, a[1..], b, Apply(e, known, links, a[0], s));
    }
  }

  function Cut(s: string, i: nat, j: nat): string {
    if i <= j <= |s| then s[i..j] else ""
  }

  /** The pieces of one text: prose, markers, prose, and so on; the space before a marker is dropped. */
  function OpsFrom(e: Engine, raw: string, allow: bool, markers: seq<(nat, nat)>, pos: nat): seq<Op> {
    if markers == [] then [Prose(Cut(raw, pos, |raw|), allow)]
    else
      [Prose(e.rstrip(Cut(raw, pos, markers[0].0)), allow), Marks(Cut(raw, markers[0].0, markers[0].1))]
      + OpsFrom(e, raw, allow, markers[1..], markers[0].1)
  }

  function TextOps(e: Engine, raw: string, allow: bool): seq<Op> {
    OpsFrom(e, raw, allow, e.markers(raw), 0)
  }

  /** The items of a list that have any text. */
  function Filled(e: Engine, items: seq<string>): seq<string> {
    if items == [] then [] else (if e.strip(items[0]) != "" then [items[0]] else []) + Filled(e, items[1..])
  }

  function ItemOps(e: Engine, items: seq<string>): seq<Op> {
    if items == [] then [] else TextOps(e, items[0], true) + ItemOps(e, items[1..])
  }

  /** Whether a block is written at all. */
  predicate IsShown(e: Engine, b: Block) {
    match b.kind
    case Subheading => b.text.Some? && b.text.value != ""
    case ListBlock => b.items != []
    case Paragraph => b.text.Some? && b.text.value != "" && e.strip(b.text.value) != ""
  }

  function BlockOps(e: Engine, b: Block): seq<Op> {
    if !IsShown(e, b) then []
    else
      match b.kind
      case Subheading => TextOps(e, b.text.value, false)
      case ListBlock => ItemOps(e, Filled(e, b.items))
      case Paragraph => TextOps(e, b.text.value, true)
  }

  function BlocksOps(e: Engine, blocks: seq<Block>): seq<Op> {
    if blocks == [] then [] else BlockOps(e, blocks[0]) + BlocksOps(e, blocks[1..])
  }

  /** The whole article's walk. */
  function ArticleOps(e: Engine, sections: seq<Section>): seq<Op> {
    if sections == [] then [] else BlocksOps(e, sections[0].blocks) + ArticleOps(e, sections[1..])
  }

  /** One block, section or item further. */
  lemma BlockStep(e: Engine, known: set<string>, links: seq<Link>, blocks: seq<Block>, i: nat, s: State)
    requires i < |blocks|
    ensures Walk(e, known, links, BlocksOps(e, blocks[i..]), s)
            == Walk(e, known, links, BlocksOps(e, blocks[i + 1..]), Walk(e, known, links, BlockOps(e, blocks[i]), s))
  {
    assert blocks[i..][0] == blocks[i] && blocks[i..][1..] == blocks[i + 1..];
    WalkJoin(e, known, links, BlockOps(e, blocks[i]), BlocksOps(e, blocks[i + 1..]), s);
  }

  lemma SectionStep(e: Engine, known: set<string>, links: seq<Link>, sections: seq<Section>, i: nat, s: State)
    requires i < |sections|
    ensures Walk(e, known, links, ArticleOps(e, sections[i..]), s)
            == Walk(e, known, links, ArticleOps(e, sections[i + 1..]),
                    Walk(e, known, links, BlocksOps(e, sections[i].blocks), s))
  {
    assert sections[i..][0] == sections[i] && sections[i..][1..] == sections[i + 1..];
    WalkJoin(e, known, links, BlocksOps(e, sections[i].blocks), ArticleOps(e, sections[i + 1..]), s);
  }

  lemma ItemStep(e: Engine, known: set<string>, links: seq<Link>, items: seq<string>, i: nat, s: State)
    requires i < |items|
    ensures Walk(e, known, links, ItemOps(e, items[i..]), s)
            == Walk(e, known, links, ItemOps(e, items[i + 1..]), Walk(e, known, links, TextOps(e, items[i], true), s))
  {
    assert items[i..][0] == items[i] && items[i..][1..] == items[i + 1..];
    WalkJoin(e, known, links, TextOps(e, items[i], true), ItemOps(e, items[i + 1..]), s);
  }

  function Start(links: seq<Link>): State {
    State(seq(|links|, i => false), [], [])
  }

  // ---------- what every walk keeps ----------

  ghost predicate SoundState(known: set<string>, links: seq<Link>, s: State) {
    && |s.placed| == |links|
    && Distinct(s.cited) && (forall l | l in s.cited :: l in known)
    && Distinct(s.unknown) && (forall l | l in s.unknown :: l !in known)
  }

  lemma InPrefix(x: string, a: seq<string>, b: seq<string>)
    requires a <= b
    ensures x in a ==> x in b
  {
    if x in a {
      var i :| 0 <= i < |a| && a[i] == x;
      assert b[i] == x;
    }
  }

  lemma {:induction false} MeetKeeps(known: set<string>, links: seq<Link>, labels: seq<string>, s: State)
    requires SoundState(known, links, s)
    ensures SoundState(known, links, Meet(known, labels, s)) && s.cited <= Meet(known, labels, s).cited
            && s.unknown <= Meet(known, labels, s).unknown
    ensures Meet(known, labels, s).placed == s.placed
    ensures forall l | l in labels :: if l in known then l in Meet(known, labels, s).cited
            else l in Meet(known, labels, s).unknown
    decreases |labels|
  {
    if labels != [] {
      var l := labels[0];
      var next := Meeting(known, l, s);
      MeetKeeps(known, links, labels[1..], next);
      var end := Meet(known, labels, s);
      forall m | m in labels ensures if m in known then m in end.cited else m in end.unknown {
        if m == l {
          InPrefix(l, next.cited, end.cited);
          InPrefix(l, next.unknown, end.unknown);
        } else {
          assert m in labels[1..];
        }
      }
    }
  }

  lemma {:induction false} PlaceLength(e: Engine, links: seq<Link>, text: string, i: nat, p: Placing)
    ensures |PlaceFrom(e, links, text, i, p).placed| == |p.placed|
    ensures forall k | 0 <= k < |p.placed| && p.placed[k] :: PlaceFrom(e, links, text, i, p).placed[k]
    decreases |links| - i
  {
    if i < |links| && i < |p.placed| {
      PlaceLength(e, links, text, i + 1, p);
      match e.search(links[i].anchor, text) {
        case None =>
        case Some((start, end)) => PlaceLength(e, links, text, i + 1,
                                               Placing(p.spans + [Span(start, end, i)], p.placed[i := true]));
      }
    }
  }

  lemma ApplyKeeps(e: Engine, known: set<string>, links: seq<Link>, op: Op, s: State)
    requires SoundState(known, links, s)
    ensures SoundState(known, links, Apply(e, known, links, op, s)) && s.cited <= Apply(e, known, links, op, s).cited
  {
    match op
    case Prose(text, allow) => PlaceLength(e, links, text, 0, Placing([], s.placed));
    case Marks(text) => MeetKeeps(known, links, Unique(e.labels(text)), s);
  }

  lemma {:induction false} WalkKeeps(e: Engine, known: set<string>, links: seq<Link>, ops: seq<Op>, s: State)
    requires SoundState(known, links, s)
    ensures SoundState(known, links, Walk(e, known, links, ops, s)) && s.cited <= Walk(e, known, links, ops, s).cited
    decreases |ops|
  {
    if ops != [] {
      ApplyKeeps(e, known, links, ops[0], s);
      WalkKeeps(e, known, links, ops[1..], Apply(e, known, links, ops[0], s));
    }
  }

  lemma StartIsSound(known: set<string>, links: seq<Link>)
    ensures SoundState(known, links, Start(links))
  {
  }

  // ---------- each link once ----------

  function LinksOf(spans: seq<Span>): seq<nat> {
    if spans == [] then [] else [spans[0].link] + LinksOf(spans[1..])
  }

  /** The links a walk puts inline, in the order they are written. */
  function Inlined(e: Engine, known: set<string>, links: seq<Link>, ops: seq<Op>, s: State): seq<nat>
    decreases |ops|
  {
    if ops == [] then []
    else
      (if ops[0].Prose? && ops[0].allowLinks && ops[0].text != ""
       then LinksOf(InTextOrder(Place(e, links, ops[0].text, s.placed).spans)) else [])
      + Inlined(e, known, links, ops[1..], Apply(e, known, links, ops[0], s))
  }

  lemma {:induction false} LinksOfAre(spans: seq<Span>, k: nat)
    ensures k in LinksOf(spans) <==> HasLink(spans, k)
  {
    if spans != [] {
      LinksOfAre(spans[1..], k);
      assert spans == [spans[0]] + spans[1..];
    }
  }

  lemma {:induction false} InsertLinks(s: Span, sorted: seq<Span>)
    requires Distinct(LinksOf(sorted)) && s.link !in LinksOf(sorted)
    ensures Distinct(LinksOf(InsertSpan(s, sorted)))
    ensures forall k :: k in LinksOf(InsertSpan(s, sorted)) <==> k == s.link || k in LinksOf(sorted)
  {
    if sorted == [] || s.start < sorted[0].start {
      assert LinksOf([s] + sorted) == [s.link] + LinksOf(sorted) by {
        assert ([s] + sorted)[1..] == sorted;
      }
    } else {
      var f, rest := sorted[0], InsertSpan(s, sorted[1..]);
      assert LinksOf(sorted) == [f.link] + LinksOf(sorted[1..]);
      assert forall i | 0 <= i < |LinksOf(sorted[1..])| :: LinksOf(sorted[1..])[i] == LinksOf(sorted)[1..][i];
      assert f.link !in LinksOf(sorted[1..]) by {
        DistinctHead(f.link, LinksOf(sorted[1..]));
      }
      InsertLinks(s, sorted[1..]);
      assert ([f] + rest)[1..] == rest;
      assert LinksOf([f] + rest) == [f.link] + LinksOf(rest);
    }
  }

  lemma DistinctHead(x: nat, rest: seq<nat>)
    requires Distinct([x] + rest)
    ensures x !in rest && Distinct(rest)
  {
    var all := [x] + rest;
    forall i | 0 <= i < |rest| ensures rest[i] != x {
      assert all[0] != all[i + 1];
    }
    forall i, j | 0 <= i < j < |rest| ensures rest[i] != rest[j] {
      assert all[i + 1] != all[j + 1];
    }
  }

  lemma {:induction false} OrderedLinks(spans: seq<Span>)
    requires forall x, y | 0 <= x < y < |spans| :: spans[x].link < spans[y].link
    ensures Distinct(LinksOf(InTextOrder(spans)))
    ensures forall k :: k in LinksOf(InTextOrder(spans)) <==> HasLink(spans, k)
  {
    forall k ensures k in LinksOf(InTextOrder(spans)) <==> HasLink(spans, k) {
      LinksOfAre(InTextOrder(spans), k);
      OrderedAre(spans);
    }
    if spans != [] {
      var n := |spans| - 1;
      OrderedLinks(spans[..n]);
      InsertLinks(spans[n], InTextOrder(spans[..n]));
    }
  }

  lemma DistinctJoin(a: seq<nat>, b: seq<nat>)
    requires Distinct(a) && Distinct(b) && forall x | x in a :: x !in b
    ensures Distinct(a + b)
  {
    var all := a + b;
    forall i, j | 0 <= i < j < |all| ensures all[i] != all[j] {
      if i < |a| && j >= |a| {
        assert all[i] in a && all[j] == b[j - |a|];
      }
    }
  }

  /**
   * Over the whole document each link is put inline at most once, and the links put inline are those that end as
   * placed.
   */
  lemma {:induction false} EachLinkOnce(e: Engine, known: set<string>, links: seq<Link>, ops: seq<Op>, s: State)
    requires Lawful(e) && HaveAnchors(links) && |s.placed| == |links|
    ensures var inlined, end := Inlined(e, known, links, ops, s), Walk(e, known, links, ops, s);
            && Distinct(inlined) && |end.placed| == |links|
            && (forall k | k in inlined :: k < |links| && !s.placed[k])
            && (forall k | 0 <= k < |links| :: end.placed[k] <==> s.placed[k] || k in inlined)
    decreases |ops|
  {
    if ops != [] {
      var mid := Apply(e, known, links, ops[0], s);
      MidPlaced(e, known, links, ops[0], s);
      EachLinkOnce(e, known, links, ops[1..], mid);
      if ops[0].Prose? && ops[0].allowLinks && ops[0].text != "" {
        var here, later := LinksOf(InTextOrder(Place(e, links, ops[0].text, s.placed).spans)),
            Inlined(e, known, links, ops[1..], mid);
        DistinctJoin(here, later);
      }
    }
  }

  lemma {:induction false} MeetLeavesPlaced(known: set<string>, labels: seq<string>, s: State)
    ensures Meet(known, labels, s).placed == s.placed
    decreases |labels|
  {
    if labels != [] {
      MeetLeavesPlaced(known, labels[1..], Meeting(known, labels[0], s));
    }
  }

  lemma MidPlaced(e: Engine, known: set<string>, links: seq<Link>, op: Op, s: State)
    requires Lawful(e) && HaveAnchors(links) && |s.placed| == |links|
    ensures var mid := Apply(e, known, links, op, s);
            && |mid.placed| == |links|
            && (if op.Prose? && op.allowLinks && op.text != "" then
                  var here := LinksOf(InTextOrder(Place(e, links, op.text, s.placed).spans));
                  && Distinct(here) && (forall k | k in here :: k < |links| && !s.placed[k])
                  && (forall k | 0 <= k < |links| :: mid.placed[k] <==> s.placed[k] || k in here)
                else mid.placed == s.placed)
  {
    match op {
      case Marks(text) => MeetLeavesPlaced(known, Unique(e.labels(text)), s);
      case Prose(text, allow) =>
        if allow && text != "" {
          PlaceIsGood(e, links, text, s.placed);
          var p := Place(e, links, text, s.placed);
          OrderedLinks(p.spans);
          forall k | k in LinksOf(InTextOrder(p.spans)) ensures k < |links| && !s.placed[k] {
            var t :| t in p.spans && t.link == k;
          }
        }
    }
  }
}
