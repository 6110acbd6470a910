// The HTML renderer.
module HtmlRenderer {
  // app/services/article_render.py: the HTML renderer's citation numbers, its links, and what it writes.

  import opened Sequences
  import opened Wrappers
  import opened Numerals
  import opened HtmlText
  import opened RenderWalk

  /** A stored source: its title, if any, and URL. */
  type SourceMap = map<string, (Option<string>, string)>

  // ---------- a piece of prose ----------

  /** The text from `pos` on, with its links; the spans are in text order. */
  function PlainHtml(links: seq<Link>, text: string, spans: seq<Span>, pos: nat): string
    decreases |spans|
  {
    if spans == [] then EscapeHtml(Cut(text, pos, |text|))
    else
      EscapeHtml(Cut(text, pos, spans[0].start)) + LinkHtml(links, spans[0], text)
          + PlainHtml(links, text, spans[1..], spans[0].end)
  }

  function LinkHtml(links: seq<Link>, s: Span, text: string): string {
    if s.link < |links| then Anchor(links[s.link].url, links[s.link].kind == External, Cut(text, s.start, s.end))
        else ""
  }

  lemma CutJoin(text: string, a: nat, b: nat, c: nat)
    requires a <= b <= c <= |text|
    ensures Cut(text, a, b) + Cut(text, b, c) == Cut(text, a, c)
    ensures EscapeHtml(Cut(text, a, b)) + EscapeHtml(Cut(text, b, c)) == EscapeHtml(Cut(text, a, c))
  {
    assert text[a..b] + text[b..c] == text[a..c];
    EscapeJoin(text[a..b], text[b..c]);
  }

  /** Removing the tags from a piece of prose gives back the escaped text. */
  lemma {:induction false} PlainStrips(links: seq<Link>, text: string, spans: seq<Span>, pos: nat)
    requires Consecutive(text, pos, spans) && forall s | s in spans :: s.link < |links|
    ensures pos <= |text|
    ensures StripTags(PlainHtml(links, text, spans, pos), false) == EscapeHtml(Cut(text, pos, |text|))
    decreases |spans|
  {
    if spans == [] {
      var t := EscapeHtml(Cut(text, pos, |text|));
      EscapedIsInert(Cut(text, pos, |text|));
      StripText(t, "");
      assert t + "" == t;
    } else {
      var s := spans[0];
      PlainStrips(links, text, spans[1..], s.end);
      var before, shown := Cut(text, pos, s.start), Cut(text, s.start, s.end);
      var rest := PlainHtml(links, text, spans[1..], s.end);
      EscapedIsInert(before);
      StripLink(EscapeHtml(before), links[s.link].url, links[s.link].kind == External, shown, rest);
      CutJoin(text, s.start, s.end, |text|);
      CutJoin(text, pos, s.start, |text|);
    }
  }

  lemma StripLink(before: string, url: string, external: bool, shown: string, rest: string)
    requires '<' !in before
    ensures StripTags(before + Anchor(url, external, shown) + rest, false)
            == before + (EscapeHtml(shown) + StripTags(rest, false))
  {
    var a := Anchor(url, external, shown);
    assert before + a + rest == before + (a + rest);
    StripText(before, a + rest);
    StripAnchor(url, external, shown, rest);
  }

  /** For any text and links: what is written for it shows exactly the text. */
  lemma ProseShowsTheText(e: Engine, links: seq<Link>, text: string, placed: seq<bool>)
    requires Lawful(e) && HaveAnchors(links) && |placed| == |links|
    ensures StripTags(PlainHtml(links, text, InTextOrder(Place(e, links, text, placed).spans), 0), false)
            == EscapeHtml(text)
  {
    PlaceIsGood(e, links, text, placed);
    var spans := Place(e, links, text, placed).spans;
    OrderedIsConsecutive(text, spans);
    OrderedAre(spans);
    PlainStrips(links, text, InTextOrder(spans), 0);
    assert Cut(text, 0, |text|) == text;
  }

  // ---------- citations ----------

  /** The number of a label that is cited, or will be next. */
  function NumberOf(name: string, cited: seq<string>): nat {
    if cited == [] then 1 else if cited[0] == name then 1 else NumberOf(name, cited[1..]) + 1
  }

  lemma {:induction false} NumberOfIs(name: string, cited: seq<string>)
    ensures var n := NumberOf(name, cited);
            if name in cited then 1 <= n <= |cited| && cited[n - 1] == name else n == |cited| + 1
  {
    if cited != [] && cited[0] != name {
      NumberOfIs(name, cited[1..]);
      assert cited == [cited[0]] + cited[1..];
    }
  }

  /** The references a group of markers becomes: each known label with its number. */
  function Refs(known: set<string>, labels: seq<string>, cited: seq<string>): seq<(string, nat)> {
    if labels == [] then []
    else if labels[0] !in known then Refs(known, labels[1..], cited)
    else [(labels[0], NumberOf(labels[0], cited))] + Refs(known, labels[1..], Add(labels[0], cited))
  }

  function RefHtml(n: nat): string {
    "<a href=\"#source-" + Decimal(n) + "\">[" + Decimal(n) + "]</a>"
  }

  function RefsHtml(refs: seq<(string, nat)>): string {
    if refs == [] then "" else RefHtml(refs[0].1) + RefsHtml(refs[1..])
  }

  function CiteHtml(refs: seq<(string, nat)>): string {
    if refs == [] then "" else "<sup class=\"citation\">" + RefsHtml(refs) + "</sup>"
  }

  lemma {:induction false} RefsJoin(a: seq<(string, nat)>, b: seq<(string, nat)>)
    ensures RefsHtml(a + b) == RefsHtml(a) + RefsHtml(b)
  {
    if a == [] {
      assert a + b == b;
    } else {
      assert (a + b)[0] == a[0] && (a + b)[1..] == a[1..] + b;
      RefsJoin(a[1..], b);
    }
  }

  /** Every reference a walk writes. */
  function AllRefs(e: Engine, known: set<string>, links: seq<Link>, ops: seq<Op>, s: State): seq<(string, nat)>
    decreases |ops|
  {
    if ops == [] then []
    else
      (if ops[0].Marks? then Refs(known, Unique(e.labels(ops[0].text)), s.cited) else [])
      + AllRefs(e, known, links, ops[1..], Apply(e, known, links, ops[0], s))
  }

  predicate Resolves(r: (string, nat), cited: seq<string>) {
    1 <= r.1 <= |cited| && cited[r.1 - 1] == r.0
  }

  lemma {:induction false} RefsResolve(known: set<string>, links: seq<Link>, labels: seq<string>, s: State)
    requires SoundState(known, links, s)
    ensures forall r | r in Refs(known, labels, s.cited) :: Resolves(r, Meet(known, labels, s).cited)
    decreases |labels|
  {
    if labels != [] {
      var l := labels[0];
      var next := Meeting(known, l, s);
      RefsResolve(known, links, labels[1..], next);
      MeetKeeps(known, links, labels[1..], next);
      if l in known {
        NumberOfIs(l, s.cited);
        assert Resolves((l, NumberOf(l, s.cited)), next.cited);
      }
    }
  }

  /** Every reference of the article leads to the source it cites, by the number that source ends up with. */
  lemma {:induction false} EveryReferenceResolves(e: Engine, known: set<string>, links: seq<Link>, ops: seq<Op>,
                                                  s: State)
    requires SoundState(known, links, s)
    ensures forall r | r in AllRefs(e, known, links, ops, s) :: Resolves(r, Walk(e, known, links, ops, s).cited)
    decreases |ops|
  {
    if ops != [] {
      var mid := Apply(e, known, links, ops[0], s);
      ApplyKeeps(e, known, links, ops[0], s);
      WalkKeeps(e, known, links, ops[1..], mid);
      EveryReferenceResolves(e, known, links, ops[1..], mid);
      if ops[0].Marks? {
        RefsResolve(known, links, Unique(e.labels(ops[0].text)), s);
        var here := Refs(known, Unique(e.labels(ops[0].text)), s.cited);
        forall r | r in here ensures Resolves(r, Walk(e, known, links, ops, s).cited) {
          assert Resolves(r, mid.cited);
        }
      }
    }
  }

  /** The known labels of a walk, as they come. */
  function KnownLabels(e: Engine, known: set<string>, ops: seq<Op>): seq<string> {
    if ops == [] then []
    else
      (if ops[0].Marks? then Those(known, Unique(e.labels(ops[0].text)), true) else [])
      + KnownLabels(e, known, ops[1..])
  }

  function Those(known: set<string>, labels: seq<string>, wanted: bool): seq<string> {
    if labels == [] then []
    else (if (labels[0] in known) == wanted then [labels[0]] else []) + Those(known, labels[1..], wanted)
  }

  function UnknownLabels(e: Engine, known: set<string>, ops: seq<Op>): seq<string> {
    if ops == [] then []
    else
      (if ops[0].Marks? then Those(known, Unique(e.labels(ops[0].text)), false) else [])
      + UnknownLabels(e, known, ops[1..])
  }

  function AddAll(list: seq<string>, names: seq<string>): seq<string>
    decreases |names|
  {
    if names == [] then list else AddAll(Add(names[0], list), names[1..])
  }

  lemma {:induction false} AddAllJoin(list: seq<string>, a: seq<string>, b: seq<string>)
    ensures AddAll(list, a + b) == AddAll(AddAll(list, a), b)
    decreases |a|
  {
    if a == [] {
      assert a + b == b;
    } else {
      assert (a + b)[0] == a[0] && (a + b)[1..] == a[1..] + b;
      AddAllJoin(Add(a[0], list), a[1..], b);
    }
  }

  lemma {:induction false} AddAllIsUnique(names: seq<string>)
    ensures AddAll([], names) == Unique(names)
    decreases |names|
  {
    if names != [] {
      var n := |names| - 1;
      assert names == names[..n] + [names[n]];
      AddAllJoin([], names[..n], [names[n]]);
      AddAllIsUnique(names[..n]);
      assert [names[n]][1..] == [];
    }
  }

  lemma {:induction false} MeetAdds(known: set<string>, labels: seq<string>, s: State)
    ensures Meet(known, labels, s).cited == AddAll(s.cited, Those(known, labels, true))
    ensures Meet(known, labels, s).unknown == AddAll(s.unknown, Those(known, labels, false))
    decreases |labels|
  {
    if labels != [] {
      var l := labels[0];
      var next := Meeting(known, l, s);
      MeetAdds(known, labels[1..], next);
      var met, missed := Those(known, labels[1..], true), Those(known, labels[1..], false);
      assert ([l] + met)[1..] == met && ([l] + missed)[1..] == missed;
      assert [] + met == met && [] + missed == missed;
    }
  }

  lemma {:induction false} WalkCites(e: Engine, known: set<string>, links: seq<Link>, ops: seq<Op>, s: State)
    ensures Walk(e, known, links, ops, s).cited == AddAll(s.cited, KnownLabels(e, known, ops))
    decreases |ops|
  {
    if ops != [] {
      var rest := KnownLabels(e, known, ops[1..]);
      WalkCites(e, known, links, ops[1..], Apply(e, known, links, ops[0], s));
      if ops[0].Marks? {
        var labels := Unique(e.labels(ops[0].text));
        MeetAdds(known, labels, s);
        AddAllJoin(s.cited, Those(known, labels, true), rest);
      } else {
        assert [] + rest == rest;
      }
    }
  }

  lemma {:induction false} WalkMisses(e: Engine, known: set<string>, links: seq<Link>, ops: seq<Op>, s: State)
    ensures Walk(e, known, links, ops, s).unknown == AddAll(s.unknown, UnknownLabels(e, known, ops))
    decreases |ops|
  {
    if ops != [] {
      var rest := UnknownLabels(e, known, ops[1..]);
      WalkMisses(e, known, links, ops[1..], Apply(e, known, links, ops[0], s));
      if ops[0].Marks? {
        var labels := Unique(e.labels(ops[0].text));
        MeetAdds(known, labels, s);
        AddAllJoin(s.unknown, Those(known, labels, false), rest);
      } else {
        assert [] + rest == rest;
      }
    }
  }

  /**
   * Sources are numbered 1 to k in the order of their first citation, one number each; unknown labels are listed once.
   */
  lemma NumberedByFirstUse(e: Engine, known: set<string>, links: seq<Link>, ops: seq<Op>)
    ensures var s := Walk(e, known, links, ops, Start(links));
            && s.cited == Unique(KnownLabels(e, known, ops)) && s.unknown == Unique(UnknownLabels(e, known, ops))
            && Distinct(s.cited) && (forall l | l in s.cited :: l in known)
  {
    WalkCites(e, known, links, ops, Start(links));
    WalkMisses(e, known, links, ops, Start(links));
    AddAllIsUnique(KnownLabels(e, known, ops));
    AddAllIsUnique(UnknownLabels(e, known, ops));
    StartIsSound(known, links);
    WalkKeeps(e, known, links, ops, Start(links));
  }

  // ---------- what is written ----------

  function OpHtml(e: Engine, known: set<string>, links: seq<Link>, op: Op, s: State): string {
    match op
    case Prose(text, allow) =>
      if allow && text != "" then PlainHtml(links, text, InTextOrder(Place(e, links, text, s.placed).spans), 0)
          else EscapeHtml(text)
    case Marks(text) => CiteHtml(Refs(known, Unique(e.labels(text)), s.cited))
  }

  function OpsHtml(e: Engine, known: set<string>, links: seq<Link>, ops: seq<Op>, s: State): string
    decreases |ops|
  {
    if ops == [] then ""
    else OpHtml(e, known, links, ops[0], s) + OpsHtml(e, known, links, ops[1..], Apply(e, known, links, ops[0], s))
  }

  /** One piece of article text. */
  function TextHtml(e: Engine, known: set<string>, links: seq<Link>, raw: string, allow: bool, s: State): string {
    e.strip(e.tidy(OpsHtml(e, known, links, TextOps(e, raw, allow), s)))
  }

  function AfterText(e: Engine, known: set<string>, links: seq<Link>, raw: string, allow: bool, s: State): State {
    Walk(e, known, links, TextOps(e, raw, allow), s)
  }

  function ItemsHtml(e: Engine, known: set<string>, links: seq<Link>, items: seq<string>, s: State): string
    decreases |items|
  {
    if items == [] then ""
    else
      "<li>" + TextHtml(e, known, links, items[0], true, s) + "</li>"
      + ItemsHtml(e, known, links, items[1..], AfterText(e, known, links, items[0], true, s))
  }

  function BlockHtml(e: Engine, known: set<string>, links: seq<Link>, b: Block, s: State): seq<string> {
    if !IsShown(e, b) then []
    else
      match b.kind
      case Subheading => ["<h3>" + TextHtml(e, known, links, b.text.value, false, s) + "</h3>"]
      case ListBlock =>
        var tag := if b.ordered then "ol" else "ul";
        ["<" + tag + ">" + ItemsHtml(e, known, links, Filled(e, b.items), s) + "</" + tag + ">"]
      case Paragraph => ["<p>" + TextHtml(e, known, links, b.text.value, true, s) + "</p>"]
  }

  function BlocksHtml(e: Engine, known: set<string>, links: seq<Link>, blocks: seq<Block>, s: State): seq<string>
    decreases |blocks|
  {
    if blocks == [] then []
    else
      BlockHtml(e, known, links, blocks[0], s)
      + BlocksHtml(e, known, links, blocks[1..], Walk(e, known, links, BlockOps(e, blocks[0]), s))
  }

  function HeadingHtml(section: Section): seq<string> {
    if section.heading != "" then ["<h2>" + EscapeHtml(section.heading) + "</h2>"] else []
  }

  function SectionsHtml(e: Engine, known: set<string>, links: seq<Link>, sections: seq<Section>, s: State): seq<string>
    decreases |sections|
  {
    if sections == [] then []
    else
      HeadingHtml(sections[0]) + BlocksHtml(e, known, links, sections[0].blocks, s)
      + SectionsHtml(e, known, links, sections[1..], Walk(e, known, links, BlocksOps(e, sections[0].blocks), s))
  }

  /** The numbers held for the labels cited so far. */
  ghost predicate Numbered(numbers: map<string, nat>, cited: seq<string>) {
    && |numbers| == |cited|
    && (forall l :: l in numbers <==> l in cited)
    && (forall i | 0 <= i < |cited| :: numbers[cited[i]] == i + 1)
  }

  lemma ItemHtmlStep(e: Engine, known: set<string>, links: seq<Link>, items: seq<string>, i: nat, s: State, out: string)
    requires i < |items|
    ensures out + ItemsHtml(e, known, links, items[i..], s)
            == (out + ("<li>" + TextHtml(e, known, links, items[i], true, s) + "</li>"))
               + ItemsHtml(e, known, links, items[i + 1..], AfterText(e, known, links, items[i], true, s))
  {
    assert items[i..][0] == items[i] && items[i..][1..] == items[i + 1..];
    Assoc(out, "<li>" + TextHtml(e, known, links, items[i], true, s) + "</li>",
          ItemsHtml(e, known, links, items[i + 1..], AfterText(e, known, links, items[i], true, s)));
  }

  lemma BlockHtmlStep(e: Engine, known: set<string>, links: seq<Link>, blocks: seq<Block>, i: nat, s: State,
                      parts: seq<string>)
    requires i < |blocks|
    ensures parts + BlocksHtml(e, known, links, blocks[i..], s)
            == (parts + BlockHtml(e, known, links, blocks[i], s))
               + BlocksHtml(e, known, links, blocks[i + 1..], Walk(e, known, links, BlockOps(e, blocks[i]), s))
  {
    assert blocks[i..][0] == blocks[i] && blocks[i..][1..] == blocks[i + 1..];
    Assoc(parts, BlockHtml(e, known, links, blocks[i], s),
          BlocksHtml(e, known, links, blocks[i + 1..], Walk(e, known, links, BlockOps(e, blocks[i]), s)));
  }

  lemma SectionHtmlStep(e: Engine, known: set<string>, links: seq<Link>, sections: seq<Section>, i: nat, s: State,
                        parts: seq<string>)
    requires i < |sections|
    ensures parts + SectionsHtml(e, known, links, sections[i..], s)
            == (parts + HeadingHtml(sections[i]) + BlocksHtml(e, known, links, sections[i].blocks, s))
               + SectionsHtml(e, known, links, sections[i + 1..],
                              Walk(e, known, links, BlocksOps(e, sections[i].blocks), s))
  {
    assert sections[i..][0] == sections[i] && sections[i..][1..] == sections[i + 1..];
    Regroup(parts, HeadingHtml(sections[i]), BlocksHtml(e, known, links, sections[i].blocks, s),
            SectionsHtml(e, known, links, sections[i + 1..],
                         Walk(e, known, links, BlocksOps(e, sections[i].blocks), s)));
  }

  lemma SpanStep(links: seq<Link>, text: string, spans: seq<Span>, i: nat, pos: nat, out: string)
    requires i < |spans|
    ensures out + PlainHtml(links, text, spans[i..], pos)
            == (out + EscapeHtml(Cut(text, pos, spans[i].start)) + LinkHtml(links, spans[i], text))
               + PlainHtml(links, text, spans[i + 1..], spans[i].end)
  {
    assert spans[i..][0] == spans[i] && spans[i..][1..] == spans[i + 1..];
    Regroup(out, EscapeHtml(Cut(text, pos, spans[i].start)), LinkHtml(links, spans[i], text),
            PlainHtml(links, text, spans[i + 1..], spans[i].end));
  }

  lemma RefStep(known: set<string>, labels: seq<string>, i: nat, s: State, refs: seq<(string, nat)>)
    requires i < |labels|
    ensures refs + Refs(known, labels[i..], s.cited)
            == (if labels[i] in known then refs + [(labels[i], NumberOf(labels[i], s.cited))] else refs)
               + Refs(known, labels[i + 1..], Meeting(known, labels[i], s).cited)
  {
    assert labels[i..][0] == labels[i] && labels[i..][1..] == labels[i + 1..];
    if labels[i] in known {
      var r, rest := [(labels[i], NumberOf(labels[i], s.cited))], Refs(known, labels[i + 1..], Add(labels[i], s.cited));
      assert refs + (r + rest) == (refs + r) + rest;
    }
  }

  lemma LastOp(e: Engine, known: set<string>, links: seq<Link>, op: Op, s: State)
    ensures Walk(e, known, links, [op], s) == Apply(e, known, links, op, s)
    ensures OpsHtml(e, known, links, [op], s) == OpHtml(e, known, links, op, s)
  {
    assert [op][1..] == [];
    assert OpHtml(e, known, links, op, s) + "" == OpHtml(e, known, links, op, s);
  }

  class Renderer {
    const e: Engine
    const sources: SourceMap
    const links: seq<Link>
    var numbers: map<string, nat>
    var unknown: seq<string>
    var placed: seq<bool>
    ghost var cited: seq<string>

    constructor (e: Engine, sources: SourceMap, links: seq<Link>)
      requires Lawful(e) && HaveAnchors(links)
      ensures this.e == e && this.sources == sources && this.links == links
      ensures Valid() && View() == Start(links)
    {
      this.e, this.sources, this.links := e, sources, links;
      numbers, unknown, placed := map[], [], seq(|links|, i => false);
      cited := [];
    }

    ghost predicate Valid()
      reads this
    {
      Lawful(e) && HaveAnchors(links) && SoundState(sources.Keys, links, View()) && Numbered(numbers, cited)
    }

    ghost function View(): State
      reads this
    {
      State(placed, unknown, cited)
    }

    /** `_plain`: the links not placed yet that fit, then the text around them. */
    method Plain(text: string, allow: bool) returns (out: string)
      requires Valid()
      modifies this`placed
      ensures Valid() && View() == Apply(e, sources.Keys, links, Prose(text, allow), old(View()))
      ensures out == OpHtml(e, sources.Keys, links, Prose(text, allow), old(View()))
      ensures StripTags(out, false) == EscapeHtml(text)
    {
      ApplyKeeps(e, sources.Keys, links, Prose(text, allow), View());
      if !allow || text == "" {
        EscapedIsInert(text);
        StripText(EscapeHtml(text), "");
        assert EscapeHtml(text) + "" == EscapeHtml(text);
        return EscapeHtml(text);
      }
      var spans := PlaceLinks(text);
      ProseShowsTheText(e, links, text, old(placed));
      out := WriteSpans(text, InTextOrder(spans));
    }

    method PlaceLinks(text: string) returns (spans: seq<Span>)
      requires |placed| == |links|
      modifies this`placed
      ensures Placing(spans, placed) == Place(e, links, text, old(placed))
    {
      spans := [];
      for i := 0 to |links|
        invariant |placed| == |links|
        invariant PlaceFrom(e, links, text, i, Placing(spans, placed)) == Place(e, links, text, old(placed))
      {
        if placed[i] {
          continue;
        }
        var found := e.search(links[i].anchor, text);
        if found.Some? && !Overlaps(spans, found.value.0, found.value.1) {
          spans := spans + [Span(found.value.0, found.value.1, i)];
          placed := placed[i := true];
        }
      }
    }

    method WriteSpans(text: string, spans: seq<Span>) returns (out: string)
      ensures out == PlainHtml(links, text, spans, 0)
    {
      var pos := 0;
      out := "";
      for i := 0 to |spans|
        invariant out + PlainHtml(links, text, spans[i..], pos) == PlainHtml(links, text, spans, 0)
      {
        var s := spans[i];
        SpanStep(links, text, spans, i, pos, out);
        var before, link := EscapeHtml(Cut(text, pos, s.start)), LinkHtml(links, s, text);
        out := out + before + link;
        pos := s.end;
      }
      out := out + EscapeHtml(Cut(text, pos, |text|));
    }

    /** `_cite`: a label is numbered when first cited, and a label without a stored source is only remembered. */
    method Cite(marks: string) returns (out: string)
      requires Valid()
      modifies this`numbers, this`unknown, this`cited
      ensures Valid() && View() == Apply(e, sources.Keys, links, Marks(marks), old(View()))
      ensures out == OpHtml(e, sources.Keys, links, Marks(marks), old(View()))
    {
      var labels := Unique(e.labels(marks));
      var refs := [];
      for i := 0 to |labels|
        invariant Valid()
        invariant Meet(sources.Keys, labels[i..], View()) == Meet(sources.Keys, labels, old(View()))
        invariant refs + Refs(sources.Keys, labels[i..], cited) == Refs(sources.Keys, labels, old(cited))
      {
        MeetStep(sources.Keys, labels, i, View());
        RefStep(sources.Keys, labels, i, View(), refs);
        var number := Reference(labels[i]);
        if number.Some? {
          refs := refs + [(labels[i], number.value)];
        }
      }
      assert labels[|labels|..] == [] && refs + [] == refs;
      out := CiteHtml(refs);
    }

    /** One label: its number, if it has a stored source. */
    method Reference(name: string) returns (number: Option<nat>)
      requires Valid()
      modifies this`numbers, this`unknown, this`cited
      ensures Valid() && View() == Meeting(sources.Keys, name, old(View()))
      ensures number == if name in sources then Some(NumberOf(name, old(cited))) else None
    {
      if name !in sources {
        if name !in unknown {
          unknown := unknown + [name];
        }
        return None;
      }
      NumberOfIs(name, cited);
      if name !in numbers {
        numbers := numbers[name := |numbers| + 1];
        cited := cited + [name];
      }
      number := Some(numbers[name]);
    }

    method Text(raw: string, allow: bool) returns (out: string)
      requires Valid()
      modifies this
      ensures Valid() && View() == AfterText(e, sources.Keys, links, raw, allow, old(View()))
      ensures out == TextHtml(e, sources.Keys, links, raw, allow, old(View()))
    {
      ghost var known := sources.Keys;
      var markers, pos := e.markers(raw), 0;
      out := "";
      for i := 0 to |markers|
        invariant Valid()
        invariant Walk(e, known, links, OpsFrom(e, raw, allow, markers[i..], pos), View())
                  == AfterText(e, known, links, raw, allow, old(View()))
        invariant out + OpsHtml(e, known, links, OpsFrom(e, raw, allow, markers[i..], pos), View())
                  == OpsHtml(e, known, links, TextOps(e, raw, allow), old(View()))
      {
        var m := markers[i];
        ghost var before := View();
        ghost var rest := OpsFrom(e, raw, allow, markers[i + 1..], m.1);
        var prose, marks := e.rstrip(Cut(raw, pos, m.0)), Cut(raw, m.0, m.1);
        TwoOps(e, known, links, Prose(prose, allow), Marks(marks), rest, before);
        assert markers[i..][0] == m && markers[i..][1..] == markers[i + 1..];
        var plain := Plain(prose, allow);
        var cite := Cite(marks);
        Regroup(out, plain, cite, OpsHtml(e, known, links, rest, View()));
        out := out + plain + cite;
        pos := m.1;
      }
      assert markers[|markers|..] == [];
      LastOp(e, known, links, Prose(Cut(raw, pos, |raw|), allow), View());
      var plain := Plain(Cut(raw, pos, |raw|), allow);
      out := e.strip(e.tidy(out + plain));
    }

    method Block(b: Block) returns (parts: seq<string>)
      requires Valid()
      modifies this
      ensures Valid() && View() == Walk(e, sources.Keys, links, BlockOps(e, b), old(View()))
      ensures parts == BlockHtml(e, sources.Keys, links, b, old(View()))
    {
      if !IsShown(e, b) {
        return [];
      }
      match b.kind {
        case Subheading =>
          var text := Text(b.text.value, false);
          parts := ["<h3>" + text + "</h3>"];
        case ListBlock =>
          var tag := if b.ordered then "ol" else "ul";
          var items := Items(Filled(e, b.items));
          parts := ["<" + tag + ">" + items + "</" + tag + ">"];
        case Paragraph =>
          var text := Text(b.text.value, true);
          parts := ["<p>" + text + "</p>"];
      }
    }

    method Items(items: seq<string>) returns (out: string)
      requires Valid()
      modifies this
      ensures Valid() && View() == Walk(e, sources.Keys, links, ItemOps(e, items), old(View()))
      ensures out == ItemsHtml(e, sources.Keys, links, items, old(View()))
    {
      ghost var known := sources.Keys;
      out := "";
      for i := 0 to |items|
        invariant Valid()
        invariant Walk(e, known, links, ItemOps(e, items[i..]), View())
                  == Walk(e, known, links, ItemOps(e, items), old(View()))
        invariant out + ItemsHtml(e, known, links, items[i..], View()) == ItemsHtml(e, known, links, items, old(View()))
      {
        ItemStep(e, known, links, items, i, View());
        ItemHtmlStep(e, known, links, items, i, View(), out);
        var text := Text(items[i], true);
        out := out + ("<li>" + text + "</li>");
      }
      assert items[|items|..] == [];
    }

    method Blocks(blocks: seq<Block>) returns (parts: seq<string>)
      requires Valid()
      modifies this
      ensures Valid() && View() == Walk(e, sources.Keys, links, BlocksOps(e, blocks), old(View()))
      ensures parts == BlocksHtml(e, sources.Keys, links, blocks, old(View()))
    {
      ghost var known := sources.Keys;
      parts := [];
      for i := 0 to |blocks|
        invariant Valid()
        invariant Walk(e, known, links, BlocksOps(e, blocks[i..]), View())
                  == Walk(e, known, links, BlocksOps(e, blocks), old(View()))
        invariant parts + BlocksHtml(e, known, links, blocks[i..], View())
                  == BlocksHtml(e, known, links, blocks, old(View()))
      {
        BlockStep(e, known, links, blocks, i, View());
        BlockHtmlStep(e, known, links, blocks, i, View(), parts);
        var more := Block(blocks[i]);
        parts := parts + more;
      }
      assert blocks[|blocks|..] == [];
    }

    /** The sections of the article, in order. */
    method Sections(sections: seq<Section>) returns (parts: seq<string>)
      requires Valid()
      modifies this
      ensures Valid() && View() == Walk(e, sources.Keys, links, ArticleOps(e, sections), old(View()))
      ensures parts == SectionsHtml(e, sources.Keys, links, sections, old(View()))
    {
      ghost var known := sources.Keys;
      parts := [];
      for i := 0 to |sections|
        invariant Valid()
        invariant Walk(e, known, links, ArticleOps(e, sections[i..]), View())
                  == Walk(e, known, links, ArticleOps(e, sections), old(View()))
        invariant parts + SectionsHtml(e, known, links, sections[i..], View())
                  == SectionsHtml(e, known, links, sections, old(View()))
      {
        SectionStep(e, known, links, sections, i, View());
        SectionHtmlStep(e, known, links, sections, i, View(), parts);
        var blocks := Blocks(sections[i].blocks);
        parts := parts + HeadingHtml(sections[i]) + blocks;
      }
      assert sections[|sections|..] == [];
    }
  }

  lemma TwoOps(e: Engine, known: set<string>, links: seq<Link>, a: Op, b: Op, rest: seq<Op>, s: State)
    ensures var mid := Apply(e, known, links, a, s);
            var end := Apply(e, known, links, b, mid);
            && Walk(e, known, links, [a, b] + rest, s) == Walk(e, known, links, rest, end)
            && OpsHtml(e, known, links, [a, b] + rest, s)
               == OpHtml(e, known, links, a, s) + (OpHtml(e, known, links, b, mid)
                                                   + OpsHtml(e, known, links, rest, end))
  {
    var all := [a, b] + rest;
    assert all[0] == a && all[1..] == [b] + rest;
    assert all[1..][0] == b && all[1..][1..] == rest;
  }
}
