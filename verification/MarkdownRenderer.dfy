// The Markdown renderer.
module MarkdownRenderer {
  // app/services/article_markdown.py: the Markdown renderer. It walks the article on its own, with its own flags.

  import opened Sequences
  import opened Wrappers
  import opened Numerals
  import opened HtmlText
  import opened RenderWalk

  type SourceMap = map<string, (Option<string>, string)>

  /** The escaper, the name of a source, percent-encoding, and collapsing white space. */
  datatype Style = Style(escape: string -> string, name: (Option<string>, string) -> string, quote: string -> string,
                         collapse: string -> string)

  /** What the renderer is given for the whole article. */
  datatype Setting = Setting(e: Engine, style: Style, sources: SourceMap, links: seq<Link>)

  // ---------- prose and citations ----------

  function LinkText(g: Setting, text: string): string {
    g.e.strip(Replace('\n', " ", g.style.escape(text)))
  }

  function LinkMd(g: Setting, s: Span, text: string): string {
    if s.link < |g.links| then "[" + LinkText(g, Cut(text, s.start, s.end)) + "](" + g.style.quote(g.links[s.link].url)
        + ")" else ""
  }

  function PlainMd(g: Setting, text: string, spans: seq<Span>, pos: nat): string
    decreases |spans|
  {
    if spans == [] then g.style.escape(Cut(text, pos, |text|))
    else
      g.style.escape(Cut(text, pos, spans[0].start)) + LinkMd(g, spans[0], text)
      + PlainMd(g, text, spans[1..], spans[0].end)
  }

  /** The sources a group of markers names, each as a link. */
  function CitedMd(g: Setting, labels: seq<string>): seq<string> {
    if labels == [] then []
    else (if labels[0] in g.sources then [SourceMd(g, g.sources[labels[0]])] else []) + CitedMd(g, labels[1..])
  }

  function SourceMd(g: Setting, source: (Option<string>, string)): string {
    "[" + LinkText(g, g.style.name(source.0, source.1)) + "](" + g.style.quote(source.1) + ")"
  }

  function JoinWith(sep: string, parts: seq<string>): string {
    if parts == [] then "" else if |parts| == 1 then parts[0] else parts[0] + sep + JoinWith(sep, parts[1..])
  }

  /** Nothing, or a space and the sources in parentheses. */
  function CiteMd(refs: seq<string>): string {
    if refs == [] then "" else " (" + JoinWith(", ", refs) + ")"
  }

  function OpMd(g: Setting, op: Op, s: State): string {
    match op
    case Prose(text, allow) =>
      if text == "" then ""
      else if !allow then g.style.escape(text)
      else PlainMd(g, text, InTextOrder(Place(g.e, g.links, text, s.placed).spans), 0)
    case Marks(text) => CiteMd(CitedMd(g, Unique(g.e.labels(text))))
  }

  function OpsMd(g: Setting, ops: seq<Op>, s: State): string
    decreases |ops|
  {
    if ops == [] then "" else OpMd(g, ops[0], s) + OpsMd(g, ops[1..], Apply(g.e, g.sources.Keys, g.links, ops[0], s))
  }

  function WalkMd(g: Setting, ops: seq<Op>, s: State): State {
    Walk(g.e, g.sources.Keys, g.links, ops, s)
  }

  function TextMd(g: Setting, raw: string, allow: bool, s: State): string {
    g.e.strip(g.e.tidy(OpsMd(g, TextOps(g.e, raw, allow), s)))
  }

  // ---------- blocks and sections ----------

  /** The lines of a list, from item number `n` on. */
  function LinesMd(g: Setting, items: seq<string>, ordered: bool, n: nat, s: State): seq<string>
    decreases |items|
  {
    if items == [] then []
    else
      [(if ordered then Decimal(n) + "." else "-") + " " + TextMd(g, items[0], true, s)]
      + LinesMd(g, items[1..], ordered, n + 1, WalkMd(g, TextOps(g.e, items[0], true), s))
  }

  function BlockMd(g: Setting, b: Block, s: State): seq<string> {
    if !IsShown(g.e, b) then []
    else
      match b.kind
      case Subheading => ["### " + TextMd(g, b.text.value, false, s)]
      case ListBlock => [JoinWith("\n", LinesMd(g, Filled(g.e, b.items), b.ordered, 1, s))]
      case Paragraph => [TextMd(g, b.text.value, true, s)]
  }

  function BlocksMd(g: Setting, blocks: seq<Block>, s: State): seq<string>
    decreases |blocks|
  {
    if blocks == [] then []
    else BlockMd(g, blocks[0], s) + BlocksMd(g, blocks[1..], WalkMd(g, BlockOps(g.e, blocks[0]), s))
  }

  /** The introduction, if it comes first, has no heading. */
  function HeadingOf(section: Section, first: bool): seq<string> {
    if section.heading != "" && !(first && section.introduction) then [section.heading] else []
  }

  function HeadingMd(g: Setting, section: Section, first: bool): seq<string> {
    if HeadingOf(section, first) != [] then ["## " + g.style.escape(section.heading)] else []
  }

  function SectionsMd(g: Setting, sections: seq<Section>, first: bool, s: State): seq<string>
    decreases |sections|
  {
    if sections == [] then []
    else
      HeadingMd(g, sections[0], first) + BlocksMd(g, sections[0].blocks, s)
      + SectionsMd(g, sections[1..], false, WalkMd(g, BlocksOps(g.e, sections[0].blocks), s))
  }

  function Headings(sections: seq<Section>, first: bool): seq<string> {
    if sections == [] then [] else HeadingOf(sections[0], first) + Headings(sections[1..], false)
  }

  /** Questions and their answers after a heading of their own; blank ones were dropped before. */
  function FaqMd(style: Style, faq: seq<(string, string)>): seq<string> {
    if faq == [] then [] else ["## Frequently asked questions"] + QuestionsMd(style, faq)
  }

  function QuestionsMd(style: Style, faq: seq<(string, string)>): seq<string> {
    if faq == [] then []
    else
      ["### " + style.escape(style.collapse(faq[0].0)), style.escape(style.collapse(faq[0].1))]
          + QuestionsMd(style, faq[1..])
  }

  lemma SpanStep(g: Setting, text: string, spans: seq<Span>, i: nat, pos: nat, out: string)
    requires i < |spans|
    ensures out + PlainMd(g, text, spans[i..], pos)
            == (out + g.style.escape(Cut(text, pos, spans[i].start)) + LinkMd(g, spans[i], text))
               + PlainMd(g, text, spans[i + 1..], spans[i].end)
  {
    assert spans[i..][0] == spans[i] && spans[i..][1..] == spans[i + 1..];
    Regroup(out, g.style.escape(Cut(text, pos, spans[i].start)), LinkMd(g, spans[i], text),
            PlainMd(g, text, spans[i + 1..], spans[i].end));
  }

  lemma TwoOps(g: Setting, a: Op, b: Op, rest: seq<Op>, s: State)
    ensures var mid := Apply(g.e, g.sources.Keys, g.links, a, s);
            var end := Apply(g.e, g.sources.Keys, g.links, b, mid);
            && WalkMd(g, [a, b] + rest, s) == WalkMd(g, rest, end)
            && OpsMd(g, [a, b] + rest, s) == OpMd(g, a, s) + (OpMd(g, b, mid) + OpsMd(g, rest, end))
  {
    var all := [a, b] + rest;
    assert all[0] == a && all[1..] == [b] + rest;
    assert all[1..][0] == b && all[1..][1..] == rest;
    var mid := Apply(g.e, g.sources.Keys, g.links, a, s);
    assert Walk(g.e, g.sources.Keys, g.links, all, s) == Walk(g.e, g.sources.Keys, g.links, all[1..], mid);
    assert OpsMd(g, all, s) == OpMd(g, a, s) + OpsMd(g, all[1..], mid);
  }

  lemma LastOp(g: Setting, op: Op, s: State)
    ensures WalkMd(g, [op], s) == Apply(g.e, g.sources.Keys, g.links, op, s)
    ensures OpsMd(g, [op], s) == OpMd(g, op, s)
  {
    assert [op][1..] == [];
    assert Walk(g.e, g.sources.Keys, g.links, [op], s)
           == Walk(g.e, g.sources.Keys, g.links, [], Apply(g.e, g.sources.Keys, g.links, op, s));
    assert OpMd(g, op, s) + "" == OpMd(g, op, s);
  }

  lemma BlockPartsStep(g: Setting, blocks: seq<Block>, i: nat, s: State, next: State, parts: seq<string>)
    requires i < |blocks| && next == WalkMd(g, BlockOps(g.e, blocks[i]), s)
    ensures parts + BlocksMd(g, blocks[i..], s)
            == (parts + BlockMd(g, blocks[i], s)) + BlocksMd(g, blocks[i + 1..], next)
  {
    assert blocks[i..][0] == blocks[i] && blocks[i..][1..] == blocks[i + 1..];
    Assoc(parts, BlockMd(g, blocks[i], s), BlocksMd(g, blocks[i + 1..], next));
  }

  lemma LineStep(g: Setting, items: seq<string>, ordered: bool, i: nat, s: State, lines: seq<string>)
    requires i < |items|
    ensures lines + LinesMd(g, items[i..], ordered, i + 1, s)
            == (lines + [(if ordered then Decimal(i + 1) + "." else "-") + " " + TextMd(g, items[i], true, s)])
               + LinesMd(g, items[i + 1..], ordered, i + 2, WalkMd(g, TextOps(g.e, items[i], true), s))
  {
    assert items[i..][0] == items[i] && items[i..][1..] == items[i + 1..];
    Assoc(lines, [(if ordered then Decimal(i + 1) + "." else "-") + " " + TextMd(g, items[i], true, s)],
          LinesMd(g, items[i + 1..], ordered, i + 2, WalkMd(g, TextOps(g.e, items[i], true), s)));
  }

  lemma PartsStep(g: Setting, sections: seq<Section>, i: nat, s: State, parts: seq<string>)
    requires i < |sections|
    ensures parts + SectionsMd(g, sections[i..], i == 0, s)
            == (parts + HeadingMd(g, sections[i], i == 0) + BlocksMd(g, sections[i].blocks, s))
               + SectionsMd(g, sections[i + 1..], false, WalkMd(g, BlocksOps(g.e, sections[i].blocks), s))
  {
    assert sections[i..][0] == sections[i] && sections[i..][1..] == sections[i + 1..];
    Regroup(parts, HeadingMd(g, sections[i], i == 0), BlocksMd(g, sections[i].blocks, s),
            SectionsMd(g, sections[i + 1..], false, WalkMd(g, BlocksOps(g.e, sections[i].blocks), s)));
  }

  lemma HeadingsStep(sections: seq<Section>, i: nat, headings: seq<string>)
    requires i < |sections|
    ensures headings + Headings(sections[i..], i == 0)
            == (headings + HeadingOf(sections[i], i == 0)) + Headings(sections[i + 1..], false)
  {
    assert sections[i..][0] == sections[i] && sections[i..][1..] == sections[i + 1..];
    Regroup(headings, HeadingOf(sections[i], i == 0), [], Headings(sections[i + 1..], false));
  }

  class Renderer {
    const g: Setting
    var unknown: seq<string>
    var placed: seq<bool>
    ghost var cited: seq<string>    // the known labels met so far

    constructor (g: Setting)
      ensures this.g == g && View() == Start(g.links) && |placed| == |g.links|
    {
      this.g := g;
      unknown, placed := [], seq(|g.links|, i => false);
      cited := [];
    }

    ghost function View(): State
      reads this
    {
      State(placed, unknown, cited)
    }

    /** `_plain` */
    method Plain(text: string, allow: bool) returns (out: string)
      requires |placed| == |g.links|
      modifies this`placed
      ensures |placed| == |g.links| && View() == Apply(g.e, g.sources.Keys, g.links, Prose(text, allow), old(View()))
      ensures out == OpMd(g, Prose(text, allow), old(View()))
    {
      if text == "" {
        return "";
      }
      if !allow {
        return g.style.escape(text);
      }
      PlaceLength(g.e, g.links, text, 0, Placing([], placed));
      var spans := PlaceLinks(text);
      out := WriteSpans(text, InTextOrder(spans));
    }

    method PlaceLinks(text: string) returns (spans: seq<Span>)
      requires |placed| == |g.links|
      modifies this`placed
      ensures Placing(spans, placed) == Place(g.e, g.links, text, old(placed))
    {
      spans := [];
      for i := 0 to |g.links|
        invariant |placed| == |g.links|
        invariant PlaceFrom(g.e, g.links, text, i, Placing(spans, placed)) == Place(g.e, g.links, text, old(placed))
      {
        if placed[i] {
          continue;
        }
        var found := g.e.search(g.links[i].anchor, text);
        if found.Some? && !Overlaps(spans, found.value.0, found.value.1) {
          spans := spans + [Span(found.value.0, found.value.1, i)];
          placed := placed[i := true];
        }
      }
    }

    method WriteSpans(text: string, spans: seq<Span>) returns (out: string)
      ensures out == PlainMd(g, text, spans, 0)
    {
      var pos := 0;
      out := "";
      for i := 0 to |spans|
        invariant out + PlainMd(g, text, spans[i..], pos) == PlainMd(g, text, spans, 0)
      {
        SpanStep(g, text, spans, i, pos, out);
        out := out + g.style.escape(Cut(text, pos, spans[i].start)) + LinkMd(g, spans[i], text);
        pos := spans[i].end;
      }
      out := out + g.style.escape(Cut(text, pos, |text|));
    }

    /** `_cite`, with the space that goes before it. */
    method Cite(marks: string) returns (out: string)
      modifies this`unknown, this`cited
      ensures View() == Apply(g.e, g.sources.Keys, g.links, Marks(marks), old(View()))
      ensures out == OpMd(g, Marks(marks), old(View()))
    {
      var labels := Unique(g.e.labels(marks));
      var refs := [];
      for i := 0 to |labels|
        invariant placed == old(placed)
        invariant Meet(g.sources.Keys, labels[i..], View()) == Meet(g.sources.Keys, labels, old(View()))
        invariant refs + CitedMd(g, labels[i..]) == CitedMd(g, labels)
      {
        MeetStep(g.sources.Keys, labels, i, View());
        if labels[i] !in g.sources {
          if labels[i] !in unknown {
            unknown := unknown + [labels[i]];
          }
          continue;
        }
        cited := Add(labels[i], cited);
        refs := refs + [SourceMd(g, g.sources[labels[i]])];
      }
      assert labels[|labels|..] == [] && refs + [] == refs;
      out := CiteMd(refs);
    }

    method Text(raw: string, allow: bool) returns (out: string)
      requires |placed| == |g.links|
      modifies this
      ensures |placed| == |g.links| && View() == WalkMd(g, TextOps(g.e, raw, allow), old(View()))
      ensures out == TextMd(g, raw, allow, old(View()))
    {
      var markers, pos := g.e.markers(raw), 0;
      out := "";
      for i := 0 to |markers|
        invariant |placed| == |g.links|
        invariant WalkMd(g, OpsFrom(g.e, raw, allow, markers[i..], pos), View())
                  == WalkMd(g, TextOps(g.e, raw, allow), old(View()))
        invariant out + OpsMd(g, OpsFrom(g.e, raw, allow, markers[i..], pos), View())
                  == OpsMd(g, TextOps(g.e, raw, allow), old(View()))
      {
        var m := markers[i];
        ghost var rest := OpsFrom(g.e, raw, allow, markers[i + 1..], m.1);
        var prose, marks := g.e.rstrip(Cut(raw, pos, m.0)), Cut(raw, m.0, m.1);
        TwoOps(g, Prose(prose, allow), Marks(marks), rest, View());
        assert markers[i..][0] == m && markers[i..][1..] == markers[i + 1..];
        var plain := Plain(prose, allow);
        var cite := Cite(marks);
        Regroup(out, plain, cite, OpsMd(g, rest, View()));
        out := out + plain + cite;
        pos := m.1;
      }
      assert markers[|markers|..] == [];
      LastOp(g, Prose(Cut(raw, pos, |raw|), allow), View());
      var plain := Plain(Cut(raw, pos, |raw|), allow);
      out := g.e.strip(g.e.tidy(out + plain));
    }

    method Block(b: Block) returns (parts: seq<string>)
      requires |placed| == |g.links|
      modifies this
      ensures |placed| == |g.links| && View() == WalkMd(g, BlockOps(g.e, b), old(View()))
      ensures parts == BlockMd(g, b, old(View()))
    {
      if !IsShown(g.e, b) {
        return [];
      }
      match b.kind {
        case Subheading =>
          var text := Text(b.text.value, false);
          parts := ["### " + text];
        case ListBlock =>
          var lines := Lines(Filled(g.e, b.items), b.ordered);
          parts := [JoinWith("\n", lines)];
        case Paragraph =>
          var text := Text(b.text.value, true);
          parts := [text];
      }
    }

    method Lines(items: seq<string>, ordered: bool) returns (lines: seq<string>)
      requires |placed| == |g.links|
      modifies this
      ensures |placed| == |g.links| && View() == WalkMd(g, ItemOps(g.e, items), old(View()))
      ensures lines == LinesMd(g, items, ordered, 1, old(View()))
    {
      lines := [];
      for i := 0 to |items|
        invariant |placed| == |g.links|
        invariant WalkMd(g, ItemOps(g.e, items[i..]), View()) == WalkMd(g, ItemOps(g.e, items), old(View()))
        invariant lines + LinesMd(g, items[i..], ordered, i + 1, View()) == LinesMd(g, items, ordered, 1, old(View()))
      {
        ItemStep(g.e, g.sources.Keys, g.links, items, i, View());
        LineStep(g, items, ordered, i, View(), lines);
        var text := Text(items[i], true);
        lines := lines + [(if ordered then Decimal(i + 1) + "." else "-") + " " + text];
      }
      assert items[|items|..] == [];
    }

    method Blocks(blocks: seq<Block>) returns (parts: seq<string>)
      requires |placed| == |g.links|
      modifies this
      ensures |placed| == |g.links| && View() == WalkMd(g, BlocksOps(g.e, blocks), old(View()))
      ensures parts == BlocksMd(g, blocks, old(View()))
    {
      parts := [];
      for i := 0 to |blocks|
        invariant |placed| == |g.links|
        invariant WalkMd(g, BlocksOps(g.e, blocks[i..]), View()) == WalkMd(g, BlocksOps(g.e, blocks), old(View()))
        invariant parts + BlocksMd(g, blocks[i..], View()) == BlocksMd(g, blocks, old(View()))
      {
        BlockStep(g.e, g.sources.Keys, g.links, blocks, i, View());
        BlockPartsStep(g, blocks, i, View(), WalkMd(g, BlockOps(g.e, blocks[i]), View()), parts);
        var more := Block(blocks[i]);
        parts := parts + more;
      }
      assert blocks[|blocks|..] == [];
    }

    /** The sections of the article, in order, and the headings they show. */
    method Sections(sections: seq<Section>) returns (parts: seq<string>, headings: seq<string>)
      requires |placed| == |g.links|
      modifies this
      ensures |placed| == |g.links| && View() == WalkMd(g, ArticleOps(g.e, sections), old(View()))
      ensures parts == SectionsMd(g, sections, true, old(View())) && headings == Headings(sections, true)
    {
      parts, headings := [], [];
      for i := 0 to |sections|
        invariant |placed| == |g.links|
        invariant WalkMd(g, ArticleOps(g.e, sections[i..]), View()) == WalkMd(g, ArticleOps(g.e, sections), old(View()))
        invariant parts + SectionsMd(g, sections[i..], i == 0, View()) == SectionsMd(g, sections, true, old(View()))
        invariant headings + Headings(sections[i..], i == 0) == Headings(sections, true)
      {
        SectionStep(g.e, g.sources.Keys, g.links, sections, i, View());
        PartsStep(g, sections, i, View(), parts);
        HeadingsStep(sections, i, headings);
        headings := headings + HeadingOf(sections[i], i == 0);
        var blocks := Blocks(sections[i].blocks);
        parts := parts + HeadingMd(g, sections[i], i == 0) + blocks;
      }
      assert sections[|sections|..] == [];
    }
  }

  /** The body: its parts with a blank line between them, and a line break at the end. */
  function BodyMd(g: Setting, sections: seq<Section>, faq: seq<(string, string)>): string {
    g.e.strip(JoinWith("\n\n", SectionsMd(g, sections, true, Start(g.links)) + FaqMd(g.style, faq))) + "\n"
  }

  /** `render_markdown_body`: the sections, then the questions; every flag starts unset. */
  method RenderMarkdownBody(g: Setting, sections: seq<Section>, faq: seq<(string, string)>)
    returns (markdown: string, headings: seq<string>, placed: seq<bool>, unknown: seq<string>)
    ensures var end := WalkMd(g, ArticleOps(g.e, sections), Start(g.links));
           placed == end.placed && unknown == end.unknown
    ensures markdown == BodyMd(g, sections, faq)
    ensures headings == Headings(sections, true) + (if faq != [] then ["Frequently asked questions"] else [])
  {
    var r := new Renderer(g);
    var parts;
    parts, headings := r.Sections(sections);
    parts := parts + FaqMd(g.style, faq);
    markdown := g.e.strip(JoinWith("\n\n", parts)) + "\n";
    headings := headings + (if faq != [] then ["Frequently asked questions"] else []);
    placed, unknown := r.placed, r.unknown;
  }
}
