// What the Markdown of an article's prose reads back as: each escaped stretch and each link label on its own.
module MarkdownProse {
  import opened MarkdownRenderer
  import opened RenderWalk
  import HtmlText
  import MdxEscape
  import MdxMeaning
  import MdxTheorems

  /** The renderer escapes as `mdx_escape` does. */
  ghost predicate Escapes(cls: MdxEscape.Classes, g: Setting) {
    MdxMeaning.PythonTables(cls) && forall t: string :: g.style.escape(t) == MdxEscape.Escape(cls, t)
  }

  /** A piece of prose: text as it is, or the text of a link. */
  datatype Piece = Stretch(text: string) | Label(text: string, link: nat)

  function PiecesOf(text: string, spans: seq<Span>, pos: nat): seq<Piece>
    decreases |spans|
  {
    if spans == [] then [Stretch(Cut(text, pos, |text|))]
    else
      [Stretch(Cut(text, pos, spans[0].start)), Label(Cut(text, spans[0].start, spans[0].end), spans[0].link)]
      + PiecesOf(text, spans[1..], spans[0].end)
  }

  /** What is written for a piece: a label stands in brackets before its target. */
  function PieceMd(g: Setting, piece: Piece): string {
    match piece
    case Stretch(text) => g.style.escape(text)
    case Label(text, link) =>
      if link < |g.links| then "[" + LinkText(g, text) + "](" + g.style.quote(g.links[link].url) + ")" else ""
  }

  function PiecesMd(g: Setting, pieces: seq<Piece>): string {
    if pieces == [] then "" else PieceMd(g, pieces[0]) + PiecesMd(g, pieces[1..])
  }

  function TextOf(pieces: seq<Piece>): string {
    if pieces == [] then "" else pieces[0].text + TextOf(pieces[1..])
  }

  /** On one line, as a label has to be. */
  function OneLine(text: string): string {
    HtmlText.Replace('\n', " ", text)
  }

  lemma {:induction false} SplitReplace(a: string, b: string)
    ensures OneLine(a + b) == OneLine(a) + OneLine(b)
  {
    if a != "" {
      assert (a + b)[1..] == a[1..] + b;
      SplitReplace(a[1..], b);
    } else {
      assert a + b == b;
    }
  }

  /** No reference has a line break in it, nor does one begin differently on one line. */
  lemma SameReference(s: string)
    ensures MdxEscape.Referenced(OneLine(s)) == MdxEscape.Referenced(s)
  {
    SameStart(s, "&amp;");
    SameStart(s, "&lt;");
    SameStart(s, "&gt;");
    SameStart(s, "&#123;");
    SameStart(s, "&#125;");
    SameStart(s, "&#105;");
    SameStart(s, "&#101;");
    SameStart(s, "&#58;");
    SameStart(s, "&#46;");
    SameStart(s, "&#64;");
  }

  lemma SameStart(s: string, ref: string)
    requires '\n' !in ref && ' ' !in ref
    ensures ref <= OneLine(s) <==> ref <= s
  {
    OneLineAt(s);
    if |ref| <= |s| {
      assert forall k | 0 <= k < |ref| :: ref[k] in ref;
      assert ref <= s <==> forall k | 0 <= k < |ref| :: ref[k] == s[k];
      assert ref <= OneLine(s) <==> forall k | 0 <= k < |ref| :: ref[k] == OneLine(s)[k];
    }
  }

  lemma {:induction false} OneLineAt(s: string)
    ensures |OneLine(s)| == |s|
    ensures forall k | 0 <= k < |s| :: OneLine(s)[k] == if s[k] == '\n' then ' ' else s[k]
  {
    if s != "" {
      OneLineAt(s[1..]);
    }
  }

  lemma OneLineFrom(s: string, n: nat)
    requires n <= |s|
    ensures |OneLine(s)| == |s| && OneLine(s)[n..] == OneLine(s[n..])
  {
    OneLineAt(s);
    OneLineAt(s[n..]);
  }

  /** Reading back, then breaking no line, is the same as the other way round. */
  lemma {:induction false} DecodeOneLine(s: string)
    ensures MdxEscape.Decode(OneLine(s)) == OneLine(MdxEscape.Decode(s))
    decreases |s|
  {
    OneLineAt(s);
    if s == "" {
    } else if s[0] == '\\' && |s| > 1 {
      OneLineFrom(s, 2);
      DecodeOneLine(s[2..]);
      SplitReplace([s[1]], MdxEscape.Decode(s[2..]));
    } else {
      SameReference(s);
      var c := MdxEscape.Referenced(s);
      var n := if c.Some? && 1 < |MdxEscape.RefOf(c.value)| <= |s| then |MdxEscape.RefOf(c.value)| else 1;
      OneLineFrom(s, n);
      DecodeOneLine(s[n..]);
      SplitReplace([if c.Some? then c.value else s[0]], MdxEscape.Decode(s[n..]));
    }
  }

  /** A label, before the white space around it is stripped, reads back as its text on one line. */
  lemma LabelReadsBack(cls: MdxEscape.Classes, g: Setting, text: string)
    requires Escapes(cls, g) && !MdxTheorems.CapitalWww(cls, text)
    ensures var line := OneLine(g.style.escape(text));
            LinkText(g, text) == g.e.strip(line) && MdxEscape.Decode(line) == OneLine(text)
  {
    MdxTheorems.EscapeRoundTrips(cls, text);
    DecodeOneLine(MdxEscape.Escape(cls, text));
  }

  lemma TwoPieces(g: Setting, a: Piece, b: Piece, rest: seq<Piece>)
    ensures PiecesMd(g, [a, b] + rest) == PieceMd(g, a) + PieceMd(g, b) + PiecesMd(g, rest)
    ensures TextOf([a, b] + rest) == a.text + (b.text + TextOf(rest))
  {
    var all := [a, b] + rest;
    assert all[1..][0] == b && all[1..][1..] == rest;
    assert PiecesMd(g, all) == PieceMd(g, a) + (PieceMd(g, b) + PiecesMd(g, rest));
  }

  lemma {:induction false} WrittenInPieces(g: Setting, text: string, spans: seq<Span>, pos: nat)
    requires Consecutive(text, pos, spans)
    ensures PlainMd(g, text, spans, pos) == PiecesMd(g, PiecesOf(text, spans, pos))
    decreases |spans|
  {
    if spans == [] {
      assert PiecesOf(text, spans, pos)[1..] == [];
      assert PieceMd(g, PiecesOf(text, spans, pos)[0]) + "" == PiecesMd(g, PiecesOf(text, spans, pos));
    } else {
      var s := spans[0];
      WrittenInPieces(g, text, spans[1..], s.end);
      TwoPieces(g, Stretch(Cut(text, pos, s.start)), Label(Cut(text, s.start, s.end), s.link),
                PiecesOf(text, spans[1..], s.end));
    }
  }

  lemma CutInThree(text: string, a: nat, b: nat, c: nat)
    requires a <= b <= c <= |text|
    ensures text[a..] == Cut(text, a, b) + (Cut(text, b, c) + text[c..])
  {
  }

  lemma {:induction false} PiecesShowTheText(g: Setting, text: string, spans: seq<Span>, pos: nat)
    requires Consecutive(text, pos, spans) && pos <= |text|
    ensures TextOf(PiecesOf(text, spans, pos)) == text[pos..]
    decreases |spans|
  {
    if spans == [] {
      assert PiecesOf(text, spans, pos)[1..] == [];
      assert text[pos..] + "" == TextOf(PiecesOf(text, spans, pos));
    } else {
      var s := spans[0];
      PiecesShowTheText(g, text, spans[1..], s.end);
      TwoPieces(g, Stretch(Cut(text, pos, s.start)), Label(Cut(text, s.start, s.end), s.link),
                PiecesOf(text, spans[1..], s.end));
      CutInThree(text, pos, s.start, s.end);
    }
  }

  /**
   * Prose in the body of the article: what is written is one piece after the other, their texts together are the text,
   * every stretch between links reads back exactly unless it has a capital in a `www.`, and so does every label, on one
   * line.
   */
  lemma ProseReadsBack(cls: MdxEscape.Classes, g: Setting, text: string, s: State)
    requires Escapes(cls, g) && Lawful(g.e) && HaveAnchors(g.links) && |s.placed| == |g.links| && text != ""
    ensures var pieces := PiecesOf(text, InTextOrder(Place(g.e, g.links, text, s.placed).spans), 0);
            && OpMd(g, Prose(text, true), s) == PiecesMd(g, pieces) && TextOf(pieces) == text
            && (forall p | p in pieces && p.Stretch? ::
                  MdxEscape.Decode(PieceMd(g, p)) == p.text <==> !MdxTheorems.CapitalWww(cls, p.text))
            && (forall p | p in pieces && p.Label? && !MdxTheorems.CapitalWww(cls, p.text) ::
                  MdxEscape.Decode(OneLine(g.style.escape(p.text))) == OneLine(p.text))
  {
    var spans := Place(g.e, g.links, text, s.placed).spans;
    PlaceIsGood(g.e, g.links, text, s.placed);
    OrderedIsConsecutive(text, spans);
    WrittenInPieces(g, text, InTextOrder(spans), 0);
    PiecesShowTheText(g, text, InTextOrder(spans), 0);
    var pieces := PiecesOf(text, InTextOrder(spans), 0);
    forall p | p in pieces && p.Stretch?
      ensures MdxEscape.Decode(PieceMd(g, p)) == p.text <==> !MdxTheorems.CapitalWww(cls, p.text)
    {
      MdxTheorems.EscapeRoundTrips(cls, p.text);
    }
    forall p | p in pieces && p.Label? && !MdxTheorems.CapitalWww(cls, p.text)
      ensures MdxEscape.Decode(OneLine(g.style.escape(p.text))) == OneLine(p.text)
    {
      LabelReadsBack(cls, g, p.text);
    }
  }

  /** Where no link is placed, and in subheadings, the whole text reads back. */
  lemma UnlinkedReadsBack(cls: MdxEscape.Classes, g: Setting, text: string, allow: bool, s: State)
    requires Escapes(cls, g) && (allow ==> Place(g.e, g.links, text, s.placed).spans == [])
    ensures MdxEscape.Decode(OpMd(g, Prose(text, allow), s)) == text <==> !MdxTheorems.CapitalWww(cls, text)
  {
    MdxTheorems.EscapeRoundTrips(cls, text);
    assert Cut(text, 0, |text|) == text;
    if text == "" {
      assert MdxEscape.Decode("") == "";
    }
  }
}
