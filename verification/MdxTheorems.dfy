// The later substitutions of mdx_escape (block markers, keywords, links, `www.` and addresses) carried out on tokens,
// and its guarantees for every text: what reads back, what is injective, and what never stands bare.
module MdxTheorems {
  import opened Wrappers
  import opened Pieces
  import opened MdxEscape
  import opened MdxTokens
  import opened MdxMeaning
  import opened MdxLayout

  const ESC0: set<char> := {'\\', '[', ']', '`', '*', '_', '~'}
  const ESC1: set<char> := ESC0 + {'#', '+', '=', '|', '-', '.', ')'}
  const REF0: set<char> := {'&', '<', '>', '{', '}'}
  const GONE: set<char> := {'\\', '<', '>', '{', '}', '[', ']', '`', '*', '_', '~'}

  lemma ShowNonEmpty(t: Token)
    requires Legal(t)
    ensures |Show(t)| > 0
    ensures t.form != Plain && t.form != Lowered ==> Show(t)[0] == '\\' || Show(t)[0] == '&'
  {
    if t.form == Ref { RefShape(t.c); }
  }

  lemma {:induction false} OffGrows(ts: seq<Token>, k: nat, m: nat)
    requires AllLegal(ts) && k < m <= |ts|
    ensures Off(ts, k) < Off(ts, m)
    decreases m - k
  {
    RenderAt(ts, k);
    assert ts[k] in ts;
    ShowNonEmpty(ts[k]);
    if k + 1 < m {
      OffGrows(ts, k + 1, m);
    }
  }

  /** As long as no backslash or ampersand appears, tokens and characters are the same thing. */
  lemma {:induction false} PlainPrefix(ts: seq<Token>, n: nat)
    requires AllLegal(ts) && (forall t | t in ts :: t.form != Lowered) && n <= |Render(ts)|
    requires forall j | 0 <= j < n :: Render(ts)[j] != '\\' && Render(ts)[j] != '&'
    ensures n <= |ts| && Off(ts, n) == n
    ensures forall j | 0 <= j < n :: ts[j] == Token(Render(ts)[j], Plain)
  {
    if n == 0 {
      OffEnds(ts);
    } else {
      PlainPrefix(ts, n - 1);
      OffEnds(ts);
      RenderAt(ts, n - 1);
      var t := ts[n - 1];
      assert t in ts;
      ShowNonEmpty(t);
      assert Render(ts)[n - 1] == Render(ts)[Off(ts, n - 1)..Off(ts, n)][0] == Show(t)[0];
    }
  }

  lemma MarkIsIndex(ts: seq<Token>, k: nat, n: nat)
    requires AllLegal(ts) && k < |ts| && n <= |ts| && Off(ts, n) == n && Off(ts, k) == n
    ensures k == n
  {
    if k < n { OffGrows(ts, k, n); }
    if n < k { OffGrows(ts, n, k); }
  }

  // A full stop is escaped only after a digit, and a keyword's first letter is followed by its second.
  ghost predicate StopsFollowDigits(cls: Classes, ts: seq<Token>) {
    forall k | 0 <= k < |ts| && ts[k] == Token('.', Escaped) :: k > 0 && cls.digit(ts[k - 1].c)
  }

  ghost predicate KeywordsGoOn(ts: seq<Token>) {
    forall k | 0 <= k < |ts| && ts[k].form == Ref && ts[k].c in "ie" :: k + 1 < |ts| && ts[k + 1].c in "mx"
  }

  lemma BlockMarkShape(cls: Classes, s: string)
    requires Lawful(cls)
    ensures BlockMark(cls, s).Some? ==>
      var e := BlockMark(cls, s).value;
      && e < |s| && (s[e] in "#>*+=|-" || (s[e] in ".)" && e > 0 && cls.digit(s[e - 1])))
      && forall j | 0 <= j < e :: s[j] != '\\' && s[j] != '&'
  {
  }

  lemma BlockToken(cls: Classes, ts: seq<Token>, k: nat)
    requires PythonTables(cls) && Built(ts, ESC0, REF0, GONE, false) && k < |ts| && ts[k].form == Plain
    requires BlockMark(cls, Render(ts)) == Some(Off(ts, k))
    ensures ts[k].c in {'#', '+', '=', '|', '-', '.', ')'}
    ensures ts[k].c == '.' ==> k > 0 && cls.digit(ts[k - 1].c)
  {
    var e := Off(ts, k);
    BlockMarkShape(cls, Render(ts));
    PlainChar(ts, k);
    assert ts[k] in ts;
    PlainPrefix(ts, e);
    MarkIsIndex(ts, k, e);
  }

  lemma BlockStep(cls: Classes, ts: seq<Token>) returns (out: seq<Token>)
    requires PythonTables(cls) && Built(ts, ESC0, REF0, GONE, false) && NoRefAhead(ts)
    ensures Render(out) == Sub(cls, BlockStart, Render(ts)) && Raw(out) == Raw(ts)
    ensures Built(out, ESC1, REF0, GONE, false) && NoRefAhead(out) && StopsFollowDigits(cls, out)
  {
    forall k | 0 <= k < |ts| && ts[k].form == Plain && BlockMark(cls, Render(ts)) == Some(Off(ts, k))
      ensures ts[k].c in {'#', '+', '=', '|', '-', '.', ')'}
      ensures ts[k].c == '.' ==> k > 0 && cls.digit(ts[k - 1].c)
    {
      BlockToken(cls, ts, k);
    }
    out := LaterStep(cls, BlockStart, ts, ESC0, REF0, GONE, false, ESC1, REF0, false);
    StillNoRefAhead(cls, BlockStart, ts);
    BlockStops(cls, ts);
  }

  lemma BlockStops(cls: Classes, ts: seq<Token>)
    requires PythonTables(cls) && Built(ts, ESC0, REF0, GONE, false)
    ensures StopsFollowDigits(cls, Apply(cls, BlockStart, ts))
  {
    var out := Apply(cls, BlockStart, ts);
    forall k | 0 <= k < |out| && out[k] == Token('.', Escaped) ensures k > 0 && cls.digit(out[k - 1].c) {
      Marked(cls, BlockStart, ts, k);
      assert ts[k] in ts;
      BlockToken(cls, ts, k);
      Marked(cls, BlockStart, ts, k - 1);
    }
  }

  lemma StopsKept(cls: Classes, p: Pass, ts: seq<Token>)
    requires StopsFollowDigits(cls, ts) && !p.BlockStart? && !p.Replace?
    ensures StopsFollowDigits(cls, Apply(cls, p, ts))
  {
    var out := Apply(cls, p, ts);
    forall k | 0 <= k < |out| && out[k] == Token('.', Escaped) ensures k > 0 && cls.digit(out[k - 1].c) {
      Marked(cls, p, ts, k);
      assert ts[k] == Token('.', Escaped);
      Marked(cls, p, ts, k - 1);
    }
  }

  lemma EsmMarkShape(cls: Classes, s: string)
    requires Lawful(cls)
    ensures EsmMark(cls, s).Some? ==>
      var e := EsmMark(cls, s).value;
      && e + 6 < |s| && s[e] in "ie" && s[e + 1] in "mx"
      && forall j | 0 <= j < e + 2 :: s[j] != '\\' && s[j] != '&'
  {
    EsmLetter(cls, s);
  }

  lemma EsmToken(cls: Classes, ts: seq<Token>, k: nat)
    requires PythonTables(cls) && Built(ts, ESC1, REF0, GONE, false) && k < |ts| && ts[k].form == Plain
    requires EsmMark(cls, Render(ts)) == Some(Off(ts, k))
    ensures ts[k].c in {'i', 'e'} && k + 1 < |ts| && ts[k + 1].c in "mx"
  {
    var e := Off(ts, k);
    EsmMarkShape(cls, Render(ts));
    PlainPrefix(ts, e);
    MarkIsIndex(ts, k, e);
    PlainPrefix(ts, e + 2);
  }

  lemma EsmStep(cls: Classes, ts: seq<Token>) returns (out: seq<Token>)
    requires PythonTables(cls) && Built(ts, ESC1, REF0, GONE, false) && NoRefAhead(ts) && StopsFollowDigits(cls, ts)
    ensures Render(out) == Sub(cls, Esm, Render(ts)) && Raw(out) == Raw(ts)
    ensures Built(out, ESC1, REF0 + {'i', 'e'}, GONE, false) && NoRefAhead(out)
    ensures StopsFollowDigits(cls, out) && KeywordsGoOn(out)
  {
    forall k | 0 <= k < |ts| && ts[k].form == Plain && EsmMark(cls, Render(ts)) == Some(Off(ts, k))
      ensures ts[k].c in {'i', 'e'} && k + 1 < |ts| && ts[k + 1].c in "mx"
    {
      EsmToken(cls, ts, k);
    }
    out := LaterStep(cls, Esm, ts, ESC1, REF0, GONE, false, ESC1, REF0 + {'i', 'e'}, false);
    StillNoRefAhead(cls, Esm, ts);
    StopsKept(cls, Esm, ts);
    EsmKeywords(cls, ts);
  }

  lemma EsmKeywords(cls: Classes, ts: seq<Token>)
    requires PythonTables(cls) && Built(ts, ESC1, REF0, GONE, false)
    ensures KeywordsGoOn(Apply(cls, Esm, ts))
  {
    var out := Apply(cls, Esm, ts);
    forall k | 0 <= k < |out| && out[k].form == Ref && out[k].c in "ie" ensures k + 1 < |out| && out[k + 1].c in "mx" {
      Marked(cls, Esm, ts, k);
      assert ts[k] in ts;
      EsmToken(cls, ts, k);
      Marked(cls, Esm, ts, k + 1);
    }
  }

  lemma AutolinkStep(cls: Classes, ts: seq<Token>) returns (out: seq<Token>)
    requires PythonTables(cls) && Built(ts, ESC1, REF0 + {'i', 'e'}, GONE, false) && NoRefAhead(ts)
    requires StopsFollowDigits(cls, ts) && KeywordsGoOn(ts)
    ensures Render(out) == Sub(cls, Autolink, Render(ts)) && Raw(out) == Raw(ts)
    ensures Built(out, ESC1, REF0 + {'i', 'e', ':'}, GONE, false) && NoRefAhead(out)
    ensures StopsFollowDigits(cls, out) && KeywordsGoOn(out)
  {
    forall k | 0 <= k < |ts| && ts[k].form == Plain && AutolinkAt(cls, Render(ts), Off(ts, k)) ensures ts[k].c == ':' {
      PlainChar(ts, k);
    }
    out := LaterStep(cls, Autolink, ts, ESC1, REF0 + {'i', 'e'}, GONE, false, ESC1, REF0 + {'i', 'e', ':'}, false);
    StillNoRefAhead(cls, Autolink, ts);
    StopsKept(cls, Autolink, ts);
    AutolinkKeywords(cls, ts);
  }

  lemma AutolinkKeywords(cls: Classes, ts: seq<Token>)
    requires KeywordsGoOn(ts)
    ensures KeywordsGoOn(Apply(cls, Autolink, ts))
  {
    var out := Apply(cls, Autolink, ts);
    forall k | 0 <= k < |out| && out[k].form == Ref && out[k].c in "ie" ensures k + 1 < |out| && out[k + 1].c in "mx" {
      Marked(cls, Autolink, ts, k);
      if ts[k].form == Plain { PlainChar(ts, k); }
      Marked(cls, Autolink, ts, k + 1);
    }
  }

  // ---------- `www.` ----------

  /** The prose has a `www.` with a capital: the one thing mdx_escape does not preserve. */
  ghost predicate CapitalWww(cls: Classes, text: string) {
    exists k: nat :: WwwAt(cls, text, k) && 'W' in text[k..k + 3]
  }

  ghost predicate BeforeWww(cls: Classes, ts: seq<Token>) {
    Built(ts, ESC1, REF0 + {'i', 'e', ':'}, GONE, false) && StopsFollowDigits(cls, ts) && KeywordsGoOn(ts)
  }

  function LayoutOf(ts: seq<Token>): Layout {
    Layout(Render(ts), Raw(ts), seq(|ts|, k requires 0 <= k < |ts| => ts[k].form == Plain),
           seq(|ts| + 1, k requires 0 <= k < |ts| + 1 => Off(ts, k)))
  }

  lemma EndsShown(ts: seq<Token>, k: nat)
    requires AllLegal(ts) && k < |ts|
    ensures Off(ts, k) < Off(ts, k + 1) == Off(ts, k) + |Show(ts[k])| <= |Render(ts)|
    ensures Render(ts)[Off(ts, k)] == Show(ts[k])[0]
    ensures Render(ts)[Off(ts, k + 1) - 1] == Show(ts[k])[|Show(ts[k])| - 1]
  {
    RenderAt(ts, k);
    assert ts[k] in ts;
    ShowNonEmpty(ts[k]);
    var i, e := Off(ts, k), Off(ts, k + 1);
    var shown := Render(ts)[i..e];
    assert Render(ts)[i] == shown[0] && Render(ts)[e - 1] == shown[e - 1 - i];
  }

  lemma TokensAlign(ts: seq<Token>)
    requires AllLegal(ts)
    ensures Aligned(LayoutOf(ts))
  {
    OffEnds(ts);
    var l := LayoutOf(ts);
    forall k | 0 <= k < |l.raw| ensures AlignedAt(l, k) {
      EndsShown(ts, k);
      if ts[k].form == Plain { PlainChar(ts, k); }
    }
  }

  lemma MadeShape(cls: Classes, t: Token)
    requires PythonTables(cls) && Legal(t) && (t.form == Escaped || t.form == Ref)
    ensures var shown := Show(t);
            && |shown| > 0 && !IsW(cls, t.c) && !IsW(cls, shown[0]) && !IsW(cls, shown[|shown| - 1]) && shown[0] != '.'
            && (t.c in "ie" || cls.word(shown[|shown| - 1]) == cls.word(t.c))
  {
    if t.form == Ref {
      RefShape(t.c);
      assert t.c in "ie" || t.c in "&<>{}:.@;";
    }
  }

  lemma TokensKeepW(cls: Classes, ts: seq<Token>)
    requires PythonTables(cls) && BeforeWww(cls, ts)
    ensures KeepsW(cls, LayoutOf(ts))
  {
    TokensAlign(ts);
    forall k | 0 <= k < |ts| ensures KeepsWAt(cls, LayoutOf(ts), k) {
      EndsKeepW(cls, ts, k);
    }
  }

  lemma EndsKeepW(cls: Classes, ts: seq<Token>, k: nat)
    requires PythonTables(cls) && BeforeWww(cls, ts) && k < |ts| && Aligned(LayoutOf(ts))
    ensures KeepsWAt(cls, LayoutOf(ts), k)
  {
    var l := LayoutOf(ts);
    assert AlignedAt(l, k);
    var first, last := ShownEnds(cls, ts, k);
    assert l.s[l.at[k]] == first && l.s[l.at[k + 1] - 1] == last;
  }

  lemma ShownEnds(cls: Classes, ts: seq<Token>, k: nat) returns (first: char, last: char)
    requires PythonTables(cls) && BeforeWww(cls, ts) && k < |ts|
    ensures Off(ts, k) < Off(ts, k + 1) <= |Render(ts)|
    ensures Render(ts)[Off(ts, k)] == first && Render(ts)[Off(ts, k + 1) - 1] == last
    ensures ts[k].form != Plain ==> !IsW(cls, ts[k].c) && !IsW(cls, first) && !IsW(cls, last) && first != '.'
    ensures ts[k].form != Plain && ts[k].c == '.' ==> k == 0 || !IsW(cls, ts[k - 1].c)
    ensures cls.word(last) == cls.word(ts[k].c) || (k + 1 < |ts| && !IsW(cls, ts[k + 1].c))
  {
    EndsShown(ts, k);
    TokenKeepsW(cls, ts, k);
    first, last := Show(ts[k])[0], Show(ts[k])[|Show(ts[k])| - 1];
  }

  lemma TokenKeepsW(cls: Classes, ts: seq<Token>, k: nat)
    requires PythonTables(cls) && BeforeWww(cls, ts) && k < |ts| && |Show(ts[k])| > 0
    ensures var first, last := Show(ts[k])[0], Show(ts[k])[|Show(ts[k])| - 1];
            && (ts[k].form != Plain ==> !IsW(cls, ts[k].c) && !IsW(cls, first) && !IsW(cls, last) && first != '.')
            && (ts[k].form != Plain && ts[k].c == '.' ==> k == 0 || !IsW(cls, ts[k - 1].c))
            && (cls.word(last) == cls.word(ts[k].c) || (k + 1 < |ts| && !IsW(cls, ts[k + 1].c)))
  {
    var t := ts[k];
    assert t in ts;
    if t.form != Plain {
      MadeShape(cls, t);
      assert t.c == '.' ==> t == Token('.', Escaped);
      assert t.c in "ie" ==> t.form == Ref;
    }
  }

  lemma WwwStep(cls: Classes, ts: seq<Token>) returns (out: seq<Token>)
    requires PythonTables(cls) && BeforeWww(cls, ts) && NoRefAhead(ts)
    ensures Render(out) == Sub(cls, Www, Render(ts)) && Raw(out) == Raw(ts)
    ensures Built(out, ESC1, REFERABLE - {'@'}, GONE, true) && NoRefAhead(out)
    ensures Token('W', Lowered) in out <==> CapitalWww(cls, Raw(ts))
  {
    forall k | 0 <= k < |ts| && ts[k].form == Plain
      ensures WwwLetterAt(cls, Render(ts), Off(ts, k)) ==> ts[k].c == 'w' || ts[k].c == 'W'
      ensures Off(ts, k) >= 3 && WwwAt(cls, Render(ts), Off(ts, k) - 3) ==> ts[k].c == '.'
    {
      PlainChar(ts, k);
      WwwLetters(cls, Render(ts), Off(ts, k));
    }
    out := LaterStep(cls, Www, ts, ESC1, REF0 + {'i', 'e', ':'}, GONE, false, ESC1, REFERABLE - {'@'}, true);
    StillNoRefAhead(cls, Www, ts);
    CapitalIsLowered(cls, ts);
    LoweredIsCapital(cls, ts);
  }

  lemma WwwToken(cls: Classes, ts: seq<Token>, k: nat)
    requires PythonTables(cls) && BeforeWww(cls, ts) && k < |ts|
    ensures Apply(cls, Www, ts)[k] == Token('W', Lowered) <==> ts[k].c == 'W' && WwwLetterAt(cls, Raw(ts), k)
  {
    Marked(cls, Www, ts, k);
    assert ts[k] in ts;
    if ts[k].form == Plain {
      PlainChar(ts, k);
      WwwMark(cls, Render(ts), Off(ts, k), ts[k]);
      SameLetter(cls, ts, k);
    } else {
      assert ts[k].c != 'W';
    }
  }

  lemma SameLetter(cls: Classes, ts: seq<Token>, k: nat)
    requires PythonTables(cls) && BeforeWww(cls, ts) && k < |ts|
    ensures WwwLetterAt(cls, Render(ts), Off(ts, k)) <==> WwwLetterAt(cls, Raw(ts), k)
  {
    TokensKeepW(cls, ts);
    SameWwwLetter(cls, LayoutOf(ts), k);
  }

  lemma WwwMark(cls: Classes, s: string, i: nat, t: Token)
    requires i < |s| && t == Token(s[i], Plain)
    ensures Mark(cls, Www, s, i, t) == Token('W', Lowered) <==> t.c == 'W' && WwwLetterAt(cls, s, i)
  {
  }

  lemma CapitalIsLowered(cls: Classes, ts: seq<Token>)
    requires PythonTables(cls) && BeforeWww(cls, ts)
    ensures CapitalWww(cls, Raw(ts)) ==> Token('W', Lowered) in Apply(cls, Www, ts)
  {
    if k: nat :| WwwAt(cls, Raw(ts), k) && 'W' in Raw(ts)[k..k + 3] {
      var d :| 0 <= d < 3 && Raw(ts)[k..k + 3][d] == 'W';
      CapitalLetterIsLowered(cls, ts, k, d);
    }
  }

  lemma CapitalLetterIsLowered(cls: Classes, ts: seq<Token>, k: nat, d: nat)
    requires PythonTables(cls) && BeforeWww(cls, ts)
    requires WwwAt(cls, Raw(ts), k) && d < 3 && Raw(ts)[k + d] == 'W'
    ensures Token('W', Lowered) in Apply(cls, Www, ts)
  {
    LetterOfWww(cls, Raw(ts), k, d);
    CapitalToken(cls, ts, k + d);
  }

  lemma CapitalToken(cls: Classes, ts: seq<Token>, k: nat)
    requires PythonTables(cls) && BeforeWww(cls, ts) && k < |ts| && ts[k].c == 'W' && WwwLetterAt(cls, Raw(ts), k)
    ensures Token('W', Lowered) in Apply(cls, Www, ts)
  {
    WwwToken(cls, ts, k);
    var out := Apply(cls, Www, ts);
    assert out[k] in out;
  }

  lemma LetterOfWww(cls: Classes, text: string, k: nat, d: nat)
    requires WwwAt(cls, text, k) && d < 3
    ensures WwwLetterAt(cls, text, k + d) && text[k..k + 3][d] == text[k + d]
  {
    assert d == 0 || d == 1 || d == 2;
  }

  lemma LoweredIsCapital(cls: Classes, ts: seq<Token>)
    requires PythonTables(cls) && BeforeWww(cls, ts)
    ensures Token('W', Lowered) in Apply(cls, Www, ts) ==> CapitalWww(cls, Raw(ts))
  {
    var out, raw := Apply(cls, Www, ts), Raw(ts);
    if k :| 0 <= k < |out| && out[k] == Token('W', Lowered) {
      WwwToken(cls, ts, k);
      if WwwAt(cls, raw, k) {
        assert raw[k..k + 3][0] == 'W';
      } else if k >= 1 && WwwAt(cls, raw, k - 1) {
        assert raw[k - 1..k + 2][1] == 'W';
      } else {
        assert WwwAt(cls, raw, k - 2) && raw[k - 2..k + 1][2] == 'W';
      }
    }
  }

  lemma EmailStep(cls: Classes, ts: seq<Token>) returns (out: seq<Token>)
    requires PythonTables(cls) && Built(ts, ESC1, REFERABLE - {'@'}, GONE, true) && NoRefAhead(ts)
    ensures Render(out) == Sub(cls, Email, Render(ts)) && Raw(out) == Raw(ts)
    ensures Built(out, ESC1, REFERABLE, GONE, true) && NoRefAhead(out)
    ensures Token('W', Lowered) in out <==> Token('W', Lowered) in ts
  {
    forall k | 0 <= k < |ts| && ts[k].form == Plain && EmailAt(cls, Render(ts), Off(ts, k)) ensures ts[k].c == '@' {
      PlainChar(ts, k);
    }
    out := LaterStep(cls, Email, ts, ESC1, REFERABLE - {'@'}, GONE, true, ESC1, REFERABLE, true);
    StillNoRefAhead(cls, Email, ts);
    if k :| 0 <= k < |ts| && ts[k] == Token('W', Lowered) {
      Marked(cls, Email, ts, k);
    }
    if k :| 0 <= k < |out| && out[k] == Token('W', Lowered) {
      Marked(cls, Email, ts, k);
    }
  }

  // ---------- all of them ----------

  lemma Start(text: string) returns (ts: seq<Token>)
    ensures Render(ts) == text && Raw(ts) == text && Built(ts, {}, {}, {}, false)
  {
    if text == "" {
      ts := [];
    } else {
      var rest := Start(text[1..]);
      ts := [Token(text[0], Plain)] + rest;
      RenderFront(ts);
      assert ts[1..] == rest;
      assert Raw(ts) == [text[0]] + Raw(rest);
    }
  }

  lemma EntityPasses(cls: Classes, text: string) returns (ts: seq<Token>)
    requires PythonTables(cls)
    ensures Render(ts) == EscapeEntities(cls, text) && Raw(ts) == text
    ensures Built(ts, {'\\'}, {'&'}, {'\\'}, false) && NoRefAhead(ts)
  {
    ts := Start(text);
    ts := ReplaceStep(cls, '\\', "\\\\", ts, {}, {}, {});
    ts := EntityStep(cls, ts);
  }

  lemma MarkupPass(cls: Classes, c: char, with: string, ts: seq<Token>, ref: set<char>, gone: set<char>)
    returns (out: seq<Token>)
    requires Lawful(cls) && Built(ts, {'\\'}, ref, gone, false) && NoRefAhead(ts)
    requires c in "<>{}" && with == RefOf(c)
    ensures Render(out) == Sub(cls, Replace(c, with), Render(ts)) && Raw(out) == Raw(ts) && NoRefAhead(out)
    ensures Built(out, {'\\'}, ref + {c}, gone + {c}, false)
  {
    StillNoRefAhead(cls, Replace(c, with), ts);
    out := ReplaceStep(cls, c, with, ts, {'\\'}, ref, gone);
  }

  lemma MarkupPasses(cls: Classes, ts: seq<Token>) returns (out: seq<Token>)
    requires PythonTables(cls) && Built(ts, {'\\'}, {'&'}, {'\\'}, false) && NoRefAhead(ts)
    ensures Render(out) == EscapeMarkup(cls, Render(ts)) && Raw(out) == Raw(ts) && NoRefAhead(out)
    ensures Built(out, {'\\'}, REF0, {'\\'} + MARKUP, false)
  {
    var ref, gone := {'&'}, {'\\'};
    out := MarkupPass(cls, '<', "&lt;", ts, ref, gone);
    out := MarkupPass(cls, '>', "&gt;", out, ref + {'<'}, gone + {'<'});
    out := MarkupPass(cls, '{', "&#123;", out, ref + {'<'} + {'>'}, gone + {'<'} + {'>'});
    out := MarkupPass(cls, '}', "&#125;", out, ref + {'<'} + {'>'} + {'{'}, gone + {'<'} + {'>'} + {'{'});
    assert ref + {'<'} + {'>'} + {'{'} + {'}'} == REF0;
    assert gone + {'<'} + {'>'} + {'{'} + {'}'} == {'\\'} + MARKUP;
  }

  const MARKUP: set<char> := {'<', '>', '{', '}'}

  lemma InlinePass(cls: Classes, c: char, ts: seq<Token>, done: set<char>) returns (out: seq<Token>)
    requires Lawful(cls) && Built(ts, done, REF0, done + MARKUP, false) && NoRefAhead(ts) && c in "[]`*_~" && c !in done
    ensures Render(out) == Sub(cls, Replace(c, ['\\', c]), Render(ts)) && Raw(out) == Raw(ts) && NoRefAhead(out)
    ensures Built(out, done + {c}, REF0, done + {c} + MARKUP, false)
  {
    StillNoRefAhead(cls, Replace(c, ['\\', c]), ts);
    out := ReplaceStep(cls, c, ['\\', c], ts, done, REF0, done + MARKUP);
    assert done + {c} + MARKUP == done + MARKUP + {c};
  }

  const BRACKETS: set<char> := {'\\', '[', ']', '`'}

  lemma BracketPasses(cls: Classes, ts: seq<Token>) returns (out: seq<Token>)
    requires PythonTables(cls) && Built(ts, {'\\'}, REF0, {'\\'} + MARKUP, false) && NoRefAhead(ts)
    ensures Render(out) == EscapeBrackets(cls, Render(ts)) && Raw(out) == Raw(ts) && NoRefAhead(out)
    ensures Built(out, BRACKETS, REF0, BRACKETS + MARKUP, false)
  {
    var done := {'\\'};
    out := InlinePass(cls, '[', ts, done);
    out := InlinePass(cls, ']', out, done + {'['});
    out := InlinePass(cls, '`', out, done + {'['} + {']'});
    assert done + {'['} + {']'} + {'`'} == BRACKETS;
  }

  lemma EmphasisPasses(cls: Classes, ts: seq<Token>, done: set<char>) returns (out: seq<Token>)
    requires PythonTables(cls) && Built(ts, done, REF0, done + MARKUP, false) && NoRefAhead(ts)
    requires '*' !in done && '_' !in done && '~' !in done
    ensures Render(out) == EscapeEmphasis(cls, Render(ts)) && Raw(out) == Raw(ts) && NoRefAhead(out)
    ensures var all := done + {'*'} + {'_'} + {'~'}; Built(out, all, REF0, all + MARKUP, false)
  {
    out := InlinePass(cls, '*', ts, done);
    out := InlinePass(cls, '_', out, done + {'*'});
    out := InlinePass(cls, '~', out, done + {'*'} + {'_'});
  }

  lemma PatternPasses(cls: Classes, ts: seq<Token>) returns (out: seq<Token>)
    requires PythonTables(cls) && Built(ts, ESC0, REF0, GONE, false) && NoRefAhead(ts)
    ensures Render(out) == EscapePatterns(cls, Render(ts)) && Raw(out) == Raw(ts) && NoRefAhead(out)
    ensures Built(out, ESC1, REFERABLE, GONE, true)
    ensures Token('W', Lowered) in out <==> CapitalWww(cls, Raw(ts))
  {
    out := BlockStep(cls, ts);
    out := EsmStep(cls, out);
    out := AutolinkStep(cls, out);
    out := WwwStep(cls, out);
    out := EmailStep(cls, out);
  }

  lemma AllInline()
    ensures BRACKETS + {'*'} + {'_'} + {'~'} == ESC0 && ESC0 + MARKUP == GONE
  {
  }

  lemma EscapeTokens(cls: Classes, text: string) returns (ts: seq<Token>)
    requires PythonTables(cls)
    ensures Render(ts) == Escape(cls, text) && Raw(ts) == text
    ensures Built(ts, ESC1, REFERABLE, GONE, true) && NoRefAhead(ts)
    ensures Token('W', Lowered) in ts <==> CapitalWww(cls, text)
  {
    ts := EntityPasses(cls, text);
    ts := MarkupPasses(cls, ts);
    ts := BracketPasses(cls, ts);
    ts := EmphasisPasses(cls, ts, BRACKETS);
    AllInline();
    ts := PatternPasses(cls, ts);
  }

  // ---------- the guarantees ----------

  lemma BuiltFacts(ts: seq<Token>)
    requires Built(ts, ESC1, REFERABLE, GONE, true)
    ensures AllLegal(ts) && Token('\\', Plain) !in ts
  {
  }

  lemma ReadIsRaw(ts: seq<Token>)
    requires AllLegal(ts)
    ensures Read(ts) == Raw(ts) <==> Token('W', Lowered) !in ts
  {
    if k :| 0 <= k < |ts| && ts[k] == Token('W', Lowered) {
      assert Read(ts)[k] == 'w' && Raw(ts)[k] == 'W';
    } else {
      forall k | 0 <= k < |ts| ensures Read(ts)[k] == Raw(ts)[k] {
        assert ts[k] in ts && ts[k] != Token('W', Lowered);
      }
      assert Read(ts) == Raw(ts);
    }
  }

  /** The escaped text reads back as the prose exactly when the prose has no capital in a `www.`. */
  lemma EscapeRoundTrips(cls: Classes, text: string)
    requires PythonTables(cls)
    ensures Decode(Escape(cls, text)) == text <==> !CapitalWww(cls, text)
  {
    var ts := EscapeTokens(cls, text);
    BuiltFacts(ts);
    DecodeRender(ts);
    ReadIsRaw(ts);
  }

  function LowerAscii(c: char): char {
    if 'A' <= c <= 'Z' then 'a' + (c - 'A') else c
  }

  /** The tables for ASCII text, with the common spaces. */
  function AsciiTables(): Classes {
    Classes(c => c in " \t\n\r", c => IsAlnum(c) || c == '_', c => '0' <= c <= '9', LowerAscii)
  }

  lemma AsciiIsPython()
    ensures PythonTables(AsciiTables())
  {
    assert forall c {:trigger LowerAscii(c)} :: LowerAscii(c) == 'w' <==> c == 'w' || c == 'W';
  }

  /** A text that is not read back: its capital is lowered. */
  lemma CapitalIsLost()
    ensures Decode(Escape(AsciiTables(), "Www.")) != "Www."
  {
    AsciiIsPython();
    var cls, text := AsciiTables(), "Www.";
    assert text[0] == 'W' && text[1] == 'w' && text[2] == 'w' && text[3] == '.';
    assert forall j | 0 <= j < 3 :: cls.fold(text[0 + j]) == "www"[j];
    assert WwwAt(cls, text, 0);
    assert text[0..3][0] == 'W';
    EscapeRoundTrips(cls, text);
  }

  /** So two different texts never escape to the same Markdown. */
  lemma EscapeIsInjective(cls: Classes, a: string, b: string)
    requires PythonTables(cls) && !CapitalWww(cls, a) && !CapitalWww(cls, b)
    requires Escape(cls, a) == Escape(cls, b)
    ensures a == b
  {
    EscapeRoundTrips(cls, a);
    EscapeRoundTrips(cls, b);
  }

  /** How many backslashes stand right before position `i`. */
  function BackslashesBefore(s: string, i: nat): nat
    requires i <= |s|
  {
    if i > 0 && s[i - 1] == '\\' then 1 + BackslashesBefore(s, i - 1) else 0
  }

  lemma {:induction false} EvenAtTokens(ts: seq<Token>, k: nat)
    requires AllLegal(ts) && Token('\\', Plain) !in ts && k <= |ts|
    ensures Off(ts, k) <= |Render(ts)| && BackslashesBefore(Render(ts), Off(ts, k)) % 2 == 0
  {
    OffEnds(ts);
    if k > 0 {
      EvenAtTokens(ts, k - 1);
      EvenAcross(ts, k - 1);
    }
  }

  lemma EvenAcross(ts: seq<Token>, k: nat)
    requires AllLegal(ts) && Token('\\', Plain) !in ts && k < |ts| && Off(ts, k) <= |Render(ts)|
    requires BackslashesBefore(Render(ts), Off(ts, k)) % 2 == 0
    ensures Off(ts, k + 1) <= |Render(ts)| && BackslashesBefore(Render(ts), Off(ts, k + 1)) % 2 == 0
  {
    EndsShown(ts, k);
    assert ts[k] in ts;
    EvenAfter(ts[k], Render(ts), Off(ts, k));
  }

  lemma EvenAfter(t: Token, s: string, i: nat)
    requires Legal(t) && t != Token('\\', Plain) && i + |Show(t)| <= |s| && |Show(t)| > 0
    requires s[i] == Show(t)[0] && s[i + |Show(t)| - 1] == Show(t)[|Show(t)| - 1]
    requires BackslashesBefore(s, i) % 2 == 0
    ensures BackslashesBefore(s, i + |Show(t)|) % 2 == 0
  {
    if t.form == Ref { RefShape(t.c); }
    if t == Token('\\', Escaped) {
      assert BackslashesBefore(s, i + 1) == 1 + BackslashesBefore(s, i);
    }
  }

  lemma TokenAt(ts: seq<Token>, i: nat) returns (k: nat)
    requires AllLegal(ts) && i < |Render(ts)|
    ensures k < |ts| && Off(ts, k) <= i < Off(ts, k + 1)
  {
    OffEnds(ts);
    k := 0;
    while Off(ts, k + 1) <= i
      invariant k < |ts| && Off(ts, k) <= i
      decreases |ts| - k
    {
      k := k + 1;
    }
  }

  /**
   * No tag, expression, link, emphasis or code: `<`, `>`, `{` and `}` are gone, and each of the six characters
   * Markdown would read as inline syntax stands after an odd number of backslashes.
   */
  lemma NothingIsBare(cls: Classes, text: string, i: nat)
    requires PythonTables(cls) && i < |Escape(cls, text)|
    ensures Escape(cls, text)[i] !in "<>{}"
    ensures Escape(cls, text)[i] in "[]`*_~" ==> BackslashesBefore(Escape(cls, text), i) % 2 == 1
  {
    var ts := EscapeTokens(cls, text);
    BuiltFacts(ts);
    var k := TokenAt(ts, i);
    assert ts[k] in ts;
    EvenAtTokens(ts, k);
    ShownAt(ts, k, i);
  }

  lemma ShownAt(ts: seq<Token>, k: nat, i: nat)
    requires k < |ts| && Off(ts, k) <= i < Off(ts, k + 1) && Legal(ts[k])
    requires (ts[k].form == Plain ==> ts[k].c !in GONE) && (ts[k].form == Escaped ==> ts[k].c in ESC1)
    requires Off(ts, k) <= |Render(ts)| && BackslashesBefore(Render(ts), Off(ts, k)) % 2 == 0
    ensures i < |Render(ts)| && Render(ts)[i] !in "<>{}"
    ensures Render(ts)[i] in "[]`*_~" ==> BackslashesBefore(Render(ts), i) % 2 == 1
  {
    CharAt(ts, k, i);
    CharAt(ts, k, Off(ts, k));
    ShownSyntax(ts[k], i - Off(ts, k));
    if Render(ts)[i] in "[]`*_~" {
      OddAfter(Render(ts), i);
    }
  }

  lemma OddAfter(s: string, i: nat)
    requires 0 < i <= |s| && s[i - 1] == '\\' && BackslashesBefore(s, i - 1) % 2 == 0
    ensures BackslashesBefore(s, i) % 2 == 1
  {
  }

  lemma CharAt(ts: seq<Token>, k: nat, i: nat)
    requires k < |ts| && Off(ts, k) <= i < Off(ts, k + 1)
    ensures i < |Render(ts)| && i - Off(ts, k) < |Show(ts[k])|
    ensures Render(ts)[i] == Show(ts[k])[i - Off(ts, k)]
  {
    CharIn(Shown(ts), k, i);
  }

  lemma ShownSyntax(t: Token, j: nat)
    requires Legal(t) && j < |Show(t)|
    requires (t.form == Plain ==> t.c !in GONE) && (t.form == Escaped ==> t.c in ESC1)
    ensures Show(t)[j] !in "<>{}"
    ensures Show(t)[j] in "[]`*_~" ==> j == 1 && Show(t)[0] == '\\'
  {
    if t.form == Ref { RefShape(t.c); }
  }
}
