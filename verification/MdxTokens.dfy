// Every intermediate string of mdx_escape is a sequence of tokens, one for each character of the prose: the character
// as it is, behind a backslash, or as a reference. A substitution over the string is one over the tokens.
module MdxTokens {
  import opened Wrappers
  import opened Pieces
  import opened MdxEscape

  /** What the proofs need of the tables; all of it holds of Python's. */
  ghost predicate Lawful(cls: Classes) {
    && !cls.space('\\') && !cls.space('&') && !cls.digit('\\') && !cls.digit('&')
    && (forall c {:trigger cls.fold(c)} :: cls.fold(c) == 'w' <==> c == 'w' || c == 'W')
    && (forall c | c in "&<>{}:.@;" :: !cls.word(c))
  }

  // `Lowered` is a letter of a `www.` that is written in lower case.
  datatype Form = Plain | Lowered | Escaped | Ref

  datatype Token = Token(c: char, form: Form)

  function Show(t: Token): string {
    match t.form
    case Plain => [t.c]
    case Lowered => "w"
    case Escaped => ['\\', t.c]
    case Ref => RefOf(t.c)
  }

  function Shown(ts: seq<Token>): seq<string> {
    seq(|ts|, k requires 0 <= k < |ts| => Show(ts[k]))
  }

  function Render(ts: seq<Token>): string {
    Join(Shown(ts))
  }

  function Raw(ts: seq<Token>): string {
    seq(|ts|, k requires 0 <= k < |ts| => ts[k].c)
  }

  /** Where token `k` begins. */
  function Off(ts: seq<Token>, k: nat): nat
    requires k <= |ts|
  {
    At(Shown(ts), k)
  }

  predicate Legal(t: Token) {
    match t.form
    case Plain => true
    case Lowered => t.c == 'w' || t.c == 'W'
    case Escaped => t.c in ESCAPABLE
    case Ref => t.c in REFERABLE
  }

  ghost predicate AllLegal(ts: seq<Token>) {
    forall t | t in ts :: Legal(t)
  }

  // ---------- where tokens lie ----------

  lemma RenderAt(ts: seq<Token>, k: nat)
    requires k < |ts|
    ensures Off(ts, k + 1) == Off(ts, k) + |Show(ts[k])| <= |Render(ts)|
    ensures Render(ts)[Off(ts, k)..] == Render(ts[k..])
    ensures Render(ts)[Off(ts, k)..Off(ts, k + 1)] == Show(ts[k])
  {
    PieceAt(Shown(ts), k);
    assert Shown(ts)[k..] == Shown(ts[k..]);
  }

  lemma RenderHead(ts: seq<Token>, k: nat)
    requires k < |ts|
    ensures Render(ts[k..]) == Show(ts[k]) + Render(ts[k + 1..])
  {
    PieceAt(Shown(ts), k);
    assert Shown(ts)[k..] == Shown(ts[k..]) && Shown(ts)[k + 1..] == Shown(ts[k + 1..]);
  }

  lemma RenderFront(ts: seq<Token>)
    requires ts != []
    ensures Render(ts) == Show(ts[0]) + Render(ts[1..])
  {
    RenderHead(ts, 0);
    assert ts[0..] == ts;
  }

  lemma OffEnds(ts: seq<Token>)
    ensures Off(ts, 0) == 0 && Off(ts, |ts|) == |Render(ts)|
  {
    EndsAt(Shown(ts));
  }

  // ---------- one substitution on tokens ----------

  /** What a substitution makes of the token at offset `i` of `s`. */
  function Mark(cls: Classes, p: Pass, s: string, i: nat, t: Token): Token {
    if t.form != Plain then t
    else match p
      case Replace(c, _) => if t.c == c then Token(c, if c in REFERABLE then Ref else Escaped) else t
      case Entity => if EntityAt(s, i) then Token(t.c, Ref) else t
      case BlockStart => if BlockMark(cls, s) == Some(i) then Token(t.c, Escaped) else t
      case Esm => if EsmMark(cls, s) == Some(i) then Token(t.c, Ref) else t
      case Autolink => if AutolinkAt(cls, s, i) then Token(t.c, Ref) else t
      case Www =>
        if i >= 3 && WwwAt(cls, s, i - 3) then Token(t.c, Ref)
        else if WwwLetterAt(cls, s, i) then Token(t.c, Lowered) else t
      case Email => if EmailAt(cls, s, i) then Token(t.c, Ref) else t
  }

  function Apply(cls: Classes, p: Pass, ts: seq<Token>): (r: seq<Token>)
    ensures |r| == |ts|
  {
    seq(|ts|, k requires 0 <= k < |ts| => Mark(cls, p, Render(ts), Off(ts, k), ts[k]))
  }

  /** The substitutions leave what earlier ones wrote alone, if these are run before it. */
  ghost predicate Fits(p: Pass, ts: seq<Token>) {
    match p
    case Replace(c, with) =>
      && (forall t | t in ts && t.form != Plain :: c !in Show(t))
      && (if c in REFERABLE then with == RefOf(c) else with == ['\\', c] && c in ESCAPABLE)
    case Entity => forall t | t in ts && t.form != Plain :: t == Token('\\', Escaped)
    case Www => forall t | t in ts :: t.form != Lowered
    case _ => true
  }

  /** The characters of a reference after its ampersand. */
  predicate IsRefChar(c: char) {
    c in "ampltg#01234568;"
  }

  lemma RefShape(c: char)
    requires c in REFERABLE
    ensures |RefOf(c)| >= 4 && RefOf(c)[0] == '&' && RefOf(c)[|RefOf(c)| - 1] == ';'
    ensures forall k | 0 < k < |RefOf(c)| :: IsRefChar(RefOf(c)[k])
  {
  }

  lemma WwwLetters(cls: Classes, s: string, i: nat)
    ensures WwwAt(cls, s, i) ==> cls.fold(s[i]) == cls.fold(s[i + 1]) == cls.fold(s[i + 2]) == 'w'
    ensures WwwLetterAt(cls, s, i) ==> i < |s| && cls.fold(s[i]) == 'w'
  {
    assert WwwAt(cls, s, i)
           ==> cls.fold(s[i + 0]) == "www"[0] && cls.fold(s[i + 1]) == "www"[1] && cls.fold(s[i + 2]) == "www"[2];
    if i >= 1 {
      assert WwwAt(cls, s, i - 1) ==> cls.fold(s[i - 1 + 1]) == "www"[1];
    }
    if i >= 2 {
      assert WwwAt(cls, s, i - 2) ==> cls.fold(s[i - 2 + 2]) == "www"[2];
    }
  }

  /** A mark that only spaces and digits precede is never inside an escape or a reference. */
  lemma MarksStandFirst(cls: Classes, s: string, i: nat, j: nat)
    requires Lawful(cls) && i < |s| && (s[i] == '\\' || s[i] == '&')
    requires BlockMark(cls, s) == Some(j) || EsmMark(cls, s) == Some(j)
    ensures j < i
  {
    if i <= j {
      MarksAreClean(cls, s, i, j);
    }
  }

  lemma MarksAreClean(cls: Classes, s: string, i: nat, j: nat)
    requires Lawful(cls) && i <= j && (BlockMark(cls, s) == Some(j) || EsmMark(cls, s) == Some(j))
    ensures j < |s| && s[i] != '\\' && s[i] != '&'
  {
    var k := RunEnd(cls.space, s, 0);
    var e := RunEnd(cls.digit, s, k);
    assert j == k || j == e;
    if EsmMark(cls, s) == Some(j) {
      assert s[k] == s[k..k + 6][0];
    }
  }

  /** The patterns match nothing inside a backslash escape at `i`. */
  lemma EscapeIsUntouched(cls: Classes, p: Pass, s: string, i: nat, j: nat)
    requires Lawful(cls) && i <= j <= i + 1 < |s| && s[i] == '\\' && s[i + 1] in ESCAPABLE
    requires p.Replace? ==> s[j] != p.c
    ensures Edit(cls, p, s, j) == [s[j]]
  {
    match p
    case BlockStart => if BlockMark(cls, s) == Some(j) { MarksStandFirst(cls, s, i, j); }
    case Esm => if EsmMark(cls, s) == Some(j) { MarksStandFirst(cls, s, i, j); }
    case Www => EscapeIsNoWww(cls, s, i, j);
    case _ => assert s[j] == '\\' || s[j] in ESCAPABLE;
  }

  lemma EscapeIsNoWww(cls: Classes, s: string, i: nat, j: nat)
    requires Lawful(cls) && i <= j <= i + 1 < |s| && s[i] == '\\' && s[i + 1] in ESCAPABLE
    ensures Edit(cls, Www, s, j) == [s[j]]
  {
    WwwLetters(cls, s, j);
    if j >= 3 {
      WwwLetters(cls, s, j - 3);
    }
  }

  /** Nor inside a reference. */
  lemma RefIsUntouched(cls: Classes, p: Pass, s: string, i: nat, j: nat)
    requires Lawful(cls) && i <= j < |s| && s[i] == '&' && (forall k | i < k <= j :: IsRefChar(s[k]))
    requires p.Replace? ==> s[j] != p.c
    requires p != Entity
    ensures Edit(cls, p, s, j) == [s[j]]
  {
    match p
    case BlockStart => MarkIsElsewhere(cls, s, i, j);
    case Esm => MarkIsElsewhere(cls, s, i, j);
    case Www => WwwLetters(cls, s, j);
    case _ =>
  }

  lemma MarkIsElsewhere(cls: Classes, s: string, i: nat, j: nat)
    requires Lawful(cls) && i <= j < |s| && s[i] == '&' && (forall k | i < k <= j :: IsRefChar(s[k]))
    ensures BlockMark(cls, s) != Some(j) && EsmMark(cls, s) != Some(j)
  {
    if BlockMark(cls, s) == Some(j) || EsmMark(cls, s) == Some(j) {
      MarksStandFirst(cls, s, i, j);
    }
  }

  /** Nor a letter already lowered. */
  lemma LoweredIsUntouched(cls: Classes, p: Pass, s: string, j: nat)
    requires j < |s| && s[j] == 'w' && p != Www
    requires p.Replace? ==> s[j] != p.c
    ensures Edit(cls, p, s, j) == [s[j]]
  {
    assert j + 6 <= |s| ==> s[j] == s[j..j + 6][0];
  }

  /** Nothing is edited inside a token that is not a plain character. */
  lemma MadeIsUntouched(cls: Classes, p: Pass, ts: seq<Token>, k: nat, j: nat)
    requires Lawful(cls) && AllLegal(ts) && Fits(p, ts) && k < |ts| && ts[k].form != Plain
    requires Off(ts, k) <= j < Off(ts, k + 1)
    ensures j < |Render(ts)| && Edit(cls, p, Render(ts), j) == [Render(ts)[j]]
  {
    var s, t, i := Render(ts), ts[k], Off(ts, k);
    RenderAt(ts, k);
    var shown := s[i..Off(ts, k + 1)];
    assert forall m | 0 <= m < |shown| :: shown[m] == s[i + m];
    assert s[j] == shown[j - i];
    assert t in ts && Legal(t);
    assert p.Replace? ==> s[j] in Show(t);
    match t.form
    case Lowered => LoweredIsUntouched(cls, p, s, j);
    case Escaped => EscapeIsUntouched(cls, p, s, i, j);
    case Ref =>
      RefShape(t.c);
      assert forall m | i < m <= j :: s[m] == shown[m - i];
      RefIsUntouched(cls, p, s, i, j);
    case Plain =>
  }

  // ---------- a substitution on the string is one on the tokens ----------

  lemma PlainIsMarked(cls: Classes, p: Pass, ts: seq<Token>, k: nat)
    requires Lawful(cls) && Fits(p, ts) && k < |ts| && ts[k].form == Plain
    ensures Off(ts, k + 1) == Off(ts, k) + 1 <= |Render(ts)|
    ensures Render(ts)[Off(ts, k)] == ts[k].c
    ensures Edit(cls, p, Render(ts), Off(ts, k)) == Show(Mark(cls, p, Render(ts), Off(ts, k), ts[k]))
  {
    var s, i := Render(ts), Off(ts, k);
    RenderAt(ts, k);
    assert s[i] == s[i..i + 1][0];
    assert ts[k] in ts;
    EditIsMark(cls, p, s, i, ts[k]);
  }

  lemma EditIsMark(cls: Classes, p: Pass, s: string, i: nat, t: Token)
    requires i < |s| && t == Token(s[i], Plain)
    requires p.Replace? ==> p.with == if p.c in REFERABLE then RefOf(p.c) else ['\\', p.c]
    ensures Edit(cls, p, s, i) == Show(Mark(cls, p, s, i, t))
  {
    match p
    case Replace(_, _) => ReplaceIsMark(cls, p, s, i, t);
    case Esm => EsmIsMark(cls, s, i, t);
    case Www => WwwIsMark(cls, s, i, t);
    case _ => PatternIsMark(cls, p, s, i, t);
  }

  lemma ReplaceIsMark(cls: Classes, p: Pass, s: string, i: nat, t: Token)
    requires i < |s| && t == Token(s[i], Plain) && p.Replace?
    requires p.with == if p.c in REFERABLE then RefOf(p.c) else ['\\', p.c]
    ensures Edit(cls, p, s, i) == Show(Mark(cls, p, s, i, t))
  {
  }

  lemma PatternIsMark(cls: Classes, p: Pass, s: string, i: nat, t: Token)
    requires i < |s| && t == Token(s[i], Plain) && !p.Replace? && !p.Esm? && !p.Www?
    ensures Edit(cls, p, s, i) == Show(Mark(cls, p, s, i, t))
  {
  }

  lemma EsmIsMark(cls: Classes, s: string, i: nat, t: Token)
    requires i < |s| && t == Token(s[i], Plain)
    ensures Edit(cls, Esm, s, i) == Show(Mark(cls, Esm, s, i, t))
  {
    EsmLetter(cls, s);
  }

  lemma WwwIsMark(cls: Classes, s: string, i: nat, t: Token)
    requires i < |s| && t == Token(s[i], Plain)
    ensures Edit(cls, Www, s, i) == Show(Mark(cls, Www, s, i, t))
  {
    if i >= 3 && WwwAt(cls, s, i - 3) {
      assert s[i] == '.';
    }
  }

  lemma EsmLetter(cls: Classes, s: string)
    ensures EsmMark(cls, s).Some? ==> EsmMark(cls, s).value + 6 < |s|
    ensures EsmMark(cls, s).Some? ==>
      var k := EsmMark(cls, s).value;
      (s[k] == 'i' && s[k + 1] == 'm') || (s[k] == 'e' && s[k + 1] == 'x')
  {
    var k := RunEnd(cls.space, s, 0);
    if k + 6 <= |s| {
      assert s[k] == s[k..k + 6][0] && s[k + 1] == s[k..k + 6][1];
    }
  }

  /** The rest of the substituted string, from token `k` on, is that of the marked tokens. */
  lemma {:induction false} SubRenders(cls: Classes, p: Pass, ts: seq<Token>, k: nat)
    requires Lawful(cls) && AllLegal(ts) && Fits(p, ts) && k <= |ts|
    ensures Off(ts, k) <= |Render(ts)|
    ensures Join(Edits(cls, p, Render(ts))[Off(ts, k)..]) == Render(Apply(cls, p, ts)[k..])
    decreases |ts| - k
  {
    if k == |ts| {
      OffEnds(ts);
    } else {
      SubRenders(cls, p, ts, k + 1);
      SubOneToken(cls, p, ts, k);
      RenderHead(Apply(cls, p, ts), k);
    }
  }

  lemma SubOneToken(cls: Classes, p: Pass, ts: seq<Token>, k: nat)
    requires Lawful(cls) && AllLegal(ts) && Fits(p, ts) && k < |ts|
    ensures Off(ts, k) <= Off(ts, k + 1) <= |Render(ts)|
    ensures var edits := Edits(cls, p, Render(ts));
            Join(edits[Off(ts, k)..]) == Show(Apply(cls, p, ts)[k]) + Join(edits[Off(ts, k + 1)..])
  {
    var s, i, e := Render(ts), Off(ts, k), Off(ts, k + 1);
    RenderAt(ts, k);
    if ts[k].form == Plain {
      PlainIsMarked(cls, p, ts, k);
      PieceAt(Edits(cls, p, s), i);
    } else {
      forall j | i <= j < e ensures Edits(cls, p, s)[j] == [s[j]] {
        MadeIsUntouched(cls, p, ts, k, j);
      }
      OwnCharacters(Edits(cls, p, s), s, i, e);
      assert Apply(cls, p, ts)[k] == ts[k];
    }
  }

  /** One substitution: the string it gives is that of the marked tokens, which stand for the same prose. */
  lemma PassOnTokens(cls: Classes, p: Pass, ts: seq<Token>)
    requires Lawful(cls) && AllLegal(ts) && Fits(p, ts)
    ensures Sub(cls, p, Render(ts)) == Render(Apply(cls, p, ts))
    ensures Raw(Apply(cls, p, ts)) == Raw(ts)
  {
    OffEnds(ts);
    SubRenders(cls, p, ts, 0);
    assert Apply(cls, p, ts)[0..] == Apply(cls, p, ts);
    assert Edits(cls, p, Render(ts))[0..] == Edits(cls, p, Render(ts));
  }
}
