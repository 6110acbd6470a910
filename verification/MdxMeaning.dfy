// What the tokens of mdx_escape stand for as the substitutions go on: which characters are behind a backslash, which
// are references and which are gone, and how the finished string is read back.
module MdxMeaning {
  import opened Wrappers
  import opened MdxEscape
  import opened MdxTokens

  ghost predicate PythonTables(cls: Classes) {
    Lawful(cls) && !cls.digit('w') && !cls.digit('W')
  }

  /** Which characters are written as escapes, which as references, and which are no longer bare. */
  ghost predicate Built(ts: seq<Token>, esc: set<char>, ref: set<char>, gone: set<char>, lowered: bool) {
    forall t | t in ts ::
      Legal(t) &&
      match t.form
      case Plain => t.c !in gone
      case Lowered => lowered
      case Escaped => t.c in esc
      case Ref => t.c in ref
  }

  lemma Marked(cls: Classes, p: Pass, ts: seq<Token>, k: nat)
    requires k < |ts|
    ensures Apply(cls, p, ts)[k] == Mark(cls, p, Render(ts), Off(ts, k), ts[k])
    ensures Apply(cls, p, ts)[k].c == ts[k].c
    ensures ts[k].form != Plain ==> Apply(cls, p, ts)[k] == ts[k]
  {
  }

  // ---------- the substitutions in turn ----------

  lemma ReplaceStep(cls: Classes, c: char, with: string, ts: seq<Token>, esc: set<char>, ref: set<char>,
                    gone: set<char>)
    returns (out: seq<Token>)
    requires Lawful(cls) && Built(ts, esc, ref, gone, false) && c !in esc
    requires c == '\\' ==> esc == {} && ref == {}
    requires c != '&' && !IsRefChar(c)
    requires if c in REFERABLE then with == RefOf(c) else with == ['\\', c] && c in ESCAPABLE
    ensures out == Apply(cls, Replace(c, with), ts)
    ensures Render(out) == Sub(cls, Replace(c, with), Render(ts)) && Raw(out) == Raw(ts)
    ensures if c in REFERABLE then Built(out, esc, ref + {c}, gone + {c}, false)
            else Built(out, esc + {c}, ref, gone + {c}, false)
  {
    var p := Replace(c, with);
    out := Apply(cls, p, ts);
    forall t | t in ts && t.form != Plain ensures c !in Show(t) {
      if t.form == Ref { RefShape(t.c); }
    }
    PassOnTokens(cls, p, ts);
    forall t | t in out
      ensures Legal(t) && (t.form == Plain ==> t.c !in gone + {c}) && t.form != Lowered
      ensures t.form == Escaped ==> t.c in esc || (t.c == c && c !in REFERABLE)
      ensures t.form == Ref ==> t.c in ref || (t.c == c && c in REFERABLE)
    {
      var k :| 0 <= k < |out| && out[k] == t;
      Marked(cls, p, ts, k);
      assert ts[k] in ts;
    }
  }

  /** A later pass keeps what is built, but for the tokens it makes. */
  lemma LaterStep(cls: Classes, p: Pass, ts: seq<Token>, esc: set<char>, ref: set<char>, gone: set<char>, lowered: bool,
                  esc': set<char>, ref': set<char>, lowered': bool)
    returns (out: seq<Token>)
    requires Lawful(cls) && Built(ts, esc, ref, gone, lowered) && Fits(p, ts)
    requires esc <= esc' && ref <= ref' && (lowered ==> lowered')
    requires forall k | 0 <= k < |ts| && ts[k].form == Plain && Mark(cls, p, Render(ts), Off(ts, k), ts[k]) != ts[k] ::
      var t := Mark(cls, p, Render(ts), Off(ts, k), ts[k]);
      Legal(t) && ((t.form == Escaped && t.c in esc') || (t.form == Ref && t.c in ref')
                   || (t.form == Lowered && lowered'))
    ensures out == Apply(cls, p, ts)
    ensures Render(out) == Sub(cls, p, Render(ts)) && Raw(out) == Raw(ts)
    ensures Built(out, esc', ref', gone, lowered')
  {
    out := Apply(cls, p, ts);
    PassOnTokens(cls, p, ts);
    forall t | t in out
      ensures Legal(t) && (t.form == Plain ==> t.c !in gone) && (t.form == Lowered ==> lowered')
      ensures (t.form == Escaped ==> t.c in esc') && (t.form == Ref ==> t.c in ref')
    {
      var k :| 0 <= k < |out| && out[k] == t;
      Marked(cls, p, ts, k);
      assert ts[k] in ts;
    }
  }

  /** The character of a plain token is the one in the string. */
  lemma PlainChar(ts: seq<Token>, k: nat)
    requires k < |ts| && ts[k].form == Plain
    ensures Off(ts, k) + 1 == Off(ts, k + 1) <= |Render(ts)| && Render(ts)[Off(ts, k)] == ts[k].c
  {
    RenderAt(ts, k);
    assert Render(ts)[Off(ts, k)] == Render(ts)[Off(ts, k)..Off(ts, k + 1)][0];
  }

  // ---------- an ampersand left bare begins no reference ----------

  ghost predicate BodyAhead(s: string) {
    exists c | c in REFERABLE :: RefOf(c)[1..] <= s
  }

  ghost predicate NoRefAhead(ts: seq<Token>) {
    forall k | 0 <= k < |ts| && ts[k] == Token('&', Plain) :: !BodyAhead(Raw(ts)[k + 1..])
  }

  lemma {:induction false} TailOfBody(s: string, i: nat, n: nat)
    requires i + n < |s| && s[i + n] == ';' && (forall j | i <= j < i + n :: IsAlnum(s[j]))
    ensures EntityTail(s, i)
    decreases n
  {
    if n > 0 {
      TailOfBody(s, i + 1, n - 1);
    }
  }

  /** A character that is shown as itself, and is no backslash, ampersand or `w`, is a plain token. */
  lemma {:induction false} ShownBodyIsRaw(ts: seq<Token>, body: string)
    requires AllLegal(ts) && body <= Render(ts) && (forall c | c in body :: IsRefChar(c))
    ensures body <= Raw(ts)
  {
    if body != "" {
      assert body[0] in body;
      ShownHead(ts);
      assert body[1..] <= Render(ts)[1..];
      ShownBodyIsRaw(ts[1..], body[1..]);
      assert Raw(ts) == [ts[0].c] + Raw(ts[1..]);
    }
  }

  lemma ShownHead(ts: seq<Token>)
    requires AllLegal(ts) && Render(ts) != "" && IsRefChar(Render(ts)[0])
    ensures ts != [] && ts[0].c == Render(ts)[0] && Render(ts)[1..] == Render(ts[1..])
  {
    assert ts != [];
    RenderFront(ts);
    assert ts[0] in ts;
    if ts[0].form == Ref { RefShape(ts[0].c); }
  }

  /** Before any reference is written, a raw body is shown as it is. */
  lemma {:induction false} RawBodyIsShown(ts: seq<Token>, body: string)
    requires (forall t | t in ts :: t.form == Plain || t == Token('\\', Escaped))
    requires body <= Raw(ts) && '\\' !in body
    ensures body <= Render(ts)
  {
    if body != "" {
      assert body[0] == Raw(ts)[0] == ts[0].c && body[0] in body;
      assert ts[0] in ts;
      assert Raw(ts)[1..] == Raw(ts[1..]);
      RawBodyIsShown(ts[1..], body[1..]);
      RenderFront(ts);
    }
  }

  ghost predicate IsBody(body: string) {
    && |body| >= 3 && body[|body| - 1] == ';' && (IsLetter(body[0]) || body[0] == '#')
    && (forall k | 0 < k < |body| - 1 :: IsAlnum(body[k])) && (forall d | d in body :: IsRefChar(d))
  }

  lemma BodyShape(c: char)
    requires c in REFERABLE
    ensures IsBody(RefOf(c)[1..])
  {
  }

  lemma BodyIsEntity(s: string, i: nat, body: string)
    requires IsBody(body) && i < |s| && s[i] == '&' && body <= s[i + 1..]
    ensures EntityAt(s, i)
  {
    assert forall k | 0 <= k < |body| :: s[i + 1 + k] == s[i + 1..][k] == body[k];
    assert forall j | i + 2 <= j < i + |body| :: s[j] == body[j - i - 1];
    TailOfBody(s, i + 2, |body| - 2);
  }

  lemma EntityStep(cls: Classes, ts: seq<Token>) returns (out: seq<Token>)
    requires Lawful(cls) && Built(ts, {'\\'}, {}, {'\\'}, false)
    ensures Render(out) == Sub(cls, Entity, Render(ts)) && Raw(out) == Raw(ts)
    ensures Built(out, {'\\'}, {'&'}, {'\\'}, false) && NoRefAhead(out)
  {
    var s := Render(ts);
    forall t | t in ts && t.form != Plain ensures t == Token('\\', Escaped) {}
    forall k | 0 <= k < |ts| && ts[k].form == Plain && EntityAt(s, Off(ts, k)) ensures ts[k].c == '&' {
      PlainChar(ts, k);
    }
    out := LaterStep(cls, Entity, ts, {'\\'}, {}, {'\\'}, false, {'\\'}, {'&'}, false);
    forall k | 0 <= k < |out| && out[k] == Token('&', Plain) ensures !BodyAhead(Raw(out)[k + 1..]) {
      Marked(cls, Entity, ts, k);
      assert Raw(ts)[k + 1..] == Raw(ts[k + 1..]);
      BareAmpersand(ts, k);
    }
  }

  /** An ampersand the entity pattern passes over has no reference body after it in the prose. */
  lemma BareAmpersand(ts: seq<Token>, k: nat)
    requires k < |ts| && ts[k] == Token('&', Plain) && !EntityAt(Render(ts), Off(ts, k))
    requires forall t | t in ts :: t.form == Plain || t == Token('\\', Escaped)
    ensures !BodyAhead(Raw(ts[k + 1..]))
  {
    AfterPlain(ts, k);
    NoBodyAhead(ts[k + 1..], Render(ts), Off(ts, k));
  }

  lemma AfterPlain(ts: seq<Token>, k: nat)
    requires k < |ts| && ts[k].form == Plain
    ensures Off(ts, k) < |Render(ts)| && Render(ts)[Off(ts, k)] == ts[k].c
    ensures Render(ts)[Off(ts, k) + 1..] == Render(ts[k + 1..])
  {
    PlainChar(ts, k);
    RenderAt(ts, k);
    RenderHead(ts, k);
    assert Render(ts)[Off(ts, k)..][1..] == Render(ts)[Off(ts, k) + 1..];
  }

  lemma NoBodyAhead(rest: seq<Token>, s: string, i: nat)
    requires i < |s| && s[i] == '&' && s[i + 1..] == Render(rest) && !EntityAt(s, i)
    requires forall t | t in rest :: t.form == Plain || t == Token('\\', Escaped)
    ensures !BodyAhead(Raw(rest))
  {
    forall c | c in REFERABLE ensures !(RefOf(c)[1..] <= Raw(rest)) {
      BodyShape(c);
      RawBodyIsEntity(rest, s, i, RefOf(c)[1..]);
    }
  }

  lemma RawBodyIsEntity(rest: seq<Token>, s: string, i: nat, body: string)
    requires IsBody(body) && i < |s| && s[i] == '&' && s[i + 1..] == Render(rest)
    requires forall t | t in rest :: t.form == Plain || t == Token('\\', Escaped)
    ensures body <= Raw(rest) ==> EntityAt(s, i)
  {
    if body <= Raw(rest) {
      RawBodyIsShown(rest, body);
      BodyIsEntity(s, i, body);
    }
  }

  lemma StillNoRefAhead(cls: Classes, p: Pass, ts: seq<Token>)
    requires NoRefAhead(ts)
    ensures NoRefAhead(Apply(cls, p, ts))
  {
    var out := Apply(cls, p, ts);
    assert Raw(out) == Raw(ts);
    forall k | 0 <= k < |out| && out[k] == Token('&', Plain) ensures !BodyAhead(Raw(out)[k + 1..]) {
      Marked(cls, p, ts, k);
    }
  }

  // ---------- reading back ----------

  /** What the tokens read as: the prose, with the letters of a `www.` in lower case. */
  function Read(ts: seq<Token>): string {
    seq(|ts|, k requires 0 <= k < |ts| => if ts[k].form == Lowered then 'w' else ts[k].c)
  }

  lemma RefIsReferenced(c: char, rest: string)
    requires c in REFERABLE
    ensures Referenced(RefOf(c) + rest) == Some(c)
  {
    var s := RefOf(c) + rest;
    assert RefOf(c) <= s;
    forall d | d in REFERABLE && d != c ensures !(RefOf(d) <= s) {
      RefsDiffer(c, d);
    }
  }

  /** No reference is a prefix of another. */
  lemma RefsDiffer(c: char, d: char)
    requires c in REFERABLE && d in REFERABLE && c != d
    ensures exists k :: 0 <= k < |RefOf(c)| && k < |RefOf(d)| && RefOf(c)[k] != RefOf(d)[k]
  {
    assert RefOf(c)[1] != RefOf(d)[1] || RefOf(c)[2] != RefOf(d)[2] || RefOf(c)[3] != RefOf(d)[3]
           || (|RefOf(c)| > 4 && |RefOf(d)| > 4 && RefOf(c)[4] != RefOf(d)[4]);
  }

  lemma ReferencedHasBody(s: string)
    ensures Referenced(s).Some? ==> s != "" && s[0] == '&' && BodyAhead(s[1..])
  {
    if Referenced(s).Some? {
      var c := Referenced(s).value;
      assert c in REFERABLE && RefOf(c) <= s;
      assert RefOf(c)[1..] <= s[1..];
    }
  }

  lemma NoRefAheadInTail(ts: seq<Token>)
    requires NoRefAhead(ts) && ts != []
    ensures NoRefAhead(ts[1..]) && (ts[0] == Token('&', Plain) ==> !BodyAhead(Raw(ts[1..])))
  {
    var rest := ts[1..];
    assert Raw(ts)[1..] == Raw(rest);
    forall k | 0 <= k < |rest| && rest[k] == Token('&', Plain) ensures !BodyAhead(Raw(rest)[k + 1..]) {
      assert ts[k + 1] == rest[k] && Raw(ts)[k + 2..] == Raw(rest)[k + 1..];
    }
  }

  lemma ShownBodyAheadIsRaw(ts: seq<Token>)
    requires AllLegal(ts)
    ensures BodyAhead(Render(ts)) ==> BodyAhead(Raw(ts))
  {
    forall c | c in REFERABLE && RefOf(c)[1..] <= Render(ts) ensures RefOf(c)[1..] <= Raw(ts) {
      BodyShape(c);
      ShownBodyIsRaw(ts, RefOf(c)[1..]);
    }
  }

  lemma {:induction false} DecodeRender(ts: seq<Token>)
    requires AllLegal(ts) && NoRefAhead(ts) && Token('\\', Plain) !in ts
    ensures Decode(Render(ts)) == Read(ts)
  {
    if ts != [] {
      var t, rest := ts[0], ts[1..];
      assert t in ts;
      NoRefAheadInTail(ts);
      RenderFront(ts);
      DecodeRender(rest);
      assert Read(ts) == [if t.form == Lowered then 'w' else t.c] + Read(rest);
      DecodeToken(t, rest);
    }
  }

  lemma DecodeToken(t: Token, rest: seq<Token>)
    requires Legal(t) && AllLegal(rest) && t != Token('\\', Plain)
    requires t == Token('&', Plain) ==> !BodyAhead(Raw(rest))
    ensures Decode(Show(t) + Render(rest)) == [if t.form == Lowered then 'w' else t.c] + Decode(Render(rest))
  {
    var s := Show(t) + Render(rest);
    match t.form
    case Escaped =>
      assert s[2..] == Render(rest);
    case Ref =>
      RefShape(t.c);
      RefIsReferenced(t.c, Render(rest));
      assert s[0] == '&';
      assert s[|RefOf(t.c)|..] == Render(rest);
    case _ =>
      assert s[1..] == Render(rest);
      ReferencedHasBody(s);
      ShownBodyAheadIsRaw(rest);
  }
}
