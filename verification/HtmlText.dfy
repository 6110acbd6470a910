// app/services/article_render.py: escaped text, the tags put around it, and what is left when tags are removed.
module HtmlText {
  function Replace(c: char, with: string, s: string): string {
    if s == "" then "" else (if s[0] == c then with else [s[0]]) + Replace(c, with, s[1..])
  }

  /** `html.escape(text, quote=True)`: five replacements, the ampersand first. */
  function EscapeHtml(s: string): string {
    Replace('\'', "&#x27;", Replace('"', "&quot;",
                                    Replace('>', "&gt;", Replace('<', "&lt;", Replace('&', "&amp;", s)))))
  }

  lemma {:induction false} ReplaceJoin(c: char, with: string, a: string, b: string)
    ensures Replace(c, with, a + b) == Replace(c, with, a) + Replace(c, with, b)
  {
    if a == "" {
      assert a + b == b;
    } else {
      assert (a + b)[0] == a[0] && (a + b)[1..] == a[1..] + b;
      ReplaceJoin(c, with, a[1..], b);
    }
  }

  lemma {:induction false} Untouched(c: char, with: string, s: string)
    requires c !in s
    ensures Replace(c, with, s) == s
  {
    if s != "" {
      Untouched(c, with, s[1..]);
    }
  }

  lemma EscapeJoin(a: string, b: string)
    ensures EscapeHtml(a + b) == EscapeHtml(a) + EscapeHtml(b)
  {
    ReplaceJoin('&', "&amp;", a, b);
    var a1, b1 := Replace('&', "&amp;", a), Replace('&', "&amp;", b);
    ReplaceJoin('<', "&lt;", a1, b1);
    var a2, b2 := Replace('<', "&lt;", a1), Replace('<', "&lt;", b1);
    ReplaceJoin('>', "&gt;", a2, b2);
    var a3, b3 := Replace('>', "&gt;", a2), Replace('>', "&gt;", b2);
    ReplaceJoin('"', "&quot;", a3, b3);
    ReplaceJoin('\'', "&#x27;", Replace('"', "&quot;", a3), Replace('"', "&quot;", b3));
  }

  lemma {:induction false} ReplaceRemoves(c: char, with: string, s: string, d: char)
    requires d != c ==> d !in s
    requires d !in with
    ensures d !in Replace(c, with, s)
  {
    if s != "" {
      ReplaceRemoves(c, with, s[1..], d);
    }
  }

  /** Escaped text has nothing a browser could take for a tag or the end of an attribute. */
  lemma EscapedIsInert(s: string)
    ensures '<' !in EscapeHtml(s) && '>' !in EscapeHtml(s) && '"' !in EscapeHtml(s) && '\'' !in EscapeHtml(s)
  {
    var s1 := Replace('&', "&amp;", s);
    var s2 := Replace('<', "&lt;", s1);
    var s3 := Replace('>', "&gt;", s2);
    var s4 := Replace('"', "&quot;", s3);
    ReplaceRemoves('<', "&lt;", s1, '<');
    ReplaceRemoves('>', "&gt;", s2, '<');
    ReplaceRemoves('"', "&quot;", s3, '<');
    ReplaceRemoves('\'', "&#x27;", s4, '<');
    ReplaceRemoves('>', "&gt;", s2, '>');
    ReplaceRemoves('"', "&quot;", s3, '>');
    ReplaceRemoves('\'', "&#x27;", s4, '>');
    ReplaceRemoves('"', "&quot;", s3, '"');
    ReplaceRemoves('\'', "&#x27;", s4, '"');
    ReplaceRemoves('\'', "&#x27;", s4, '\'');
  }

  // ---------- tags ----------

  /** The text with everything from a `<` to the next `>` removed. */
  function StripTags(s: string, inside: bool): string {
    if s == "" then ""
    else if inside then StripTags(s[1..], s[0] != '>')
    else if s[0] == '<' then StripTags(s[1..], true)
    else [s[0]] + StripTags(s[1..], false)
  }

  lemma {:induction false} StripText(a: string, b: string)
    requires '<' !in a
    ensures StripTags(a + b, false) == a + StripTags(b, false)
  {
    if a == "" {
      assert a + b == b;
    } else {
      assert (a + b)[0] == a[0] && (a + b)[1..] == a[1..] + b;
      StripText(a[1..], b);
    }
  }

  lemma {:induction false} StripInside(a: string, b: string)
    requires '>' !in a
    ensures StripTags(a + ">" + b, true) == StripTags(b, false)
  {
    var s := a + ">" + b;
    if a == "" {
      assert s[0] == '>' && s[1..] == b;
    } else {
      assert s[0] == a[0] && s[1..] == a[1..] + ">" + b;
      StripInside(a[1..], b);
    }
  }

  lemma StripTag(a: string, b: string)
    requires '>' !in a
    ensures StripTags("<" + a + ">" + b, false) == StripTags(b, false)
  {
    var s := "<" + a + ">" + b;
    assert s[0] == '<' && s[1..] == a + ">" + b;
    StripInside(a, b);
  }

  function Opening(url: string, external: bool): string {
    "a href=\"" + EscapeHtml(url) + "\"" + (if external then " rel=\"noopener\"" else "")
  }

  /** A link: its tag, the escaped text, and the closing tag. */
  function Anchor(url: string, external: bool, text: string): string {
    "<" + Opening(url, external) + ">" + EscapeHtml(text) + "</a>"
  }

  /** Removing the tags from a link leaves its escaped text. */
  lemma StripAnchor(url: string, external: bool, text: string, rest: string)
    ensures StripTags(Anchor(url, external, text) + rest, false) == EscapeHtml(text) + StripTags(rest, false)
  {
    EscapedIsInert(url);
    EscapedIsInert(text);
    var open, inner := Opening(url, external), EscapeHtml(text) + "</a>" + rest;
    assert '>' !in open;
    assert Anchor(url, external, text) + rest == "<" + open + ">" + inner;
    StripTag(open, inner);
    assert inner == EscapeHtml(text) + ("<" + "/a" + ">" + rest);
    StripText(EscapeHtml(text), "<" + "/a" + ">" + rest);
    StripTag("/a", rest);
  }
}
