// Slugs for articles.
module Slugs {
  // app/services/article_content.py: slugs for articles.

  import opened Wrappers
  import opened Numerals

  const MAX_SLUG_LENGTH := 80

  predicate IsAlnum(c: char) {
    'a' <= c <= 'z' || '0' <= c <= '9'
  }

  function Lower(s: string): string {
    seq(|s|, i requires 0 <= i < |s| => if 'A' <= s[i] <= 'Z' then (s[i] as int + 32) as char else s[i])
  }

  /** Every run of other characters becomes one hyphen; `gap` says that one has just been written. */
  function Hyphenate(s: string, gap: bool): string {
    if s == "" then ""
    else if IsAlnum(s[0]) then [s[0]] + Hyphenate(s[1..], false)
    else (if gap then "" else "-") + Hyphenate(s[1..], true)
  }

  function StripLeft(s: string): string {
    if s != "" && s[0] == '-' then StripLeft(s[1..]) else s
  }

  function StripRight(s: string): string {
    if s != "" && s[|s| - 1] == '-' then StripRight(s[..|s| - 1]) else s
  }

  function LastHyphen(s: string): Option<nat> {
    if s == "" then None else if s[|s| - 1] == '-' then Some(|s| - 1) else LastHyphen(s[..|s| - 1])
  }

  /** `rsplit("-", 1)[0]` */
  function BeforeLastHyphen(s: string): string {
    match LastHyphen(s)
    case None => s
    case Some(k) => if k <= |s| then s[..k] else s
  }

  function Clip(slug: string): string {
    if |slug| > MAX_SLUG_LENGTH then
      var cut := BeforeLastHyphen(slug[..MAX_SLUG_LENGTH]);
      if cut != "" then cut else slug[..MAX_SLUG_LENGTH]
    else slug
  }

  /** `slugify`; `ascii` decomposes accents and drops what is not ASCII. */
  function Slugify(ascii: string -> string, title: string): string {
    var slug := Clip(StripRight(StripLeft(Hyphenate(Lower(ascii(title)), false))));
    if slug != "" then slug else "article"
  }

  /** Text that is ASCII already is left alone. */
  ghost predicate KeepsAscii(ascii: string -> string) {
    forall s: string :: (forall c | c in s :: c < 128 as char) ==> ascii(s) == s
  }

  // ---------- what a slug is ----------

  ghost predicate NoDouble(s: string, i: nat)
    requires i + 1 < |s|
  {
    s[i] != '-' || s[i + 1] != '-'
  }

  /** Only letters, digits and single hyphens. */
  ghost predicate Dashed(s: string) {
    && (forall c | c in s :: IsAlnum(c) || c == '-')
    && (forall i: nat | i + 1 < |s| :: NoDouble(s, i))
  }

  /** Non-empty runs of letters and digits joined by hyphens. */
  ghost predicate IsSlug(s: string) {
    s != "" && Dashed(s) && s[0] != '-' && s[|s| - 1] != '-'
  }

  lemma {:induction false} HyphenateIsDashed(s: string, gap: bool)
    ensures Dashed(Hyphenate(s, gap)) && (gap && Hyphenate(s, gap) != "" ==> Hyphenate(s, gap)[0] != '-')
  {
    if s != "" {
      if IsAlnum(s[0]) {
        HyphenateIsDashed(s[1..], false);
        Prepend(s[0], Hyphenate(s[1..], false));
      } else {
        HyphenateIsDashed(s[1..], true);
        if gap {
          assert "" + Hyphenate(s[1..], true) == Hyphenate(s[1..], true);
        } else {
          Prepend('-', Hyphenate(s[1..], true));
        }
      }
    }
  }

  lemma Prepend(c: char, s: string)
    requires Dashed(s) && (IsAlnum(c) || (c == '-' && (s != "" ==> s[0] != '-')))
    ensures Dashed([c] + s)
  {
    var t := [c] + s;
    forall i: nat | i + 1 < |t| ensures NoDouble(t, i) {
      assert i > 0 ==> NoDouble(s, i - 1);
    }
  }

  lemma SliceIsDashed(s: string, i: nat, j: nat)
    requires Dashed(s) && i <= j <= |s|
    ensures Dashed(s[i..j])
  {
    var t := s[i..j];
    forall k: nat | k + 1 < |t| ensures NoDouble(t, k) {
      assert NoDouble(s, i + k);
    }
  }

  lemma {:induction false} StripLeftIs(s: string)
    requires Dashed(s)
    ensures Dashed(StripLeft(s)) && (StripLeft(s) != "" ==> StripLeft(s)[0] != '-')
  {
    if s != "" && s[0] == '-' {
      SliceIsDashed(s, 1, |s|);
      assert s[1..|s|] == s[1..];
      StripLeftIs(s[1..]);
    }
  }

  lemma {:induction false} StripRightIs(s: string)
    requires Dashed(s) && (s != "" ==> s[0] != '-')
    ensures var r := StripRight(s); r == "" || IsSlug(r)
  {
    if s != "" && s[|s| - 1] == '-' {
      SliceIsDashed(s, 0, |s| - 1);
      StripRightIs(s[..|s| - 1]);
    }
  }

  lemma {:induction false} LastHyphenIs(s: string)
    ensures var r := LastHyphen(s);
            if r.Some? then r.value < |s| && s[r.value] == '-' else '-' !in s
  {
    if s != "" && s[|s| - 1] != '-' {
      LastHyphenIs(s[..|s| - 1]);
      assert s == s[..|s| - 1] + [s[|s| - 1]];
    }
  }

  lemma ClipIsSlug(s: string)
    requires IsSlug(s)
    ensures IsSlug(Clip(s)) && |Clip(s)| <= MAX_SLUG_LENGTH
  {
    if |s| > MAX_SLUG_LENGTH {
      var cut := s[..MAX_SLUG_LENGTH];
      LastHyphenIs(cut);
      SliceIsDashed(s, 0, MAX_SLUG_LENGTH);
      match LastHyphen(cut) {
        case None =>
        case Some(k) =>
          assert cut[0] == s[0];
          SliceIsDashed(s, 0, k);
          assert cut[..k] == s[0..k];
          assert NoDouble(s, k - 1);
      }
    }
  }

  /** For every title: a slug of at most eighty characters. */
  lemma SlugifyGivesASlug(ascii: string -> string, title: string)
    ensures IsSlug(Slugify(ascii, title)) && |Slugify(ascii, title)| <= MAX_SLUG_LENGTH
  {
    var dashed := Hyphenate(Lower(ascii(title)), false);
    HyphenateIsDashed(Lower(ascii(title)), false);
    StripLeftIs(dashed);
    StripRightIs(StripLeft(dashed));
    var slug := StripRight(StripLeft(dashed));
    if slug != "" {
      ClipIsSlug(slug);
    } else {
      assert IsSlug("article") by {
        forall i: nat | i + 1 < |"article"| ensures NoDouble("article", i) {
          assert "article"[i] in "article";
        }
      }
    }
  }

  lemma {:induction false} HyphenateKeeps(s: string, gap: bool)
    requires Dashed(s) && (gap && s != "" ==> s[0] != '-')
    ensures Hyphenate(s, gap) == s
  {
    if s != "" {
      SliceIsDashed(s, 1, |s|);
      assert s[1..|s|] == s[1..];
      assert s[0] in s;
      assert |s| > 1 ==> NoDouble(s, 0);
      HyphenateKeeps(s[1..], s[0] == '-');
      assert s == [s[0]] + s[1..];
    }
  }

  /** A slug of at most eighty characters is its own slug, */
  lemma SlugIsFixed(ascii: string -> string, s: string)
    requires KeepsAscii(ascii) && IsSlug(s) && |s| <= MAX_SLUG_LENGTH
    ensures Slugify(ascii, s) == s
  {
    assert ascii(s) == s by {
      forall c | c in s ensures c < 128 as char {
        assert IsAlnum(c) || c == '-';
      }
    }
    assert Lower(s) == s by {
      forall i | 0 <= i < |s| ensures Lower(s)[i] == s[i] {
        assert s[i] in s;
      }
    }
    HyphenateKeeps(s, false);
  }

  /** so making a slug of a slug changes nothing. */
  lemma SlugifyIsIdempotent(ascii: string -> string, title: string)
    requires KeepsAscii(ascii)
    ensures Slugify(ascii, Slugify(ascii, title)) == Slugify(ascii, title)
  {
    SlugifyGivesASlug(ascii, title);
    SlugIsFixed(ascii, Slugify(ascii, title));
  }

  /** Two slugs that both fit are confused only if they are the same. */
  lemma SlugifyCoversEverySlug(ascii: string -> string, s: string)
    requires KeepsAscii(ascii)
    ensures (exists title: string :: Slugify(ascii, title) == s) <==> IsSlug(s) && |s| <= MAX_SLUG_LENGTH
  {
    if exists title: string :: Slugify(ascii, title) == s {
      var title: string :| Slugify(ascii, title) == s;
      SlugifyGivesASlug(ascii, title);
    }
    if IsSlug(s) && |s| <= MAX_SLUG_LENGTH {
      SlugIsFixed(ascii, s);
    }
  }

  // ---------- unique_slug ----------

  /** The n-th name tried: the slug itself, then with -2, -3 and so on. */
  function Candidate(base: string, n: nat): string {
    if n <= 1 then base else base + "-" + Decimal(n)
  }

  lemma CandidatesDiffer(base: string, m: nat, n: nat)
    requires 1 <= m && 1 <= n && Candidate(base, m) == Candidate(base, n)
    ensures m == n
  {
    var a, b := Candidate(base, m), Candidate(base, n);
    if m > 1 && n > 1 {
      assert a[|base| + 1..] == Decimal(m) && b[|base| + 1..] == Decimal(n);
      DecimalIsInjective(m, n);
    }
  }

  /** The names tried before the n-th. */
  ghost function Tried(base: string, n: nat): set<string> {
    set k: nat | 1 <= k < n :: Candidate(base, k)
  }

  lemma {:induction false} TriedAreMany(base: string, n: nat)
    requires n >= 1
    ensures |Tried(base, n)| == n - 1
  {
    if n == 1 {
      assert Tried(base, n) == {};
    } else {
      TriedAreMany(base, n - 1);
      assert Tried(base, n) == Tried(base, n - 1) + {Candidate(base, n - 1)};
      assert Candidate(base, n - 1) !in Tried(base, n - 1) by {
        forall k: nat | 1 <= k < n - 1 ensures Candidate(base, k) != Candidate(base, n - 1) {
          if Candidate(base, k) == Candidate(base, n - 1) {
            CandidatesDiffer(base, k, n - 1);
          }
        }
      }
    }
  }

  lemma {:induction false} SubsetIsSmaller(a: set<string>, b: set<string>)
    requires a <= b
    ensures |a| <= |b|
    decreases a
  {
    if a != {} {
      var x :| x in a;
      SubsetIsSmaller(a - {x}, b - {x});
    }
  }

  /** If all the names tried so far are taken, there are no more of them than taken names. */
  lemma Pigeonhole(base: string, taken: set<string>, n: nat)
    requires n >= 1 && Tried(base, n) <= taken
    ensures n <= |taken| + 1
  {
    TriedAreMany(base, n);
    SubsetIsSmaller(Tried(base, n), taken);
  }

  /** The first name that is free. It ends whatever is taken, with a number of at most one more than there are names. */
  method UniqueSlug(base: string, taken: set<string>) returns (slug: string, ghost n: nat)
    ensures slug == Candidate(base, n) && slug !in taken && 1 <= n <= |taken| + 1
    ensures forall k: nat | 1 <= k < n :: Candidate(base, k) in taken
  {
    n := 1;
    if base !in taken {
      return base, 1;
    }
    var i := 2;
    while base + "-" + Decimal(i) in taken
      invariant i >= 2 && forall k: nat | 1 <= k < i :: Candidate(base, k) in taken
      decreases |taken| + 1 - i
    {
      assert Candidate(base, i) in taken;
      i := i + 1;
      Pigeonhole(base, taken, i);
    }
    Pigeonhole(base, taken, i);
    n := i;
    slug := base + "-" + Decimal(i);
  }

  /** A numbered slug is a slug still; only its length may pass the limit. */
  lemma CandidateIsSlug(base: string, n: nat)
    requires IsSlug(base)
    ensures IsSlug(Candidate(base, n))
  {
    if n > 1 {
      DecimalIsDigits(n);
      var d, s := Decimal(n), Candidate(base, n);
      forall i: nat | i + 1 < |s| ensures NoDouble(s, i) {
        if i + 1 < |base| {
          assert NoDouble(base, i);
        } else if i >= |base| {
          assert s[i + 1] == d[i - |base|] && d[i - |base|] in d;
        }
      }
      assert s[|s| - 1] == d[|d| - 1] && d[|d| - 1] in d;
      forall c | c in s ensures IsAlnum(c) || c == '-' {
        assert c in base || c == '-' || c in d;
      }
    }
  }
}
