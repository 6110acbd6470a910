// A string beside the prose it stands for, with a record of which characters are shown as they are: `www.` matches in
// one exactly where it matches in the other, although references and backslashes have been put in between.
module MdxLayout {
  import opened MdxEscape

  /** Where each character of the prose is shown, and whether as itself. */
  datatype Layout = Layout(s: string, raw: string, plain: seq<bool>, at: seq<nat>)

  predicate IsW(cls: Classes, c: char) {
    cls.fold(c) == 'w'
  }

  ghost predicate AlignedAt(l: Layout, k: nat)
    requires k < |l.raw| == |l.plain| && |l.at| == |l.raw| + 1
  {
    && l.at[k] < l.at[k + 1] <= |l.s|
    && (l.plain[k] ==> l.at[k + 1] == l.at[k] + 1 && l.s[l.at[k]] == l.raw[k])
  }

  ghost predicate Aligned(l: Layout) {
    && |l.plain| == |l.raw| && |l.at| == |l.raw| + 1 && l.at[0] == 0 && l.at[|l.raw|] == |l.s|
    && (forall k | 0 <= k < |l.raw| :: AlignedAt(l, k))
  }

  /** What is not shown as itself has no `w` in it, begins with no full stop, and keeps the word boundaries of a `w`. */
  ghost predicate KeepsWAt(cls: Classes, l: Layout, k: nat)
    requires k < |l.raw| && Aligned(l) && AlignedAt(l, k)
  {
    var first, last := l.s[l.at[k]], l.s[l.at[k + 1] - 1];
    && (!l.plain[k] ==> !IsW(cls, l.raw[k]) && !IsW(cls, first) && !IsW(cls, last) && first != '.')
    && (!l.plain[k] && l.raw[k] == '.' ==> k == 0 || !IsW(cls, l.raw[k - 1]))
    && (cls.word(last) == cls.word(l.raw[k]) || (k + 1 < |l.raw| && !IsW(cls, l.raw[k + 1])))
  }

  ghost predicate KeepsW(cls: Classes, l: Layout) {
    Aligned(l) && forall k | 0 <= k < |l.raw| :: KeepsWAt(cls, l, k)
  }

  lemma FoldsToWww(cls: Classes, s: string, i: nat)
    ensures FoldsTo(cls, s, i, "www") <==> i + 3 <= |s| && IsW(cls, s[i]) && IsW(cls, s[i + 1]) && IsW(cls, s[i + 2])
  {
    if FoldsTo(cls, s, i, "www") {
      assert cls.fold(s[i + 0]) == "www"[0] && cls.fold(s[i + 1]) == "www"[1] && cls.fold(s[i + 2]) == "www"[2];
    }
  }

  /** A `w`, shown or raw, is shown as itself. */
  lemma WIsPlain(cls: Classes, l: Layout, k: nat)
    requires KeepsW(cls, l) && k <= |l.raw| && l.at[k] <= |l.s|
    requires (k < |l.raw| && IsW(cls, l.raw[k])) || (l.at[k] < |l.s| && IsW(cls, l.s[l.at[k]]))
    ensures k < |l.raw| && l.plain[k] && l.at[k + 1] == l.at[k] + 1 <= |l.s| && l.s[l.at[k]] == l.raw[k]
  {
    assert k < |l.raw| ==> AlignedAt(l, k) && KeepsWAt(cls, l, k);
  }

  /** So is a `w` just before a place. */
  lemma WBeforeIsPlain(cls: Classes, l: Layout, k: nat)
    requires KeepsW(cls, l) && k <= |l.raw| && 0 < l.at[k] <= |l.s| && IsW(cls, l.s[l.at[k] - 1])
    ensures k > 0 && l.at[k - 1] == l.at[k] - 1
  {
    assert k > 0 ==> AlignedAt(l, k - 1) && KeepsWAt(cls, l, k - 1);
  }

  /** Word boundaries before a `w` are where they are in the prose. */
  lemma SameBoundary(cls: Classes, l: Layout, k: nat)
    requires KeepsW(cls, l) && k < |l.raw| && IsW(cls, l.raw[k])
    ensures Boundary(cls, l.s, l.at[k]) == Boundary(cls, l.raw, k)
  {
    assert AlignedAt(l, k) && KeepsWAt(cls, l, k);
    if k > 0 {
      assert AlignedAt(l, k - 1) && KeepsWAt(cls, l, k - 1);
    }
  }

  /** A full stop after a `w`, shown or raw. */
  lemma SameStop(cls: Classes, l: Layout, k: nat)
    requires KeepsW(cls, l) && 0 < k <= |l.raw| && IsW(cls, l.raw[k - 1]) && l.at[k] <= |l.s|
    ensures (l.at[k] < |l.s| && l.s[l.at[k]] == '.') <==> (k < |l.raw| && l.raw[k] == '.')
  {
    assert k < |l.raw| ==> AlignedAt(l, k) && KeepsWAt(cls, l, k);
  }

  /** The pattern matches where a character is shown exactly when it matches at that character of the prose. */
  lemma SameWww(cls: Classes, l: Layout, k: nat)
    requires KeepsW(cls, l) && k < |l.raw|
    ensures WwwAt(cls, l.s, l.at[k]) <==> WwwAt(cls, l.raw, k)
    ensures WwwAt(cls, l.raw, k) ==> l.at[k + 1] == l.at[k] + 1 && l.at[k + 2] == l.at[k] + 2
  {
    FoldsToWww(cls, l.s, l.at[k]);
    FoldsToWww(cls, l.raw, k);
    assert AlignedAt(l, k);
    if FoldsTo(cls, l.s, l.at[k], "www") || FoldsTo(cls, l.raw, k, "www") {
      WIsPlain(cls, l, k);
      WIsPlain(cls, l, k + 1);
      WIsPlain(cls, l, k + 2);
      SameBoundary(cls, l, k);
      SameStop(cls, l, k + 3);
    }
  }

  /** A letter of the string's `www.` is a letter of the prose's. */
  lemma SameWwwLetter(cls: Classes, l: Layout, k: nat)
    requires KeepsW(cls, l) && k < |l.raw|
    ensures WwwLetterAt(cls, l.s, l.at[k]) <==> WwwLetterAt(cls, l.raw, k)
  {
    var i := l.at[k];
    assert AlignedAt(l, k);
    SameWww(cls, l, k);
    if k >= 1 {
      SameWww(cls, l, k - 1);
    }
    if k >= 2 {
      SameWww(cls, l, k - 2);
    }
    if i >= 1 && WwwAt(cls, l.s, i - 1) {
      FoldsToWww(cls, l.s, i - 1);
      WBeforeIsPlain(cls, l, k);
    }
    if i >= 2 && WwwAt(cls, l.s, i - 2) {
      FoldsToWww(cls, l.s, i - 2);
      WBeforeIsPlain(cls, l, k);
      WBeforeIsPlain(cls, l, k - 1);
    }
    if k >= 1 && WwwAt(cls, l.raw, k - 1) {
      assert i >= 1 && WwwAt(cls, l.s, i - 1);
    }
    if k >= 2 && WwwAt(cls, l.raw, k - 2) {
      assert i >= 2 && WwwAt(cls, l.s, i - 2);
    }
  }
}
