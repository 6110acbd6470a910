// A string cut into consecutive pieces, as a substitution over a whole string leaves it: where each piece begins, what
// stands at a position, and how the pieces before and after it join up to the string.
module Pieces {
  function Join(ps: seq<string>): string {
    if ps == [] then "" else ps[0] + Join(ps[1..])
  }

  /** Where piece `k` begins. */
  function At(ps: seq<string>, k: nat): nat
    requires k <= |ps|
  {
    |Join(ps[..k])|
  }

  lemma {:induction false} JoinConcat(a: seq<string>, b: seq<string>)
    ensures Join(a + b) == Join(a) + Join(b)
  {
    if a == [] {
      assert a + b == b;
    } else {
      JoinConcat(a[1..], b);
      assert (a + b)[1..] == a[1..] + b;
      assert a[0] + (Join(a[1..]) + Join(b)) == (a[0] + Join(a[1..])) + Join(b);
    }
  }

  lemma JoinSplit(ps: seq<string>, k: nat)
    requires k <= |ps|
    ensures Join(ps) == Join(ps[..k]) + Join(ps[k..])
  {
    JoinConcat(ps[..k], ps[k..]);
    assert ps[..k] + ps[k..] == ps;
  }

  lemma JoinFront(ps: seq<string>, k: nat)
    requires k < |ps|
    ensures Join(ps[k..]) == ps[k] + Join(ps[k + 1..])
    ensures Join(ps[..k + 1]) == Join(ps[..k]) + ps[k]
  {
    assert ps[k..][1..] == ps[k + 1..];
    JoinConcat(ps[..k], [ps[k]]);
    assert ps[..k] + [ps[k]] == ps[..k + 1];
    assert [ps[k]][1..] == [] && Join([ps[k]]) == ps[k];
  }

  lemma PieceAt(ps: seq<string>, k: nat)
    requires k < |ps|
    ensures At(ps, k + 1) == At(ps, k) + |ps[k]| <= |Join(ps)|
    ensures Join(ps)[At(ps, k)..] == Join(ps[k..])
    ensures Join(ps)[At(ps, k)..At(ps, k + 1)] == ps[k]
    ensures Join(ps[k..]) == ps[k] + Join(ps[k + 1..])
  {
    JoinSplit(ps, k);
    JoinFront(ps, k);
    assert Join(ps) == Join(ps[..k]) + (ps[k] + Join(ps[k + 1..]));
  }

  lemma CharIn(ps: seq<string>, k: nat, i: nat)
    requires k < |ps| && At(ps, k) <= i < At(ps, k + 1)
    ensures i < |Join(ps)| && i - At(ps, k) < |ps[k]|
    ensures Join(ps)[i] == ps[k][i - At(ps, k)]
  {
    PieceAt(ps, k);
    var s, a, b := Join(ps), At(ps, k), At(ps, k + 1);
    assert s[a..b][i - a] == s[i];
  }

  lemma EndsAt(ps: seq<string>)
    ensures At(ps, 0) == 0 && At(ps, |ps|) == |Join(ps)|
  {
    assert ps[..|ps|] == ps;
  }

  /** Pieces that are the characters themselves. */
  lemma {:induction false} OwnCharacters(ps: seq<string>, s: string, i: nat, e: nat)
    requires i <= e <= |ps| == |s| && forall j | i <= j < e :: ps[j] == [s[j]]
    ensures Join(ps[i..]) == s[i..e] + Join(ps[e..])
    decreases e - i
  {
    if i < e {
      OwnCharacters(ps, s, i + 1, e);
      assert ps[i..][1..] == ps[i + 1..];
      assert s[i..e] == [s[i]] + s[i + 1..e];
    } else {
      assert s[i..e] == [];
    }
  }
}
