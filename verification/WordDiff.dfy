// The word diff, and minor edits.
module WordDiff {
  // app/services/change_detection.py: the words (or lines) two versions of a page share, and when an edit is minor.
  // The alignment is that of difflib.SequenceMatcher without junk: the longest common run, then both sides of it.

  import opened Wrappers

  type Words = seq<string>

  /** A run of `size` equal elements, at `i` in the old sequence and `j` in the new one. */
  datatype Block = Block(i: nat, j: nat, size: nat)

  datatype Tag = Equal | Replace | Delete | Insert

  datatype Opcode = Opcode(tag: Tag, i1: nat, i2: nat, j1: nat, j2: nat)

  // ---------- the longest common run ----------

  /** How far the two sequences agree from `i` and `j` on, below the two limits. */
  function Common(a: Words, b: Words, i: nat, j: nat, ahi: nat, bhi: nat): (n: nat)
    requires i <= ahi <= |a| && j <= bhi <= |b|
    ensures i + n <= ahi && j + n <= bhi
    decreases ahi - i
  {
    if i < ahi && j < bhi && a[i] == b[j] then Common(a, b, i + 1, j + 1, ahi, bhi) + 1 else 0
  }

  /** The block is in range and its elements are the same on both sides. */
  predicate SameRun(a: Words, b: Words, m: Block) {
    m.i + m.size <= |a| && m.j + m.size <= |b| && a[m.i..m.i + m.size] == b[m.j..m.j + m.size]
  }

  lemma {:induction false} CommonAgrees(a: Words, b: Words, i: nat, j: nat, ahi: nat, bhi: nat)
    requires i <= ahi <= |a| && j <= bhi <= |b|
    ensures SameRun(a, b, Block(i, j, Common(a, b, i, j, ahi, bhi)))
    decreases ahi - i
  {
    var n := Common(a, b, i, j, ahi, bhi);
    if n > 0 {
      CommonAgrees(a, b, i + 1, j + 1, ahi, bhi);
      assert a[i..i + n] == [a[i]] + a[i + 1..i + 1 + (n - 1)] && b[j..j + n] == [b[j]] + b[j + 1..j + 1 + (n - 1)];
    }
  }

  /** The best run seen so far, after trying every start from `(i, j)` on, row by row: only a longer one replaces it. */
  function Best(a: Words, b: Words, ahi: nat, blo: nat, bhi: nat, i: nat, j: nat, best: Block): (r: Block)
    requires i <= ahi <= |a| && blo <= j <= bhi <= |b|
    ensures r == best || (i <= r.i && r.i + r.size <= ahi && blo <= r.j && r.j + r.size <= bhi)
    decreases ahi - i, bhi - j
  {
    if i == ahi then best
    else if j == bhi then Best(a, b, ahi, blo, bhi, i + 1, blo, best)
    else
      var n := Common(a, b, i, j, ahi, bhi);
      Best(a, b, ahi, blo, bhi, i, j + 1, if n > best.size then Block(i, j, n) else best)
  }

  function Longest(a: Words, b: Words, alo: nat, ahi: nat, blo: nat, bhi: nat): (r: Block)
    requires alo <= ahi <= |a| && blo <= bhi <= |b|
    ensures alo <= r.i && r.i + r.size <= ahi && blo <= r.j && r.j + r.size <= bhi
  {
    Best(a, b, ahi, blo, bhi, alo, blo, Block(alo, blo, 0))
  }

  /** Start `(x, y)` comes at or after `(i, j)` in the row-by-row order. */
  predicate Ahead(i: nat, j: nat, blo: nat, x: nat, y: nat) {
    (x == i && j <= y) || (i < x && blo <= y)
  }

  lemma {:induction false} BestCovers(a: Words, b: Words, ahi: nat, blo: nat, bhi: nat, i: nat, j: nat, best: Block,
                                      x: nat, y: nat)
    requires i <= ahi <= |a| && blo <= j <= bhi <= |b|
    requires x < ahi && y < bhi && Ahead(i, j, blo, x, y)
    ensures Common(a, b, x, y, ahi, bhi) <= Best(a, b, ahi, blo, bhi, i, j, best).size
    decreases ahi - i, bhi - j
  {
    if j == bhi {
      BestCovers(a, b, ahi, blo, bhi, i + 1, blo, best, x, y);
    } else {
      var n := Common(a, b, i, j, ahi, bhi);
      var next := if n > best.size then Block(i, j, n) else best;
      if x == i && y == j {
        BestGrows(a, b, ahi, blo, bhi, i, j + 1, next);
      } else {
        BestCovers(a, b, ahi, blo, bhi, i, j + 1, next, x, y);
      }
    }
  }

  lemma {:induction false} BestGrows(a: Words, b: Words, ahi: nat, blo: nat, bhi: nat, i: nat, j: nat, best: Block)
    requires i <= ahi <= |a| && blo <= j <= bhi <= |b|
    ensures best.size <= Best(a, b, ahi, blo, bhi, i, j, best).size
    decreases ahi - i, bhi - j
  {
    if i < ahi {
      if j == bhi {
        BestGrows(a, b, ahi, blo, bhi, i + 1, blo, best);
      } else {
        var n := Common(a, b, i, j, ahi, bhi);
        BestGrows(a, b, ahi, blo, bhi, i, j + 1, if n > best.size then Block(i, j, n) else best);
      }
    }
  }

  lemma {:induction false} BestAgrees(a: Words, b: Words, ahi: nat, blo: nat, bhi: nat, i: nat, j: nat, best: Block)
    requires i <= ahi <= |a| && blo <= j <= bhi <= |b|
    requires SameRun(a, b, best)
    ensures SameRun(a, b, Best(a, b, ahi, blo, bhi, i, j, best))
    decreases ahi - i, bhi - j
  {
    if i < ahi {
      if j == bhi {
        BestAgrees(a, b, ahi, blo, bhi, i + 1, blo, best);
      } else {
        var n := Common(a, b, i, j, ahi, bhi);
        CommonAgrees(a, b, i, j, ahi, bhi);
        BestAgrees(a, b, ahi, blo, bhi, i, j + 1, if n > best.size then Block(i, j, n) else best);
      }
    }
  }

  /** The run is a run of equal elements, and no other common run of the window is longer. */
  lemma LongestIsLongest(a: Words, b: Words, alo: nat, ahi: nat, blo: nat, bhi: nat, x: nat, y: nat, n: nat)
    requires alo <= x && x + n <= ahi <= |a| && blo <= y && y + n <= bhi <= |b|
    requires a[x..x + n] == b[y..y + n]
    ensures n <= Longest(a, b, alo, ahi, blo, bhi).size
  {
    if n > 0 {
      CommonAtLeast(a, b, x, y, ahi, bhi, n);
      BestCovers(a, b, ahi, blo, bhi, alo, blo, Block(alo, blo, 0), x, y);
    }
  }

  lemma {:induction false} CommonAtLeast(a: Words, b: Words, x: nat, y: nat, ahi: nat, bhi: nat, n: nat)
    requires x + n <= ahi <= |a| && y + n <= bhi <= |b| && a[x..x + n] == b[y..y + n]
    ensures n <= Common(a, b, x, y, ahi, bhi)
    decreases n
  {
    if n > 0 {
      assert a[x] == a[x..x + n][0] == b[y..y + n][0] == b[y];
      assert a[x + 1..x + 1 + (n - 1)] == a[x..x + n][1..] == b[y..y + n][1..] == b[y + 1..y + 1 + (n - 1)];
      CommonAtLeast(a, b, x + 1, y + 1, ahi, bhi, n - 1);
    }
  }

  /** The matching blocks of a window: those left of the longest run, the run, those right of it. */
  function Blocks(a: Words, b: Words, alo: nat, ahi: nat, blo: nat, bhi: nat): seq<Block>
    requires alo <= ahi <= |a| && blo <= bhi <= |b|
    decreases ahi - alo
  {
    var m := Longest(a, b, alo, ahi, blo, bhi);
    if m.size == 0 then []
    else Blocks(a, b, alo, m.i, blo, m.j) + [m] + Blocks(a, b, m.i + m.size, ahi, m.j + m.size, bhi)
  }

  /** Blocks in order, apart, and of equal elements: a common subsequence laid out in runs. */
  ghost predicate Aligned(a: Words, b: Words, i: nat, j: nat, ahi: nat, bhi: nat, blocks: seq<Block>)
    requires ahi <= |a| && bhi <= |b|
    decreases |blocks|
  {
    if blocks == [] then i <= ahi && j <= bhi
    else
      var m := blocks[0];
      && i <= m.i && j <= m.j && m.size > 0 && m.i + m.size <= ahi && m.j + m.size <= bhi
      && SameRun(a, b, m)
      && Aligned(a, b, m.i + m.size, m.j + m.size, ahi, bhi, blocks[1..])
  }

  lemma {:induction false} AlignedJoin(a: Words, b: Words, i: nat, j: nat, left: seq<Block>, m: Block,
                                       right: seq<Block>, ahi: nat, bhi: nat)
    requires m.size > 0 && m.i + m.size <= ahi <= |a| && m.j + m.size <= bhi <= |b|
    requires SameRun(a, b, m)
    requires Aligned(a, b, i, j, m.i, m.j, left) && Aligned(a, b, m.i + m.size, m.j + m.size, ahi, bhi, right)
    ensures Aligned(a, b, i, j, ahi, bhi, left + [m] + right)
    decreases |left|
  {
    var all := left + [m] + right;
    if left == [] {
      assert all[0] == m && all[1..] == right;
    } else {
      var f := left[0];
      assert all[0] == f && all[1..] == left[1..] + [m] + right;
      AlignedJoin(a, b, f.i + f.size, f.j + f.size, left[1..], m, right, ahi, bhi);
    }
  }

  lemma {:induction false} BlocksAlign(a: Words, b: Words, alo: nat, ahi: nat, blo: nat, bhi: nat)
    requires alo <= ahi <= |a| && blo <= bhi <= |b|
    ensures Aligned(a, b, alo, blo, ahi, bhi, Blocks(a, b, alo, ahi, blo, bhi))
    decreases ahi - alo
  {
    var m := LongestRun(a, b, alo, ahi, blo, bhi);
    BlocksUnfold(a, b, alo, ahi, blo, bhi, m);
    if m.size > 0 {
      BlocksAlign(a, b, alo, m.i, blo, m.j);
      BlocksAlign(a, b, m.i + m.size, ahi, m.j + m.size, bhi);
      AlignedJoin(a, b, alo, blo, Blocks(a, b, alo, m.i, blo, m.j), m,
                  Blocks(a, b, m.i + m.size, ahi, m.j + m.size, bhi), ahi, bhi);
    }
  }

  lemma LongestRun(a: Words, b: Words, alo: nat, ahi: nat, blo: nat, bhi: nat) returns (m: Block)
    requires alo <= ahi <= |a| && blo <= bhi <= |b|
    ensures m == Longest(a, b, alo, ahi, blo, bhi)
    ensures alo <= m.i && m.i + m.size <= ahi && blo <= m.j && m.j + m.size <= bhi
    ensures SameRun(a, b, m)
  {
    BestAgrees(a, b, ahi, blo, bhi, alo, blo, Block(alo, blo, 0));
    m := Longest(a, b, alo, ahi, blo, bhi);
  }

  lemma BlocksUnfold(a: Words, b: Words, alo: nat, ahi: nat, blo: nat, bhi: nat, m: Block)
    requires alo <= ahi <= |a| && blo <= bhi <= |b|
    requires m == Longest(a, b, alo, ahi, blo, bhi)
    requires alo <= m.i && m.i + m.size <= ahi && blo <= m.j && m.j + m.size <= bhi
    ensures m.size == 0 ==> Blocks(a, b, alo, ahi, blo, bhi) == []
    ensures m.size > 0 ==> Blocks(a, b, alo, ahi, blo, bhi)
                           == Blocks(a, b, alo, m.i, blo, m.j) + [m]
                               + Blocks(a, b, m.i + m.size, ahi, m.j + m.size, bhi)
  {
  }

  // ---------- opcodes ----------

  /** What lies between two runs. */
  function Gap(i: nat, ai: nat, j: nat, bj: nat): seq<Opcode> {
    if i < ai && j < bj then [Opcode(Replace, i, ai, j, bj)]
    else if i < ai then [Opcode(Delete, i, ai, j, bj)]
    else if j < bj then [Opcode(Insert, i, ai, j, bj)]
    else []
  }

  function Opcodes(i: nat, j: nat, n: nat, m: nat, blocks: seq<Block>): seq<Opcode>
    decreases |blocks|
  {
    if blocks == [] then Gap(i, n, j, m)
    else
      var k := blocks[0];
      Gap(i, k.i, j, k.j) + [Opcode(Equal, k.i, k.i + k.size, k.j, k.j + k.size)]
      + Opcodes(k.i + k.size, k.j + k.size, n, m, blocks[1..])
  }

  function Matched(blocks: seq<Block>): nat {
    if blocks == [] then 0 else blocks[0].size + Matched(blocks[1..])
  }

  function Slice(s: Words, i: nat, j: nat): Words {
    if i <= j <= |s| then s[i..j] else []
  }

  /** What an opcode takes away, and what it adds. */
  function RemovedBy(a: Words, o: Opcode): Words {
    if o.tag == Replace || o.tag == Delete then Slice(a, o.i1, o.i2) else []
  }

  function AddedBy(b: Words, o: Opcode): Words {
    if o.tag == Replace || o.tag == Insert then Slice(b, o.j1, o.j2) else []
  }

  function Removed(a: Words, ops: seq<Opcode>): Words {
    if ops == [] then [] else RemovedBy(a, ops[0]) + Removed(a, ops[1..])
  }

  function Added(b: Words, ops: seq<Opcode>): Words {
    if ops == [] then [] else AddedBy(b, ops[0]) + Added(b, ops[1..])
  }

  /** The new sequence as the opcodes make it: what is equal comes from the old one, the rest is what they add. */
  function Patched(a: Words, b: Words, ops: seq<Opcode>): Words {
    if ops == [] then []
    else (if ops[0].tag == Equal then Slice(a, ops[0].i1, ops[0].i2) else AddedBy(b, ops[0])) + Patched(a, b, ops[1..])
  }

  /** And the old one, undoing them. */
  function Unpatched(a: Words, b: Words, ops: seq<Opcode>): Words {
    if ops == [] then []
    else
      (if ops[0].tag == Equal then Slice(b, ops[0].j1, ops[0].j2) else RemovedBy(a, ops[0]))
      + Unpatched(a, b, ops[1..])
  }

  function Kept(ops: seq<Opcode>): int {
    if ops == [] then 0 else (if ops[0].tag == Equal then ops[0].i2 - ops[0].i1 else 0) + Kept(ops[1..])
  }

  ghost predicate SoundOp(a: Words, b: Words, o: Opcode) {
    && o.i1 <= o.i2 <= |a| && o.j1 <= o.j2 <= |b|
    && (o.tag == Equal ==> a[o.i1..o.i2] == b[o.j1..o.j2])
  }

  ghost predicate Sound(a: Words, b: Words, ops: seq<Opcode>) {
    forall o | o in ops :: SoundOp(a, b, o)
  }

  lemma {:induction false} SoundCounts(a: Words, b: Words, ops: seq<Opcode>)
    requires Sound(a, b, ops)
    ensures |Unpatched(a, b, ops)| == |Removed(a, ops)| + Kept(ops)
    ensures |Patched(a, b, ops)| == |Added(b, ops)| + Kept(ops)
  {
    if ops != [] {
      var o := ops[0];
      assert SoundOp(a, b, o);
      assert o.tag == Equal ==> |a[o.i1..o.i2]| == |b[o.j1..o.j2]|;
      SoundCounts(a, b, ops[1..]);
    }
  }

  lemma {:induction false} JoinKept(x: seq<Opcode>, y: seq<Opcode>)
    ensures Kept(x + y) == Kept(x) + Kept(y)
  {
    if x == [] {
      assert x + y == y;
    } else {
      assert (x + y)[0] == x[0] && (x + y)[1..] == x[1..] + y;
      JoinKept(x[1..], y);
    }
  }

  lemma {:induction false} JoinPatched(a: Words, b: Words, x: seq<Opcode>, y: seq<Opcode>)
    ensures Patched(a, b, x + y) == Patched(a, b, x) + Patched(a, b, y)
  {
    if x == [] {
      assert x + y == y;
    } else {
      assert (x + y)[0] == x[0] && (x + y)[1..] == x[1..] + y;
      JoinPatched(a, b, x[1..], y);
    }
  }

  lemma {:induction false} JoinUnpatched(a: Words, b: Words, x: seq<Opcode>, y: seq<Opcode>)
    ensures Unpatched(a, b, x + y) == Unpatched(a, b, x) + Unpatched(a, b, y)
  {
    if x == [] {
      assert x + y == y;
    } else {
      assert (x + y)[0] == x[0] && (x + y)[1..] == x[1..] + y;
      JoinUnpatched(a, b, x[1..], y);
    }
  }

  /** These opcodes turn `old'` into `new'` and keep `m` elements. */
  ghost predicate Turns(a: Words, b: Words, ops: seq<Opcode>, old': Words, new': Words, m: int) {
    Sound(a, b, ops) && Unpatched(a, b, ops) == old' && Patched(a, b, ops) == new' && Kept(ops) == m
  }

  lemma EqualTurns(a: Words, b: Words, o: Opcode)
    requires SoundOp(a, b, o) && o.tag == Equal
    ensures Turns(a, b, [o], a[o.i1..o.i2], b[o.j1..o.j2], o.i2 - o.i1)
  {
    assert [o][1..] == [];
  }

  lemma TurnsJoin(a: Words, b: Words, x: seq<Opcode>, y: seq<Opcode>, o1: Words, o2: Words, n1: Words, n2: Words,
                  m1: int, m2: int)
    requires Turns(a, b, x, o1, n1, m1) && Turns(a, b, y, o2, n2, m2)
    ensures Turns(a, b, x + y, o1 + o2, n1 + n2, m1 + m2)
  {
    JoinKept(x, y);
    JoinPatched(a, b, x, y);
    JoinUnpatched(a, b, x, y);
  }

  lemma GapTurns(a: Words, b: Words, i: nat, ai: nat, j: nat, bj: nat)
    requires i <= ai <= |a| && j <= bj <= |b|
    ensures Turns(a, b, Gap(i, ai, j, bj), a[i..ai], b[j..bj], 0)
  {
    var ops := Gap(i, ai, j, bj);
    if ops != [] {
      assert ops[1..] == [];
    }
  }

  lemma Halves(s: Words, i: nat, x: nat, y: nat)
    requires i <= x <= y <= |s|
    ensures s[i..x] + s[x..y] + s[y..] == s[i..]
  {
  }

  lemma {:induction false} OpcodesTurn(a: Words, b: Words, i: nat, j: nat, blocks: seq<Block>)
    requires Aligned(a, b, i, j, |a|, |b|, blocks)
    ensures i <= |a| && j <= |b|
    ensures Turns(a, b, Opcodes(i, j, |a|, |b|, blocks), a[i..], b[j..], Matched(blocks))
    decreases |blocks|
  {
    if blocks == [] {
      GapTurns(a, b, i, |a|, j, |b|);
      assert a[i..|a|] == a[i..] && b[j..|b|] == b[j..];
    } else {
      OpcodesTurn(a, b, blocks[0].i + blocks[0].size, blocks[0].j + blocks[0].size, blocks[1..]);
      MoreOpcodesTurn(a, b, i, j, blocks);
    }
  }

  lemma MoreOpcodesTurn(a: Words, b: Words, i: nat, j: nat, blocks: seq<Block>)
    requires blocks != [] && blocks[0].size > 0 && SameRun(a, b, blocks[0]) && i <= blocks[0].i && j <= blocks[0].j
    requires var ai, bj := blocks[0].i + blocks[0].size, blocks[0].j + blocks[0].size;
             Turns(a, b, Opcodes(ai, bj, |a|, |b|, blocks[1..]), a[ai..], b[bj..], Matched(blocks[1..]))
    ensures Turns(a, b, Opcodes(i, j, |a|, |b|, blocks), a[i..], b[j..], Matched(blocks))
  {
    var k := blocks[0];
    BlockTurns(a, b, i, j, k, Opcodes(k.i + k.size, k.j + k.size, |a|, |b|, blocks[1..]), Matched(blocks[1..]));
  }

  lemma BlockTurns(a: Words, b: Words, i: nat, j: nat, k: Block, rest: seq<Opcode>, m: int)
    requires i <= k.i && j <= k.j && k.i + k.size <= |a| && k.j + k.size <= |b|
    requires SameRun(a, b, k)
    requires Turns(a, b, rest, a[k.i + k.size..], b[k.j + k.size..], m)
    ensures Turns(a, b, Gap(i, k.i, j, k.j) + [Opcode(Equal, k.i, k.i + k.size, k.j, k.j + k.size)] + rest, a[i..],
                  b[j..], k.size + m)
  {
    var ai, bj := k.i + k.size, k.j + k.size;
    var gap, equal := Gap(i, k.i, j, k.j), Opcode(Equal, k.i, ai, k.j, bj);
    GapTurns(a, b, i, k.i, j, k.j);
    EqualTurns(a, b, equal);
    TurnsJoin(a, b, gap, [equal], a[i..k.i], a[k.i..ai], b[j..k.j], b[k.j..bj], 0, k.size);
    TurnsJoin(a, b, gap + [equal], rest, a[i..k.i] + a[k.i..ai], a[ai..], b[j..k.j] + b[k.j..bj], b[bj..], k.size, m);
    Halves(a, i, k.i, ai);
    Halves(b, j, k.j, bj);
  }

  function Diff(a: Words, b: Words): seq<Opcode> {
    Opcodes(0, 0, |a|, |b|, Blocks(a, b, 0, |a|, 0, |b|))
  }

  function MatchedWords(a: Words, b: Words): nat {
    Matched(Blocks(a, b, 0, |a|, 0, |b|))
  }

  /**
   * Diff conservation: the opcodes rebuild either sequence from the other, and what is not matched is added or removed.
   */
  lemma DiffConserves(a: Words, b: Words)
    ensures Patched(a, b, Diff(a, b)) == b && Unpatched(a, b, Diff(a, b)) == a
    ensures |a| - |Removed(a, Diff(a, b))| == MatchedWords(a, b) == |b| - |Added(b, Diff(a, b))|
  {
    BlocksAlign(a, b, 0, |a|, 0, |b|);
    OpcodesTurn(a, b, 0, 0, Blocks(a, b, 0, |a|, 0, |b|));
    SoundCounts(a, b, Diff(a, b));
    assert a[0..] == a && b[0..] == b;
  }

  /** A matching word is never missed. */
  lemma NothingInCommon(a: Words, b: Words)
    ensures MatchedWords(a, b) == 0 <==> forall w | w in a :: w !in b
  {
    var m := LongestRun(a, b, 0, |a|, 0, |b|);
    if m.size == 0 {
      forall w | w in a ensures w !in b {
        var x :| 0 <= x < |a| && a[x] == w;
        forall y | 0 <= y < |b| ensures b[y] != w {
          if b[y] == w {
            assert a[x..x + 1] == b[y..y + 1];
            LongestIsLongest(a, b, 0, |a|, 0, |b|, x, y, 1);
          }
        }
      }
    } else {
      assert a[m.i] == a[m.i..m.i + m.size][0] == b[m.j];
      assert a[m.i] in a && a[m.i] in b;
      LongestCounts(a, b);
    }
  }

  lemma LongestCounts(a: Words, b: Words)
    ensures MatchedWords(a, b) >= Longest(a, b, 0, |a|, 0, |b|).size
  {
    var m := Longest(a, b, 0, |a|, 0, |b|);
    if m.size > 0 {
      MatchedJoin(Blocks(a, b, 0, m.i, 0, m.j) + [m], Blocks(a, b, m.i + m.size, |a|, m.j + m.size, |b|));
      MatchedJoin(Blocks(a, b, 0, m.i, 0, m.j), [m]);
      assert Matched([m]) == m.size;
    }
  }

  lemma {:induction false} MatchedJoin(x: seq<Block>, y: seq<Block>)
    ensures Matched(x + y) == Matched(x) + Matched(y)
  {
    if x == [] {
      assert x + y == y;
    } else {
      MatchedJoin(x[1..], y);
      assert (x + y)[1..] == x[1..] + y;
    }
  }

  /** An unchanged text has nothing added and nothing removed. */
  lemma SameTextMatches(a: Words)
    ensures MatchedWords(a, a) == |a|
  {
    LongestIsLongest(a, a, 0, |a|, 0, |a|, 0, 0, |a|);
    LongestCounts(a, a);
    DiffConserves(a, a);
  }

  // ---------- _changes ----------

  /** `SequenceMatcher.ratio` */
  function Ratio(a: Words, b: Words): real {
    if |a| + |b| == 0 then 1.0 else 2.0 * MatchedWords(a, b) as real / (|a| + |b|) as real
  }

  method Changes(a: Words, b: Words) returns (similarity: real, added: Words, removed: Words)
    ensures similarity == Ratio(a, b)
    ensures added == Added(b, Diff(a, b)) && removed == Removed(a, Diff(a, b))
    ensures |a| - |removed| == |b| - |added| == MatchedWords(a, b)
  {
    DiffConserves(a, b);
    var ops := Diff(a, b);
    added, removed := [], [];
    for k := 0 to |ops|
      invariant added == Added(b, ops[..k]) && removed == Removed(a, ops[..k])
    {
      NextAdded(b, ops, k);
      NextRemoved(a, ops, k);
      if ops[k].tag == Replace || ops[k].tag == Delete {
        removed := removed + Slice(a, ops[k].i1, ops[k].i2);
      }
      if ops[k].tag == Replace || ops[k].tag == Insert {
        added := added + Slice(b, ops[k].j1, ops[k].j2);
      }
    }
    assert ops[..|ops|] == ops;
    similarity := Ratio(a, b);
  }

  lemma {:induction false} NextAdded(b: Words, ops: seq<Opcode>, k: nat)
    requires k < |ops|
    ensures Added(b, ops[..k + 1]) == Added(b, ops[..k]) + AddedBy(b, ops[k])
  {
    AddedJoin(b, ops[..k], [ops[k]]);
    assert ops[..k + 1] == ops[..k] + [ops[k]];
    assert [ops[k]][1..] == [];
  }

  lemma {:induction false} AddedJoin(b: Words, x: seq<Opcode>, y: seq<Opcode>)
    ensures Added(b, x + y) == Added(b, x) + Added(b, y)
  {
    if x == [] {
      assert x + y == y;
    } else {
      assert (x + y)[0] == x[0] && (x + y)[1..] == x[1..] + y;
      AddedJoin(b, x[1..], y);
    }
  }

  lemma {:induction false} NextRemoved(a: Words, ops: seq<Opcode>, k: nat)
    requires k < |ops|
    ensures Removed(a, ops[..k + 1]) == Removed(a, ops[..k]) + RemovedBy(a, ops[k])
  {
    RemovedJoin(a, ops[..k], [ops[k]]);
    assert ops[..k + 1] == ops[..k] + [ops[k]];
    assert [ops[k]][1..] == [];
  }

  lemma {:induction false} RemovedJoin(a: Words, x: seq<Opcode>, y: seq<Opcode>)
    ensures Removed(a, x + y) == Removed(a, x) + Removed(a, y)
  {
    if x == [] {
      assert x + y == y;
    } else {
      assert (x + y)[0] == x[0] && (x + y)[1..] == x[1..] + y;
      RemovedJoin(a, x[1..], y);
    }
  }

  function ChangedCount(a: Words, b: Words): (nat, nat) {
    (|Added(b, Diff(a, b))|, |Removed(a, Diff(a, b))|)
  }

  // ---------- diff_texts and is_minor ----------

  const MAX_DIFF_WORDS := 30000
  const MINOR_SIMILARITY := 0.9
  const MINOR_WORDS := 12

  /** The words of a text (`\w+`), its stripped non-empty lines, and a stripped title. */
  datatype Splitter = Splitter(words: string -> Words, lines: string -> Words, strip: string -> string)

  datatype TextDiff = TextDiff(similarity: real, wordsAdded: nat, wordsRemoved: nat, linesAdded: nat, linesRemoved: nat,
                               titleChanged: bool) {
    predicate IsMinor() {
      !titleChanged && wordsAdded + wordsRemoved <= MINOR_WORDS && similarity >= MINOR_SIMILARITY
    }
  }

  function CountWords(sp: Splitter, lines: Words): nat {
    if lines == [] then 0 else |sp.words(lines[0])| + CountWords(sp, lines[1..])
  }

  function TitleOf(sp: Splitter, title: Option<string>): string {
    sp.strip(match title case Some(t) => t case None => "")
  }

  function DiffTexts(sp: Splitter, oldText: string, newText: string, oldTitle: Option<string>,
                     newTitle: Option<string>): TextDiff {
    var oldLines, newLines := sp.lines(oldText), sp.lines(newText);
    var oldWords, newWords := sp.words(oldText), sp.words(newText);
    var lines := ChangedCount(oldLines, newLines);
    var changed := TitleOf(sp, oldTitle) != TitleOf(sp, newTitle);
    if |oldWords| > MAX_DIFF_WORDS || |newWords| > MAX_DIFF_WORDS then
      var ops := Diff(oldLines, newLines);
      TextDiff(Ratio(oldLines, newLines), CountWords(sp, Added(newLines, ops)),
               CountWords(sp, Removed(oldLines, ops)), lines.0, lines.1, changed)
    else
      var words := ChangedCount(oldWords, newWords);
      TextDiff(Ratio(oldWords, newWords), words.0, words.1, lines.0, lines.1, changed)
  }

  /** Ninety per cent similar: at least four and a half matching words for each one changed. */
  lemma SimilarityThreshold(a: Words, b: Words)
    ensures var (added, removed) := ChangedCount(a, b);
            Ratio(a, b) >= MINOR_SIMILARITY <==> 2 * MatchedWords(a, b) >= 9 * (added + removed)
  {
    DiffConserves(a, b);
    var m, total := MatchedWords(a, b), |a| + |b|;
    var (added, removed) := ChangedCount(a, b);
    assert total == 2 * m + added + removed;
    if total > 0 {
      RatioAtLeast(m, total);
    }
  }

  lemma RatioAtLeast(m: nat, total: nat)
    requires total > 0
    ensures 2.0 * m as real / total as real >= 0.9 <==> 20 * m >= 9 * total
  {
    var t, x := total as real, 2.0 * m as real;
    assert x == (x / t) * t;
    assert x / t >= 0.9 <==> x >= 0.9 * t;
    assert x >= 0.9 * t <==> 10.0 * x >= 9.0 * t;
    assert 10.0 * x == (20 * m) as real && 9.0 * t == (9 * total) as real;
  }

  /** On texts short enough to be compared word by word, an edit is minor exactly by these counts. */
  lemma MinorByCounts(sp: Splitter, oldText: string, newText: string, oldTitle: Option<string>,
                      newTitle: Option<string>)
    requires |sp.words(oldText)| <= MAX_DIFF_WORDS && |sp.words(newText)| <= MAX_DIFF_WORDS
    ensures var old', new' := sp.words(oldText), sp.words(newText);
            var m := MatchedWords(old', new');
            DiffTexts(sp, oldText, newText, oldTitle, newTitle).IsMinor() <==>
            && TitleOf(sp, oldTitle) == TitleOf(sp, newTitle)
            && (|old'| - m) + (|new'| - m) <= 12
            && 2 * m >= 9 * ((|old'| - m) + (|new'| - m))
  {
    DiffConserves(sp.words(oldText), sp.words(newText));
    SimilarityThreshold(sp.words(oldText), sp.words(newText));
  }

  /** A page that did not change is a minor edit of itself, whatever its length. */
  lemma UnchangedIsMinor(sp: Splitter, text: string, title: Option<string>)
    ensures DiffTexts(sp, text, text, title, title).IsMinor()
  {
    var lines, words := sp.lines(text), sp.words(text);
    DiffConserves(lines, lines);
    DiffConserves(words, words);
    SameTextMatches(lines);
    SameTextMatches(words);
    SimilarityThreshold(lines, lines);
    SimilarityThreshold(words, words);
    assert Added(lines, Diff(lines, lines)) == [] && Removed(lines, Diff(lines, lines)) == [];
  }
}
