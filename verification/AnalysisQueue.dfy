// The analysis run.
module AnalysisQueue {
  // app/services/analysis.py, _analyze and _persist; app/services/digest.py, batch_digests.

  import opened Sequences

  /** A page to analyze, by the id of its captured version, and the size its digest renders to. */
  datatype Digest = Digest(page: nat, size: nat)

  /** What one model call comes back with. Documents are numbered from 1 in the order they were sent. */
  datatype Reply =
    | Halted(budget: bool)           // budget spent, rate limited or unavailable
    | Unusable                       // LLMResponseError
    | Answers(documents: seq<int>)

  datatype Reason = RejectedAlone | OmittedTwice

  datatype Failure = Failure(page: nat, why: Reason)

  /** One model call: the pages it was sent and the reply. */
  datatype Call = Call(sent: seq<nat>, reply: Reply)

  // ---------- batching ----------

  function Flatten<T>(batches: seq<seq<T>>): seq<T> {
    if batches == [] then [] else batches[0] + Flatten(batches[1..])
  }

  lemma {:induction false} FlattenJoin<T>(a: seq<seq<T>>, b: seq<seq<T>>)
    ensures Flatten(a + b) == Flatten(a) + Flatten(b)
  {
    if a == [] {
      assert a + b == b;
    } else {
      FlattenJoin(a[1..], b);
      assert (a + b)[1..] == a[1..] + b;
      assert a[0] + (Flatten(a[1..]) + Flatten(b)) == (a[0] + Flatten(a[1..])) + Flatten(b);
    }
  }

  function TotalSize(ds: seq<Digest>): nat {
    if ds == [] then 0 else TotalSize(ds[..|ds| - 1]) + ds[|ds| - 1].size
  }

  /** Full: one more digest would break a limit. */
  predicate IsFull(batch: seq<Digest>, next: Digest, maxItems: nat, maxChars: nat) {
    |batch| >= maxItems || TotalSize(batch) + next.size > maxChars
  }

  /** Within the limits; a batch of one digest is allowed whatever its size. */
  predicate Fits(batch: seq<Digest>, maxItems: nat, maxChars: nat) {
    batch != [] && (|batch| == 1 || (|batch| <= maxItems && TotalSize(batch) <= maxChars))
  }

  /** Every batch is within the limits, and closed only when the next digest did not fit. */
  ghost predicate Packed(batches: seq<seq<Digest>>, maxItems: nat, maxChars: nat) {
    && (forall k | 0 <= k < |batches| :: Fits(batches[k], maxItems, maxChars))
    && (forall k | 0 < k < |batches| :: IsFull(batches[k - 1], batches[k][0], maxItems, maxChars))
  }

  lemma OneMore(batches: seq<seq<Digest>>, current: seq<Digest>, d: Digest, maxItems: nat, maxChars: nat)
    requires Packed(batches + [current], maxItems, maxChars) && !IsFull(current, d, maxItems, maxChars)
    ensures Packed(batches + [current + [d]], maxItems, maxChars)
  {
    var was, now, last := batches + [current], batches + [current + [d]], current + [d];
    assert last[..|last| - 1] == current;
    assert was[|batches|] == current && last[0] == current[0];
    forall k | 0 <= k < |now| ensures Fits(now[k], maxItems, maxChars) {
      assert k < |batches| ==> now[k] == was[k];
    }
    forall k | 0 < k < |now| ensures IsFull(now[k - 1], now[k][0], maxItems, maxChars) {
      assert now[k - 1] == was[k - 1] && now[k][0] == was[k][0];
    }
  }

  lemma FlattenLast<T>(batches: seq<seq<T>>, last: seq<T>)
    ensures Flatten(batches + [last]) == Flatten(batches) + last
  {
    FlattenJoin(batches, [last]);
  }

  lemma FlattenGrows(batches: seq<seq<Digest>>, last: seq<Digest>, d: Digest)
    ensures Flatten(batches + [last + [d]]) == Flatten(batches + [last]) + [d]
  {
    FlattenLast(batches, last);
    FlattenLast(batches, last + [d]);
  }

  /** In order, and nothing lost or repeated. */
  method BatchDigests(digests: seq<Digest>, maxItems: nat, maxChars: nat) returns (batches: seq<seq<Digest>>)
    ensures Flatten(batches) == digests
    ensures Packed(batches, maxItems, maxChars)
  {
    batches := [];
    var current: seq<Digest> := [];
    var size := 0;
    ghost var all: seq<seq<Digest>> := [];
    for i := 0 to |digests|
      invariant Flatten(all) == digests[..i] && Packed(all, maxItems, maxChars)
      invariant size == TotalSize(current) && (current == [] ==> i == 0)
      invariant if current == [] then batches == [] && all == [] else all == batches + [current]
    {
      var digest := digests[i];
      ghost var before := all;
      if current != [] && (|current| >= maxItems || size + digest.size > maxChars) {
        batches := batches + [current];
        current, size := [], 0;
        FlattenLast(batches, [digest]);
      } else if current != [] {
        OneMore(batches, current, digest, maxItems, maxChars);
        FlattenGrows(batches, current, digest);
      } else {
        FlattenLast(batches, [digest]);
      }
      assert (current + [digest])[..|current|] == current;
      current := current + [digest];
      size := size + digest.size;
      all := batches + [current];
      assert Flatten(all) == Flatten(before) + [digest];
      assert digests[..i + 1] == digests[..i] + [digest];
    }
    assert digests[..|digests|] == digests;
    if current != [] {
      batches := batches + [current];
    }
  }

  // ---------- what a reply says of each page ----------

  /** The pages of a batch that are in `ids`, or (without `keep`) those that are not. */
  function Pick(batch: seq<nat>, ids: set<nat>, keep: bool): seq<nat> {
    if batch == [] then []
    else (if (batch[0] in ids) == keep then [batch[0]] else []) + Pick(batch[1..], ids, keep)
  }

  lemma {:induction false} PickMembers(batch: seq<nat>, ids: set<nat>, keep: bool)
    ensures forall p :: p in Pick(batch, ids, keep) <==> p in batch && (p in ids) == keep
  {
    if batch != [] {
      PickMembers(batch[1..], ids, keep);
      assert batch == [batch[0]] + batch[1..];
    }
  }

  lemma {:induction false} PickSplits(batch: seq<nat>, ids: set<nat>)
    ensures multiset(batch) == multiset(Pick(batch, ids, true)) + multiset(Pick(batch, ids, false))
    ensures |batch| == |Pick(batch, ids, true)| + |Pick(batch, ids, false)|
  {
    if batch != [] {
      PickSplits(batch[1..], ids);
      assert batch == [batch[0]] + batch[1..];
      var y, n := Pick(batch[1..], ids, true), Pick(batch[1..], ids, false);
      if batch[0] in ids {
        assert Pick(batch, ids, true) == [batch[0]] + y && Pick(batch, ids, false) == n;
      } else {
        assert Pick(batch, ids, false) == [batch[0]] + n && Pick(batch, ids, true) == y;
      }
    }
  }

  function PagesIn(s: seq<nat>): set<nat> {
    set p | p in s
  }

  lemma PagesInJoin(a: seq<nat>, b: seq<nat>)
    ensures PagesIn(a + b) == PagesIn(a) + PagesIn(b)
  {
  }

  lemma NextPage(s: seq<nat>, i: nat)
    requires Distinct(s) && i < |s|
    ensures s[i] !in PagesIn(s[..i]) && PagesIn(s[..i + 1]) == PagesIn(s[..i]) + {s[i]}
  {
    assert s[..i + 1] == s[..i] + [s[i]];
  }

  lemma {:induction false} DistinctSet(s: seq<nat>)
    requires Distinct(s)
    ensures |PagesIn(s)| == |s|
  {
    if s == [] {
      assert PagesIn(s) == {};
    } else {
      DistinctSet(s[1..]);
      assert s == [s[0]] + s[1..];
      assert PagesIn(s) == {s[0]} + PagesIn(s[1..]) && s[0] !in PagesIn(s[1..]);
    }
  }

  lemma {:induction false} DistinctOnce(s: seq<nat>, p: nat)
    requires Distinct(s)
    ensures multiset(s)[p] == if p in s then 1 else 0
  {
    if s != [] {
      DistinctOnce(s[1..], p);
      assert s == [s[0]] + s[1..];
      assert multiset(s) == multiset{s[0]} + multiset(s[1..]);
    }
  }

  lemma PickHead(pages: seq<nat>, i: nat, ids: set<nat>, keep: bool)
    requires i < |pages|
    ensures Pick(pages[i..], ids, keep) == (if (pages[i] in ids) == keep then [pages[i]] else [])
            + Pick(pages[i + 1..], ids, keep)
  {
    assert pages[i..][1..] == pages[i + 1..];
  }

  function AnsweredPages(batch: seq<nat>, documents: seq<int>): set<nat> {
    set d | d in documents && 1 <= d <= |batch| :: batch[d - 1]
  }

  lemma NextDocument(batch: seq<nat>, documents: seq<int>, i: nat)
    requires i < |documents|
    ensures AnsweredPages(batch, documents[..i + 1])
      == AnsweredPages(batch, documents[..i]) + if 1 <= documents[i] <= |batch| then {batch[documents[i] - 1]} else {}
  {
    var was, now := documents[..i], documents[..i + 1];
    assert now == was + [documents[i]];
    forall p | p in AnsweredPages(batch, now)
      ensures p in AnsweredPages(batch, was) || (1 <= documents[i] <= |batch| && p == batch[documents[i] - 1])
    {
      var d :| d in now && 1 <= d <= |batch| && batch[d - 1] == p;
      assert d in was || d == documents[i];
    }
    forall p | p in AnsweredPages(batch, was) ensures p in AnsweredPages(batch, now) {
      var d :| d in was && 1 <= d <= |batch| && batch[d - 1] == p;
      assert d in now;
    }
    assert documents[i] in now;
  }

  ghost predicate Omits(c: Call, page: nat) {
    c.reply.Answers? && exists i | 0 <= i < |c.sent| :: c.sent[i] == page && (i + 1) !in c.reply.documents
  }

  ghost predicate Answered(c: Call, page: nat) {
    c.reply.Answers? && exists i | 0 <= i < |c.sent| :: c.sent[i] == page && (i + 1) in c.reply.documents
  }

  ghost predicate RejectsAlone(c: Call, page: nat) {
    c.reply.Unusable? && c.sent == [page]
  }

  /** The log bears out a failure: the page was refused in a call of its own, or left out of two answers. */
  ghost predicate Justified(log: seq<Call>, f: Failure) {
    match f.why
    case RejectedAlone => exists i | 0 <= i < |log| :: RejectsAlone(log[i], f.page)
    case OmittedTwice => exists i, j | 0 <= i < j < |log| :: Omits(log[i], f.page) && Omits(log[j], f.page)
  }

  function PagesOf(fs: seq<Failure>): seq<nat> {
    if fs == [] then [] else PagesOf(fs[..|fs| - 1]) + [fs[|fs| - 1].page]
  }

  function Omitted(pages: seq<nat>): seq<Failure> {
    seq(|pages|, k requires 0 <= k < |pages| => Failure(pages[k], OmittedTwice))
  }

  lemma OmittedHead(page: nat, rest: seq<nat>)
    ensures Omitted([page] + rest) == [Failure(page, OmittedTwice)] + Omitted(rest)
  {
  }

  lemma {:induction false} PagesOfOmitted(fs: seq<Failure>, pages: seq<nat>)
    ensures PagesOf(fs + Omitted(pages)) == PagesOf(fs) + pages
    decreases |pages|
  {
    if pages == [] {
      assert fs + Omitted(pages) == fs;
    } else {
      var all, n := fs + Omitted(pages), |pages| - 1;
      assert all[..|all| - 1] == fs + Omitted(pages[..n]);
      PagesOfOmitted(fs, pages[..n]);
      assert pages == pages[..n] + [pages[n]];
    }
  }

  // ---------- the potential ----------

  ghost predicate NoEmpty(queue: seq<seq<nat>>) {
    forall i | 0 <= i < |queue| :: queue[i] != []
  }

  lemma NoEmptyJoin(a: seq<seq<nat>>, b: seq<seq<nat>>)
    ensures NoEmpty(a + b) <==> NoEmpty(a) && NoEmpty(b)
  {
    if NoEmpty(a + b) {
      assert forall i | 0 <= i < |a| :: a[i] == (a + b)[i];
      assert forall i | 0 <= i < |b| :: b[i] == (a + b)[|a| + i];
    }
  }

  function Weight(queue: seq<seq<nat>>): int {
    if queue == [] then 0 else 2 * |queue[0]| - 1 + Weight(queue[1..])
  }

  lemma {:induction false} WeightJoin(a: seq<seq<nat>>, b: seq<seq<nat>>)
    ensures Weight(a + b) == Weight(a) + Weight(b)
  {
    if a == [] {
      assert a + b == b;
    } else {
      WeightJoin(a[1..], b);
      assert (a + b)[1..] == a[1..] + b;
    }
  }

  lemma {:induction false} WeightTotal(queue: seq<seq<nat>>)
    ensures Weight(queue) == 2 * |Flatten(queue)| - |queue|
  {
    if queue != [] {
      WeightTotal(queue[1..]);
    }
  }

  lemma {:induction false} WeightPositive(queue: seq<seq<nat>>)
    requires NoEmpty(queue)
    ensures Weight(queue) >= |queue|
  {
    if queue != [] {
      NoEmptyJoin([queue[0]], queue[1..]);
      assert queue == [queue[0]] + queue[1..] && [queue[0]][0] == queue[0];
      WeightPositive(queue[1..]);
    }
  }

  lemma PartIsDistinct(part: seq<nat>, all: seq<nat>)
    requires Distinct(all) && multiset(part) <= multiset(all)
    ensures Distinct(part) && forall p | p in part :: p in all
  {
    forall p | p in part ensures p in all {
      assert p in multiset(part);
    }
    forall i, j | 0 <= i < j < |part| ensures part[i] != part[j] {
      DistinctOnce(all, part[i]);
      Repeated(part, i, j);
    }
  }

  lemma Repeated(s: seq<nat>, i: nat, j: nat)
    requires i < j < |s|
    ensures s[i] == s[j] ==> multiset(s)[s[i]] >= 2
  {
    assert s == s[..j] + [s[j]] + s[j + 1..];
    assert s[i] in s[..j];
    assert multiset(s) == multiset(s[..j]) + multiset([s[j]]) + multiset(s[j + 1..]);
  }

  lemma PickIsDistinct(batch: seq<nat>, ids: set<nat>, keep: bool)
    requires Distinct(batch)
    ensures Distinct(Pick(batch, ids, keep))
  {
    PickSplits(batch, ids);
    PartIsDistinct(Pick(batch, ids, keep), batch);
  }

  /** Retried pages are counted once each. */
  lemma RetriedGrows(retried: set<nat>, retry: seq<nat>)
    requires Distinct(retry) && forall p | p in retry :: p !in retried
    ensures |retried + PagesIn(retry)| == |retried| + |retry|
  {
    DistinctSet(retry);
    assert retried !! PagesIn(retry);
  }

  lemma SubsetSize(small: set<nat>, s: seq<nat>)
    requires Distinct(s) && forall p | p in small :: p in s
    ensures |small| <= |s|
  {
    DistinctSet(s);
    assert small <= PagesIn(s);
    SubsetIsSmaller(small, PagesIn(s));
  }

  lemma SubsetIsSmaller(a: set<nat>, b: set<nat>)
    requires a <= b
    ensures |a| <= |b|
  {
    assert b == a + (b - a);
  }

  // ---------- what every step keeps ----------

  /**
   * Every page is answered, failed or still queued; calls made and calls the queue can still cause stay within bounds.
   */
  ghost predicate Accounts(all: seq<nat>, answered: seq<nat>, failures: seq<Failure>, queue: seq<seq<nat>>,
                           retried: set<nat>,
                           calls: int, bound: int) {
    && multiset(all) == multiset(answered) + multiset(PagesOf(failures)) + multiset(Flatten(queue))
    && NoEmpty(queue)
    && (forall p | p in retried :: p in all)
    && calls + Weight(queue) + |all| - |retried| <= bound
  }

  /** The log bears out what is recorded of each page. */
  ghost predicate Borne(log: seq<Call>, answered: seq<nat>, failures: seq<Failure>, retried: set<nat>) {
    && (forall p | p in answered :: exists i | 0 <= i < |log| :: Answered(log[i], p))
    && (forall f | f in failures :: Justified(log, f))
    && (forall p | p in retried :: exists i | 0 <= i < |log| :: Omits(log[i], p))
  }

  /** A nonempty queue leaves room for another call. */
  lemma StillRoom(all: seq<nat>, answered: seq<nat>, failures: seq<Failure>, queue: seq<seq<nat>>, retried: set<nat>,
                  calls: int, bound: int)
    requires Accounts(all, answered, failures, queue, retried, calls, bound) && Distinct(all) && queue != []
    ensures calls < bound
  {
    WeightPositive(queue);
    SubsetSize(retried, all);
  }

  lemma CallsAreBounded(all: seq<nat>, answered: seq<nat>, failures: seq<Failure>, queue: seq<seq<nat>>,
                        retried: set<nat>, calls: int, bound: int)
    requires Accounts(all, answered, failures, queue, retried, calls, bound) && Distinct(all)
    ensures calls <= bound
  {
    WeightPositive(queue);
    SubsetSize(retried, all);
  }

  lemma BatchIsDistinct(all: seq<nat>, answered: seq<nat>, failures: seq<Failure>, batch: seq<nat>,
                        queue: seq<seq<nat>>)
    requires Distinct(all)
    requires multiset(all) == multiset(answered) + multiset(PagesOf(failures)) + multiset(Flatten([batch] + queue))
    ensures Distinct(batch) && forall p | p in batch :: p in all
  {
    FlattenJoin([batch], queue);
    PartIsDistinct(batch, all);
  }

  lemma SplitAccount(all: seq<nat>, answered: seq<nat>, failures: seq<Failure>, batch: seq<nat>, queue: seq<seq<nat>>,
                     retried: set<nat>,
                     calls: int, bound: int, middle: nat)
    requires Accounts(all, answered, failures, [batch] + queue, retried, calls, bound + 1) && 0 < middle < |batch|
    ensures Accounts(all, answered, failures, [batch[..middle], batch[middle..]] + queue, retried, calls, bound)
  {
    var a, b := batch[..middle], batch[middle..];
    assert a + b == batch;
    FlattenJoin([batch], queue);
    FlattenJoin([a], [b] + queue);
    FlattenJoin([b], queue);
    assert [a, b] + queue == [a] + ([b] + queue);
    assert a + (b + Flatten(queue)) == batch + Flatten(queue);
    WeightJoin([batch], queue);
    WeightJoin([a], [b] + queue);
    WeightJoin([b], queue);
    assert Weight([a]) == 2 * |a| - 1 && Weight([b]) == 2 * |b| - 1 && Weight([batch]) == 2 * |batch| - 1;
    QueueTail(batch, queue);
    NoEmptyJoin([a, b], queue);
  }

  lemma QueueTail(batch: seq<nat>, queue: seq<seq<nat>>)
    requires NoEmpty([batch] + queue)
    ensures batch != [] && NoEmpty(queue)
  {
    NoEmptyJoin([batch], queue);
    assert [batch][0] == batch;
  }

  lemma AloneAccount(all: seq<nat>, answered: seq<nat>, failures: seq<Failure>, batch: seq<nat>, queue: seq<seq<nat>>,
                     retried: set<nat>,
                     calls: int, bound: int)
    requires Accounts(all, answered, failures, [batch] + queue, retried, calls, bound + 1) && |batch| <= 1
    ensures |batch| == 1
    ensures Accounts(all, answered, failures + [Failure(batch[0], RejectedAlone)], queue, retried, calls, bound)
  {
    QueueTail(batch, queue);
    FlattenJoin([batch], queue);
    WeightJoin([batch], queue);
    assert Weight([batch]) == 1;
    var more := failures + [Failure(batch[0], RejectedAlone)];
    assert more[..|more| - 1] == failures;
    assert batch == [batch[0]];
  }

  lemma AnswersAccount(all: seq<nat>, answered: seq<nat>, failures: seq<Failure>, batch: seq<nat>, queue: seq<seq<nat>>,
                       retried: set<nat>,
                       calls: int, bound: int, ids: set<nat>)
    requires Accounts(all, answered, failures, [batch] + queue, retried, calls, bound + 1) && Distinct(all)
    ensures var missing := Pick(batch, ids, false);
            var retry, again := Pick(missing, retried, false), Pick(missing, retried, true);
            Accounts(all, answered + Pick(batch, ids, true), failures + Omitted(again),
                     if retry != [] then queue + [retry] else queue,
                     retried + PagesIn(retry), calls, bound)
  {
    var missing := Pick(batch, ids, false);
    var retry, again := Pick(missing, retried, false), Pick(missing, retried, true);
    var queue' := if retry != [] then queue + [retry] else queue;
    var outputs := Pick(batch, ids, true);
    BatchIsDistinct(all, answered, failures, batch, queue);
    QueueTail(batch, queue);
    RequeueMeans(batch, queue, retry);
    PicksAccount(batch, ids, retried);
    PagesOfOmitted(failures, again);
    PickedBelong(batch, ids, retried);
    Rebalance(multiset(all), multiset(answered), multiset(PagesOf(failures)), multiset(Flatten(queue)), multiset(batch),
              multiset(outputs), multiset(again), multiset(retry));
    assert multiset(answered + outputs) == multiset(answered) + multiset(outputs);
    assert multiset(PagesOf(failures) + again) == multiset(PagesOf(failures)) + multiset(again);
  }

  lemma Rebalance(all: multiset<nat>, done: multiset<nat>, failed: multiset<nat>, queued: multiset<nat>,
                  batch: multiset<nat>,
                  outputs: multiset<nat>, again: multiset<nat>, retry: multiset<nat>)
    requires all == done + failed + (batch + queued) && batch == outputs + again + retry
    ensures all == (done + outputs) + (failed + again) + (queued + retry)
  {
  }

  lemma PicksAccount(batch: seq<nat>, ids: set<nat>, retried: set<nat>)
    requires Distinct(batch)
    ensures var missing := Pick(batch, ids, false);
            var retry, again := Pick(missing, retried, false), Pick(missing, retried, true);
            && multiset(batch) == multiset(Pick(batch, ids, true)) + multiset(again) + multiset(retry)
            && |retry| <= |batch| && |retried + PagesIn(retry)| == |retried| + |retry|
  {
    var missing := Pick(batch, ids, false);
    PickIsDistinct(batch, ids, false);
    PickIsDistinct(missing, retried, false);
    PickMembers(missing, retried, false);
    RetriedGrows(retried, Pick(missing, retried, false));
    PickSplits(batch, ids);
    PickSplits(missing, retried);
  }

  lemma PickedBelong(batch: seq<nat>, ids: set<nat>, retried: set<nat>)
    ensures forall p | p in Pick(Pick(batch, ids, false), retried, false) :: p in batch
  {
    PickMembers(batch, ids, false);
    PickMembers(Pick(batch, ids, false), retried, false);
  }

  lemma RequeueMeans(batch: seq<nat>, queue: seq<seq<nat>>, retry: seq<nat>)
    requires NoEmpty(queue)
    ensures var queue' := if retry != [] then queue + [retry] else queue;
            && NoEmpty(queue')
            && multiset(Flatten([batch] + queue)) == multiset(batch) + multiset(Flatten(queue))
            && multiset(Flatten(queue')) == multiset(Flatten(queue)) + multiset(retry)
            && Weight([batch] + queue) == 2 * |batch| - 1 + Weight(queue)
            && Weight(queue') == Weight(queue) + if retry == [] then 0 else 2 * |retry| - 1
  {
    FlattenJoin([batch], queue);
    FlattenLast(queue, retry);
    NoEmptyJoin(queue, [retry]);
    WeightJoin([batch], queue);
    WeightJoin(queue, [retry]);
    assert Weight([batch]) == 2 * |batch| - 1 && Weight([retry]) == 2 * |retry| - 1;
  }

  ghost predicate Follows(log: seq<Call>, reply: nat -> Reply) {
    forall i | 0 <= i < |log| :: log[i].reply == reply(i)
  }

  ghost predicate NoHalt(log: seq<Call>) {
    forall i | 0 <= i < |log| :: !log[i].reply.Halted?
  }

  lemma LogGrows(log: seq<Call>, c: Call, reply: nat -> Reply)
    requires Follows(log, reply) && NoHalt(log) && c.reply == reply(|log|)
    ensures Follows(log + [c], reply) && (NoHalt(log + [c]) <==> !c.reply.Halted?)
  {
    assert (log + [c])[|log|] == c;
  }

  lemma BorneGrows(log: seq<Call>, c: Call, answered: seq<nat>, failures: seq<Failure>, retried: set<nat>)
    requires Borne(log, answered, failures, retried)
    ensures Borne(log + [c], answered, failures, retried)
  {
    var more := log + [c];
    assert forall i | 0 <= i < |log| :: more[i] == log[i];
    forall p | p in answered ensures exists i | 0 <= i < |more| :: Answered(more[i], p) {
      var i :| 0 <= i < |log| && Answered(log[i], p);
      assert Answered(more[i], p);
    }
    forall p | p in retried ensures exists i | 0 <= i < |more| :: Omits(more[i], p) {
      var i :| 0 <= i < |log| && Omits(log[i], p);
      assert Omits(more[i], p);
    }
    forall f | f in failures ensures Justified(more, f) {
      JustifiedGrows(log, c, f);
    }
  }

  lemma JustifiedGrows(log: seq<Call>, c: Call, f: Failure)
    requires Justified(log, f)
    ensures Justified(log + [c], f)
  {
    var more := log + [c];
    match f.why
    case RejectedAlone =>
      var i :| 0 <= i < |log| && RejectsAlone(log[i], f.page);
      assert RejectsAlone(more[i], f.page);
    case OmittedTwice =>
      var i, j :| 0 <= i < j < |log| && Omits(log[i], f.page) && Omits(log[j], f.page);
      assert Omits(more[i], f.page) && Omits(more[j], f.page);
  }

  lemma AloneBorne(log: seq<Call>, page: nat, answered: seq<nat>, failures: seq<Failure>, retried: set<nat>)
    requires Borne(log, answered, failures, retried) && log != [] && RejectsAlone(log[|log| - 1], page)
    ensures Borne(log, answered, failures + [Failure(page, RejectedAlone)], retried)
  {
    assert Justified(log, Failure(page, RejectedAlone));
  }

  lemma AnswersBorne(log: seq<Call>, batch: seq<nat>, documents: seq<int>, ids: set<nat>, answered: seq<nat>,
                     failures: seq<Failure>, retried: set<nat>)
    requires |log| > 0 && log[|log| - 1] == Call(batch, Answers(documents))
    requires ids == AnsweredPages(batch, documents)
    requires Borne(log[..|log| - 1], answered, failures, retried)
    ensures var missing := Pick(batch, ids, false);
            Borne(log, answered + Pick(batch, ids, true), failures + Omitted(Pick(missing, retried, true)),
                  retried + PagesIn(Pick(missing, retried, false)))
  {
    var n, missing := |log| - 1, Pick(batch, ids, false);
    assert log == log[..n] + [log[n]];
    BorneGrows(log[..n], log[n], answered, failures, retried);
    PickMembers(batch, ids, true);
    PickMembers(batch, ids, false);
    PickMembers(missing, retried, true);
    PickMembers(missing, retried, false);
    forall p | p in Pick(batch, ids, true) ensures Answered(log[n], p) {
      var d :| d in documents && 1 <= d <= |batch| && batch[d - 1] == p;
      assert batch[d - 1] == p && (d - 1 + 1) in documents;
    }
    assert forall d | d in documents && 1 <= d <= |batch| :: batch[d - 1] in ids;
    forall p | p in missing ensures Omits(log[n], p) {
      var i :| 0 <= i < |batch| && batch[i] == p;
      assert batch[(i + 1) - 1] == p;
    }
    forall f | f in Omitted(Pick(missing, retried, true)) ensures Justified(log, f) {
      var k :| 0 <= k < |Pick(missing, retried, true)| && f == Failure(Pick(missing, retried, true)[k], OmittedTwice);
      assert f.page in Pick(missing, retried, true);
      var i :| 0 <= i < n && Omits(log[..n][i], f.page);
      assert Omits(log[i], f.page) && Omits(log[n], f.page);
    }
  }

  // ---------- one iteration ----------

  datatype Run = Run(queue: seq<seq<nat>>, retried: set<nat>, stored: set<nat>, analyzed: nat, failures: seq<Failure>,
                     budgetExhausted: bool, stopped: bool, answered: seq<nat>, pending: seq<nat>, log: seq<Call>)

  /** Versions whose analysis is kept when it comes back again. */
  function Kept(reanalyze: bool, stored: set<nat>): set<nat> {
    if reanalyze then {} else stored
  }

  function Step(reanalyze: bool, s: Run, r: Reply): Run
    requires s.queue != [] && s.queue[0] != []
  {
    var batch, queue, log := s.queue[0], s.queue[1..], s.log + [Call(s.queue[0], r)];
    match r
    case Halted(budget) =>
      s.(queue := [], pending := batch + Flatten(queue), budgetExhausted := s.budgetExhausted || budget,
         stopped := true, log := log)
    case Unusable =>
      if |batch| > 1 then
        var middle := |batch| / 2;
        s.(queue := [batch[..middle], batch[middle..]] + queue, log := log)
      else
        s.(queue := queue, failures := s.failures + [Failure(batch[0], RejectedAlone)], log := log)
    case Answers(documents) =>
      var ids := AnsweredPages(batch, documents);
      var outputs, missing := Pick(batch, ids, true), Pick(batch, ids, false);
      var retry, again := Pick(missing, s.retried, false), Pick(missing, s.retried, true);
      s.(queue := if retry != [] then queue + [retry] else queue, retried := s.retried + PagesIn(retry),
         stored := s.stored + PagesIn(outputs), analyzed := s.analyzed
             + |Pick(outputs, Kept(reanalyze, s.stored), false)|,
         failures := s.failures + Omitted(again), answered := s.answered + outputs, log := log)
  }

  /** What holds between iterations. */
  ghost predicate Going(all: seq<nat>, bound: int, earlier: set<nat>, reply: nat -> Reply, s: Run) {
    && Accounts(all, s.answered, s.failures, s.queue, s.retried, |s.log|, bound)
    && Borne(s.log, s.answered, s.failures, s.retried)
    && s.stored == earlier + PagesIn(s.answered) && !s.budgetExhausted && !s.stopped && s.pending == []
    && Follows(s.log, reply) && NoHalt(s.log)
  }

  /** What holds when the run is over. */
  ghost predicate Over(all: seq<nat>, bound: int, earlier: set<nat>, reply: nat -> Reply, s: Run) {
    && |s.log| <= bound
    && multiset(all) == multiset(s.answered) + multiset(PagesOf(s.failures)) + multiset(s.pending)
    && Borne(s.log, s.answered, s.failures, s.retried)
    && s.stored == earlier + PagesIn(s.answered) && Follows(s.log, reply)
    && (s.stopped <==> s.log != [] && s.log[|s.log| - 1].reply.Halted?) && (!s.stopped ==> s.pending == [])
  }

  lemma QueueHead(queue: seq<seq<nat>>)
    requires queue != [] && NoEmpty(queue)
    ensures queue[0] != [] && [queue[0]] + queue[1..] == queue
  {
  }

  /** Every iteration keeps the books, whatever the reply. */
  lemma StepKeeps(all: seq<nat>, bound: int, earlier: set<nat>, reply: nat -> Reply, reanalyze: bool, s: Run)
    requires Going(all, bound, earlier, reply, s) && Distinct(all) && s.queue != []
    ensures s.queue[0] != [] && Distinct(s.queue[0]) && |s.log| < bound
    ensures var next := Step(reanalyze, s, reply(|s.log|));
            if next.stopped then Over(all, bound, earlier, reply, next) else Going(all, bound, earlier, reply, next)
  {
    var r, batch, queue := reply(|s.log|), s.queue[0], s.queue[1..];
    var call := Call(batch, r);
    StillRoom(all, s.answered, s.failures, s.queue, s.retried, |s.log|, bound);
    QueueHead(s.queue);
    BatchIsDistinct(all, s.answered, s.failures, batch, queue);
    LogGrows(s.log, call, reply);
    match r
    case Halted(_) => HaltKeeps(all, bound, earlier, reply, reanalyze, s);
    case Unusable => RefusalKeeps(all, bound, earlier, reply, reanalyze, s);
    case Answers(documents) =>
      AnswersKeep(all, bound, earlier, reply, reanalyze, s);
  }

  lemma AnswersKeep(all: seq<nat>, bound: int, earlier: set<nat>, reply: nat -> Reply, reanalyze: bool, s: Run)
    requires Going(all, bound, earlier, reply, s) && Distinct(all) && s.queue != [] && s.queue[0] != []
    requires reply(|s.log|).Answers?
    ensures Going(all, bound, earlier, reply, Step(reanalyze, s, reply(|s.log|)))
  {
    var batch, queue, r := s.queue[0], s.queue[1..], reply(|s.log|);
    var call := Call(batch, r);
    var ids := AnsweredPages(batch, r.documents);
    QueueHead(s.queue);
    LogGrows(s.log, call, reply);
    assert (s.log + [call])[..|s.log|] == s.log;
    AnswersAccount(all, s.answered, s.failures, batch, queue, s.retried, |s.log| + 1, bound, ids);
    AnswersBorne(s.log + [call], batch, r.documents, ids, s.answered, s.failures, s.retried);
    var outputs := Pick(batch, ids, true);
    PagesInJoin(s.answered, outputs);
    assert (earlier + PagesIn(s.answered)) + PagesIn(outputs) == earlier + PagesIn(s.answered + outputs);
  }

  lemma HaltKeeps(all: seq<nat>, bound: int, earlier: set<nat>, reply: nat -> Reply, reanalyze: bool, s: Run)
    requires Going(all, bound, earlier, reply, s) && Distinct(all) && s.queue != [] && s.queue[0] != []
    requires reply(|s.log|).Halted?
    ensures Over(all, bound, earlier, reply, Step(reanalyze, s, reply(|s.log|)))
  {
    var call := Call(s.queue[0], reply(|s.log|));
    StillRoom(all, s.answered, s.failures, s.queue, s.retried, |s.log|, bound);
    LogGrows(s.log, call, reply);
    BorneGrows(s.log, call, s.answered, s.failures, s.retried);
  }

  lemma RefusalKeeps(all: seq<nat>, bound: int, earlier: set<nat>, reply: nat -> Reply, reanalyze: bool, s: Run)
    requires Going(all, bound, earlier, reply, s) && s.queue != [] && s.queue[0] != [] && reply(|s.log|).Unusable?
    ensures Going(all, bound, earlier, reply, Step(reanalyze, s, reply(|s.log|)))
  {
    var batch, queue := s.queue[0], s.queue[1..];
    var call := Call(batch, Unusable);
    QueueHead(s.queue);
    LogGrows(s.log, call, reply);
    BorneGrows(s.log, call, s.answered, s.failures, s.retried);
    if |batch| > 1 {
      SplitAccount(all, s.answered, s.failures, batch, queue, s.retried, |s.log| + 1, bound, |batch| / 2);
    } else {
      AloneAccount(all, s.answered, s.failures, batch, queue, s.retried, |s.log| + 1, bound);
      AloneBorne(s.log + [call], batch[0], s.answered, s.failures, s.retried);
    }
  }

  /** What the books mean for a page: it ended in exactly one of the three ways. */
  lemma EachPageEndsOnce(all: seq<nat>, answered: seq<nat>, failed: seq<nat>, pending: seq<nat>, p: nat)
    requires Distinct(all) && multiset(all) == multiset(answered) + multiset(failed) + multiset(pending)
    ensures p in all <==> p in answered || p in failed || p in pending
    ensures !(p in answered && p in failed) && !(p in answered && p in pending) && !(p in failed && p in pending)
  {
    DistinctOnce(all, p);
    assert p in all <==> p in multiset(all);
    assert p in answered <==> p in multiset(answered);
    assert p in failed <==> p in multiset(failed);
    assert p in pending <==> p in multiset(pending);
  }

  lemma StartsGoing(initial: seq<seq<nat>>, stored: set<nat>, reply: nat -> Reply)
    requires NoEmpty(initial)
    ensures var all := Flatten(initial);
            Going(all, 3 * |all| - |initial|, stored, reply, Run(initial, {}, stored, 0, [], false, false, [], [], []))
  {
    WeightTotal(initial);
    assert PagesIn([]) == {};
  }

  lemma EndsOver(all: seq<nat>, bound: int, earlier: set<nat>, reply: nat -> Reply, s: Run)
    requires Going(all, bound, earlier, reply, s) && Distinct(all) && s.queue == []
    ensures Over(all, bound, earlier, reply, s)
  {
    CallsAreBounded(all, s.answered, s.failures, s.queue, s.retried, |s.log|, bound);
  }

  // ---------- the run ----------

  class AnalysisRun {
    const reanalyze: bool
    var stored: set<nat>             // versions with an analysis
    var analyzed: nat                // summary.analyzed
    var failures: seq<Failure>       // analysis.failed events
    var batches: nat                 // summary.batches
    var budgetExhausted: bool
    var stopped: bool
    ghost var answered: seq<nat>     // pages whose analysis came back
    ghost var pending: seq<nat>      // pages the run gave up on when it halted
    ghost var log: seq<Call>

    constructor (reanalyze: bool, stored: set<nat>)
      ensures this.reanalyze == reanalyze && this.stored == stored
      ensures analyzed == 0 && failures == [] && batches == 0 && !budgetExhausted && !stopped
      ensures answered == [] && pending == [] && log == []
    {
      this.reanalyze, this.stored := reanalyze, stored;
      analyzed, failures, batches, budgetExhausted, stopped := 0, [], 0, false, false;
      answered, pending, log := [], [], [];
    }

    predicate IsHalted()
      reads this
    {
      budgetExhausted || stopped
    }

    method Halt(budget: bool)
      modifies this`budgetExhausted, this`stopped
      ensures IsHalted() && stopped
      ensures budgetExhausted == (old(budgetExhausted) || budget)
    {
      if budget {
        budgetExhausted := true;
      }
      stopped := true;
    }

    /** Never two analyses of one version: an existing one is kept, or replaced when reanalyzing. */
    method Persist(pages: seq<nat>)
      requires Distinct(pages)
      modifies this`stored, this`analyzed, this`answered
      ensures stored == old(stored) + PagesIn(pages)
      ensures analyzed == old(analyzed) + |Pick(pages, Kept(reanalyze, old(stored)), false)|
      ensures answered == old(answered) + pages
    {
      ghost var kept := Kept(reanalyze, stored);
      for i := 0 to |pages|
        invariant answered == old(answered) && stored == old(stored) + PagesIn(pages[..i])
        invariant analyzed + |Pick(pages[i..], kept, false)| == old(analyzed) + |Pick(pages, kept, false)|
      {
        PickHead(pages, i, kept, false);
        NextPage(pages, i);
        if pages[i] in stored && !reanalyze {
          continue;
        }
        stored := stored - {pages[i]};
        stored := stored + {pages[i]};
        analyzed := analyzed + 1;
      }
      assert pages[..|pages|] == pages;
      answered := answered + pages;
    }

    method Fail(page: nat, why: Reason)
      modifies this`failures
      ensures failures == old(failures) + [Failure(page, why)]
    {
      failures := failures + [Failure(page, why)];
    }

    /** The pages answered: the first output for each document counts, and unknown documents are ignored. */
    method Outputs(batch: seq<nat>, documents: seq<int>) returns (found: set<nat>)
      ensures found == AnsweredPages(batch, documents)
    {
      found := {};
      for i := 0 to |documents|
        invariant found == AnsweredPages(batch, documents[..i])
      {
        NextDocument(batch, documents, i);
        if 1 <= documents[i] <= |batch| && batch[documents[i] - 1] !in found {
          found := found + {batch[documents[i] - 1]};
        }
      }
      assert documents[..|documents|] == documents;
    }

    /** Pages left out of an answer for the second time fail. */
    method FailAgain(missing: seq<nat>, retried: set<nat>)
      modifies this`failures
      ensures failures == old(failures) + Omitted(Pick(missing, retried, true))
    {
      for i := 0 to |missing|
        invariant failures + Omitted(Pick(missing[i..], retried, true))
                  == old(failures) + Omitted(Pick(missing, retried, true))
      {
        PickHead(missing, i, retried, true);
        if missing[i] in retried {
          OmittedHead(missing[i], Pick(missing[i + 1..], retried, true));
          Fail(missing[i], OmittedTwice);
        }
      }
    }

    ghost predicate IsFresh()
      reads this
    {
      analyzed == 0 && failures == [] && batches == 0 && !budgetExhausted && !stopped && answered == [] && pending == []
          && log == []
    }

    ghost function View(queue: seq<seq<nat>>, retried: set<nat>): Run
      reads this
    {
      Run(queue, retried, stored, analyzed, failures, budgetExhausted, stopped, answered, pending, log)
    }

    /**
     * Whatever the replies, the run ends within 3N - B calls for N pages in B batches, and each page ends answered,
     * failed or, only after a halt, pending.
     */
    method Analyze(initial: seq<seq<nat>>, reply: nat -> Reply)
      requires IsFresh() && Distinct(Flatten(initial)) && NoEmpty(initial)
      modifies this
      ensures batches == |log| <= 3 * |Flatten(initial)| - |initial|
      ensures multiset(Flatten(initial)) == multiset(answered) + multiset(PagesOf(failures)) + multiset(pending)
      ensures IsHalted() <==> log != [] && log[|log| - 1].reply.Halted?
      ensures !IsHalted() ==> pending == []
      ensures stored == old(stored) + PagesIn(answered)
      ensures Borne(log, answered, failures, {}) && Follows(log, reply)
    {
      var queue, retried := initial, {};
      ghost var all := Flatten(initial);
      ghost var bound := 3 * |all| - |initial|;
      ghost var earlier := stored;
      ghost var s := View(queue, retried);
      StartsGoing(initial, stored, reply);
      while queue != []
        invariant s == View(queue, retried) && batches == |log|
        invariant Going(all, bound, earlier, reply, s)
        decreases bound - batches
      {
        StepKeeps(all, bound, earlier, reply, reanalyze, s);
        var r := reply(batches);
        s := Step(reanalyze, s, r);
        queue, retried := SendBatch(queue, retried, r);
        if stopped {
          return;
        }
      }
      EndsOver(all, bound, earlier, reply, s);
    }

    /** One turn of the loop: the first batch is sent, and `r` comes back. */
    method SendBatch(queue: seq<seq<nat>>, retried: set<nat>, r: Reply)
      returns (queue': seq<seq<nat>>, retried': set<nat>)
      requires queue != [] && queue[0] != [] && Distinct(queue[0])
      modifies this
      ensures View(queue', retried') == Step(reanalyze, old(View(queue, retried)), r)
      ensures batches == old(batches) + 1
    {
      var batch, rest := queue[0], queue[1..];
      assert [batch] + rest == queue;
      queue', retried' := rest, retried;
      batches := batches + 1;
      match r {
        case Halted(budget) =>
          Halt(budget);
          queue' := [];
          pending := batch + Flatten(rest);
        case Unusable =>
          if |batch| > 1 {
            var middle := |batch| / 2;
            queue' := [batch[..middle], batch[middle..]] + rest;
          } else {
            Fail(batch[0], RejectedAlone);
          }
        case Answers(documents) =>
          queue', retried' := TakeAnswers(batch, documents, rest, retried);
      }
      log := log + [Call(batch, r)];
    }

    /** A reply with some of the batch's documents: those are stored, the others retried once. */
    method TakeAnswers(batch: seq<nat>, documents: seq<int>, queue: seq<seq<nat>>, retried: set<nat>)
      returns (queue': seq<seq<nat>>, retried': set<nat>)
      requires Distinct(batch) && batch != []
      modifies this`stored, this`analyzed, this`answered, this`failures
      ensures var r, was := Answers(documents), old(View([batch] + queue, retried));
              View(queue', retried').(log := was.log + [Call(batch, r)]) == Step(reanalyze, was, r)
    {
      assert ([batch] + queue)[1..] == queue;
      var ids := Outputs(batch, documents);
      var outputs, missing := Pick(batch, ids, true), Pick(batch, ids, false);
      PickIsDistinct(batch, ids, true);
      Persist(outputs);
      var retry := Pick(missing, retried, false);
      FailAgain(missing, retried);
      retried' := retried + PagesIn(retry);
      queue' := if retry != [] then queue + [retry] else queue;
    }
  }
}
