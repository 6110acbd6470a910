// The job queue under several workers.
module JobQueue {
  // app/services/jobs.py and app/scheduling/worker.py: what several worker processes, starting and dying at any time,
  // make of scheduled occurrences. Each step is one database transaction, or one read, of one process.

  import opened Wrappers
  import opened Schedules

  datatype Status = Queued | Running | Completed | CompletedWithWarnings | Failed | Cancelled | Skipped

  /** What triggered a job. */
  datatype Cause = Schedule | CatchUp | Cli | Api | Retry

  /** "type@minute": the dedupe key of a scheduled occurrence. */
  datatype Key = Key(kind: nat, minute: int)

  datatype Job = Job(kind: nat, cause: Cause, scheduledFor: Option<int>, key: Option<Key>, recordedBy: nat,
                     status: Status, attempts: nat, runAfter: int, startedAt: Option<int>)

  predicate IsScheduled(cause: Cause) {
    cause == Schedule || cause == CatchUp
  }

  function KeyOf(kind: nat, occurrence: int): Key {
    Key(kind, occurrence / MINUTE)
  }

  // ---------- the queue ----------

  function FindKey(jobs: seq<Job>, key: Key): Option<nat> {
    if jobs == [] then None
    else if FindKey(jobs[..|jobs| - 1], key).Some? then FindKey(jobs[..|jobs| - 1], key)
    else if jobs[|jobs| - 1].key == Some(key) then Some(|jobs| - 1)
    else None
  }

  lemma {:induction false} FindKeyFinds(jobs: seq<Job>, key: Key)
    ensures var r := FindKey(jobs, key);
            if r.Some? then r.value < |jobs| && jobs[r.value].key == Some(key)
                else forall i | 0 <= i < |jobs| :: jobs[i].key != Some(key)
  {
    if jobs != [] {
      FindKeyFinds(jobs[..|jobs| - 1], key);
    }
  }

  datatype Enqueued = Enqueued(jobs: seq<Job>, id: nat, created: bool)

  /** One INSERT that does nothing when the key is taken: the job already there is returned instead. */
  function Enqueue(jobs: seq<Job>, job: Job): Enqueued {
    if job.key.Some? && FindKey(jobs, job.key.value).Some?
        then Enqueued(jobs, FindKey(jobs, job.key.value).value, false)
    else Enqueued(jobs + [job], |jobs|, true)
  }

  /** A job for an occurrence, or the record that it was skipped because the scheduler is paused. */
  function OccurrenceJob(kind: nat, occurrence: int, cause: Cause, paused: bool, by': nat, now: int): Job {
    Job(kind, cause, Some(occurrence), Some(KeyOf(kind, occurrence)), by', if paused then Skipped else Queued, 0, now,
        None)
  }

  /** The latest job a schedule created for this kind: by occurrence, then by id. */
  function LastScheduled(jobs: seq<Job>, kind: nat): Option<nat> {
    if jobs == [] then None
    else
      var n := |jobs| - 1;
      var earlier := LastScheduled(jobs[..n], kind);
      var j := jobs[n];
      if j.kind == kind && IsScheduled(j.cause) && j.scheduledFor.Some?
         && (earlier.None? || earlier.value >= n || jobs[earlier.value].scheduledFor.None?
             || j.scheduledFor.value >= jobs[earlier.value].scheduledFor.value) then Some(n)
      else earlier
  }

  lemma {:induction false} LastScheduledIsLast(jobs: seq<Job>, kind: nat)
    ensures var r := LastScheduled(jobs, kind);
            && (r.Some?
                ==> r.value < |jobs| && jobs[r.value].kind == kind && IsScheduled(jobs[r.value].cause)
                    && jobs[r.value].scheduledFor.Some?)
            && forall i | 0 <= i < |jobs| && jobs[i].kind == kind && IsScheduled(jobs[i].cause)
                && jobs[i].scheduledFor.Some? ::
                 r.Some? && jobs[i].scheduledFor.value <= jobs[r.value].scheduledFor.value
  {
    if jobs != [] {
      LastScheduledIsLast(jobs[..|jobs| - 1], kind);
    }
  }

  const MISFIRE_GRACE_SECONDS := 3600

  /** The occurrence a fire stands for: a late one still counts as the time it was meant for. */
  function FiredOccurrence(t: Trigger, now: int): int {
    var latest := LatestOccurrence(t, now - (MISFIRE_GRACE_SECONDS + 60) * SECOND, now);
    if latest.Some? then latest.value else MinuteFloor(now)
  }

  /** What a starting worker has to catch up on, for a schedule that ran before. */
  function MissedOccurrence(jobs: seq<Job>, kind: nat, t: Trigger, hours: nat, now: int): Option<int> {
    var last := LastScheduled(jobs, kind);
    if hours == 0 || last.None? || last.value >= |jobs| || jobs[last.value].scheduledFor.None? then None
    else
      var since := jobs[last.value].scheduledFor.value;
      LatestOccurrence(t, if since > now - hours * HOUR then since else now - hours * HOUR, now)
  }

  // ---------- processes ----------

  /** An occurrence a process is about to record; it reads whether the scheduler is paused first. */
  datatype Pending = Pending(kind: nat, occurrence: int, cause: Cause, paused: Option<bool>)

  /** One start of a worker. `looked` are the schedules its catch-up has been through. */
  datatype Process = Process(specs: map<nat, Trigger>, hours: nat, looked: set<nat>, pending: seq<Pending>,
                             tasks: set<nat>, executing: set<nat>)

  datatype System = System(jobs: seq<Job>, paused: bool, processes: map<nat, Process>, started: nat)

  datatype Step =
    | Boot(specs: map<nat, Trigger>, hours: nat)
    | Look(w: nat, kind: nat, now: int)                 // catch_up's turn for one schedule
    | Fire(w: nat, kind: nat, now: int)
    | ReadPause(w: nat, i: nat)
    | Record(w: nat, i: nat, now: int)                  // enqueue, and start the job if it is new
    | SetPause(paused: bool)
    | Submit(kind: nat, cause: Cause, now: int)         // by a person, or a retry: no occurrence
    | Launch(w: nat, job: nat)                          // a tick starts a due job
    | Claim(w: nat, job: nat, now: int)
    | Busy(w: nat, job: nat, later: int)
    | Finish(w: nat, job: nat, status: Status, later: int)
    | Interrupt(w: nat, job: nat, now: int)
    | Recover(job: nat, now: int, attemptsLeft: bool)
    | Supersede(job: nat, newer: nat)
    | Withdraw(job: nat)                                // cancelled by a person
    | Die(w: nat)

  function WithProcess(s: System, w: nat, p: Process): System {
    s.(processes := s.processes[w := p])
  }

  function WithJob(s: System, id: nat, job: Job): System
    requires id < |s.jobs|
  {
    s.(jobs := s.jobs[id := job])
  }

  function Drop<T>(xs: seq<T>, i: nat): seq<T>
    requires i < |xs|
  {
    xs[..i] + xs[i + 1..]
  }

  function LookStep(s: System, w: nat, kind: nat, now: int): System {
    if w in s.processes && kind in s.processes[w].specs && kind !in s.processes[w].looked then
      var p := s.processes[w];
      var missed := MissedOccurrence(s.jobs, kind, p.specs[kind], p.hours, now);
      var pending := if missed.Some? then p.pending + [Pending(kind, missed.value, CatchUp, None)] else p.pending;
      WithProcess(s, w, p.(looked := p.looked + {kind}, pending := pending))
    else s
  }

  function FireStep(s: System, w: nat, kind: nat, now: int): System {
    if w in s.processes && kind in s.processes[w].specs then
      var p := s.processes[w];
      WithProcess(s, w, p.(pending := p.pending + [Pending(kind, FiredOccurrence(p.specs[kind], now), Schedule, None)]))
    else s
  }

  function ReadStep(s: System, w: nat, i: nat): System {
    if w in s.processes && i < |s.processes[w].pending| then
      var p := s.processes[w];
      WithProcess(s, w, p.(pending := p.pending[i := p.pending[i].(paused := Some(s.paused))]))
    else s
  }

  function RecordStep(s: System, w: nat, i: nat, now: int): System {
    if w in s.processes && i < |s.processes[w].pending| && s.processes[w].pending[i].paused.Some? then
      var p := s.processes[w];
      var o := p.pending[i];
      var e := Enqueue(s.jobs, OccurrenceJob(o.kind, o.occurrence, o.cause, o.paused.value, w, now));
      var tasks := if e.created && !o.paused.value then p.tasks + {e.id} else p.tasks;
      WithProcess(s.(jobs := e.jobs), w, p.(pending := Drop(p.pending, i), tasks := tasks))
    else s
  }

  /** A step of a running job, by the process that executes it: the job's new status, and the process lets go of it. */
  function Release(s: System, w: nat, id: nat, job: Job): System
    requires w in s.processes && id < |s.jobs|
  {
    var p := s.processes[w];
    WithProcess(WithJob(s, id, job), w, p.(executing := p.executing - {id}, tasks := p.tasks - {id}))
  }

  predicate Executes(s: System, w: nat, id: nat) {
    w in s.processes && id in s.processes[w].executing && id < |s.jobs|
  }

  /** The conditional UPDATE by which one process gets a queued, due job. */
  predicate Claims(s: System, w: nat, id: nat, now: int) {
    w in s.processes && id in s.processes[w].tasks && id < |s.jobs| && s.jobs[id].status == Queued
        && s.jobs[id].runAfter <= now
  }

  function Claimed(j: Job, now: int): Job {
    j.(status := Running, attempts := j.attempts + 1, startedAt := if j.startedAt.Some? then j.startedAt else Some(now))
  }

  function Acquire(s: System, w: nat, id: nat, job: Job): System
    requires w in s.processes && id < |s.jobs|
  {
    WithProcess(WithJob(s, id, job), w, s.processes[w].(executing := s.processes[w].executing + {id}))
  }

  function Next(s: System, step: Step): System {
    match step
    case Boot(specs, hours) =>
      s.(processes := s.processes[s.started := Process(specs, hours, {}, [], {}, {})], started := s.started + 1)
    case Look(w, kind, now) => LookStep(s, w, kind, now)
    case Fire(w, kind, now) => FireStep(s, w, kind, now)
    case ReadPause(w, i) => ReadStep(s, w, i)
    case Record(w, i, now) => RecordStep(s, w, i, now)
    case SetPause(paused) => s.(paused := paused)
    case Submit(kind, cause, now) =>
      if IsScheduled(cause) then s
      else s.(jobs := s.jobs + [Job(kind, cause, None, None, s.started, Queued, 0, now, None)])
    case Launch(w, id) =>
      if w in s.processes && id < |s.jobs| then
        WithProcess(s, w, s.processes[w].(tasks := s.processes[w].tasks + {id}))
      else s
    case Claim(w, id, now) =>
      if Claims(s, w, id, now) then Acquire(s, w, id, Claimed(s.jobs[id], now)) else s
    case Busy(w, id, later) =>
      if Executes(s, w, id) then
        var j := s.jobs[id];
        Release(s, w, id, if j.attempts > 1 || j.cause == Retry
                then j.(status := Queued, attempts := if j.attempts > 0 then j.attempts - 1 else 0, runAfter := later)
                          else j.(status := Skipped))
      else s
    case Finish(w, id, status, later) =>
      if Executes(s, w, id) then
        Release(s, w, id, if status == Queued then s.jobs[id].(status := Queued, runAfter := later)
                else s.jobs[id].(status := status))
      else s
    case Interrupt(w, id, now) =>
      if Executes(s, w, id) then
        var j := s.jobs[id];
        Release(s, w, id, if j.status == Running
                then j.(status := Queued, runAfter := now, attempts := if j.attempts > 0 then j.attempts - 1 else 0)
                    else j)
      else s
    case Recover(id, now, attemptsLeft) =>
      if id < |s.jobs| && s.jobs[id].status == Running then
        WithJob(s, id, if attemptsLeft then s.jobs[id].(status := Queued, runAfter := now)
                else s.jobs[id].(status := Failed))
      else s
    case Supersede(id, newer) =>
      if id < |s.jobs| && newer < |s.jobs| && s.jobs[id].status == Queued && s.jobs[id].attempts == 0
          && IsScheduled(s.jobs[id].cause) then
        WithJob(s, id, s.jobs[id].(status := Skipped))
      else s
    case Withdraw(id) =>
      if id < |s.jobs| && s.jobs[id].status == Queued then WithJob(s, id, s.jobs[id].(status := Cancelled)) else s
    case Die(w) => s.(processes := s.processes - {w})
  }

  function After(s: System, steps: seq<Step>): System
    decreases |steps|
  {
    if steps == [] then s else After(Next(s, steps[0]), steps[1..])
  }

  const EMPTY := System([], false, map[], 0)

  ghost predicate LawfulStep(step: Step) {
    step.Boot? ==> forall kind | kind in step.specs :: Lawful(step.specs[kind])
  }

  // ---------- what every interleaving keeps ----------

  /** A scheduled job has the key of its occurrence, on a whole minute; no other job has one. */
  ghost predicate Keyed(j: Job) {
    if IsScheduled(j.cause) then
      j.scheduledFor.Some? && j.scheduledFor.value % MINUTE == 0 && j.key == Some(KeyOf(j.kind, j.scheduledFor.value))
    else j.key.None?
  }

  ghost predicate UniqueKeys(jobs: seq<Job>) {
    forall i, k | 0 <= i < |jobs| && 0 <= k < |jobs| && jobs[i].key.Some? && jobs[i].key == jobs[k].key :: i == k
  }

  /** A schedule fired for this kind before job `n`. */
  ghost predicate RanBefore(jobs: seq<Job>, kind: nat, n: int) {
    exists i :: 0 <= i < n && i < |jobs| && jobs[i].kind == kind && jobs[i].cause == Schedule
  }

  ghost predicate SoundJobs(jobs: seq<Job>) {
    && (forall i | 0 <= i < |jobs| :: Keyed(jobs[i]))
    && UniqueKeys(jobs)
    && (forall i | 0 <= i < |jobs| && jobs[i].cause == CatchUp :: RanBefore(jobs, jobs[i].kind, i))
  }

  /** Recorded by process `w` to catch up on `kind`. */
  predicate CaughtUpBy(j: Job, w: nat, kind: nat) {
    j.cause == CatchUp && j.recordedBy == w && j.kind == kind
  }

  predicate PendingCatchUp(o: Pending, kind: nat) {
    o.cause == CatchUp && o.kind == kind
  }

  ghost predicate SoundPending(jobs: seq<Job>, o: Pending) {
    && o.occurrence % MINUTE == 0 && IsScheduled(o.cause)
    && (o.cause == CatchUp ==> RanBefore(jobs, o.kind, |jobs|))
  }

  /** Each process catches up at most once on each schedule, and only on those it has looked at. */
  ghost predicate OnceOn(jobs: seq<Job>, w: nat, p: Process, kind: nat) {
    && (forall i | 0 <= i < |jobs| && CaughtUpBy(jobs[i], w, kind) ::
          kind in p.looked && forall k | 0 <= k < |p.pending| :: !PendingCatchUp(p.pending[k], kind))
    && (forall k | 0 <= k < |p.pending| && PendingCatchUp(p.pending[k], kind) ::
          kind in p.looked && forall l | 0 <= l < |p.pending| && PendingCatchUp(p.pending[l], kind) :: k == l)
  }

  ghost predicate SoundProcess(jobs: seq<Job>, w: nat, p: Process) {
    && (forall kind | kind in p.specs :: Lawful(p.specs[kind]))
    && (forall k | 0 <= k < |p.pending| :: SoundPending(jobs, p.pending[k]))
    && (forall kind :: OnceOn(jobs, w, p, kind))
    && (forall id | id in p.executing :: id < |jobs| && jobs[id].startedAt.Some?)
  }

  ghost predicate CaughtUpOnce(jobs: seq<Job>) {
    forall i, k | 0 <= i < |jobs| && 0 <= k < |jobs| && jobs[i].cause == CatchUp
        && CaughtUpBy(jobs[k], jobs[i].recordedBy, jobs[i].kind) :: i == k
  }

  ghost predicate Sound(s: System) {
    && SoundJobs(s.jobs) && CaughtUpOnce(s.jobs)
    && (forall w | w in s.processes :: w < s.started && SoundProcess(s.jobs, w, s.processes[w]))
    && (forall i | 0 <= i < |s.jobs| && s.jobs[i].cause == CatchUp :: s.jobs[i].recordedBy < s.started)
  }

  /** An occurrence recorded as skipped, without ever having started. */
  predicate Frozen(j: Job) {
    j.status == Skipped && j.startedAt.None?
  }

  /** What no step changes in a job. */
  ghost predicate KeepsJob(j: Job, next: Job) {
    && next.kind == j.kind && next.cause == j.cause && next.scheduledFor == j.scheduledFor && next.key == j.key
        && next.recordedBy == j.recordedBy
    && (Frozen(j) ==> next == j)
    && (j.startedAt.Some? ==> next.startedAt == j.startedAt)
  }

  ghost predicate Evolves(jobs: seq<Job>, next: seq<Job>) {
    |jobs| <= |next| && forall i | 0 <= i < |jobs| :: KeepsJob(jobs[i], next[i])
  }

  lemma EvolvesRefl(jobs: seq<Job>)
    ensures Evolves(jobs, jobs)
  {
  }

  lemma EvolvesOn(a: seq<Job>, b: seq<Job>, c: seq<Job>)
    requires Evolves(a, b) && Evolves(b, c)
    ensures Evolves(a, c)
  {
    forall i | 0 <= i < |a| ensures KeepsJob(a[i], c[i]) {
      assert KeepsJob(a[i], b[i]) && KeepsJob(b[i], c[i]);
    }
  }

  lemma RanBeforeStill(jobs: seq<Job>, next: seq<Job>, kind: nat, n: int)
    requires Evolves(jobs, next) && RanBefore(jobs, kind, n)
    ensures forall m | n <= m :: RanBefore(next, kind, m)
  {
    var i :| 0 <= i < n && i < |jobs| && jobs[i].kind == kind && jobs[i].cause == Schedule;
    assert KeepsJob(jobs[i], next[i]);
  }

  lemma ProcessStill(jobs: seq<Job>, next: seq<Job>, w: nat, p: Process)
    requires SoundProcess(jobs, w, p) && Evolves(jobs, next)
    requires forall i | |jobs| <= i < |next| :: next[i].cause == CatchUp ==> next[i].recordedBy != w
    ensures SoundProcess(next, w, p)
  {
    forall k | 0 <= k < |p.pending| ensures SoundPending(next, p.pending[k]) {
      assert SoundPending(jobs, p.pending[k]);
      if p.pending[k].cause == CatchUp {
        RanBeforeStill(jobs, next, p.pending[k].kind, |jobs|);
      }
    }
    forall kind ensures OnceOn(next, w, p, kind) {
      assert OnceOn(jobs, w, p, kind);
      forall i | 0 <= i < |next| && CaughtUpBy(next[i], w, kind) ensures i < |jobs| && CaughtUpBy(jobs[i], w, kind) {
        if i < |jobs| {
          assert KeepsJob(jobs[i], next[i]);
        }
      }
    }
    forall id | id in p.executing ensures id < |next| && next[id].startedAt.Some? {
      assert KeepsJob(jobs[id], next[id]);
    }
  }

  lemma UpdateKeepsJobs(jobs: seq<Job>, id: nat, job: Job)
    requires SoundJobs(jobs) && CaughtUpOnce(jobs) && id < |jobs| && KeepsJob(jobs[id], job)
    ensures SoundJobs(jobs[id := job]) && CaughtUpOnce(jobs[id := job]) && Evolves(jobs, jobs[id := job])
  {
    var next := jobs[id := job];
    assert Evolves(jobs, next);
    forall i | 0 <= i < |next| ensures Keyed(next[i])
        && (next[i].cause == CatchUp ==> RanBefore(next, next[i].kind, i)) {
      assert Keyed(jobs[i]);
      if next[i].cause == CatchUp {
        RanBeforeStill(jobs, next, jobs[i].kind, i);
      }
    }
    forall i, k | 0 <= i < |next| && 0 <= k < |next| && next[i].cause == CatchUp
        && CaughtUpBy(next[k], next[i].recordedBy, next[i].kind)
      ensures i == k
    {
      assert CaughtUpBy(jobs[k], jobs[i].recordedBy, jobs[i].kind);
    }
  }

  lemma UpdateKeeps(s: System, id: nat, job: Job)
    requires Sound(s) && id < |s.jobs| && KeepsJob(s.jobs[id], job)
    ensures Sound(WithJob(s, id, job)) && Evolves(s.jobs, WithJob(s, id, job).jobs)
  {
    UpdateKeepsJobs(s.jobs, id, job);
    var next := WithJob(s, id, job);
    forall w | w in next.processes ensures w < next.started && SoundProcess(next.jobs, w, next.processes[w]) {
      ProcessStill(s.jobs, next.jobs, w, s.processes[w]);
    }
  }

  lemma ProcessKeeps(s: System, w: nat, p: Process)
    requires Sound(s) && w < s.started && SoundProcess(s.jobs, w, p)
    ensures Sound(WithProcess(s, w, p))
  {
  }

  lemma ReleaseKeeps(s: System, w: nat, id: nat, job: Job)
    requires Sound(s) && Executes(s, w, id) && KeepsJob(s.jobs[id], job)
    ensures Sound(Release(s, w, id, job)) && Evolves(s.jobs, Release(s, w, id, job).jobs)
  {
    UpdateKeeps(s, id, job);
    var mid := WithJob(s, id, job);
    var p := s.processes[w];
    SameCatchUps(mid.jobs, w, p, p.(executing := p.executing - {id}, tasks := p.tasks - {id}));
    ProcessKeeps(mid, w, p.(executing := p.executing - {id}, tasks := p.tasks - {id}));
  }

  lemma SameCatchUps(jobs: seq<Job>, w: nat, p: Process, q: Process)
    requires SoundProcess(jobs, w, p) && q.specs == p.specs && q.looked == p.looked && q.pending == p.pending
    requires forall id | id in q.executing :: id < |jobs| && jobs[id].startedAt.Some?
    ensures SoundProcess(jobs, w, q)
  {
    forall kind ensures OnceOn(jobs, w, q, kind) {
      assert OnceOn(jobs, w, p, kind);
    }
  }

  lemma AcquireKeeps(s: System, w: nat, id: nat, job: Job)
    requires Sound(s) && w in s.processes && id < |s.jobs| && KeepsJob(s.jobs[id], job) && job.startedAt.Some?
    ensures Sound(Acquire(s, w, id, job)) && Evolves(s.jobs, Acquire(s, w, id, job).jobs)
  {
    UpdateKeeps(s, id, job);
    var mid, p := WithJob(s, id, job), s.processes[w];
    SameCatchUps(mid.jobs, w, p, p.(executing := p.executing + {id}));
    ProcessKeeps(mid, w, p.(executing := p.executing + {id}));
  }

  lemma LatestIsWhole(t: Trigger, after: int, now: int)
    requires Lawful(t) && LatestOccurrence(t, after, now).Some?
    ensures LatestOccurrence(t, after, now).value % MINUTE == 0
    ensures after + SECOND <= LatestOccurrence(t, after, now).value <= now
    ensures Fires(t, LatestOccurrence(t, after, now).value)
  {
    WalkEnds(t, after + SECOND, now, None, MAX_CATCH_UP_STEPS);
    var r := LatestOccurrence(t, after, now).value;
    assert NextIsLeast(t, r);
  }

  lemma LookKeeps(s: System, w: nat, kind: nat, now: int)
    requires Sound(s)
    ensures Sound(LookStep(s, w, kind, now))
  {
    if w in s.processes && kind in s.processes[w].specs && kind !in s.processes[w].looked {
      var p := s.processes[w];
      var missed := MissedOccurrence(s.jobs, kind, p.specs[kind], p.hours, now);
      var next := LookStep(s, w, kind, now).processes[w];
      if missed.Some? {
        MissedRanBefore(s.jobs, kind, p.specs[kind], p.hours, now);
        assert SoundPending(s.jobs, Pending(kind, missed.value, CatchUp, None));
      }
      forall k ensures OnceOn(s.jobs, w, next, k) {
        assert OnceOn(s.jobs, w, p, k);
      }
      ProcessKeeps(s, w, next);
    }
  }

  /** Only a schedule that fired before is ever caught up on. */
  lemma MissedRanBefore(jobs: seq<Job>, kind: nat, t: Trigger, hours: nat, now: int)
    requires SoundJobs(jobs) && Lawful(t) && MissedOccurrence(jobs, kind, t, hours, now).Some?
    ensures RanBefore(jobs, kind, |jobs|) && MissedOccurrence(jobs, kind, t, hours, now).value % MINUTE == 0
  {
    LastScheduledIsLast(jobs, kind);
    var last := LastScheduled(jobs, kind).value;
    var since := jobs[last].scheduledFor.value;
    LatestIsWhole(t, if since > now - hours * HOUR then since else now - hours * HOUR, now);
    if jobs[last].cause == CatchUp {
      assert RanBefore(jobs, kind, last);
    }
  }

  lemma FireKeeps(s: System, w: nat, kind: nat, now: int)
    requires Sound(s)
    ensures Sound(FireStep(s, w, kind, now))
  {
    if w in s.processes && kind in s.processes[w].specs {
      var p := s.processes[w];
      var next := FireStep(s, w, kind, now).processes[w];
      FiredIsWhole(p.specs[kind], now);
      forall k ensures OnceOn(s.jobs, w, next, k) {
        assert OnceOn(s.jobs, w, p, k);
      }
      ProcessKeeps(s, w, next);
    }
  }

  /** The trigger fired at `f`, at most the grace time ago, and not since. */
  ghost predicate MeantFor(t: Trigger, f: int, now: int) {
    Fires(t, f) && f <= now <= f + MISFIRE_GRACE_SECONDS * SECOND && forall g | f < g <= now :: !Fires(t, g)
  }

  /**
   * A late fire stands for the time it was meant for; so however late two workers are, they mean the same occurrence.
   */
  lemma LateFireIsMeant(t: Trigger, f: int, now: int, later: int)
    requires Lawful(t) && MeantFor(t, f, now) && MeantFor(t, f, later)
    ensures FiredOccurrence(t, now) == FiredOccurrence(t, later) == f
  {
    FiresOnTime(t, f, now);
    FiresOnTime(t, f, later);
  }

  lemma FiresOnTime(t: Trigger, f: int, now: int)
    requires Lawful(t) && MeantFor(t, f, now)
    ensures FiredOccurrence(t, now) == f
  {
    var after := now - (MISFIRE_GRACE_SECONDS + 60) * SECOND;
    CatchUpIsExact(t, after, now);
    assert f in FiresIn(t, after + SECOND, now);
  }

  lemma FiredIsWhole(t: Trigger, now: int)
    requires Lawful(t)
    ensures FiredOccurrence(t, now) % MINUTE == 0
  {
    if LatestOccurrence(t, now - (MISFIRE_GRACE_SECONDS + 60) * SECOND, now).Some? {
      LatestIsWhole(t, now - (MISFIRE_GRACE_SECONDS + 60) * SECOND, now);
    }
  }

  lemma ReadKeeps(s: System, w: nat, i: nat)
    requires Sound(s)
    ensures Sound(ReadStep(s, w, i))
  {
    if w in s.processes && i < |s.processes[w].pending| {
      var p := s.processes[w];
      var next := ReadStep(s, w, i).processes[w];
      forall k | 0 <= k < |next.pending| ensures SoundPending(s.jobs, next.pending[k]) {
        assert SoundPending(s.jobs, p.pending[k]);
      }
      forall kind ensures OnceOn(s.jobs, w, next, kind) {
        assert OnceOn(s.jobs, w, p, kind);
        forall k | 0 <= k < |next.pending| ensures PendingCatchUp(next.pending[k], kind)
            == PendingCatchUp(p.pending[k], kind) {
        }
      }
      ProcessKeeps(s, w, next);
    }
  }

  lemma AppendSound(jobs: seq<Job>, job: Job)
    requires SoundJobs(jobs) && Keyed(job) && (job.cause == CatchUp ==> RanBefore(jobs, job.kind, |jobs|))
    requires job.key.Some? ==> forall i | 0 <= i < |jobs| :: jobs[i].key != job.key
    ensures SoundJobs(jobs + [job]) && Evolves(jobs, jobs + [job])
  {
    var next := jobs + [job];
    forall i | 0 <= i < |jobs| ensures KeepsJob(jobs[i], next[i]) {
    }
    forall i | 0 <= i < |next| ensures Keyed(next[i])
        && (next[i].cause == CatchUp ==> RanBefore(next, next[i].kind, i)) {
      if i < |jobs| {
        assert Keyed(jobs[i]);
      }
      if next[i].cause == CatchUp {
        RanBeforeStill(jobs, next, next[i].kind, i);
      }
    }
  }

  lemma AppendOnce(jobs: seq<Job>, job: Job)
    requires CaughtUpOnce(jobs)
    requires job.cause == CatchUp ==> forall i | 0 <= i < |jobs| :: !CaughtUpBy(jobs[i], job.recordedBy, job.kind)
    ensures CaughtUpOnce(jobs + [job])
  {
    var next := jobs + [job];
    forall i, k | 0 <= i < |next| && 0 <= k < |next| && next[i].cause == CatchUp
        && CaughtUpBy(next[k], next[i].recordedBy, next[i].kind)
      ensures i == k
    {
      if i < |jobs| && k < |jobs| {
        assert CaughtUpBy(jobs[k], jobs[i].recordedBy, jobs[i].kind);
      } else if i < |jobs| {
        assert CaughtUpBy(jobs[i], job.recordedBy, job.kind);
      }
    }
  }

  /** Recording an occurrence: a key that is taken adds nothing. */
  lemma EnqueueKeeps(jobs: seq<Job>, o: Pending, w: nat, job: Job)
    requires SoundJobs(jobs) && CaughtUpOnce(jobs) && SoundPending(jobs, o)
    requires o.cause == CatchUp ==> forall i | 0 <= i < |jobs| :: !CaughtUpBy(jobs[i], w, o.kind)
    requires job.kind == o.kind && job.cause == o.cause && job.recordedBy == w
    requires job.scheduledFor == Some(o.occurrence) && job.key == Some(KeyOf(o.kind, o.occurrence))
    ensures var e := Enqueue(jobs, job);
            SoundJobs(e.jobs) && CaughtUpOnce(e.jobs) && Evolves(jobs, e.jobs) && e.id < |e.jobs|
            && e.jobs == if e.created then jobs + [job] else jobs
  {
    FindKeyFinds(jobs, job.key.value);
    EvolvesRefl(jobs);
    if Enqueue(jobs, job).created {
      AppendSound(jobs, job);
      AppendOnce(jobs, job);
    }
  }

  lemma DropKeepsOnce(jobs: seq<Job>, next: seq<Job>, w: nat, p: Process, q: Process, i: nat, kind: nat)
    requires i < |p.pending| && q.pending == Drop(p.pending, i) && q.looked == p.looked && OnceOn(jobs, w, p, kind)
    requires Evolves(jobs, next) && |next| <= |jobs| + 1
    requires |next| > |jobs| ==> next[|jobs|].cause == p.pending[i].cause && next[|jobs|].kind == p.pending[i].kind
    ensures OnceOn(next, w, q, kind)
  {
    var o := p.pending[i];
    forall k | 0 <= k < |q.pending| && PendingCatchUp(q.pending[k], kind)
      ensures var was := if k < i then k else k + 1;
              q.pending[k] == p.pending[was] && kind in q.looked && !PendingCatchUp(o, kind)
    {
      var was := if k < i then k else k + 1;
      assert q.pending[k] == p.pending[was];
    }
    forall k | 0 <= k < |next| && CaughtUpBy(next[k], w, kind)
      ensures kind in q.looked && forall l | 0 <= l < |q.pending| :: !PendingCatchUp(q.pending[l], kind)
    {
      if k < |jobs| {
        assert KeepsJob(jobs[k], next[k]);
        assert CaughtUpBy(jobs[k], w, kind);
      } else {
        assert PendingCatchUp(p.pending[i], kind);
      }
    }
  }

  lemma NotCaughtUpYet(jobs: seq<Job>, w: nat, p: Process, i: nat)
    requires SoundProcess(jobs, w, p) && i < |p.pending|
    ensures p.pending[i].cause == CatchUp ==> forall k | 0 <= k < |jobs| :: !CaughtUpBy(jobs[k], w, p.pending[i].kind)
  {
    assert OnceOn(jobs, w, p, p.pending[i].kind);
    if p.pending[i].cause == CatchUp {
      assert PendingCatchUp(p.pending[i], p.pending[i].kind);
    }
  }

  lemma RecordKeeps(s: System, w: nat, i: nat, now: int)
    requires Sound(s)
    ensures Sound(RecordStep(s, w, i, now)) && Evolves(s.jobs, RecordStep(s, w, i, now).jobs)
  {
    EvolvesRefl(s.jobs);
    if w in s.processes && i < |s.processes[w].pending| && s.processes[w].pending[i].paused.Some? {
      var p := s.processes[w];
      var o := p.pending[i];
      var job := OccurrenceJob(o.kind, o.occurrence, o.cause, o.paused.value, w, now);
      NotCaughtUpYet(s.jobs, w, p, i);
      EnqueueKeeps(s.jobs, o, w, job);
      var next := RecordStep(s, w, i, now);
      var q := next.processes[w];
      forall v | v in next.processes ensures v < next.started && SoundProcess(next.jobs, v, next.processes[v]) {
        if v == w {
          RecorderKeeps(s.jobs, next.jobs, w, p, q, i);
        } else {
          ProcessStill(s.jobs, next.jobs, v, s.processes[v]);
        }
      }
    }
  }

  lemma RecorderKeeps(jobs: seq<Job>, next: seq<Job>, w: nat, p: Process, q: Process, i: nat)
    requires SoundProcess(jobs, w, p) && i < |p.pending| && q == p.(pending := Drop(p.pending, i), tasks := q.tasks)
    requires Evolves(jobs, next) && |next| <= |jobs| + 1
    requires |next| > |jobs| ==> next[|jobs|].cause == p.pending[i].cause && next[|jobs|].kind == p.pending[i].kind
    ensures SoundProcess(next, w, q)
  {
    forall k | 0 <= k < |q.pending| ensures SoundPending(next, q.pending[k]) {
      var was := if k < i then k else k + 1;
      assert q.pending[k] == p.pending[was] && SoundPending(jobs, p.pending[was]);
      if q.pending[k].cause == CatchUp {
        RanBeforeStill(jobs, next, q.pending[k].kind, |jobs|);
      }
    }
    forall kind ensures OnceOn(next, w, q, kind) {
      assert OnceOn(jobs, w, p, kind);
      DropKeepsOnce(jobs, next, w, p, q, i, kind);
    }
    forall id | id in q.executing ensures id < |next| && next[id].startedAt.Some? {
      assert KeepsJob(jobs[id], next[id]);
    }
  }

  lemma SubmitKeeps(s: System, kind: nat, cause: Cause, now: int)
    requires Sound(s)
    ensures Sound(Next(s, Submit(kind, cause, now))) && Evolves(s.jobs, Next(s, Submit(kind, cause, now)).jobs)
  {
    EvolvesRefl(s.jobs);
    if !IsScheduled(cause) {
      var next := Next(s, Submit(kind, cause, now));
      AppendSound(s.jobs, next.jobs[|s.jobs|]);
      AppendOnce(s.jobs, next.jobs[|s.jobs|]);
      forall v | v in next.processes ensures v < next.started && SoundProcess(next.jobs, v, next.processes[v]) {
        ProcessStill(s.jobs, next.jobs, v, s.processes[v]);
      }
    }
  }

  lemma BootKeeps(s: System, specs: map<nat, Trigger>, hours: nat)
    requires Sound(s) && forall kind | kind in specs :: Lawful(specs[kind])
    ensures Sound(Next(s, Boot(specs, hours)))
  {
    var p := Process(specs, hours, {}, [], {}, {});
    forall kind ensures OnceOn(s.jobs, s.started, p, kind) {
    }
    assert SoundProcess(s.jobs, s.started, p);
  }

  /** Every step of every process keeps the queue sound. */
  lemma StepKeeps(s: System, step: Step)
    requires Sound(s) && LawfulStep(step)
    ensures Sound(Next(s, step)) && Evolves(s.jobs, Next(s, step).jobs)
  {
    EvolvesRefl(s.jobs);
    match step
    case Boot(specs, hours) => BootKeeps(s, specs, hours);
    case Look(w, kind, now) => LookKeeps(s, w, kind, now);
    case Fire(w, kind, now) => FireKeeps(s, w, kind, now);
    case ReadPause(w, i) => ReadKeeps(s, w, i);
    case Record(w, i, now) => RecordKeeps(s, w, i, now);
    case SetPause(paused) =>
    case Submit(kind, cause, now) => SubmitKeeps(s, kind, cause, now);
    case Launch(w, id) =>
      if w in s.processes && id < |s.jobs| {
        SameCatchUps(s.jobs, w, s.processes[w], s.processes[w].(tasks := s.processes[w].tasks + {id}));
        ProcessKeeps(s, w, s.processes[w].(tasks := s.processes[w].tasks + {id}));
      }
    case Claim(w, id, now) =>
      if Claims(s, w, id, now) {
        AcquireKeeps(s, w, id, Claimed(s.jobs[id], now));
      }
    case Busy(w, id, later) => ExecutionKeeps(s, step, w, id);
    case Finish(w, id, status, later) => ExecutionKeeps(s, step, w, id);
    case Interrupt(w, id, now) => ExecutionKeeps(s, step, w, id);
    case Recover(id, now, attemptsLeft) => QueueStepKeeps(s, step, id);
    case Supersede(id, newer) => QueueStepKeeps(s, step, id);
    case Withdraw(id) => QueueStepKeeps(s, step, id);
    case Die(w) =>
  }

  lemma ExecutionKeeps(s: System, step: Step, w: nat, id: nat)
    requires Sound(s) && (step.Busy? || step.Finish? || step.Interrupt?) && step.w == w && step.job == id
    ensures Sound(Next(s, step)) && Evolves(s.jobs, Next(s, step).jobs)
  {
    EvolvesRefl(s.jobs);
    if Executes(s, w, id) {
      assert SoundProcess(s.jobs, w, s.processes[w]);
      ReleaseKeeps(s, w, id, Next(s, step).jobs[id]);
    }
  }

  lemma QueueStepKeeps(s: System, step: Step, id: nat)
    requires Sound(s) && (step.Recover? || step.Supersede? || step.Withdraw?) && step.job == id
    ensures Sound(Next(s, step)) && Evolves(s.jobs, Next(s, step).jobs)
  {
    EvolvesRefl(s.jobs);
    if Next(s, step) != s {
      UpdateKeeps(s, id, Next(s, step).jobs[id]);
    }
  }

  lemma {:induction false} RunKeeps(s: System, steps: seq<Step>)
    requires Sound(s) && forall step | step in steps :: LawfulStep(step)
    ensures Sound(After(s, steps)) && Evolves(s.jobs, After(s, steps).jobs)
    decreases |steps|
  {
    EvolvesRefl(s.jobs);
    if steps != [] {
      StepKeeps(s, steps[0]);
      RunKeeps(Next(s, steps[0]), steps[1..]);
      EvolvesOn(s.jobs, Next(s, steps[0]).jobs, After(s, steps).jobs);
    }
  }

  // ---------- the guarantees ----------

  /** Whatever the processes do, a schedule never has two jobs for the same minute. */
  lemma OneJobPerOccurrence(steps: seq<Step>, i: nat, k: nat)
    requires forall step | step in steps :: LawfulStep(step)
    requires var jobs := After(EMPTY, steps).jobs;
             i < |jobs| && k < |jobs| && IsScheduled(jobs[i].cause) && IsScheduled(jobs[k].cause)
                 && jobs[i].kind == jobs[k].kind
             && jobs[i].scheduledFor.Some? && jobs[k].scheduledFor.Some?
             && jobs[i].scheduledFor.value / MINUTE == jobs[k].scheduledFor.value / MINUTE
    ensures i == k
  {
    RunKeeps(EMPTY, steps);
    var jobs := After(EMPTY, steps).jobs;
    assert Keyed(jobs[i]) && Keyed(jobs[k]);
  }

  /** A restart adds at most one job per schedule. */
  lemma OneCatchUpPerStart(steps: seq<Step>, i: nat, k: nat)
    requires forall step | step in steps :: LawfulStep(step)
    requires var jobs := After(EMPTY, steps).jobs;
             i < |jobs| && k < |jobs| && jobs[i].cause == CatchUp
                 && CaughtUpBy(jobs[k], jobs[i].recordedBy, jobs[i].kind)
    ensures i == k
  {
    RunKeeps(EMPTY, steps);
  }

  /** And none for a schedule that never fired. */
  lemma NoCatchUpBeforeAFire(steps: seq<Step>, i: nat)
    requires forall step | step in steps :: LawfulStep(step)
    requires var jobs := After(EMPTY, steps).jobs; i < |jobs| && jobs[i].cause == CatchUp
    ensures var jobs := After(EMPTY, steps).jobs;
            exists k :: 0 <= k < i && jobs[k].kind == jobs[i].kind && jobs[k].cause == Schedule
  {
    RunKeeps(EMPTY, steps);
    var jobs := After(EMPTY, steps).jobs;
    assert RanBefore(jobs, jobs[i].kind, i);
  }

  /** An occurrence read as paused is recorded as skipped, unless it has a job already. */
  lemma PausedIsSkipped(s: System, w: nat, i: nat, now: int)
    requires Sound(s) && w in s.processes && i < |s.processes[w].pending|
             && s.processes[w].pending[i].paused == Some(true)
    ensures var o := s.processes[w].pending[i];
            var next := RecordStep(s, w, i, now);
            && next.processes[w].tasks == s.processes[w].tasks
            && (next.jobs != s.jobs
                ==> next.jobs[..|s.jobs|] == s.jobs && |next.jobs| == |s.jobs| + 1 && Frozen(next.jobs[|s.jobs|]))
            && exists k :: 0 <= k < |next.jobs| && next.jobs[k].key == Some(KeyOf(o.kind, o.occurrence))
  {
    var o := s.processes[w].pending[i];
    FindKeyFinds(s.jobs, KeyOf(o.kind, o.occurrence));
    var e := Enqueue(s.jobs, OccurrenceJob(o.kind, o.occurrence, o.cause, true, w, now));
    assert e.id < |e.jobs| && e.jobs[e.id].key == Some(KeyOf(o.kind, o.occurrence));
    if e.created {
      assert (s.jobs + [e.jobs[|s.jobs|]])[..|s.jobs|] == s.jobs;
    }
  }

  /** Once recorded as skipped while paused, an occurrence is never started, whatever happens later. */
  lemma SkippedIsNeverStarted(s: System, steps: seq<Step>, i: nat)
    requires Sound(s) && forall step | step in steps :: LawfulStep(step)
    requires i < |s.jobs| && Frozen(s.jobs[i])
    ensures i < |After(s, steps).jobs| && After(s, steps).jobs[i] == s.jobs[i]
            && After(s, steps).jobs[i].startedAt.None?
    ensures forall w | w in After(s, steps).processes :: i !in After(s, steps).processes[w].executing
  {
    RunKeeps(s, steps);
    var later := After(s, steps);
    assert KeepsJob(s.jobs[i], later.jobs[i]);
    forall w | w in later.processes ensures i !in later.processes[w].executing {
      assert SoundProcess(later.jobs, w, later.processes[w]);
    }
  }
}
