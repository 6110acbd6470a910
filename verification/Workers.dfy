// One worker and its queue.
module Workers {
  // app/scheduling/worker.py: one worker, its schedules and the tasks it runs; and the queue's `due` and `enqueue`.

  import opened Wrappers
  import opened Schedules
  import opened JobQueue

  /** A configured schedule. */
  datatype Spec = Spec(kind: nat, trigger: Trigger)

  predicate OnePerKind(specs: seq<Spec>) {
    forall i, j | 0 <= i < |specs| && 0 <= j < |specs| && specs[i].kind == specs[j].kind :: i == j
  }

  // ---------- catch_up, undisturbed ----------

  /** One schedule's turn: at most one job, for the latest occurrence it missed. */
  function CatchUpOne(jobs: seq<Job>, spec: Spec, hours: nat, paused: bool, by': nat, now: int): seq<Job> {
    match MissedOccurrence(jobs, spec.kind, spec.trigger, hours, now)
    case None => jobs
    case Some(o) => Enqueue(jobs, OccurrenceJob(spec.kind, o, CatchUp, paused, by', now)).jobs
  }

  function CatchUpAll(jobs: seq<Job>, specs: seq<Spec>, hours: nat, paused: bool, by': nat, now: int): seq<Job>
    decreases |specs|
  {
    if specs == [] then jobs
    else CatchUpAll(CatchUpOne(jobs, specs[0], hours, paused, by', now), specs[1..], hours, paused, by', now)
  }

  /** Nothing is left to catch up on. */
  predicate UpToDate(jobs: seq<Job>, spec: Spec, hours: nat, now: int) {
    MissedOccurrence(jobs, spec.kind, spec.trigger, hours, now).None?
  }

  /** A job of another kind changes nothing. */
  lemma StaysUpToDate(jobs: seq<Job>, other: Spec, spec: Spec, hours: nat, paused: bool, by': nat, now: int)
    requires UpToDate(jobs, spec, hours, now) && other.kind != spec.kind
    ensures UpToDate(CatchUpOne(jobs, other, hours, paused, by', now), spec, hours, now)
  {
    var missed := MissedOccurrence(jobs, other.kind, other.trigger, hours, now);
    LastScheduledIsLast(jobs, spec.kind);
  }

  /** After the fire time just caught up on, the window holds no other. */
  lemma NothingAfterTheLatest(t: Trigger, after: int, later: int, now: int)
    requires Lawful(t) && now - after <= MAX_CATCH_UP_HOURS * HOUR
    requires LatestOccurrence(t, after, now).Some? && LatestOccurrence(t, after, now).value <= later
    ensures LatestOccurrence(t, later, now).None?
  {
    CatchUpIsExact(t, after, now);
    LatestIsWhole(t, after, now);
    CatchUpIsExact(t, later, now);
    assert FiresIn(t, later + SECOND, now) <= FiresIn(t, after + SECOND, now);
  }

  /** Where the search for a missed occurrence starts. */
  function SearchFrom(since: int, hours: nat, now: int): int {
    if since > now - hours * HOUR then since else now - hours * HOUR
  }

  /** With a job for the occurrence it missed, a schedule is up to date. */
  lemma CaughtUpIsUpToDate(jobs: seq<Job>, id: nat, spec: Spec, hours: nat, since: int, now: int)
    requires Lawful(spec.trigger) && hours <= MAX_CATCH_UP_HOURS && id < |jobs|
    requires jobs[id].kind == spec.kind && IsScheduled(jobs[id].cause)
    requires jobs[id].scheduledFor.Some? && jobs[id].scheduledFor
             == LatestOccurrence(spec.trigger, SearchFrom(since, hours, now), now)
    ensures UpToDate(jobs, spec, hours, now)
  {
    LastScheduledIsLast(jobs, spec.kind);
    var last := jobs[LastScheduled(jobs, spec.kind).value].scheduledFor.value;
    NothingAfterTheLatest(spec.trigger, SearchFrom(since, hours, now), SearchFrom(last, hours, now), now);
  }

  /** The job that stands for an occurrence after it was enqueued, new or not, is that occurrence's. */
  lemma EnqueuedStandsFor(jobs: seq<Job>, kind: nat, occurrence: int, cause: Cause, paused: bool, by': nat, now: int)
    requires (forall i | 0 <= i < |jobs| :: Keyed(jobs[i])) && occurrence % MINUTE == 0 && IsScheduled(cause)
    ensures var e := Enqueue(jobs, OccurrenceJob(kind, occurrence, cause, paused, by', now));
            && e.id < |e.jobs| && e.jobs[e.id].kind == kind && IsScheduled(e.jobs[e.id].cause)
            && e.jobs[e.id].scheduledFor == Some(occurrence) && forall i | 0 <= i < |e.jobs| :: Keyed(e.jobs[i])
  {
    FindKeyFinds(jobs, KeyOf(kind, occurrence));
    var e := Enqueue(jobs, OccurrenceJob(kind, occurrence, cause, paused, by', now));
    assert Keyed(e.jobs[e.id]) && e.jobs[e.id].key == Some(KeyOf(kind, occurrence));
  }

  /** A schedule's turn leaves it up to date, whether its job is new or was there already. */
  lemma CatchUpOneIsEnough(jobs: seq<Job>, spec: Spec, hours: nat, paused: bool, by': nat, now: int)
    requires forall i | 0 <= i < |jobs| :: Keyed(jobs[i])
    requires Lawful(spec.trigger) && hours <= MAX_CATCH_UP_HOURS
    ensures var next := CatchUpOne(jobs, spec, hours, paused, by', now);
            UpToDate(next, spec, hours, now) && forall i | 0 <= i < |next| :: Keyed(next[i])
  {
    var missed := MissedOccurrence(jobs, spec.kind, spec.trigger, hours, now);
    if missed.Some? {
      var since := jobs[LastScheduled(jobs, spec.kind).value].scheduledFor.value;
      LatestIsWhole(spec.trigger, SearchFrom(since, hours, now), now);
      EnqueuedStandsFor(jobs, spec.kind, missed.value, CatchUp, paused, by', now);
      var e := Enqueue(jobs, OccurrenceJob(spec.kind, missed.value, CatchUp, paused, by', now));
      CaughtUpIsUpToDate(e.jobs, e.id, spec, hours, since, now);
    }
  }

  lemma {:induction false} CatchUpAllKeepsUpToDate(jobs: seq<Job>, specs: seq<Spec>, spec: Spec, hours: nat,
                                                   paused: bool, by': nat, now: int)
    requires UpToDate(jobs, spec, hours, now) && forall i | 0 <= i < |specs| :: specs[i].kind != spec.kind
    ensures UpToDate(CatchUpAll(jobs, specs, hours, paused, by', now), spec, hours, now)
    decreases |specs|
  {
    if specs != [] {
      StaysUpToDate(jobs, specs[0], spec, hours, paused, by', now);
      CatchUpAllKeepsUpToDate(CatchUpOne(jobs, specs[0], hours, paused, by', now), specs[1..], spec, hours, paused, by',
                              now);
    }
  }

  lemma {:induction false} CatchUpAllIsEnough(jobs: seq<Job>, specs: seq<Spec>, hours: nat, paused: bool, by': nat,
                                              now: int)
    requires forall i | 0 <= i < |jobs| :: Keyed(jobs[i])
    requires OnePerKind(specs) && hours <= MAX_CATCH_UP_HOURS && forall i | 0 <= i < |specs| :: Lawful(specs[i].trigger)
    ensures forall i | 0 <= i < |specs| :: UpToDate(CatchUpAll(jobs, specs, hours, paused, by', now), specs[i], hours,
                                                    now)
    decreases |specs|
  {
    if specs != [] {
      var next := CatchUpOne(jobs, specs[0], hours, paused, by', now);
      CatchUpOneIsEnough(jobs, specs[0], hours, paused, by', now);
      CatchUpAllIsEnough(next, specs[1..], hours, paused, by', now);
      CatchUpAllKeepsUpToDate(next, specs[1..], specs[0], hours, paused, by', now);
      var end := CatchUpAll(jobs, specs, hours, paused, by', now);
      forall i | 0 <= i < |specs| ensures UpToDate(end, specs[i], hours, now) {
        assert i > 0 ==> specs[i] == specs[1..][i - 1];
      }
    }
  }

  lemma {:induction false} UpToDateAddsNothing(jobs: seq<Job>, specs: seq<Spec>, hours: nat, paused: bool, by': nat,
                                               now: int)
    requires forall i | 0 <= i < |specs| :: UpToDate(jobs, specs[i], hours, now)
    ensures CatchUpAll(jobs, specs, hours, paused, by', now) == jobs
    decreases |specs|
  {
    if specs != [] {
      assert forall i | 0 <= i < |specs[1..]| :: specs[1..][i] == specs[i + 1];
      UpToDateAddsNothing(jobs, specs[1..], hours, paused, by', now);
    }
  }

  /** A second catch-up at the same instant, by any worker, paused or not, enqueues nothing. */
  lemma SecondCatchUpAddsNothing(jobs: seq<Job>, specs: seq<Spec>, hours: nat, first: bool, second: bool, v: nat,
                                 w: nat, now: int)
    requires forall i | 0 <= i < |jobs| :: Keyed(jobs[i])
    requires OnePerKind(specs) && hours <= MAX_CATCH_UP_HOURS && forall i | 0 <= i < |specs| :: Lawful(specs[i].trigger)
    ensures var once := CatchUpAll(jobs, specs, hours, first, v, now);
           CatchUpAll(once, specs, hours, second, w, now) == once
  {
    CatchUpAllIsEnough(jobs, specs, hours, first, v, now);
    UpToDateAddsNothing(CatchUpAll(jobs, specs, hours, first, v, now), specs, hours, second, w, now);
  }

  // ---------- due ----------

  /** A scheduled occurrence that was never claimed. */
  predicate IsWaiting(j: Job) {
    IsScheduled(j.cause) && j.attempts == 0
  }

  function Moment(j: Job, now: int): int {
    if j.scheduledFor.Some? then j.scheduledFor.value else now
  }

  /** Of the waiting occurrences of a kind in `rows`, the latest; of equal ones, the first. */
  function Newest(jobs: seq<Job>, rows: seq<nat>, kind: nat, now: int): Option<nat> {
    if rows == [] then None
    else
      var best, id := Newest(jobs, rows[..|rows| - 1], kind, now), rows[|rows| - 1];
      if id < |jobs| && jobs[id].kind == kind && IsWaiting(jobs[id])
         && (best.None? || best.value >= |jobs| || Moment(jobs[id], now) > Moment(jobs[best.value], now)) then Some(id)
      else best
  }

  lemma {:induction false} NewestIsNewest(jobs: seq<Job>, rows: seq<nat>, kind: nat, now: int)
    requires forall k | 0 <= k < |rows| :: rows[k] < |jobs|
    ensures var best := Newest(jobs, rows, kind, now);
            && (best.Some?
                ==> best.value in rows && best.value < |jobs| && jobs[best.value].kind == kind
                    && IsWaiting(jobs[best.value]))
            && forall id | id in rows && jobs[id].kind == kind && IsWaiting(jobs[id]) ::
                 best.Some? && Moment(jobs[id], now) <= Moment(jobs[best.value], now)
  {
    if rows != [] {
      var n := |rows| - 1;
      NewestIsNewest(jobs, rows[..n], kind, now);
      assert rows == rows[..n] + [rows[n]];
    }
  }

  predicate IsSuperseded(jobs: seq<Job>, rows: seq<nat>, id: nat, now: int) {
    id < |jobs| && IsWaiting(jobs[id]) && Newest(jobs, rows, jobs[id].kind, now) != Some(id)
  }

  /** The rows that may start now, in the order they came. */
  function Startable(jobs: seq<Job>, rows: seq<nat>, all: seq<nat>, now: int): seq<nat> {
    if rows == [] then []
    else
      var n := |rows| - 1;
      Startable(jobs, rows[..n], all, now) + if IsSuperseded(jobs, all, rows[n], now) then [] else [rows[n]]
  }

  function Superseding(jobs: seq<Job>, rows: seq<nat>, now: int): seq<Job> {
    seq(|jobs|, i requires 0 <= i < |jobs| => if i in rows && IsSuperseded(jobs, rows, i, now)
        then jobs[i].(status := Skipped) else jobs[i])
  }

  lemma {:induction false} StartableAre(jobs: seq<Job>, rows: seq<nat>, all: seq<nat>, now: int)
    ensures forall id :: id in Startable(jobs, rows, all, now) <==> id in rows && !IsSuperseded(jobs, all, id, now)
  {
    if rows != [] {
      var n := |rows| - 1;
      StartableAre(jobs, rows[..n], all, now);
      assert rows == rows[..n] + [rows[n]];
    }
  }

  /** After an outage, only the latest of a schedule's waiting occurrences may start; the others are not replayed. */
  lemma OnlyTheLatestStarts(jobs: seq<Job>, rows: seq<nat>, x: nat, y: nat, now: int)
    requires forall k | 0 <= k < |rows| :: rows[k] < |jobs|
    requires x < |jobs| && x in Startable(jobs, rows, rows, now) && IsWaiting(jobs[x])
    requires y in rows && jobs[y].kind == jobs[x].kind && IsWaiting(jobs[y])
    ensures Moment(jobs[y], now) <= Moment(jobs[x], now)
    ensures y in Startable(jobs, rows, rows, now) <==> y == x
    ensures y != x ==> Superseding(jobs, rows, now)[y].status == Skipped
  {
    StartableAre(jobs, rows, rows, now);
    NewestIsNewest(jobs, rows, jobs[x].kind, now);
  }

  // ---------- tick ----------

  /** The jobs a tick starts: of each kind at most one, the first due, and none of a kind already running here. */
  function Launched(due: seq<(nat, nat)>, busy: set<nat>, tasks: set<nat>): seq<(nat, nat)> {
    if due == [] then []
    else if due[0].1 in busy || due[0].0 in tasks then Launched(due[1..], busy, tasks)
    else [due[0]] + Launched(due[1..], busy + {due[0].1}, tasks + {due[0].0})
  }

  lemma {:induction false} LaunchedAre(due: seq<(nat, nat)>, busy: set<nat>, tasks: set<nat>)
    ensures var run := Launched(due, busy, tasks);
            && (forall j | j in run :: j in due && j.1 !in busy && j.0 !in tasks)
            && (forall i, k | 0 <= i < |run| && 0 <= k < |run| && run[i].1 == run[k].1 :: i == k)
            && (forall j | j in due ::
                  j.1 in busy || j.0 in tasks || exists r :: r in run && (r.1 == j.1 || r.0 == j.0))
    decreases |due|
  {
    if due != [] {
      var d := due[0];
      if d.1 in busy || d.0 in tasks {
        LaunchedAre(due[1..], busy, tasks);
      } else {
        LaunchedAre(due[1..], busy + {d.1}, tasks + {d.0});
        var run, rest := Launched(due, busy, tasks), Launched(due[1..], busy + {d.1}, tasks + {d.0});
        assert run == [d] + rest;
        forall k | 1 <= k < |run| ensures run[k] == rest[k - 1] && run[k].1 != d.1 {
          assert rest[k - 1] in rest;
        }
        forall j | j in due ensures j.1 in busy || j.0 in tasks || exists r :: r in run && (r.1 == j.1 || r.0 == j.0) {
          assert d in run;
          if j != d {
            assert j in due[1..];
          }
        }
      }
    }
  }

  // ---------- the queue and a worker, changed in place ----------

  class JobService {
    var jobs: seq<Job>
    var paused: bool

    constructor ()
      ensures jobs == [] && !paused
    {
      jobs, paused := [], false;
    }

    /** Returns the occurrence's job, and whether it is new. */
    method Add(job: Job) returns (id: nat, created: bool)
      modifies this`jobs
      ensures Enqueued(jobs, id, created) == Enqueue(old(jobs), job) && id < |jobs|
    {
      if job.key.Some? {
        FindKeyFinds(jobs, job.key.value);
        for i := 0 to |jobs|
          invariant forall k | 0 <= k < i :: jobs[k].key != job.key
          invariant jobs == old(jobs)
        {
          if jobs[i].key == job.key {
            FindKeyFirst(jobs, job.key.value, i);
            return i, false;
          }
        }
      }
      jobs := jobs + [job];
      id, created := |jobs| - 1, true;
    }

    /** The latest waiting occurrence of each kind. */
    method NewestWaiting(rows: seq<nat>, now: int) returns (newest: map<nat, nat>)
      requires forall k | 0 <= k < |rows| :: rows[k] < |jobs|
      ensures forall kind :: kind in newest <==> Newest(jobs, rows, kind, now).Some?
      ensures forall kind | kind in newest :: Newest(jobs, rows, kind, now) == Some(newest[kind])
    {
      newest := map[];
      for k := 0 to |rows|
        invariant forall kind :: (kind in newest <==> Newest(jobs, rows[..k], kind, now).Some?)
                                 && (kind in newest
                                     ==> Newest(jobs, rows[..k], kind, now) == Some(newest[kind])
                                         && newest[kind] < |jobs|)
      {
        var job := jobs[rows[k]];
        assert rows[..k + 1][..k] == rows[..k];
        if IsWaiting(job) && (job.kind !in newest || Moment(job, now) > Moment(jobs[newest[job.kind]], now)) {
          newest := newest[job.kind := rows[k]];
        }
      }
      assert rows[..|rows|] == rows;
    }

    /** `due`, given the rows the query locked: waiting occurrences but the latest of each kind are skipped for good. */
    method Due(rows: seq<nat>, now: int) returns (ids: seq<nat>)
      requires forall k | 0 <= k < |rows| :: rows[k] < |jobs|
      modifies this`jobs
      ensures jobs == Superseding(old(jobs), rows, now)
      ensures ids == Startable(old(jobs), rows, rows, now)
    {
      var newest := NewestWaiting(rows, now);
      ghost var was := jobs;
      ids := [];
      for k := 0 to |rows|
        invariant |jobs| == |was| && ids == Startable(was, rows[..k], rows, now)
        invariant forall i | 0 <= i < |jobs| ::
                    jobs[i] == if i in rows[..k] && IsSuperseded(was, rows, i, now) then was[i].(status := Skipped)
                        else was[i]
      {
        var id := rows[k];
        assert rows[..k + 1] == rows[..k] + [id] && rows[..k + 1][..k] == rows[..k];
        if IsWaiting(jobs[id]) && jobs[id].kind in newest && newest[jobs[id].kind] != id {
          jobs := jobs[id := jobs[id].(status := Skipped)];
        } else {
          if IsWaiting(was[id]) {
            NewestIsNewest(was, rows, was[id].kind, now);
          }
          ids := ids + [id];
        }
      }
      assert rows[..|rows|] == rows;
    }
  }

  lemma {:induction false} FindKeyFirst(jobs: seq<Job>, key: Key, i: nat)
    requires i < |jobs| && jobs[i].key == Some(key) && forall k | 0 <= k < i :: jobs[k].key != Some(key)
    ensures FindKey(jobs, key) == Some(i)
    decreases |jobs|
  {
    FindKeyFinds(jobs[..|jobs| - 1], key);
    if i < |jobs| - 1 {
      FindKeyFirst(jobs[..|jobs| - 1], key, i);
    }
  }

  class Worker {
    const service: JobService
    const id: nat
    const specs: seq<Spec>
    const hours: nat
    var tasks: map<nat, nat>    // the jobs it runs, with their kinds

    constructor (service: JobService, id: nat, specs: seq<Spec>, hours: nat)
      ensures this.service == service && this.id == id && this.specs == specs && this.hours == hours && tasks == map[]
    {
      this.service, this.id, this.specs, this.hours, tasks := service, id, specs, hours, map[];
    }

    method Start(job: nat, kind: nat)
      modifies this`tasks
      ensures tasks == if job in old(tasks) then old(tasks) else old(tasks)[job := kind]
    {
      if job !in tasks {
        tasks := tasks[job := kind];
      }
    }

    /** An occurrence becomes a job, or while paused the record of a skipped one; only a new job is started. */
    method Occurrence(spec: Spec, occurrence: int, cause: Cause, now: int) returns (job: nat)
      modifies this`tasks, service`jobs
      ensures var e := Enqueue(old(service.jobs), OccurrenceJob(spec.kind, occurrence, cause, service.paused, id, now));
              && service.jobs == e.jobs && job == e.id && job < |service.jobs|
              && (if e.created && !service.paused && job !in old(tasks) then tasks == old(tasks)[job := spec.kind]
                  else tasks == old(tasks))
    {
      var created;
      if service.paused {
        job, created := service.Add(OccurrenceJob(spec.kind, occurrence, cause, true, id, now));
        return;
      }
      job, created := service.Add(OccurrenceJob(spec.kind, occurrence, cause, false, id, now));
      if created {
        Start(job, spec.kind);
      }
    }

    /** A timely or late fire: the occurrence it was meant for. */
    method Fire(spec: Spec, now: int) returns (job: nat)
      modifies this`tasks, service`jobs
      ensures var e := Enqueue(old(service.jobs),
                               OccurrenceJob(spec.kind, FiredOccurrence(spec.trigger, now), Schedule, service.paused,
                                             id, now));
              service.jobs == e.jobs && job == e.id && job < |service.jobs|
      ensures Lawful(spec.trigger) ==> forall f | MeantFor(spec.trigger, f, now) ::
                                        FiredOccurrence(spec.trigger, now) == f
    {
      forall f | Lawful(spec.trigger) && MeantFor(spec.trigger, f, now)
        ensures FiredOccurrence(spec.trigger, now) == f {
        FiresOnTime(spec.trigger, f, now);
      }
      var occurrence := WalkOccurrences(spec.trigger, now - (MISFIRE_GRACE_SECONDS + 60) * SECOND, now);
      job := Occurrence(spec, if occurrence.Some? then occurrence.value else MinuteFloor(now), Schedule, now);
    }

    /** `catch_up`: at most one job per schedule. */
    method CatchUpMissed(now: int) returns (caught: seq<nat>)
      modifies this`tasks, service`jobs
      ensures service.jobs == CatchUpAll(old(service.jobs), specs, hours, service.paused, id, now)
      ensures |caught| <= |specs| && |service.jobs| <= |old(service.jobs)| + |caught|
    {
      caught := [];
      if specs == [] || hours == 0 {
        UpToDateAddsNothing(service.jobs, specs, hours, service.paused, id, now);
        return;
      }
      ghost var was := service.jobs;
      for k := 0 to |specs|
        invariant CatchUpAll(was, specs, hours, service.paused, id, now)
                  == CatchUpAll(service.jobs, specs[k..], hours, service.paused, id, now)
        invariant |caught| <= k && |service.jobs| <= |was| + |caught|
      {
        var spec := specs[k];
        assert specs[k..][0] == spec && specs[k..][1..] == specs[k + 1..];
        var job := CatchUpOn(spec, now);
        if job.Some? {
          caught := caught + [job.value];
        }
      }
    }

    /** One schedule's turn. */
    method CatchUpOn(spec: Spec, now: int) returns (job: Option<nat>)
      requires hours > 0
      modifies this`tasks, service`jobs
      ensures service.jobs == CatchUpOne(old(service.jobs), spec, hours, service.paused, id, now)
      ensures |service.jobs| <= |old(service.jobs)| + (if job.Some? then 1 else 0)
    {
      LastScheduledIsLast(service.jobs, spec.kind);
      var last := LastScheduled(service.jobs, spec.kind);
      if last.None? {
        return None;
      }
      var since, earliest := service.jobs[last.value].scheduledFor.value, now - hours * HOUR;
      var missed := WalkOccurrences(spec.trigger, if since > earliest then since else earliest, now);
      assert missed == MissedOccurrence(service.jobs, spec.kind, spec.trigger, hours, now);
      if missed.None? {
        return None;
      }
      var id := Occurrence(spec, missed.value, CatchUp, now);
      job := Some(id);
    }

    /** `tick`, given what is due: at most one job of each kind, and none of a kind this worker already runs. */
    method Tick(due: seq<(nat, nat)>)
      modifies this`tasks
      ensures var run := Launched(due, old(tasks).Values, old(tasks).Keys);
              && tasks.Keys == old(tasks).Keys + (set j | j in run :: j.0)
              && (forall j | j in old(tasks) :: tasks[j] == old(tasks)[j])
              && (forall j | j in run :: j.0 in tasks && tasks[j.0] == j.1)
    {
      var busy := tasks.Values;
      ghost var was := tasks;
      ghost var run := Launched(due, was.Values, was.Keys);
      ghost var done: seq<(nat, nat)> := [];
      for k := 0 to |due|
        invariant run == done + Launched(due[k..], busy, tasks.Keys)
        invariant tasks.Keys == was.Keys + (set j | j in done :: j.0)
        invariant forall j | j in was :: j in tasks && tasks[j] == was[j]
        invariant forall j | j in done :: j.0 in tasks && tasks[j.0] == j.1
      {
        assert due[k..][0] == due[k] && due[k..][1..] == due[k + 1..];
        if due[k].1 in busy || due[k].0 in tasks {
          continue;
        }
        busy := busy + {due[k].1};
        ghost var before := tasks;
        Start(due[k].0, due[k].1);
        assert tasks.Keys == before.Keys + {due[k].0};
        done := done + [due[k]];
      }
    }
  }
}
