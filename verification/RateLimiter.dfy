// Pacing, host by host.
module RateLimiter {
  // app/crawling/ratelimit.py: one request in flight per host, and a gap between them, whatever the tasks do.
  // A task's way through `slot` is cut at its awaits: waiting for the lock, asleep, sending.

  import opened Wrappers

  datatype Task =
    | Waiting(host: string, delay: int)
    | Asleep(host: string, delay: int, until: int)
    | Sending(host: string, delay: int)

  /** A request as it happened: its pace, when it started, and when it ended, if it has. */
  datatype Span = Span(delay: int, start: int, finish: Option<int>)

  /** `_locks` (which task holds a host's lock), `_last_finished`, and what the host has seen. */
  datatype Limiter = Limiter(now: int, tasks: map<nat, Task>, locks: map<string, nat>, lastFinished: map<string, int>,
                             seen: map<string, seq<Span>>)

  datatype Step =
    | Arrive(task: nat, host: string, delay: int)
    | Acquire(task: nat)
    | Wake(task: nat)
    | Finish(task: nat)       // the request ends, with a response or an error
    | Cancel(task: nat)
    | Tick(by': nat)

  const IDLE := Limiter(0, map[], map[], map[], map[])

  function Spans(s: Limiter, host: string): seq<Span> {
    if host in s.seen then s.seen[host] else []
  }

  /** How long a request has to wait still. */
  function Remaining(s: Limiter, host: string, delay: int): int {
    if host in s.lastFinished then delay - (s.now - s.lastFinished[host]) else 0
  }

  /** The request is sent. */
  function Begin(s: Limiter, task: nat, host: string, delay: int): Limiter {
    s.(tasks := s.tasks[task := Sending(host, delay)],
       seen := s.seen[host := Spans(s, host) + [Span(delay, s.now, None)]])
  }

  /** The lock is free for the next task. */
  function Leave(s: Limiter, task: nat, host: string): Limiter {
    s.(tasks := s.tasks - {task}, locks := s.locks - {host})
  }

  function Ended(spans: seq<Span>, now: int): seq<Span> {
    if spans == [] then [] else spans[..|spans| - 1] + [spans[|spans| - 1].(finish := Some(now))]
  }

  /** `finally`: the end is recorded whether the request succeeded, failed or was cancelled. */
  function End(s: Limiter, task: nat, host: string): Limiter {
    Leave(s.(lastFinished := s.lastFinished[host := s.now], seen := s.seen[host := Ended(Spans(s, host), s.now)]), task,
          host)
  }

  function Next(s: Limiter, step: Step): Limiter {
    match step
    case Arrive(task, host, delay) => if task in s.tasks then s else s.(tasks := s.tasks[task := Waiting(host, delay)])
    case Acquire(task) =>
      if task in s.tasks && s.tasks[task].Waiting? && s.tasks[task].host !in s.locks then
        var t := s.tasks[task];
        var held := s.(locks := s.locks[t.host := task]);
        if Remaining(s, t.host, t.delay) > 0 then
          held.(tasks := held.tasks[task := Asleep(t.host, t.delay, s.now + Remaining(s, t.host, t.delay))])
        else Begin(held, task, t.host, t.delay)
      else s
    case Wake(task) =>
      if task in s.tasks && s.tasks[task].Asleep? && s.now >= s.tasks[task].until
          then Begin(s, task, s.tasks[task].host, s.tasks[task].delay)
      else s
    case Finish(task) => if task in s.tasks && s.tasks[task].Sending? then End(s, task, s.tasks[task].host) else s
    case Cancel(task) =>
      if task !in s.tasks then s
      else
        (match s.tasks[task]
         case Waiting(_, _) => s.(tasks := s.tasks - {task})
         case Asleep(host, _, _) => Leave(s, task, host)
         case Sending(host, _) => End(s, task, host))
    case Tick(d) => s.(now := s.now + d)
  }

  function After(s: Limiter, steps: seq<Step>): Limiter
    decreases |steps|
  {
    if steps == [] then s else After(Next(s, steps[0]), steps[1..])
  }

  // ---------- pacing ----------

  /** Every request but the last has ended, and each starts at least its delay after the one before it ended. */
  ghost predicate Paced(spans: seq<Span>) {
    && (forall k | 0 <= k < |spans| - 1 :: spans[k].finish.Some?)
    && (forall k | 0 < k < |spans| :: Spaced(spans, k))
  }

  ghost predicate Spaced(spans: seq<Span>, k: nat)
    requires 0 < k < |spans|
  {
    spans[k - 1].finish.Some? && spans[k].start >= spans[k - 1].finish.value + spans[k].delay
  }

  predicate InFlight(spans: seq<Span>) {
    spans != [] && spans[|spans| - 1].finish.None?
  }

  /** The task that holds the host's lock is asleep or sending, and only then is a request in flight. */
  ghost predicate SoundHost(s: Limiter, host: string) {
    var spans := Spans(s, host);
    && Paced(spans)
    && (host in s.locks
        ==> s.locks[host] in s.tasks && !s.tasks[s.locks[host]].Waiting? && s.tasks[s.locks[host]].host == host)
    && (InFlight(spans) <==> host in s.locks && s.locks[host] in s.tasks && s.tasks[s.locks[host]].Sending?)
    && (host in s.lastFinished ==> s.lastFinished[host] <= s.now)
    && (!InFlight(spans) && spans != []
        ==> host in s.lastFinished && spans[|spans| - 1].finish == Some(s.lastFinished[host]))
    && (spans == [] ==> host !in s.lastFinished)
  }

  /** A task that is past the lock holds it; one that is asleep wakes late enough. */
  ghost predicate SoundTask(s: Limiter, task: nat)
    requires task in s.tasks
  {
    var t := s.tasks[task];
    && (!t.Waiting? ==> t.host in s.locks && s.locks[t.host] == task)
    && (t.Asleep? ==> t.host in s.lastFinished && t.until == s.lastFinished[t.host] + t.delay)
  }

  ghost predicate Sound(s: Limiter) {
    && (forall host: string :: SoundHost(s, host))
    && (forall task | task in s.tasks :: SoundTask(s, task))
  }

  lemma BeginKeeps(s: Limiter, task: nat, host: string, delay: int)
    requires Paced(Spans(s, host)) && !InFlight(Spans(s, host))
    requires Spans(s, host) != []
             ==> host in s.lastFinished && Spans(s, host)[|Spans(s, host)| - 1].finish == Some(s.lastFinished[host])
    requires host in s.lastFinished ==> s.now >= s.lastFinished[host] + delay
    ensures Paced(Spans(Begin(s, task, host, delay), host)) && InFlight(Spans(Begin(s, task, host, delay), host))
  {
    var spans, next := Spans(s, host), Spans(Begin(s, task, host, delay), host);
    forall k | 0 < k < |next| ensures Spaced(next, k) {
      assert k < |spans| ==> Spaced(spans, k);
    }
  }

  lemma EndKeeps(spans: seq<Span>, now: int)
    requires Paced(spans) && InFlight(spans)
    ensures Paced(Ended(spans, now)) && !InFlight(Ended(spans, now)) && Ended(spans, now) != []
    ensures Ended(spans, now)[|spans| - 1].finish == Some(now)
  {
    forall k | 0 < k < |spans| ensures Spaced(Ended(spans, now), k) {
      assert Spaced(spans, k);
    }
  }

  lemma DozeKeeps(s: Limiter, task: nat)
    requires Sound(s) && task in s.tasks && s.tasks[task].Waiting? && s.tasks[task].host !in s.locks
    requires Remaining(s, s.tasks[task].host, s.tasks[task].delay) > 0
    ensures Sound(Next(s, Acquire(task)))
  {
    var t, next := s.tasks[task], Next(s, Acquire(task));
    assert SoundHost(s, t.host);
    forall host: string ensures SoundHost(next, host) {
      assert SoundHost(s, host);
      assert host in s.locks ==> s.locks[host] != task;
    }
    forall u | u in next.tasks ensures SoundTask(next, u) {
      assert SoundTask(s, u);
    }
  }

  lemma SendAtOnceKeeps(s: Limiter, task: nat)
    requires Sound(s) && task in s.tasks && s.tasks[task].Waiting? && s.tasks[task].host !in s.locks
    requires Remaining(s, s.tasks[task].host, s.tasks[task].delay) <= 0
    ensures Sound(Next(s, Acquire(task)))
  {
    var t, next := s.tasks[task], Next(s, Acquire(task));
    assert SoundHost(s, t.host);
    BeginKeeps(s.(locks := s.locks[t.host := task]), task, t.host, t.delay);
    forall host: string ensures SoundHost(next, host) {
      assert SoundHost(s, host);
      assert host in s.locks ==> s.locks[host] != task;
    }
    forall u | u in next.tasks ensures SoundTask(next, u) {
      assert SoundTask(s, u);
    }
  }

  lemma WakeKeeps(s: Limiter, task: nat)
    requires Sound(s) && task in s.tasks && s.tasks[task].Asleep? && s.now >= s.tasks[task].until
    ensures Sound(Next(s, Wake(task)))
  {
    var t, next := s.tasks[task], Next(s, Wake(task));
    assert SoundTask(s, task) && SoundHost(s, t.host);
    BeginKeeps(s, task, t.host, t.delay);
    forall host: string ensures SoundHost(next, host) {
      assert SoundHost(s, host);
    }
    forall u | u in next.tasks ensures SoundTask(next, u) {
      assert SoundTask(s, u);
    }
  }

  lemma LeaveKeeps(s: Limiter, task: nat)
    requires Sound(s) && task in s.tasks && s.tasks[task].Asleep?
    ensures Sound(Leave(s, task, s.tasks[task].host))
  {
    var t, next := s.tasks[task], Leave(s, task, s.tasks[task].host);
    assert SoundTask(s, task);
    forall host: string ensures SoundHost(next, host) {
      assert SoundHost(s, host);
    }
    forall u | u in next.tasks ensures SoundTask(next, u) {
      assert SoundTask(s, u);
    }
  }

  lemma FinishKeeps(s: Limiter, task: nat)
    requires Sound(s) && task in s.tasks && s.tasks[task].Sending?
    ensures Sound(End(s, task, s.tasks[task].host))
  {
    var t, next := s.tasks[task], End(s, task, s.tasks[task].host);
    assert SoundTask(s, task) && SoundHost(s, t.host);
    EndKeeps(Spans(s, t.host), s.now);
    forall host: string ensures SoundHost(next, host) {
      assert SoundHost(s, host);
    }
    forall u | u in next.tasks ensures SoundTask(next, u) {
      assert SoundTask(s, u);
    }
  }

  lemma QuietKeeps(s: Limiter, step: Step)
    requires Sound(s) && (step.Arrive? || step.Tick?
                          || (step.Cancel? && step.task in s.tasks && s.tasks[step.task].Waiting?))
    ensures Sound(Next(s, step))
  {
    var next := Next(s, step);
    forall host: string ensures SoundHost(next, host) {
      assert SoundHost(s, host);
    }
    forall u | u in next.tasks ensures SoundTask(next, u) {
      if u in s.tasks {
        assert SoundTask(s, u);
      }
    }
  }

  lemma StepKeeps(s: Limiter, step: Step)
    requires Sound(s)
    ensures Sound(Next(s, step))
  {
    match step
    case Arrive(_, _, _) => QuietKeeps(s, step);
    case Acquire(task) =>
      if task in s.tasks && s.tasks[task].Waiting? && s.tasks[task].host !in s.locks {
        if Remaining(s, s.tasks[task].host, s.tasks[task].delay) > 0 {
          DozeKeeps(s, task);
        } else {
          SendAtOnceKeeps(s, task);
        }
      }
    case Wake(task) =>
      if task in s.tasks && s.tasks[task].Asleep? && s.now >= s.tasks[task].until {
        WakeKeeps(s, task);
      }
    case Finish(task) =>
      if task in s.tasks && s.tasks[task].Sending? {
        FinishKeeps(s, task);
      }
    case Cancel(task) =>
      if task in s.tasks {
        match s.tasks[task] {
          case Waiting(_, _) => QuietKeeps(s, step);
          case Asleep(_, _, _) => LeaveKeeps(s, task);
          case Sending(_, _) => FinishKeeps(s, task);
        }
      }
    case Tick(_) => QuietKeeps(s, step);
  }

  lemma {:induction false} RunKeeps(s: Limiter, steps: seq<Step>)
    requires Sound(s)
    ensures Sound(After(s, steps))
    decreases |steps|
  {
    if steps != [] {
      StepKeeps(s, steps[0]);
      RunKeeps(Next(s, steps[0]), steps[1..]);
    }
  }

  /**
   * In every interleaving of tasks, at most one request to a host is in flight, and each starts at least its delay
   * after the previous one to that host ended.
   */
  lemma EveryHostIsPaced(steps: seq<Step>, host: string)
    ensures Paced(Spans(After(IDLE, steps), host))
    ensures var s := After(IDLE, steps);
            forall a, b | a in s.tasks && b in s.tasks && s.tasks[a].Sending? && s.tasks[b].Sending?
                          && s.tasks[a].host == host && s.tasks[b].host == host :: a == b
  {
    RunKeeps(IDLE, steps);
    var s := After(IDLE, steps);
    assert SoundHost(s, host);
    forall a, b | a in s.tasks && b in s.tasks && s.tasks[a].Sending? && s.tasks[b].Sending? && s.tasks[a].host == host
        && s.tasks[b].host == host
      ensures a == b
    {
      assert SoundTask(s, a) && SoundTask(s, b);
    }
  }

  /** No host is ever locked for nothing: if its lock is held, some task is asleep or sending and will let go of it. */
  lemma NoLockIsLost(steps: seq<Step>, host: string)
    requires host in After(IDLE, steps).locks
    ensures var s := After(IDLE, steps);
            var task := s.locks[host];
            task in s.tasks && !s.tasks[task].Waiting? && host !in Next(s, Cancel(task)).locks
            && (s.tasks[task].Asleep?
                ==> host in s.lastFinished && s.tasks[task].until == s.lastFinished[host] + s.tasks[task].delay)
  {
    RunKeeps(IDLE, steps);
    var s := After(IDLE, steps);
    assert SoundHost(s, host) && SoundTask(s, s.locks[host]);
  }

  // ---------- the limiter, changed in place ----------

  class HostRateLimiter {
    var now: int
    var tasks: map<nat, Task>
    var locks: map<string, nat>
    var lastFinished: map<string, int>
    ghost var seen: map<string, seq<Span>>

    ghost function Value(): Limiter
      reads this
    {
      Limiter(now, tasks, locks, lastFinished, seen)
    }

    constructor ()
      ensures Value() == IDLE && Sound(Value())
    {
      now, tasks, locks, lastFinished := 0, map[], map[], map[];
      seen := map[];
      new;
      RunKeeps(IDLE, []);
    }

    /** Up to the lock. */
    method Enter(task: nat, host: string, delay: int)
      requires task !in tasks
      modifies this
      ensures Value() == Next(old(Value()), Arrive(task, host, delay))
    {
      tasks := tasks[task := Waiting(host, delay)];
    }

    /** With the lock: sleep for what remains of the delay, or send at once. */
    method TakeLock(task: nat) returns (sleep: int)
      requires task in tasks && tasks[task].Waiting? && tasks[task].host !in locks
      modifies this
      ensures Value() == Next(old(Value()), Acquire(task))
      ensures sleep > 0 <==> task in tasks && tasks[task].Asleep?
    {
      var t := tasks[task];
      locks := locks[t.host := task];
      sleep := 0;
      if t.host in lastFinished {
        sleep := t.delay - (now - lastFinished[t.host]);
      }
      if sleep > 0 {
        tasks := tasks[task := Asleep(t.host, t.delay, now + sleep)];
      } else {
        Send(task);
      }
    }

    /** After the sleep. */
    method Wake(task: nat)
      requires task in tasks && tasks[task].Asleep? && now >= tasks[task].until
      modifies this
      ensures Value() == Next(old(Value()), Step.Wake(task))
    {
      Send(task);
    }

    method Send(task: nat)
      requires task in tasks
      modifies this`tasks, this`seen
      ensures Value() == Begin(old(Value()), task, old(tasks)[task].host, old(tasks)[task].delay)
    {
      var t := tasks[task];
      seen := seen[t.host := Spans(Value(), t.host) + [Span(t.delay, now, None)]];
      tasks := tasks[task := Sending(t.host, t.delay)];
    }

    /** After the request, however it went. */
    method Exit(task: nat)
      requires task in tasks && tasks[task].Sending?
      modifies this
      ensures Value() == Next(old(Value()), Finish(task))
    {
      var host := tasks[task].host;
      seen := seen[host := Ended(Spans(Value(), host), now)];
      lastFinished := lastFinished[host := now];
      locks := locks - {host};
      tasks := tasks - {task};
    }

    /** Cancelled: `async with` gives the lock back, and `finally` records the end of a request under way. */
    method Cancel(task: nat)
      requires task in tasks
      modifies this
      ensures Value() == Next(old(Value()), Step.Cancel(task))
    {
      match tasks[task] {
        case Waiting(_, _) => tasks := tasks - {task};
        case Asleep(host, _, _) => locks, tasks := locks - {host}, tasks - {task};
        case Sending(_, _) => Exit(task);
      }
    }

    /** The clock goes on. */
    method Pass(by': nat)
      modifies this`now
      ensures Value() == Next(old(Value()), Tick(by'))
    {
      now := now + by';
    }
  }
}
