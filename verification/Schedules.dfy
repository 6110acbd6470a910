// The fire times of a schedule.
module Schedules {
  // app/scheduling/schedules.py: walking a schedule's fire times. Moments are microseconds, so that whole minutes,
  // whole seconds and what lies between them can be told apart.

  import opened Wrappers

  const SECOND := 1_000_000
  const MINUTE := 60 * SECOND
  const HOUR := 60 * MINUTE
  const MAX_CATCH_UP_STEPS := 20_000
  const MAX_CATCH_UP_HOURS := 168

  /** A cron trigger, by the first fire time at or after a moment. */
  datatype Trigger = Trigger(next: int -> Option<int>)

  predicate Fires(t: Trigger, m: int) {
    t.next(m) == Some(m)
  }

  ghost predicate NextIsLeast(t: Trigger, m: int) {
    match t.next(m)
    case None => forall f | m <= f :: !Fires(t, f)
    case Some(f) => m <= f && f % MINUTE == 0 && Fires(t, f) && forall g | m <= g < f :: !Fires(t, g)
  }

  /** A schedule fires on whole minutes, and `next` finds the earliest fire time. */
  ghost predicate Lawful(t: Trigger) {
    forall m :: NextIsLeast(t, m)
  }

  // ---------- latest_occurrence ----------

  function Walk(t: Trigger, current: int, now: int, latest: Option<int>, steps: nat): Option<int>
    decreases steps
  {
    if steps == 0 then latest
    else
      match t.next(current)
      case None => latest
      case Some(fire) => if fire > now then latest else Walk(t, fire + SECOND, now, Some(fire), steps - 1)
  }

  function LatestOccurrence(t: Trigger, after: int, now: int): Option<int> {
    Walk(t, after + SECOND, now, None, MAX_CATCH_UP_STEPS)
  }

  /** The bounded loop itself. */
  method WalkOccurrences(t: Trigger, after: int, now: int) returns (latest: Option<int>)
    ensures latest == LatestOccurrence(t, after, now)
  {
    latest := None;
    var current := after + SECOND;
    for step := 0 to MAX_CATCH_UP_STEPS
      invariant LatestOccurrence(t, after, now) == Walk(t, current, now, latest, MAX_CATCH_UP_STEPS - step)
    {
      var fire := t.next(current);
      if fire.None? || fire.value > now {
        break;
      }
      latest, current := fire, fire.value + SECOND;
    }
  }

  /** The fire times of a window. */
  ghost function FiresIn(t: Trigger, lo: int, hi: int): set<int> {
    set m | lo <= m <= hi && Fires(t, m)
  }

  /** `latest` is the last fire time of the window, or None when it has none. */
  ghost predicate IsLatest(t: Trigger, lo: int, hi: int, latest: Option<int>) {
    match latest
    case None => FiresIn(t, lo, hi) == {}
    case Some(f) => f in FiresIn(t, lo, hi) && forall g | g in FiresIn(t, lo, hi) :: g <= f
  }

  lemma FirstFire(t: Trigger, lo: int, hi: int)
    requires Lawful(t)
    ensures match t.next(lo)
            case None => FiresIn(t, lo, hi) == {}
            case Some(f) =>
              if f > hi then FiresIn(t, lo, hi) == {}
              else f !in FiresIn(t, f + SECOND, hi) && FiresIn(t, lo, hi) == {f} + FiresIn(t, f + SECOND, hi)
  {
    assert NextIsLeast(t, lo);
    match t.next(lo) {
      case None =>
      case Some(f) =>
        forall m | m in FiresIn(t, lo, hi) ensures m == f || f + SECOND <= m {
          assert NextIsLeast(t, m);
        }
    }
  }

  /** The walk ends on the last fire time exactly when there are no more than it has steps. */
  lemma {:induction false} WalkEnds(t: Trigger, current: int, now: int, latest: Option<int>, steps: nat)
    requires Lawful(t)
    ensures var r := Walk(t, current, now, latest, steps);
            var fires := FiresIn(t, current, now);
            if fires == {} then r == latest
            else if steps == 0 then r == latest
            else r.Some? && r.value in fires && ((forall g | g in fires :: g <= r.value) <==> |fires| <= steps)
    decreases steps
  {
    FirstFire(t, current, now);
    if steps > 0 {
      match t.next(current) {
        case None =>
        case Some(f) =>
          if f <= now {
            WalkEnds(t, f + SECOND, now, Some(f), steps - 1);
            LaterFires(t, current, f, now);
          }
      }
    }
  }

  lemma LaterFires(t: Trigger, current: int, f: int, now: int)
    requires Lawful(t) && t.next(current) == Some(f) && f <= now
    ensures var fires, rest := FiresIn(t, current, now), FiresIn(t, f + SECOND, now);
            && fires == {f} + rest && |fires| == |rest| + 1
            && (forall g | g in rest :: f < g)
  {
    FirstFire(t, current, now);
  }

  /**
   * `latest_occurrence` gives the last fire time from a second after `after` until `now`, or None, exactly when that
   * window holds no more than 20,000 fire times.
   */
  lemma LatestWhen(t: Trigger, after: int, now: int)
    requires Lawful(t)
    ensures IsLatest(t, after + SECOND, now, LatestOccurrence(t, after, now))
            <==> |FiresIn(t, after + SECOND, now)| <= MAX_CATCH_UP_STEPS
  {
    WalkEnds(t, after + SECOND, now, None, MAX_CATCH_UP_STEPS);
  }

  /** Fire times are at least a minute apart. */
  lemma {:induction false} FiresAreSparse(t: Trigger, lo: int, hi: int, minutes: nat)
    requires Lawful(t) && hi - lo < minutes * MINUTE
    ensures |FiresIn(t, lo, hi)| <= minutes
    decreases minutes
  {
    FirstFire(t, lo, hi);
    assert NextIsLeast(t, lo);
    match t.next(lo) {
      case None =>
      case Some(f) =>
        if f <= hi {
          LaterFires(t, lo, f, hi);
          SameFires(t, f, hi);
          FiresAreSparse(t, f + MINUTE, hi, minutes - 1);
        }
    }
  }

  lemma SameFires(t: Trigger, f: int, hi: int)
    requires Lawful(t) && Fires(t, f) && f % MINUTE == 0
    ensures FiresIn(t, f + SECOND, hi) == FiresIn(t, f + MINUTE, hi)
  {
    forall m | f + SECOND <= m <= hi && Fires(t, m) ensures f + MINUTE <= m {
      assert NextIsLeast(t, m);
      MinutesApart(f, m);
    }
  }

  lemma MinutesApart(f: int, m: int)
    requires f % MINUTE == 0 && m % MINUTE == 0 && f < m
    ensures f + MINUTE <= m
  {
  }

  /** So no catch-up the configuration allows is cut short. */
  lemma CatchUpIsExact(t: Trigger, after: int, now: int)
    requires Lawful(t) && now - after <= MAX_CATCH_UP_HOURS * HOUR
    ensures |FiresIn(t, after + SECOND, now)| <= 10_080
    ensures IsLatest(t, after + SECOND, now, LatestOccurrence(t, after, now))
  {
    FiresAreSparse(t, after + SECOND, now, 10_080);
    LatestWhen(t, after, now);
  }

  /**
   * The window is described as (after, now], but a fire time within a second of `after` is never found: the two differ
   * exactly when that is the only one.
   */
  lemma FirstSecondIsSkipped(t: Trigger, after: int, now: int)
    requires Lawful(t) && now - after <= MAX_CATCH_UP_HOURS * HOUR
    ensures IsLatest(t, after + 1, now, LatestOccurrence(t, after, now))
            <==> (FiresIn(t, after + 1, now) == {} || FiresIn(t, after + SECOND, now) != {})
  {
    CatchUpIsExact(t, after, now);
    var r := LatestOccurrence(t, after, now);
    assert FiresIn(t, after + SECOND, now) <= FiresIn(t, after + 1, now);
    if r.Some? {
      forall g | after + 1 <= g <= now && Fires(t, g) ensures g <= r.value {
        assert g < after + SECOND || g in FiresIn(t, after + SECOND, now);
      }
    }
  }

  /** The schedule that fires every minute, which is lawful. */
  function MinutelyNext(m: int): Option<int> {
    Some(if m % MINUTE == 0 then m else m - m % MINUTE + MINUTE)
  }

  lemma MinutelyIsLawful()
    ensures Lawful(Trigger(MinutelyNext))
  {
  }

  /** A fire time one microsecond after `after`, and now: it lies in (after, now], and is not found. */
  lemma FirstSecondIsMissed()
    ensures var t, after, now := Trigger(MinutelyNext), MINUTE - 1, MINUTE;
            Lawful(t) && now in FiresIn(t, after + 1, now)
                && !IsLatest(t, after + 1, now, LatestOccurrence(t, after, now))
  {
    MinutelyIsLawful();
    FirstSecondIsSkipped(Trigger(MinutelyNext), MINUTE - 1, MINUTE);
    assert MINUTE in FiresIn(Trigger(MinutelyNext), MINUTE, MINUTE);
  }

  // ---------- next_runs ----------

  method NextRuns(t: Trigger, now: int, count: nat) returns (runs: seq<int>)
    requires Lawful(t)
    ensures |runs| <= count
    ensures forall i, j | 0 <= i < j < |runs| :: runs[i] < runs[j]
    ensures runs != [] ==> (forall m :: m in FiresIn(t, now, runs[|runs| - 1]) <==> m in runs)
    ensures |runs| < count ==> forall m | m >= now && Fires(t, m) :: m in runs
  {
    runs := [];
    var current := now;
    while |runs| < count
      invariant |runs| <= count
      invariant runs == [] ==> current == now
      invariant runs != []
                ==> current == runs[|runs| - 1] + SECOND && now <= runs[|runs| - 1] && runs[|runs| - 1] % MINUTE == 0
      invariant forall i, j | 0 <= i < j < |runs| :: runs[i] < runs[j]
      invariant forall m :: m in runs <==> now <= m < current && Fires(t, m)
    {
      var fire := t.next(current);
      assert NextIsLeast(t, current);
      if fire.None? {
        break;
      }
      forall m | fire.value < m < fire.value + SECOND ensures !Fires(t, m) {
        assert NextIsLeast(t, m);
      }
      runs := runs + [fire.value];
      current := fire.value + SECOND;
    }
  }

  // ---------- minute_floor ----------

  function MinuteFloor(m: int): (r: int)
    ensures r % MINUTE == 0 && r <= m < r + MINUTE
  {
    m - m % MINUTE
  }
}
