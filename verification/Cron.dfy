/** The job scheduler: when a job fires next, and how often it can be running. */
module CronJobs {
  import opened Names
  import opened Sequences

  const MINUTE: int := 60_000_000_000
  const DAY: int := 1440 * MINUTE

  datatype TimeOfDay = TimeOfDay(hour: int, minute: int)

  /** Daily at a UTC time, or at an interval, or neither. Times are nanoseconds of UTC. */
  datatype Schedule = Schedule(daily: Option<TimeOfDay>, every: int)

  /** The time of day as an offset from midnight. */
  function Offset(t: TimeOfDay): int {
    (t.hour * 60 + t.minute) * MINUTE
  }

  function Midnight(t: int): int {
    t - t % DAY
  }

  function Next(s: Schedule, from: int): int {
    if s.every > 0 then from + s.every
    else if s.daily.None? then from + DAY
    else
      var next := Midnight(from) + Offset(s.daily.value);
      if next > from then next else next + DAY
  }

  /** An instant at this time of day. */
  predicate AtTime(t: TimeOfDay, instant: int) {
    (instant - Offset(t)) % DAY == 0
  }

  /** That is, the clock shows this hour and minute, and no second more. */
  lemma AtTimeReads(t: TimeOfDay, instant: int)
    requires 0 <= t.hour < 24 && 0 <= t.minute < 60
    ensures AtTime(t, instant) <==>
            instant % 60_000_000_000 == 0 && instant / 60_000_000_000 % 60 == t.minute &&
            instant / 3_600_000_000_000 % 24 == t.hour
  {
    var minutes := instant / MINUTE;
    assert instant / 3_600_000_000_000 == minutes / 60;
    if AtTime(t, instant) { ReadsAt(t, instant); }
    if instant % MINUTE == 0 && minutes % 60 == t.minute && minutes / 60 % 24 == t.hour {
      var days := minutes / 60 / 24;
      assert minutes == (days * 24 + t.hour) * 60 + t.minute;
      assert instant - Offset(t) == days * DAY;
      Multiple(days);
    }
  }

  lemma ReadsAt(t: TimeOfDay, instant: int)
    requires 0 <= t.hour < 24 && 0 <= t.minute < 60 && AtTime(t, instant)
    ensures instant % MINUTE == 0 && instant / MINUTE % 60 == t.minute && instant / MINUTE / 60 % 24 == t.hour
  {
    var days := (instant - Offset(t)) / DAY;
    assert instant == (days * 1440 + t.hour * 60 + t.minute) * MINUTE;
    assert instant / MINUTE == days * 1440 + t.hour * 60 + t.minute;
  }

  /** The least instant strictly after `from` at this time of day. */
  ghost predicate Least(t: TimeOfDay, from: int, next: int) {
    && next > from && AtTime(t, next)
    && forall x | from < x < next :: !AtTime(t, x)
  }

  lemma MidnightBounds(t: int)
    ensures Midnight(t) <= t < Midnight(t) + DAY && Midnight(t) % DAY == 0
  {
    Multiple(t / DAY);
  }

  lemma Multiple(k: int)
    ensures (k * DAY) % DAY == 0
  {
  }

  /** Instants at one time of day lie whole days apart. */
  lemma WholeDays(t: TimeOfDay, a: int, b: int)
    requires AtTime(t, a) && AtTime(t, b) && a < b
    ensures a + DAY <= b
  {
    var o := Offset(t);
    assert a - o == ((a - o) / DAY) * DAY && b - o == ((b - o) / DAY) * DAY;
  }

  lemma DailyAt(t: TimeOfDay, from: int, days: int)
    ensures AtTime(t, Midnight(from) + Offset(t) + days * DAY)
  {
    assert Midnight(from) == (from / DAY) * DAY;
    Multiple(from / DAY + days);
    assert (from / DAY) * DAY + days * DAY == (from / DAY + days) * DAY;
  }

  /** The daily firing is the least instant after its argument at that time of day, exactly
      for the times of day from 00:00 to 24:00. */
  lemma DailyIsLeastExactly(t: TimeOfDay)
    ensures (forall from :: Least(t, from, Next(Schedule(Some(t), 0), from))) <==> 0 <= Offset(t) <= DAY
  {
    var s := Schedule(Some(t), 0);
    if 0 <= Offset(t) <= DAY {
      forall from ensures Least(t, from, Next(s, from)) { LeastInRange(t, from); }
    } else if Offset(t) < 0 {
      MidnightBounds(DAY - 1);
      assert Midnight(DAY - 1) == 0;
      assert !Least(t, DAY - 1, Next(s, DAY - 1));
    } else {
      assert Midnight(0) == 0;
      assert Next(s, 0) == Offset(t);
      DailyAt(t, 0, -1);
      assert AtTime(t, Offset(t) - DAY);
      assert !Least(t, 0, Next(s, 0));
    }
  }

  lemma LeastInRange(t: TimeOfDay, from: int)
    requires 0 <= Offset(t) <= DAY
    ensures Least(t, from, Next(Schedule(Some(t), 0), from))
  {
    var next := Next(Schedule(Some(t), 0), from);
    MidnightBounds(from);
    DailyAt(t, from, 0);
    DailyAt(t, from, 1);
    forall x | from < x < next ensures !AtTime(t, x) {
      if AtTime(t, x) { WholeDays(t, x, next); }
    }
  }

  /** A job never comes due again at once, exactly unless its daily time is negative. */
  lemma NextIsLaterExactly(s: Schedule)
    ensures (forall from :: Next(s, from) > from) <==> s.every > 0 || s.daily.None? || Offset(s.daily.value) >= 0
  {
    if s.every <= 0 && s.daily.Some? {
      if Offset(s.daily.value) >= 0 {
        forall from ensures Next(s, from) > from { MidnightBounds(from); }
      } else {
        assert Midnight(DAY - 1) == 0;
        assert !(Next(s, DAY - 1) > DAY - 1);
      }
    }
  }

  /** A job at an interval fires every so often, whatever its daily time: the nth firing of
      one run on time is n intervals on. One that has neither is parked a day ahead, for ever. */
  lemma {:induction false} FiresEvery(s: Schedule, from: int, n: nat)
    ensures s.every > 0 ==> NextAfter(s, from, n) == from + n * s.every
    ensures s.every <= 0 && s.daily.None? ==> NextAfter(s, from, n) == from + n * (24 * 3600 * 1_000_000_000)
  {
    if n > 0 { FiresEvery(s, from, n - 1); }
  }

  /** The nth firing of a job that is never late. */
  function NextAfter(s: Schedule, from: int, n: nat): int {
    if n == 0 then from else Next(s, NextAfter(s, from, n - 1))
  }

  // ---- the manager ----

  datatype JobState = JobState(schedule: Schedule, running: bool, nextRun: int)

  type Jobs = map<string, JobState>

  predicate IsDueAt(jobs: Jobs, name: string, now: int) {
    name in jobs && !jobs[name].running && jobs[name].nextRun <= now
  }

  function Started(st: JobState, now: int): JobState {
    st.(running := true, nextRun := Next(st.schedule, now))
  }

  /** The jobs after every due one among `names` was started. */
  function StartedAll(jobs: Jobs, names: seq<string>, now: int): Jobs {
    if names == [] then jobs
    else
      var before := StartedAll(jobs, names[..|names| - 1], now);
      var name := names[|names| - 1];
      if IsDueAt(before, name, now) then before[name := Started(before[name], now)] else before
  }

  function DueAmong(jobs: Jobs, names: seq<string>, now: int): seq<string> {
    if names == [] then []
    else
      var before := StartedAll(jobs, names[..|names| - 1], now);
      var name := names[|names| - 1];
      DueAmong(jobs, names[..|names| - 1], now) + (if IsDueAt(before, name, now) then [name] else [])
  }

  /** One pass starts exactly the jobs that were due, each once, and touches no other. */
  lemma {:induction false} PassStartsTheDue(jobs: Jobs, names: seq<string>, now: int)
    ensures Distinct(DueAmong(jobs, names, now))
    ensures forall n :: n in DueAmong(jobs, names, now) <==>
              n in names && n in jobs && !jobs[n].running && jobs[n].nextRun <= now
    ensures StartedAll(jobs, names, now).Keys == jobs.Keys
    ensures forall n | n in jobs :: StartedAll(jobs, names, now)[n] ==
              if n in DueAmong(jobs, names, now)
              then JobState(jobs[n].schedule, true, Next(jobs[n].schedule, now)) else jobs[n]
  {
    if names != [] {
      var front, name := names[..|names| - 1], names[|names| - 1];
      PassStartsTheDue(jobs, front, now);
      assert names == front + [name];
      assert name in DueAmong(jobs, front, now) ==> !IsDueAt(StartedAll(jobs, front, now), name, now);
    }
  }

  class Manager {
    var jobs: Jobs
    var order: seq<string>

    constructor ()
      ensures jobs == map[] && order == [] && Valid()
    {
      jobs, order := map[], [];
    }

    ghost predicate Valid()
      reads this
    {
      Distinct(order) && forall n :: n in order <==> n in jobs
    }

    /** A name already registered is left alone. */
    method Register(name: string, schedule: Schedule, now: int)
      requires Valid()
      modifies this
      ensures Valid()
      ensures if name in old(jobs) then jobs == old(jobs) && order == old(order)
              else jobs == old(jobs)[name := JobState(schedule, false, Next(schedule, now))] && order == old(order) + [name]
    {
      if name in jobs {
        return;
      }
      jobs := jobs[name := JobState(schedule, false, Next(schedule, now))];
      order := order + [name];
    }

    /** Marks every due job running and advances it, and says which to run. */
    method RunDue(now: int) returns (due: seq<string>)
      requires Valid()
      modifies this`jobs
      ensures Valid() && due == DueAmong(old(jobs), order, now) && jobs == StartedAll(old(jobs), order, now)
    {
      due := [];
      for i := 0 to |order|
        invariant jobs == StartedAll(old(jobs), order[..i], now) && jobs.Keys == old(jobs).Keys
        invariant due == DueAmong(old(jobs), order[..i], now)
      {
        var name := order[i];
        assert order[..i + 1][..i] == order[..i];
        assert name in order;
        var st := jobs[name];
        if !st.running && now >= st.nextRun {
          jobs := jobs[name := st.(running := true, nextRun := Next(st.schedule, now))];
          due := due + [name];
        }
      }
      assert order[..|order|] == order;
    }

    /** The manual trigger: refused for an unknown job or one that is running. */
    method RunNow(name: string) returns (started: bool)
      modifies this`jobs
      ensures started == (name in old(jobs) && !old(jobs)[name].running)
      ensures jobs == if started then old(jobs)[name := old(jobs)[name].(running := true)] else old(jobs)
    {
      if name !in jobs || jobs[name].running {
        return false;
      }
      jobs := jobs[name := jobs[name].(running := true)];
      return true;
    }

    /** The end of a run. */
    method Finished(name: string)
      requires name in jobs
      modifies this`jobs
      ensures jobs == old(jobs)[name := old(jobs)[name].(running := false)]
    {
      jobs := jobs[name := jobs[name].(running := false)];
    }
  }
}
