/** The scheduler over whole runs: ticks, manual triggers and completions in any order. */
module CronRuns {
  import opened Names
  import opened Sequences
  import opened CronJobs

  /** One run of a job. `slot` is the occurrence a scheduled run fires; a manual run has
      none. */
  datatype Exec = Exec(job: string, slot: Option<int>, over: bool)

  /** One scheduled occurrence that came due. */
  datatype Firing = Firing(job: string, slot: int)

  /** The scheduler loop: not started, waiting for a tick, starting the jobs of one pass, or
      gone. */
  datatype Loop = Idle(started: bool) | Launching(rest: seq<Firing>) | Stopped

  /** `waited` is whether a Wait that did not time out has returned. */
  datatype State = State(jobs: Jobs, order: seq<string>, loop: Loop, execs: seq<Exec>, fired: seq<Firing>, waited: bool)

  function Fresh(): State {
    State(map[], [], Idle(false), [], [], false)
  }

  datatype Act =
    | Register(name: string, schedule: Schedule, now: int)
    | Start
    | Tick(now: int)
    | Launch
    | Stop
    | RunNow(name: string)
    | Complete(i: nat)
    | WaitDone

  /** A schedule whose next firing is always later. */
  ghost predicate Advances(s: Schedule) {
    forall from :: Next(s, from) > from
  }

  ghost predicate Enabled(s: State, a: Act) {
    match a
    case Register(_, _, _) => s.loop == Idle(false)
    case Start => s.loop == Idle(false)
    case Tick(_) => s.loop == Idle(true)
    case Launch => s.loop.Launching? && s.loop.rest != []
    case Stop => s.loop == Idle(true)
    case RunNow(name) => name in s.jobs && !s.jobs[name].running
    case Complete(i) => i < |s.execs| && !s.execs[i].over && s.execs[i].job in s.jobs
    case WaitDone => s.loop.Stopped? && forall e | e in s.execs && e.slot.Some? :: e.over
  }

  function SlotOf(jobs: Jobs, name: string): int {
    if name in jobs then jobs[name].nextRun else 0
  }

  function Firings(jobs: Jobs, due: seq<string>): (fs: seq<Firing>)
    ensures |fs| == |due| && forall i | 0 <= i < |fs| :: fs[i] == Firing(due[i], SlotOf(jobs, due[i]))
  {
    seq(|due|, i requires 0 <= i < |due| => Firing(due[i], SlotOf(jobs, due[i])))
  }

  function Pass(s: State, now: int): State {
    var fs := Firings(s.jobs, DueAmong(s.jobs, s.order, now));
    s.(jobs := StartedAll(s.jobs, s.order, now), loop := if fs == [] then Idle(true) else Launching(fs), fired := s.fired + fs)
  }

  ghost function Do(s: State, a: Act): State
    requires Enabled(s, a)
  {
    match a
    case Register(name, schedule, now) =>
      if name in s.jobs then s
      else s.(jobs := s.jobs[name := JobState(schedule, false, Next(schedule, now))], order := s.order + [name])
    case Start => s.(loop := Idle(true))
    case Tick(now) => Pass(s, now)
    case Launch =>
      s.(loop := if |s.loop.rest| == 1 then Idle(true) else Launching(s.loop.rest[1..]),
         execs := s.execs + [Exec(s.loop.rest[0].job, Some(s.loop.rest[0].slot), false)])
    case Stop => s.(loop := Stopped)
    case RunNow(name) =>
      s.(jobs := s.jobs[name := s.jobs[name].(running := true)], execs := s.execs + [Exec(name, None, false)])
    case Complete(i) =>
      s.(jobs := s.jobs[s.execs[i].job := s.jobs[s.execs[i].job].(running := false)],
         execs := s.execs[i := s.execs[i].(over := true)])
    case WaitDone => s.(waited := true)
  }

  // ---- the invariant ----

  function Waiting(s: State): seq<Firing> {
    if s.loop.Launching? then s.loop.rest else []
  }

  /** One run of a job at a time, those about to be launched counted. */
  ghost predicate OneAtATime(s: State) {
    && (forall i | 0 <= i < |s.execs| && !s.execs[i].over :: s.execs[i].job in s.jobs && s.jobs[s.execs[i].job].running)
    && (forall i, j | 0 <= i < j < |s.execs| && !s.execs[i].over && !s.execs[j].over :: s.execs[i].job != s.execs[j].job)
    && (forall f | f in Waiting(s) :: f.job in s.jobs && s.jobs[f.job].running)
    && (forall i, j | 0 <= i < j < |Waiting(s)| :: Waiting(s)[i].job != Waiting(s)[j].job)
    && (forall f, i | f in Waiting(s) && 0 <= i < |s.execs| && !s.execs[i].over :: s.execs[i].job != f.job)
  }

  /** The occurrences of a job come in order, each once, the next one after all of them. */
  ghost predicate InOrder(s: State) {
    && (forall f | f in s.fired :: f.job in s.jobs && f.slot < s.jobs[f.job].nextRun)
    && (forall i, j | 0 <= i < j < |s.fired| && s.fired[i].job == s.fired[j].job :: s.fired[i].slot < s.fired[j].slot)
  }

  ghost predicate WaitedFor(s: State) {
    s.waited ==> s.loop.Stopped? && forall e | e in s.execs && e.slot.Some? :: e.over
  }

  ghost predicate Inv(s: State) {
    && Distinct(s.order) && (forall n :: n in s.order <==> n in s.jobs)
    && OneAtATime(s) && WaitedFor(s)
  }

  /** What holds besides where every schedule advances. */
  ghost predicate Advancing(s: State) {
    InOrder(s) && forall n | n in s.jobs :: Advances(s.jobs[n].schedule)
  }

  lemma TickKept(s: State, now: int)
    requires Inv(s) && s.loop == Idle(true)
    ensures Inv(Pass(s, now))
  {
    PassStartsTheDue(s.jobs, s.order, now);
    PassFirings(s, now);
    assert Waiting(Pass(s, now)) == Firings(s.jobs, DueAmong(s.jobs, s.order, now));
  }

  /** What a pass fires was due and is running from then on. */
  lemma PassFirings(s: State, now: int)
    requires Inv(s)
    ensures forall f | f in Firings(s.jobs, DueAmong(s.jobs, s.order, now)) ::
              && f.job in s.jobs && !s.jobs[f.job].running && f.slot == s.jobs[f.job].nextRun <= now
              && f.job in Pass(s, now).jobs && Pass(s, now).jobs[f.job] == Started(s.jobs[f.job], now)
  {
    PassStartsTheDue(s.jobs, s.order, now);
    var due := DueAmong(s.jobs, s.order, now);
    var fs := Firings(s.jobs, due);
    forall f | f in fs ensures f.job in due && f.slot == SlotOf(s.jobs, f.job) {
      var i :| 0 <= i < |fs| && fs[i] == f;
      assert due[i] in due;
    }
  }

  lemma TickAdvances(s: State, now: int)
    requires Inv(s) && Advancing(s)
    ensures Advancing(Pass(s, now))
  {
    PassStartsTheDue(s.jobs, s.order, now);
    PassFirings(s, now);
    var s', fs := Pass(s, now), Firings(s.jobs, DueAmong(s.jobs, s.order, now));
    forall f | f in fs ensures f.slot < s'.jobs[f.job].nextRun {
      assert Advances(s.jobs[f.job].schedule);
    }
    forall n | n in s'.jobs
      ensures Advances(s'.jobs[n].schedule) && s.jobs[n].nextRun <= s'.jobs[n].nextRun
    {
      assert Advances(s.jobs[n].schedule);
    }
    FiringsInOrder(s, s', fs, now);
  }

  lemma FiringsInOrder(s: State, s': State, fs: seq<Firing>, now: int)
    requires InOrder(s) && s'.fired == s.fired + fs && s'.jobs.Keys == s.jobs.Keys
    requires forall i, j | 0 <= i < j < |fs| :: fs[i].job != fs[j].job
    requires forall f | f in fs :: f.job in s.jobs && f.slot == s.jobs[f.job].nextRun < s'.jobs[f.job].nextRun
    requires forall n | n in s.jobs :: s.jobs[n].nextRun <= s'.jobs[n].nextRun
    ensures InOrder(s')
  {
    forall i, j | 0 <= i < j < |s'.fired| && s'.fired[i].job == s'.fired[j].job
      ensures s'.fired[i].slot < s'.fired[j].slot
    {
      if i < |s.fired| <= j {
        assert s.fired[i] in s.fired && fs[j - |s.fired|] in fs;
      }
    }
  }

  lemma LaunchKept(s: State)
    requires Inv(s) && Enabled(s, Launch)
    ensures Inv(Do(s, Launch))
  {
    var s' := Do(s, Launch);
    var f := s.loop.rest[0];
    assert f in Waiting(s);
    assert forall g | g in Waiting(s') :: g in s.loop.rest[1..] && g in s.loop.rest;
    forall g, i | g in Waiting(s') && 0 <= i < |s'.execs| && !s'.execs[i].over
      ensures s'.execs[i].job != g.job
    {
      var k :| 0 <= k < |s.loop.rest[1..]| && s.loop.rest[1..][k] == g;
      assert s.loop.rest[k + 1] == g && g in Waiting(s);
    }
  }

  lemma CompleteKept(s: State, i: nat)
    requires Inv(s) && Enabled(s, Complete(i))
    ensures Inv(Do(s, Complete(i)))
  {
    var s', name := Do(s, Complete(i)), s.execs[i].job;
    forall e | e in s'.execs && e.slot.Some? && s.waited ensures e.over {
      var k :| 0 <= k < |s'.execs| && s'.execs[k] == e;
      assert s.execs[k] in s.execs;
    }
  }

  lemma RunNowKept(s: State, name: string)
    requires Inv(s) && Enabled(s, RunNow(name))
    ensures Inv(Do(s, RunNow(name)))
  {
    var s' := Do(s, RunNow(name));
    assert OneAtATime(s');
  }

  lemma RegisterKept(s: State, name: string, schedule: Schedule, now: int)
    requires Inv(s) && Enabled(s, Register(name, schedule, now))
    ensures Inv(Do(s, Register(name, schedule, now)))
  {
  }

  lemma InvKept(s: State, a: Act)
    requires Inv(s) && Enabled(s, a)
    ensures Inv(Do(s, a))
  {
    match a {
      case Register(name, schedule, now) => RegisterKept(s, name, schedule, now);
      case Tick(now) => TickKept(s, now);
      case Launch => LaunchKept(s);
      case RunNow(name) => RunNowKept(s, name);
      case Complete(i) => CompleteKept(s, i);
      case _ =>
    }
  }

  lemma AdvancingKept(s: State, a: Act)
    requires Inv(s) && Advancing(s) && Enabled(s, a) && (a.Register? ==> Advances(a.schedule))
    ensures Advancing(Do(s, a))
  {
    if a.Tick? { TickAdvances(s, a.now); }
  }

  // ---- over whole runs ----

  ghost predicate Runs(s: State, acts: seq<Act>)
    decreases |acts|
  {
    acts == [] || (Enabled(s, acts[0]) && Runs(Do(s, acts[0]), acts[1..]))
  }

  ghost function Reached(s: State, acts: seq<Act>): State
    requires Runs(s, acts)
    decreases |acts|
  {
    if acts == [] then s else Reached(Do(s, acts[0]), acts[1..])
  }

  lemma {:induction false} InvReached(s: State, acts: seq<Act>)
    requires Inv(s) && Runs(s, acts)
    ensures Inv(Reached(s, acts))
    decreases |acts|
  {
    if acts != [] {
      InvKept(s, acts[0]);
      InvReached(Do(s, acts[0]), acts[1..]);
    }
  }

  ghost predicate OneRun(s: State) {
    forall i, j | 0 <= i < j < |s.execs| && !s.execs[i].over && !s.execs[j].over :: s.execs[i].job != s.execs[j].job
  }

  ghost predicate FiredOnce(s: State) {
    forall i, j | 0 <= i < j < |s.fired| :: s.fired[i] != s.fired[j]
  }

  /** In every interleaving of ticks, manual triggers and completions, whatever the
      schedules, no two runs of one job are in progress. */
  lemma OneRunAtATime(acts: seq<Act>)
    requires Runs(Fresh(), acts)
    ensures OneRun(Reached(Fresh(), acts))
  {
    InvReached(Fresh(), acts);
  }

  /** A run that registers no schedule but these. */
  ghost predicate Registers(allowed: set<Schedule>, acts: seq<Act>) {
    forall a | a in acts && a.Register? :: a.schedule in allowed
  }

  /** Not daily at a negative time. */
  predicate TimeIsNotNegative(s: Schedule) {
    s.every > 0 || s.daily.None? || Offset(s.daily.value) >= 0
  }

  lemma {:induction false} AdvancingReached(allowed: set<Schedule>, s: State, acts: seq<Act>)
    requires Inv(s) && Advancing(s) && Runs(s, acts) && Registers(allowed, acts) && forall x | x in allowed :: Advances(x)
    ensures Advancing(Reached(s, acts))
    decreases |acts|
  {
    if acts != [] {
      assert acts[0] in acts && forall a | a in acts[1..] :: a in acts;
      InvKept(s, acts[0]);
      AdvancingKept(s, acts[0]);
      AdvancingReached(allowed, Do(s, acts[0]), acts[1..]);
    }
  }

  /** A run that fires one occurrence twice, half a minute apart: at the end of a day the
      next firing of a negative time of day lies behind already. */
  lemma NegativeTimeFiresTwice(sch: Schedule) returns (acts: seq<Act>)
    requires !TimeIsNotNegative(sch)
    ensures Runs(Fresh(), acts) && Registers({sch}, acts) && !FiredOnce(Reached(Fresh(), acts))
  {
    var t := DAY - MINUTE;
    NextBehind(sch, t);
    NextBehind(sch, t + MINUTE / 2);
    var job := JobState(sch, false, Next(sch, t));
    var s1 := State(map["job" := job], ["job"], Idle(false), [], [], false);
    var s2 := s1.(loop := Idle(true));
    var once, s3 := Fires(s2, t, job);
    var twice, s4 := Fires(s3, t + MINUTE / 2, job);
    RunsOn(s2, once, twice);
    RunsFirst(s1, Start, once + twice);
    assert Do(Fresh(), Register("job", sch, t)) == s1;
    RunsFirst(Fresh(), Register("job", sch, t), [Start] + (once + twice));
    acts := [Register("job", sch, t)] + ([Start] + (once + twice));
    assert s4.fired == [Firing("job", job.nextRun), Firing("job", job.nextRun)];
    assert s4.fired[0] == s4.fired[1];
  }

  /** A job whose next firing is no later than now fires, runs and ends as it was. */
  lemma Fires(s: State, now: int, job: JobState) returns (acts: seq<Act>, end: State)
    requires s.loop == Idle(true) && s.order == ["job"] && s.jobs == map["job" := job]
    requires !job.running && job.nextRun == Next(job.schedule, now) <= now
    ensures Runs(s, acts) && Reached(s, acts) == end && forall a | a in acts :: !a.Register?
    ensures end == s.(execs := end.execs, fired := s.fired + [Firing("job", job.nextRun)])
  {
    var once, run := [Firing("job", job.nextRun)], Exec("job", Some(job.nextRun), false);
    var s1 := s.(jobs := map["job" := job.(running := true)], loop := Launching(once), fired := s.fired + once);
    var s2 := s1.(loop := Idle(true), execs := s.execs + [run]);
    end := s2.(jobs := map["job" := job], execs := s.execs + [run.(over := true)]);
    OnePass(s, now, job);
    OneLaunch(s1, once, run);
    OneCompletes(s2, s.execs, run, job);
    RunsFirst(s2, Complete(|s.execs|), []);
    RunsFirst(s1, Launch, [Complete(|s.execs|)] + []);
    RunsFirst(s, Tick(now), [Launch] + ([Complete(|s.execs|)] + []));
    acts := [Tick(now)] + ([Launch] + ([Complete(|s.execs|)] + []));
  }

  lemma OneLaunch(s: State, once: seq<Firing>, run: Exec)
    requires s.loop == Launching(once) && |once| == 1 && run == Exec(once[0].job, Some(once[0].slot), false)
    ensures Enabled(s, Launch) && Do(s, Launch) == s.(loop := Idle(true), execs := s.execs + [run])
  {
  }

  lemma OneCompletes(s: State, execs: seq<Exec>, run: Exec, job: JobState)
    requires s.execs == execs + [run] && run.job == "job" && !run.over
    requires s.jobs == map["job" := job.(running := true)] && !job.running
    ensures Enabled(s, Complete(|execs|))
    ensures Do(s, Complete(|execs|)) == s.(jobs := map["job" := job], execs := execs + [run.(over := true)])
  {
    assert map["job" := job.(running := true)]["job" := job] == map["job" := job];
    assert (execs + [run])[|execs| := run.(over := true)] == execs + [run.(over := true)];
  }

  lemma NextBehind(sch: Schedule, t: int)
    requires !TimeIsNotNegative(sch) && 0 <= t < DAY
    ensures Next(sch, t) == Offset(sch.daily.value) + DAY <= DAY - MINUTE
  {
    assert Midnight(t) == 0;
  }

  /** A pass over one job that is due. */
  lemma OnePass(s: State, now: int, job: JobState)
    requires s.order == ["job"] && s.jobs == map["job" := job] && !job.running
    requires job.nextRun == Next(job.schedule, now) <= now
    ensures var once := [Firing("job", job.nextRun)];
            Pass(s, now) == s.(jobs := map["job" := job.(running := true)], loop := Launching(once), fired := s.fired + once)
  {
    OneDue(job, now);
    PassIs(s, now, ["job"], map["job" := Started(job, now)]);
    assert Firings(s.jobs, ["job"]) == [Firing("job", job.nextRun)];
  }

  lemma PassIs(s: State, now: int, due: seq<string>, started: Jobs)
    requires due != [] && DueAmong(s.jobs, s.order, now) == due && StartedAll(s.jobs, s.order, now) == started
    ensures var fs := Firings(s.jobs, due);
            Pass(s, now) == s.(jobs := started, loop := Launching(fs), fired := s.fired + fs)
  {
  }

  lemma OneDue(job: JobState, now: int)
    requires !job.running && job.nextRun <= now
    ensures var jobs := map["job" := job];
            StartedAll(jobs, ["job"], now) == map["job" := Started(job, now)] && DueAmong(jobs, ["job"], now) == ["job"]
  {
    var jobs, order := map["job" := job], ["job"];
    assert order[..0] == [] && StartedAll(jobs, order[..0], now) == jobs && DueAmong(jobs, order[..0], now) == [];
  }

  lemma RunsFirst(s: State, a: Act, rest: seq<Act>)
    requires Enabled(s, a) && Runs(Do(s, a), rest)
    ensures Runs(s, [a] + rest) && Reached(s, [a] + rest) == Reached(Do(s, a), rest)
  {
    assert ([a] + rest)[0] == a && ([a] + rest)[1..] == rest;
  }

  lemma {:induction false} RunsOn(s: State, a: seq<Act>, b: seq<Act>)
    requires Runs(s, a) && Runs(Reached(s, a), b)
    ensures Runs(s, a + b) && Reached(s, a + b) == Reached(Reached(s, a), b)
    decreases |a|
  {
    if a == [] {
      assert a + b == b;
    } else {
      RunsOn(Do(s, a[0]), a[1..], b);
      assert (a + b)[1..] == a[1..] + b;
    }
  }

  ghost predicate FiresOnce(allowed: set<Schedule>) {
    forall acts | Runs(Fresh(), acts) && Registers(allowed, acts) :: FiredOnce(Reached(Fresh(), acts))
  }

  /** Over every run that registers these schedules no occurrence fires twice, exactly when
      none of them is daily at a negative time. */
  lemma FiresOnceExactly(allowed: set<Schedule>)
    ensures FiresOnce(allowed) <==> forall s | s in allowed :: TimeIsNotNegative(s)
  {
    if forall s | s in allowed :: TimeIsNotNegative(s) {
      forall s | s in allowed ensures Advances(s) { NextIsLaterExactly(s); }
      forall acts | Runs(Fresh(), acts) && Registers(allowed, acts) ensures FiredOnce(Reached(Fresh(), acts)) {
        AdvancingReached(allowed, Fresh(), acts);
      }
    } else {
      var s :| s in allowed && !TimeIsNotNegative(s);
      var acts := NegativeTimeFiresTwice(s);
      assert Registers(allowed, acts);
    }
  }

  /** After a Wait that did not time out no scheduled job runs, and none ever will. */
  lemma {:induction false} NothingScheduledAfterWait(s: State, acts: seq<Act>)
    requires Inv(s) && s.waited && Runs(s, acts)
    ensures var s' := Reached(s, acts);
            && s'.waited && s'.fired == s.fired
            && forall e | e in s'.execs && e.slot.Some? :: e.over
    decreases |acts|
  {
    if acts != [] {
      InvKept(s, acts[0]);
      NothingScheduledAfterWait(Do(s, acts[0]), acts[1..]);
    }
  }
}
