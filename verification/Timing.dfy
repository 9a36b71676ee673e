/** When the node tries again: no queued message comes due before the gaps of its attempts
    have passed, and nothing connects once its lifetime is over. This holds over every
    run, crashes included. */
module Timing {
  import opened DurableSteps
  import opened SpoolFiles
  import opened Delivery
  import opened MxForwarding
  import opened Node
  import Backoff

  /** Not due before the gaps of the attempts it counts have passed since it was accepted. */
  ghost predicate Timely(m: Message) {
    m.nextAttempt >= m.acceptedAt + Backoff.Waited(m.attempts)
  }

  /** The first `n` gaps fit inside the lifetime. */
  ghost predicate InTime(rules: Rules, n: int) {
    rules.lifetime > 0 && n >= 0 ==> Backoff.Waited(n) <= rules.lifetime
  }

  /** A conversation under way, this attempt counted. */
  ghost predicate Underway(s: State, m: Message) {
    && m.attempts >= 1
    && m.acceptedAt + Backoff.Waited(m.attempts - 1) <= m.nextAttempt <= s.clock
    && InTime(s.rules, m.attempts - 1)
  }

  ghost predicate TimedWrite(w: Write) {
    && (w.CommitEntry? ==> Timely(w.m))
    && (w.UpdateEntry? ==> Timely(w.m))
  }

  ghost predicate TimedPlan(ws: seq<Write>) {
    forall w | w in ws :: TimedWrite(w)
  }

  ghost predicate TimedThread(s: State, th: Thread) {
    match th
    case Queued(m) => Timely(m) && IsDue(m, s.clock)
    case Sending(m, _) => Underway(s, m)
    case _ => TimedPlan(Todo(th))
  }

  ghost predicate TimingInv(s: State) {
    && Backoff.ConvertsPowers(s.rules.converted)
    && (forall id | id in s.disk.messages :: Timely(s.disk.messages[id]))
    && forall t | t in s.threads :: TimedThread(s, s.threads[t])
  }

  // ---- plans ----

  lemma {:induction false} AcceptTimed(ms: seq<Message>, body: Bytes, last: Fate)
    requires forall m | m in ms :: Timely(m)
    ensures TimedPlan(AcceptWrites(ms, body, last))
    decreases |ms|
  {
    if ms != [] {
      assert ms[0] in ms;
      if |ms| > 1 { AcceptTimed(ms[1..], body, last); }
    }
  }

  lemma {:induction false} SweepTimed(gone: seq<Message>)
    ensures TimedPlan(SweepWrites(gone))
    decreases |gone|
  {
    if gone != [] {
      SweepTimed(gone[1..]);
    }
  }

  lemma AnswerTimed(m: Message, a: Answer, expired: bool, next: int)
    requires ValidAnswer(m, a) && next >= m.acceptedAt + Backoff.Waited(m.attempts)
    ensures TimedPlan(AnswerWrites(m, a, expired, next))
  {
    match a {
      case NoSuchDomain => GiveUpTimed(m, !expired);
      case RefusedOutright => GiveUpTimed(m, !expired);
      case Answered(verdicts, _) =>
        var told := OutcomeWrites(m.emailID, Converse(m.recipients, verdicts).accepted, true, false);
        var refused := OutcomeWrites(m.emailID, Refusals(m, a), false, true);
        assert TimedPlan(told) && TimedPlan(refused) && TimedPlan(Rest(m, Retry(m, a), next));
      case _ =>
    }
  }

  lemma GiveUpTimed(m: Message, permanent: bool)
    ensures TimedPlan(GiveUpWrites(m, permanent))
  {
  }

  // ---- steps ----

  lemma WithTimed(s: State, t: Tid, th: Thread)
    requires TimingInv(s) && TimedThread(s, th)
    ensures TimingInv(s.(threads := s.threads[t := th]))
  {
    var s' := s.(threads := s.threads[t := th]);
    forall u | u in s'.threads ensures TimedThread(s', s'.threads[u]) {
      assert u != t ==> TimedThread(s, s.threads[u]);
    }
  }

  lemma WithoutTimed(s: State, t: Tid)
    requires TimingInv(s)
    ensures TimingInv(s.(threads := s.threads - {t}))
  {
    SameTimed(s, s.(threads := s.threads - {t}));
  }

  /** What the invariant does not look at may change freely, and time may pass. */
  lemma SameTimed(s: State, s': State)
    requires TimingInv(s) && s'.rules == s.rules && s'.disk.messages == s.disk.messages && s.clock <= s'.clock
    requires forall u | u in s'.threads :: u in s.threads && s'.threads[u] == s.threads[u]
    ensures TimingInv(s')
  {
    forall u | u in s'.threads ensures TimedThread(s', s'.threads[u]) {
      assert TimedThread(s, s.threads[u]);
    }
  }

  lemma StepTimed(s: State, t: Tid)
    requires TimingInv(s) && t in s.threads && Todo(s.threads[t]) != []
    ensures TimingInv(TakeStep(s, t))
  {
    var th := s.threads[t];
    assert TimedThread(s, th) && TimedPlan(Todo(th)) && Todo(th)[0] in Todo(th);
    assert TimedPlan(Todo(Took(th)));
    WithTimed(s, t, Took(th));
    WroteTimed(s.(threads := s.threads[t := Took(th)]), Todo(th)[0]);
  }

  lemma WroteTimed(s: State, w: Write)
    requires TimingInv(s) && TimedWrite(w)
    ensures TimingInv(Stepped(s, w))
  {
    var s' := Stepped(s, w);
    forall u | u in s'.threads ensures TimedThread(s', s'.threads[u]) {
      assert TimedThread(s, s.threads[u]);
    }
  }

  lemma LaunchTimed(s: State, due: set<string>)
    requires TimingInv(s) && due <= s.disk.messages.Keys
    requires forall id | id in due :: IsDue(s.disk.messages[id], s.clock)
    ensures TimingInv(Launch(s, due))
  {
    var s' := Launch(s, due);
    forall u | u in s'.threads ensures TimedThread(s', s'.threads[u]) {
      assert u in s.threads ==> TimedThread(s, s.threads[u]);
    }
  }

  lemma OpenTimed(s: State, id: string, m: Message)
    requires TimingInv(s) && Timely(m) && IsDue(m, s.clock)
    ensures TimingInv(OpenAttempt(s, id, m))
  {
    var n := m.(attempts := m.attempts + 1);
    if Expired(s.rules.lifetime, n, s.clock) || m.id !in s.disk.bodies {
      WithTimed(s, Attempt(id), Writing(GiveUpWrites(n, !Expired(s.rules.lifetime, n, s.clock))));
    } else {
      WithTimed(s, Attempt(id), Sending(n, s.disk.bodies[m.id]));
    }
  }

  lemma ConcludeTimed(s: State, id: string, m: Message, a: Answer)
    requires TimingInv(s) && Underway(s, m) && ValidAnswer(m, a)
    ensures TimingInv(ConcludeAttempt(s, id, m, a))
  {
    Backoff.GapIsSchedule(s.rules.converted, m.attempts);
    AnswerTimed(m, a, Expired(s.rules.lifetime, m, s.clock), s.clock + Backoff.Gap(s.rules.converted, m.attempts));
    WithTimed(s, Attempt(id), Writing(ConcludePlan(s, m, a)));
    var s' := ConcludeAttempt(s, id, m, a);
    SameTimed(s.(threads := s'.threads), s');
  }

  /** A thread set up starts on schedule. */
  lemma ArmedTimed(s: State, a: Act)
    requires Enabled(s, a) && Arms(a)
    ensures TimedThread(s, Armed(s, a))
  {
    match a {
      case Accept(_, ms, body, last) => AcceptTimed(ms, body, last);
      case SweepExpired(gone) => SweepTimed(gone);
      case _ =>
    }
  }

  lemma ContinueTimed(s: State, batch: seq<Claimed>)
    requires TimingInv(s)
    ensures TimingInv(Continue(s, batch))
  {
    WithoutTimed(s, Claimer);
    WithTimed(s, Claimer, Grouping(batch, []));
  }

  lemma HearTimed(s: State, rows: map<string, Outcome>, r: ReportAnswer)
    requires TimingInv(s)
    ensures TimingInv(Hear(s, rows, r))
  {
    var s' := Hear(s, rows, r);
    WithoutTimed(s, Reporter);
    WithTimed(s, Reporter, Writing([DeleteOutcomes(rows.Keys)]));
    SameTimed(s.(threads := s'.threads), s');
  }

  lemma ForwardTimed(s: State, queue: seq<Received>, a: ForwardAnswer)
    requires TimingInv(s) && queue != []
    ensures TimingInv(ForwardOne(s, queue, a))
  {
    var s' := ForwardOne(s, queue, a);
    WithTimed(s, Forwarder, Forwarding(queue[1..], ForwardPlan(s, queue[0], a)));
    SameTimed(s.(threads := s'.threads), s');
  }

  lemma TimingKept(s: State, a: Act)
    requires TimingInv(s) && Enabled(s, a)
    ensures TimingInv(Do(s, a))
  {
    if a.Step? {
      StepTimed(s, a.t);
    } else if a.Open? || a.Conclude? {
      AttemptsTimed(s, a);
    } else if a.Tick? || a.Crash? || a.End? || a.ReadDue? {
      ThreadsTimed(s, a);
    } else {
      LoopsTimed(s, a);
    }
  }

  lemma AttemptsTimed(s: State, a: Act)
    requires TimingInv(s) && Enabled(s, a) && (a.Open? || a.Conclude?)
    ensures TimingInv(Do(s, a))
  {
    var th := s.threads[Attempt(a.id)];
    assert TimedThread(s, th);
    if a.Open? {
      OpenTimed(s, a.id, th.m);
    } else {
      ConcludeTimed(s, a.id, th.m, a.answer);
    }
  }

  lemma ThreadsTimed(s: State, a: Act)
    requires TimingInv(s) && Enabled(s, a) && (a.Tick? || a.Crash? || a.End? || a.ReadDue?)
    ensures TimingInv(Do(s, a))
  {
    match a {
      case Tick(now) => SameTimed(s, s.(clock := now));
      case Crash => SameTimed(s, s.(threads := map[]));
      case End(t) => WithoutTimed(s, t);
      case ReadDue(due) => LaunchTimed(s, due);
    }
  }

  lemma LoopsTimed(s: State, a: Act)
    requires TimingInv(s) && Enabled(s, a)
    requires a.HearReport? || a.HearClaim? || a.NextClaimed? || a.Forward? || Arms(a)
    ensures TimingInv(Do(s, a))
  {
    if a.HearReport? {
      HearTimed(s, s.threads[Reporter].rows, a.report);
    } else if a.HearClaim? {
      ContinueTimed(s, a.batch);
    } else if a.NextClaimed? {
      ContinueTimed(s, s.threads[Claimer].batch[1..]);
    } else if a.Forward? {
      ForwardTimed(s, s.threads[Forwarder].queue, a.forwarded);
    } else {
      ArmedTimed(s, a);
      WithTimed(s, Worker(a), Armed(s, a));
    }
  }

  // ---- over whole runs ----

  ghost predicate AnyRun(s: State, acts: seq<Act>)
    decreases |acts|
  {
    acts == [] || (Enabled(s, acts[0]) && AnyRun(Do(s, acts[0]), acts[1..]))
  }

  ghost function AnyReached(s: State, acts: seq<Act>): State
    requires AnyRun(s, acts)
    decreases |acts|
  {
    if acts == [] then s else AnyReached(Do(s, acts[0]), acts[1..])
  }

  lemma {:induction false} TimingReached(s: State, acts: seq<Act>)
    requires TimingInv(s) && AnyRun(s, acts)
    ensures TimingInv(AnyReached(s, acts))
    decreases |acts|
  {
    if acts != [] {
      TimingKept(s, acts[0]);
      TimingReached(Do(s, acts[0]), acts[1..]);
    }
  }

  /** However the loops interleave and whatever crashed: an entry deferred n times waits at
      least the first n gaps from its acceptance, and a conversation under way is one whose
      gaps fitted inside the lifetime. */
  lemma DeferredLongEnough(rules: Rules, clock: int, acts: seq<Act>)
    requires Backoff.ConvertsPowers(rules.converted) && AnyRun(Boot(rules, clock), acts)
    ensures var s := AnyReached(Boot(rules, clock), acts);
            && (forall id | id in s.disk.messages ::
                  var m := s.disk.messages[id]; m.nextAttempt >= m.acceptedAt + Backoff.Waited(m.attempts))
            && (forall t | t in s.threads && s.threads[t].Sending? && rules.lifetime > 0 ::
                  s.threads[t].m.attempts >= 1 && Backoff.Waited(s.threads[t].m.attempts - 1) <= rules.lifetime)
  {
    TimingReached(Boot(rules, clock), acts);
    SameRules(Boot(rules, clock), acts);
    var s := AnyReached(Boot(rules, clock), acts);
    forall t | t in s.threads && s.threads[t].Sending? ensures Underway(s, s.threads[t].m) {
      assert TimedThread(s, s.threads[t]);
    }
  }

  lemma {:induction false} SameRules(s: State, acts: seq<Act>)
    requires AnyRun(s, acts)
    ensures AnyReached(s, acts).rules == s.rules
    decreases |acts|
  {
    if acts != [] {
      assert Do(s, acts[0]).rules == s.rules;
      SameRules(Do(s, acts[0]), acts[1..]);
    }
  }
}
