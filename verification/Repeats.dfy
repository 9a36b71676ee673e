/** What it takes that nobody is mailed twice, exactly: no crash between a delivery and its
    being written down, and no entry that names a recipient twice. */
module Repeats {
  import opened Names
  import opened Sequences
  import opened DurableSteps
  import opened SpoolFiles
  import opened Delivery
  import opened Node
  import opened Files
  import opened EntryLife
  import opened Shrink
  import opened Overlap
  import Backoff

  /** What a run is spared: crashes, and entries with a recipient named twice. */
  datatype Care = Care(noCrash: bool, namesOnce: bool)

  ghost predicate Heeds(c: Care, s: State, a: Act)
    requires Enabled(s, a)
  {
    && (c.noCrash ==> !a.Crash?)
    && (c.namesOnce && a.Step? && Todo(s.threads[a.t])[0].CommitEntry? ==>
          Distinct(Todo(s.threads[a.t])[0].m.recipients))
  }

  ghost predicate HeedingRun(c: Care, s: State, acts: seq<Act>)
    requires NewRun(s, acts)
    decreases |acts|
  {
    acts == [] || (Heeds(c, s, acts[0]) && HeedingRun(c, Do(s, acts[0]), acts[1..]))
  }

  /** A conversation that offers a recipient some destination took or refused before. */
  ghost predicate Repeating(s: State, id: string) {
    && Attempt(id) in s.threads && s.threads[Attempt(id)].Sending?
    && exists r :: r in s.threads[Attempt(id)].m.recipients && Done(id, r) in s.done
  }

  ghost predicate Goes(c: Care, s: State, s': State) {
    exists acts :: NewRun(s, acts) && HeedingRun(c, s, acts) && Reaches(s, acts) == s'
  }

  lemma GoesNowhere(c: Care, s: State)
    ensures Goes(c, s, s)
  {
    assert NewRun(s, []) && HeedingRun(c, s, []) && Reaches(s, []) == s;
  }

  lemma GoesTo(c: Care, s: State, a: Act, s': State, end: State)
    requires Enabled(s, a) && NewId(s, a) && Heeds(c, s, a) && Do(s, a) == s' && Goes(c, s', end)
    ensures Goes(c, s, end)
  {
    var rest :| NewRun(s', rest) && HeedingRun(c, s', rest) && Reaches(s', rest) == end;
    var acts := [a] + rest;
    assert acts[0] == a && acts[1..] == rest;
    assert NewRun(s, acts) && HeedingRun(c, s, acts) && Reaches(s, acts) == end;
  }

  lemma GoesStep(c: Care, s: State, t: Tid, todo: seq<Write>, end: State)
    requires t in s.threads && s.threads[t] == Writing(todo) && todo != []
    requires todo[0].CommitEntry? ==> todo[0].m.id !in s.ids && (c.namesOnce ==> Distinct(todo[0].m.recipients))
    requires Goes(c, Stepped(s.(threads := s.threads[t := Writing(todo[1..])]), todo[0]), end)
    ensures Goes(c, s, end)
  {
    assert TakeStep(s, t) == Stepped(s.(threads := s.threads[t := Writing(todo[1..])]), todo[0]);
    GoesTo(c, s, Step(t), TakeStep(s, t), end);
  }

  lemma GoesEnded(c: Care, s: State, t: Tid, end: State)
    requires s.threads == map[t := Writing([])] && Goes(c, s.(threads := map[]), end)
    ensures Goes(c, s, end)
  {
    assert s.threads - {t} == map[];
    GoesTo(c, s, End(t), s.(threads := map[]), end);
  }

  lemma GoesAccepted(c: Care, s: State, m: Message, body: Bytes, end: State)
    requires s.threads == map[] && JustAccepted(m, s.clock)
    requires Goes(c, s.(threads := map[Session(0) := Writing(PutPlanOf(m, body))]), end)
    ensures Goes(c, s, end)
  {
    PutPlanSteps(m, body);
    GoesTo(c, s, Accept(0, [m], body, Fate.Stored), s.(threads := map[Session(0) := Writing(PutPlanOf(m, body))]), end);
  }

  lemma GoesHolding(c: Care, s: State, m: Message, body: Bytes, end: State)
    requires s.threads == map[] && m.id !in s.ids && JustAccepted(m, s.clock) && (c.namesOnce ==> Distinct(m.recipients))
    requires Goes(c, Holding(s, m, body), end)
    ensures Goes(c, s, end)
  {
    var t, put := Session(0), PutPlanOf(m, body);
    PutPlanSteps(m, body);
    var s1 := s.(threads := map[t := Writing(put)]);
    var s2 := Stepped(s1.(threads := s1.threads[t := Writing(put[1..])]), put[0]);
    var s3 := Stepped(s2.(threads := s2.threads[t := Writing(put[1..][1..])]), put[1..][0]);
    assert s3.(threads := map[]) == Holding(s, m, body);
    GoesEnded(c, s3, t, end);
    GoesStep(c, s2, t, put[1..], end);
    GoesStep(c, s1, t, put, end);
    GoesAccepted(c, s, m, body, end);
  }

  lemma GoesRead(c: Care, s: State, m: Message, end: State)
    requires s.threads == map[] && m.id in s.disk.messages && s.disk.messages[m.id] == m && IsDue(m, s.clock)
    requires Goes(c, s.(threads := map[Attempt(m.id) := Queued(m)]), end)
    ensures Goes(c, s, end)
  {
    assert Launch(s, {m.id}).threads == map[Attempt(m.id) := Queued(m)];
    GoesTo(c, s, ReadDue({m.id}), s.(threads := map[Attempt(m.id) := Queued(m)]), end);
  }

  /** The node in conversation about `m`, and nothing else. */
  function Talks(s: State, m: Message): State
    requires m.id in s.disk.bodies
  {
    s.(threads := map[Attempt(m.id) := Sending(m.(attempts := m.attempts + 1), s.disk.bodies[m.id])])
  }

  lemma GoesTalking(c: Care, s: State, m: Message, end: State)
    requires s.threads == map[] && m.id in s.disk.messages && s.disk.messages[m.id] == m && m.id in s.disk.bodies
    requires IsDue(m, s.clock) && !Expired(s.rules.lifetime, m, s.clock) && Goes(c, Talks(s, m), end)
    ensures Goes(c, s, end)
  {
    var s1 := s.(threads := map[Attempt(m.id) := Queued(m)]);
    assert OpenAttempt(s1, m.id, m).threads == Talks(s, m).threads;
    GoesTo(c, s1, Open(m.id), Talks(s, m), end);
    GoesRead(c, s, m, end);
  }

  /** The node once that conversation was answered with `a`. */
  function Answering(s: State, m: Message, a: Answer): State
    requires m.id in s.disk.bodies && ValidAnswer(m.(attempts := m.attempts + 1), a)
  {
    ConcludeAttempt(Talks(s, m), m.id, m.(attempts := m.attempts + 1), a)
  }

  lemma GoesConcluded(c: Care, s: State, m: Message, a: Answer, end: State)
    requires m.id in s.disk.bodies && ValidAnswer(m.(attempts := m.attempts + 1), a) && Goes(c, Answering(s, m, a), end)
    ensures Goes(c, Talks(s, m), end)
  {
    GoesTo(c, Talks(s, m), Conclude(m.id, a), Answering(s, m, a), end);
  }

  lemma AnsweringState(s: State, m: Message, n: Message, a: Answer) returns (s': State)
    requires m.id in s.disk.bodies && n == m.(attempts := m.attempts + 1) && ValidAnswer(n, a)
    ensures s' == Answering(s, m, a)
    ensures s' == s.(threads := map[Attempt(m.id) := Writing(ConcludePlan(s, n, a))], done := s.done + Ended(n, a))
  {
    s' := Answering(s, m, a);
    OneThread(Attempt(m.id), Sending(n, s.disk.bodies[m.id]), Writing(ConcludePlan(s, n, a)));
  }

  lemma OneThread(t: Tid, th: Thread, next: Thread)
    ensures map[t := th][t := next] == map[t := next]
  {
  }

  // ---- a crash before the outcome is written down ----

  /** From any idle node, any due message that names somebody: it is taken, the node
      crashes, and the recipient is offered again. */
  lemma CrashRepeats(c: Care, s: State, m: Message) returns (end: State)
    requires !c.noCrash && s.threads == map[] && m.id in s.disk.messages && s.disk.messages[m.id] == m && m.id in s.disk.bodies
    requires IsDue(m, s.clock) && !Expired(s.rules.lifetime, m, s.clock) && m.recipients != []
    ensures Goes(c, s, end) && Repeating(end, m.id)
  {
    var n := m.(attempts := m.attempts + 1);
    var a := AllTaken(n);
    var s1 := Answering(s, m, a);
    var s2 := s.(done := s.done + Ended(n, a));
    end := Talks(s2, m);
    assert Done(m.id, m.recipients[0]) in end.done && end.threads[Attempt(m.id)].m.recipients[0] == m.recipients[0];
    GoesNowhere(c, end);
    GoesTalking(c, s2, m, end);
    GoesTo(c, s1, Crash, s2, end);
    GoesConcluded(c, s, m, a, end);
    GoesTalking(c, s, m, end);
  }

  lemma AllTaken(m: Message) returns (a: Answer)
    requires m.recipients != []
    ensures ValidAnswer(m, a) && a.Answered? && Done(m.id, m.recipients[0]) in Ended(m, a)
  {
    var verdicts := seq(|m.recipients|, i => Verdict.Taken);
    a := Answered(verdicts, []);
    NoneRejected(m.recipients, verdicts);
    AnswerOfPosition(m.recipients, verdicts, 0);
  }

  lemma {:induction false} NoneRejected(to: seq<string>, verdicts: seq<Verdict>)
    requires |verdicts| == |to| && forall i | 0 <= i < |to| :: verdicts[i] == Verdict.Taken
    ensures Converse(to, verdicts).rejected == map[]
  {
    if to != [] { NoneRejected(to[..|to| - 1], verdicts[..|to| - 1]); }
  }

  // ---- an entry that names a recipient twice ----

  /** Too short a lifetime for a second attempt: less than the first gap. */
  predicate Short(rules: Rules) {
    0 < rules.lifetime < Backoff.MINUTE
  }

  ghost predicate Retries(rules: Rules) {
    Backoff.Gap(rules.converted, 1) == Backoff.MINUTE && !Short(rules)
  }

  /** From any idle node, any message just accepted that names somebody twice: taken at the
      one place and deferred at the other, the recipient is offered again. */
  lemma TwiceNamedRepeats(c: Care, s: State, m: Message) returns (end: State)
    requires Retries(s.rules) && s.threads == map[]
    requires m.id in s.disk.messages && s.disk.messages[m.id] == m && m.id in s.disk.bodies
    requires m.attempts == 0 && m.nextAttempt == m.acceptedAt == s.clock && !Distinct(m.recipients)
    ensures Goes(c, s, end) && Repeating(end, m.id)
  {
    var a, r := TakenAndDeferred(m.(attempts := 1));
    end := AnsweredRepeats(c, s, m, a, r);
    GoesConcluded(c, s, m, a, end);
    GoesTalking(c, s, m, end);
  }

  lemma AnsweredRepeats(c: Care, s: State, m: Message, a: Answer, r: string) returns (end: State)
    requires Retries(s.rules) && m.id in s.disk.bodies && m.attempts == 0 && m.acceptedAt == s.clock
    requires var n := m.(attempts := 1); a.Answered? && ValidAnswer(n, a) && r in Retry(n, a) && Done(m.id, r) in Ended(n, a)
    ensures Goes(c, Answering(s, m, a), end) && Repeating(end, m.id)
  {
    var n := m.(attempts := 1);
    var u, plan := DeferredPlan(s, n, a);
    var s1 := AnsweringState(s, m, n, a);
    end := OfferedAgain(c, s1, u, plan, r);
  }

  /** The plan of such an answer: outcomes, and the entry stored for the retry. */
  lemma DeferredPlan(s: State, n: Message, a: Answer) returns (u: Message, plan: seq<Write>)
    requires a.Answered? && ValidAnswer(n, a) && Retry(n, a) != []
    ensures plan == ConcludePlan(s, n, a) && PlanOf(n.id, plan) && Change(plan) == Storing(u)
    ensures u.id == n.id && u.acceptedAt == n.acceptedAt && u.recipients == Retry(n, a)
    ensures u.nextAttempt == s.clock + Backoff.Gap(s.rules.converted, n.attempts)
    ensures forall w | w in plan :: w.PutOutcome? || w.UpdateEntry?
  {
    var expired, next := Expired(s.rules.lifetime, n, s.clock), s.clock + Backoff.Gap(s.rules.converted, n.attempts);
    u, plan := n.(recipients := Retry(n, a), nextAttempt := next), AnswerWrites(n, a, expired, next);
    AnswerPlanOf(n, a, expired, next);
    StoresOnly(n, a, expired, next);
  }

  /** An answer that leaves somebody both delivered and to be retried. */
  lemma TakenAndDeferred(m: Message) returns (a: Answer, r: string)
    requires !Distinct(m.recipients)
    ensures a.Answered? && ValidAnswer(m, a) && r in Retry(m, a) && Done(m.id, r) in Ended(m, a)
  {
    var i, j :| 0 <= i < j < |m.recipients| && m.recipients[i] == m.recipients[j];
    a := AcceptThenDefer(m, i, j);
    r := m.recipients[i];
  }

  lemma StoresOnly(m: Message, a: Answer, expired: bool, next: int)
    requires a.Answered? && ValidAnswer(m, a) && Retry(m, a) != []
    ensures forall w | w in AnswerWrites(m, a, expired, next) :: w.PutOutcome? || w.UpdateEntry?
  {
  }

  /** The plan is carried out, the gap passes, and the next pass opens a conversation. */
  lemma OfferedAgain(c: Care, s: State, u: Message, plan: seq<Write>, r: string) returns (end: State)
    requires s.threads == map[Attempt(u.id) := Writing(plan)] && u.id in s.disk.bodies
    requires PlanOf(u.id, plan) && Change(plan) == Storing(u) && (forall w | w in plan :: w.PutOutcome? || w.UpdateEntry?)
    requires u.nextAttempt >= s.clock && (s.rules.lifetime <= 0 || u.nextAttempt - u.acceptedAt <= s.rules.lifetime)
    requires r in u.recipients && Done(u.id, r) in s.done
    ensures Goes(c, s, end) && Repeating(end, u.id)
  {
    var s1 := CarriedOut(s, u, plan);
    var s2 := s1.(clock := u.nextAttempt);
    end := Talks(s2, u);
    assert r in end.threads[Attempt(u.id)].m.recipients;
    GoesNowhere(c, end);
    GoesTalking(c, s2, u, end);
    GoesTo(c, s1, Tick(u.nextAttempt), s2, end);
    GoesThrough(c, s, Attempt(u.id), plan, end);
  }

  lemma CarriedOut(s: State, u: Message, plan: seq<Write>) returns (s': State)
    requires PlanOf(u.id, plan) && Change(plan) == Storing(u) && (forall w | w in plan :: w.PutOutcome? || w.UpdateEntry?)
    ensures s' == s.(threads := map[], disk := Replay(s.disk, plan))
    ensures u.id in s'.disk.messages && s'.disk.messages[u.id] == u && s'.disk.bodies == s.disk.bodies
  {
    s' := s.(threads := map[], disk := Replay(s.disk, plan));
    Replayed(s.disk, u, plan);
  }

  lemma {:induction false} Replayed(d: Disk, u: Message, plan: seq<Write>)
    requires PlanOf(u.id, plan) && (forall w | w in plan :: w.PutOutcome? || w.UpdateEntry?)
    requires Change(plan) == Storing(u) || (Change(plan).Idle? && u.id in d.messages && d.messages[u.id] == u)
    ensures var d' := Replay(d, plan); u.id in d'.messages && d'.messages[u.id] == u && d'.bodies == d.bodies
    decreases |plan|
  {
    if plan != [] {
      assert plan[0] in plan;
      PlanMoves(u.id, plan);
      forall w | w in plan[1..] ensures w in plan && !w.CommitEntry? && (OnEntry(w) ==> About(w) == Some(u.id)) {
      }
      Replayed(Apply(d, plan[0]), u, plan[1..]);
    }
  }

  lemma {:induction false} GoesThrough(c: Care, s: State, t: Tid, todo: seq<Write>, end: State)
    requires s.threads == map[t := Writing(todo)] && forall w | w in todo :: w.PutOutcome? || w.UpdateEntry?
    requires Goes(c, s.(threads := map[], disk := Replay(s.disk, todo)), end)
    ensures Goes(c, s, end)
    decreases |todo|
  {
    if todo == [] {
      GoesEnded(c, s, t, end);
    } else {
      assert todo[0] in todo;
      var s' := s.(disk := Apply(s.disk, todo[0]), threads := map[t := Writing(todo[1..])]);
      assert s.threads[t := Writing(todo[1..])] == s'.threads;
      GoesThrough(c, s', t, todo[1..], end);
      GoesStep(c, s, t, todo, end);
    }
  }

  // ---- the exact statement ----

  function Doubled(now: int): Message {
    Letter(now).(recipients := ["b@e.org", "b@e.org"])
  }

  lemma DoubledIsDeliverable(now: int)
    ensures JustAccepted(Doubled(now), now) && !Distinct(Doubled(now).recipients)
  {
    LetterIsDeliverable(now);
    assert Letter(now).recipients[0] in Letter(now).recipients;
    assert Doubled(now).recipients[0] == Doubled(now).recipients[1];
  }

  lemma {:induction false} HeedingIsQuiet(c: Care, s: State, acts: seq<Act>)
    requires c.noCrash && c.namesOnce && NewRun(s, acts) && HeedingRun(c, s, acts)
    ensures QuietRun(s, acts)
    decreases |acts|
  {
    if acts != [] { HeedingIsQuiet(c, Do(s, acts[0]), acts[1..]); }
  }

  lemma {:induction false} HeedingIsUncut(c: Care, s: State, acts: seq<Act>)
    requires c.noCrash && NewRun(s, acts) && HeedingRun(c, s, acts)
    ensures Uncut(acts)
    decreases |acts|
  {
    if acts != [] {
      HeedingIsUncut(c, Do(s, acts[0]), acts[1..]);
      assert acts == [acts[0]] + acts[1..];
    }
  }

  lemma {:induction false} FirstGapWaited(n: nat)
    requires n >= 1
    ensures Backoff.Waited(n) >= Backoff.MINUTE
  {
    Backoff.FirstFive();
    if n > 1 { FirstGapWaited(n - 1); }
  }

  /** With so short a lifetime an entry makes one connection, and it is the first to finish
      with anybody. */
  lemma OneConnectionOnly(rules: Rules, clock: int, acts: seq<Act>, id: string)
    requires Backoff.ConvertsPowers(rules.converted) && Short(rules) && NewRun(Boot(rules, clock), acts) && Uncut(acts)
    ensures !Repeating(Reaches(Boot(rules, clock), acts), id)
  {
    var s, k := Reaches(Boot(rules, clock), acts), Connections(Boot(rules, clock), acts, id);
    CountedReached(Boot(rules, clock), acts, id, 0);
    ConnectionsOfARun(rules, clock, acts, id);
    if k >= 2 { FirstGapWaited(k - 1); }
    RepeatingLife(s, id);
  }

  lemma RepeatingLife(s: State, id: string)
    ensures Repeating(s, id) ==> LifeOf(s, id).hand.Talking? && LifeOf(s, id).done != {}
  {
    if Repeating(s, id) {
      var r :| r in s.threads[Attempt(id)].m.recipients && Done(id, r) in s.done;
      assert Done(id, r) in LifeOf(s, id).done;
    }
  }

  lemma SomeRunRepeats(c: Care, rules: Rules, clock: int) returns (end: State)
    requires !c.noCrash || (!c.namesOnce && Retries(rules))
    ensures Goes(c, Boot(rules, clock), end) && Repeating(end, "1")
  {
    var s := Boot(rules, clock);
    if !c.noCrash {
      LetterIsDeliverable(clock);
      end := CrashRepeats(c, Holding(s, Letter(clock), []), Letter(clock));
      GoesHolding(c, s, Letter(clock), [], end);
    } else {
      DoubledIsDeliverable(clock);
      end := TwiceNamedRepeats(c, Holding(s, Doubled(clock), []), Doubled(clock));
      GoesHolding(c, s, Doubled(clock), [], end);
    }
  }

  ghost predicate NobodyRepeated(c: Care, s: State) {
    forall acts, id | NewRun(s, acts) && HeedingRun(c, s, acts) :: !Repeating(Reaches(s, acts), id)
  }

  lemma CareSuffices(c: Care, rules: Rules, clock: int, acts: seq<Act>, id: string)
    requires Backoff.ConvertsPowers(rules.converted) && c.noCrash && (c.namesOnce || Short(rules))
    requires NewRun(Boot(rules, clock), acts) && HeedingRun(c, Boot(rules, clock), acts)
    ensures !Repeating(Reaches(Boot(rules, clock), acts), id)
  {
    if c.namesOnce {
      HeedingIsQuiet(c, Boot(rules, clock), acts);
      NeverSentAgain(rules, clock, acts, id);
    } else {
      HeedingIsUncut(c, Boot(rules, clock), acts);
      OneConnectionOnly(rules, clock, acts, id);
    }
  }

  /** Nobody is ever offered again what was taken or refused exactly when no run crashes and
      no entry names a recipient twice - or no entry lives long enough for a second
      attempt. */
  lemma NeverSentAgainExactly(c: Care, rules: Rules, clock: int)
    requires Backoff.ConvertsPowers(rules.converted)
    ensures NobodyRepeated(c, Boot(rules, clock)) <==> c.noCrash && (c.namesOnce || Short(rules))
  {
    var s := Boot(rules, clock);
    if c.noCrash && (c.namesOnce || Short(rules)) {
      forall acts, id | NewRun(s, acts) && HeedingRun(c, s, acts) ensures !Repeating(Reaches(s, acts), id) {
        CareSuffices(c, rules, clock, acts, id);
      }
    } else {
      Backoff.GapIsSchedule(rules.converted, 1);
      Backoff.FirstFive();
      var end := SomeRunRepeats(c, rules, clock);
      var acts :| NewRun(s, acts) && HeedingRun(c, s, acts) && Reaches(s, acts) == end;
      assert Repeating(Reaches(s, acts), "1");
    }
  }
}
