/** Mail the node's own MX answered 250 for stays until the platform is done with it. */
module Inbound {
  import opened DurableSteps
  import opened Delivery
  import opened MxForwarding
  import opened Node
  import opened Timing
  import Backoff

  // ---- nothing is let go before it is settled: every run ----

  ghost predicate DropsSettled(s: State, todo: seq<Write>) {
    forall w | w in todo && w.DeleteInbound? :: w.id in s.settled
  }

  ghost predicate HoldsMail(s: State) {
    forall id | id in s.acceptedIn :: id in s.disk.inbound || id in s.settled
  }

  ghost predicate MailInv(s: State) {
    HoldsMail(s) && forall t | t in s.threads :: DropsSettled(s, Todo(s.threads[t]))
  }

  lemma WithMail(s: State, s': State, t: Tid, th: Thread)
    requires MailInv(s) && s'.threads == s.threads[t := th] && s'.disk == s.disk && s'.acceptedIn == s.acceptedIn
    requires s.settled <= s'.settled && DropsSettled(s', Todo(th))
    ensures MailInv(s')
  {
    forall u | u in s'.threads ensures DropsSettled(s', Todo(s'.threads[u])) {
      assert u != t ==> DropsSettled(s, Todo(s.threads[u]));
    }
  }

  /** A thread whose plan drops nothing. */
  lemma PlainMail(s: State, t: Tid, th: Thread)
    requires MailInv(s) && forall w | w in Todo(th) :: !w.DeleteInbound?
    ensures MailInv(s.(threads := s.threads[t := th]))
  {
    WithMail(s, s.(threads := s.threads[t := th]), t, th);
  }

  lemma FewerMail(s: State, s': State)
    requires MailInv(s) && s'.disk == s.disk && s'.acceptedIn == s.acceptedIn && s'.settled == s.settled
    requires forall u | u in s'.threads :: u in s.threads && s'.threads[u] == s.threads[u]
    ensures MailInv(s')
  {
    forall u | u in s'.threads ensures DropsSettled(s', Todo(s'.threads[u])) {
      assert DropsSettled(s, Todo(s.threads[u]));
    }
  }

  lemma StepMail(s: State, t: Tid)
    requires MailInv(s) && t in s.threads && Todo(s.threads[t]) != []
    ensures MailInv(TakeStep(s, t))
  {
    var s', todo := TakeStep(s, t), Todo(s.threads[t]);
    assert DropsSettled(s, todo) && todo[0] in todo;
    WithMail(s, s.(threads := s.threads[t := Took(s.threads[t])]), t, Took(s.threads[t]));
    WroteMail(s.(threads := s.threads[t := Took(s.threads[t])]), todo[0]);
  }

  lemma WroteMail(s: State, w: Write)
    requires MailInv(s) && (w.DeleteInbound? ==> w.id in s.settled)
    ensures MailInv(Stepped(s, w))
  {
    var s' := Stepped(s, w);
    forall u | u in s'.threads ensures DropsSettled(s', Todo(s'.threads[u])) {
      assert DropsSettled(s, Todo(s.threads[u]));
    }
  }

  lemma LaunchMail(s: State, due: set<string>)
    requires MailInv(s) && due <= s.disk.messages.Keys
    ensures MailInv(Launch(s, due))
  {
    var s' := Launch(s, due);
    forall u | u in s'.threads ensures DropsSettled(s', Todo(s'.threads[u])) {
      assert u in s.threads ==> DropsSettled(s, Todo(s.threads[u]));
    }
  }

  lemma {:induction false} AcceptDropsNone(ms: seq<Message>, body: Bytes, last: Fate)
    ensures forall w | w in AcceptWrites(ms, body, last) :: w.WriteBody? || w.CommitEntry? || w.RemoveBody?
    decreases |ms|
  {
    if |ms| > 1 { AcceptDropsNone(ms[1..], body, last); }
  }

  lemma {:induction false} SweepDropsNone(gone: seq<Message>)
    ensures forall w | w in SweepWrites(gone) :: w.PutOutcome? || w.DeleteEntry? || w.RemoveBody?
    decreases |gone|
  {
    if gone != [] { SweepDropsNone(gone[1..]); }
  }

  lemma AnswerDropsNone(m: Message, a: Answer, expired: bool, next: int)
    requires ValidAnswer(m, a)
    ensures forall w | w in AnswerWrites(m, a, expired, next) ::
              w.PutOutcome? || w.UpdateEntry? || w.DeleteEntry? || w.RemoveBody?
  {
  }

  lemma ArmedDropsNone(s: State, a: Act)
    requires Enabled(s, a) && Arms(a)
    ensures forall w | w in Todo(Armed(s, a)) :: !w.DeleteInbound?
  {
    match a {
      case Accept(_, ms, body, last) => AcceptDropsNone(ms, body, last);
      case SweepExpired(gone) => SweepDropsNone(gone);
      case _ =>
    }
  }

  lemma OpenMail(s: State, id: string, m: Message)
    requires MailInv(s)
    ensures MailInv(OpenAttempt(s, id, m))
  {
    PlainMail(s, Attempt(id), OpenAttempt(s, id, m).threads[Attempt(id)]);
  }

  lemma ConcludeMail(s: State, id: string, m: Message, a: Answer)
    requires MailInv(s) && ValidAnswer(m, a)
    ensures MailInv(ConcludeAttempt(s, id, m, a))
  {
    PlanDropsNone(s, m, a);
    WithMail(s, ConcludeAttempt(s, id, m, a), Attempt(id), Writing(ConcludePlan(s, m, a)));
  }

  lemma PlanDropsNone(s: State, m: Message, a: Answer)
    requires ValidAnswer(m, a)
    ensures forall w | w in ConcludePlan(s, m, a) :: !w.DeleteInbound?
  {
    AnswerDropsNone(m, a, Expired(s.rules.lifetime, m, s.clock), s.clock + Backoff.Gap(s.rules.converted, m.attempts));
  }

  lemma ContinueMail(s: State, batch: seq<Claimed>)
    requires MailInv(s)
    ensures MailInv(Continue(s, batch))
  {
    FewerMail(s, s.(threads := s.threads - {Claimer}));
    PlainMail(s, Claimer, Grouping(batch, []));
  }

  lemma HearMail(s: State, rows: map<string, Outcome>, r: ReportAnswer)
    requires MailInv(s)
    ensures MailInv(Hear(s, rows, r))
  {
    var s' := Hear(s, rows, r);
    if r.TakenUnheard? || r.Unreachable? {
      FewerMail(s, s');
    } else {
      WithMail(s, s', Reporter, Writing([DeleteOutcomes(rows.Keys)]));
    }
  }

  lemma ForwardMail(s: State, queue: seq<Received>, a: ForwardAnswer)
    requires MailInv(s) && queue != []
    ensures MailInv(ForwardOne(s, queue, a))
  {
    WithMail(s, ForwardOne(s, queue, a), Forwarder, Forwarding(queue[1..], ForwardPlan(s, queue[0], a)));
  }

  lemma MailKept(s: State, a: Act)
    requires MailInv(s) && Enabled(s, a)
    ensures MailInv(Do(s, a))
  {
    if a.Step? {
      StepMail(s, a.t);
    } else if a.Open? {
      OpenMail(s, a.id, s.threads[Attempt(a.id)].m);
    } else if a.Conclude? {
      ConcludeMail(s, a.id, s.threads[Attempt(a.id)].m, a.answer);
    } else if a.Tick? || a.Crash? || a.End? || a.ReadDue? {
      ThreadsMail(s, a);
    } else {
      LoopsMail(s, a);
    }
  }

  lemma ThreadsMail(s: State, a: Act)
    requires MailInv(s) && Enabled(s, a) && (a.Tick? || a.Crash? || a.End? || a.ReadDue?)
    ensures MailInv(Do(s, a))
  {
    match a {
      case Tick(now) => FewerMail(s, s.(clock := now));
      case Crash => FewerMail(s, s.(threads := map[]));
      case End(t) => FewerMail(s, s.(threads := s.threads - {t}));
      case ReadDue(due) => LaunchMail(s, due);
    }
  }

  lemma LoopsMail(s: State, a: Act)
    requires MailInv(s) && Enabled(s, a)
    requires a.HearReport? || a.HearClaim? || a.NextClaimed? || a.Forward? || Arms(a)
    ensures MailInv(Do(s, a))
  {
    if a.HearReport? {
      HearMail(s, s.threads[Reporter].rows, a.report);
    } else if a.HearClaim? {
      ContinueMail(s, a.batch);
    } else if a.NextClaimed? {
      ContinueMail(s, s.threads[Claimer].batch[1..]);
    } else if a.Forward? {
      ForwardMail(s, s.threads[Forwarder].queue, a.forwarded);
    } else {
      ArmedDropsNone(s, a);
      PlainMail(s, Worker(a), Armed(s, a));
    }
  }

  lemma {:induction false} MailReached(s: State, acts: seq<Act>)
    requires MailInv(s) && AnyRun(s, acts)
    ensures MailInv(AnyReached(s, acts))
    decreases |acts|
  {
    if acts != [] {
      MailKept(s, acts[0]);
      MailReached(Do(s, acts[0]), acts[1..]);
    }
  }

  /** However the loops interleave and whatever crashed: mail the MX answered 250 for is
      still queued, or was settled first. */
  lemma MailStaysUntilSettled(rules: Rules, clock: int, acts: seq<Act>)
    requires AnyRun(Boot(rules, clock), acts)
    ensures HoldsMail(AnyReached(Boot(rules, clock), acts))
  {
    MailReached(Boot(rules, clock), acts);
  }

  // ---- and it goes once the platform is done with it ----

  /** Mail the forwarder comes to with the platform's word on it, or without its bytes: the
      forward and the two steps it plans settle it and take entry and bytes away. */
  lemma DecidedIsForgotten(s: State, a: ForwardAnswer) returns (s1: State, s2: State, s3: State)
    requires Enabled(s, Forward(a))
    requires a.Decided? || a.Fatal? || s.threads[Forwarder].queue[0].id !in s.disk.received
    ensures s1 == Do(s, Forward(a)) && s.threads[Forwarder].queue[0].id in s1.settled
    ensures Forwarder in s1.threads && Todo(s1.threads[Forwarder]) != [] && s2 == TakeStep(s1, Forwarder)
    ensures Forwarder in s2.threads && Todo(s2.threads[Forwarder]) != [] && s3 == TakeStep(s2, Forwarder)
    ensures var id := s.threads[Forwarder].queue[0].id;
            s3.disk == s.disk.(inbound := s.disk.inbound - {id}, received := s.disk.received - {id})
    ensures Forwarder in s3.threads && Todo(s3.threads[Forwarder]) == []
  {
    var queue := s.threads[Forwarder].queue;
    s1 := ForwardOne(s, queue, a);
    ForwardDrops(s, queue, a);
    s2, s3 := DropsTaken(s1, queue[1..], queue[0].id);
  }

  lemma DropsTaken(s1: State, rest: seq<Received>, id: string) returns (s2: State, s3: State)
    requires Forwarder in s1.threads
    requires s1.threads[Forwarder] == Forwarding(rest, [DeleteInbound(id), RemoveReceived(id)])
    ensures Todo(s1.threads[Forwarder]) != [] && s2 == TakeStep(s1, Forwarder)
    ensures Forwarder in s2.threads && Todo(s2.threads[Forwarder]) != [] && s3 == TakeStep(s2, Forwarder)
    ensures s3.disk == s1.disk.(inbound := s1.disk.inbound - {id}, received := s1.disk.received - {id})
    ensures Forwarder in s3.threads && Todo(s3.threads[Forwarder]) == []
  {
    s2 := TakeStep(s1, Forwarder);
    s3 := TakeStep(s2, Forwarder);
  }

  lemma ForwardDrops(s: State, queue: seq<Received>, a: ForwardAnswer)
    requires queue != [] && (a.Decided? || a.Fatal? || queue[0].id !in s.disk.received)
    ensures var s1, r := ForwardOne(s, queue, a), queue[0];
            && r.id in s1.settled && s1.disk == s.disk
            && s1.threads[Forwarder] == Forwarding(queue[1..], [DeleteInbound(r.id), RemoveReceived(r.id)])
  {
  }

  /** A failed forward of mail that is there: within its lifetime it stays, bytes and all,
      due again after the gap and not settled by it; past its lifetime it goes. */
  lemma FailedIsKeptInTime(s: State, queue: seq<Received>)
    requires queue != [] && queue[0].id in s.disk.received
    ensures var s1, r := ForwardOne(s, queue, Failed), queue[0];
            if s.clock - r.receivedAt > s.rules.lifetime
            then s1.settled == s.settled + {r.id} &&
                 s1.threads[Forwarder] == Forwarding(queue[1..], [DeleteInbound(r.id), RemoveReceived(r.id)])
            else s1.settled == s.settled &&
                 s1.threads[Forwarder] == Forwarding(queue[1..], [UpdateInbound(r.(attempts := r.attempts + 1,
                   nextAttempt := s.clock + Backoff.ForwardSchedule(r.attempts + 1)))])
  {
  }
}
