/** One entry as a small machine of its own. Whatever else the node does, what becomes of
    one spool id - its entry, the attempt on it, the recipients it is done with - moves by
    a few rules. The node refines that machine, so what holds of every life holds of every
    entry of every run, sweeps and crashes included. */
module EntryLife {
  import opened Names
  import opened DurableSteps
  import opened Delivery
  import opened MxForwarding
  import opened Node
  import opened Files
  import Backoff

  /** What the attempt on a message has in hand: what it read, what it is handing over, or
      the change of the entry it still has to make. */
  datatype Hand = Idle | Ready(m: Message) | Talking(m: Message) | Storing(m: Message) | Dropping

  datatype Life = Life(known: bool, entry: Option<Message>, hand: Hand, done: set<Done>)

  datatype Move =
    | Stay
    | Accepted(m: Message)
    | Removed
    | Read
    | Abandoned
    | Connected
    | Concluded(answer: Answer, expired: bool, next: int)
    | Stored
    | Dropped
    | Forgotten

  /** What an answer has the attempt do with the entry. */
  function Consequence(m: Message, a: Answer, next: int): Hand
    requires ValidAnswer(m, a)
  {
    match a
    case NoSuchDomain => Dropping
    case RefusedOutright => Dropping
    case Unresolved => Storing(m.(nextAttempt := next))
    case SendFailed => Storing(m.(nextAttempt := next))
    case Answered(_, _) =>
      if Retry(m, a) == [] then Dropping else Storing(m.(recipients := Retry(m, a), nextAttempt := next))
  }

  ghost predicate Can(l: Life, v: Move) {
    match v
    case Stay => true
    case Accepted(m) => !l.known
    case Removed => true
    case Read => l.hand.Idle? && l.entry.Some?
    case Abandoned => l.hand.Ready?
    case Connected => l.hand.Ready?
    case Concluded(a, _, _) => l.hand.Talking? && ValidAnswer(l.hand.m, a)
    case Stored => l.hand.Storing?
    case Dropped => l.hand.Dropping?
    case Forgotten => true
  }

  ghost function Moved(l: Life, v: Move): Life
    requires Can(l, v)
  {
    match v
    case Stay => l
    case Accepted(m) => l.(known := true, entry := Some(m))
    case Removed => l.(entry := None)
    case Read => l.(hand := Ready(l.entry.value))
    case Abandoned => l.(hand := Dropping)
    case Connected => l.(hand := Talking(l.hand.m.(attempts := l.hand.m.attempts + 1)))
    case Concluded(a, _, next) => l.(hand := Consequence(l.hand.m, a, next), done := l.done + Ended(l.hand.m, a))
    case Stored => l.(entry := Some(l.hand.m), hand := Idle)
    case Dropped => l.(entry := None, hand := Idle)
    case Forgotten => l.(hand := Idle)
  }

  // ---- the life of an id in a state of the node ----

  function Change(todo: seq<Write>): Hand {
    if todo == [] then Idle
    else if todo[0].UpdateEntry? then Storing(todo[0].m)
    else if todo[0].DeleteEntry? then Dropping
    else Change(todo[1..])
  }

  function HandOf(th: Thread): Hand {
    match th
    case Queued(m) => Ready(m)
    case Sending(m, _) => Talking(m)
    case _ => Change(Todo(th))
  }

  ghost function LifeOf(s: State, id: string): Life {
    Life(id in s.ids,
         if id in s.disk.messages then Some(s.disk.messages[id]) else None,
         if Attempt(id) in s.threads then HandOf(s.threads[Attempt(id)]) else Idle,
         set d | d in s.done && d.id == id)
  }

  ghost function StepMove(t: Tid, w: Write, id: string): Move {
    if t == Attempt(id) then
      if w.UpdateEntry? then Move.Stored else if w.DeleteEntry? then Dropped else Stay
    else if w.CommitEntry? && w.m.id == id then Accepted(w.m)
    else if w.DeleteEntry? && w.id == id then Removed
    else Stay
  }

  /** How an act moves the life of an id. */
  ghost function MoveOf(s: State, a: Act, id: string): Move
    requires Enabled(s, a)
  {
    match a
    case Step(t) => StepMove(t, Todo(s.threads[t])[0], id)
    case ReadDue(due) => if id in due then Read else Stay
    case Open(i) => if i != id then Stay else if Connects(s, a, id) == 1 then Connected else Abandoned
    case Conclude(i, answer) =>
      if i != id then Stay
      else
        var m := s.threads[Attempt(id)].m;
        Concluded(answer, Expired(s.rules.lifetime, m, s.clock), s.clock + Backoff.Gap(s.rules.converted, m.attempts))
    case Crash => Forgotten
    case _ => Stay
  }

  /** How many connections an act makes for an id. */
  ghost function Connects(s: State, a: Act, id: string): nat
    requires Enabled(s, a)
  {
    if a.Open? && a.id == id && OpenAttempt(s, id, s.threads[Attempt(id)].m).threads[Attempt(id)].Sending? then 1 else 0
  }

  // ---- whose plan changes which entry ----

  /** A plan that changes no entry but `id`, and that once. */
  ghost predicate PlanOf(id: string, todo: seq<Write>) {
    && (forall w | w in todo :: !w.CommitEntry? && (OnEntry(w) ==> About(w) == Some(id)))
    && forall i, j | 0 <= i < j < |todo| && OnEntry(todo[i]) :: !OnEntry(todo[j])
  }

  ghost predicate Own(t: Tid, th: Thread) {
    if t.Attempt? then
      if th.Queued? || th.Sending? then th.m.id == t.id else PlanOf(t.id, Todo(th))
    else !th.Queued? && !th.Sending? && Aside(t, Todo(th))
  }

  /** A plan that puts new entries; only the expiry sweep's drops any. */
  ghost predicate Aside(t: Tid, todo: seq<Write>) {
    forall w | w in todo ::
      (OnEntry(w) ==> w.DeleteEntry? && t.ExpirySweep?) && (w.CommitEntry? ==> w.m.attempts == 0)
  }

  ghost predicate Owned(s: State) {
    && (forall id | id in s.disk.messages :: s.disk.messages[id].id == id && id in s.ids)
    && (forall t | t in s.threads :: Own(t, s.threads[t]) && (t.Attempt? ==> t.id in s.ids))
  }

  /** A put commits under an id no entry ever had. */
  ghost predicate NewId(s: State, a: Act)
    requires Enabled(s, a)
  {
    a.Step? && Todo(s.threads[a.t])[0].CommitEntry? ==> Todo(s.threads[a.t])[0].m.id !in s.ids
  }

  // ---- the plans of the operations ----

  lemma {:induction false} ChangeAfter(front: seq<Write>, rest: seq<Write>)
    requires forall w | w in front :: !OnEntry(w)
    ensures Change(front + rest) == Change(rest)
    decreases |front|
  {
    if front == [] {
      assert front + rest == rest;
    } else {
      assert front[0] in front && (front + rest)[1..] == front[1..] + rest;
      ChangeAfter(front[1..], rest);
    }
  }

  /** Outcomes told first, one change after them. */
  lemma ToldThen(id: string, told: seq<Write>, rest: seq<Write>)
    requires (forall w | w in told :: w.PutOutcome?) && PlanOf(id, rest)
    ensures PlanOf(id, told + rest) && Change(told + rest) == Change(rest)
  {
    ChangeAfter(told, rest);
  }

  lemma RemovePlanOf(id: string)
    ensures PlanOf(id, RemoveWrites(id)) && Change(RemoveWrites(id)) == Dropping
  {
  }

  lemma GiveUpPlanOf(m: Message, permanent: bool)
    ensures PlanOf(m.id, GiveUpWrites(m, permanent)) && Change(GiveUpWrites(m, permanent)) == Dropping
  {
    RemovePlanOf(m.id);
    ToldThen(m.id, OutcomeWrites(m.emailID, m.recipients, false, permanent), RemoveWrites(m.id));
  }

  lemma RestPlanOf(m: Message, retry: seq<string>, next: int)
    ensures PlanOf(m.id, Rest(m, retry, next))
    ensures Change(Rest(m, retry, next)) ==
            if retry == [] then Dropping else Storing(m.(recipients := retry, nextAttempt := next))
  {
    RemovePlanOf(m.id);
  }

  lemma AnswerPlanOf(m: Message, a: Answer, expired: bool, next: int)
    requires ValidAnswer(m, a)
    ensures PlanOf(m.id, AnswerWrites(m, a, expired, next))
    ensures Change(AnswerWrites(m, a, expired, next)) == Consequence(m, a, next)
  {
    match a {
      case NoSuchDomain => GiveUpPlanOf(m, !expired);
      case RefusedOutright => GiveUpPlanOf(m, !expired);
      case Unresolved =>
      case SendFailed =>
      case Answered(verdicts, _) =>
        var told := OutcomeWrites(m.emailID, Converse(m.recipients, verdicts).accepted, true, false) +
                    OutcomeWrites(m.emailID, Refusals(m, a), false, true);
        RestPlanOf(m, Retry(m, a), next);
        ToldThen(m.id, told, Rest(m, Retry(m, a), next));
    }
  }

  lemma {:induction false} AcceptAside(n: nat, ms: seq<Message>, body: Bytes, last: Fate)
    requires forall m | m in ms :: m.attempts == 0
    ensures Aside(Session(n), AcceptWrites(ms, body, last))
    decreases |ms|
  {
    if ms != [] {
      assert ms[0] in ms;
      if |ms| > 1 { AcceptAside(n, ms[1..], body, last); }
    }
  }

  lemma {:induction false} SweepAside(gone: seq<Message>)
    ensures Aside(ExpirySweep, SweepWrites(gone))
    decreases |gone|
  {
    if gone != [] { SweepAside(gone[1..]); }
  }

  // ---- every act keeps whose plan is whose ----

  lemma ArmedOwn(s: State, a: Act)
    requires Owned(s) && Enabled(s, a) && Arms(a)
    ensures Own(Worker(a), Armed(s, a)) && !Worker(a).Attempt?
  {
    match a {
      case Accept(_, ms, body, last) => AcceptAside(a.n, ms, body, last);
      case SweepExpired(gone) => SweepAside(gone);
      case _ =>
    }
  }

  lemma WithOwn(s: State, s': State, t: Tid)
    requires Owned(s) && t in s'.threads && Own(t, s'.threads[t]) && (t.Attempt? ==> t.id in s.ids)
    requires s'.threads == s.threads[t := s'.threads[t]] && s'.disk == s.disk && s'.ids == s.ids
    ensures Owned(s')
  {
  }

  lemma FewerOwn(s: State, s': State)
    requires Owned(s) && s'.disk == s.disk && s'.ids == s.ids
    requires forall u | u in s'.threads :: u in s.threads && s'.threads[u] == s.threads[u]
    ensures Owned(s')
  {
  }

  lemma StepOwn(s: State, t: Tid)
    requires Owned(s) && t in s.threads && Todo(s.threads[t]) != []
    ensures Owned(TakeStep(s, t))
  {
    var th := s.threads[t];
    var w := Todo(th)[0];
    assert w in Todo(th) && Own(t, th);
    var s1 := s.(threads := s.threads[t := Took(th)]);
    TookOwn(t, th);
    WithOwn(s, s1, t);
    if w.UpdateEntry? { assert About(w) == Some(t.id); }
    WroteOwn(s1, w);
  }

  lemma TookOwn(t: Tid, th: Thread)
    requires Own(t, th) && Todo(th) != []
    ensures Own(t, Took(th)) && Todo(Took(th)) == Todo(th)[1..]
  {
    assert forall v | v in Todo(th)[1..] :: v in Todo(th);
  }

  lemma WroteOwn(s: State, w: Write)
    requires Owned(s) && (w.UpdateEntry? ==> w.m.id in s.ids)
    ensures Owned(Stepped(s, w))
  {
  }

  lemma LaunchOwn(s: State, due: set<string>)
    requires Owned(s) && due <= s.disk.messages.Keys
    ensures Owned(Launch(s, due))
  {
    LaunchThreads(s, due);
    forall u | u in Launch(s, due).threads
      ensures Own(u, Launch(s, due).threads[u]) && (u.Attempt? ==> u.id in s.ids)
    {
      assert LaunchedOrSame(s, Launch(s, due), due, u);
    }
  }

  lemma OpenOwn(s: State, id: string, m: Message)
    requires Owned(s) && m.id == id && id in s.ids
    ensures Owned(OpenAttempt(s, id, m))
  {
    var n := m.(attempts := m.attempts + 1);
    GiveUpPlanOf(n, !Expired(s.rules.lifetime, n, s.clock));
    WithOwn(s, OpenAttempt(s, id, m), Attempt(id));
  }

  lemma ConcludeOwn(s: State, id: string, m: Message, a: Answer)
    requires Owned(s) && m.id == id && id in s.ids && ValidAnswer(m, a)
    ensures Owned(ConcludeAttempt(s, id, m, a))
  {
    AnswerPlanOf(m, a, Expired(s.rules.lifetime, m, s.clock), s.clock + Backoff.Gap(s.rules.converted, m.attempts));
    WithOwn(s, ConcludeAttempt(s, id, m, a), Attempt(id));
  }

  lemma ContinueOwn(s: State, batch: seq<Claimed>)
    requires Owned(s)
    ensures Owned(Continue(s, batch))
  {
    if batch == [] { FewerOwn(s, Continue(s, batch)); } else { WithOwn(s, Continue(s, batch), Claimer); }
  }

  lemma HearOwn(s: State, rows: map<string, Outcome>, r: ReportAnswer)
    requires Owned(s)
    ensures Owned(Hear(s, rows, r))
  {
    if r.TakenUnheard? || r.Unreachable? { FewerOwn(s, Hear(s, rows, r)); } else { WithOwn(s, Hear(s, rows, r), Reporter); }
  }

  lemma OwnKept(s: State, a: Act)
    requires Owned(s) && Enabled(s, a)
    ensures Owned(Do(s, a))
  {
    if a.Step? {
      StepOwn(s, a.t);
    } else if a.Open? || a.Conclude? {
      AttemptsOwn(s, a);
    } else if a.Tick? || a.Crash? || a.End? || a.ReadDue? {
      ThreadsOwn(s, a);
    } else {
      LoopsOwn(s, a);
    }
  }

  lemma AttemptsOwn(s: State, a: Act)
    requires Owned(s) && Enabled(s, a) && (a.Open? || a.Conclude?)
    ensures Owned(Do(s, a))
  {
    var th := s.threads[Attempt(a.id)];
    assert Own(Attempt(a.id), th);
    if a.Open? { OpenOwn(s, a.id, th.m); } else { ConcludeOwn(s, a.id, th.m, a.answer); }
  }

  lemma ThreadsOwn(s: State, a: Act)
    requires Owned(s) && Enabled(s, a) && (a.Tick? || a.Crash? || a.End? || a.ReadDue?)
    ensures Owned(Do(s, a))
  {
    match a {
      case Tick(now) => FewerOwn(s, s.(clock := now));
      case Crash => FewerOwn(s, s.(threads := map[]));
      case End(t) => FewerOwn(s, s.(threads := s.threads - {t}));
      case ReadDue(due) => LaunchOwn(s, due);
    }
  }

  lemma LoopsOwn(s: State, a: Act)
    requires Owned(s) && Enabled(s, a)
    requires a.HearReport? || a.HearClaim? || a.NextClaimed? || a.Forward? || Arms(a)
    ensures Owned(Do(s, a))
  {
    if a.HearReport? {
      HearOwn(s, s.threads[Reporter].rows, a.report);
    } else if a.HearClaim? {
      ContinueOwn(s, a.batch);
    } else if a.NextClaimed? {
      ContinueOwn(s, s.threads[Claimer].batch[1..]);
    } else if a.Forward? {
      ForwardOwn(s, s.threads[Forwarder].queue, a.forwarded);
    } else {
      ArmedOwn(s, a);
      WithOwn(s, s.(threads := s.threads[Worker(a) := Armed(s, a)]), Worker(a));
    }
  }

  lemma ForwardOwn(s: State, queue: seq<Received>, a: ForwardAnswer)
    requires Owned(s) && queue != []
    ensures Owned(ForwardOne(s, queue, a))
  {
    WithOwn(s, ForwardOne(s, queue, a), Forwarder);
  }

  // ---- the refinement ----

  /** Whatever act the node takes, the life of every id makes one move of its machine. */
  lemma ActMovesLife(s: State, a: Act, id: string)
    requires Owned(s) && Enabled(s, a) && NewId(s, a)
    ensures Can(LifeOf(s, id), MoveOf(s, a, id))
    ensures LifeOf(Do(s, a), id) == Moved(LifeOf(s, id), MoveOf(s, a, id))
  {
    if a.Step? {
      StepMoves(s, a.t, id);
    } else if a.Open? {
      OpenMoves(s, a, id);
    } else if a.Conclude? {
      ConcludeMoves(s, a, id);
    } else if a.ReadDue? {
      LaunchMoves(s, a.due, id);
    } else if a.Tick? || a.Crash? || a.End? {
      EndMoves(s, a, id);
    } else {
      LoopsStay(s, a, id);
    }
  }

  /** Nothing the life looks at has changed. */
  lemma SameLife(s: State, s': State, id: string)
    requires s'.disk.messages == s.disk.messages && s'.ids == s.ids
    requires forall d: Done | d.id == id :: d in s.done <==> d in s'.done
    requires Attempt(id) in s'.threads <==> Attempt(id) in s.threads
    requires Attempt(id) in s'.threads ==> s'.threads[Attempt(id)] == s.threads[Attempt(id)]
    ensures LifeOf(s', id) == LifeOf(s, id)
  {
  }

  lemma StepMoves(s: State, t: Tid, id: string)
    requires Owned(s) && t in s.threads && Todo(s.threads[t]) != [] && NewId(s, Step(t))
    ensures Can(LifeOf(s, id), StepMove(t, Todo(s.threads[t])[0], id))
    ensures LifeOf(TakeStep(s, t), id) == Moved(LifeOf(s, id), StepMove(t, Todo(s.threads[t])[0], id))
  {
    var th := s.threads[t];
    var w := Todo(th)[0];
    var s1 := s.(threads := s.threads[t := Took(th)]);
    assert w in Todo(th) && Own(t, th);
    TookOwn(t, th);
    if t == Attempt(id) {
      PlanMoves(id, Todo(th));
      WroteOwnLife(s1, id, w);
    } else {
      SameLife(s, s1, id);
      if w.UpdateEntry? { assert About(w) == Some(t.id); }
      WroteOtherLife(s1, t, id, w);
    }
  }

  /** After the change of a plan there is none left. */
  lemma PlanMoves(id: string, todo: seq<Write>)
    requires PlanOf(id, todo) && todo != []
    ensures Change(todo[1..]) == if OnEntry(todo[0]) then Idle else Change(todo)
  {
    if OnEntry(todo[0]) {
      NoChange(todo[1..]);
    }
  }

  lemma {:induction false} NoChange(todo: seq<Write>)
    requires forall w | w in todo :: !OnEntry(w)
    ensures Change(todo) == Idle
  {
    ChangeAfter(todo, []);
    assert todo + [] == todo;
  }

  lemma WroteOwnLife(s: State, id: string, w: Write)
    requires !w.CommitEntry? && (OnEntry(w) ==> About(w) == Some(id))
    ensures LifeOf(Stepped(s, w), id) ==
            if w.UpdateEntry? then LifeOf(s, id).(entry := Some(w.m))
            else if w.DeleteEntry? then LifeOf(s, id).(entry := None) else LifeOf(s, id)
  {
  }

  lemma WroteOtherLife(s: State, t: Tid, id: string, w: Write)
    requires t != Attempt(id) && (w.UpdateEntry? ==> w.m.id != id) && (w.CommitEntry? ==> w.m.id !in s.ids)
    ensures Can(LifeOf(s, id), StepMove(t, w, id))
    ensures LifeOf(Stepped(s, w), id) == Moved(LifeOf(s, id), StepMove(t, w, id))
  {
  }

  lemma OpenMoves(s: State, a: Act, id: string)
    requires Owned(s) && a.Open? && Enabled(s, a)
    ensures Can(LifeOf(s, id), MoveOf(s, a, id))
    ensures LifeOf(Do(s, a), id) == Moved(LifeOf(s, id), MoveOf(s, a, id))
  {
    var m := s.threads[Attempt(a.id)].m;
    var n := m.(attempts := m.attempts + 1);
    assert Own(Attempt(a.id), s.threads[Attempt(a.id)]);
    GiveUpPlanOf(n, !Expired(s.rules.lifetime, n, s.clock));
    if a.id != id { SameLife(s, OpenAttempt(s, a.id, m), id); }
  }

  lemma ConcludeMoves(s: State, a: Act, id: string)
    requires Owned(s) && a.Conclude? && Enabled(s, a)
    ensures Can(LifeOf(s, id), MoveOf(s, a, id))
    ensures LifeOf(Do(s, a), id) == Moved(LifeOf(s, id), MoveOf(s, a, id))
  {
    var m := s.threads[Attempt(a.id)].m;
    assert Own(Attempt(a.id), s.threads[Attempt(a.id)]);
    if a.id != id {
      EndedAbout(m, a.answer);
      SameLife(s, ConcludeAttempt(s, a.id, m, a.answer), id);
    } else {
      ConcludeLife(s, id, m, a.answer);
    }
  }

  lemma ConcludeLife(s: State, id: string, m: Message, a: Answer)
    requires ValidAnswer(m, a) && m.id == id
    ensures LifeOf(ConcludeAttempt(s, id, m, a), id) ==
            LifeOf(s, id).(hand := Consequence(m, a, s.clock + Backoff.Gap(s.rules.converted, m.attempts)),
                           done := LifeOf(s, id).done + Ended(m, a))
  {
    EndedAbout(m, a);
    AnswerPlanOf(m, a, Expired(s.rules.lifetime, m, s.clock), s.clock + Backoff.Gap(s.rules.converted, m.attempts));
    ConcludedLife(s, id, ConcludePlan(s, m, a), Ended(m, a),
                  Consequence(m, a, s.clock + Backoff.Gap(s.rules.converted, m.attempts)));
  }

  lemma ConcludedLife(s: State, id: string, plan: seq<Write>, more: set<Done>, hand: Hand)
    requires Change(plan) == hand && forall d | d in more :: d.id == id
    ensures LifeOf(s.(threads := s.threads[Attempt(id) := Writing(plan)], done := s.done + more), id) ==
            LifeOf(s, id).(hand := hand, done := LifeOf(s, id).done + more)
  {
    DoneAdds(s.done, more, id);
    LifeWith(s, id, Writing(plan), s.done + more);
  }

  lemma LifeWith(s: State, id: string, th: Thread, done: set<Done>)
    ensures LifeOf(s.(threads := s.threads[Attempt(id) := th], done := done), id) ==
            LifeOf(s, id).(hand := HandOf(th), done := set d | d in done && d.id == id)
  {
  }

  lemma EndedAbout(m: Message, a: Answer)
    requires ValidAnswer(m, a)
    ensures forall d | d in Ended(m, a) :: d.id == m.id
  {
  }

  lemma DoneAdds(done: set<Done>, more: set<Done>, id: string)
    requires forall d | d in more :: d.id == id
    ensures (set d | d in done + more && d.id == id) == (set d | d in done && d.id == id) + more
  {
  }

  lemma LaunchMoves(s: State, due: set<string>, id: string)
    requires Owned(s) && Enabled(s, ReadDue(due))
    ensures Can(LifeOf(s, id), if id in due then Read else Stay)
    ensures LifeOf(Launch(s, due), id) == Moved(LifeOf(s, id), if id in due then Read else Stay)
  {
    LaunchThreads(s, due);
    if Attempt(id) in Launch(s, due).threads {
      assert LaunchedOrSame(s, Launch(s, due), due, Attempt(id));
    }
  }

  lemma EndMoves(s: State, a: Act, id: string)
    requires Owned(s) && Enabled(s, a) && (a.Tick? || a.Crash? || a.End?)
    ensures Can(LifeOf(s, id), MoveOf(s, a, id))
    ensures LifeOf(Do(s, a), id) == Moved(LifeOf(s, id), MoveOf(s, a, id))
  {
    if a.End? && a.t == Attempt(id) {
      assert HandOf(s.threads[a.t]) == Idle;
    }
  }

  /** The loops and sessions that make no attempt set threads of their own up. */
  lemma LoopsStay(s: State, a: Act, id: string)
    requires Enabled(s, a) && (a.HearReport? || a.HearClaim? || a.NextClaimed? || a.Forward? || Arms(a))
    ensures LifeOf(Do(s, a), id) == LifeOf(s, id)
  {
    if a.HearReport? {
      SameLife(s, Hear(s, s.threads[Reporter].rows, a.report), id);
    } else if a.HearClaim? {
      SameLife(s, Continue(s, a.batch), id);
    } else if a.NextClaimed? {
      SameLife(s, Continue(s, s.threads[Claimer].batch[1..]), id);
    } else if a.Forward? {
      SameLife(s, ForwardOne(s, s.threads[Forwarder].queue, a.forwarded), id);
    } else {
      SameLife(s, s.(threads := s.threads[Worker(a) := Armed(s, a)]), id);
    }
  }

  // ---- over whole runs ----

  /** A run, crashes included, in which every put has an id of its own. */
  ghost predicate NewRun(s: State, acts: seq<Act>)
    decreases |acts|
  {
    acts == [] || (Enabled(s, acts[0]) && NewId(s, acts[0]) && NewRun(Do(s, acts[0]), acts[1..]))
  }

  ghost function Reaches(s: State, acts: seq<Act>): State
    requires NewRun(s, acts)
    decreases |acts|
  {
    if acts == [] then s else Reaches(Do(s, acts[0]), acts[1..])
  }

  lemma {:induction false} RunOn(s: State, a: seq<Act>, b: seq<Act>)
    requires NewRun(s, a + b)
    ensures NewRun(s, a) && NewRun(Reaches(s, a), b) && Reaches(s, a + b) == Reaches(Reaches(s, a), b)
    decreases |a|
  {
    if a == [] {
      assert a + b == b;
    } else {
      assert (a + b)[1..] == a[1..] + b;
      RunOn(Do(s, a[0]), a[1..], b);
    }
  }
}
