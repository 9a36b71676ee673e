/** Every message of the MX's own queue has its bytes, exactly as received, in every state -
    as long as the orphan sweep does not overlap a put. So mail is settled only for a
    reason the platform or the clock gave. */
module InboundFiles {
  import opened Names
  import opened DurableSteps
  import opened Delivery
  import opened MxForwarding
  import opened Node
  import opened Inbound
  import Backoff

  /** The received message or file a step is about. */
  function AboutIn(w: Write): Option<string> {
    match w
    case WriteReceived(id, _) => Some(id)
    case CommitInbound(r, _) => Some(r.id)
    case UpdateInbound(r) => Some(r.id)
    case DeleteInbound(id) => Some(id)
    case RemoveReceived(id) => Some(id)
    case _ => None
  }

  ghost predicate Receiving(w: Write) {
    w.WriteReceived? || w.CommitInbound?
  }

  ghost predicate ReceiptOf(todo: seq<Write>, id: string) {
    exists w :: w in todo && Receiving(w) && AboutIn(w) == Some(id)
  }

  /** No put is under way while the orphan sweep knows the mail and has not listed the
      directory, and none of an id whose file it is about to remove. */
  ghost predicate CalmIn(s: State) {
    OrphanSweep in s.threads ==>
      && (s.threads[OrphanSweep].SweptReceived? ==> forall t | t in s.threads :: ReceivesNone(Todo(s.threads[t])))
      && forall w, t | w in Todo(s.threads[OrphanSweep]) && w.RemoveReceived? && t in s.threads ::
           !ReceiptOf(Todo(s.threads[t]), w.id)
  }

  ghost predicate ReceivesNone(todo: seq<Write>) {
    forall w | w in todo :: !Receiving(w)
  }

  ghost predicate MentionsMail(todo: seq<Write>, id: string) {
    exists w :: w in todo && AboutIn(w) == Some(id)
  }

  ghost predicate UnusedIn(s: State, id: string) {
    && id !in s.acceptedIn
    && forall t | t in s.threads :: !MentionsMail(Todo(s.threads[t]), id)
  }

  /** Received mail gets an id of its own. */
  ghost predicate FreshIn(s: State, a: Act) {
    a.Receive? ==> UnusedIn(s, a.r.id)
  }

  /** A put under way: new, its bytes written before its entry. */
  ghost predicate MxOk(s: State, todo: seq<Write>) {
    && |todo| <= 2
    && (forall w | w in todo ::
          && (w.WriteReceived? || w.CommitInbound? || w.RemoveReceived?)
          && AboutIn(w).value !in s.acceptedIn && AboutIn(w) == AboutIn(todo[0]))
    && (todo != [] && todo[0].CommitInbound? ==>
          |todo| == 1 && todo[0].r.id in s.disk.received && s.disk.received[todo[0].r.id] == todo[0].accepted)
    && (|todo| == 2 && todo[1].CommitInbound? ==> todo[0].WriteReceived? && todo[0].body == todo[1].accepted)
  }

  /** The forwarder: what it read is still queued as it read it. */
  ghost predicate ForwarderOk(s: State, queue: seq<Received>, todo: seq<Write>) {
    && (forall i, j | 0 <= i < j < |queue| :: queue[i].id != queue[j].id)
    && (forall r | r in queue ::
          r.id in s.disk.inbound && s.disk.inbound[r.id] == r && forall w | w in todo :: AboutIn(w) != Some(r.id))
    && ForwardTodo(s, todo)
  }

  ghost predicate ForwardTodo(s: State, todo: seq<Write>) {
    || todo == []
    || (|todo| == 1 && todo[0].UpdateInbound? && todo[0].r.id in s.disk.inbound)
    || (|todo| == 2 && todo[0].DeleteInbound? && todo[1] == RemoveReceived(todo[0].id) && todo[0].id in s.disk.inbound)
    || (|todo| == 1 && todo[0].RemoveReceived? && todo[0].id !in s.disk.inbound && todo[0].id in s.acceptedIn)
  }

  ghost predicate NoMail(todo: seq<Write>) {
    forall w | w in todo :: AboutIn(w).None?
  }

  ghost predicate ThreadIn(s: State, t: Tid, th: Thread) {
    match t
    case Mx(_) => MxOk(s, Todo(th))
    case Forwarder => th.Forwarding? && ForwarderOk(s, th.queue, th.todo)
    case OrphanSweep =>
      && (th.SweptReceived? ==> s.disk.inbound.Keys <= th.known)
      && forall w | w in Todo(th) && AboutIn(w).Some? :: w.RemoveReceived? && w.id !in s.disk.inbound
    case _ => NoMail(Todo(th))
  }

  ghost predicate ShareMail(a: seq<Write>, b: seq<Write>) {
    exists v, w :: v in a && w in b && AboutIn(v) == AboutIn(w)
  }

  /** No two sessions put the same mail. */
  ghost predicate ApartIn(s: State) {
    forall t, u | t in s.threads && u in s.threads && t != u && t.Mx? && u.Mx? ::
      !ShareMail(Todo(s.threads[t]), Todo(s.threads[u]))
  }

  /** Every message queued for forwarding has the bytes it was received with. */
  ghost predicate MailHasBytes(s: State) {
    forall id | id in s.disk.inbound ::
      id in s.disk.received && id in s.acceptedIn && s.disk.received[id] == s.acceptedIn[id]
  }

  ghost predicate DiskIn(s: State) {
    MailHasBytes(s) && forall id | id in s.disk.inbound :: s.disk.inbound[id].id == id
  }

  ghost predicate InboundInv(s: State) {
    && DiskIn(s) && ApartIn(s)
    && forall t | t in s.threads :: ThreadIn(s, t, s.threads[t])
  }

  // ---- durable steps ----

  /** Nothing changed but for the mail `about`. */
  ghost predicate SameMail(s: State, s': State, about: Option<string>) {
    forall id | Some(id) != about ::
      && (id in s.disk.inbound <==> id in s'.disk.inbound)
      && (id in s.disk.inbound ==> s.disk.inbound[id] == s'.disk.inbound[id])
      && (id in s.disk.received <==> id in s'.disk.received)
      && (id in s.disk.received ==> s.disk.received[id] == s'.disk.received[id])
      && (id in s.acceptedIn <==> id in s'.acceptedIn)
  }

  lemma StepSameMail(s: State, w: Write)
    ensures SameMail(s, Stepped(s, w), AboutIn(w))
  {
  }

  ghost predicate ConcernsMail(t: Tid, th: Thread, id: string) {
    || (exists w :: w in Todo(th) && AboutIn(w) == Some(id))
    || (t.Forwarder? && th.Forwarding? && exists r :: r in th.queue && r.id == id)
  }

  lemma Aside(s: State, s': State, t: Tid, th: Thread, about: Option<string>)
    requires ThreadIn(s, t, th) && SameMail(s, s', about) && t != OrphanSweep
    requires about.Some? ==> !ConcernsMail(t, th, about.value)
    ensures ThreadIn(s', t, th)
  {
    if t.Mx? {
      AsideMx(s, s', Todo(th), about);
    } else if t.Forwarder? {
      AsideForwarder(s, s', th.queue, th.todo, about);
    }
  }

  lemma AsideMx(s: State, s': State, todo: seq<Write>, about: Option<string>)
    requires MxOk(s, todo) && SameMail(s, s', about)
    requires about.Some? ==> forall w | w in todo :: AboutIn(w) != about
    ensures MxOk(s', todo)
  {
    forall w | w in todo ensures AboutIn(w).Some? && AboutIn(w).value !in s'.acceptedIn {
      assert Some(AboutIn(w).value) != about;
    }
    if todo != [] { assert todo[0] in todo; }
  }

  lemma AsideForwarder(s: State, s': State, queue: seq<Received>, todo: seq<Write>, about: Option<string>)
    requires ForwarderOk(s, queue, todo) && SameMail(s, s', about)
    requires about.Some? ==> forall w | w in todo :: AboutIn(w) != about
    requires about.Some? ==> forall r | r in queue :: r.id != about.value
    ensures ForwarderOk(s', queue, todo)
  {
    if todo != [] { assert todo[0] in todo; }
    forall r | r in queue ensures r.id in s'.disk.inbound && s'.disk.inbound[r.id] == r {
      assert Some(r.id) != about;
    }
  }

  lemma ApartInAfter(s: State, s': State, t: Tid)
    requires ApartIn(s) && t in s.threads && Todo(s.threads[t]) != []
    requires s'.threads == s.threads[t := Took(s.threads[t])]
    ensures ApartIn(s')
  {
    assert forall w | w in Todo(s.threads[t])[1..] :: w in Todo(s.threads[t]);
    forall u, x | u in s'.threads && x in s'.threads && u != x && u.Mx? && x.Mx?
      ensures !ShareMail(Todo(s'.threads[u]), Todo(s'.threads[x]))
    {
      assert !ShareMail(Todo(s.threads[u]), Todo(s.threads[x]));
    }
  }

  lemma MxStep(s: State, t: Tid)
    requires InboundInv(s) && CalmIn(s) && t in s.threads && t.Mx? && Todo(s.threads[t]) != []
    ensures InboundInv(TakeStep(s, t))
  {
    var s', todo := TakeStep(s, t), Todo(s.threads[t]);
    var w := todo[0];
    assert ThreadIn(s, t, s.threads[t]) && w in todo;
    MxHead(s, todo);
    MxWrote(s.(threads := s'.threads), todo);
    StepSameMail(s.(threads := s'.threads), w);
    forall u | u in s'.threads && u != t ensures ThreadIn(s', u, s'.threads[u]) {
      assert ThreadIn(s, u, s.threads[u]);
      if u == OrphanSweep {
        assert w.CommitInbound? ==> ReceiptOf(todo, w.r.id);
      } else {
        MxConcernsNone(s, t, u, AboutIn(w).value);
        Aside(s, s', u, s.threads[u], AboutIn(w));
      }
    }
    ApartInAfter(s, s', t);
  }

  lemma MxHead(s: State, todo: seq<Write>)
    requires MxOk(s, todo) && todo != []
    ensures AboutIn(todo[0]).Some? && AboutIn(todo[0]).value !in s.acceptedIn
    ensures todo[0].WriteReceived? || todo[0].CommitInbound? || todo[0].RemoveReceived?
  {
    assert todo[0] in todo;
  }

  lemma MxWrote(s: State, todo: seq<Write>)
    requires DiskIn(s) && MxOk(s, todo) && todo != []
    ensures DiskIn(Stepped(s, todo[0])) && MxOk(Stepped(s, todo[0]), todo[1..])
    ensures !todo[0].CommitInbound? ==> Stepped(s, todo[0]).disk.inbound == s.disk.inbound
  {
    MxHead(s, todo);
    var s' := Stepped(s, todo[0]);
    if |todo| == 2 {
      assert todo[1..] == [todo[1]] && todo[1] in todo;
    }
  }

  lemma MxConcernsNone(s: State, t: Tid, u: Tid, id: string)
    requires InboundInv(s) && t in s.threads && t.Mx? && u in s.threads && u != t && u != OrphanSweep
    requires id !in s.acceptedIn && exists v :: v in Todo(s.threads[t]) && AboutIn(v) == Some(id)
    ensures !ConcernsMail(u, s.threads[u], id)
  {
    var th := s.threads[u];
    assert ThreadIn(s, u, th);
  }

  lemma ForwarderStep(s: State)
    requires InboundInv(s) && Forwarder in s.threads && Todo(s.threads[Forwarder]) != []
    ensures InboundInv(TakeStep(s, Forwarder))
  {
    var t := Forwarder;
    var s', th := TakeStep(s, t), s.threads[t];
    var w := th.todo[0];
    assert ThreadIn(s, t, th) && w in th.todo;
    ForwarderWrote(s.(threads := s'.threads), th.queue, th.todo);
    StepSameMail(s.(threads := s'.threads), w);
    forall u | u in s'.threads && u != t ensures ThreadIn(s', u, s'.threads[u]) {
      assert ThreadIn(s, u, s.threads[u]);
      if u != OrphanSweep {
        ForwarderConcernsNone(s, u, AboutIn(w).value);
        Aside(s, s', u, s.threads[u], AboutIn(w));
      }
    }
    ApartInAfter(s, s', t);
  }

  lemma ForwarderWrote(s: State, queue: seq<Received>, todo: seq<Write>)
    requires DiskIn(s) && ForwarderOk(s, queue, todo) && todo != []
    ensures AboutIn(todo[0]).Some? && AboutIn(todo[0]).value in s.acceptedIn
    ensures DiskIn(Stepped(s, todo[0])) && ForwarderOk(Stepped(s, todo[0]), queue, todo[1..])
    ensures Stepped(s, todo[0]).disk.inbound.Keys <= s.disk.inbound.Keys
  {
    var s', w := Stepped(s, todo[0]), todo[0];
    assert w in todo;
    forall r | r in queue ensures r.id in s'.disk.inbound && s'.disk.inbound[r.id] == r {
      assert AboutIn(w) != Some(r.id);
    }
  }

  lemma ForwarderConcernsNone(s: State, u: Tid, id: string)
    requires InboundInv(s) && u in s.threads && !u.Forwarder? && u != OrphanSweep && id in s.acceptedIn
    ensures !ConcernsMail(u, s.threads[u], id)
  {
    assert ThreadIn(s, u, s.threads[u]);
  }

  /** The orphan sweep's step, or one of a loop that touches no received mail. */
  lemma OtherStep(s: State, t: Tid)
    requires InboundInv(s) && CalmIn(s) && t in s.threads && !t.Mx? && !t.Forwarder? && Todo(s.threads[t]) != []
    ensures InboundInv(TakeStep(s, t))
  {
    var s', w := TakeStep(s, t), Todo(s.threads[t])[0];
    assert w in Todo(s.threads[t]) && ThreadIn(s, t, s.threads[t]);
    OtherWrote(s.(threads := s'.threads), w);
    assert forall v | v in Todo(s.threads[t])[1..] :: v in Todo(s.threads[t]);
    forall u | u in s'.threads && u != t ensures ThreadIn(s', u, s'.threads[u]) {
      OtherSpares(s, s', u, w);
    }
    ApartInAfter(s, s', t);
  }

  lemma OtherSpares(s: State, s': State, u: Tid, w: Write)
    requires InboundInv(s) && CalmIn(s) && u in s.threads
    requires s'.disk.inbound == s.disk.inbound && s'.acceptedIn == s.acceptedIn
    requires if AboutIn(w).None? then SameMail(s, s', None) else OrphanSweep in s.threads && u != OrphanSweep
    requires AboutIn(w).Some? ==> w in Todo(s.threads[OrphanSweep]) && w.RemoveReceived?
    requires AboutIn(w).Some? ==> s'.disk.received == s.disk.received - {w.id}
    ensures ThreadIn(s', u, s.threads[u])
  {
    assert ThreadIn(s, u, s.threads[u]);
    if AboutIn(w).Some? {
      SweepSpares(s, s', u, w);
    } else if u != OrphanSweep {
      Aside(s, s', u, s.threads[u], None);
    }
  }

  lemma OtherWrote(s: State, w: Write)
    requires DiskIn(s) && (AboutIn(w).None? || (w.RemoveReceived? && w.id !in s.disk.inbound))
    ensures var s' := Stepped(s, w);
            DiskIn(s') && s'.disk.inbound == s.disk.inbound && s'.acceptedIn == s.acceptedIn &&
            (AboutIn(w).None? ==> SameMail(s, s', None))
  {
  }

  /** A stray is removed while no put of it is under way. */
  lemma SweepSpares(s: State, s': State, u: Tid, w: Write)
    requires CalmIn(s) && OrphanSweep in s.threads && u in s.threads && ThreadIn(s, u, s.threads[u]) && u != OrphanSweep
    requires w in Todo(s.threads[OrphanSweep]) && w.RemoveReceived? && s'.disk.received == s.disk.received - {w.id}
    requires s'.disk.inbound == s.disk.inbound && s'.acceptedIn == s.acceptedIn
    ensures ThreadIn(s', u, s.threads[u])
  {
    if u.Mx? && Todo(s.threads[u]) != [] {
      assert Todo(s.threads[u])[0] in Todo(s.threads[u]);
      assert Todo(s.threads[u])[0].CommitInbound? ==> ReceiptOf(Todo(s.threads[u]), Todo(s.threads[u])[0].r.id);
    }
  }

  // ---- the other acts ----

  lemma SetUp(s: State, s': State, t: Tid)
    requires InboundInv(s) && t in s'.threads && s'.threads == s.threads[t := s'.threads[t]]
    requires s'.disk == s.disk && s'.acceptedIn == s.acceptedIn
    requires ThreadIn(s', t, s'.threads[t])
    requires t.Mx? ==> forall w | w in Todo(s'.threads[t]) :: AboutIn(w).Some? && UnusedIn(s, AboutIn(w).value)
    ensures InboundInv(s')
  {
    forall u | u in s'.threads && u != t ensures ThreadIn(s', u, s'.threads[u]) {
      assert ThreadIn(s, u, s.threads[u]);
      if u != OrphanSweep { Aside(s, s', u, s.threads[u], None); }
    }
    forall u, x | u in s'.threads && x in s'.threads && u != x && u.Mx? && x.Mx?
      ensures !ShareMail(Todo(s'.threads[u]), Todo(s'.threads[x]))
    {
      SetUpApart(s, s', t, u, x);
    }
  }

  lemma SetUpApart(s: State, s': State, t: Tid, u: Tid, x: Tid)
    requires ApartIn(s) && t in s'.threads && s'.threads == s.threads[t := s'.threads[t]]
    requires t.Mx? ==> forall w | w in Todo(s'.threads[t]) :: AboutIn(w).Some? && UnusedIn(s, AboutIn(w).value)
    requires u in s'.threads && x in s'.threads && u != x && u.Mx? && x.Mx?
    ensures !ShareMail(Todo(s'.threads[u]), Todo(s'.threads[x]))
  {
    if u != t && x != t {
      assert !ShareMail(Todo(s.threads[u]), Todo(s.threads[x]));
    }
    forall v, w | v in Todo(s'.threads[u]) && w in Todo(s'.threads[x]) ensures AboutIn(v) != AboutIn(w) {
      if u == t {
        assert !MentionsMail(Todo(s.threads[x]), AboutIn(v).value);
      } else if x == t {
        assert !MentionsMail(Todo(s.threads[u]), AboutIn(w).value);
      }
    }
  }

  /** A thread of a loop that touches no received mail. */
  lemma SetUpPlain(s: State, t: Tid, th: Thread)
    requires InboundInv(s) && !t.Mx? && !t.Forwarder? && t != OrphanSweep && NoMail(Todo(th))
    ensures InboundInv(s.(threads := s.threads[t := th]))
  {
    SetUp(s, s.(threads := s.threads[t := th]), t);
  }

  lemma Fewer(s: State, s': State)
    requires InboundInv(s) && s'.disk == s.disk && s'.acceptedIn == s.acceptedIn
    requires forall u | u in s'.threads :: u in s.threads && s'.threads[u] == s.threads[u]
    ensures InboundInv(s')
  {
    forall u | u in s'.threads ensures ThreadIn(s', u, s'.threads[u]) {
      assert ThreadIn(s, u, s.threads[u]);
      if u != OrphanSweep { Aside(s, s', u, s.threads[u], None); }
    }
  }

  lemma ArmedIn(s: State, a: Act)
    requires InboundInv(s) && Enabled(s, a) && Arms(a) && FreshIn(s, a)
    ensures ThreadIn(s, Worker(a), Armed(s, a))
    ensures Worker(a).Mx? ==> forall w | w in Todo(Armed(s, a)) :: AboutIn(w).Some? && UnusedIn(s, AboutIn(w).value)
  {
    match a {
      case Accept(_, ms, body, last) => AcceptDropsNone(ms, body, last);
      case SweepExpired(gone) => SweepDropsNone(gone);
      case ListStrayReceived(_) => assert ThreadIn(s, OrphanSweep, s.threads[OrphanSweep]);
      case Receive(_, r, body, fate) => PutIn(s, r, body, !fate.NoFile?, fate.Stored?);
      case _ =>
    }
  }

  lemma PutIn(s: State, r: Received, body: Bytes, fileOk: bool, dbOk: bool)
    requires UnusedIn(s, r.id)
    ensures MxOk(s, PutReceivedWrites(r, body, fileOk, dbOk))
    ensures forall w | w in PutReceivedWrites(r, body, fileOk, dbOk) :: AboutIn(w) == Some(r.id)
  {
  }

  /** What a thread may hold depends on the mail alone. */
  lemma ArmIn(s: State, t: Tid, th: Thread)
    requires InboundInv(s) && ThreadIn(s, t, th)
    requires t.Mx? ==> forall w | w in Todo(th) :: AboutIn(w).Some? && UnusedIn(s, AboutIn(w).value)
    ensures InboundInv(s.(threads := s.threads[t := th]))
  {
    var s' := s.(threads := s.threads[t := th]);
    if t != OrphanSweep { Aside(s, s', t, th, None); }
    SetUp(s, s', t);
  }

  lemma ForwardIn(s: State, queue: seq<Received>, a: ForwardAnswer)
    requires InboundInv(s) && queue != [] && ForwarderOk(s, queue, [])
    ensures InboundInv(ForwardOne(s, queue, a))
  {
    var s', r := ForwardOne(s, queue, a), queue[0];
    assert r in queue;
    forall q | q in queue[1..] ensures q in queue && q.id != r.id {
      var k :| 0 <= k < |queue[1..]| && queue[1..][k] == q;
      assert queue[k + 1] == q;
    }
    assert ForwarderOk(s', queue[1..], ForwardPlan(s, r, a));
    SetUp(s, s', Forwarder);
  }

  lemma LaunchIn(s: State, due: set<string>)
    requires InboundInv(s) && due <= s.disk.messages.Keys
    ensures InboundInv(Launch(s, due))
  {
    var s' := Launch(s, due);
    assert forall u | u in s'.threads && !u.Attempt? :: u in s.threads && s'.threads[u] == s.threads[u];
    forall u | u in s'.threads ensures ThreadIn(s', u, s'.threads[u]) {
      assert u in s.threads ==> ThreadIn(s, u, s.threads[u]);
      if u in s.threads && u != OrphanSweep { Aside(s, s', u, s.threads[u], None); }
    }
  }

  lemma OpenIn(s: State, id: string, m: Message)
    requires InboundInv(s)
    ensures InboundInv(OpenAttempt(s, id, m))
  {
    SetUpPlain(s, Attempt(id), OpenAttempt(s, id, m).threads[Attempt(id)]);
  }

  lemma ConcludeIn(s: State, id: string, m: Message, a: Answer)
    requires InboundInv(s) && ValidAnswer(m, a)
    ensures InboundInv(ConcludeAttempt(s, id, m, a))
  {
    AnswerDropsNone(m, a, Expired(s.rules.lifetime, m, s.clock), s.clock + Backoff.Gap(s.rules.converted, m.attempts));
    SetUp(s, ConcludeAttempt(s, id, m, a), Attempt(id));
  }

  lemma ContinueIn(s: State, batch: seq<Claimed>)
    requires InboundInv(s)
    ensures InboundInv(Continue(s, batch))
  {
    Fewer(s, s.(threads := s.threads - {Claimer}));
    SetUpPlain(s, Claimer, Grouping(batch, []));
  }

  lemma HearIn(s: State, rows: map<string, Outcome>, r: ReportAnswer)
    requires InboundInv(s)
    ensures InboundInv(Hear(s, rows, r))
  {
    var s' := Hear(s, rows, r);
    if r.TakenUnheard? || r.Unreachable? {
      Fewer(s, s');
    } else {
      SetUp(s, s', Reporter);
    }
  }

  lemma StepIn(s: State, t: Tid)
    requires InboundInv(s) && CalmIn(s) && t in s.threads && Todo(s.threads[t]) != []
    ensures InboundInv(TakeStep(s, t))
  {
    if t.Mx? {
      MxStep(s, t);
    } else if t.Forwarder? {
      ForwarderStep(s);
    } else {
      OtherStep(s, t);
    }
  }

  lemma InboundKept(s: State, a: Act)
    requires InboundInv(s) && CalmIn(s) && Enabled(s, a) && FreshIn(s, a)
    ensures InboundInv(Do(s, a))
  {
    if a.Step? {
      StepIn(s, a.t);
    } else if a.Open? {
      OpenIn(s, a.id, s.threads[Attempt(a.id)].m);
    } else if a.Conclude? {
      ConcludeIn(s, a.id, s.threads[Attempt(a.id)].m, a.answer);
    } else if a.Tick? || a.Crash? || a.End? || a.ReadDue? {
      ThreadsIn(s, a);
    } else {
      LoopsIn(s, a);
    }
  }

  lemma ThreadsIn(s: State, a: Act)
    requires InboundInv(s) && Enabled(s, a) && (a.Tick? || a.Crash? || a.End? || a.ReadDue?)
    ensures InboundInv(Do(s, a))
  {
    match a {
      case Tick(now) => Fewer(s, s.(clock := now));
      case Crash => Fewer(s, s.(threads := map[]));
      case End(t) => Fewer(s, s.(threads := s.threads - {t}));
      case ReadDue(due) => LaunchIn(s, due);
    }
  }

  lemma LoopsIn(s: State, a: Act)
    requires InboundInv(s) && Enabled(s, a) && FreshIn(s, a)
    requires a.HearReport? || a.HearClaim? || a.NextClaimed? || a.Forward? || Arms(a)
    ensures InboundInv(Do(s, a))
  {
    if a.HearReport? {
      HearIn(s, s.threads[Reporter].rows, a.report);
    } else if a.HearClaim? {
      ContinueIn(s, a.batch);
    } else if a.NextClaimed? {
      ContinueIn(s, s.threads[Claimer].batch[1..]);
    } else if a.Forward? {
      assert ThreadIn(s, Forwarder, s.threads[Forwarder]);
      ForwardIn(s, s.threads[Forwarder].queue, a.forwarded);
    } else {
      ArmedIn(s, a);
      ArmIn(s, Worker(a), Armed(s, a));
    }
  }

  // ---- over whole runs ----

  /** A run in which received mail gets ids of its own and, when `apart`, its puts are kept
      apart from the orphan sweep. */
  ghost predicate MailRun(apart: bool, s: State, acts: seq<Act>)
    decreases |acts|
  {
    && (apart ==> CalmIn(s))
    && (acts == [] || (Enabled(s, acts[0]) && FreshIn(s, acts[0]) && MailRun(apart, Do(s, acts[0]), acts[1..])))
  }

  ghost function MailAfter(apart: bool, s: State, acts: seq<Act>): State
    requires MailRun(apart, s, acts)
    decreases |acts|
  {
    if acts == [] then s else MailAfter(apart, Do(s, acts[0]), acts[1..])
  }

  lemma {:induction false} InboundReached(s: State, acts: seq<Act>)
    requires InboundInv(s) && MailRun(true, s, acts)
    ensures InboundInv(MailAfter(true, s, acts)) && CalmIn(MailAfter(true, s, acts))
    decreases |acts|
  {
    if acts != [] {
      InboundKept(s, acts[0]);
      InboundReached(Do(s, acts[0]), acts[1..]);
    }
  }

  /** Whatever crashed and whenever: mail queued for the platform has exactly the bytes it
      was received with. */
  lemma ReceivedMailHasItsBytes(rules: Rules, clock: int, acts: seq<Act>)
    requires MailRun(true, Boot(rules, clock), acts)
    ensures MailHasBytes(MailAfter(true, Boot(rules, clock), acts))
  {
    InboundReached(Boot(rules, clock), acts);
  }

  /** Mail still queued is settled only by the forward that found the platform deciding on
      it or refusing it for good, or failed once its lifetime was over. */
  lemma SettledForAReason(rules: Rules, clock: int, acts: seq<Act>, a: Act, id: string)
    requires MailRun(true, Boot(rules, clock), acts)
    requires var s := MailAfter(true, Boot(rules, clock), acts);
             Enabled(s, a) && id !in s.settled && id in Do(s, a).settled
    ensures var s := MailAfter(true, Boot(rules, clock), acts);
            && a.Forward? && id in s.disk.inbound
            && (a.forwarded.Failed? ==> s.clock - s.disk.inbound[id].receivedAt > s.rules.lifetime)
  {
    InboundReached(Boot(rules, clock), acts);
    var s := MailAfter(true, Boot(rules, clock), acts);
    OnlyForwardsSettle(s, a);
    assert ThreadIn(s, Forwarder, s.threads[Forwarder]);
    assert s.threads[Forwarder].queue[0] in s.threads[Forwarder].queue;
  }

  lemma OnlyForwardsSettle(s: State, a: Act)
    requires Enabled(s, a) && Do(s, a).settled != s.settled
    ensures a.Forward?
    ensures Do(s, a).settled == s.settled + {s.threads[Forwarder].queue[0].id}
  {
  }

  // ---- what keeping them apart is worth, exactly ----

  /** Some run gets there, nothing kept apart. */
  ghost predicate LeadsIn(s: State, s': State) {
    exists acts :: MailRun(false, s, acts) && MailAfter(false, s, acts) == s'
  }

  lemma LeadsInTo(s: State, a: Act, s': State, end: State)
    requires Enabled(s, a) && FreshIn(s, a) && Do(s, a) == s' && LeadsIn(s', end)
    ensures LeadsIn(s, end)
  {
    var rest :| MailRun(false, s', rest) && MailAfter(false, s', rest) == end;
    var acts := [a] + rest;
    assert acts[0] == a && acts[1..] == rest;
    assert MailRun(false, s, acts) && MailAfter(false, s, acts) == end;
  }

  lemma LeadsInStep(s: State, t: Tid, todo: seq<Write>, end: State)
    requires t in s.threads && s.threads[t] == Writing(todo) && todo != []
    requires LeadsIn(Stepped(s.(threads := s.threads[t := Writing(todo[1..])]), todo[0]), end)
    ensures LeadsIn(s, end)
  {
    assert TakeStep(s, t) == Stepped(s.(threads := s.threads[t := Writing(todo[1..])]), todo[0]);
    LeadsInTo(s, Step(t), TakeStep(s, t), end);
  }

  lemma LeadsInArmed(s: State, a: Act, th: Thread, end: State)
    requires Enabled(s, a) && Arms(a) && FreshIn(s, a) && Armed(s, a) == th
    requires LeadsIn(s.(threads := s.threads[Worker(a) := th]), end)
    ensures LeadsIn(s, end)
  {
    LeadsInTo(s, a, s.(threads := s.threads[Worker(a) := th]), end);
  }

  lemma LeadsInKnown(s: State, end: State)
    requires OrphanSweep !in s.threads
    requires LeadsIn(s.(threads := s.threads[OrphanSweep := SweptReceived(s.disk.inbound.Keys)]), end)
    ensures LeadsIn(s, end)
  {
    LeadsInArmed(s, ReadKnownReceived, SweptReceived(s.disk.inbound.Keys), end);
  }

  lemma LeadsInReceived(s: State, r: Received, body: Bytes, end: State)
    requires Mx(0) !in s.threads && UnusedIn(s, r.id)
    requires LeadsIn(s.(threads := s.threads[Mx(0) := Writing(PutReceivedWrites(r, body, true, true))]), end)
    ensures LeadsIn(s, end)
  {
    LeadsInArmed(s, Receive(0, r, body, Fate.Stored), Writing(PutReceivedWrites(r, body, true, true)), end);
  }

  lemma LeadsInListed(s: State, id: string, end: State)
    requires OrphanSweep in s.threads && s.threads[OrphanSweep].SweptReceived?
    requires id in s.disk.received && id !in s.threads[OrphanSweep].known
    requires LeadsIn(s.(threads := s.threads[OrphanSweep := Writing([RemoveReceived(id)])]), end)
    ensures LeadsIn(s, end)
  {
    assert UnlinksReceived([id]) == [RemoveReceived(id)];
    LeadsInArmed(s, ListStrayReceived([id]), Writing([RemoveReceived(id)]), end);
  }

  /** From any idle node, any new mail: a sweep that overlaps its put, no crash and no
      failure, ends with it answered 250, queued, and without its bytes. */
  lemma SweepDuringReceiptLosesBytes(s: State, r: Received, body: Bytes) returns (lost: State)
    requires s.threads == map[] && r.id !in s.acceptedIn && r.id !in s.disk.inbound
    ensures LeadsIn(s, lost) && !MailHasBytes(lost)
    ensures lost.disk.inbound == s.disk.inbound[r.id := r.(size := |body|)] && r.id !in lost.disk.received
    ensures lost.acceptedIn == s.acceptedIn[r.id := body]
  {
    var put := PutReceivedWrites(r, body, true, true);
    var known := s.disk.inbound.Keys;
    var s1 := s.(threads := s.threads[OrphanSweep := SweptReceived(known)]);
    var s2 := s1.(threads := s1.threads[Mx(0) := Writing(put)]);
    var s3 := Stepped(s2.(threads := s2.threads[Mx(0) := Writing(put[1..])]), put[0]);
    lost := ReceiptSweptAway(s3, r, body, known);
    LeadsInStep(s2, Mx(0), put, lost);
    LeadsInReceived(s1, r, body, lost);
    LeadsInKnown(s, lost);
  }

  lemma ReceiptSweptAway(s: State, r: Received, body: Bytes, known: set<string>) returns (lost: State)
    requires r.id !in known && r.id in s.disk.received
    requires s.threads == map[OrphanSweep := SweptReceived(known), Mx(0) := Writing([CommitInbound(r.(size := |body|), body)])]
    ensures LeadsIn(s, lost) && !MailHasBytes(lost)
    ensures lost.disk.inbound == s.disk.inbound[r.id := r.(size := |body|)] && r.id !in lost.disk.received
    ensures lost.acceptedIn == s.acceptedIn[r.id := body]
  {
    var remove := [RemoveReceived(r.id)];
    var s1 := s.(threads := s.threads[OrphanSweep := Writing(remove)]);
    var s2 := Stepped(s1.(threads := s1.threads[OrphanSweep := Writing(remove[1..])]), remove[0]);
    lost := ReceiptCommitted(s2, r, body);
    LeadsInStep(s1, OrphanSweep, remove, lost);
    LeadsInListed(s, r.id, lost);
  }

  lemma ReceiptCommitted(s: State, r: Received, body: Bytes) returns (lost: State)
    requires r.id !in s.disk.received
    requires Mx(0) in s.threads && s.threads[Mx(0)] == Writing([CommitInbound(r.(size := |body|), body)])
    ensures LeadsIn(s, lost) && !MailHasBytes(lost)
    ensures lost.disk.inbound == s.disk.inbound[r.id := r.(size := |body|)] && lost.disk.received == s.disk.received
    ensures lost.acceptedIn == s.acceptedIn[r.id := body]
  {
    var commit := [CommitInbound(r.(size := |body|), body)];
    lost := Stepped(s.(threads := s.threads[Mx(0) := Writing(commit[1..])]), commit[0]);
    assert MailRun(false, lost, []) && MailAfter(false, lost, []) == lost;
    LeadsInStep(s, Mx(0), commit, lost);
  }

  /** Queued mail has its bytes in every run exactly when puts of received mail are kept
      apart from the orphan sweep. */
  lemma MailHasBytesExactly(apart: bool, rules: Rules, clock: int)
    ensures (forall acts | MailRun(apart, Boot(rules, clock), acts) ::
               MailHasBytes(MailAfter(apart, Boot(rules, clock), acts)))
            <==> apart
  {
    var s := Boot(rules, clock);
    if apart {
      forall acts | MailRun(apart, s, acts) ensures MailHasBytes(MailAfter(apart, s, acts)) {
        ReceivedMailHasItsBytes(rules, clock, acts);
      }
    } else {
      var r := Received("1", "a@e.com", ["b@e.org"], "", "", 0, clock, clock, 0);
      var lost := SweepDuringReceiptLosesBytes(s, r, []);
      var acts :| MailRun(false, s, acts) && MailAfter(false, s, acts) == lost;
      assert !MailHasBytes(MailAfter(apart, s, acts));
    }
  }
}
