/** The relay node as a state machine.

    Its loops and SMTP sessions are threads. A thread keeps what it read and the durable
    steps it still has to take; any thread may take its next step at any time, and a
    crash may fall between any two steps, which forgets every thread and nothing else.
    There is one thread per loop and one attempt per message, as in the node; SMTP
    sessions may run in any number. */
module Node {
  import opened Names
  import opened DurableSteps
  import opened SpoolFiles
  import opened Delivery
  import opened MxForwarding
  import Backoff

  datatype Tid =
    | Session(n: nat) | Mx(n: nat) | Attempt(id: string)
    | ExpirySweep | OrphanSweep | Reporter | Claimer | Forwarder

  /** One message of a claim's answer; `recipients` are the ones not yet looked at. */
  datatype Claimed = Claimed(email: string, from: string, recipients: seq<string>, body: Bytes)

  datatype Thread =
    | Queued(m: Message)
    | Sending(m: Message, body: Bytes)
    | Writing(todo: seq<Write>)
    | Swept(known: set<string>)
    | SweptReceived(known: set<string>)
    | Reporting(rows: map<string, Outcome>)
    | Asking(holding: set<string>)
    | Grouping(batch: seq<Claimed>, kept: seq<string>)
    | Placing(batch: seq<Claimed>, groups: map<string, seq<string>>, todo: seq<Write>)
    | Forwarding(queue: seq<Received>, todo: seq<Write>)

  /** The durable steps a thread still has to take. */
  function Todo(th: Thread): seq<Write> {
    match th
    case Writing(todo) => todo
    case Placing(_, _, todo) => todo
    case Forwarding(_, todo) => todo
    case _ => []
  }

  function Took(th: Thread): Thread
    requires Todo(th) != []
  {
    match th
    case Writing(todo) => Writing(todo[1..])
    case Placing(batch, groups, todo) => Placing(batch, groups, todo[1..])
    case Forwarding(queue, todo) => Forwarding(queue, todo[1..])
  }

  /** A recipient of one accepted entry. */
  datatype Held = Held(id: string, email: string, rcpt: string)

  /** A recipient of one entry whose delivery is over. */
  datatype Done = Done(id: string, rcpt: string)

  datatype Rules = Rules(lifetime: int, converted: nat -> int)

  /** The node, and beside it what the world around it knows. `committed` are the
      recipients of every entry ever accepted and `ids` the entries; `accepted` and
      `acceptedIn` their bytes. `reported` is what the platform has taken, `dropped` what
      went with a batch it refused for good, `done` what a destination took or refused,
      and `settled` the received mail the node may forget. */
  datatype State = State(rules: Rules, clock: int, disk: Disk, threads: map<Tid, Thread>,
                         ids: set<string>, committed: set<Held>, accepted: map<string, Bytes>,
                         done: set<Done>, reported: set<Pair>, dropped: set<Pair>,
                         acceptedIn: map<string, Bytes>, settled: set<string>)

  function Boot(rules: Rules, clock: int): State {
    State(rules, clock, EMPTY, map[], {}, {}, map[], {}, {}, {}, map[], {})
  }

  /** How the put of an entry ends. */
  datatype Fate = Stored | NoFile | NoEntry

  datatype ReportAnswer = Taken | TakenUnheard | RefusedForGood | Unreachable

  datatype Act =
    | Tick(now: int)
    | Accept(n: nat, ms: seq<Message>, body: Bytes, last: Fate)
    | ReadDue(due: set<string>)
    | Open(id: string)
    | Conclude(id: string, answer: Answer)
    | SweepExpired(gone: seq<Message>)
    | ReadOutcomes(keys: set<string>)
    | HearReport(report: ReportAnswer)
    | ReadHolding(holding: set<string>)
    | HearClaim(batch: seq<Claimed>)
    | ReadRecipient
    | GroupRecipients
    | Place(domain: string, id: string, fate: Fate)
    | NextClaimed
    | Receive(n: nat, r: Received, body: Bytes, fate: Fate)
    | ReadReceived(queue: seq<Received>)
    | Forward(forwarded: ForwardAnswer)
    | ReadKnown
    | ReadKnownReceived
    | ListStray(files: seq<string>)
    | ListStrayReceived(files: seq<string>)
    | Step(t: Tid)
    | End(t: Tid)
    | Crash

  /** The puts of one handed-over message, one per domain. The first that fails ends the
      session's Data with a refusal. */
  function AcceptWrites(ms: seq<Message>, body: Bytes, last: Fate): seq<Write> {
    if ms == [] then []
    else if |ms| == 1 then PutWrites(ms[0], body, !last.NoFile?, last.Stored?)
    else PutWrites(ms[0], body, true, true) + AcceptWrites(ms[1..], body, last)
  }

  function Unlinks(files: seq<string>): (ws: seq<Write>)
    ensures |ws| == |files| && forall i | 0 <= i < |ws| :: ws[i] == RemoveBody(files[i])
  {
    seq(|files|, i requires 0 <= i < |files| => RemoveBody(files[i]))
  }

  function UnlinksReceived(files: seq<string>): (ws: seq<Write>)
    ensures |ws| == |files| && forall i | 0 <= i < |ws| :: ws[i] == RemoveReceived(files[i])
  {
    seq(|files|, i requires 0 <= i < |files| => RemoveReceived(files[i]))
  }

  /** Whether the claim loop spools this recipient: it has a domain, and no outcome for it
      waits to be reported. */
  predicate Wanted(d: Disk, email: string, rcpt: string) {
    Domain(rcpt).Some? && Domain(rcpt).value != "" && OutcomeKey(email, rcpt) !in d.outcomes
  }

  function ClaimedMessage(c: Claimed, domain: string, id: string, rcpts: seq<string>, now: int): Message {
    Message(id, c.email, c.from, domain, rcpts, 0, now, now, 0)
  }

  function Pairs(rows: map<string, Outcome>): set<Pair> {
    set k | k in rows :: rows[k].Of()
  }

  ghost predicate Enabled(s: State, a: Act) {
    match a
    case Tick(now) => now >= s.clock
    case Accept(n, ms, body, last) =>
      && Session(n) !in s.threads && ms != []
      && (forall i, j | 0 <= i < j < |ms| :: ms[i].id != ms[j].id)
      && (forall m | m in ms :: m.attempts == 0 && m.nextAttempt == m.acceptedAt)
    case ReadDue(due) =>
      && (forall t | t in s.threads :: !t.Attempt?)
      && due <= s.disk.messages.Keys && forall id | id in due :: IsDue(s.disk.messages[id], s.clock)
    case Open(id) => Attempt(id) in s.threads && s.threads[Attempt(id)].Queued?
    case Conclude(id, answer) =>
      Attempt(id) in s.threads && s.threads[Attempt(id)].Sending? && ValidAnswer(s.threads[Attempt(id)].m, answer)
    case SweepExpired(gone) =>
      && ExpirySweep !in s.threads && (gone != [] ==> s.rules.lifetime > 0)
      && (forall i, j | 0 <= i < j < |gone| :: gone[i].id != gone[j].id)
      && forall m | m in gone :: m.id in s.disk.messages && s.disk.messages[m.id] == m
    case ReadOutcomes(keys) => Reporter !in s.threads && keys != {} && keys <= s.disk.outcomes.Keys
    case HearReport(_) => Reporter in s.threads && s.threads[Reporter].Reporting?
    case ReadHolding(holding) => Claimer !in s.threads && holding <= HeldEmails(s.disk)
    case HearClaim(batch) => Claimer in s.threads && s.threads[Claimer].Asking?
    case ReadRecipient =>
      && Claimer in s.threads && s.threads[Claimer].Grouping? && s.threads[Claimer].batch != []
      && s.threads[Claimer].batch[0].recipients != []
    case GroupRecipients =>
      && Claimer in s.threads && s.threads[Claimer].Grouping? && s.threads[Claimer].batch != []
      && s.threads[Claimer].batch[0].recipients == []
    case Place(domain, id, _) =>
      && Claimer in s.threads && s.threads[Claimer].Placing? && s.threads[Claimer].batch != []
      && s.threads[Claimer].todo == [] && domain in s.threads[Claimer].groups
    case NextClaimed =>
      && Claimer in s.threads && s.threads[Claimer].Placing? && s.threads[Claimer].batch != []
      && s.threads[Claimer].todo == [] && s.threads[Claimer].groups == map[]
    case Receive(n, r, body, fate) => Mx(n) !in s.threads
    case ReadReceived(queue) =>
      && Forwarder !in s.threads
      && (forall i, j | 0 <= i < j < |queue| :: queue[i].id != queue[j].id)
      && forall r | r in queue :: r.id in s.disk.inbound && s.disk.inbound[r.id] == r
    case Forward(_) =>
      && Forwarder in s.threads && s.threads[Forwarder].Forwarding?
      && s.threads[Forwarder].todo == [] && s.threads[Forwarder].queue != []
    case ReadKnown => OrphanSweep !in s.threads
    case ReadKnownReceived => OrphanSweep !in s.threads
    case ListStray(files) =>
      && OrphanSweep in s.threads && s.threads[OrphanSweep].Swept?
      && forall f | f in files :: f in s.disk.bodies && f !in s.threads[OrphanSweep].known
    case ListStrayReceived(files) =>
      && OrphanSweep in s.threads && s.threads[OrphanSweep].SweptReceived?
      && forall f | f in files :: f in s.disk.received && f !in s.threads[OrphanSweep].known
    case Step(t) => t in s.threads && Todo(s.threads[t]) != []
    case End(t) => t in s.threads && Todo(s.threads[t]) == [] && !s.threads[t].Queued? && !s.threads[t].Sending?
    case Crash => true
  }

  /** A pass: one attempt for every message read as due. */
  function Launch(s: State, due: set<string>): State
    requires due <= s.disk.messages.Keys
  {
    s.(threads := s.threads + map id | id in due :: Attempt(id) := Queued(s.disk.messages[id]))
  }

  /** The thread of a message claimed next, if there is one. */
  function Continue(s: State, batch: seq<Claimed>): State {
    if batch == [] then s.(threads := s.threads - {Claimer})
    else s.(threads := s.threads[Claimer := Grouping(batch, [])])
  }

  /** What a durable step leaves beside the disk. */
  function Witness(s: State, w: Write): State {
    match w
    case CommitEntry(m, body) =>
      s.(ids := s.ids + {m.id}, accepted := s.accepted[m.id := body],
         committed := s.committed + (set r | r in m.recipients :: Held(m.id, m.emailID, r)))
    case CommitInbound(r, body) => s.(acceptedIn := s.acceptedIn[r.id := body])
    case _ => s
  }

  /** The node after one durable step. */
  function Stepped(s: State, w: Write): State {
    Witness(s.(disk := Apply(s.disk, w)), w)
  }

  function TakeStep(s: State, t: Tid): State
    requires t in s.threads && Todo(s.threads[t]) != []
  {
    Stepped(s.(threads := s.threads[t := Took(s.threads[t])]), Todo(s.threads[t])[0])
  }

  function ReadOne(s: State, th: Thread): Thread
    requires th.Grouping? && th.batch != [] && th.batch[0].recipients != []
  {
    var c := th.batch[0];
    Grouping([c.(recipients := c.recipients[1..])] + th.batch[1..],
             if Wanted(s.disk, c.email, c.recipients[0]) then th.kept + [c.recipients[0]] else th.kept)
  }

  function Finished(id: string, rcpts: seq<string>): set<Done> {
    set r | r in rcpts :: Done(id, r)
  }

  function OpenAttempt(s: State, id: string, m: Message): State {
    var n := m.(attempts := m.attempts + 1);
    if Expired(s.rules.lifetime, n, s.clock) || m.id !in s.disk.bodies then
      s.(threads := s.threads[Attempt(id) := Writing(GiveUpWrites(n, !Expired(s.rules.lifetime, n, s.clock)))])
    else
      s.(threads := s.threads[Attempt(id) := Sending(n, s.disk.bodies[m.id])])
  }

  /** The recipients whose delivery an answer ends, one way or the other. */
  function Ended(m: Message, a: Answer): set<Done>
    requires ValidAnswer(m, a)
  {
    match a
    case Answered(verdicts, _) =>
      Finished(m.id, Converse(m.recipients, verdicts).accepted) + Finished(m.id, Refusals(m, a))
    case NoSuchDomain => Finished(m.id, m.recipients)
    case RefusedOutright => Finished(m.id, m.recipients)
    case _ => {}
  }

  /** Over for everybody a destination took or refused for good, and for nobody else. */
  lemma EndedAre(m: Message, a: Answer, d: Done)
    requires ValidAnswer(m, a)
    ensures d in Ended(m, a) <==>
              && d.id == m.id
              && ((a.Answered? && d.rcpt in Converse(m.recipients, a.verdicts).accepted) ||
                  (a.Answered? && d.rcpt in Refusals(m, a)) ||
                  ((a.NoSuchDomain? || a.RefusedOutright?) && d.rcpt in m.recipients))
  {
  }

  function ConcludePlan(s: State, m: Message, a: Answer): seq<Write>
    requires ValidAnswer(m, a)
  {
    AnswerWrites(m, a, Expired(s.rules.lifetime, m, s.clock), s.clock + Backoff.Gap(s.rules.converted, m.attempts))
  }

  function ConcludeAttempt(s: State, id: string, m: Message, a: Answer): State
    requires ValidAnswer(m, a)
  {
    s.(threads := s.threads[Attempt(id) := Writing(ConcludePlan(s, m, a))], done := s.done + Ended(m, a))
  }

  /** An attempt's two steps of the machine, its opening and its conclusion, take together
      the durable steps of one whole attempt. */
  lemma AttemptIsItsSteps(s: State, s': State, id: string, m: Message, t: Try)
    requires ValidAnswer(m, t.answer) && m.id == id && s'.rules == s.rules
    requires t.started == s.clock && t.ended == s'.clock
    ensures var first := OpenAttempt(s, id, m).threads[Attempt(id)];
            var whole := AttemptWrites(s.rules.converted, s.rules.lifetime, m, id in s.disk.bodies, t);
            if first.Sending? then ValidAnswer(first.m, t.answer) && ConcludePlan(s', first.m, t.answer) == whole
            else s'.clock == s.clock ==> Todo(first) == whole
  {
    var n := m.(attempts := m.attempts + 1);
    assert n.recipients == m.recipients;
  }

  function Hear(s: State, rows: map<string, Outcome>, r: ReportAnswer): State {
    match r
    case Taken =>
      s.(reported := s.reported + Pairs(rows), threads := s.threads[Reporter := Writing([DeleteOutcomes(rows.Keys)])])
    case TakenUnheard =>
      s.(reported := s.reported + Pairs(rows), threads := s.threads - {Reporter})
    case RefusedForGood =>
      s.(dropped := s.dropped + Pairs(rows), threads := s.threads[Reporter := Writing([DeleteOutcomes(rows.Keys)])])
    case Unreachable =>
      s.(threads := s.threads - {Reporter})
  }

  /** One entry of a claimed message: left alone when its id is already spooled. A failed
      put ends this message. */
  function PlaceGroup(s: State, th: Thread, domain: string, id: string, fate: Fate): Thread
    requires th.Placing? && th.batch != [] && domain in th.groups
  {
    if id in s.disk.messages then Placing(th.batch, th.groups - {domain}, [])
    else Placing(th.batch, if fate.Stored? then th.groups - {domain} else map[],
                 PutWrites(ClaimedMessage(th.batch[0], domain, id, th.groups[domain], s.clock), th.batch[0].body,
                           !fate.NoFile?, fate.Stored?))
  }

  predicate Settles(s: State, r: Received, a: ForwardAnswer) {
    SettledBy(r.id in s.disk.received, r, a, s.clock, s.rules.lifetime)
  }

  function ForwardPlan(s: State, r: Received, a: ForwardAnswer): seq<Write> {
    ForwardWrites(r.id in s.disk.received, r, a, s.clock, s.rules.lifetime)
  }

  function ForwardOne(s: State, queue: seq<Received>, a: ForwardAnswer): State
    requires queue != []
  {
    s.(threads := s.threads[Forwarder := Forwarding(queue[1..], ForwardPlan(s, queue[0], a))],
       settled := if Settles(s, queue[0], a) then s.settled + {queue[0].id} else s.settled)
  }

  /** Acts that do nothing but set one thread up. */
  predicate Arms(a: Act) {
    !a.Tick? && !a.ReadDue? && !a.Open? && !a.Conclude? && !a.HearReport? && !a.HearClaim? && !a.NextClaimed? &&
    !a.Forward? && !a.Step? && !a.End? && !a.Crash?
  }

  function Worker(a: Act): Tid
    requires Arms(a)
  {
    match a
    case Accept(n, _, _, _) => Session(n)
    case SweepExpired(_) => ExpirySweep
    case ReadOutcomes(_) => Reporter
    case Receive(n, _, _, _) => Mx(n)
    case ReadReceived(_) => Forwarder
    case ReadHolding(_) => Claimer
    case ReadRecipient => Claimer
    case GroupRecipients => Claimer
    case Place(_, _, _) => Claimer
    case _ => OrphanSweep
  }

  function Armed(s: State, a: Act): Thread
    requires Enabled(s, a) && Arms(a)
  {
    match a
    case Accept(_, ms, body, last) => Writing(AcceptWrites(ms, body, last))
    case SweepExpired(gone) => Writing(SweepWrites(gone))
    case ReadOutcomes(keys) => Reporting(map k | k in keys :: s.disk.outcomes[k])
    case Receive(_, r, body, fate) => Writing(PutReceivedWrites(r, body, !fate.NoFile?, fate.Stored?))
    case ReadReceived(queue) => Forwarding(queue, [])
    case ReadHolding(holding) => Asking(holding)
    case ReadRecipient => ReadOne(s, s.threads[Claimer])
    case GroupRecipients => Placing(s.threads[Claimer].batch, ByDomain(s.threads[Claimer].kept), [])
    case Place(domain, id, fate) => PlaceGroup(s, s.threads[Claimer], domain, id, fate)
    case ReadKnown => Swept(s.disk.messages.Keys)
    case ReadKnownReceived => SweptReceived(s.disk.inbound.Keys)
    case ListStray(files) => Writing(Unlinks(files))
    case ListStrayReceived(files) => Writing(UnlinksReceived(files))
  }

  function Do(s: State, a: Act): State
    requires Enabled(s, a)
  {
    match a
    case Tick(now) => s.(clock := now)
    case ReadDue(due) => Launch(s, due)
    case Open(id) => OpenAttempt(s, id, s.threads[Attempt(id)].m)
    case Conclude(id, answer) => ConcludeAttempt(s, id, s.threads[Attempt(id)].m, answer)
    case HearReport(report) => Hear(s, s.threads[Reporter].rows, report)
    case HearClaim(batch) => Continue(s, batch)
    case NextClaimed => Continue(s, s.threads[Claimer].batch[1..])
    case Forward(forwarded) => ForwardOne(s, s.threads[Forwarder].queue, forwarded)
    case Step(t) => TakeStep(s, t)
    case End(t) => s.(threads := s.threads - {t})
    case Crash => s.(threads := map[])
    case _ => s.(threads := s.threads[Worker(a) := Armed(s, a)])
  }
}
