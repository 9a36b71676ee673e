/** A pull node spools each recipient of an email once. Under the platform's claim
    contract, whatever the interleaving of claims, attempts, sweeps, reports and crashes,
    an entry is never put for a recipient some earlier entry already held - so none that
    was delivered, refused or given up comes back. */
module ClaimOnce {
  import opened Names
  import opened DurableSteps
  import opened SpoolFiles
  import opened Delivery
  import opened MxForwarding
  import opened Node
  import opened Conservation
  import Backoff

  /** The platform's side: the recipients of every email assigned to this node, and the
      digest that names domains. */
  datatype Platform = Platform(recipients: map<string, set<string>>, tag: string -> string)

  /** Email ids are not empty and hold no separator, digests have one length, and no two
      domains of one email share a digest. */
  ghost predicate WellFormed(p: Platform) {
    && FixedLength(p.tag)
    && (forall e | e in p.recipients :: e != "" && SEPARATOR !in e)
    && (forall e, q, r | e in p.recipients && q in p.recipients[e] && r in p.recipients[e]
                         && Domain(q).Some? && Domain(r).Some? && p.tag(Domain(q).value) == p.tag(Domain(r).value) ::
          Domain(q) == Domain(r))
  }

  /** The claim contract on one message of an answer: assigned, not named as held, and all
      of its recipients that are not yet reported. */
  ghost predicate Offered(p: Platform, s: State, holding: set<string>, c: Claimed) {
    && c.email in p.recipients && c.email !in holding
    && forall r :: r in c.recipients <==> r in p.recipients[c.email] && Pair(c.email, r) !in s.reported
  }

  /** What a run of a pull node respects: mail comes by claims only, the held ids were
      read in full, the platform keeps its contract and refuses no report for good. */
  ghost predicate Honest(p: Platform, s: State, a: Act)
    requires Enabled(s, a)
  {
    match a
    case Accept(_, _, _, _) => false
    case ReadHolding(holding) => holding == HeldEmails(s.disk)
    case HearClaim(batch) =>
      && (forall i, j | 0 <= i < j < |batch| :: batch[i].email != batch[j].email)
      && forall c | c in batch :: Offered(p, s, s.threads[Claimer].holding, c)
    case HearReport(report) => !report.RefusedForGood?
    case Place(domain, id, _) => id == ClaimedId(p.tag, s.threads[Claimer].batch[0].email, domain)
    case _ => true
  }

  function IdOf(p: Platform, email: string, domain: string): string {
    ClaimedId(p.tag, email, domain)
  }

  /** The recipient was in an entry of its own domain once. */
  ghost predicate Spooled(p: Platform, s: State, q: Pair) {
    Domain(q.recipient).Some? && Held(IdOf(p, q.email, Domain(q.recipient).value), q.email, q.recipient) in s.committed
  }

  ghost predicate Assigned(p: Platform, e: string, r: string) {
    e in p.recipients && r in p.recipients[e]
  }

  /** Every entry ever accepted was under its claimed id and left no unreported recipient
      of its domain out. */
  ghost predicate Entries(p: Platform, s: State) {
    && (forall h | h in s.committed ::
          Assigned(p, h.email, h.rcpt) && Domain(h.rcpt).Some? && h.id == IdOf(p, h.email, Domain(h.rcpt).value))
    && (forall id | id in s.ids :: exists h :: h in s.committed && h.id == id)
    && (forall h, r | h in s.committed && r in p.recipients[h.email] && Domain(r) == Domain(h.rcpt) ::
          Held(h.id, h.email, r) in s.committed || Pair(h.email, r) in s.reported)
  }

  ghost predicate MessageOk(s: State, m: Message) {
    forall r | r in m.recipients :: Held(m.id, m.emailID, r) in s.committed
  }

  ghost predicate WriteOk(p: Platform, s: State, w: Write) {
    match w
    case CommitEntry(_, _) => false
    case UpdateEntry(m) => MessageOk(s, m)
    case PutOutcome(o) => Spooled(p, s, o.Of())
    case _ => true
  }

  ghost predicate WritesOk(p: Platform, s: State, ws: seq<Write>) {
    forall w | w in ws :: WriteOk(p, s, w)
  }

  ghost predicate ThreadOk(p: Platform, s: State, th: Thread) {
    match th
    case Queued(m) => MessageOk(s, m)
    case Sending(m, _) => MessageOk(s, m)
    case Reporting(rows) => forall q | q in Pairs(rows) :: Spooled(p, s, q)
    case Writing(todo) => WritesOk(p, s, todo)
    case Forwarding(_, todo) => WritesOk(p, s, todo)
    case Swept(_) => true
    case SweptReceived(_) => true
    case _ => false
  }

  /** All that was ever spooled of an email has been reported. */
  ghost predicate Quiet(s: State, e: string) {
    forall h | h in s.committed && h.email == e :: Pair(e, h.rcpt) in s.reported
  }

  /** `left` are new, and with the reported ones all there is of the email in `domain` -
      of any domain when there is none. */
  ghost predicate Rest(p: Platform, s: State, e: string, left: seq<string>, domain: Option<string>) {
    && e in p.recipients
    && (forall r | r in left :: r in p.recipients[e] && !Spooled(p, s, Pair(e, r)))
    && (forall r | r in p.recipients[e] && Domain(r).Some? && Domain(r).value != "" && (domain.Some? ==> Domain(r) == domain) ::
          r in left || Pair(e, r) in s.reported)
  }

  ghost predicate GroupOk(p: Platform, s: State, e: string, d: string, rcpts: seq<string>) {
    && d != "" && rcpts != [] && (forall r | r in rcpts :: Domain(r) == Some(d))
    && Rest(p, s, e, rcpts, Some(d))
  }

  ghost predicate PutOk(p: Platform, s: State, e: string, groups: map<string, seq<string>>, w: Write) {
    match w
    case CommitEntry(m, _) =>
      && m.emailID == e && m.domain !in groups && m.id == IdOf(p, e, m.domain)
      && GroupOk(p, s, e, m.domain, m.recipients)
    case WriteBody(_, _) => true
    case RemoveBody(_) => true
    case _ => false
  }

  ghost predicate ClaimOk(p: Platform, s: State, th: Thread) {
    match th
    case Asking(holding) => forall e | e in p.recipients && e !in holding :: Quiet(s, e)
    case Grouping(batch, kept) =>
      && BatchOk(p, s, batch)
      && (batch != [] ==>
            && Rest(p, s, batch[0].email, kept + batch[0].recipients, None)
            && forall r | r in kept :: Domain(r).Some? && Domain(r).value != "")
    case Placing(batch, groups, todo) =>
      && batch != [] && BatchOk(p, s, batch)
      && (forall d | d in groups :: GroupOk(p, s, batch[0].email, d, groups[d]))
      && (forall w | w in todo :: PutOk(p, s, batch[0].email, groups, w))
      && (forall i | 0 <= i < |todo| - 1 :: !todo[i].CommitEntry?)
    case _ => false
  }

  /** The messages of a claim's answer after the first are untouched so far. */
  ghost predicate BatchOk(p: Platform, s: State, batch: seq<Claimed>) {
    && (forall i, j | 0 <= i < j < |batch| :: batch[i].email != batch[j].email)
    && (forall i | 0 <= i < |batch| :: batch[i].email in p.recipients)
    && (forall i | 1 <= i < |batch| :: Rest(p, s, batch[i].email, batch[i].recipients, None))
  }

  ghost predicate Persistent(p: Platform, s: State) {
    && s.dropped == {}
    && Entries(p, s)
    && (forall q | q in Pairs(s.disk.outcomes) :: Spooled(p, s, q))
    && (forall q | q in s.reported :: Spooled(p, s, q))
    && (forall id | id in s.disk.messages :: MessageOk(s, s.disk.messages[id]))
  }

  ghost predicate PullInv(p: Platform, s: State) {
    && Persistent(p, s)
    && (forall t | t in s.threads && t != Claimer :: ThreadOk(p, s, s.threads[t]))
    && (Claimer in s.threads ==> ClaimOk(p, s, s.threads[Claimer]))
  }

  lemma SeparatorInside(e: string, f: string)
    requires e + [SEPARATOR] <= f
    ensures SEPARATOR in f
  {
    assert f[|e|] == (e + [SEPARATOR])[|e|];
  }

  lemma PullEmailsTellApart(p: Platform)
    requires WellFormed(p)
    ensures Unambiguous(p.recipients.Keys)
  {
    forall e, f | e in p.recipients && f in p.recipients
      ensures !(e + [SEPARATOR] <= f)
    {
      if e + [SEPARATOR] <= f {
        SeparatorInside(e, f);
      }
    }
  }

  // ---- the facts the protocol turns on ----

  lemma RowIsHeld(d: Disk, e: string, r: string)
    requires OutcomeKey(e, r) in d.outcomes && e != "" && SEPARATOR !in e
    ensures e in HeldEmails(d)
  {
    OutcomeKeyReadsBack(e, r);
    assert Before(OutcomeKey(e, r), SEPARATOR) == e;
  }

  /** An email the node did not name as held has nothing left to report. */
  lemma UnheldIsQuiet(p: Platform, s: State, e: string)
    requires WellFormed(p) && Conserved(s) && Persistent(p, s) && e in p.recipients && e !in HeldEmails(s.disk)
    ensures Quiet(s, e)
  {
    forall h | h in s.committed && h.email == e ensures Pair(e, h.rcpt) in s.reported {
      assert Kept(s, h);
      if Key(PairOf(h)) in s.disk.outcomes {
        RowIsHeld(s.disk, e, h.rcpt);
      }
    }
  }

  lemma UsedIdSpooled(p: Platform, s: State, e: string, r: string)
    requires WellFormed(p) && Persistent(p, s) && Assigned(p, e, r) && Domain(r).Some?
    requires IdOf(p, e, Domain(r).value) in s.ids
    ensures Spooled(p, s, Pair(e, r))
  {
    var h :| h in s.committed && h.id == IdOf(p, e, Domain(r).value);
    ClaimedIdTellsApart(p.tag, h.email, Domain(h.rcpt).value, e, Domain(r).value);
    assert Domain(h.rcpt) == Domain(r);
    assert Held(h.id, e, r) in s.committed || Pair(e, r) in s.reported;
  }

  /** A group about to be put is put under an id never used: had it been used, its
      recipients would have been spooled then. */
  lemma NewGroupNewId(p: Platform, s: State, e: string, d: string, rcpts: seq<string>)
    requires WellFormed(p) && Persistent(p, s) && GroupOk(p, s, e, d, rcpts)
    ensures IdOf(p, e, d) !in s.ids
    ensures forall r, id | r in rcpts :: Held(id, e, r) !in s.committed
  {
    if IdOf(p, e, d) in s.ids {
      UsedIdSpooled(p, s, e, rcpts[0]);
    }
  }

  lemma RowIsSpooled(p: Platform, s: State, e: string, r: string)
    requires WellFormed(p) && Persistent(p, s) && RowsSafe(p.recipients.Keys, s.disk.outcomes)
    requires e in p.recipients && OutcomeKey(e, r) in s.disk.outcomes
    ensures Spooled(p, s, Pair(e, r))
  {
    PullEmailsTellApart(p);
    var row := s.disk.outcomes[OutcomeKey(e, r)];
    assert OutcomeKey(e, r) == Key(row.Of());
    SameKey(p.recipients.Keys, row.Of(), Pair(e, r));
    assert row.Of() in Pairs(s.disk.outcomes);
  }

  /** A recipient not spooled has no outcome waiting, so the claim loop keeps it. */
  lemma NewIsWanted(p: Platform, s: State, e: string, r: string)
    requires WellFormed(p) && Persistent(p, s) && RowsSafe(p.recipients.Keys, s.disk.outcomes)
    requires Assigned(p, e, r) && !Spooled(p, s, Pair(e, r))
    ensures OutcomeKey(e, r) !in s.disk.outcomes
  {
    if OutcomeKey(e, r) in s.disk.outcomes {
      RowIsSpooled(p, s, e, r);
    }
  }

  // ---- growing ----

  /** Nothing but more reported or more committed. */
  ghost predicate Later(s: State, s': State) {
    s.committed <= s'.committed && s.reported <= s'.reported
  }

  lemma ThreadLater(p: Platform, s: State, s': State, th: Thread)
    requires ThreadOk(p, s, th) && Later(s, s')
    ensures ThreadOk(p, s', th)
  {
  }

  /** As long as nothing more is spooled, a claim under way stays right. */
  lemma ClaimLater(p: Platform, s: State, s': State, th: Thread)
    requires ClaimOk(p, s, th) && s'.committed == s.committed && s.reported <= s'.reported
    ensures ClaimOk(p, s', th)
  {
    forall e, left, d | Rest(p, s, e, left, d) ensures Rest(p, s', e, left, d) {
    }
  }

  lemma MessageSpooled(p: Platform, s: State, m: Message, r: string)
    requires Entries(p, s) && MessageOk(s, m) && r in m.recipients
    ensures Spooled(p, s, Pair(m.emailID, r))
  {
    assert Held(m.id, m.emailID, r) in s.committed;
  }

  lemma OutcomesOk(p: Platform, s: State, m: Message, rcpts: seq<string>, delivered: bool, permanent: bool)
    requires Entries(p, s) && MessageOk(s, m) && forall r | r in rcpts :: r in m.recipients
    ensures WritesOk(p, s, OutcomeWrites(m.emailID, rcpts, delivered, permanent))
  {
    forall r | r in rcpts ensures Spooled(p, s, Pair(m.emailID, r)) { MessageSpooled(p, s, m, r); }
  }

  lemma GiveUpOk(p: Platform, s: State, m: Message, permanent: bool)
    requires Entries(p, s) && MessageOk(s, m)
    ensures WritesOk(p, s, GiveUpWrites(m, permanent))
  {
    OutcomesOk(p, s, m, m.recipients, false, permanent);
  }

  lemma AnswerOk(p: Platform, s: State, m: Message, a: Answer, expired: bool, next: int)
    requires Entries(p, s) && MessageOk(s, m) && ValidAnswer(m, a)
    ensures WritesOk(p, s, AnswerWrites(m, a, expired, next))
  {
    match a {
      case NoSuchDomain => GiveUpOk(p, s, m, !expired);
      case RefusedOutright => GiveUpOk(p, s, m, !expired);
      case Unresolved =>
      case SendFailed =>
      case Answered(verdicts, order) =>
        var c := Converse(m.recipients, verdicts);
        EveryAddressAnswered(m.recipients, verdicts);
        forall r | r in Refusals(m, a) ensures r in m.recipients { PickMember(c.rejected, order, true, r); }
        forall r | r in Retry(m, a) ensures r in m.recipients { PickMember(c.rejected, order, false, r); }
        OutcomesOk(p, s, m, c.accepted, true, false);
        OutcomesOk(p, s, m, Refusals(m, a), false, true);
        var n := m.(recipients := Retry(m, a), nextAttempt := next);
        assert MessageOk(s, n);
    }
  }

  lemma {:induction false} SweepOk(p: Platform, s: State, gone: seq<Message>)
    requires Entries(p, s) && forall m | m in gone :: MessageOk(s, m)
    ensures WritesOk(p, s, SweepWrites(gone))
  {
    if gone != [] {
      GiveUpOk(p, s, gone[0], false);
      SweepOk(p, s, gone[1..]);
    }
  }

  // ---- acts of the other threads ----

  lemma OtherThread(p: Platform, s: State, s': State, t: Tid)
    requires PullInv(p, s) && Persistent(p, s') && t != Claimer
    requires s'.committed == s.committed && s.reported <= s'.reported
    requires forall u | u in s'.threads && u != t :: u in s.threads && s'.threads[u] == s.threads[u]
    requires t in s'.threads ==> ThreadOk(p, s', s'.threads[t])
    ensures PullInv(p, s')
  {
    forall u | u in s'.threads && u != Claimer ensures ThreadOk(p, s', s'.threads[u]) {
      if u != t {
        ThreadLater(p, s, s', s.threads[u]);
      }
    }
    if Claimer in s'.threads {
      ClaimLater(p, s, s', s.threads[Claimer]);
    }
  }

  lemma PersistentLater(p: Platform, s: State, s': State)
    requires Persistent(p, s) && s'.disk == s.disk && s'.committed == s.committed && s'.ids == s.ids
    requires s'.dropped == {} && s.reported <= s'.reported
    requires forall q | q in s'.reported :: Spooled(p, s, q)
    ensures Persistent(p, s')
  {
  }

  lemma WithOther(p: Platform, s: State, t: Tid, th: Thread)
    requires PullInv(p, s) && t != Claimer && ThreadOk(p, s, th)
    ensures PullInv(p, s.(threads := s.threads[t := th]))
  {
    PersistentLater(p, s, s.(threads := s.threads[t := th]));
    OtherThread(p, s, s.(threads := s.threads[t := th]), t);
  }

  /** A thread set up on the other side of the claim keeps to what was spooled. */
  lemma ArmedOther(p: Platform, s: State, a: Act)
    requires WellFormed(p) && PullInv(p, s) && Enabled(s, a) && Honest(p, s, a) && Arms(a) && Worker(a) != Claimer
    ensures ThreadOk(p, s, Armed(s, a))
  {
    match a {
      case SweepExpired(gone) => SweepOk(p, s, gone);
      case ReadOutcomes(keys) => RowsRead(p, s, keys);
      case _ =>
    }
  }

  lemma LaunchPulled(p: Platform, s: State, due: set<string>)
    requires PullInv(p, s) && due <= s.disk.messages.Keys
    ensures PullInv(p, Launch(s, due))
  {
    var s' := Launch(s, due);
    PersistentLater(p, s, s');
    forall u | u in s'.threads && u != Claimer ensures ThreadOk(p, s', s'.threads[u]) {
      if u in s.threads { ThreadLater(p, s, s', s.threads[u]); }
    }
    if Claimer in s'.threads {
      ClaimLater(p, s, s', s.threads[Claimer]);
    }
  }

  lemma OpenPulled(p: Platform, s: State, id: string, m: Message)
    requires PullInv(p, s) && MessageOk(s, m)
    ensures PullInv(p, OpenAttempt(s, id, m))
  {
    var n := m.(attempts := m.attempts + 1);
    assert MessageOk(s, n);
    GiveUpOk(p, s, n, !Expired(s.rules.lifetime, n, s.clock));
    WithOther(p, s, Attempt(id), OpenAttempt(s, id, m).threads[Attempt(id)]);
  }

  lemma ConcludePulled(p: Platform, s: State, id: string, m: Message, a: Answer)
    requires PullInv(p, s) && ValidAnswer(m, a) && MessageOk(s, m)
    ensures PullInv(p, ConcludeAttempt(s, id, m, a))
  {
    var s' := ConcludeAttempt(s, id, m, a);
    ConcludeOk(p, s, m, a);
    PersistentLater(p, s, s');
    ThreadLater(p, s, s', Writing(ConcludePlan(s, m, a)));
    OtherThread(p, s, s', Attempt(id));
  }

  lemma ConcludeOk(p: Platform, s: State, m: Message, a: Answer)
    requires PullInv(p, s) && ValidAnswer(m, a) && MessageOk(s, m)
    ensures ThreadOk(p, s, Writing(ConcludePlan(s, m, a)))
  {
    AnswerOk(p, s, m, a, Expired(s.rules.lifetime, m, s.clock), s.clock + Backoff.Gap(s.rules.converted, m.attempts));
  }

  lemma HearPulled(p: Platform, s: State, rows: map<string, Outcome>, r: ReportAnswer)
    requires PullInv(p, s) && !r.RefusedForGood?
    requires forall q | q in Pairs(rows) :: Spooled(p, s, q)
    ensures PullInv(p, Hear(s, rows, r))
  {
    var s' := Hear(s, rows, r);
    PersistentLater(p, s, s');
    OtherThread(p, s, s', Reporter);
  }

  lemma RowsRead(p: Platform, s: State, keys: set<string>)
    requires PullInv(p, s) && keys <= s.disk.outcomes.Keys
    ensures forall q | q in Pairs(map k | k in keys :: s.disk.outcomes[k]) :: Spooled(p, s, q)
  {
    forall k | k in keys ensures Spooled(p, s, s.disk.outcomes[k].Of()) {
      assert s.disk.outcomes[k].Of() in Pairs(s.disk.outcomes);
    }
  }

  lemma ForwardPulled(p: Platform, s: State, queue: seq<Received>, a: ForwardAnswer)
    requires PullInv(p, s) && queue != []
    ensures PullInv(p, ForwardOne(s, queue, a))
  {
    var s' := ForwardOne(s, queue, a);
    PersistentLater(p, s, s');
    OtherThread(p, s, s', Forwarder);
  }

  // ---- durable steps ----

  lemma QuietStep(p: Platform, s: State, w: Write)
    requires Persistent(p, s) && WriteOk(p, s, w)
    ensures Persistent(p, Stepped(s, w)) && Stepped(s, w).committed == s.committed && Stepped(s, w).reported == s.reported
  {
    var s' := Stepped(s, w);
    forall q | q in Pairs(s'.disk.outcomes) ensures Spooled(p, s', q) {
      var k :| k in s'.disk.outcomes && s'.disk.outcomes[k].Of() == q;
      if k in s.disk.outcomes && s.disk.outcomes[k].Of() == q {
        assert q in Pairs(s.disk.outcomes);
      }
    }
  }

  lemma OtherStep(p: Platform, s: State, t: Tid)
    requires PullInv(p, s) && t in s.threads && Todo(s.threads[t]) != [] && t != Claimer
    ensures !Todo(s.threads[t])[0].CommitEntry?
    ensures PullInv(p, TakeStep(s, t))
  {
    var todo := Todo(s.threads[t]);
    var q := s.(threads := s.threads[t := Took(s.threads[t])]);
    assert todo[0] in todo && WriteOk(p, s, todo[0]);
    PersistentLater(p, s, q);
    assert WriteOk(p, q, todo[0]);
    QuietStep(p, q, todo[0]);
    assert forall w | w in todo[1..] :: w in todo;
    assert ThreadOk(p, s, Took(s.threads[t]));
    ThreadLater(p, s, TakeStep(s, t), Took(s.threads[t]));
    OtherThread(p, s, TakeStep(s, t), t);
  }

  /** The put of a claimed group: the entry is new, and so is every recipient of it. */
  lemma CommitPulled(p: Platform, s: State, groups: map<string, seq<string>>, m: Message, body: Bytes)
    requires WellFormed(p) && Persistent(p, s) && m.emailID in p.recipients
    requires PutOk(p, s, m.emailID, groups, CommitEntry(m, body))
    ensures m.id !in s.ids && forall r, id | r in m.recipients :: Held(id, m.emailID, r) !in s.committed
    ensures Persistent(p, Stepped(s, CommitEntry(m, body)))
  {
    NewGroupNewId(p, s, m.emailID, m.domain, m.recipients);
    CommitEntries(p, s, Stepped(s, CommitEntry(m, body)), m);
    var s' := Stepped(s, CommitEntry(m, body));
    forall id | id in s'.disk.messages ensures MessageOk(s', s'.disk.messages[id]) {
      assert id != m.id ==> MessageOk(s, s.disk.messages[id]);
    }
  }

  /** The ledger of entries, one more of a whole group. */
  lemma CommitEntries(p: Platform, s: State, s': State, m: Message)
    requires Entries(p, s) && m.emailID in p.recipients && m.id == IdOf(p, m.emailID, m.domain)
    requires GroupOk(p, s, m.emailID, m.domain, m.recipients)
    requires s'.ids == s.ids + {m.id} && s'.reported == s.reported
    requires s'.committed == s.committed + (set r | r in m.recipients :: Held(m.id, m.emailID, r))
    ensures Entries(p, s')
  {
    assert Held(m.id, m.emailID, m.recipients[0]) in s'.committed;
    forall h, r | h in s'.committed && r in p.recipients[h.email] && Domain(r) == Domain(h.rcpt)
      ensures Held(h.id, h.email, r) in s'.committed || Pair(h.email, r) in s'.reported
    {
      if h !in s.committed {
        assert r in m.recipients || Pair(m.emailID, r) in s.reported;
      }
    }
  }

  lemma RestAfter(p: Platform, s: State, m: Message, body: Bytes, e: string, left: seq<string>, d: Option<string>)
    requires Rest(p, s, e, left, d)
    requires e != m.emailID || forall r | r in left :: r !in m.recipients
    ensures Rest(p, Stepped(s, CommitEntry(m, body)), e, left, d)
  {
  }

  lemma ClaimStep(p: Platform, s: State)
    requires WellFormed(p) && PullInv(p, s) && Claimer in s.threads && Todo(s.threads[Claimer]) != []
    ensures Todo(s.threads[Claimer])[0].CommitEntry? ==> Todo(s.threads[Claimer])[0].m.id !in s.ids
    ensures PullInv(p, TakeStep(s, Claimer))
  {
    var th := s.threads[Claimer];
    var w := th.todo[0];
    var e := th.batch[0].email;
    var q := s.(threads := s.threads[Claimer := Took(th)]);
    assert w in th.todo && PutOk(p, s, e, th.groups, w);
    PersistentLater(p, s, q);
    if w.CommitEntry? {
      assert PutOk(p, q, e, th.groups, w);
      CommitPulled(p, q, th.groups, w.m, w.accepted);
    } else {
      QuietStep(p, q, w);
    }
    var s' := TakeStep(s, Claimer);
    forall u | u in s'.threads && u != Claimer ensures ThreadOk(p, s', s'.threads[u]) {
      ThreadLater(p, s, s', s.threads[u]);
    }
    ClaimAfterStep(p, s, s', th, w);
  }

  lemma ClaimAfterStep(p: Platform, s: State, s': State, th: Thread, w: Write)
    requires ClaimOk(p, s, th) && th.Placing? && th.todo != [] && w == th.todo[0]
    requires s'.reported == s.reported
    requires w.CommitEntry? ==> s'.committed == Stepped(s, w).committed
    requires !w.CommitEntry? ==> s'.committed == s.committed
    ensures ClaimOk(p, s', Took(th))
  {
    var e := th.batch[0].email;
    assert forall v | v in th.todo[1..] :: v in th.todo;
    assert PutOk(p, s, e, th.groups, w);
    if w.CommitEntry? {
      assert th.todo[1..] == [] by {
        assert |th.todo| == 1;
      }
      forall d | d in th.groups ensures GroupOk(p, s', e, d, th.groups[d]) {
        RestAfter(p, s, w.m, w.accepted, e, th.groups[d], Some(d));
      }
      forall i | 1 <= i < |th.batch| ensures Rest(p, s', th.batch[i].email, th.batch[i].recipients, None) {
        RestAfter(p, s, w.m, w.accepted, th.batch[i].email, th.batch[i].recipients, None);
      }
    } else {
      ClaimLater(p, s, s', th);
    }
  }

  // ---- the claim loop ----

  lemma WithClaim(p: Platform, s: State, th: Thread)
    requires PullInv(p, s) && ClaimOk(p, s, th)
    ensures PullInv(p, s.(threads := s.threads[Claimer := th]))
  {
    var s' := s.(threads := s.threads[Claimer := th]);
    PersistentLater(p, s, s');
    forall u | u in s'.threads && u != Claimer ensures ThreadOk(p, s', s'.threads[u]) {
      ThreadLater(p, s, s', s.threads[u]);
    }
    ClaimLater(p, s, s', th);
  }

  lemma WithoutPulled(p: Platform, s: State, t: Tid)
    requires PullInv(p, s)
    ensures PullInv(p, s.(threads := s.threads - {t}))
  {
    var s' := s.(threads := s.threads - {t});
    PersistentLater(p, s, s');
    forall u | u in s'.threads && u != Claimer ensures ThreadOk(p, s', s'.threads[u]) {
      ThreadLater(p, s, s', s.threads[u]);
    }
    if Claimer in s'.threads {
      ClaimLater(p, s, s', s.threads[Claimer]);
    }
  }

  lemma ContinuePulled(p: Platform, s: State, batch: seq<Claimed>)
    requires PullInv(p, s) && BatchOk(p, s, batch) && (batch != [] ==> Rest(p, s, batch[0].email, batch[0].recipients, None))
    ensures PullInv(p, Continue(s, batch))
  {
    if batch == [] {
      WithoutPulled(p, s, Claimer);
    } else {
      assert [] + batch[0].recipients == batch[0].recipients;
      WithClaim(p, s, Grouping(batch, []));
    }
  }

  /** An answer under the contract offers only recipients never spooled, and leaves out
      only reported ones. */
  lemma OfferedIsRest(p: Platform, s: State, holding: set<string>, c: Claimed)
    requires PullInv(p, s) && Offered(p, s, holding, c) && Quiet(s, c.email)
    ensures Rest(p, s, c.email, c.recipients, None)
  {
  }

  lemma ReadOneOk(p: Platform, s: State, th: Thread)
    requires WellFormed(p) && Persistent(p, s) && RowsSafe(p.recipients.Keys, s.disk.outcomes) && ClaimOk(p, s, th)
    requires th.Grouping? && th.batch != [] && th.batch[0].recipients != []
    ensures ClaimOk(p, s, ReadOne(s, th))
  {
    var c := th.batch[0];
    var r := c.recipients[0];
    var th' := ReadOne(s, th);
    assert c.recipients == [r] + c.recipients[1..];
    assert r in th.kept + c.recipients;
    NewIsWanted(p, s, c.email, r);
    forall x | x in th'.kept + th'.batch[0].recipients ensures x in th.kept + c.recipients {
    }
    forall x | x in th.kept + c.recipients && Domain(x).Some? && Domain(x).value != ""
      ensures x in th'.kept + th'.batch[0].recipients
    {
      if x == r {
        assert Wanted(s.disk, c.email, r);
      }
    }
    assert forall i | 1 <= i < |th.batch| :: th'.batch[i] == th.batch[i];
    assert Rest(p, s, c.email, th'.kept + th'.batch[0].recipients, None);
  }

  lemma GroupsOk(p: Platform, s: State, e: string, kept: seq<string>)
    requires Rest(p, s, e, kept, None) && forall r | r in kept :: Domain(r).Some? && Domain(r).value != ""
    ensures forall d | d in ByDomain(kept) :: GroupOk(p, s, e, d, ByDomain(kept)[d])
  {
    forall d | d in ByDomain(kept) ensures GroupOk(p, s, e, d, ByDomain(kept)[d]) {
      NoneElsewhere(kept, d);
      forall r ensures r in Of(kept, d) <==> r in kept && Domain(r) == Some(d) { OfMember(kept, d, r); }
    }
  }

  lemma PlaceOk(p: Platform, s: State, th: Thread, domain: string, id: string, fate: Fate)
    requires ClaimOk(p, s, th) && th.Placing? && th.todo == [] && domain in th.groups
    requires id == IdOf(p, th.batch[0].email, domain)
    ensures ClaimOk(p, s, PlaceGroup(s, th, domain, id, fate))
  {
  }

  /** What the claim loop sets itself up with is new. */
  lemma ArmedClaim(p: Platform, s: State, a: Act)
    requires WellFormed(p) && Inv(p.recipients.Keys, s) && PullInv(p, s) && Enabled(s, a) && Honest(p, s, a)
    requires Arms(a) && Worker(a) == Claimer
    ensures ClaimOk(p, s, Armed(s, a))
  {
    match a {
      case ReadHolding(holding) => AllQuiet(p, s, holding);
      case ReadRecipient => ReadOneOk(p, s, s.threads[Claimer]);
      case GroupRecipients => GroupedOk(p, s, s.threads[Claimer]);
      case Place(domain, id, fate) => PlaceOk(p, s, s.threads[Claimer], domain, id, fate);
    }
  }

  lemma GroupedOk(p: Platform, s: State, th: Thread)
    requires WellFormed(p) && ClaimOk(p, s, th) && th.Grouping? && th.batch != [] && th.batch[0].recipients == []
    ensures ClaimOk(p, s, Placing(th.batch, ByDomain(th.kept), []))
  {
    assert th.kept + th.batch[0].recipients == th.kept;
    GroupsOk(p, s, th.batch[0].email, th.kept);
  }

  lemma AllQuiet(p: Platform, s: State, holding: set<string>)
    requires WellFormed(p) && Inv(p.recipients.Keys, s) && Persistent(p, s) && HeldEmails(s.disk) <= holding
    ensures forall e | e in p.recipients && e !in holding :: Quiet(s, e)
  {
    PullEmailsTellApart(p);
    InvConserves(p.recipients.Keys, s);
    forall e | e in p.recipients && e !in holding ensures Quiet(s, e) { UnheldIsQuiet(p, s, e); }
  }

  lemma HearClaimPulled(p: Platform, s: State, batch: seq<Claimed>)
    requires WellFormed(p) && PullInv(p, s) && Enabled(s, HearClaim(batch)) && Honest(p, s, HearClaim(batch))
    ensures PullInv(p, Continue(s, batch))
  {
    forall i | 0 <= i < |batch| ensures Rest(p, s, batch[i].email, batch[i].recipients, None) {
      assert batch[i] in batch;
      OfferedIsRest(p, s, s.threads[Claimer].holding, batch[i]);
    }
    ContinuePulled(p, s, batch);
  }

  lemma NextOk(p: Platform, s: State, batch: seq<Claimed>)
    requires BatchOk(p, s, batch) && batch != []
    ensures BatchOk(p, s, batch[1..]) && (|batch| > 1 ==> Rest(p, s, batch[1].email, batch[1].recipients, None))
  {
  }

  /** Every honest act is admissible, freshness of ids included. */
  lemma HonestAdmissible(p: Platform, s: State, a: Act)
    requires WellFormed(p) && PullInv(p, s) && Enabled(s, a) && Honest(p, s, a)
    ensures Admissible(p.recipients.Keys, s, a)
  {
    if a.Step? {
      if a.t == Claimer {
        ClaimStep(p, s);
      } else {
        OtherStep(p, s, a.t);
      }
    }
  }

  /** Every honest act keeps the invariant. */
  lemma PullKept(p: Platform, s: State, a: Act)
    requires WellFormed(p) && Inv(p.recipients.Keys, s) && PullInv(p, s) && Enabled(s, a) && Honest(p, s, a)
    ensures PullInv(p, Do(s, a))
  {
    if a.Step? {
      if a.t == Claimer {
        ClaimStep(p, s);
      } else {
        OtherStep(p, s, a.t);
      }
    } else if a.Tick? || a.Crash? || a.End? || a.ReadDue? {
      ThreadsPulled(p, s, a);
    } else if a.Open? || a.Conclude? {
      AttemptsPulled(p, s, a);
    } else {
      LoopsPulled(p, s, a);
    }
  }

  lemma ThreadsPulled(p: Platform, s: State, a: Act)
    requires PullInv(p, s) && Enabled(s, a) && (a.Tick? || a.Crash? || a.End? || a.ReadDue?)
    ensures PullInv(p, Do(s, a))
  {
    match a {
      case Tick(now) => TimePulled(p, s, s.(clock := now));
      case Crash => TimePulled(p, s, s.(threads := map[]));
      case End(t) => WithoutPulled(p, s, t);
      case ReadDue(due) => LaunchPulled(p, s, due);
    }
  }

  lemma AttemptsPulled(p: Platform, s: State, a: Act)
    requires PullInv(p, s) && Enabled(s, a) && (a.Open? || a.Conclude?)
    ensures PullInv(p, Do(s, a))
  {
    var th := s.threads[Attempt(a.id)];
    assert ThreadOk(p, s, th);
    if a.Open? {
      OpenPulled(p, s, a.id, th.m);
    } else {
      ConcludePulled(p, s, a.id, th.m, a.answer);
    }
  }

  lemma LoopsPulled(p: Platform, s: State, a: Act)
    requires WellFormed(p) && Inv(p.recipients.Keys, s) && PullInv(p, s) && Enabled(s, a) && Honest(p, s, a)
    requires a.HearReport? || a.HearClaim? || a.NextClaimed? || a.Forward? || Arms(a)
    ensures PullInv(p, Do(s, a))
  {
    if a.HearReport? {
      HearPulled(p, s, s.threads[Reporter].rows, a.report);
    } else if a.HearClaim? {
      HearClaimPulled(p, s, a.batch);
    } else if a.NextClaimed? {
      NextPulled(p, s);
    } else if a.Forward? {
      ForwardPulled(p, s, s.threads[Forwarder].queue, a.forwarded);
    } else {
      ArmedPulled(p, s, a);
    }
  }

  lemma ArmedPulled(p: Platform, s: State, a: Act)
    requires WellFormed(p) && Inv(p.recipients.Keys, s) && PullInv(p, s) && Enabled(s, a) && Honest(p, s, a) && Arms(a)
    ensures PullInv(p, Do(s, a))
  {
    if Worker(a) == Claimer {
      ArmedClaim(p, s, a);
      WithClaim(p, s, Armed(s, a));
    } else {
      ArmedOther(p, s, a);
      WithOther(p, s, Worker(a), Armed(s, a));
    }
  }

  lemma NextPulled(p: Platform, s: State)
    requires WellFormed(p) && PullInv(p, s) && Enabled(s, NextClaimed)
    ensures PullInv(p, Continue(s, s.threads[Claimer].batch[1..]))
  {
    NextOk(p, s, s.threads[Claimer].batch);
    ContinuePulled(p, s, s.threads[Claimer].batch[1..]);
  }

  lemma TimePulled(p: Platform, s: State, s': State)
    requires PullInv(p, s) && (s' == s.(clock := s'.clock) || s' == s.(threads := map[]))
    ensures PullInv(p, s')
  {
    PersistentLater(p, s, s');
    forall u | u in s'.threads && u != Claimer ensures ThreadOk(p, s', s'.threads[u]) {
      ThreadLater(p, s, s', s.threads[u]);
    }
    if Claimer in s'.threads {
      ClaimLater(p, s, s', s.threads[Claimer]);
    }
  }

  // ---- over whole runs ----

  ghost predicate PullRuns(p: Platform, s: State, acts: seq<Act>)
    decreases |acts|
  {
    acts == [] || (Enabled(s, acts[0]) && Honest(p, s, acts[0]) && PullRuns(p, Do(s, acts[0]), acts[1..]))
  }

  ghost function PullReached(p: Platform, s: State, acts: seq<Act>): State
    requires PullRuns(p, s, acts)
    decreases |acts|
  {
    if acts == [] then s else PullReached(p, Do(s, acts[0]), acts[1..])
  }

  lemma {:induction false} PullInvReached(p: Platform, s: State, acts: seq<Act>)
    requires WellFormed(p) && Inv(p.recipients.Keys, s) && PullInv(p, s) && PullRuns(p, s, acts)
    ensures Inv(p.recipients.Keys, PullReached(p, s, acts)) && PullInv(p, PullReached(p, s, acts))
    decreases |acts|
  {
    if acts != [] {
      PullEmailsTellApart(p);
      HonestAdmissible(p, s, acts[0]);
      InvKept(p.recipients.Keys, s, acts[0]);
      PullKept(p, s, acts[0]);
      PullInvReached(p, Do(s, acts[0]), acts[1..]);
    }
  }

  /** The entry a thread is about to commit, if it is. */
  ghost predicate Committing(s: State, t: Tid, m: Message) {
    t in s.threads && Todo(s.threads[t]) != [] && Todo(s.threads[t])[0].CommitEntry? && Todo(s.threads[t])[0].m == m
  }

  /** Nothing about this entry was ever seen by the node: not its id, and no recipient of
      it for its email. */
  ghost predicate AllNew(s: State, m: Message) {
    m.id !in s.ids &&
    forall r, id | r in m.recipients :: Held(id, m.emailID, r) !in s.committed && Pair(m.emailID, r) !in LedgerOf(s).told
  }

  /** At any point of any run of a pull node, the entry about to be committed is under an
      id never used, and no recipient of it was ever spooled, told of or reported before;
      and nothing accepted is lost. */
  lemma NothingSpooledTwice(p: Platform, rules: Rules, clock: int, acts: seq<Act>)
    requires WellFormed(p) && PullRuns(p, Boot(rules, clock), acts)
    ensures var s := PullReached(p, Boot(rules, clock), acts);
            Conserved(s) && forall t, m | Committing(s, t, m) :: AllNew(s, m)
  {
    var s0 := Boot(rules, clock);
    PullInvReached(p, s0, acts);
    var s := PullReached(p, s0, acts);
    PullEmailsTellApart(p);
    InvConserves(p.recipients.Keys, s);
    forall t, m | Committing(s, t, m) ensures AllNew(s, m) {
      CommitIsNew(p, s, t, m);
    }
  }

  lemma CommitIsNew(p: Platform, s: State, t: Tid, m: Message)
    requires WellFormed(p) && PullInv(p, s) && Committing(s, t, m)
    ensures AllNew(s, m)
  {
    var w := Todo(s.threads[t])[0];
    assert w in Todo(s.threads[t]);
    assert t == Claimer by {
      if t != Claimer { OtherStep(p, s, t); }
    }
    var th := s.threads[Claimer];
    assert PutOk(p, s, th.batch[0].email, th.groups, w);
    CommitPulled(p, s, th.groups, w.m, w.accepted);
    forall r | r in m.recipients ensures Pair(m.emailID, r) !in LedgerOf(s).told {
      assert !Spooled(p, s, Pair(m.emailID, r));
    }
  }
}
