/** Nothing accepted is lost: in every state any run can reach, with a crash at any step
    and the expiry sweep overlapping the attempts, each recipient of every accepted entry
    is still queued, has an outcome waiting, or was told to the platform. */
module Conservation {
  import opened Names
  import opened DurableSteps
  import opened SpoolFiles
  import opened Delivery
  import opened MxForwarding
  import opened Node

  /** What has been accepted and what has been told, as far as the queue's promises go:
      `gone` may leave the outcomes bucket, `told` has a row or is gone. */
  datatype Ledger = Ledger(ids: set<string>, committed: set<Held>, told: set<Pair>, gone: set<Pair>)

  function LedgerOf(s: State): Ledger {
    Ledger(s.ids, s.committed, Pairs(s.disk.outcomes) + s.reported + s.dropped, s.reported + s.dropped)
  }

  function PairOf(h: Held): Pair {
    Pair(h.email, h.rcpt)
  }

  ghost predicate NamesKnown(emails: set<string>, emailID: string) {
    emailID == "" || emailID in emails
  }

  /** Every recipient ever accepted under `id` is among the recipients of `m`, or told. */
  ghost predicate Covers(l: Ledger, m: Message) {
    forall h | h in l.committed && h.id == m.id && h.email != "" ::
      (h.email == m.emailID && h.rcpt in m.recipients) || PairOf(h) in l.told
  }

  ghost predicate HeadSafe(emails: set<string>, l: Ledger, w: Write) {
    match w
    case CommitEntry(m, _) => NamesKnown(emails, m.emailID)
    case UpdateEntry(m) => m.id in l.ids && NamesKnown(emails, m.emailID) && Covers(l, m)
    case DeleteEntry(id) =>
      id in l.ids && forall h | h in l.committed && h.id == id && h.email != "" :: PairOf(h) in l.told
    case PutOutcome(o) => o.emailID in emails
    case DeleteOutcomes(keys) => forall p: Pair | p.email in emails && Key(p) in keys :: p in l.gone
    case _ => true
  }

  function Telling(l: Ledger, w: Write): Ledger {
    match w
    case PutOutcome(o) => l.(told := l.told + {o.Of()})
    case _ => l
  }

  /** A plan may be carried out: by the time it drops a recipient it has told of it. */
  ghost predicate PlanSafe(emails: set<string>, l: Ledger, todo: seq<Write>)
    decreases |todo|
  {
    todo == [] || (HeadSafe(emails, l, todo[0]) && PlanSafe(emails, Telling(l, todo[0]), todo[1..]))
  }

  ghost predicate SnapshotSafe(emails: set<string>, l: Ledger, m: Message) {
    m.id in l.ids && NamesKnown(emails, m.emailID) && Covers(l, m)
  }

  ghost predicate RowsSafe(emails: set<string>, rows: map<string, Outcome>) {
    forall k | k in rows :: k == Key(rows[k].Of()) && rows[k].emailID in emails
  }

  ghost predicate ThreadSafe(emails: set<string>, l: Ledger, th: Thread) {
    match th
    case Queued(m) => SnapshotSafe(emails, l, m)
    case Sending(m, _) => SnapshotSafe(emails, l, m)
    case Reporting(rows) => RowsSafe(emails, rows)
    case Asking(_) => true
    case Grouping(batch, _) => forall c | c in batch :: NamesKnown(emails, c.email)
    case Placing(batch, _, todo) => (forall c | c in batch :: NamesKnown(emails, c.email)) && PlanSafe(emails, l, todo)
    case _ => PlanSafe(emails, l, Todo(th))
  }

  ghost predicate DiskSafe(emails: set<string>, l: Ledger, d: Disk) {
    && Keyed(d)
    && RowsSafe(emails, d.outcomes)
    && (forall id | id in d.messages :: id in l.ids && NamesKnown(emails, d.messages[id].emailID))
  }

  /** The promise itself, for one recipient. */
  ghost predicate Kept(s: State, h: Held) {
    || (h.id in s.disk.messages && s.disk.messages[h.id].emailID == h.email && h.rcpt in s.disk.messages[h.id].recipients)
    || (Key(PairOf(h)) in s.disk.outcomes && s.disk.outcomes[Key(PairOf(h))].Of() == PairOf(h))
    || PairOf(h) in s.reported
    || PairOf(h) in s.dropped
  }

  ghost predicate Conserved(s: State) {
    forall h | h in s.committed && h.email != "" :: Kept(s, h)
  }

  ghost predicate Queueing(d: Disk, h: Held) {
    h.id in d.messages && d.messages[h.id].emailID == h.email && h.rcpt in d.messages[h.id].recipients
  }

  /** The part of the invariant that speaks of what survives a crash. */
  ghost predicate Durable(emails: set<string>, s: State) {
    && DiskSafe(emails, LedgerOf(s), s.disk)
    && (forall h | h in s.committed :: h.id in s.ids)
    && (forall h | h in s.committed && h.email != "" :: Queueing(s.disk, h) || PairOf(h) in LedgerOf(s).told)
  }

  ghost predicate Inv(emails: set<string>, s: State) {
    && Durable(emails, s)
    && (forall t | t in s.threads :: ThreadSafe(emails, LedgerOf(s), s.threads[t]))
  }

  /** What a run must respect: accepted messages name emails of `emails`, and an entry is
      never accepted under an id used before. */
  ghost predicate Admissible(emails: set<string>, s: State, a: Act)
    requires Enabled(s, a)
  {
    match a
    case Accept(_, ms, _, _) => forall m | m in ms :: NamesKnown(emails, m.emailID)
    case HearClaim(batch) => forall c | c in batch :: NamesKnown(emails, c.email)
    case Step(t) => Todo(s.threads[t])[0].CommitEntry? ==> Todo(s.threads[t])[0].m.id !in s.ids
    case _ => true
  }

  // ---- growing ledgers ----

  /** A later ledger: nothing told is untold, and new recipients belong to new entries. */
  ghost predicate Grows(a: Ledger, b: Ledger) {
    && a.ids <= b.ids && a.told <= b.told && a.gone <= b.gone
    && forall h | h in b.committed :: h in a.committed || h.id !in a.ids
  }

  lemma {:induction false} PlanGrows(emails: set<string>, a: Ledger, b: Ledger, todo: seq<Write>)
    requires PlanSafe(emails, a, todo) && Grows(a, b)
    ensures PlanSafe(emails, b, todo)
    decreases |todo|
  {
    if todo != [] {
      PlanGrows(emails, Telling(a, todo[0]), Telling(b, todo[0]), todo[1..]);
    }
  }

  lemma ThreadGrows(emails: set<string>, a: Ledger, b: Ledger, th: Thread)
    requires ThreadSafe(emails, a, th) && Grows(a, b)
    ensures ThreadSafe(emails, b, th)
  {
    PlanGrows(emails, a, b, Todo(th));
  }

  lemma {:induction false} PlanAppend(emails: set<string>, l: Ledger, p: seq<Write>, q: seq<Write>)
    requires PlanSafe(emails, l, p) && PlanSafe(emails, l, q)
    ensures PlanSafe(emails, l, p + q)
    decreases |p|
  {
    if p == [] {
      assert p + q == q;
    } else {
      PlanGrows(emails, l, Telling(l, p[0]), q);
      PlanAppend(emails, Telling(l, p[0]), p[1..], q);
      assert (p + q)[1..] == p[1..] + q;
    }
  }

  // ---- plans are safe ----

  function Telled(emailID: string, rcpts: seq<string>): set<Pair> {
    if emailID == "" then {} else set r | r in rcpts :: Pair(emailID, r)
  }

  lemma TelledOne(told: set<Pair>, emailID: string, rcpts: seq<string>)
    requires emailID != "" && rcpts != []
    ensures told + Telled(emailID, rcpts) == told + {Pair(emailID, rcpts[0])} + Telled(emailID, rcpts[1..])
  {
    assert rcpts == [rcpts[0]] + rcpts[1..];
  }

  /** Outcome rows first, whatever they make safe after. */
  lemma {:induction false} OutcomesThen(emails: set<string>, l: Ledger, emailID: string, rcpts: seq<string>,
                                        delivered: bool, permanent: bool, rest: seq<Write>)
    requires NamesKnown(emails, emailID)
    requires PlanSafe(emails, l.(told := l.told + Telled(emailID, rcpts)), rest)
    ensures PlanSafe(emails, l, OutcomeWrites(emailID, rcpts, delivered, permanent) + rest)
    decreases |rcpts|
  {
    var ws := OutcomeWrites(emailID, rcpts, delivered, permanent);
    if emailID == "" || rcpts == [] {
      assert ws + rest == rest;
      assert l.(told := l.told + Telled(emailID, rcpts)) == l;
    } else {
      var l' := Telling(l, ws[0]);
      TelledOne(l.told, emailID, rcpts);
      OutcomesThen(emails, l', emailID, rcpts[1..], delivered, permanent, rest);
      assert (ws + rest)[1..] == OutcomeWrites(emailID, rcpts[1..], delivered, permanent) + rest;
    }
  }

  lemma RemoveSafe(emails: set<string>, l: Ledger, id: string)
    requires HeadSafe(emails, l, DeleteEntry(id))
    ensures PlanSafe(emails, l, RemoveWrites(id))
  {
    var ws := RemoveWrites(id);
    assert ws[1..] == [RemoveBody(id)] && ws[1..][1..] == [];
    assert PlanSafe(emails, l, ws[1..][1..]);
    assert PlanSafe(emails, l, ws[1..]);
  }

  lemma OneSafe(emails: set<string>, l: Ledger, w: Write)
    requires HeadSafe(emails, l, w)
    ensures PlanSafe(emails, l, [w])
  {
    assert [w][1..] == [];
    assert PlanSafe(emails, Telling(l, w), []);
  }

  lemma GiveUpSafe(emails: set<string>, l: Ledger, m: Message, permanent: bool)
    requires SnapshotSafe(emails, l, m)
    ensures PlanSafe(emails, l, GiveUpWrites(m, permanent))
  {
    var l' := l.(told := l.told + Telled(m.emailID, m.recipients));
    RemoveSafe(emails, l', m.id);
    OutcomesThen(emails, l, m.emailID, m.recipients, false, permanent, RemoveWrites(m.id));
  }

  /** The heart of the promise: whatever a conversation answers, every address handed over
      is told or retried before the entry changes. */
  lemma AnswerSafe(emails: set<string>, l: Ledger, m: Message, a: Answer, expired: bool, next: int)
    requires SnapshotSafe(emails, l, m) && ValidAnswer(m, a)
    ensures PlanSafe(emails, l, AnswerWrites(m, a, expired, next))
  {
    match a {
      case NoSuchDomain => GiveUpSafe(emails, l, m, !expired);
      case RefusedOutright => GiveUpSafe(emails, l, m, !expired);
      case Unresolved => OneSafe(emails, l, UpdateEntry(m.(nextAttempt := next)));
      case SendFailed => OneSafe(emails, l, UpdateEntry(m.(nextAttempt := next)));
      case Answered(verdicts, order) =>
        var c := Converse(m.recipients, verdicts);
        var retry, refused := Retry(m, a), Refusals(m, a);
        var l1 := l.(told := l.told + Telled(m.emailID, c.accepted));
        var l2 := l1.(told := l1.told + Telled(m.emailID, refused));
        forall r | r in m.recipients && m.emailID != "" && r !in retry
          ensures Pair(m.emailID, r) in l2.told
        {
          EveryAddressAnswered(m.recipients, verdicts);
          if r !in c.accepted {
            PickMember(c.rejected, order, true, r);
            PickMember(c.rejected, order, false, r);
          }
        }
        var last := if retry == [] then RemoveWrites(m.id)
                    else [UpdateEntry(m.(recipients := retry, nextAttempt := next))];
        if retry == [] {
          RemoveSafe(emails, l2, m.id);
        } else {
          OneSafe(emails, l2, UpdateEntry(m.(recipients := retry, nextAttempt := next)));
        }
        var told := OutcomeWrites(m.emailID, c.accepted, true, false);
        var no := OutcomeWrites(m.emailID, refused, false, true);
        OutcomesThen(emails, l1, m.emailID, refused, false, true, last);
        OutcomesThen(emails, l, m.emailID, c.accepted, true, false, no + last);
        assert told + (no + last) == AnswerWrites(m, a, expired, next);
    }
  }

  lemma {:induction false} SweepSafe(emails: set<string>, l: Ledger, gone: seq<Message>)
    requires forall m | m in gone :: SnapshotSafe(emails, l, m)
    ensures PlanSafe(emails, l, SweepWrites(gone))
  {
    if gone != [] {
      GiveUpSafe(emails, l, gone[0], false);
      SweepSafe(emails, l, gone[1..]);
      PlanAppend(emails, l, GiveUpWrites(gone[0], false), SweepWrites(gone[1..]));
    }
  }

  lemma PutSafe(emails: set<string>, l: Ledger, m: Message, body: Bytes, fileOk: bool, dbOk: bool)
    requires NamesKnown(emails, m.emailID)
    ensures PlanSafe(emails, l, PutWrites(m, body, fileOk, dbOk))
  {
    var ws := PutWrites(m, body, fileOk, dbOk);
    if fileOk {
      OneSafe(emails, l, ws[1]);
      assert ws[1..] == [ws[1]];
    }
  }

  lemma {:induction false} AcceptSafe(emails: set<string>, l: Ledger, ms: seq<Message>, body: Bytes, last: Fate)
    requires forall m | m in ms :: NamesKnown(emails, m.emailID)
    ensures PlanSafe(emails, l, AcceptWrites(ms, body, last))
  {
    if ms != [] {
      PutSafe(emails, l, ms[0], body, true, true);
      PutSafe(emails, l, ms[0], body, !last.NoFile?, last.Stored?);
      if |ms| > 1 {
        AcceptSafe(emails, l, ms[1..], body, last);
        PlanAppend(emails, l, PutWrites(ms[0], body, true, true), AcceptWrites(ms[1..], body, last));
      }
    }
  }

  lemma {:induction false} PlainSafe(emails: set<string>, l: Ledger, ws: seq<Write>)
    requires forall w | w in ws :: Plain(w)
    ensures PlanSafe(emails, l, ws)
    decreases |ws|
  {
    if ws != [] {
      assert ws[0] in ws;
      PlainSafe(emails, l, ws[1..]);
      assert Telling(l, ws[0]) == l;
    }
  }

  // ---- every act keeps the invariant ----

  /** Acts that change neither disk nor what is told, but may add to either thread. */
  lemma ThreadChange(emails: set<string>, s: State, s': State, t: Tid)
    requires Inv(emails, s)
    requires s'.disk == s.disk && s'.ids == s.ids && s'.committed == s.committed
    requires s.reported <= s'.reported && s.dropped <= s'.dropped
    requires forall u | u in s'.threads && u != t :: u in s.threads && s'.threads[u] == s.threads[u]
    requires t in s'.threads ==> ThreadSafe(emails, LedgerOf(s'), s'.threads[t])
    ensures Inv(emails, s')
  {
    var l, l' := LedgerOf(s), LedgerOf(s');
    forall u | u in s'.threads && u != t ensures ThreadSafe(emails, l', s'.threads[u]) {
      ThreadGrows(emails, l, l', s.threads[u]);
    }
  }

  lemma RowsAfter(emails: set<string>, rows: map<string, Outcome>, o: Outcome)
    requires Unambiguous(emails) && RowsSafe(emails, rows) && o.emailID in emails
    ensures Pairs(rows[Key(o.Of()) := o]) == Pairs(rows) + {o.Of()}
    ensures RowsSafe(emails, rows[Key(o.Of()) := o])
  {
    var k := Key(o.Of());
    var rows' := rows[k := o];
    if k in rows {
      SameKey(emails, rows[k].Of(), o.Of());
    }
    assert rows'[k].Of() in Pairs(rows');
    forall p | p in Pairs(rows) ensures p in Pairs(rows') {
      var j :| j in rows && rows[j].Of() == p;
      assert rows'[j].Of() == p;
    }
  }

  lemma RowsWithout(emails: set<string>, rows: map<string, Outcome>, keys: set<string>, gone: set<Pair>)
    requires RowsSafe(emails, rows)
    requires forall p: Pair | p.email in emails && Key(p) in keys :: p in gone
    ensures Pairs(rows - keys) + gone >= Pairs(rows)
    ensures RowsSafe(emails, rows - keys)
  {
    forall p | p in Pairs(rows) ensures p in Pairs(rows - keys) + gone {
      var k :| k in rows && rows[k].Of() == p;
      if k in keys {
        assert p.email in emails && Key(p) in keys;
      } else {
        assert (rows - keys)[k].Of() == p;
      }
    }
  }

  /** One durable step whose time has come keeps what survives a crash, and leaves every
      other plan safe. */
  lemma CommitStep(emails: set<string>, s: State, m: Message, body: Bytes)
    requires Durable(emails, s) && NamesKnown(emails, m.emailID) && m.id !in s.ids
    ensures Durable(emails, Stepped(s, CommitEntry(m, body)))
    ensures Grows(LedgerOf(s), LedgerOf(Stepped(s, CommitEntry(m, body))))
  {
  }

  lemma UpdateStep(emails: set<string>, s: State, m: Message)
    requires Durable(emails, s) && HeadSafe(emails, LedgerOf(s), UpdateEntry(m))
    ensures Durable(emails, Stepped(s, UpdateEntry(m)))
    ensures LedgerOf(Stepped(s, UpdateEntry(m))) == LedgerOf(s)
  {
  }

  lemma DeleteStep(emails: set<string>, s: State, id: string)
    requires Durable(emails, s) && HeadSafe(emails, LedgerOf(s), DeleteEntry(id))
    ensures Durable(emails, Stepped(s, DeleteEntry(id)))
    ensures LedgerOf(Stepped(s, DeleteEntry(id))) == LedgerOf(s)
  {
  }

  lemma OutcomeStep(emails: set<string>, s: State, o: Outcome)
    requires Unambiguous(emails) && Durable(emails, s) && o.emailID in emails
    ensures Durable(emails, Stepped(s, PutOutcome(o)))
    ensures LedgerOf(Stepped(s, PutOutcome(o))) == Telling(LedgerOf(s), PutOutcome(o))
  {
    RowsAfter(emails, s.disk.outcomes, o);
    assert LedgerOf(Stepped(s, PutOutcome(o))).told == LedgerOf(s).told + {o.Of()};
  }

  lemma DropStep(emails: set<string>, s: State, keys: set<string>)
    requires Durable(emails, s) && HeadSafe(emails, LedgerOf(s), DeleteOutcomes(keys))
    ensures Durable(emails, Stepped(s, DeleteOutcomes(keys)))
    ensures Grows(LedgerOf(s), LedgerOf(Stepped(s, DeleteOutcomes(keys))))
  {
    RowsWithout(emails, s.disk.outcomes, keys, s.reported + s.dropped);
  }

  lemma AnyStep(emails: set<string>, s: State, w: Write)
    requires Unambiguous(emails) && Durable(emails, s) && HeadSafe(emails, LedgerOf(s), w)
    requires w.CommitEntry? ==> w.m.id !in s.ids
    ensures Durable(emails, Stepped(s, w))
    ensures Grows(LedgerOf(s), LedgerOf(Stepped(s, w))) && Grows(Telling(LedgerOf(s), w), LedgerOf(Stepped(s, w)))
  {
    match w {
      case CommitEntry(m, body) => CommitStep(emails, s, m, body);
      case UpdateEntry(m) => UpdateStep(emails, s, m);
      case DeleteEntry(id) => DeleteStep(emails, s, id);
      case PutOutcome(o) => OutcomeStep(emails, s, o);
      case DeleteOutcomes(keys) => DropStep(emails, s, keys);
      case _ => assert LedgerOf(Stepped(s, w)) == LedgerOf(s);
    }
  }

  lemma WithThread(emails: set<string>, s: State, t: Tid, th: Thread)
    requires Inv(emails, s) && ThreadSafe(emails, LedgerOf(s), th)
    ensures Inv(emails, s.(threads := s.threads[t := th]))
  {
    ThreadChange(emails, s, s.(threads := s.threads[t := th]), t);
  }

  /** The clock, a crash, and what the ledger does not look at. */
  lemma TimeKept(emails: set<string>, s: State, s': State)
    requires Inv(emails, s)
    requires s' == s.(clock := s'.clock, done := s'.done, settled := s'.settled) || s' == s.(threads := map[])
    ensures Inv(emails, s')
  {
    assert LedgerOf(s') == LedgerOf(s);
  }

  lemma WithoutThread(emails: set<string>, s: State, t: Tid)
    requires Inv(emails, s)
    ensures Inv(emails, s.(threads := s.threads - {t}))
  {
    ThreadChange(emails, s, s.(threads := s.threads - {t}), t);
  }

  lemma DurableStep(emails: set<string>, s: State, t: Tid)
    requires Unambiguous(emails) && Inv(emails, s) && t in s.threads && Todo(s.threads[t]) != []
    requires Todo(s.threads[t])[0].CommitEntry? ==> Todo(s.threads[t])[0].m.id !in s.ids
    ensures Inv(emails, TakeStep(s, t))
  {
    var s' := TakeStep(s, t);
    var l, l' := LedgerOf(s), LedgerOf(s');
    var todo := Todo(s.threads[t]);
    var q := s.(threads := s.threads[t := Took(s.threads[t])]);
    assert PlanSafe(emails, l, todo);
    assert LedgerOf(q) == l && Durable(emails, q);
    AnyStep(emails, q, todo[0]);
    assert s'.threads == q.threads;
    forall u | u in s'.threads ensures ThreadSafe(emails, l', s'.threads[u]) {
      if u == t {
        TookSafe(emails, l, l', s.threads[t]);
      } else {
        ThreadGrows(emails, l, l', s.threads[u]);
      }
    }
  }

  /** What is left of a plan is safe once its step is taken. */
  lemma TookSafe(emails: set<string>, l: Ledger, l': Ledger, th: Thread)
    requires ThreadSafe(emails, l, th) && Todo(th) != [] && PlanSafe(emails, l, Todo(th))
    requires Grows(Telling(l, Todo(th)[0]), l')
    ensures ThreadSafe(emails, l', Took(th))
  {
    PlanGrows(emails, Telling(l, Todo(th)[0]), l', Todo(th)[1..]);
  }

  lemma OpenKept(emails: set<string>, s: State, id: string, m: Message)
    requires Inv(emails, s) && SnapshotSafe(emails, LedgerOf(s), m)
    ensures Inv(emails, OpenAttempt(s, id, m))
  {
    var n := m.(attempts := m.attempts + 1);
    assert SnapshotSafe(emails, LedgerOf(s), n);
    GiveUpSafe(emails, LedgerOf(s), n, !Expired(s.rules.lifetime, n, s.clock));
    ThreadChange(emails, s, OpenAttempt(s, id, m), Attempt(id));
  }

  lemma ConcludeSafe(emails: set<string>, s: State, m: Message, a: Answer)
    requires SnapshotSafe(emails, LedgerOf(s), m) && ValidAnswer(m, a)
    ensures ThreadSafe(emails, LedgerOf(s), Writing(ConcludePlan(s, m, a)))
  {
    AnswerSafe(emails, LedgerOf(s), m, a, Expired(s.rules.lifetime, m, s.clock),
               s.clock + Backoff.Gap(s.rules.converted, m.attempts));
  }

  lemma ConcludeKept(emails: set<string>, s: State, id: string, m: Message, a: Answer)
    requires Inv(emails, s) && SnapshotSafe(emails, LedgerOf(s), m) && ValidAnswer(m, a)
    ensures Inv(emails, ConcludeAttempt(s, id, m, a))
  {
    ConcludeSafe(emails, s, m, a);
    var s' := ConcludeAttempt(s, id, m, a);
    WithThread(emails, s, Attempt(id), Writing(ConcludePlan(s, m, a)));
    TimeKept(emails, s.(threads := s'.threads), s');
  }

  lemma OnDisk(emails: set<string>, s: State, id: string)
    requires Inv(emails, s) && id in s.disk.messages
    ensures s.disk.messages[id].id == id && SnapshotSafe(emails, LedgerOf(s), s.disk.messages[id])
  {
    assert forall h | h in s.committed && h.id == id && h.email != "" :: Queueing(s.disk, h) || PairOf(h) in LedgerOf(s).told;
  }

  /** Steps that touch only files and the inbound bucket. */
  ghost predicate Plain(w: Write) {
    w.RemoveBody? || w.WriteReceived? || w.CommitInbound? || w.UpdateInbound? || w.DeleteInbound? || w.RemoveReceived?
  }

  /** A thread set up starts with a safe plan. */
  lemma ArmedSafe(emails: set<string>, s: State, a: Act)
    requires Inv(emails, s) && Enabled(s, a) && Admissible(emails, s, a) && Arms(a)
    ensures ThreadSafe(emails, LedgerOf(s), Armed(s, a))
  {
    var l := LedgerOf(s);
    match a {
      case Accept(_, ms, body, last) => AcceptSafe(emails, l, ms, body, last);
      case SweepExpired(gone) =>
        forall m | m in gone ensures SnapshotSafe(emails, l, m) { OnDisk(emails, s, m.id); }
        SweepSafe(emails, l, gone);
      case Receive(_, r, body, fate) => PlainSafe(emails, l, PutReceivedWrites(r, body, !fate.NoFile?, fate.Stored?));
      case ReadRecipient => ReadSafe(emails, s, s.threads[Claimer]);
      case Place(domain, id, fate) => PlaceSafe(emails, s, s.threads[Claimer], domain, id, fate);
      case ListStray(files) => PlainSafe(emails, l, Unlinks(files));
      case ListStrayReceived(files) => PlainSafe(emails, l, UnlinksReceived(files));
      case _ =>
    }
  }

  lemma ContinueKept(emails: set<string>, s: State, batch: seq<Claimed>)
    requires Inv(emails, s) && forall c | c in batch :: NamesKnown(emails, c.email)
    ensures Inv(emails, Continue(s, batch))
  {
    WithoutThread(emails, s, Claimer);
    WithThread(emails, s, Claimer, Grouping(batch, []));
  }

  lemma ReadSafe(emails: set<string>, s: State, th: Thread)
    requires th.Grouping? && th.batch != [] && th.batch[0].recipients != [] && ThreadSafe(emails, LedgerOf(s), th)
    ensures ThreadSafe(emails, LedgerOf(s), ReadOne(s, th))
  {
    assert th.batch[0] in th.batch;
  }

  lemma ForwardKept(emails: set<string>, s: State, queue: seq<Received>, a: ForwardAnswer)
    requires Inv(emails, s) && queue != []
    ensures Inv(emails, ForwardOne(s, queue, a))
  {
    var s' := ForwardOne(s, queue, a);
    PlainSafe(emails, LedgerOf(s), ForwardPlan(s, queue[0], a));
    WithThread(emails, s, Forwarder, Forwarding(queue[1..], ForwardPlan(s, queue[0], a)));
    TimeKept(emails, s.(threads := s'.threads), s');
  }

  /** Every act keeps the invariant. */
  lemma InvKept(emails: set<string>, s: State, a: Act)
    requires Unambiguous(emails) && Inv(emails, s) && Enabled(s, a) && Admissible(emails, s, a)
    ensures Inv(emails, Do(s, a))
  {
    if a.Step? {
      DurableStep(emails, s, a.t);
    } else if a.Tick? || a.Crash? || a.End? || a.ReadDue? {
      ThreadsKept(emails, s, a);
    } else if a.Open? || a.Conclude? {
      AttemptsKept(emails, s, a);
    } else {
      LoopsKept(emails, s, a);
    }
  }

  lemma ThreadsKept(emails: set<string>, s: State, a: Act)
    requires Inv(emails, s) && Enabled(s, a) && (a.Tick? || a.Crash? || a.End? || a.ReadDue?)
    ensures Inv(emails, Do(s, a))
  {
    match a {
      case Tick(now) => TimeKept(emails, s, s.(clock := now));
      case Crash => TimeKept(emails, s, s.(threads := map[]));
      case End(t) => WithoutThread(emails, s, t);
      case ReadDue(due) => DueKept(emails, s, due);
    }
  }

  lemma AttemptsKept(emails: set<string>, s: State, a: Act)
    requires Inv(emails, s) && Enabled(s, a) && (a.Open? || a.Conclude?)
    ensures Inv(emails, Do(s, a))
  {
    var th := s.threads[Attempt(a.id)];
    assert ThreadSafe(emails, LedgerOf(s), th);
    if a.Open? {
      OpenKept(emails, s, a.id, th.m);
    } else {
      ConcludeKept(emails, s, a.id, th.m, a.answer);
    }
  }

  lemma LoopsKept(emails: set<string>, s: State, a: Act)
    requires Unambiguous(emails) && Inv(emails, s) && Enabled(s, a) && Admissible(emails, s, a)
    requires a.HearReport? || a.HearClaim? || a.NextClaimed? || a.Forward? || Arms(a)
    ensures Inv(emails, Do(s, a))
  {
    if a.HearReport? {
      HearKept(emails, s, s.threads[Reporter].rows, a.report);
    } else if a.HearClaim? {
      ContinueKept(emails, s, a.batch);
    } else if a.NextClaimed? {
      ContinueKept(emails, s, s.threads[Claimer].batch[1..]);
    } else if a.Forward? {
      ForwardKept(emails, s, s.threads[Forwarder].queue, a.forwarded);
    } else {
      ArmedSafe(emails, s, a);
      WithThread(emails, s, Worker(a), Armed(s, a));
    }
  }

  lemma DueKept(emails: set<string>, s: State, due: set<string>)
    requires Inv(emails, s) && due <= s.disk.messages.Keys
    ensures Inv(emails, Launch(s, due))
  {
    forall id | id in due ensures SnapshotSafe(emails, LedgerOf(s), s.disk.messages[id]) {
      var m := s.disk.messages[id];
      assert m.id == id;
      assert forall h | h in s.committed && h.id == id && h.email != "" :: Queueing(s.disk, h) || PairOf(h) in LedgerOf(s).told;
    }
  }

  lemma HearKept(emails: set<string>, s: State, rows: map<string, Outcome>, r: ReportAnswer)
    requires Unambiguous(emails) && Inv(emails, s) && RowsSafe(emails, rows)
    ensures Inv(emails, Hear(s, rows, r))
  {
    var s' := Hear(s, rows, r);
    var l' := LedgerOf(s');
    if r.Taken? || r.RefusedForGood? {
      forall p: Pair | p.email in emails && Key(p) in rows.Keys ensures p in l'.gone {
        SameKey(emails, p, rows[Key(p)].Of());
        assert rows[Key(p)].Of() in Pairs(rows);
      }
      OneSafe(emails, l', DeleteOutcomes(rows.Keys));
    }
    ThreadChange(emails, s, s', Reporter);
  }

  lemma PlaceSafe(emails: set<string>, s: State, th: Thread, domain: string, id: string, fate: Fate)
    requires th.Placing? && th.batch != [] && domain in th.groups && ThreadSafe(emails, LedgerOf(s), th)
    ensures ThreadSafe(emails, LedgerOf(s), PlaceGroup(s, th, domain, id, fate))
  {
    var m := ClaimedMessage(th.batch[0], domain, id, th.groups[domain], s.clock);
    assert th.batch[0] in th.batch;
    PutSafe(emails, LedgerOf(s), m, th.batch[0].body, !fate.NoFile?, fate.Stored?);
  }

  // ---- over whole runs ----

  /** A run from `s`: each act possible when taken, and admissible. */
  ghost predicate Runs(emails: set<string>, s: State, acts: seq<Act>)
    decreases |acts|
  {
    acts == [] || (Enabled(s, acts[0]) && Admissible(emails, s, acts[0]) && Runs(emails, Do(s, acts[0]), acts[1..]))
  }

  ghost function Reached(emails: set<string>, s: State, acts: seq<Act>): State
    requires Runs(emails, s, acts)
    decreases |acts|
  {
    if acts == [] then s else Reached(emails, Do(s, acts[0]), acts[1..])
  }

  lemma {:induction false} InvReached(emails: set<string>, s: State, acts: seq<Act>)
    requires Unambiguous(emails) && Inv(emails, s) && Runs(emails, s, acts)
    ensures Inv(emails, Reached(emails, s, acts))
    decreases |acts|
  {
    if acts != [] {
      InvKept(emails, s, acts[0]);
      InvReached(emails, Do(s, acts[0]), acts[1..]);
    }
  }

  lemma InvConserves(emails: set<string>, s: State)
    requires Unambiguous(emails) && Inv(emails, s)
    ensures Conserved(s)
  {
    forall h | h in s.committed && h.email != "" ensures Kept(s, h) {
      if PairOf(h) in Pairs(s.disk.outcomes) {
        var k :| k in s.disk.outcomes && s.disk.outcomes[k].Of() == PairOf(h);
      }
    }
  }

  /** No accepted recipient is silently lost, in any state a run reaches. */
  lemma NothingAcceptedIsLost(emails: set<string>, rules: Rules, clock: int, acts: seq<Act>)
    requires Unambiguous(emails) && Runs(emails, Boot(rules, clock), acts)
    ensures Conserved(Reached(emails, Boot(rules, clock), acts))
  {
    InvReached(emails, Boot(rules, clock), acts);
    InvConserves(emails, Reached(emails, Boot(rules, clock), acts));
  }
}
