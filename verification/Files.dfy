/** Every queued message has its bytes, exactly as accepted, in every state - as long as
    the orphan sweep does not overlap a put and the expiry sweep does not overlap an
    attempt on a message it drops, neither of which the node takes a lock for. */
module Files {
  import opened Names
  import opened DurableSteps
  import opened SpoolFiles
  import opened Delivery
  import opened MxForwarding
  import opened Node
  import Backoff

  /** The outbound message or file a step is about. */
  function About(w: Write): Option<string> {
    match w
    case WriteBody(id, _) => Some(id)
    case CommitEntry(m, _) => Some(m.id)
    case UpdateEntry(m) => Some(m.id)
    case DeleteEntry(id) => Some(id)
    case RemoveBody(id) => Some(id)
    case _ => None
  }

  predicate Putting(w: Write) {
    w.WriteBody? || w.CommitEntry?
  }

  predicate OnEntry(w: Write) {
    w.UpdateEntry? || w.DeleteEntry?
  }

  ghost predicate PutsNone(todo: seq<Write>) {
    forall w | w in todo :: !Putting(w)
  }

  ghost predicate PutsOf(todo: seq<Write>, id: string) {
    exists w :: w in todo && Putting(w) && About(w) == Some(id)
  }

  /** No put is under way while the orphan sweep knows the entries and has not listed the
      directory, and none of an id whose file it is about to remove. */
  ghost predicate PutsApart(s: State) {
    OrphanSweep in s.threads ==>
      && (s.threads[OrphanSweep].Swept? ==> forall t | t in s.threads :: PutsNone(Todo(s.threads[t])))
      && forall w, t | w in Todo(s.threads[OrphanSweep]) && w.RemoveBody? && t in s.threads ::
           !PutsOf(Todo(s.threads[t]), w.id)
  }

  /** No attempt is under way on a message the expiry sweep is giving up. */
  ghost predicate AttemptsApart(s: State) {
    ExpirySweep in s.threads ==>
      forall t | t in s.threads && t.Attempt? :: !Mentions(Todo(s.threads[ExpirySweep]), t.id)
  }

  /** What the node takes no lock for, and its timers keep apart. */
  ghost predicate Calm(s: State) {
    PutsApart(s) && AttemptsApart(s)
  }

  /** An id no entry and no put under way has. */
  ghost predicate Unused(s: State, id: string) {
    && id !in s.ids
    && forall t | t in s.threads && Puts(t) :: !Mentions(Todo(s.threads[t]), id)
  }

  /** Ids are made unique: a new entry's is unused when its put begins. */
  ghost predicate FreshIds(s: State, a: Act)
    requires Enabled(s, a)
  {
    match a
    case Accept(_, ms, _, _) => forall m | m in ms :: Unused(s, m.id)
    case Place(_, id, _) => id in s.disk.messages || Unused(s, id)
    case _ => true
  }

  // ---- plans ----

  datatype Written = Written(id: string, body: Bytes)

  /** The bytes a plan expects to find written when it starts. */
  function Awaits(todo: seq<Write>): Option<Written> {
    if todo != [] && todo[0].CommitEntry? then Some(Written(todo[0].m.id, todo[0].accepted)) else None
  }

  ghost predicate PutHead(ids: set<string>, ready: Option<Written>, w: Write) {
    match w
    case WriteBody(id, _) => id !in ids
    case CommitEntry(m, body) => m.id !in ids && ready == Some(Written(m.id, body))
    case RemoveBody(id) => id !in ids
    case _ => false
  }

  function ReadyAfter(w: Write): Option<Written> {
    if w.WriteBody? then Some(Written(w.id, w.body)) else None
  }

  function IdsAfter(ids: set<string>, w: Write): set<string> {
    if w.CommitEntry? then ids + {w.m.id} else ids
  }

  /** Puts under way: ids not in `ids`, each entry right after its bytes. */
  ghost predicate PutPlan(ids: set<string>, ready: Option<Written>, todo: seq<Write>)
    decreases |todo|
  {
    todo == [] || (PutHead(ids, ready, todo[0]) && PutPlan(IdsAfter(ids, todo[0]), ReadyAfter(todo[0]), todo[1..]))
  }

  ghost predicate DropHead(ids: set<string>, live: set<string>, w: Write) {
    match w
    case UpdateEntry(m) => m.id in ids && m.id in live
    case DeleteEntry(id) => id in ids && id in live
    case RemoveBody(id) => id in ids && id !in live
    case WriteBody(_, _) => false
    case CommitEntry(_, _) => false
    case _ => true
  }

  function LiveAfter(live: set<string>, w: Write): set<string> {
    if w.DeleteEntry? then live - {w.id} else live
  }

  /** Changes of the entries in `live`: one already there is updated or dropped, and only
      bytes of a dropped one are removed. */
  ghost predicate DropPlan(ids: set<string>, live: set<string>, todo: seq<Write>)
    decreases |todo|
  {
    todo == [] || (DropHead(ids, live, todo[0]) && DropPlan(ids, LiveAfter(live, todo[0]), todo[1..]))
  }

  ghost predicate Mentions(todo: seq<Write>, id: string) {
    exists w :: w in todo && About(w) == Some(id)
  }

  ghost predicate OnlyAbout(id: string, todo: seq<Write>) {
    forall w | w in todo && About(w).Some? :: About(w) == Some(id)
  }

  ghost predicate Elsewhere(todo: seq<Write>) {
    forall w | w in todo :: About(w).None?
  }

  ghost predicate UpdatesNone(todo: seq<Write>) {
    forall w | w in todo :: !w.UpdateEntry?
  }

  ghost predicate PutsRight(s: State, todo: seq<Write>) {
    && PutPlan(s.ids, Awaits(todo), todo)
    && (Awaits(todo).Some? ==>
          && Awaits(todo).value.id in s.disk.bodies
          && s.disk.bodies[Awaits(todo).value.id] == Awaits(todo).value.body)
  }

  ghost predicate ThreadFiles(s: State, t: Tid, th: Thread) {
    match t
    case Session(_) => PutsRight(s, Todo(th))
    case Claimer => PutsRight(s, Todo(th))
    case Attempt(id) =>
      if th.Queued? then th.m.id == id && id in s.disk.messages
      else if th.Sending? then
        th.m.id == id && id in s.disk.messages && id in s.accepted && th.body == s.accepted[id]
      else DropPlan(s.ids, s.disk.messages.Keys, Todo(th)) && OnlyAbout(id, Todo(th))
    case ExpirySweep => DropPlan(s.ids, s.disk.messages.Keys, Todo(th)) && UpdatesNone(Todo(th))
    case OrphanSweep =>
      && (th.Swept? ==> s.disk.messages.Keys <= th.known)
      && forall w | w in Todo(th) && About(w).Some? :: w.RemoveBody? && w.id !in s.disk.messages
    case _ => Elsewhere(Todo(th))
  }

  ghost predicate Puts(t: Tid) {
    t.Session? || t.Claimer?
  }

  ghost predicate Share(a: seq<Write>, b: seq<Write>) {
    exists v, w :: v in a && w in b && About(v) == About(w)
  }

  /** No two puts under way share an id. */
  ghost predicate Apart(s: State) {
    forall t, u | t in s.threads && u in s.threads && t != u && Puts(t) && Puts(u) ::
      !Share(Todo(s.threads[t]), Todo(s.threads[u]))
  }

  ghost predicate BytesKept(s: State) {
    forall id | id in s.disk.messages ::
      id in s.disk.bodies && id in s.accepted && s.disk.bodies[id] == s.accepted[id]
  }

  ghost predicate DiskFiles(s: State) {
    && Keyed(s.disk)
    && s.disk.messages.Keys <= s.ids
    && BytesKept(s)
  }

  ghost predicate FilesInv(s: State) {
    && DiskFiles(s)
    && Apart(s)
    && forall t | t in s.threads :: ThreadFiles(s, t, s.threads[t])
  }

  // ---- the plans of the operations ----

  /** Only the ids a plan mentions matter to it. */
  lemma {:induction false} PutFrame(ids: set<string>, ids': set<string>, ready: Option<Written>, todo: seq<Write>)
    requires PutPlan(ids, ready, todo)
    requires forall id | Mentions(todo, id) :: id in ids <==> id in ids'
    ensures PutPlan(ids', ready, todo)
    decreases |todo|
  {
    if todo != [] {
      var rest := todo[1..];
      assert About(todo[0]).Some? ==> Mentions(todo, About(todo[0]).value);
      assert forall id | Mentions(rest, id) :: Mentions(todo, id);
      PutFrame(IdsAfter(ids, todo[0]), IdsAfter(ids', todo[0]), ReadyAfter(todo[0]), rest);
    }
  }

  lemma {:induction false} DropFrame(ids: set<string>, ids': set<string>, live: set<string>, live': set<string>, todo: seq<Write>)
    requires DropPlan(ids, live, todo) && ids <= ids'
    requires forall id | Mentions(todo, id) :: id in live <==> id in live'
    ensures DropPlan(ids', live', todo)
    decreases |todo|
  {
    if todo != [] {
      var rest := todo[1..];
      assert About(todo[0]).Some? ==> Mentions(todo, About(todo[0]).value);
      assert forall id | Mentions(rest, id) :: Mentions(todo, id);
      DropFrame(ids, ids', LiveAfter(live, todo[0]), LiveAfter(live', todo[0]), rest);
    }
  }

  lemma {:induction false} DropIds(ids: set<string>, live: set<string>, todo: seq<Write>, id: string)
    requires DropPlan(ids, live, todo) && Mentions(todo, id)
    ensures id in ids
    decreases |todo|
  {
    if About(todo[0]) != Some(id) {
      assert Mentions(todo[1..], id);
      DropIds(ids, LiveAfter(live, todo[0]), todo[1..], id);
    }
  }

  lemma {:induction false} PutIds(ids: set<string>, ready: Option<Written>, todo: seq<Write>, id: string)
    requires PutPlan(ids, ready, todo) && Mentions(todo, id)
    ensures id !in ids
    decreases |todo|
  {
    if About(todo[0]) != Some(id) {
      assert Mentions(todo[1..], id);
      PutIds(IdsAfter(ids, todo[0]), ReadyAfter(todo[0]), todo[1..], id);
    }
  }

  lemma PutWritesPlan(ids: set<string>, m: Message, body: Bytes, fileOk: bool, dbOk: bool)
    requires m.id !in ids
    ensures PutPlan(ids, None, PutWrites(m, body, fileOk, dbOk))
    ensures forall w | w in PutWrites(m, body, fileOk, dbOk) :: About(w) == Some(m.id)
  {
    var ws := PutWrites(m, body, fileOk, dbOk);
    if fileOk {
      assert ws[1..] == [ws[1]] && ws[1..][1..] == [];
      assert PutPlan(ids, Some(Written(m.id, body)), ws[1..]);
    }
  }

  lemma TwoThen(v: Write, w: Write, rest: seq<Write>)
    ensures ([v, w] + rest)[1..] == [w] + rest && ([w] + rest)[1..] == rest
  {
  }

  lemma {:induction false} AcceptPlan(ids: set<string>, ms: seq<Message>, body: Bytes, last: Fate)
    requires forall i, j | 0 <= i < j < |ms| :: ms[i].id != ms[j].id
    requires forall m | m in ms :: m.id !in ids
    ensures PutPlan(ids, None, AcceptWrites(ms, body, last))
    ensures forall id | Mentions(AcceptWrites(ms, body, last), id) :: exists m :: m in ms && m.id == id
    decreases |ms|
  {
    if |ms| == 1 {
      PutWritesPlan(ids, ms[0], body, !last.NoFile?, last.Stored?);
      assert ms[0] in ms;
    } else if |ms| > 1 {
      var m := ms[0];
      var b := body;
      var rest := AcceptWrites(ms[1..], body, last);
      var ids' := ids + {m.id};
      forall n | n in ms[1..] ensures n.id !in ids' {
        var k :| 0 <= k < |ms[1..]| && ms[1..][k] == n;
        assert ms[k + 1] == n;
      }
      AcceptPlan(ids', ms[1..], body, last);
      var first := PutWrites(m, body, true, true);
      assert first == [first[0], first[1]];
      var all := first + rest;
      TwoThen(first[0], first[1], rest);
      assert PutPlan(ids, Some(Written(m.id, body)), all[1..]);
      assert m in ms;
      forall id | Mentions(all, id) ensures exists n :: n in ms && n.id == id {
        var w :| w in all && About(w) == Some(id);
        if w !in first {
          assert Mentions(rest, id);
          var n :| n in ms[1..] && n.id == id;
          assert n in ms;
        }
      }
    }
  }

  lemma {:induction false} OutcomesThenDrop(ids: set<string>, live: set<string>, front: seq<Write>, rest: seq<Write>)
    requires DropPlan(ids, live, rest) && forall w | w in front :: w.PutOutcome?
    ensures DropPlan(ids, live, front + rest)
    ensures forall id | Mentions(front + rest, id) :: Mentions(rest, id)
    decreases |front|
  {
    if front == [] {
      assert front + rest == rest;
    } else {
      OutcomesThenDrop(ids, live, front[1..], rest);
      assert (front + rest)[1..] == front[1..] + rest;
      assert (front + rest)[0] == front[0] && front[0] in front;
      forall id | Mentions(front + rest, id) ensures Mentions(rest, id) {
        var w :| w in front + rest && About(w) == Some(id);
        assert w in rest;
      }
    }
  }

  lemma RemovePlan(ids: set<string>, live: set<string>, id: string)
    requires id in ids && id in live
    ensures DropPlan(ids, live, RemoveWrites(id))
  {
    var ws := RemoveWrites(id);
    assert ws[1..] == [RemoveBody(id)] && ws[1..][1..] == [];
    assert DropPlan(ids, live - {id}, ws[1..]);
  }

  lemma GiveUpPlan(ids: set<string>, live: set<string>, m: Message, permanent: bool)
    requires m.id in live && m.id in ids
    ensures DropPlan(ids, live, GiveUpWrites(m, permanent)) && OnlyAbout(m.id, GiveUpWrites(m, permanent))
  {
    RemovePlan(ids, live, m.id);
    OutcomesThenDrop(ids, live, OutcomeWrites(m.emailID, m.recipients, false, permanent), RemoveWrites(m.id));
  }

  lemma UpdatePlan(ids: set<string>, live: set<string>, m: Message)
    requires m.id in live && m.id in ids
    ensures DropPlan(ids, live, [UpdateEntry(m)])
  {
    assert [UpdateEntry(m)][1..] == [];
  }

  lemma AnswerPlan(ids: set<string>, live: set<string>, m: Message, a: Answer, expired: bool, next: int)
    requires m.id in live && m.id in ids && ValidAnswer(m, a)
    ensures DropPlan(ids, live, AnswerWrites(m, a, expired, next)) && OnlyAbout(m.id, AnswerWrites(m, a, expired, next))
  {
    match a {
      case NoSuchDomain => GiveUpPlan(ids, live, m, !expired);
      case RefusedOutright => GiveUpPlan(ids, live, m, !expired);
      case Unresolved => UpdatePlan(ids, live, m.(nextAttempt := next));
      case SendFailed => UpdatePlan(ids, live, m.(nextAttempt := next));
      case Answered(verdicts, order) =>
        var told := OutcomeWrites(m.emailID, Converse(m.recipients, verdicts).accepted, true, false);
        var refused := OutcomeWrites(m.emailID, Refusals(m, a), false, true);
        ConcludingPlan(ids, live, m.(recipients := Retry(m, a), nextAttempt := next), told + refused);
    }
  }

  lemma ConcludingPlan(ids: set<string>, live: set<string>, n: Message, told: seq<Write>)
    requires n.id in live && n.id in ids && forall w | w in told :: w.PutOutcome?
    ensures var plan := told + (if n.recipients == [] then RemoveWrites(n.id) else [UpdateEntry(n)]);
            DropPlan(ids, live, plan) && OnlyAbout(n.id, plan)
  {
    RemovePlan(ids, live, n.id);
    UpdatePlan(ids, live, n);
    OutcomesThenDrop(ids, live, told, if n.recipients == [] then RemoveWrites(n.id) else [UpdateEntry(n)]);
  }

  lemma RemoveThen(ids: set<string>, live: set<string>, id: string, rest: seq<Write>)
    requires id in ids && id in live && DropPlan(ids, live - {id}, rest)
    ensures DropPlan(ids, live, RemoveWrites(id) + rest)
  {
    var drop := RemoveWrites(id) + rest;
    assert drop[1..] == [RemoveBody(id)] + rest && drop[1..][1..] == rest;
    assert DropPlan(ids, live - {id}, drop[1..]);
  }

  lemma OtherIds(gone: seq<Message>, n: Message)
    requires forall i, j | 0 <= i < j < |gone| :: gone[i].id != gone[j].id
    requires gone != [] && n in gone[1..]
    ensures n in gone && n.id != gone[0].id
  {
    var k :| 0 <= k < |gone[1..]| && gone[1..][k] == n;
    assert gone[k + 1] == n;
  }

  lemma {:induction false} SweepPlan(ids: set<string>, live: set<string>, gone: seq<Message>)
    requires forall m | m in gone :: m.id in live && m.id in ids
    requires forall i, j | 0 <= i < j < |gone| :: gone[i].id != gone[j].id
    ensures DropPlan(ids, live, SweepWrites(gone)) && UpdatesNone(SweepWrites(gone))
    decreases |gone|
  {
    if gone != [] {
      var m, rest := gone[0], SweepWrites(gone[1..]);
      forall n | n in gone[1..] ensures n.id in live - {m.id} && n.id in ids { OtherIds(gone, n); }
      SweepPlan(ids, live - {m.id}, gone[1..]);
      assert m in gone;
      SweepThen(ids, live, m, rest);
    }
  }

  lemma SweepThen(ids: set<string>, live: set<string>, m: Message, rest: seq<Write>)
    requires m.id in ids && m.id in live && DropPlan(ids, live - {m.id}, rest) && UpdatesNone(rest)
    ensures var plan := OutcomeWrites(m.emailID, m.recipients, false, false) + RemoveWrites(m.id) + rest;
            DropPlan(ids, live, plan) && UpdatesNone(plan)
  {
    RemoveThen(ids, live, m.id, rest);
    var told := OutcomeWrites(m.emailID, m.recipients, false, false);
    OutcomesThenDrop(ids, live, told, RemoveWrites(m.id) + rest);
    assert told + (RemoveWrites(m.id) + rest) == told + RemoveWrites(m.id) + rest;
  }

  // ---- what one thread's step means to the others ----

  ghost predicate Concerns(u: Tid, th: Thread, id: string) {
    Mentions(Todo(th), id) || (u.Attempt? && (th.Queued? || th.Sending?) && th.m.id == id)
  }

  /** Nothing changed but for the message `about`. */
  ghost predicate SameBut(s: State, s': State, about: Option<string>) {
    forall id | Some(id) != about ::
      && (id in s.ids <==> id in s'.ids)
      && (id in s.disk.messages <==> id in s'.disk.messages)
      && (id in s.disk.bodies <==> id in s'.disk.bodies)
      && (id in s.disk.bodies ==> s.disk.bodies[id] == s'.disk.bodies[id])
      && (id in s.accepted <==> id in s'.accepted)
      && (id in s.accepted ==> s.accepted[id] == s'.accepted[id])
  }

  lemma StepSameBut(s: State, w: Write)
    ensures SameBut(s, Stepped(s, w), About(w)) && s.ids <= Stepped(s, w).ids
  {
  }

  lemma Unconcerned(s: State, s': State, u: Tid, th: Thread, about: Option<string>)
    requires ThreadFiles(s, u, th) && SameBut(s, s', about) && s.ids <= s'.ids && u != OrphanSweep
    requires about.Some? ==> !Concerns(u, th, about.value)
    ensures ThreadFiles(s', u, th)
  {
    if u.Session? || u.Claimer? {
      PutFrame(s.ids, s'.ids, Awaits(Todo(th)), Todo(th));
      if Awaits(Todo(th)).Some? {
        assert About(Todo(th)[0]) == Some(Awaits(Todo(th)).value.id);
        assert Mentions(Todo(th), Awaits(Todo(th)).value.id);
      }
    } else if (u.Attempt? && !th.Queued? && !th.Sending?) || u.ExpirySweep? {
      DropFrame(s.ids, s'.ids, s.disk.messages.Keys, s'.disk.messages.Keys, Todo(th));
    }
  }

  lemma AwaitsEnough(ids: set<string>, ready: Option<Written>, todo: seq<Write>)
    requires PutPlan(ids, ready, todo)
    ensures PutPlan(ids, Awaits(todo), todo)
  {
  }

  /** The step of a put. */
  lemma PutStep(s: State, t: Tid)
    requires FilesInv(s) && Calm(s) && t in s.threads && Puts(t) && Todo(s.threads[t]) != []
    ensures FilesInv(TakeStep(s, t))
  {
    var s', todo := TakeStep(s, t), Todo(s.threads[t]);
    var w := todo[0];
    PutOnDisk(s, t);
    var id := About(w).value;
    StepSameBut(s.(threads := s'.threads), w);
    assert w in todo && Mentions(todo, id);
    PutIds(s.ids, Awaits(todo), todo, id);
    forall u | u in s'.threads && u != t && u != OrphanSweep ensures ThreadFiles(s', u, s'.threads[u]) {
      PutConcernsNone(s, t, u, id);
      Unconcerned(s, s', u, s.threads[u], Some(id));
    }
    ApartAfter(s, s', t);
  }

  lemma PutOnDisk(s: State, t: Tid)
    requires FilesInv(s) && Calm(s) && t in s.threads && Puts(t) && Todo(s.threads[t]) != []
    ensures var s' := TakeStep(s, t);
            && About(Todo(s.threads[t])[0]).Some?
            && DiskFiles(s') && ThreadFiles(s', t, s'.threads[t])
            && (OrphanSweep in s.threads ==> ThreadFiles(s', OrphanSweep, s.threads[OrphanSweep]))
  {
    var s', todo := TakeStep(s, t), Todo(s.threads[t]);
    var w := todo[0];
    assert ThreadFiles(s, t, s.threads[t]);
    assert PutPlan(s.ids, Awaits(todo), todo) && PutHead(s.ids, Awaits(todo), w);
    assert w in todo;
    if OrphanSweep in s.threads && Putting(w) {
      assert PutsOf(todo, About(w).value);
    }
    AwaitsEnough(IdsAfter(s.ids, w), ReadyAfter(w), todo[1..]);
    assert s'.ids == IdsAfter(s.ids, w) && Todo(s'.threads[t]) == todo[1..];
  }

  /** A put's id is its own: no other thread is concerned with it. */
  lemma PutConcernsNone(s: State, t: Tid, u: Tid, id: string)
    requires FilesInv(s) && t in s.threads && Puts(t) && u in s.threads && u != t && u != OrphanSweep
    requires Mentions(Todo(s.threads[t]), id) && id !in s.ids
    ensures !Concerns(u, s.threads[u], id)
  {
    var th := s.threads[u];
    assert ThreadFiles(s, u, th);
    if Mentions(Todo(th), id) {
      var v :| v in Todo(s.threads[t]) && About(v) == Some(id);
      var w :| w in Todo(th) && About(w) == Some(id);
      if (u.Attempt? && !th.Queued? && !th.Sending?) || u.ExpirySweep? {
        DropIds(s.ids, s.disk.messages.Keys, Todo(th), id);
      }
    }
  }

  lemma ApartAfter(s: State, s': State, t: Tid)
    requires Apart(s) && t in s.threads && Todo(s.threads[t]) != []
    requires s'.threads == s.threads[t := Took(s.threads[t])]
    ensures Apart(s')
  {
    assert forall w | w in Todo(s.threads[t])[1..] :: w in Todo(s.threads[t]);
    forall u, x | u in s'.threads && x in s'.threads && u != x && Puts(u) && Puts(x)
      ensures !Share(Todo(s'.threads[u]), Todo(s'.threads[x]))
    {
      assert !Share(Todo(s.threads[u]), Todo(s.threads[x]));
    }
  }

  /** The step of an attempt or of the expiry sweep. */
  lemma DropStep(s: State, t: Tid)
    requires FilesInv(s) && Calm(s) && t in s.threads && (t.Attempt? || t.ExpirySweep?) && Todo(s.threads[t]) != []
    ensures FilesInv(TakeStep(s, t))
  {
    var s', todo := TakeStep(s, t), Todo(s.threads[t]);
    var w := todo[0];
    StepSameBut(s.(threads := s'.threads), w);
    DropOnDisk(s, t);
    forall u | u in s'.threads && u != t && u != OrphanSweep ensures ThreadFiles(s', u, s'.threads[u]) {
      if About(w).Some? {
        assert w in todo && Mentions(todo, About(w).value);
        DropIds(s.ids, s.disk.messages.Keys, todo, About(w).value);
        DropConcernsNone(s, t, u, About(w).value);
      }
      Unconcerned(s, s', u, s.threads[u], About(w));
    }
    ApartAfter(s, s', t);
  }

  lemma DropOnDisk(s: State, t: Tid)
    requires FilesInv(s) && t in s.threads && (t.Attempt? || t.ExpirySweep?) && Todo(s.threads[t]) != []
    ensures var s' := TakeStep(s, t);
            && DiskFiles(s') && s'.ids == s.ids && s'.disk.messages.Keys <= s.disk.messages.Keys
            && ThreadFiles(s', t, s'.threads[t])
            && (OrphanSweep in s.threads ==> ThreadFiles(s', OrphanSweep, s.threads[OrphanSweep]))
  {
    var s', todo := TakeStep(s, t), Todo(s.threads[t]);
    assert ThreadFiles(s, t, s.threads[t]);
    var live := s.disk.messages.Keys;
    assert DropPlan(s.ids, live, todo) && DropHead(s.ids, live, todo[0]);
    DropHeadOnDisk(s.(threads := s'.threads), todo[0]);
    assert Todo(s'.threads[t]) == todo[1..];
    assert forall v | v in todo[1..] :: v in todo;
  }

  lemma DropHeadOnDisk(s: State, w: Write)
    requires DiskFiles(s) && DropHead(s.ids, s.disk.messages.Keys, w)
    ensures DiskFiles(Stepped(s, w)) && Stepped(s, w).ids == s.ids
    ensures Stepped(s, w).disk.messages.Keys == LiveAfter(s.disk.messages.Keys, w) <= s.disk.messages.Keys
  {
  }

  lemma DropConcernsNone(s: State, t: Tid, u: Tid, id: string)
    requires FilesInv(s) && Calm(s) && t in s.threads && (t.Attempt? || t.ExpirySweep?)
    requires u in s.threads && u != t && u != OrphanSweep
    requires Todo(s.threads[t]) != [] && Mentions(Todo(s.threads[t]), id) && id in s.ids
    ensures !Concerns(u, s.threads[u], id)
  {
    assert ThreadFiles(s, u, s.threads[u]) && ThreadFiles(s, t, s.threads[t]);
    if t.Attempt? {
      var v :| v in Todo(s.threads[t]) && About(v) == Some(id);
      assert t.id == id;
    }
    NotConcerned(s, t, u, s.threads[u], id);
  }

  /** A dropped message's attempt is its own, and a put's id was never used. */
  lemma NotConcerned(s: State, t: Tid, u: Tid, th: Thread, id: string)
    requires ThreadFiles(s, u, th) && u != t && u != OrphanSweep && id in s.ids
    requires t.Attempt? || t.ExpirySweep?
    requires if t.Attempt? then t.id == id && (u.ExpirySweep? ==> !Mentions(Todo(th), id)) else u != Attempt(id)
    ensures !Concerns(u, th, id)
  {
    if Mentions(Todo(th), id) {
      var w :| w in Todo(th) && About(w) == Some(id);
      if Puts(u) {
        PutIds(s.ids, Awaits(Todo(th)), Todo(th), id);
      }
    }
  }

  /** The step of the orphan sweep, or of a loop that touches no outbound message. */
  lemma OtherStep(s: State, t: Tid)
    requires FilesInv(s) && Calm(s) && t in s.threads && Todo(s.threads[t]) != []
    requires !Puts(t) && !t.Attempt? && !t.ExpirySweep?
    ensures FilesInv(TakeStep(s, t))
  {
    var s', todo := TakeStep(s, t), Todo(s.threads[t]);
    var w := todo[0];
    assert w in todo && ThreadFiles(s, t, s.threads[t]);
    OtherOnDisk(s, w);
    OwnAfter(s, s', t);
    forall u | u in s'.threads && u != t ensures ThreadFiles(s', u, s'.threads[u]) {
      if w.RemoveBody? {
        StraySpares(s, s', u, w);
      } else {
        ElsewhereSpares(s, s', u, w);
      }
    }
    ApartAfter(s, s', t);
  }

  /** A step about no outbound message leaves every other thread's plan right. */
  lemma ElsewhereSpares(s: State, s': State, u: Tid, w: Write)
    requires u in s.threads && ThreadFiles(s, u, s.threads[u]) && About(w).None?
    requires s' == Stepped(s.(threads := s'.threads), w)
    ensures ThreadFiles(s', u, s.threads[u])
  {
    StepSameBut(s.(threads := s'.threads), w);
    if u != OrphanSweep { Unconcerned(s, s', u, s.threads[u], None); }
  }

  lemma OwnAfter(s: State, s': State, t: Tid)
    requires t in s.threads && Todo(s.threads[t]) != [] && ThreadFiles(s, t, s.threads[t])
    requires !Puts(t) && !t.Attempt? && !t.ExpirySweep?
    requires s'.disk.messages == s.disk.messages
    ensures ThreadFiles(s', t, Took(s.threads[t]))
  {
    assert forall v | v in Todo(s.threads[t])[1..] :: v in Todo(s.threads[t]);
  }

  lemma OtherOnDisk(s: State, w: Write)
    requires DiskFiles(s) && (About(w).None? || (w.RemoveBody? && w.id !in s.disk.messages))
    ensures DiskFiles(Stepped(s, w)) && Stepped(s, w).disk.messages == s.disk.messages
  {
  }

  /** Removing a stray leaves every thread's plan right: no put of it is under way. */
  lemma StraySpares(s: State, s': State, u: Tid, w: Write)
    requires FilesInv(s) && Calm(s) && OrphanSweep in s.threads && u in s.threads && u != OrphanSweep
    requires w in Todo(s.threads[OrphanSweep]) && w.RemoveBody? && s'.disk.bodies == s.disk.bodies - {w.id}
    requires s'.ids == s.ids && s'.disk.messages == s.disk.messages && s'.accepted == s.accepted
    ensures ThreadFiles(s', u, s.threads[u])
  {
    var th := s.threads[u];
    assert ThreadFiles(s, u, th);
    if Puts(u) && Awaits(Todo(th)).Some? {
      assert Todo(th)[0] in Todo(th) && PutsOf(Todo(th), Awaits(Todo(th)).value.id);
    }
  }

  // ---- the other acts ----

  /** An act that changes no file and no entry but may set up one thread. */
  lemma SetUp(s: State, s': State, t: Tid)
    requires FilesInv(s) && t in s'.threads
    requires s'.disk == s.disk && s'.ids == s.ids && s'.accepted == s.accepted
    requires s'.threads == s.threads[t := s'.threads[t]]
    requires ThreadFiles(s', t, s'.threads[t])
    requires Puts(t) ==>
               (forall w | w in Todo(s'.threads[t]) :: t in s.threads && w in Todo(s.threads[t])) ||
               (forall w, id | w in Todo(s'.threads[t]) && About(w) == Some(id) :: Unused(s, id))
    requires Puts(t) ==> forall w | w in Todo(s'.threads[t]) :: About(w).Some?
    ensures FilesInv(s')
  {
    forall u | u in s'.threads && u != t ensures ThreadFiles(s', u, s'.threads[u]) {
      if u != OrphanSweep { Unconcerned(s, s', u, s.threads[u], None); }
    }
    forall u, x | u in s'.threads && x in s'.threads && u != x && Puts(u) && Puts(x)
      ensures !Share(Todo(s'.threads[u]), Todo(s'.threads[x]))
    {
      forall v, w | v in Todo(s'.threads[u]) && w in Todo(s'.threads[x]) ensures About(v) != About(w) {
        SetUpApart(s, s', t, u, x, v, w);
      }
    }
  }

  lemma SetUpApart(s: State, s': State, t: Tid, u: Tid, x: Tid, v: Write, w: Write)
    requires Apart(s) && t in s'.threads && s'.threads == s.threads[t := s'.threads[t]]
    requires Puts(t) ==>
               (forall y | y in Todo(s'.threads[t]) :: t in s.threads && y in Todo(s.threads[t])) ||
               (forall y, id | y in Todo(s'.threads[t]) && About(y) == Some(id) :: Unused(s, id))
    requires Puts(t) ==> forall y | y in Todo(s'.threads[t]) :: About(y).Some?
    requires u in s'.threads && x in s'.threads && u != x && Puts(u) && Puts(x)
    requires v in Todo(s'.threads[u]) && w in Todo(s'.threads[x])
    ensures About(v) != About(w)
  {
    assert u in s.threads && x in s.threads ==> !Share(Todo(s.threads[u]), Todo(s.threads[x]));
    if u == t && About(v).Some? {
      assert About(v) == Some(About(v).value);
    }
    if x == t && About(w).Some? {
      assert About(w) == Some(About(w).value);
    }
  }

  /** A thread set up without a put. */
  lemma SetUpAside(s: State, t: Tid, th: Thread)
    requires FilesInv(s) && ThreadFiles(s, t, th) && (Puts(t) ==> Todo(th) == [])
    ensures FilesInv(s.(threads := s.threads[t := th]))
  {
    SetUp(s, s.(threads := s.threads[t := th]), t);
  }

  lemma DropThread(s: State, t: Tid)
    requires FilesInv(s)
    ensures FilesInv(s.(threads := s.threads - {t}))
  {
    var s' := s.(threads := s.threads - {t});
    forall u | u in s'.threads ensures ThreadFiles(s', u, s'.threads[u]) {
      if u != OrphanSweep { Unconcerned(s, s', u, s.threads[u], None); }
    }
  }

  lemma PlaceFiles(s: State, th: Thread, domain: string, id: string, fate: Fate)
    requires FilesInv(s) && Claimer in s.threads && th == s.threads[Claimer] && th.Placing? && th.batch != []
    requires domain in th.groups && (id in s.disk.messages || Unused(s, id))
    ensures FilesInv(s.(threads := s.threads[Claimer := PlaceGroup(s, th, domain, id, fate)]))
  {
    var s' := s.(threads := s.threads[Claimer := PlaceGroup(s, th, domain, id, fate)]);
    if id !in s.disk.messages {
      var m := ClaimedMessage(th.batch[0], domain, id, th.groups[domain], s.clock);
      PutWritesPlan(s.ids, m, th.batch[0].body, !fate.NoFile?, fate.Stored?);
      AwaitsEnough(s.ids, None, Todo(s'.threads[Claimer]));
    }
    SetUp(s, s', Claimer);
  }

  lemma AcceptFiles(s: State, n: nat, ms: seq<Message>, body: Bytes, last: Fate)
    requires FilesInv(s) && forall i, j | 0 <= i < j < |ms| :: ms[i].id != ms[j].id
    requires forall m | m in ms :: Unused(s, m.id)
    ensures FilesInv(s.(threads := s.threads[Session(n) := Writing(AcceptWrites(ms, body, last))]))
  {
    var todo := AcceptWrites(ms, body, last);
    AcceptPlan(s.ids, ms, body, last);
    AwaitsEnough(s.ids, None, todo);
    StartsWithNone(s.ids, todo);
    forall w, id | w in todo && About(w) == Some(id) ensures Unused(s, id) {
      assert Mentions(todo, id);
    }
    AllAbout(s.ids, None, todo);
    SetUp(s, s.(threads := s.threads[Session(n) := Writing(todo)]), Session(n));
  }

  lemma StartsWithNone(ids: set<string>, todo: seq<Write>)
    requires PutPlan(ids, None, todo)
    ensures Awaits(todo).None?
  {
  }

  lemma {:induction false} AllAbout(ids: set<string>, ready: Option<Written>, todo: seq<Write>)
    requires PutPlan(ids, ready, todo)
    ensures forall w | w in todo :: About(w).Some?
    decreases |todo|
  {
    if todo != [] {
      AllAbout(IdsAfter(ids, todo[0]), ReadyAfter(todo[0]), todo[1..]);
      assert todo == [todo[0]] + todo[1..];
    }
  }

  lemma ArmedFiles(s: State, a: Act)
    requires FilesInv(s) && Enabled(s, a) && Arms(a) && !a.Accept? && !a.Place?
    ensures ThreadFiles(s, Worker(a), Armed(s, a)) && (Puts(Worker(a)) ==> Todo(Armed(s, a)) == [])
  {
    match a {
      case SweepExpired(gone) => SweepPlan(s.ids, s.disk.messages.Keys, gone);
      case ListStray(_) => assert ThreadFiles(s, OrphanSweep, s.threads[OrphanSweep]);
      case _ =>
    }
  }

  /** A launched attempt, or a thread as it was. */
  ghost predicate LaunchedOrSame(s: State, s': State, due: set<string>, u: Tid)
    requires u in s'.threads && due <= s.disk.messages.Keys
  {
    || (u.Attempt? && u.id in due && s'.threads[u] == Queued(s.disk.messages[u.id]))
    || (u in s.threads && s'.threads[u] == s.threads[u])
  }

  lemma LaunchThreads(s: State, due: set<string>)
    requires due <= s.disk.messages.Keys
    ensures forall u | u in Launch(s, due).threads :: LaunchedOrSame(s, Launch(s, due), due, u)
  {
  }

  lemma LaunchFiles(s: State, due: set<string>)
    requires FilesInv(s) && due <= s.disk.messages.Keys
    ensures FilesInv(Launch(s, due))
  {
    LaunchThreads(s, due);
    LaunchedAll(s, Launch(s, due), due);
  }

  lemma LaunchedAll(s: State, s': State, due: set<string>)
    requires FilesInv(s) && due <= s.disk.messages.Keys
    requires s'.disk == s.disk && s'.ids == s.ids && s'.accepted == s.accepted
    requires forall u | u in s'.threads :: LaunchedOrSame(s, s', due, u)
    ensures FilesInv(s')
  {
    forall u | u in s'.threads ensures ThreadFiles(s', u, s'.threads[u]) {
      if u in s.threads && s'.threads[u] == s.threads[u] {
        assert ThreadFiles(s, u, s.threads[u]);
        if u != OrphanSweep { Unconcerned(s, s', u, s.threads[u], None); }
      } else {
        LaunchedFiles(s, s', u.id);
      }
    }
  }

  lemma LaunchedFiles(s: State, s': State, id: string)
    requires DiskFiles(s) && id in s.disk.messages && s'.disk == s.disk
    ensures ThreadFiles(s', Attempt(id), Queued(s.disk.messages[id]))
  {
  }

  lemma OpenFiles(s: State, id: string, m: Message)
    requires FilesInv(s) && m.id == id && id in s.disk.messages
    ensures FilesInv(OpenAttempt(s, id, m))
  {
    var n := m.(attempts := m.attempts + 1);
    GiveUpPlan(s.ids, s.disk.messages.Keys, n, !Expired(s.rules.lifetime, n, s.clock));
    SetUp(s, OpenAttempt(s, id, m), Attempt(id));
  }

  lemma ConcludeFiles(s: State, id: string, m: Message, a: Answer)
    requires FilesInv(s) && m.id == id && id in s.disk.messages && ValidAnswer(m, a)
    ensures FilesInv(ConcludeAttempt(s, id, m, a))
  {
    var s' := ConcludeAttempt(s, id, m, a);
    AnswerPlan(s.ids, s.disk.messages.Keys, m, a, Expired(s.rules.lifetime, m, s.clock),
               s.clock + Backoff.Gap(s.rules.converted, m.attempts));
    SetUpAside(s, Attempt(id), Writing(ConcludePlan(s, m, a)));
    Idle(s.(threads := s'.threads), s');
  }

  lemma ContinueFiles(s: State, batch: seq<Claimed>)
    requires FilesInv(s)
    ensures FilesInv(Continue(s, batch))
  {
    if batch == [] {
      DropThread(s, Claimer);
    } else {
      SetUpAside(s, Claimer, Grouping(batch, []));
    }
  }

  lemma ForwardFiles(s: State, queue: seq<Received>, a: ForwardAnswer)
    requires FilesInv(s) && queue != []
    ensures FilesInv(ForwardOne(s, queue, a))
  {
    var s' := ForwardOne(s, queue, a);
    SetUpAside(s, Forwarder, s'.threads[Forwarder]);
    Idle(s.(threads := s'.threads), s');
  }

  lemma HearFiles(s: State, rows: map<string, Outcome>, r: ReportAnswer)
    requires FilesInv(s)
    ensures FilesInv(Hear(s, rows, r))
  {
    var s' := Hear(s, rows, r);
    if r.TakenUnheard? || r.Unreachable? {
      DropThread(s, Reporter);
    } else {
      SetUpAside(s, Reporter, Writing([DeleteOutcomes(rows.Keys)]));
    }
    Idle(s.(threads := s'.threads), s');
  }

  lemma StepFiles(s: State, t: Tid)
    requires FilesInv(s) && Calm(s) && t in s.threads && Todo(s.threads[t]) != []
    ensures FilesInv(TakeStep(s, t))
  {
    if Puts(t) {
      PutStep(s, t);
    } else if t.Attempt? || t.ExpirySweep? {
      DropStep(s, t);
    } else {
      OtherStep(s, t);
    }
  }

  lemma AttemptFiles(s: State, a: Act)
    requires FilesInv(s) && Enabled(s, a) && (a.Open? || a.Conclude?)
    ensures FilesInv(Do(s, a))
  {
    var th := s.threads[Attempt(a.id)];
    assert ThreadFiles(s, Attempt(a.id), th);
    if a.Open? {
      OpenFiles(s, a.id, th.m);
    } else {
      ConcludeFiles(s, a.id, th.m, a.answer);
    }
  }

  lemma LoopsFiles(s: State, a: Act)
    requires FilesInv(s) && Enabled(s, a) && FreshIds(s, a)
    requires a.HearReport? || a.HearClaim? || a.NextClaimed? || a.Forward? || Arms(a)
    ensures FilesInv(Do(s, a))
  {
    if a.HearReport? {
      HearFiles(s, s.threads[Reporter].rows, a.report);
    } else if a.HearClaim? {
      ContinueFiles(s, a.batch);
    } else if a.NextClaimed? {
      ContinueFiles(s, s.threads[Claimer].batch[1..]);
    } else if a.Forward? {
      ForwardFiles(s, s.threads[Forwarder].queue, a.forwarded);
    } else if a.Accept? {
      AcceptFiles(s, a.n, a.ms, a.body, a.last);
    } else if a.Place? {
      PlaceFiles(s, s.threads[Claimer], a.domain, a.id, a.fate);
    } else {
      ArmedFiles(s, a);
      SetUpAside(s, Worker(a), Armed(s, a));
    }
  }

  lemma FilesKept(s: State, a: Act)
    requires FilesInv(s) && Calm(s) && Enabled(s, a) && FreshIds(s, a)
    ensures FilesInv(Do(s, a))
  {
    if a.Step? {
      StepFiles(s, a.t);
    } else if a.Open? || a.Conclude? {
      AttemptFiles(s, a);
    } else if a.Tick? || a.Crash? || a.End? || a.ReadDue? {
      ThreadsFiles(s, a);
    } else {
      LoopsFiles(s, a);
    }
  }

  lemma ThreadsFiles(s: State, a: Act)
    requires FilesInv(s) && Enabled(s, a) && (a.Tick? || a.Crash? || a.End? || a.ReadDue?)
    ensures FilesInv(Do(s, a))
  {
    match a {
      case Tick(now) => Idle(s, s.(clock := now));
      case Crash => Idle(s, s.(threads := map[]));
      case End(t) => DropThread(s, t);
      case ReadDue(due) => LaunchFiles(s, due);
    }
  }

  lemma Idle(s: State, s': State)
    requires FilesInv(s) && s'.disk == s.disk && s'.ids == s.ids && s'.accepted == s.accepted
    requires s'.threads == s.threads || s'.threads == map[]
    ensures FilesInv(s')
  {
    forall u | u in s'.threads ensures ThreadFiles(s', u, s'.threads[u]) {
      if u != OrphanSweep { Unconcerned(s, s', u, s.threads[u], None); }
    }
  }

  // ---- over whole runs ----

  /** What is kept apart: the orphan sweep and puts, the expiry sweep and attempts. */
  datatype Discipline = Discipline(puts: bool, attempts: bool)

  const CALM := Discipline(true, true)

  ghost predicate Keeps(k: Discipline, s: State) {
    (k.puts ==> PutsApart(s)) && (k.attempts ==> AttemptsApart(s))
  }

  /** A run that keeps a discipline in every state. */
  ghost predicate RunsUnder(k: Discipline, s: State, acts: seq<Act>)
    decreases |acts|
  {
    && Keeps(k, s)
    && (acts == [] || (Enabled(s, acts[0]) && FreshIds(s, acts[0]) && RunsUnder(k, Do(s, acts[0]), acts[1..])))
  }

  ghost function Under(k: Discipline, s: State, acts: seq<Act>): State
    requires RunsUnder(k, s, acts)
    decreases |acts|
  {
    if acts == [] then s else Under(k, Do(s, acts[0]), acts[1..])
  }

  lemma {:induction false} FilesReached(s: State, acts: seq<Act>)
    requires FilesInv(s) && RunsUnder(CALM, s, acts)
    ensures FilesInv(Under(CALM, s, acts))
    decreases |acts|
  {
    if acts != [] {
      FilesKept(s, acts[0]);
      FilesReached(Do(s, acts[0]), acts[1..]);
    }
  }

  /** The bytes a conversation carries. */
  ghost predicate Sent(s: State, id: string, body: Bytes) {
    Attempt(id) in s.threads && s.threads[Attempt(id)].Sending? && s.threads[Attempt(id)].body == body
  }

  /** Whatever crashed and whenever: every entry has exactly the bytes it was accepted
      with, and a conversation carries exactly those. */
  lemma EveryEntryHasItsBytes(rules: Rules, clock: int, acts: seq<Act>)
    requires RunsUnder(CALM, Boot(rules, clock), acts)
    ensures var s := Under(CALM, Boot(rules, clock), acts);
            BytesKept(s) && forall id, body | Sent(s, id, body) :: id in s.accepted && s.accepted[id] == body
  {
    FilesReached(Boot(rules, clock), acts);
    var s := Under(CALM, Boot(rules, clock), acts);
    forall id, body | Sent(s, id, body) ensures id in s.accepted && s.accepted[id] == body {
      assert ThreadFiles(s, Attempt(id), s.threads[Attempt(id)]);
    }
  }
}
