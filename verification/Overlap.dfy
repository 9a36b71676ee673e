/** What keeping the sweeps apart from the rest of the node is worth, exactly. The orphan
    sweep reads the entries first and the directory second, so a put that falls between
    loses its bytes. The expiry sweep takes no claim, so an attempt under way can store an
    entry it has dropped, without its bytes. Nothing else ever goes wrong with them. */
module Overlap {
  import opened Names
  import opened DurableSteps
  import opened SpoolFiles
  import opened Delivery
  import opened Node
  import opened Files
  import opened EntryLife
  import opened Shrink
  import Backoff

  /** Some run that keeps the discipline, every put with an id of its own, gets there. */
  ghost predicate Leads(k: Discipline, s: State, s': State) {
    exists acts :: RunsUnder(k, s, acts) && NewRun(s, acts) && Under(k, s, acts) == s' && Reaches(s, acts) == s'
  }

  lemma LeadsHere(k: Discipline, s: State)
    requires Keeps(k, s)
    ensures Leads(k, s, s)
  {
    assert RunsUnder(k, s, []) && NewRun(s, []) && Under(k, s, []) == s && Reaches(s, []) == s;
  }

  /** One act more, before a run. */
  lemma LeadsTo(k: Discipline, s: State, a: Act, s': State, end: State)
    requires Keeps(k, s) && Enabled(s, a) && FreshIds(s, a) && NewId(s, a) && Do(s, a) == s' && Leads(k, s', end)
    ensures Leads(k, s, end)
  {
    var rest :| RunsUnder(k, s', rest) && NewRun(s', rest) && Under(k, s', rest) == end && Reaches(s', rest) == end;
    var acts := [a] + rest;
    assert acts[0] == a && acts[1..] == rest;
    assert RunsUnder(k, s, acts) && NewRun(s, acts) && Under(k, s, acts) == end && Reaches(s, acts) == end;
  }

  lemma {:induction false} RunsOn(k: Discipline, s: State, a: seq<Act>, b: seq<Act>)
    requires RunsUnder(k, s, a) && NewRun(s, a) && Under(k, s, a) == Reaches(s, a)
    requires RunsUnder(k, Reaches(s, a), b) && NewRun(Reaches(s, a), b)
    requires Under(k, Reaches(s, a), b) == Reaches(Reaches(s, a), b)
    ensures RunsUnder(k, s, a + b) && NewRun(s, a + b) && Reaches(s, a + b) == Reaches(Reaches(s, a), b)
    ensures Under(k, s, a + b) == Reaches(s, a + b)
    decreases |a|
  {
    if a == [] {
      assert a + b == b;
    } else {
      RunsOn(k, Do(s, a[0]), a[1..], b);
      assert (a + b)[1..] == a[1..] + b;
    }
  }

  lemma LeadsOn(k: Discipline, s: State, s': State, s'': State)
    requires Leads(k, s, s') && Leads(k, s', s'')
    ensures Leads(k, s, s'')
  {
    var a :| RunsUnder(k, s, a) && NewRun(s, a) && Under(k, s, a) == s' && Reaches(s, a) == s';
    var b :| RunsUnder(k, s', b) && NewRun(s', b) && Under(k, s', b) == s'' && Reaches(s', b) == s'';
    RunsOn(k, s, a, b);
  }

  /** Where only the sweep that the discipline leaves alone runs, the discipline is kept. */
  ghost predicate Free(k: Discipline, s: State) {
    (k.puts ==> OrphanSweep !in s.threads) && (k.attempts ==> ExpirySweep !in s.threads)
  }

  lemma LeadsStep(k: Discipline, s: State, t: Tid, todo: seq<Write>, end: State)
    requires Free(k, s) && t in s.threads && s.threads[t] == Writing(todo) && todo != []
    requires todo[0].CommitEntry? ==> todo[0].m.id !in s.ids
    requires Leads(k, Stepped(s.(threads := s.threads[t := Writing(todo[1..])]), todo[0]), end)
    ensures Leads(k, s, end)
  {
    assert TakeStep(s, t) == Stepped(s.(threads := s.threads[t := Writing(todo[1..])]), todo[0]);
    LeadsTo(k, s, Step(t), TakeStep(s, t), end);
  }

  lemma LeadsArmed(k: Discipline, s: State, a: Act, th: Thread, end: State)
    requires Free(k, s) && Enabled(s, a) && Arms(a) && FreshIds(s, a) && Armed(s, a) == th
    requires Leads(k, s.(threads := s.threads[Worker(a) := th]), end)
    ensures Leads(k, s, end)
  {
    LeadsTo(k, s, a, s.(threads := s.threads[Worker(a) := th]), end);
  }

  lemma LeadsKnown(k: Discipline, s: State, end: State)
    requires Free(k, s) && !k.puts && OrphanSweep !in s.threads
    requires Leads(k, s.(threads := s.threads[OrphanSweep := Swept(s.disk.messages.Keys)]), end)
    ensures Leads(k, s, end)
  {
    LeadsArmed(k, s, ReadKnown, Swept(s.disk.messages.Keys), end);
  }

  lemma LeadsListed(k: Discipline, s: State, id: string, end: State)
    requires Free(k, s) && OrphanSweep in s.threads && s.threads[OrphanSweep].Swept?
    requires id in s.disk.bodies && id !in s.threads[OrphanSweep].known
    requires Leads(k, s.(threads := s.threads[OrphanSweep := Writing([RemoveBody(id)])]), end)
    ensures Leads(k, s, end)
  {
    assert Unlinks([id]) == [RemoveBody(id)];
    LeadsArmed(k, s, ListStray([id]), Writing([RemoveBody(id)]), end);
  }

  lemma LeadsAccepted(k: Discipline, s: State, m: Message, body: Bytes, end: State)
    requires Free(k, s) && Session(0) !in s.threads && Unused(s, m.id) && JustAccepted(m, s.clock)
    requires Leads(k, s.(threads := s.threads[Session(0) := Writing(PutPlanOf(m, body))]), end)
    ensures Leads(k, s, end)
  {
    PutPlanSteps(m, body);
    LeadsArmed(k, s, Accept(0, [m], body, Fate.Stored), Writing(PutPlanOf(m, body)), end);
  }

  lemma LeadsEnded(k: Discipline, s: State, t: Tid, end: State)
    requires Free(k, s) && t in s.threads && s.threads[t] == Writing([])
    requires Leads(k, s.(threads := s.threads - {t}), end)
    ensures Leads(k, s, end)
  {
    LeadsTo(k, s, End(t), s.(threads := s.threads - {t}), end);
  }

  /** A thread that accepts nothing carries out the rest of its plan. */
  lemma {:induction false} LeadsThrough(k: Discipline, s: State, t: Tid, todo: seq<Write>, end: State)
    requires Free(k, s) && t in s.threads && s.threads[t] == Writing(todo)
    requires forall w | w in todo :: !w.CommitEntry? && !w.CommitInbound?
    requires Leads(k, s.(disk := Replay(s.disk, todo), threads := s.threads[t := Writing([])]), end)
    ensures Leads(k, s, end)
    decreases |todo|
  {
    if todo == [] {
      assert s.threads[t := Writing([])] == s.threads;
    } else {
      var s' := s.(disk := Apply(s.disk, todo[0]), threads := s.threads[t := Writing(todo[1..])]);
      assert s'.threads[t := Writing([])] == s.threads[t := Writing([])];
      LeadsThrough(k, s', t, todo[1..], end);
      LeadsStep(k, s, t, todo, end);
    }
  }

  // ---- the orphan sweep and a put ----

  /** A message as a session makes it: for one domain, accepted now. */
  ghost predicate JustAccepted(m: Message, now: int) {
    && m.attempts == 0 && m.nextAttempt == m.acceptedAt == now
    && m.recipients != [] && forall r | r in m.recipients :: Domain(r) == Some(m.domain)
  }

  function PutPlanOf(m: Message, body: Bytes): seq<Write> {
    [WriteBody(m.id, body), CommitEntry(m.(size := |body|), body)]
  }

  lemma PutPlanSteps(m: Message, body: Bytes)
    ensures AcceptWrites([m], body, Fate.Stored) == PutPlanOf(m, body)
    ensures PutPlanOf(m, body)[1..] == [CommitEntry(m.(size := |body|), body)] && PutPlanOf(m, body)[1..][1..] == []
  {
    assert PutWrites(m, body, true, true) == PutPlanOf(m, body);
  }

  /** From any idle node, any new message: a sweep that overlaps its put, no crash and no
      failure, ends with the message queued and its bytes gone. */
  lemma SweepDuringPutLosesBytes(k: Discipline, s: State, m: Message, body: Bytes) returns (lost: State)
    requires !k.puts && s.threads == map[] && m.id !in s.ids && m.id !in s.disk.messages && JustAccepted(m, s.clock)
    ensures Leads(k, s, lost) && Lost(s, m, body, lost)
  {
    var put := PutPlanOf(m, body);
    PutPlanSteps(m, body);
    var known := s.disk.messages.Keys;
    var s1 := s.(threads := s.threads[OrphanSweep := Swept(known)]);
    var s2 := s1.(threads := s1.threads[Session(0) := Writing(put)]);
    var s3 := Stepped(s2.(threads := s2.threads[Session(0) := Writing(put[1..])]), put[0]);
    lost := SweptAway(k, s3, m, body, known);
    LeadsStep(k, s2, Session(0), put, lost);
    LeadsAccepted(k, s1, m, body, lost);
    LeadsKnown(k, s, lost);
  }

  /** Queued as accepted, and without its bytes. */
  ghost predicate Lost(s: State, m: Message, body: Bytes, lost: State) {
    && lost.disk.messages == s.disk.messages[m.id := m.(size := |body|)] && m.id !in lost.disk.bodies
    && m.id in lost.accepted && lost.accepted[m.id] == body && !BytesKept(lost)
  }

  /** The second half: the sweep lists the new file and removes it, and the entry follows. */
  lemma SweptAway(k: Discipline, s: State, m: Message, body: Bytes, known: set<string>) returns (lost: State)
    requires !k.puts && m.id !in s.ids && m.id !in known && m.id in s.disk.bodies
    requires s.threads == map[OrphanSweep := Swept(known), Session(0) := Writing([CommitEntry(m.(size := |body|), body)])]
    ensures Leads(k, s, lost) && Lost(s, m, body, lost)
  {
    var remove, commit := [RemoveBody(m.id)], [CommitEntry(m.(size := |body|), body)];
    var s1 := s.(threads := s.threads[OrphanSweep := Writing(remove)]);
    var s2 := Stepped(s1.(threads := s1.threads[OrphanSweep := Writing(remove[1..])]), remove[0]);
    lost := Stepped(s2.(threads := s2.threads[Session(0) := Writing(commit[1..])]), commit[0]);
    LeadsHere(k, lost);
    LeadsStep(k, s2, Session(0), commit, lost);
    LeadsStep(k, s1, OrphanSweep, remove, lost);
    LeadsListed(k, s, m.id, lost);
  }

  // ---- the expiry sweep and an attempt ----

  /** A node whose only business is the attempt on one message. */
  ghost predicate Handing(s: State, m: Message, body: Bytes) {
    && s.threads == map[Attempt(m.id) := Sending(m.(attempts := m.attempts + 1), body)]
    && m.id in s.disk.messages && s.disk.messages[m.id] == m
  }

  /** From any idle node, any message that is due and in time: its lifetime runs out during
      the attempt, the sweep drops it, the attempt fails and stores it again. The entry is
      back and its bytes are gone. */
  lemma SweepDuringAttemptLosesBytes(k: Discipline, s: State, m: Message) returns (gone: State, back: State)
    requires !k.attempts && s.threads == map[] && s.rules.lifetime > 0 && m.id in s.ids
    requires m.id in s.disk.messages && s.disk.messages[m.id] == m && m.id in s.disk.bodies
    requires IsDue(m, s.clock) && !Expired(s.rules.lifetime, m, s.clock)
    ensures Leads(k, s, gone) && m.id in gone.ids && m.id !in gone.disk.messages
    ensures Leads(k, gone, back) && m.id in back.disk.messages && m.id !in back.disk.bodies && !BytesKept(back)
  {
    var body := s.disk.bodies[m.id];
    var s1 := s.(threads := map[Attempt(m.id) := Sending(m.(attempts := m.attempts + 1), body)]);
    var s2 := s1.(clock := m.acceptedAt + s.rules.lifetime + 1);
    gone, back := SweptMeanwhile(k, s2, m, body);
    LeadsTo(k, s1, Tick(s2.clock), s2, gone);
    LeadsHanding(k, s, m, gone);
  }

  /** A pass opens the attempt. */
  lemma LeadsHanding(k: Discipline, s: State, m: Message, end: State)
    requires s.threads == map[] && m.id in s.disk.messages && s.disk.messages[m.id] == m && m.id in s.disk.bodies
    requires IsDue(m, s.clock) && !Expired(s.rules.lifetime, m, s.clock)
    requires Leads(k, s.(threads := map[Attempt(m.id) := Sending(m.(attempts := m.attempts + 1), s.disk.bodies[m.id])]), end)
    ensures Leads(k, s, end)
  {
    var s1 := s.(threads := map[Attempt(m.id) := Queued(m)]);
    LeadsOpened(k, s1, m, end);
    LeadsRead(k, s, m, end);
  }

  lemma LeadsRead(k: Discipline, s: State, m: Message, end: State)
    requires s.threads == map[] && m.id in s.disk.messages && s.disk.messages[m.id] == m && IsDue(m, s.clock)
    requires Leads(k, s.(threads := map[Attempt(m.id) := Queued(m)]), end)
    ensures Leads(k, s, end)
  {
    assert Launch(s, {m.id}).threads == map[Attempt(m.id) := Queued(m)];
    LeadsTo(k, s, ReadDue({m.id}), s.(threads := map[Attempt(m.id) := Queued(m)]), end);
  }

  lemma LeadsOpened(k: Discipline, s: State, m: Message, end: State)
    requires s.threads == map[Attempt(m.id) := Queued(m)] && m.id in s.disk.bodies && !Expired(s.rules.lifetime, m, s.clock)
    requires Leads(k, s.(threads := map[Attempt(m.id) := Sending(m.(attempts := m.attempts + 1), s.disk.bodies[m.id])]), end)
    ensures Leads(k, s, end)
  {
    var s1 := s.(threads := map[Attempt(m.id) := Sending(m.(attempts := m.attempts + 1), s.disk.bodies[m.id])]);
    assert OpenAttempt(s, m.id, m).threads == s1.threads;
    LeadsTo(k, s, Open(m.id), s1, end);
  }

  lemma SweptMeanwhile(k: Discipline, s: State, m: Message, body: Bytes) returns (gone: State, back: State)
    requires !k.attempts && Handing(s, m, body) && s.rules.lifetime > 0 && m.id in s.ids
    ensures Leads(k, s, gone) && m.id in gone.ids && m.id !in gone.disk.messages
    ensures Leads(k, gone, back) && m.id in back.disk.messages && m.id !in back.disk.bodies && !BytesKept(back)
  {
    var plan := GiveUpWrites(m, false);
    var s1 := s.(threads := s.threads[ExpirySweep := Writing(plan)]);
    gone := s.(threads := s.threads[ExpirySweep := Writing([])], disk := Replay(s.disk, plan));
    assert s1.threads[ExpirySweep := Writing([])] == gone.threads;
    LeadsHere(k, gone);
    assert Free(k, s1);
    LeadsThrough(k, s1, ExpirySweep, plan, gone);
    assert SweepWrites([m]) == plan + SweepWrites([]) == plan;
    LeadsTo(k, s, SweepExpired([m]), s1, gone);
    GivenUp(s.disk, m);
    back := StoredAgain(k, gone, m, body);
  }

  /** Giving up drops the entry and its bytes, whatever is told first. */
  lemma GivenUp(d: Disk, m: Message)
    ensures var d' := Replay(d, GiveUpWrites(m, false)); m.id !in d'.messages && m.id !in d'.bodies
  {
    GivenUpOnDisk(d, m, false);
  }

  lemma StoredAgain(k: Discipline, s: State, m: Message, body: Bytes) returns (back: State)
    requires !k.attempts && m.id !in s.disk.bodies
    requires s.threads == map[Attempt(m.id) := Sending(m.(attempts := m.attempts + 1), body), ExpirySweep := Writing([])]
    ensures Leads(k, s, back) && m.id in back.disk.messages && m.id !in back.disk.bodies && !BytesKept(back)
  {
    var n := m.(attempts := m.attempts + 1);
    var u := UpdateEntry(n.(nextAttempt := s.clock + Backoff.Gap(s.rules.converted, n.attempts)));
    var s1 := s.(threads := s.threads[Attempt(m.id) := Writing([u])]);
    back := Stepped(s1.(threads := s1.threads[Attempt(m.id) := Writing([u][1..])]), u);
    LeadsHere(k, back);
    LeadsStep(k, s1, Attempt(m.id), [u], back);
    LeadsFailed(k, s, n, u, back);
  }

  /** The conversation fails, and the entry is to be stored again. */
  lemma LeadsFailed(k: Discipline, s: State, n: Message, u: Write, end: State)
    requires Free(k, s) && Attempt(n.id) in s.threads && s.threads[Attempt(n.id)].Sending? && s.threads[Attempt(n.id)].m == n
    requires u == UpdateEntry(n.(nextAttempt := s.clock + Backoff.Gap(s.rules.converted, n.attempts)))
    requires Leads(k, s.(threads := s.threads[Attempt(n.id) := Writing([u])]), end)
    ensures Leads(k, s, end)
  {
    assert Ended(n, SendFailed) == {} && s.done + {} == s.done;
    assert ConcludeAttempt(s, n.id, n, SendFailed) == s.(threads := s.threads[Attempt(n.id) := Writing([u])]);
    LeadsTo(k, s, Conclude(n.id, SendFailed), s.(threads := s.threads[Attempt(n.id) := Writing([u])]), end);
  }

  // ---- no lifetime, no expiry sweep ----

  /** Where messages never expire the expiry sweep drops none. */
  ghost predicate DropsNone(s: State) {
    s.rules.lifetime <= 0 && (ExpirySweep in s.threads ==> Todo(s.threads[ExpirySweep]) == [])
  }

  lemma DropsNoneKept(s: State, a: Act)
    requires DropsNone(s) && Enabled(s, a)
    ensures DropsNone(Do(s, a))
  {
    if a.ReadDue? {
      LaunchDropsNone(s, a.due);
    } else if a.Step? {
      StepDropsNone(s, a.t);
    } else if Arms(a) {
      ArmedDropsNone(s, a);
    } else {
      SameDropsNone(s, a);
    }
  }

  lemma ArmedDropsNone(s: State, a: Act)
    requires DropsNone(s) && Enabled(s, a) && Arms(a)
    ensures DropsNone(s.(threads := s.threads[Worker(a) := Armed(s, a)]))
  {
  }

  lemma SameDropsNone(s: State, a: Act)
    requires DropsNone(s) && Enabled(s, a) && !Arms(a) && !a.ReadDue? && !a.Step?
    ensures DropsNone(Do(s, a))
  {
  }

  lemma LaunchDropsNone(s: State, due: set<string>)
    requires DropsNone(s) && due <= s.disk.messages.Keys
    ensures DropsNone(Launch(s, due))
  {
    LaunchThreads(s, due);
    if ExpirySweep in Launch(s, due).threads {
      assert LaunchedOrSame(s, Launch(s, due), due, ExpirySweep);
    }
  }

  lemma StepDropsNone(s: State, t: Tid)
    requires DropsNone(s) && t in s.threads && Todo(s.threads[t]) != []
    ensures DropsNone(TakeStep(s, t))
  {
  }

  lemma NoneToMeet(s: State)
    requires DropsNone(s)
    ensures AttemptsApart(s)
  {
  }

  lemma {:induction false} AlwaysApart(s: State, acts: seq<Act>)
    requires DropsNone(s) && NewRun(s, acts)
    ensures SweptApart(s, acts)
    decreases |acts|
  {
    NoneToMeet(s);
    if acts != [] {
      DropsNoneKept(s, acts[0]);
      AlwaysApart(Do(s, acts[0]), acts[1..]);
    }
  }

  lemma {:induction false} CalmAnyway(k: Discipline, s: State, acts: seq<Act>)
    requires k.puts && DropsNone(s) && RunsUnder(k, s, acts)
    ensures RunsUnder(CALM, s, acts) && Under(CALM, s, acts) == Under(k, s, acts)
    decreases |acts|
  {
    NoneToMeet(s);
    if acts != [] {
      DropsNoneKept(s, acts[0]);
      CalmAnyway(k, Do(s, acts[0]), acts[1..]);
    }
  }

  // ---- the exact statements ----

  /** The node once it holds `m` and nothing else is going on. */
  function Holding(s: State, m: Message, body: Bytes): State {
    Stepped(s.(disk := Apply(s.disk, WriteBody(m.id, body))), CommitEntry(m.(size := |body|), body))
  }

  lemma LeadsHolding(k: Discipline, s: State, m: Message, body: Bytes, end: State)
    requires s.threads == map[] && m.id !in s.ids && JustAccepted(m, s.clock) && Leads(k, Holding(s, m, body), end)
    ensures Leads(k, s, end)
  {
    var t, put := Session(0), PutPlanOf(m, body);
    PutPlanSteps(m, body);
    var s1 := s.(threads := s.threads[t := Writing(put)]);
    var s2 := Stepped(s1.(threads := s1.threads[t := Writing(put[1..])]), put[0]);
    var s3 := Stepped(s2.(threads := s2.threads[t := Writing(put[1..][1..])]), put[1..][0]);
    assert s3.threads - {t} == map[];
    LeadsEnded(k, s3, t, end);
    LeadsStep(k, s2, t, put[1..], end);
    LeadsStep(k, s1, t, put, end);
    LeadsAccepted(k, s, m, body, end);
  }

  /** To one recipient, in `e.org`. */
  function Letter(now: int): Message {
    Message("1", "", "a@e.com", "e.org", ["b@e.org"], 0, now, now, 0)
  }

  lemma LetterIsDeliverable(now: int)
    ensures JustAccepted(Letter(now), now)
  {
    DomainReads("b", "e.org");
    assert "b" + "@" + "e.org" == "b@e.org" && ToLower("e.org") == "e.org";
    assert Letter(now).recipients == ["b@e.org"];
  }

  /** Every entry of every run has its bytes exactly when puts are kept apart from the
      orphan sweep, and attempts from the expiry sweep - or nothing ever expires. */
  lemma BytesKeptExactly(k: Discipline, rules: Rules, clock: int)
    ensures (forall acts | RunsUnder(k, Boot(rules, clock), acts) :: BytesKept(Under(k, Boot(rules, clock), acts)))
            <==> k.puts && (k.attempts || rules.lifetime <= 0)
  {
    var s := Boot(rules, clock);
    if k.puts && (k.attempts || rules.lifetime <= 0) {
      forall acts | RunsUnder(k, s, acts) ensures BytesKept(Under(k, s, acts)) {
        if !k.attempts { CalmAnyway(k, s, acts); }
        EveryEntryHasItsBytes(rules, clock, acts);
      }
    } else {
      var lost := SomeRunLosesBytes(k, rules, clock);
      var acts :| RunsUnder(k, s, acts) && NewRun(s, acts) && Under(k, s, acts) == lost && Reaches(s, acts) == lost;
      assert !BytesKept(Under(k, s, acts));
    }
  }

  lemma SomeRunLosesBytes(k: Discipline, rules: Rules, clock: int) returns (lost: State)
    requires !(k.puts && (k.attempts || rules.lifetime <= 0))
    ensures Leads(k, Boot(rules, clock), lost) && !BytesKept(lost)
  {
    LetterIsDeliverable(clock);
    if !k.puts {
      lost := SweepDuringPutLosesBytes(k, Boot(rules, clock), Letter(clock), []);
    } else {
      var gone;
      gone, lost := LetterComesBack(k, rules, clock);
      LeadsOn(k, Boot(rules, clock), gone, lost);
    }
  }

  lemma LetterComesBack(k: Discipline, rules: Rules, clock: int) returns (gone: State, back: State)
    requires !k.attempts && rules.lifetime > 0
    ensures Leads(k, Boot(rules, clock), gone) && Leads(k, gone, back) && !BytesKept(back)
    ensures "1" in gone.ids && "1" !in gone.disk.messages && "1" in back.disk.messages
  {
    LetterIsDeliverable(clock);
    var s, m := Boot(rules, clock), Letter(clock);
    gone, back := SweepDuringAttemptLosesBytes(k, Holding(s, m, []), m);
    LeadsHolding(k, s, m, [], gone);
  }

  /** An entry that was gone and is there again. */
  ghost predicate ComesBack(s: State, a: seq<Act>, b: seq<Act>, id: string) {
    && NewRun(s, a) && NewRun(s, a + b)
    && id in Reaches(s, a).ids && id !in Reaches(s, a).disk.messages && id in Reaches(s, a + b).disk.messages
  }

  ghost predicate KeptApart(apart: bool, s: State, acts: seq<Act>) {
    NewRun(s, acts) && (apart ==> SweptApart(s, acts))
  }

  /** No entry ever comes back exactly when attempts are kept apart from the expiry sweep,
      or nothing ever expires. */
  lemma GoneForGoodExactly(apart: bool, rules: Rules, clock: int)
    ensures (forall a, b, id | KeptApart(apart, Boot(rules, clock), a + b) :: !ComesBack(Boot(rules, clock), a, b, id))
            <==> apart || rules.lifetime <= 0
  {
    var s := Boot(rules, clock);
    if apart || rules.lifetime <= 0 {
      forall a, b, id | KeptApart(apart, s, a + b) ensures !ComesBack(s, a, b, id) {
        if !apart { AlwaysApart(s, a + b); }
        GoneStaysGone(rules, clock, a, b, id);
      }
    } else {
      var k := Discipline(true, false);
      var gone, back := LetterComesBack(k, rules, clock);
      var a :| RunsUnder(k, s, a) && NewRun(s, a) && Under(k, s, a) == gone && Reaches(s, a) == gone;
      var b :| RunsUnder(k, gone, b) && NewRun(gone, b) && Under(k, gone, b) == back && Reaches(gone, b) == back;
      RunsOn(k, s, a, b);
      assert KeptApart(apart, s, a + b) && ComesBack(s, a, b, "1");
    }
  }
}
