/** The dispatcher as a machine: every delivery a goroutine, every channel operation and
    every locked section one step, in any interleaving. */
module DispatchRuns {
  import opened DispatchBooks

  datatype Reason = Delivered | HookGone | Abandoned | TookOut

  datatype Phase =
    | WantsOwn
    | WantsGlobal
    | Reading
    | Posting
    | Letting(next: Phase)
    | Answered(ok: bool)
    | Sleeping
    | Condemned
    | Returned(why: Reason)
    | Ended(why: Reason)

  /** One goroutine. `trail` are the attempts recorded so far, by number and outcome, and
      `disables` the times it took the hook out. */
  datatype Delivery = Delivery(project: string, attempt: nat, phase: Phase, trail: seq<(nat, bool)>, disables: nat)

  /** One call of Close: whether it was the first, and whether it returned. */
  datatype Closer = Closer(first: bool, over: bool)

  datatype State = State(max: nat, books: Books, quit: bool, quitCloses: nat, ds: seq<Delivery>, closers: seq<Closer>)

  function Fresh(max: nat): State {
    State(max, Opened(), false, 0, [], [])
  }

  datatype Act =
    | Emit(p: string, n: nat)
    | TakeOwn(i: nat) | QuitOwn(i: nat)
    | TakeGlobal(i: nat) | QuitGlobal(i: nat)
    | Reread(i: nat, live: bool) | Answer(i: nat, ok: bool)
    | GiveOwn(i: nat)
    | Record(i: nat)
    | Wake(i: nat) | QuitSleep(i: nat)
    | Disable(i: nat)
    | Finish(i: nat)
    | BeginClose | TimeOut(c: nat) | AllDone(c: nat)

  predicate At(s: State, i: nat, phase: Phase) {
    i < |s.ds| && s.ds[i].phase == phase
  }

  predicate Enabled(s: State, a: Act) {
    match a
    case Emit(_, _) => true
    case TakeOwn(i) => At(s, i, WantsOwn) && CountOf(s.books.own, s.ds[i].project) < MAX_PER_PROJECT
    case QuitOwn(i) => At(s, i, WantsOwn) && s.quit
    case TakeGlobal(i) => At(s, i, WantsGlobal) && s.books.global < MAX_CONCURRENT
    case QuitGlobal(i) => At(s, i, WantsGlobal) && s.quit && CountOf(s.books.own, s.ds[i].project) > 0
    case Reread(i, _) => At(s, i, Reading) && s.books.global > 0
    case Answer(i, _) => At(s, i, Posting) && s.books.global > 0
    case GiveOwn(i) => i < |s.ds| && s.ds[i].phase.Letting? && CountOf(s.books.own, s.ds[i].project) > 0
    case Record(i) => i < |s.ds| && s.ds[i].phase.Answered?
    case Wake(i) => At(s, i, Sleeping)
    case QuitSleep(i) => At(s, i, Sleeping) && s.quit
    case Disable(i) => At(s, i, Condemned)
    case Finish(i) => i < |s.ds| && s.ds[i].phase.Returned?
    case BeginClose => true
    case TimeOut(c) => c < |s.closers| && !s.closers[c].over
    case AllDone(c) => c < |s.closers| && !s.closers[c].over && forall d | d in s.ds :: d.phase.Ended?
  }

  function Starting(p: string, n: nat): seq<Delivery> {
    seq(n, _ => Delivery(p, 1, WantsOwn, [], 0))
  }

  function Recorded(s: State, d: Delivery): Delivery
    requires d.phase.Answered?
  {
    d.(trail := d.trail + [(d.attempt, d.phase.ok)],
       phase := if d.phase.ok then Returned(Delivered) else if d.attempt < s.max then Sleeping else Condemned)
  }

  /** What a delivery's own step makes of it. */
  function Next(s: State, a: Act, d: Delivery): Delivery
    requires a.Record? ==> d.phase.Answered?
    requires a.GiveOwn? ==> d.phase.Letting?
    requires a.Finish? ==> d.phase.Returned?
  {
    match a
    case TakeOwn(_) => d.(phase := WantsGlobal)
    case QuitOwn(_) => d.(phase := Returned(Abandoned))
    case TakeGlobal(_) => d.(phase := Reading)
    case QuitGlobal(_) => d.(phase := Returned(Abandoned))
    case Reread(_, live) => d.(phase := if live then Posting else Letting(Returned(HookGone)))
    case Answer(_, ok) => d.(phase := Letting(Answered(ok)))
    case GiveOwn(_) => d.(phase := d.phase.next)
    case Record(_) => Recorded(s, d)
    case Wake(_) => d.(phase := WantsOwn, attempt := d.attempt + 1)
    case QuitSleep(_) => d.(phase := Returned(Abandoned))
    case Disable(_) => d.(phase := Returned(TookOut), disables := d.disables + 1)
    case Finish(_) => d.(phase := Ended(d.phase.why))
    case _ => d
  }

  /** What it makes of the books. */
  function BooksAfter(s: State, a: Act): Books
    requires Enabled(s, a)
  {
    match a
    case Emit(p, n) => Spawning(s.books, p, n)
    case TakeOwn(i) => TakingOwn(s.books, s.ds[i].project)
    case QuitGlobal(i) => GivingOwn(s.books, s.ds[i].project)
    case TakeGlobal(_) => s.books.(global := s.books.global + 1)
    case Reread(_, live) => if live then s.books else s.books.(global := s.books.global - 1)
    case Answer(_, _) => s.books.(global := s.books.global - 1)
    case GiveOwn(i) => GivingOwn(s.books, s.ds[i].project)
    case Finish(i) => Finishing(s.books, s.ds[i].project)
    case BeginClose => s.books.(closed := true)
    case _ => s.books
  }

  function Do(s: State, a: Act): State
    requires Enabled(s, a)
  {
    match a
    case Emit(p, n) =>
      s.(books := BooksAfter(s, a),
         ds := s.ds + (if s.books.closed then [] else Starting(p, Room(CountOf(s.books.pending, p), n))))
    case BeginClose =>
      s.(books := BooksAfter(s, a), closers := s.closers + [Closer(!s.books.closed, false)])
    case TimeOut(c) =>
      s.(closers := s.closers[c := s.closers[c].(over := true)],
         quit := s.quit || s.closers[c].first,
         quitCloses := s.quitCloses + if s.closers[c].first then 1 else 0)
    case AllDone(c) => s.(closers := s.closers[c := s.closers[c].(over := true)])
    case _ =>
      s.(books := BooksAfter(s, a), ds := s.ds[a.i := Next(s, a, s.ds[a.i])])
  }

  // ---- counting ----

  datatype Query = OfGlobal | OfOwn(p: string) | OfPending(p: string) | InProjects(ps: set<string>)

  predicate HoldsGlobal(phase: Phase) {
    phase.Reading? || phase.Posting?
  }

  predicate HoldsOwn(phase: Phase) {
    phase.WantsGlobal? || HoldsGlobal(phase) || phase.Letting?
  }

  predicate Matches(q: Query, d: Delivery) {
    match q
    case OfGlobal => HoldsGlobal(d.phase)
    case OfOwn(p) => d.project == p && HoldsOwn(d.phase)
    case OfPending(p) => d.project == p && !d.phase.Ended?
    case InProjects(ps) => d.project in ps && HoldsGlobal(d.phase)
  }

  function One(q: Query, d: Delivery): nat {
    if Matches(q, d) then 1 else 0
  }

  function Count(ds: seq<Delivery>, q: Query): nat {
    if ds == [] then 0 else Count(ds[..|ds| - 1], q) + One(q, ds[|ds| - 1])
  }

  lemma {:induction false} CountUpdate(ds: seq<Delivery>, i: nat, d: Delivery, q: Query)
    requires i < |ds|
    ensures Count(ds[i := d], q) + One(q, ds[i]) == Count(ds, q) + One(q, d)
    decreases |ds|
  {
    var n := |ds| - 1;
    if i == n {
      assert ds[i := d][..n] == ds[..n];
    } else {
      CountUpdate(ds[..n], i, d, q);
      assert ds[i := d][..n] == ds[..n][i := d];
    }
  }

  lemma {:induction false} CountStarting(ds: seq<Delivery>, p: string, n: nat, q: Query)
    ensures Count(ds + Starting(p, n), q) == Count(ds, q) + (if q == OfPending(p) then n else 0)
    decreases n
  {
    if n == 0 {
      assert ds + Starting(p, n) == ds;
    } else {
      var all := ds + Starting(p, n);
      assert all[..|all| - 1] == ds + Starting(p, n - 1);
      CountStarting(ds, p, n - 1, q);
    }
  }

  lemma {:induction false} CountSome(ds: seq<Delivery>, q: Query)
    requires Count(ds, q) > 0
    ensures exists i :: 0 <= i < |ds| && Matches(q, ds[i])
  {
    var n := |ds| - 1;
    if Matches(q, ds[n]) {
    } else {
      CountSome(ds[..n], q);
      var i :| 0 <= i < n && Matches(q, ds[..n][i]);
      assert ds[i] == ds[..n][i];
    }
  }

  lemma {:induction false} CountHas(ds: seq<Delivery>, q: Query, i: nat)
    requires i < |ds| && Matches(q, ds[i])
    ensures Count(ds, q) > 0
  {
    var n := |ds| - 1;
    if i < n {
      CountHas(ds[..n], q, i);
    }
  }

  // ---- the invariant ----

  /** The books say how many deliveries are where. */
  ghost predicate Booked(s: State) {
    && s.books.global == Count(s.ds, OfGlobal)
    && (forall p :: CountOf(s.books.own, p) == Count(s.ds, OfOwn(p)))
    && (forall p :: CountOf(s.books.pending, p) == Count(s.ds, OfPending(p)))
  }

  ghost predicate Bounded(s: State) {
    && s.books.global <= MAX_CONCURRENT
    && (forall p :: CountOf(s.books.own, p) <= MAX_PER_PROJECT)
    && (forall p :: CountOf(s.books.pending, p) <= MAX_PENDING)
  }

  /** Attempts 1 to n, all of them failed. */
  ghost predicate AllFailed(trail: seq<(nat, bool)>, n: nat) {
    |trail| == n && forall i | 0 <= i < n :: trail[i] == (i + 1, false)
  }

  /** The attempt now under way is number `attempt`; the ones before it all failed. */
  ghost predicate Numbered(s: State, d: Delivery) {
    && 1 <= d.attempt <= s.max
    && match d.phase
       case Letting(next) => AllFailed(d.trail, d.attempt - 1) && (next.Answered? || next == Returned(HookGone)) && d.disables == 0
       case Sleeping => AllFailed(d.trail, d.attempt) && d.attempt < s.max && d.disables == 0
       case Condemned => AllFailed(d.trail, s.max) && d.disables == 0
       case Returned(why) => Final(s, d, why)
       case Ended(why) => Final(s, d, why)
       case _ => AllFailed(d.trail, d.attempt - 1) && d.disables == 0
  }

  /** How a delivery can have ended. */
  ghost predicate Final(s: State, d: Delivery, why: Reason) {
    match why
    case Delivered => 1 <= d.attempt == |d.trail| && AllFailed(d.trail[..d.attempt - 1], d.attempt - 1)
                      && d.trail[d.attempt - 1] == (d.attempt, true) && d.disables == 0
    case TookOut => AllFailed(d.trail, s.max) && d.disables == 1
    case _ => |d.trail| <= d.attempt && AllFailed(d.trail, |d.trail|) && d.disables == 0
  }

  /** Quit is closed at most once, by the first Close and by no other. */
  ghost predicate ClosedOnce(s: State) {
    && s.quitCloses == (if s.quit then 1 else 0)
    && (s.quit ==> s.books.closed)
    && (s.books.closed <==> s.closers != [])
    && (forall c | 0 <= c < |s.closers| :: s.closers[c].first <==> c == 0)
    && (s.quit ==> s.closers[0].over)
  }

  ghost predicate Inv(s: State) {
    && s.max >= 1
    && Booked(s) && Bounded(s) && ClosedOnce(s)
    && forall i | 0 <= i < |s.ds| :: Numbered(s, s.ds[i])
  }

  /** One delivery moved, and the books with it. */
  lemma Moved(s: State, s': State, i: nat)
    requires Booked(s) && i < |s.ds| == |s'.ds| && s'.ds == s.ds[i := s'.ds[i]]
    requires s'.books.global + One(OfGlobal, s.ds[i]) == s.books.global + One(OfGlobal, s'.ds[i])
    requires forall p :: CountOf(s'.books.own, p) + One(OfOwn(p), s.ds[i]) ==
                         CountOf(s.books.own, p) + One(OfOwn(p), s'.ds[i])
    requires forall p :: CountOf(s'.books.pending, p) + One(OfPending(p), s.ds[i]) ==
                         CountOf(s.books.pending, p) + One(OfPending(p), s'.ds[i])
    ensures Booked(s')
  {
    CountUpdate(s.ds, i, s'.ds[i], OfGlobal);
    forall p
      ensures CountOf(s'.books.own, p) == Count(s'.ds, OfOwn(p))
      ensures CountOf(s'.books.pending, p) == Count(s'.ds, OfPending(p))
    {
      CountUpdate(s.ds, i, s'.ds[i], OfOwn(p));
      CountUpdate(s.ds, i, s'.ds[i], OfPending(p));
    }
  }

  /** An act of one delivery. */
  predicate Moves(a: Act) {
    !a.Emit? && !a.BeginClose? && !a.TimeOut? && !a.AllDone?
  }

  lemma CountersKept(s: State, a: Act)
    requires Inv(s) && Enabled(s, a) && Moves(a)
    ensures Booked(Do(s, a)) && Bounded(Do(s, a))
  {
    assert Numbered(s, s.ds[a.i]);
    if a.Finish? { CountHas(s.ds, OfPending(s.ds[a.i].project), a.i); }
    GlobalMoved(s, a);
    forall p { OwnMoved(s, a, p); }
    forall p { PendingMoved(s, a, p); }
    assert Do(s, a).ds == s.ds[a.i := Do(s, a).ds[a.i]];
    Moved(s, Do(s, a), a.i);
  }

  /** A step moves one delivery and the tokens it holds together. */
  lemma GlobalMoved(s: State, a: Act)
    requires Enabled(s, a) && Moves(a) && Numbered(s, s.ds[a.i]) && s.books.global <= MAX_CONCURRENT
    ensures var s' := Do(s, a);
            && s'.books.global + One(OfGlobal, s.ds[a.i]) == s.books.global + One(OfGlobal, s'.ds[a.i])
            && s'.books.global <= MAX_CONCURRENT
  {
  }

  lemma OwnMoved(s: State, a: Act, p: string)
    requires Enabled(s, a) && Moves(a) && Numbered(s, s.ds[a.i]) && CountOf(s.books.own, p) <= MAX_PER_PROJECT
    ensures var s' := Do(s, a);
            && CountOf(s'.books.own, p) + One(OfOwn(p), s.ds[a.i]) == CountOf(s.books.own, p) + One(OfOwn(p), s'.ds[a.i])
            && CountOf(s'.books.own, p) <= MAX_PER_PROJECT
  {
  }

  lemma PendingMoved(s: State, a: Act, p: string)
    requires Enabled(s, a) && Moves(a) && Numbered(s, s.ds[a.i]) && CountOf(s.books.pending, p) <= MAX_PENDING
    requires a.Finish? ==> CountOf(s.books.pending, s.ds[a.i].project) > 0
    ensures var s' := Do(s, a);
            && CountOf(s'.books.pending, p) + One(OfPending(p), s.ds[a.i]) ==
               CountOf(s.books.pending, p) + One(OfPending(p), s'.ds[a.i])
            && CountOf(s'.books.pending, p) <= MAX_PENDING
  {
  }

  lemma EmitKept(s: State, p: string, n: nat)
    requires Inv(s)
    ensures Inv(Do(s, Emit(p, n)))
  {
    var s' := Do(s, Emit(p, n));
    if !s.books.closed {
      var k := Room(CountOf(s.books.pending, p), n);
      CountStarting(s.ds, p, k, OfGlobal);
      forall q
        ensures CountOf(s'.books.own, q) == Count(s'.ds, OfOwn(q)) <= MAX_PER_PROJECT
        ensures CountOf(s'.books.pending, q) == Count(s'.ds, OfPending(q)) <= MAX_PENDING
      {
        assert CountOf(s.books.own, q) == Count(s.ds, OfOwn(q)) <= MAX_PER_PROJECT;
        assert CountOf(s.books.pending, q) == Count(s.ds, OfPending(q)) <= MAX_PENDING;
        CountStarting(s.ds, p, k, OfOwn(q));
        CountStarting(s.ds, p, k, OfPending(q));
      }
    } else {
      assert s'.ds == s.ds;
    }
  }

  lemma NumberedNext(s: State, a: Act)
    requires Inv(s) && Enabled(s, a) && Moves(a)
    ensures Numbered(s, Next(s, a, s.ds[a.i]))
  {
    var d := s.ds[a.i];
    assert Numbered(s, d);
    if a.Record? {
      assert Recorded(s, d).trail[..|d.trail|] == d.trail;
    }
  }

  lemma NumberedKept(s: State, a: Act)
    requires Inv(s) && Enabled(s, a) && Moves(a)
    ensures forall i | 0 <= i < |Do(s, a).ds| :: Numbered(Do(s, a), Do(s, a).ds[i])
  {
    NumberedNext(s, a);
    NumberedMoved(s, Do(s, a), a.i);
  }

  lemma NumberedMoved(s: State, s': State, i: nat)
    requires forall j | 0 <= j < |s.ds| :: Numbered(s, s.ds[j])
    requires i < |s.ds| == |s'.ds| && s'.ds == s.ds[i := s'.ds[i]] && s'.max == s.max && Numbered(s, s'.ds[i])
    ensures forall j | 0 <= j < |s'.ds| :: Numbered(s', s'.ds[j])
  {
    forall j | 0 <= j < |s'.ds| ensures Numbered(s', s'.ds[j]) {
      assert Numbered(s, s'.ds[j]);
    }
  }

  lemma ClosingKept(s: State, a: Act)
    requires Inv(s) && Enabled(s, a) && !Moves(a) && !a.Emit?
    ensures Inv(Do(s, a))
  {
    assert Do(s, a).ds == s.ds && Do(s, a).max == s.max;
  }

  lemma InvKept(s: State, a: Act)
    requires Inv(s) && Enabled(s, a)
    ensures Inv(Do(s, a))
  {
    if a.Emit? {
      EmitKept(s, a.p, a.n);
    } else if !Moves(a) {
      ClosingKept(s, a);
    } else {
      CountersKept(s, a);
      NumberedKept(s, a);
    }
  }

  // ---- over whole runs ----

  ghost predicate Runs(s: State, acts: seq<Act>)
    decreases |acts|
  {
    acts == [] || (Enabled(s, acts[0]) && Runs(Do(s, acts[0]), acts[1..]))
  }

  ghost function Reached(s: State, acts: seq<Act>): State
    requires Runs(s, acts)
    decreases |acts|
  {
    if acts == [] then s else Reached(Do(s, acts[0]), acts[1..])
  }

  lemma {:induction false} InvReached(s: State, acts: seq<Act>)
    requires Inv(s) && Runs(s, acts)
    ensures Inv(Reached(s, acts))
    decreases |acts|
  {
    if acts != [] {
      InvKept(s, acts[0]);
      InvReached(Do(s, acts[0]), acts[1..]);
    }
  }

  /** In every interleaving the channels hold exactly one token for each delivery inside an
      attempt, at most eight in all and two for one project, and the pending counts are
      the deliveries spawned and not finished, at most 256 for one project. */
  lemma SlotsAndPendingAreExact(max: nat, acts: seq<Act>)
    requires max >= 1 && Runs(Fresh(max), acts)
    ensures Booked(Reached(Fresh(max), acts)) && Bounded(Reached(Fresh(max), acts))
  {
    InvReached(Fresh(max), acts);
  }

  /** A delivery takes its hook out of rotation at most once, and only after exactly the
      allowed number of attempts, numbered from one, all of them failed. */
  lemma DisablesOnlyAfterEveryAttemptFailed(max: nat, acts: seq<Act>, i: nat)
    requires max >= 1 && Runs(Fresh(max), acts) && i < |Reached(Fresh(max), acts).ds|
    ensures var d := Reached(Fresh(max), acts).ds[i];
            && d.disables <= 1
            && (d.disables == 1 ==> AllFailed(d.trail, max))
            && (forall k | 0 <= k < |d.trail| :: d.trail[k].0 == k + 1 && (k < |d.trail| - 1 ==> !d.trail[k].1))
            && (d.phase.Ended? && d.phase.why != TookOut ==> d.disables == 0)
  {
    InvReached(Fresh(max), acts);
    SameMax(Fresh(max), acts);
    var s := Reached(Fresh(max), acts);
    var d := s.ds[i];
    assert Numbered(s, d);
    if (d.phase.Returned? || d.phase.Ended?) && d.phase.why.Delivered? {
      forall k | 0 <= k < |d.trail| - 1 ensures d.trail[k] == (k + 1, false) {
        assert d.trail[..d.attempt - 1][k] == d.trail[k];
      }
    }
  }

  lemma {:induction false} SameMax(s: State, acts: seq<Act>)
    requires Runs(s, acts)
    ensures Reached(s, acts).max == s.max
    decreases |acts|
  {
    if acts != [] {
      assert Do(s, acts[0]).max == s.max;
      SameMax(Do(s, acts[0]), acts[1..]);
    }
  }

  lemma QuitIsClosedOnce(max: nat, acts: seq<Act>)
    requires max >= 1 && Runs(Fresh(max), acts)
    ensures var s := Reached(Fresh(max), acts); s.quitCloses <= 1 && (s.quitCloses == 1 <==> s.quit)
  {
    InvReached(Fresh(max), acts);
  }

  // ---- closing ----

  /** Once closed, no delivery is spawned, and one that ended stays ended. */
  ghost predicate WindsDown(s: State, s': State) {
    && s'.books.closed && |s'.ds| == |s.ds|
    && forall i | 0 <= i < |s.ds| && s.ds[i].phase.Ended? :: s'.ds[i] == s.ds[i]
  }

  lemma {:induction false} NothingSpawnsOnceClosed(s: State, acts: seq<Act>)
    requires s.books.closed && Runs(s, acts)
    ensures WindsDown(s, Reached(s, acts))
    decreases |acts|
  {
    if acts != [] {
      WindsDownOne(s, acts[0]);
      NothingSpawnsOnceClosed(Do(s, acts[0]), acts[1..]);
    }
  }

  lemma WindsDownOne(s: State, a: Act)
    requires s.books.closed && Enabled(s, a)
    ensures WindsDown(s, Do(s, a))
  {
  }

  /** A Close that returned because everything was done really was the end: whatever runs
      afterwards, no delivery is under way and nothing is pending. */
  lemma NothingRunsAfterClose(max: nat, before: seq<Act>, c: nat, after: seq<Act>)
    requires max >= 1 && Runs(Fresh(max), before)
    requires Enabled(Reached(Fresh(max), before), AllDone(c))
    requires Runs(Do(Reached(Fresh(max), before), AllDone(c)), after)
    ensures var s := Reached(Do(Reached(Fresh(max), before), AllDone(c)), after);
            && (forall d | d in s.ds :: d.phase.Ended?)
            && s.books.global == 0 && forall p :: CountOf(s.books.pending, p) == 0
  {
    InvReached(Fresh(max), before);
    var done := Do(Reached(Fresh(max), before), AllDone(c));
    InvKept(Reached(Fresh(max), before), AllDone(c));
    InvReached(done, after);
    NothingSpawnsOnceClosed(done, after);
    WoundDown(done, Reached(done, after));
  }

  lemma WoundDown(done: State, s: State)
    requires WindsDown(done, s) && Booked(s) && forall d | d in done.ds :: d.phase.Ended?
    ensures forall d | d in s.ds :: d.phase.Ended?
    ensures s.books.global == 0 && forall p :: CountOf(s.books.pending, p) == 0
  {
    assert forall i | 0 <= i < |s.ds| :: s.ds[i] == done.ds[i] && done.ds[i] in done.ds;
    if s.books.global > 0 { CountSome(s.ds, OfGlobal); }
    forall p ensures CountOf(s.books.pending, p) == 0 {
      if Count(s.ds, OfPending(p)) > 0 { CountSome(s.ds, OfPending(p)); }
    }
  }

  // ---- fairness between projects ----

  lemma {:induction false} CountWithout(ds: seq<Delivery>, ps: set<string>, p: string)
    requires p in ps
    ensures Count(ds, InProjects(ps)) <= Count(ds, InProjects(ps - {p})) + Count(ds, OfOwn(p))
  {
    if ds != [] {
      CountWithout(ds[..|ds| - 1], ps, p);
    }
  }

  lemma {:induction false} HeldByFew(s: State, ps: set<string>)
    requires Booked(s) && Bounded(s)
    ensures Count(s.ds, InProjects(ps)) <= MAX_PER_PROJECT * |ps|
    decreases |ps|
  {
    if ps == {} {
      if Count(s.ds, InProjects(ps)) > 0 { CountSome(s.ds, InProjects(ps)); }
    } else {
      var p :| p in ps;
      CountWithout(s.ds, ps, p);
      HeldByFew(s, ps - {p});
      assert CountOf(s.books.own, p) == Count(s.ds, OfOwn(p)) <= MAX_PER_PROJECT;
    }
  }

  /** Stalled projects hold at most two slots each, so while there are fewer than four of
      them a slot is always left that none of them holds. */
  lemma StalledProjectsLeaveASlot(max: nat, acts: seq<Act>, stalled: set<string>)
    requires max >= 1 && Runs(Fresh(max), acts)
    ensures var held := Count(Reached(Fresh(max), acts).ds, InProjects(stalled));
            held <= 2 * |stalled| && (2 * |stalled| < MAX_CONCURRENT ==> held < MAX_CONCURRENT)
  {
    InvReached(Fresh(max), acts);
    HeldByFew(Reached(Fresh(max), acts), stalled);
  }

  // ---- no delivery waits for ever ----

  /** Some run takes delivery `i` from here into an attempt, by ordinary steps of the
      deliveries alone. */
  ghost predicate CanEnter(s: State, i: nat) {
    exists acts :: Runs(s, acts) && Ordinary(acts) && At(Reached(s, acts), i, Reading)
  }

  ghost predicate Ordinary(acts: seq<Act>) {
    forall a | a in acts :: a.TakeOwn? || a.TakeGlobal? || a.Reread? || a.Answer? || a.GiveOwn?
  }

  lemma EntersBy(s: State, a: Act, i: nat)
    requires Enabled(s, a) && Ordinary([a]) && CanEnter(Do(s, a), i)
    ensures CanEnter(s, i)
  {
    var rest :| Runs(Do(s, a), rest) && Ordinary(rest) && At(Reached(Do(s, a), rest), i, Reading);
    var acts := [a] + rest;
    assert acts[0] == a && acts[1..] == rest;
    assert Ordinary(acts) by {
      forall b | b in acts ensures b.TakeOwn? || b.TakeGlobal? || b.Reread? || b.Answer? || b.GiveOwn? {
        assert b in [a] || b in rest;
      }
    }
    assert Runs(s, acts) && Reached(s, acts) == Reached(Do(s, a), rest);
  }

  lemma EntersNow(s: State, i: nat)
    requires At(s, i, Reading)
    ensures CanEnter(s, i)
  {
    assert Runs(s, []) && Reached(s, []) == s && Ordinary([]);
  }

  /** A waiter with its project's slot in hand. */
  lemma EntersFromGlobal(s: State, i: nat)
    requires Inv(s) && At(s, i, WantsGlobal)
    ensures CanEnter(s, i)
  {
    if s.books.global < MAX_CONCURRENT {
      EntersNow(Do(s, TakeGlobal(i)), i);
      EntersBy(s, TakeGlobal(i), i);
    } else {
      CountSome(s.ds, OfGlobal);
      var j :| 0 <= j < |s.ds| && Matches(OfGlobal, s.ds[j]);
      var a := LeavesGlobal(s, j);
      InvKept(s, a);
      var s' := Do(s, a);
      EntersNow(Do(s', TakeGlobal(i)), i);
      EntersBy(s', TakeGlobal(i), i);
      EntersBy(s, a, i);
    }
  }

  /** An attempt under way can always end. */
  lemma LeavesGlobal(s: State, j: nat) returns (a: Act)
    requires Inv(s) && j < |s.ds| && Matches(OfGlobal, s.ds[j])
    ensures Enabled(s, a) && Ordinary([a]) && (a == Reread(j, false) || a == Answer(j, true))
    ensures var s' := Do(s, a);
            && s'.books.global == s.books.global - 1 && s'.quit == s.quit && s'.books.own == s.books.own
            && |s'.ds| == |s.ds| && s'.ds[j].phase.Letting? && s'.ds[j].project == s.ds[j].project
            && forall k | 0 <= k < |s.ds| && k != j :: s'.ds[k] == s.ds[k]
  {
    CountHas(s.ds, OfGlobal, j);
    a := if s.ds[j].phase.Reading? then Reread(j, false) else Answer(j, true);
  }

  /** A waiter for its project's slot. */
  lemma EntersFromOwn(s: State, i: nat)
    requires Inv(s) && At(s, i, WantsOwn)
    ensures CanEnter(s, i)
  {
    var p := s.ds[i].project;
    if CountOf(s.books.own, p) < MAX_PER_PROJECT {
      InvKept(s, TakeOwn(i));
      EntersFromGlobal(Do(s, TakeOwn(i)), i);
      EntersBy(s, TakeOwn(i), i);
    } else {
      CountSome(s.ds, OfOwn(p));
      var j :| 0 <= j < |s.ds| && Matches(OfOwn(p), s.ds[j]);
      EntersOnceFreed(s, i, j);
    }
  }

  /** The waiter `i`, and the delivery `j` whose slot it is going to get. */
  ghost predicate Behind(s: State, i: nat, j: nat) {
    && At(s, i, WantsOwn) && j < |s.ds| && Matches(OfOwn(s.ds[i].project), s.ds[j])
    && CountOf(s.books.own, s.ds[i].project) == MAX_PER_PROJECT
  }

  lemma EntersAfterLetting(s: State, i: nat, j: nat)
    requires Inv(s) && Behind(s, i, j) && s.ds[j].phase.Letting?
    ensures CanEnter(s, i)
  {
    assert Numbered(s, s.ds[j]);
    InvKept(s, GiveOwn(j));
    var s' := Do(s, GiveOwn(j));
    InvKept(s', TakeOwn(i));
    EntersFromGlobal(Do(s', TakeOwn(i)), i);
    EntersBy(s', TakeOwn(i), i);
    EntersBy(s, GiveOwn(j), i);
  }

  lemma EntersAfterHolding(s: State, i: nat, j: nat)
    requires Inv(s) && Behind(s, i, j) && HoldsGlobal(s.ds[j].phase)
    ensures CanEnter(s, i)
  {
    var a := LeavesGlobal(s, j);
    InvKept(s, a);
    EntersAfterLetting(Do(s, a), i, j);
    EntersBy(s, a, i);
  }

  lemma EntersAfterWaiting(s: State, i: nat, j: nat)
    requires Inv(s) && Behind(s, i, j) && s.ds[j].phase.WantsGlobal? && s.books.global < MAX_CONCURRENT
    ensures CanEnter(s, i)
  {
    InvKept(s, TakeGlobal(j));
    EntersAfterHolding(Do(s, TakeGlobal(j)), i, j);
    EntersBy(s, TakeGlobal(j), i);
  }

  /** The delivery ahead of it is made to let its slot go. */
  lemma EntersOnceFreed(s: State, i: nat, j: nat)
    requires Inv(s) && Behind(s, i, j)
    ensures CanEnter(s, i)
  {
    if s.ds[j].phase.Letting? {
      EntersAfterLetting(s, i, j);
    } else if HoldsGlobal(s.ds[j].phase) {
      EntersAfterHolding(s, i, j);
    } else if s.books.global < MAX_CONCURRENT {
      EntersAfterWaiting(s, i, j);
    } else {
      EntersAfterCrowd(s, i, j);
    }
  }

  lemma EntersAfterCrowd(s: State, i: nat, j: nat)
    requires Inv(s) && Behind(s, i, j) && s.ds[j].phase.WantsGlobal? && s.books.global == MAX_CONCURRENT
    ensures CanEnter(s, i)
  {
    CountSome(s.ds, OfGlobal);
    var k :| 0 <= k < |s.ds| && Matches(OfGlobal, s.ds[k]);
    var a := LeavesGlobal(s, k);
    InvKept(s, a);
    EntersAfterWaiting(Do(s, a), i, j);
    EntersBy(s, a, i);
  }

  /** No deadlock: in every reachable state, whoever waits for a slot can still get into an
      attempt once the attempts under way end - quit or not, with no help from outside. */
  lemma WaitersCanAlwaysEnter(max: nat, acts: seq<Act>, i: nat)
    requires max >= 1 && Runs(Fresh(max), acts)
    requires At(Reached(Fresh(max), acts), i, WantsOwn) || At(Reached(Fresh(max), acts), i, WantsGlobal)
    ensures CanEnter(Reached(Fresh(max), acts), i)
  {
    InvReached(Fresh(max), acts);
    var s := Reached(Fresh(max), acts);
    if At(s, i, WantsOwn) {
      EntersFromOwn(s, i);
    } else {
      EntersFromGlobal(s, i);
    }
  }
}
