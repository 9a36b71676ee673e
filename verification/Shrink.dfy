/** What becomes of one entry between its acceptance and its end, whatever the sweeps do
    meanwhile: its recipients only shrink, none is handed to a destination again once that
    destination took or refused it, and its lifetime bounds its connections. */
module Shrink {
  import opened Names
  import opened Sequences
  import opened DurableSteps
  import opened SpoolFiles
  import opened Delivery
  import opened Node
  import opened Files
  import opened Timing
  import opened EntryLife
  import Backoff

  /** `u` is `e` with fewer recipients, tried again later. */
  ghost predicate Narrows(e: Message, u: Message) {
    && u == e.(recipients := u.recipients, attempts := u.attempts, nextAttempt := u.nextAttempt)
    && forall r | r in u.recipients :: r in e.recipients
  }

  // ---- the attempt and the entry ----

  /** What the attempt has in hand is the entry, if there is one, or less of it. */
  ghost predicate Sound(l: Life) {
    && (!l.known ==> l.entry.None? && l.hand.Idle? && l.done == {})
    && (l.entry.Some? ==>
          match l.hand
          case Ready(m) => m == l.entry.value
          case Talking(m) => m == l.entry.value.(attempts := l.entry.value.attempts + 1)
          case Storing(m) => Narrows(l.entry.value, m)
          case _ => true)
  }

  lemma RetryWithin(m: Message, a: Answer)
    requires a.Answered? && ValidAnswer(m, a)
    ensures forall r | r in Retry(m, a) :: r in m.recipients
  {
    forall r | r in Retry(m, a) ensures r in m.recipients {
      PickMember(Converse(m.recipients, a.verdicts).rejected, a.order, false, r);
      PositionOfAnswer(m.recipients, a.verdicts, r);
    }
  }

  lemma StoresLess(m: Message, a: Answer, next: int)
    requires ValidAnswer(m, a)
    ensures var h := Consequence(m, a, next); h.Dropping? || (h.Storing? && Narrows(m, h.m) && h.m.attempts == m.attempts)
  {
    if a.Answered? { RetryWithin(m, a); }
  }

  lemma SoundMoved(l: Life, v: Move)
    requires Sound(l) && Can(l, v)
    ensures Sound(Moved(l, v))
  {
    if v.Concluded? { StoresLess(l.hand.m, v.answer, v.next); }
  }

  lemma {:induction false} SoundReached(s: State, acts: seq<Act>, id: string)
    requires Owned(s) && Sound(LifeOf(s, id)) && NewRun(s, acts)
    ensures Owned(Reaches(s, acts)) && Sound(LifeOf(Reaches(s, acts), id))
    decreases |acts|
  {
    if acts != [] {
      OwnKept(s, acts[0]);
      ActMovesLife(s, acts[0], id);
      SoundMoved(LifeOf(s, id), MoveOf(s, acts[0], id));
      SoundReached(Do(s, acts[0]), acts[1..], id);
    }
  }

  // ---- an entry only shrinks ----

  /** Whatever is or will be the entry is less of `e`. */
  ghost predicate Within(e: Message, l: Life) {
    && l.known
    && (l.entry.Some? ==> Narrows(e, l.entry.value))
    && (l.hand.Ready? || l.hand.Talking? || l.hand.Storing? ==> Narrows(e, l.hand.m))
  }

  lemma WithinMoved(e: Message, l: Life, v: Move)
    requires Within(e, l) && Can(l, v)
    ensures Within(e, Moved(l, v))
  {
    if v.Concluded? { StoresLess(l.hand.m, v.answer, v.next); }
  }

  lemma {:induction false} WithinReached(e: Message, s: State, acts: seq<Act>, id: string)
    requires Owned(s) && Within(e, LifeOf(s, id)) && NewRun(s, acts)
    ensures Within(e, LifeOf(Reaches(s, acts), id))
    decreases |acts|
  {
    if acts != [] {
      OwnKept(s, acts[0]);
      ActMovesLife(s, acts[0], id);
      WithinMoved(e, LifeOf(s, id), MoveOf(s, acts[0], id));
      WithinReached(e, Do(s, acts[0]), acts[1..], id);
    }
  }

  /** Between any two moments of any run, crashes and overlapping sweeps included, an entry
      keeps what it is and loses recipients, if it loses anything. */
  lemma EntriesOnlyShrink(rules: Rules, clock: int, a: seq<Act>, b: seq<Act>, id: string)
    requires NewRun(Boot(rules, clock), a + b)
    ensures NewRun(Boot(rules, clock), a)
    ensures var s, s' := Reaches(Boot(rules, clock), a), Reaches(Boot(rules, clock), a + b);
            id in s.disk.messages && id in s'.disk.messages ==> Narrows(s.disk.messages[id], s'.disk.messages[id])
  {
    RunOn(Boot(rules, clock), a, b);
    var s := Reaches(Boot(rules, clock), a);
    SoundReached(Boot(rules, clock), a, id);
    if id in s.disk.messages {
      WithinReached(s.disk.messages[id], s, b, id);
    }
  }

  // ---- an entry that is gone stays gone ----

  /** A run that keeps the expiry sweep off the messages being attempted. */
  ghost predicate SweptApart(s: State, acts: seq<Act>)
    requires NewRun(s, acts)
    decreases |acts|
  {
    AttemptsApart(s) && (acts == [] || SweptApart(Do(s, acts[0]), acts[1..]))
  }

  /** An attempt that may still store an entry found it and has not lost it. */
  ghost predicate Rooted(l: Life) {
    l.hand.Ready? || l.hand.Talking? || l.hand.Storing? ==> l.entry.Some?
  }

  ghost predicate Gone(l: Life) {
    l.known && l.entry.None? && Rooted(l)
  }

  lemma RootedAct(s: State, a: Act, id: string)
    requires Owned(s) && AttemptsApart(s) && Enabled(s, a) && NewId(s, a) && Rooted(LifeOf(s, id)) && Sound(LifeOf(s, id))
    ensures Rooted(LifeOf(Do(s, a), id)) && (Gone(LifeOf(s, id)) ==> Gone(LifeOf(Do(s, a), id)))
  {
    ActMovesLife(s, a, id);
    if MoveOf(s, a, id).Removed? {
      var todo := Todo(s.threads[a.t]);
      assert Own(a.t, s.threads[a.t]) && todo[0] in todo;
      assert About(todo[0]) == Some(id) && Mentions(todo, id);
    }
  }

  lemma {:induction false} RootedReached(s: State, acts: seq<Act>, id: string)
    requires Owned(s) && Rooted(LifeOf(s, id)) && Sound(LifeOf(s, id)) && NewRun(s, acts) && SweptApart(s, acts)
    ensures Rooted(LifeOf(Reaches(s, acts), id)) && (Gone(LifeOf(s, id)) ==> Gone(LifeOf(Reaches(s, acts), id)))
    decreases |acts|
  {
    if acts != [] {
      OwnKept(s, acts[0]);
      ActMovesLife(s, acts[0], id);
      SoundMoved(LifeOf(s, id), MoveOf(s, acts[0], id));
      RootedAct(s, acts[0], id);
      RootedReached(Do(s, acts[0]), acts[1..], id);
    }
  }

  lemma {:induction false} ApartOn(s: State, a: seq<Act>, b: seq<Act>)
    requires NewRun(s, a + b) && SweptApart(s, a + b)
    ensures NewRun(s, a) && SweptApart(s, a) && NewRun(Reaches(s, a), b) && SweptApart(Reaches(s, a), b)
    decreases |a|
  {
    RunOn(s, a, b);
    if a == [] {
      assert a + b == b;
    } else {
      assert (a + b)[1..] == a[1..] + b;
      ApartOn(Do(s, a[0]), a[1..], b);
    }
  }

  /** With the expiry sweep kept off the messages being attempted, an entry once gone never
      comes back, crashes included. */
  lemma GoneStaysGone(rules: Rules, clock: int, a: seq<Act>, b: seq<Act>, id: string)
    requires NewRun(Boot(rules, clock), a + b) && SweptApart(Boot(rules, clock), a + b)
    ensures NewRun(Boot(rules, clock), a)
    ensures var s, s' := Reaches(Boot(rules, clock), a), Reaches(Boot(rules, clock), a + b);
            id in s.ids && id !in s.disk.messages ==> id !in s'.disk.messages
  {
    var s0 := Boot(rules, clock);
    RunOn(s0, a, b);
    ApartOn(s0, a, b);
    SoundReached(s0, a, id);
    RootedReached(s0, a, id);
    RootedReached(Reaches(s0, a), b, id);
  }

  // ---- without a crash: nobody is mailed twice ----

  /** Nothing it still has to deliver is finished. */
  ghost predicate Clean(done: set<Done>, m: Message) {
    Distinct(m.recipients) && forall r | r in m.recipients :: Done(m.id, r) !in done
  }

  /** What stays to be retried was neither taken nor refused, and is named once. */
  lemma RetryIsClean(done: set<Done>, m: Message, a: Answer)
    requires Clean(done, m) && a.Answered? && ValidAnswer(m, a)
    ensures Clean(done + Ended(m, a), m.(recipients := Retry(m, a)))
  {
    var c := Converse(m.recipients, a.verdicts);
    PickDistinct(c.rejected, a.order, false);
    forall r | r in Retry(m, a) ensures Done(m.id, r) !in done + Ended(m, a) {
      RetryAvoidsAccepted(m, a, r);
      PickMember(c.rejected, a.order, false, r);
      PickMember(c.rejected, a.order, true, r);
    }
  }

  lemma {:induction false} PickDistinct(rejected: map<string, bool>, order: seq<string>, permanent: bool)
    requires Distinct(order) && forall r | r in order :: r in rejected
    ensures Distinct(Pick(rejected, order, permanent))
  {
    if order != [] {
      var rest := order[1..];
      PickDistinct(rejected, rest, permanent);
      assert order[0] !in rest;
      PickMember(rejected, rest, permanent, order[0]);
    }
  }

  lemma StoresClean(done: set<Done>, m: Message, a: Answer, next: int)
    requires Clean(done, m) && ValidAnswer(m, a)
    ensures var h := Consequence(m, a, next); h.Storing? ==> Clean(done + Ended(m, a), h.m) && h.m.id == m.id
  {
    if a.Answered? { RetryIsClean(done, m, a); }
  }

  /** What the attempt has in hand, or else the entry, is clean. */
  ghost predicate Spotless(l: Life, id: string) {
    match l.hand
    case Idle => l.entry.Some? ==> l.entry.value.id == id && Clean(l.done, l.entry.value)
    case Ready(m) => m.id == id && Clean(l.done, m)
    case Talking(m) => m.id == id && Clean(l.done, m)
    case Storing(m) => m.id == id && Clean(l.done, m)
    case Dropping => true
  }

  lemma SpotlessMoved(l: Life, v: Move, id: string)
    requires Sound(l) && Spotless(l, id) && Can(l, v) && !v.Forgotten?
    requires v.Accepted? ==> v.m.id == id && Distinct(v.m.recipients)
    ensures Spotless(Moved(l, v), id)
  {
    if v.Concluded? { StoresClean(l.done, l.hand.m, v.answer, v.next); }
  }

  /** An act of a run no crash cuts short, in which no entry is put with a recipient named
      twice. */
  ghost predicate Orderly(s: State, a: Act)
    requires Enabled(s, a)
  {
    !a.Crash? &&
    (a.Step? && Todo(s.threads[a.t])[0].CommitEntry? ==> Distinct(Todo(s.threads[a.t])[0].m.recipients))
  }

  ghost predicate QuietRun(s: State, acts: seq<Act>)
    requires NewRun(s, acts)
    decreases |acts|
  {
    acts == [] || (Orderly(s, acts[0]) && QuietRun(Do(s, acts[0]), acts[1..]))
  }

  ghost predicate LifeOk(s: State, id: string) {
    Owned(s) && Sound(LifeOf(s, id)) && Spotless(LifeOf(s, id), id)
  }

  lemma SpotlessAct(s: State, a: Act, id: string)
    requires LifeOk(s, id) && Enabled(s, a) && NewId(s, a) && Orderly(s, a)
    ensures LifeOk(Do(s, a), id)
  {
    OwnKept(s, a);
    ActMovesLife(s, a, id);
    SoundMoved(LifeOf(s, id), MoveOf(s, a, id));
    SpotlessMoved(LifeOf(s, id), MoveOf(s, a, id), id);
  }

  lemma {:induction false} SpotlessReached(s: State, acts: seq<Act>, id: string)
    requires LifeOk(s, id) && NewRun(s, acts) && QuietRun(s, acts)
    ensures LifeOk(Reaches(s, acts), id)
    decreases |acts|
  {
    if acts != [] {
      SpotlessAct(s, acts[0], id);
      SpotlessReached(Do(s, acts[0]), acts[1..], id);
    }
  }

  /** No recipient is offered to a destination again after one took it or refused it for
      good, whatever the sweeps do. */
  lemma NeverSentAgain(rules: Rules, clock: int, acts: seq<Act>, id: string)
    requires NewRun(Boot(rules, clock), acts) && QuietRun(Boot(rules, clock), acts)
    ensures var s := Reaches(Boot(rules, clock), acts);
            Attempt(id) in s.threads && s.threads[Attempt(id)].Sending? ==>
              && Distinct(s.threads[Attempt(id)].m.recipients)
              && forall r | r in s.threads[Attempt(id)].m.recipients :: Done(id, r) !in s.done
  {
    var s := Reaches(Boot(rules, clock), acts);
    SpotlessReached(Boot(rules, clock), acts, id);
    if Attempt(id) in s.threads && s.threads[Attempt(id)].Sending? {
      var m := s.threads[Attempt(id)].m;
      assert LifeOf(s, id).hand == Talking(m);
      forall r | r in m.recipients ensures Done(id, r) !in s.done {
        assert Done(id, r) !in LifeOf(s, id).done;
      }
    }
  }

  // ---- without a crash: the lifetime bounds the connections ----

  ghost predicate Counts(m: Message, id: string, n: nat) {
    m.id == id && m.attempts == n
  }

  /** `n` is how many connections have been made for the id. What the attempt has in hand,
      or else the entry, counts them; nobody is done with before the first one ended. */
  ghost predicate Counted(l: Life, id: string, n: nat) {
    && (!l.known ==> n == 0) && (n == 0 ==> l.done == {})
    && match l.hand
       case Idle => l.entry.Some? ==> Counts(l.entry.value, id, n)
       case Ready(m) => Counts(m, id, n)
       case Talking(m) => Counts(m, id, n) && n >= 1 && (n == 1 ==> l.done == {})
       case Storing(m) => Counts(m, id, n)
       case Dropping => true
  }

  lemma CountedMoved(l: Life, v: Move, id: string, n: nat)
    requires Sound(l) && Counted(l, id, n) && Can(l, v) && !v.Forgotten?
    requires v.Accepted? ==> v.m.id == id && v.m.attempts == 0
    ensures Counted(Moved(l, v), id, if v.Connected? then n + 1 else n)
  {
    if v.Concluded? { StoresLess(l.hand.m, v.answer, v.next); }
  }

  /** No crash cuts it short. */
  ghost predicate Uncut(acts: seq<Act>) {
    forall a | a in acts :: !a.Crash?
  }

  /** How many connections a run makes for an id. */
  ghost function Connections(s: State, acts: seq<Act>, id: string): nat
    requires NewRun(s, acts)
    decreases |acts|
  {
    if acts == [] then 0 else Connects(s, acts[0], id) + Connections(Do(s, acts[0]), acts[1..], id)
  }

  ghost predicate CountOk(s: State, id: string, n: nat) {
    Owned(s) && Sound(LifeOf(s, id)) && Counted(LifeOf(s, id), id, n)
  }

  lemma CountedAct(s: State, a: Act, id: string, n: nat)
    requires CountOk(s, id, n) && Enabled(s, a) && NewId(s, a) && !a.Crash?
    ensures CountOk(Do(s, a), id, n + Connects(s, a, id))
  {
    var l, v := LifeOf(s, id), MoveOf(s, a, id);
    OwnKept(s, a);
    ActMovesLife(s, a, id);
    SoundMoved(l, v);
    if v.Accepted? {
      assert Own(a.t, s.threads[a.t]) && Todo(s.threads[a.t])[0] in Todo(s.threads[a.t]);
    }
    CountedMoved(l, v, id, n);
  }

  lemma {:induction false} CountedReached(s: State, acts: seq<Act>, id: string, n: nat)
    requires CountOk(s, id, n) && NewRun(s, acts) && Uncut(acts)
    ensures CountOk(Reaches(s, acts), id, n + Connections(s, acts, id))
    decreases |acts|
  {
    if acts != [] {
      assert acts[0] in acts && forall a | a in acts[1..] :: a in acts;
      CountedAct(s, acts[0], id, n);
      CountedReached(Do(s, acts[0]), acts[1..], id, n + Connects(s, acts[0], id));
    }
  }

  /** An attempt about to open is the next of the id's, and not early. */
  ghost predicate ReadyInTime(s: State, id: string, n: nat) {
    Attempt(id) in s.threads && s.threads[Attempt(id)].Queued? ==>
      var m := s.threads[Attempt(id)].m; m.attempts == n && Timely(m) && IsDue(m, s.clock)
  }

  lemma IsReadyInTime(s: State, id: string, n: nat)
    requires CountOk(s, id, n) && TimingInv(s)
    ensures ReadyInTime(s, id, n)
  {
    if Attempt(id) in s.threads && s.threads[Attempt(id)].Queued? {
      assert TimedThread(s, s.threads[Attempt(id)]);
      assert LifeOf(s, id).hand == Ready(s.threads[Attempt(id)].m);
    }
  }

  lemma ConnectsInTime(s: State, a: Act, id: string, n: nat)
    requires ReadyInTime(s, id, n) && Enabled(s, a) && Connects(s, a, id) == 1
    ensures InTime(s.rules, n)
  {
  }

  lemma {:induction false} NewIsAny(s: State, acts: seq<Act>)
    requires NewRun(s, acts)
    ensures AnyRun(s, acts) && AnyReached(s, acts) == Reaches(s, acts)
    decreases |acts|
  {
    if acts != [] { NewIsAny(Do(s, acts[0]), acts[1..]); }
  }

  lemma {:induction false} ConnectionsOn(s: State, a: seq<Act>, b: seq<Act>, id: string)
    requires NewRun(s, a + b) && NewRun(s, a) && NewRun(Reaches(s, a), b)
    ensures Connections(s, a + b, id) == Connections(s, a, id) + Connections(Reaches(s, a), b, id)
    decreases |a|
  {
    if a == [] {
      assert a + b == b;
    } else {
      assert (a + b)[1..] == a[1..] + b;
      ConnectionsOn(Do(s, a[0]), a[1..], b, id);
    }
  }

  lemma LastAct(s: State, front: seq<Act>, last: Act, id: string)
    requires NewRun(s, front + [last])
    ensures NewRun(s, front) && Enabled(Reaches(s, front), last)
    ensures Connections(s, front + [last], id) == Connections(s, front, id) + Connects(Reaches(s, front), last, id)
  {
    RunOn(s, front, [last]);
    ConnectionsOn(s, front, [last], id);
    assert [last][1..] == [];
  }

  lemma FrontOfRun(s: State, front: seq<Act>, last: Act)
    requires NewRun(s, front + [last]) && Uncut(front + [last])
    ensures NewRun(s, front) && Uncut(front)
  {
    RunOn(s, front, [last]);
    assert forall a | a in front :: a in front + [last];
  }

  lemma {:induction false} InTimeReached(rules: Rules, clock: int, acts: seq<Act>, id: string)
    requires Backoff.ConvertsPowers(rules.converted) && NewRun(Boot(rules, clock), acts) && Uncut(acts)
    ensures InTime(rules, Connections(Boot(rules, clock), acts, id) - 1)
    decreases |acts|
  {
    if acts != [] {
      var front, last := acts[..|acts| - 1], acts[|acts| - 1];
      assert acts == front + [last];
      FrontOfRun(Boot(rules, clock), front, last);
      InTimeReached(rules, clock, front, id);
      InTimeNext(rules, clock, front, last, id);
    }
  }

  lemma InTimeNext(rules: Rules, clock: int, front: seq<Act>, last: Act, id: string)
    requires Backoff.ConvertsPowers(rules.converted) && NewRun(Boot(rules, clock), front) && Uncut(front)
    requires NewRun(Boot(rules, clock), front + [last]) && InTime(rules, Connections(Boot(rules, clock), front, id) - 1)
    ensures InTime(rules, Connections(Boot(rules, clock), front + [last], id) - 1)
  {
    var s, n := AfterAll(rules, clock, front, id);
    LastAct(Boot(rules, clock), front, last, id);
    if Connects(s, last, id) == 1 { ConnectsInTime(s, last, id, n); }
  }

  /** After a run: the connections are counted and everything is on schedule. */
  lemma AfterAll(rules: Rules, clock: int, acts: seq<Act>, id: string) returns (s: State, n: nat)
    requires Backoff.ConvertsPowers(rules.converted) && NewRun(Boot(rules, clock), acts) && Uncut(acts)
    ensures s == Reaches(Boot(rules, clock), acts) && n == Connections(Boot(rules, clock), acts, id)
    ensures ReadyInTime(s, id, n) && s.rules == rules
  {
    s, n := Reaches(Boot(rules, clock), acts), Connections(Boot(rules, clock), acts, id);
    TimedAfter(Boot(rules, clock), acts);
    CountedReached(Boot(rules, clock), acts, id, 0);
    IsReadyInTime(s, id, n);
  }

  lemma TimedAfter(s: State, acts: seq<Act>)
    requires TimingInv(s) && NewRun(s, acts)
    ensures TimingInv(Reaches(s, acts)) && Reaches(s, acts).rules == s.rules
  {
    NewIsAny(s, acts);
    TimingReached(s, acts);
    SameRules(s, acts);
  }

  /** A lifetime bounds the connections an entry can make, whatever they meet. */
  lemma ConnectionsOfARun(rules: Rules, clock: int, acts: seq<Act>, id: string)
    requires Backoff.ConvertsPowers(rules.converted) && rules.lifetime > 0
    requires NewRun(Boot(rules, clock), acts) && Uncut(acts)
    ensures var k := Connections(Boot(rules, clock), acts, id);
            && (k >= 1 ==> Backoff.Waited(k - 1) <= rules.lifetime)
            && (k >= 6 ==> k <= 6 + (rules.lifetime - 121 * Backoff.MINUTE) / Backoff.CEILING)
  {
    InTimeReached(rules, clock, acts, id);
    Bound(rules, Connections(Boot(rules, clock), acts, id));
  }

  lemma Bound(rules: Rules, k: nat)
    requires InTime(rules, k - 1) && rules.lifetime > 0
    ensures k >= 1 ==> Backoff.Waited(k - 1) <= rules.lifetime
    ensures k >= 6 ==> k <= 6 + (rules.lifetime - 121 * Backoff.MINUTE) / Backoff.CEILING
  {
    if k >= 6 { Backoff.WaitedExactly(k - 1); }
  }
}
