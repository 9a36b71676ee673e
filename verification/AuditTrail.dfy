/** The audit recorder: a bounded queue, any number of recorders, one writer, and a Close
    that lets the writer drain what is already queued. */
module AuditTrail {

  const QUEUE_SIZE: nat := 512

  /** An event, told apart from every other recorded one by its number. */
  type Event = nat

  class Recorder {
    var queue: seq<Event>
    var closed: bool
    var quit: bool
    var dropped: nat

    constructor ()
      ensures queue == [] && !closed && !quit && dropped == 0
    {
      queue, closed, quit, dropped := [], false, false, 0;
    }

    /** Queues an event or drops it; never blocks. Only a full queue is counted. */
    method Record(e: Event) returns (queued: bool)
      requires |queue| <= QUEUE_SIZE
      modifies this`queue, this`dropped
      ensures |queue| <= QUEUE_SIZE && queued == (!closed && |old(queue)| < QUEUE_SIZE)
      ensures queue == if queued then old(queue) + [e] else old(queue)
      ensures dropped == old(dropped) + if !closed && !queued then 1 else 0
    {
      if closed {
        return false;
      }
      if |queue| < QUEUE_SIZE {
        queue := queue + [e];
        return true;
      }
      dropped := dropped + 1;
      return false;
    }

    method BeginClose()
      modifies this`closed, this`quit
      ensures closed && quit
    {
      closed := true;
      if !quit {
        quit := true;
      }
    }

    /** The writer once it has seen the quit: everything buffered, in order. */
    method Drain() returns (written: seq<Event>)
      modifies this`queue
      ensures written == old(queue) && queue == []
    {
      written := [];
      while queue != []
        invariant written + queue == old(queue)
        decreases |queue|
      {
        written := written + [queue[0]];
        queue := queue[1..];
      }
    }
  }

  // ---- any interleaving of recorders, the writer and Close ----

  /** Where the writer is: choosing between the queue and the quit, draining, or done. */
  datatype Writer = Serving | Draining | Gone

  /** What a Record call passes through: the check of `closed` and the send are two steps,
      so a Close can fall between them. */
  datatype State = State(queue: seq<Event>, writer: Writer, closed: bool, quit: bool,
                         passed: set<Event>, accepted: seq<Event>, written: seq<Event>,
                         dropped: nat, next: Event, mark: nat, end: nat)

  function Fresh(): State {
    State([], Serving, false, false, {}, [], [], 0, 0, 0, 0)
  }

  datatype Act = Pass | Refuse | Send(e: Event) | Write | SeeQuit | WriteLast | Finish | SetClosed | CloseQuit

  predicate Enabled(s: State, a: Act) {
    match a
    case Pass => !s.closed
    case Refuse => s.closed
    case Send(e) => e in s.passed
    case Write => s.writer.Serving? && s.queue != []
    case SeeQuit => s.writer.Serving? && s.quit
    case WriteLast => s.writer.Draining? && s.queue != []
    case Finish => s.writer.Draining? && s.queue == []
    case SetClosed => true
    case CloseQuit => s.closed
  }

  function Wrote(s: State): State
    requires s.queue != []
  {
    s.(written := s.written + [s.queue[0]], queue := s.queue[1..])
  }

  /** `mark` is how many events had been accepted when the quit was closed, `end` how many
      when the writer was done. */
  function Do(s: State, a: Act): State
    requires Enabled(s, a)
  {
    match a
    case Pass => s.(passed := s.passed + {s.next}, next := s.next + 1)
    case Refuse => s
    case Send(e) =>
      if |s.queue| < QUEUE_SIZE
      then s.(passed := s.passed - {e}, queue := s.queue + [e], accepted := s.accepted + [e])
      else s.(passed := s.passed - {e}, dropped := s.dropped + 1)
    case Write => Wrote(s)
    case SeeQuit => s.(writer := Draining)
    case WriteLast => Wrote(s)
    case Finish => s.(writer := Gone, end := |s.accepted|)
    case SetClosed => s.(closed := true)
    case CloseQuit => if s.quit then s else s.(quit := true, mark := |s.accepted|)
  }

  ghost predicate Inv(s: State) {
    && s.accepted == s.written + s.queue && |s.queue| <= QUEUE_SIZE
    && (forall i, j | 0 <= i < j < |s.accepted| :: s.accepted[i] != s.accepted[j])
    && (forall e | e in s.accepted :: e < s.next && e !in s.passed)
    && (forall e | e in s.passed :: e < s.next)
    && s.next == |s.accepted| + |s.passed| + s.dropped
    && (s.quit ==> s.closed && s.mark <= |s.accepted|)
    && (!s.writer.Serving? ==> s.quit)
    && (s.writer.Gone? ==> s.mark <= s.end == |s.written|)
  }

  lemma InvKept(s: State, a: Act)
    requires Inv(s) && Enabled(s, a)
    ensures Inv(Do(s, a))
  {
    if a.Write? || a.WriteLast? {
      assert s.queue == [s.queue[0]] + s.queue[1..];
      assert Do(s, a).accepted == Do(s, a).written + Do(s, a).queue;
    } else if a.Send? {
      SendKept(s, a.e);
    }
  }

  lemma SendKept(s: State, e: Event)
    requires Inv(s) && e in s.passed
    ensures Inv(Do(s, Send(e)))
  {
    assert s.accepted + [e] == s.written + (s.queue + [e]);
  }

  /** The machine's two steps of a record are the recorder's one, when nothing falls between:
      the event is queued behind the others, or counted when the queue is full; a drop is
      counted only then. Once closed it is refused and not counted. */
  lemma RecordIsItsSteps(s: State)
    ensures !s.closed ==>
              && Enabled(s, Pass) && s.next in Do(s, Pass).passed && Enabled(Do(s, Pass), Send(s.next))
              && var s' := Do(Do(s, Pass), Send(s.next));
                 && s'.queue == (if |s.queue| < 512 then s.queue + [s.next] else s.queue)
                 && s'.dropped == (if |s.queue| < 512 then s.dropped else s.dropped + 1)
                 && s'.accepted == (if |s.queue| < 512 then s.accepted + [s.next] else s.accepted)
                 && s'.written == s.written && s'.writer == s.writer
    ensures s.closed ==> !Enabled(s, Pass) && Enabled(s, Refuse) && Do(s, Refuse) == s
  {
  }

  /** So are the writer's steps the drain: each writes the oldest event, and it ends only on
      an empty queue. */
  lemma WriterWritesTheOldest(s: State, a: Act)
    requires Enabled(s, a) && (a.Write? || a.WriteLast? || a.Finish?)
    ensures a.Finish? ==> s.queue == [] && Do(s, a).writer.Gone?
    ensures !a.Finish? ==> s.queue != [] && Do(s, a).written == s.written + [s.queue[0]] && Do(s, a).queue == s.queue[1..]
    ensures Do(s, a).accepted == s.accepted && Do(s, a).dropped == s.dropped
  {
  }

  ghost predicate Runs(s: State, acts: seq<Act>)
    decreases |acts|
  {
    acts == [] || (Enabled(s, acts[0]) && Runs(Do(s, acts[0]), acts[1..]))
  }

  ghost function Reached(s: State, acts: seq<Act>): State
    requires Runs(s, acts)
    decreases |acts|
  {
    if acts == [] then s else Reached(Do(s, acts[0]), acts[1..])
  }

  lemma {:induction false} InvReached(s: State, acts: seq<Act>)
    requires Inv(s) && Runs(s, acts)
    ensures Inv(Reached(s, acts))
    decreases |acts|
  {
    if acts != [] {
      InvKept(s, acts[0]);
      InvReached(Do(s, acts[0]), acts[1..]);
    }
  }

  /** The accepted events are exactly the written ones followed by the queued ones, in
      order, none of them twice, and the counter is exact: every event that was let in is
      accepted, counted as dropped, or still with its recorder. */
  lemma FirstInFirstOut(acts: seq<Act>)
    requires Runs(Fresh(), acts)
    ensures var s := Reached(Fresh(), acts);
            && s.accepted == s.written + s.queue && |s.queue| <= QUEUE_SIZE
            && (forall i, j | 0 <= i < j < |s.written| :: s.written[i] != s.written[j])
            && s.next == |s.accepted| + |s.passed| + s.dropped
  {
    InvReached(Fresh(), acts);
    var s := Reached(Fresh(), acts);
    forall i, j | 0 <= i < j < |s.written| ensures s.written[i] != s.written[j] {
      assert s.accepted[i] == s.written[i] && s.accepted[j] == s.written[j];
    }
  }

  /** Every event accepted before the quit was closed is written by the time the writer
      reports done. What a recorder already past the check sends later may stay behind. */
  lemma DrainedBeforeDone(acts: seq<Act>)
    requires Runs(Fresh(), acts) && Reached(Fresh(), acts).writer.Gone?
    ensures var s := Reached(Fresh(), acts); s.mark <= |s.written| <= |s.accepted| && s.accepted[..s.mark] <= s.written
  {
    InvReached(Fresh(), acts);
    var s := Reached(Fresh(), acts);
    assert s.accepted[..s.mark] == s.written[..s.mark];
  }

  /** Once the writer is done, an accepted event was written exactly when it was accepted
      before that; all that were sent later are still in the queue, and stay there. */
  lemma WrittenExactlyBeforeEnd(acts: seq<Act>)
    requires Runs(Fresh(), acts) && Reached(Fresh(), acts).writer.Gone?
    ensures var s := Reached(Fresh(), acts);
            && s.mark <= s.end <= |s.accepted| && s.written == s.accepted[..s.end] && s.queue == s.accepted[s.end..]
            && forall i | 0 <= i < |s.accepted| :: s.accepted[i] in s.written <==> i < s.end
  {
    InvReached(Fresh(), acts);
    var s := Reached(Fresh(), acts);
    assert s.accepted[..s.end] == s.written;
  }

  lemma RunsOn(s: State, a: Act, rest: seq<Act>)
    requires Enabled(s, a) && Runs(Do(s, a), rest)
    ensures Runs(s, [a] + rest) && Reached(s, [a] + rest) == Reached(Do(s, a), rest)
  {
    assert ([a] + rest)[1..] == rest;
  }

  ghost predicate Missed(s: State, acts: seq<Act>, e: Event) {
    Runs(s, acts) && Reached(s, acts).writer.Gone? && e in Reached(s, acts).accepted && e !in Reached(s, acts).written
  }

  /** That gap is open to every event a recorder has past the check while the writer still
      runs: it can be accepted and never written. */
  lemma LateEventIsLost(s: State, e: Event) returns (acts: seq<Act>)
    requires Inv(s) && e in s.passed && !s.writer.Gone?
    ensures Missed(s, acts, e)
  {
    if s.writer.Draining? {
      acts := LostInDrain(s, e);
    } else {
      var s1 := Do(s, SetClosed);
      var s2 := Do(s1, CloseQuit);
      var s3 := Do(s2, SeeQuit);
      InvKept(s, SetClosed);
      InvKept(s1, CloseQuit);
      InvKept(s2, SeeQuit);
      acts := LostInDrain(s3, e);
      RunsOn(s2, SeeQuit, acts);
      RunsOn(s1, CloseQuit, [SeeQuit] + acts);
      RunsOn(s, SetClosed, [CloseQuit] + ([SeeQuit] + acts));
      acts := [SetClosed] + ([CloseQuit] + ([SeeQuit] + acts));
    }
  }

  lemma {:induction false} LostInDrain(s: State, e: Event) returns (acts: seq<Act>)
    requires Inv(s) && e in s.passed && s.writer.Draining?
    ensures Missed(s, acts, e)
    decreases |s.queue|
  {
    if s.queue != [] {
      InvKept(s, WriteLast);
      acts := LostInDrain(Do(s, WriteLast), e);
      RunsOn(s, WriteLast, acts);
      acts := [WriteLast] + acts;
    } else {
      var s1 := Do(s, Finish);
      InvKept(s, Finish);
      InvKept(s1, Send(e));
      assert e !in s1.written;
      RunsOn(s1, Send(e), []);
      RunsOn(s, Finish, [Send(e)] + []);
      acts := [Finish] + ([Send(e)] + []);
    }
  }
}
