/** The node's own queue: bolt buckets for metadata, files beside them for bytes. */
module SpoolFiles {
  import opened Names
  import opened Sequences
  import opened DurableSteps

  /** Every entry is stored under its own id. */
  ghost predicate Keyed(d: Disk) {
    && (forall id | id in d.messages :: d.messages[id].id == id)
    && (forall id | id in d.inbound :: d.inbound[id].id == id)
  }

  /** The email ids a disk still holds: queued, or with an outcome not yet reported. */
  function HeldEmails(d: Disk): set<string> {
    (set id | id in d.messages && d.messages[id].emailID != "" :: d.messages[id].emailID) +
    (set k | k in d.outcomes && Before(k, SEPARATOR) != "" :: Before(k, SEPARATOR))
  }

  /** What the node names as held is what it read in both buckets. */
  lemma HeldIsQueuedOrPending(d: Disk, e: string)
    ensures e in HeldEmails(d) <==>
              e != "" && ((exists id :: id in d.messages && d.messages[id].emailID == e) ||
                          (exists k :: k in d.outcomes && Before(k, SEPARATOR) == e))
  {
    if e != "" && exists id :: id in d.messages && d.messages[id].emailID == e {
      var id :| id in d.messages && d.messages[id].emailID == e;
      assert d.messages[id].emailID in HeldEmails(d);
    }
    if e != "" && exists k :: k in d.outcomes && Before(k, SEPARATOR) == e {
      var k :| k in d.outcomes && Before(k, SEPARATOR) == e;
      assert Before(k, SEPARATOR) in HeldEmails(d);
    }
  }

  predicate IsDue(m: Message, now: int) {
    m.nextAttempt <= now
  }

  ghost predicate OldestFirst(ms: seq<Message>) {
    forall i, j | 0 <= i < j < |ms| :: ms[i].acceptedAt <= ms[j].acceptedAt
  }

  /** `m` after everything accepted no later than it. */
  function Insert(ms: seq<Message>, m: Message): seq<Message> {
    if ms == [] || ms[|ms| - 1].acceptedAt <= m.acceptedAt then ms + [m]
    else Insert(ms[..|ms| - 1], m) + [ms[|ms| - 1]]
  }

  lemma {:induction false} InsertKeepsOrder(ms: seq<Message>, m: Message)
    requires OldestFirst(ms)
    ensures OldestFirst(Insert(ms, m)) && |Insert(ms, m)| == |ms| + 1
    ensures forall x :: x in Insert(ms, m) <==> x == m || x in ms
  {
    if ms != [] && ms[|ms| - 1].acceptedAt > m.acceptedAt {
      var front, last := ms[..|ms| - 1], ms[|ms| - 1];
      InsertKeepsOrder(front, m);
      assert ms == front + [last];
      forall x | x in Insert(front, m) ensures x.acceptedAt <= last.acceptedAt {
        if x != m {
          var i :| 0 <= i < |front| && front[i] == x;
        }
      }
    }
  }

  /** What was accepted at one moment. */
  function AcceptedAt(ms: seq<Message>, at: int): seq<Message> {
    if ms == [] then []
    else AcceptedAt(ms[..|ms| - 1], at) + (if ms[|ms| - 1].acceptedAt == at then [ms[|ms| - 1]] else [])
  }

  lemma AcceptedOneMore(ms: seq<Message>, m: Message, at: int)
    ensures AcceptedAt(ms + [m], at) == AcceptedAt(ms, at) + (if m.acceptedAt == at then [m] else [])
  {
    assert (ms + [m])[..|ms|] == ms;
  }

  /** Equals keep the order they came in. */
  lemma {:induction false} InsertIsStable(ms: seq<Message>, m: Message, at: int)
    ensures AcceptedAt(Insert(ms, m), at) == AcceptedAt(ms, at) + (if m.acceptedAt == at then [m] else [])
  {
    if ms == [] || ms[|ms| - 1].acceptedAt <= m.acceptedAt {
      AcceptedOneMore(ms, m, at);
    } else {
      var front, last := ms[..|ms| - 1], ms[|ms| - 1];
      InsertIsStable(front, m, at);
      AcceptedOneMore(Insert(front, m), last, at);
    }
  }

  lemma {:induction false} InsertKeepsDistinct(ms: seq<Message>, m: Message)
    requires OldestFirst(ms) && Distinct(ms) && m !in ms
    ensures Distinct(Insert(ms, m))
  {
    if ms != [] && ms[|ms| - 1].acceptedAt > m.acceptedAt {
      var front, last := ms[..|ms| - 1], ms[|ms| - 1];
      InsertKeepsDistinct(front, m);
      InsertKeepsOrder(front, m);
      assert ms == front + [last];
      assert last !in Insert(front, m);
    }
  }

  /** What a cut leaves out is no older than what it keeps. */
  lemma CutKeepsOldest(ms: seq<Message>, limit: nat)
    requires OldestFirst(ms) && Distinct(ms) && limit <= |ms|
    ensures OldestFirst(ms[..limit]) && Distinct(ms[..limit])
    ensures forall m | m in ms[..limit] :: m in ms
    ensures forall m, n | m in ms && m !in ms[..limit] && n in ms[..limit] :: n.acceptedAt <= m.acceptedAt
  {
    assert forall k | 0 <= k < limit :: ms[k] in ms[..limit];
    forall m, n | m in ms && m !in ms[..limit] && n in ms[..limit] ensures n.acceptedAt <= m.acceptedAt {
      var i :| 0 <= i < |ms| && ms[i] == m;
      var j :| 0 <= j < limit && ms[..limit][j] == n;
      assert ms[j] == n;
    }
  }

  /** The files of `all` a sweep removes, but for those still listed. */
  function Strays(all: set<string>, listed: set<string>, known: set<string>, stuck: set<string>): set<string> {
    all - listed - known - stuck
  }

  lemma StrayStep(all: set<string>, listed: set<string>, known: set<string>, stuck: set<string>, id: string)
    requires listed <= all && id in listed
    ensures id !in Strays(all, listed, known, stuck)
    ensures Strays(all, listed - {id}, known, stuck) ==
            Strays(all, listed, known, stuck) + (if id in known || id in stuck then {} else {id})
  {
  }

  lemma MinusTwice<V>(m: map<string, V>, a: set<string>, b: set<string>)
    ensures (m - a) - b == m - (a + b)
  {
  }

  class Spool {
    var messages: map<string, Message>
    var outcomes: map<string, Outcome>
    var inbound: map<string, Received>
    var bodies: map<string, Bytes>
    var received: map<string, Bytes>

    /** Every durable step since the spool was opened, in the order they were taken.
        What a crash leaves is the replay of some beginning of it. */
    ghost var log: seq<Write>

    function Now(): Disk
      reads this
    {
      Disk(messages, outcomes, inbound, bodies, received)
    }

    ghost predicate Valid()
      reads this
    {
      Keyed(Now())
    }

    /** Opening a spool finds what the last process left. */
    constructor (found: Disk)
      requires Keyed(found)
      ensures Valid() && Now() == found && log == []
    {
      messages, outcomes, inbound := found.messages, found.outcomes, found.inbound;
      bodies, received := found.bodies, found.received;
      log := [];
    }

    /** One transaction or file call. */
    method Step(w: Write)
      requires Valid()
      modifies this
      ensures Valid() && Now() == Apply(old(Now()), w) && log == old(log) + [w]
    {
      match w {
        case WriteBody(id, body) => bodies := bodies[id := body];
        case CommitEntry(m, _) => messages := messages[m.id := m];
        case UpdateEntry(m) => messages := messages[m.id := m];
        case DeleteEntry(id) => messages := messages - {id};
        case RemoveBody(id) => bodies := bodies - {id};
        case PutOutcome(o) => outcomes := outcomes[Key(o.Of()) := o];
        case DeleteOutcomes(keys) => outcomes := outcomes - keys;
        case WriteReceived(id, body) => received := received[id := body];
        case CommitInbound(r, _) => inbound := inbound[r.id := r];
        case UpdateInbound(r) => inbound := inbound[r.id := r];
        case DeleteInbound(id) => inbound := inbound - {id};
        case RemoveReceived(id) => received := received - {id};
      }
      log := log + [w];
    }

    /** Writes the bytes first and the metadata second. */
    method Put(m: Message, body: Bytes, fileOk: bool, dbOk: bool) returns (ok: bool)
      requires Valid()
      modifies this
      ensures Valid() && ok == (fileOk && dbOk)
      ensures log == old(log) + PutWrites(m, body, fileOk, dbOk)
      ensures Now() == Replay(old(Now()), PutWrites(m, body, fileOk, dbOk))
      ensures ok ==> messages == old(messages)[m.id := m.(size := |body|)] && bodies == old(bodies)[m.id := body]
      ensures !ok ==> messages == old(messages) && bodies == if fileOk then old(bodies) - {m.id} else old(bodies)
      ensures outcomes == old(outcomes) && inbound == old(inbound) && received == old(received)
    {
      if !fileOk {
        return false;
      }
      Step(WriteBody(m.id, body));
      if !dbOk {
        Step(RemoveBody(m.id));
        ReplayTwo(old(Now()), WriteBody(m.id, body), RemoveBody(m.id));
        return false;
      }
      Step(CommitEntry(m.(size := |body|), body));
      ReplayTwo(old(Now()), WriteBody(m.id, body), CommitEntry(m.(size := |body|), body));
      return true;
    }

    method PutReceived(r: Received, body: Bytes, fileOk: bool, dbOk: bool) returns (ok: bool)
      requires Valid()
      modifies this
      ensures Valid() && ok == (fileOk && dbOk)
      ensures log == old(log) + PutReceivedWrites(r, body, fileOk, dbOk)
      ensures Now() == Replay(old(Now()), PutReceivedWrites(r, body, fileOk, dbOk))
      ensures ok ==> inbound == old(inbound)[r.id := r.(size := |body|)] && received == old(received)[r.id := body]
      ensures !ok ==> inbound == old(inbound) && received == if fileOk then old(received) - {r.id} else old(received)
      ensures outcomes == old(outcomes) && messages == old(messages) && bodies == old(bodies)
    {
      if !fileOk {
        return false;
      }
      Step(WriteReceived(r.id, body));
      if !dbOk {
        Step(RemoveReceived(r.id));
        ReplayTwo(old(Now()), WriteReceived(r.id, body), RemoveReceived(r.id));
        return false;
      }
      Step(CommitInbound(r.(size := |body|), body));
      ReplayTwo(old(Now()), WriteReceived(r.id, body), CommitInbound(r.(size := |body|), body));
      return true;
    }

    /** Deletes a message, metadata first. */
    method Remove(id: string)
      requires Valid()
      modifies this
      ensures Valid() && log == old(log) + RemoveWrites(id)
      ensures Now() == old(Now()).(messages := old(messages) - {id}, bodies := old(bodies) - {id})
    {
      Step(DeleteEntry(id));
      Step(RemoveBody(id));
    }

    method RemoveInbound(id: string)
      requires Valid()
      modifies this
      ensures Valid() && log == old(log) + RemoveReceivedWrites(id)
      ensures Now() == old(Now()).(inbound := old(inbound) - {id}, received := old(received) - {id})
    {
      Step(DeleteInbound(id));
      Step(RemoveReceived(id));
    }

    /** Messages ready to attempt, oldest first, up to `limit`; the ones left out are no
        older than the ones taken. */
    method Due(now: int, limit: nat) returns (out: seq<Message>)
      requires Valid()
      ensures Distinct(out) && forall i, j | 0 <= i < j < |out| :: out[i].acceptedAt <= out[j].acceptedAt
      ensures forall m | m in out :: m.id in messages && messages[m.id] == m && m.nextAttempt <= now
      ensures limit > 0 ==> |out| <= limit
      ensures forall id | id in messages && messages[id].nextAttempt <= now && messages[id] !in out ::
                limit > 0 && |out| == limit && forall m | m in out :: m.acceptedAt <= messages[id].acceptedAt
    {
      out := [];
      var left := messages.Keys;
      while left != {}
        invariant left <= messages.Keys
        invariant OldestFirst(out) && Distinct(out)
        invariant forall m | m in out :: m.id in messages && m.id !in left && messages[m.id] == m && IsDue(m, now)
        invariant forall id | id in messages && id !in left && IsDue(messages[id], now) :: messages[id] in out
        decreases left
      {
        var id :| id in left;
        left := left - {id};
        if IsDue(messages[id], now) {
          InsertKeepsOrder(out, messages[id]);
          InsertKeepsDistinct(out, messages[id]);
          out := Insert(out, messages[id]);
        }
      }
      if 0 < limit < |out| {
        CutKeepsOldest(out, limit);
        out := out[..limit];
      }
    }

    method All() returns (out: seq<Message>)
      requires Valid()
      ensures Distinct(out) && forall i, j | 0 <= i < j < |out| :: out[i].acceptedAt <= out[j].acceptedAt
      ensures forall m :: m in out <==> m.id in messages && messages[m.id] == m
    {
      out := [];
      var left := messages.Keys;
      while left != {}
        invariant left <= messages.Keys
        invariant OldestFirst(out) && Distinct(out)
        invariant forall m | m in out :: m.id in messages && m.id !in left && messages[m.id] == m
        invariant forall id | id in messages && id !in left :: messages[id] in out
        decreases left
      {
        var id :| id in left;
        left := left - {id};
        InsertKeepsOrder(out, messages[id]);
        InsertKeepsDistinct(out, messages[id]);
        out := Insert(out, messages[id]);
      }
    }

    /** The distinct email ids the node tells the platform it still holds, both buckets
        read together. */
    method EmailIDs() returns (out: seq<string>)
      requires Valid()
      ensures Distinct(out)
      ensures forall e :: e in out <==>
                e != "" && ((exists id :: id in messages && messages[id].emailID == e) ||
                            (exists k :: k in outcomes && Before(k, SEPARATOR) == e))
    {
      var seen: set<string> := {};
      out := [];
      var left := messages.Keys;
      while left != {}
        invariant left <= messages.Keys && Distinct(out)
        invariant forall e :: e in seen <==> e in out
        invariant forall e :: e in out <==>
                  exists id :: id in messages && id !in left && messages[id].emailID == e && e != ""
        decreases left
      {
        var id :| id in left;
        left := left - {id};
        var e := messages[id].emailID;
        if e != "" && e !in seen {
          seen := seen + {e};
          out := out + [e];
        }
      }
      ghost var queued := out;
      var keys := outcomes.Keys;
      while keys != {}
        invariant keys <= outcomes.Keys && Distinct(out)
        invariant forall e :: e in seen <==> e in out
        invariant forall e :: e in out <==>
                  e in queued || exists k :: k in outcomes && k !in keys && Before(k, SEPARATOR) == e && e != ""
        decreases keys
      {
        var k :| k in keys;
        keys := keys - {k};
        var e := Before(k, SEPARATOR);
        if e != "" && e !in seen {
          seen := seen + {e};
          out := out + [e];
        }
      }
    }

    /** Up to `limit` pending outcomes with their keys. */
    method Outcomes(limit: nat) returns (keys: seq<string>, rows: seq<Outcome>)
      requires Valid()
      ensures |keys| == |rows| && Distinct(keys)
      ensures forall i | 0 <= i < |keys| :: keys[i] in outcomes && outcomes[keys[i]] == rows[i]
      ensures if limit > 0 && |outcomes| > limit then |keys| == limit else forall k :: k in outcomes ==> k in keys
    {
      keys, rows := [], [];
      var left := outcomes.Keys;
      assert |outcomes| == |outcomes.Keys|;
      while left != {} && (limit == 0 || |keys| < limit)
        invariant left <= outcomes.Keys && |keys| == |rows| && Distinct(keys)
        invariant forall k :: k in keys <==> k in outcomes && k !in left
        invariant forall i | 0 <= i < |keys| :: keys[i] in outcomes && outcomes[keys[i]] == rows[i]
        invariant |keys| + |left| == |outcomes| && (limit == 0 || |keys| <= limit)
        decreases left
      {
        var k :| k in left;
        left := left - {k};
        keys, rows := keys + [k], rows + [outcomes[k]];
      }
      if |outcomes| <= limit || limit == 0 {
        assert left == {};
      }
    }

    method UnlinkBody(id: string)
      modifies `bodies, `log
      ensures bodies == old(bodies) - {id} && log == old(log) + [RemoveBody(id)]
    {
      bodies := bodies - {id};
      log := log + [RemoveBody(id)];
    }

    method UnlinkReceived(id: string)
      modifies `received, `log
      ensures received == old(received) - {id} && log == old(log) + [RemoveReceived(id)]
    {
      received := received - {id};
      log := log + [RemoveReceived(id)];
    }

    /** Removes body files with no queue entry, one file at a time; `stuck` are the files
        the system refuses to remove. */
    method SweepBodies(stuck: set<string>)
      modifies `bodies, `log
      ensures bodies == old(bodies) - (old(bodies).Keys - messages.Keys - stuck)
    {
      var known := messages.Keys;
      var listed := bodies.Keys;
      ghost var gone: set<string> := {};
      while listed != {}
        invariant listed <= old(bodies).Keys && gone == Strays(old(bodies).Keys, listed, known, stuck)
        invariant bodies == old(bodies) - gone
        decreases listed
      {
        var id :| id in listed;
        StrayStep(old(bodies).Keys, listed, known, stuck, id);
        listed := listed - {id};
        if id !in known && id !in stuck {
          MinusTwice(old(bodies), gone, {id});
          UnlinkBody(id);
          gone := gone + {id};
        }
      }
    }

    method SweepReceived(stuck: set<string>)
      modifies `received, `log
      ensures received == old(received) - (old(received).Keys - inbound.Keys - stuck)
    {
      var known := inbound.Keys;
      var listed := received.Keys;
      ghost var gone: set<string> := {};
      while listed != {}
        invariant listed <= old(received).Keys && gone == Strays(old(received).Keys, listed, known, stuck)
        invariant received == old(received) - gone
        decreases listed
      {
        var id :| id in listed;
        StrayStep(old(received).Keys, listed, known, stuck, id);
        listed := listed - {id};
        if id !in known && id !in stuck {
          MinusTwice(old(received), gone, {id});
          UnlinkReceived(id);
          gone := gone + {id};
        }
      }
    }

    /** Each directory against its own bucket. When every entry has its bytes and nothing
        is stuck, each directory ends up equal to its bucket. */
    method SweepOrphans(stuck: set<string>)
      requires Valid()
      modifies this
      ensures Valid() && messages == old(messages) && outcomes == old(outcomes) && inbound == old(inbound)
      ensures bodies == old(bodies) - (old(bodies).Keys - messages.Keys - stuck)
      ensures received == old(received) - (old(received).Keys - inbound.Keys - stuck)
      ensures stuck == {} && messages.Keys <= old(bodies).Keys ==> bodies.Keys == messages.Keys
      ensures stuck == {} && inbound.Keys <= old(received).Keys ==> received.Keys == inbound.Keys
    {
      SweepBodies(stuck);
      SweepReceived(stuck);
    }
  }
}
