/** What a relay node keeps on disk, and the single durable steps that change it.

    Every operation on the queue is a sequence of such steps. A step is one bolt
    transaction or one file call: it happens whole or not at all, and the node can stop
    between any two of them. */
module DurableSteps {
  import opened Names

  newtype byte = x: int | 0 <= x < 256
  type Bytes = seq<byte>

  /** One accepted message awaiting delivery to one recipient domain. Times are
      nanoseconds. */
  datatype Message = Message(id: string, emailID: string, envelopeFrom: string, domain: string,
                             recipients: seq<string>, attempts: nat,
                             acceptedAt: int, nextAttempt: int, size: nat)

  /** One message the node's own MX accepted, waiting to be forwarded. */
  datatype Received = Received(id: string, envelopeFrom: string, recipients: seq<string>,
                               clientIP: string, helo: string, attempts: nat,
                               receivedAt: int, nextAttempt: int, size: nat)

  /** One terminal result for one recipient. */
  datatype Outcome = Outcome(emailID: string, recipient: string, delivered: bool, permanent: bool)
  {
    function Of(): Pair { Pair(emailID, recipient) }
  }

  datatype Disk = Disk(messages: map<string, Message>,
                       outcomes: map<string, Outcome>,
                       inbound: map<string, Received>,
                       bodies: map<string, Bytes>,
                       received: map<string, Bytes>)

  const EMPTY := Disk(map[], map[], map[], map[], map[])

  /** One durable step. The two puts of a queue entry are told apart: `CommitEntry`
      accepts a message, `UpdateEntry` stores a changed one. */
  datatype Write =
    | WriteBody(id: string, body: Bytes)
    | CommitEntry(m: Message, accepted: Bytes)
    | UpdateEntry(m: Message)
    | DeleteEntry(id: string)
    | RemoveBody(id: string)
    | PutOutcome(o: Outcome)
    | DeleteOutcomes(keys: set<string>)
    | WriteReceived(id: string, body: Bytes)
    | CommitInbound(r: Received, accepted: Bytes)
    | UpdateInbound(r: Received)
    | DeleteInbound(id: string)
    | RemoveReceived(id: string)

  function Apply(d: Disk, w: Write): Disk {
    match w
    case WriteBody(id, body) => d.(bodies := d.bodies[id := body])
    case CommitEntry(m, _) => d.(messages := d.messages[m.id := m])
    case UpdateEntry(m) => d.(messages := d.messages[m.id := m])
    case DeleteEntry(id) => d.(messages := d.messages - {id})
    case RemoveBody(id) => d.(bodies := d.bodies - {id})
    case PutOutcome(o) => d.(outcomes := d.outcomes[Key(o.Of()) := o])
    case DeleteOutcomes(keys) => d.(outcomes := d.outcomes - keys)
    case WriteReceived(id, body) => d.(received := d.received[id := body])
    case CommitInbound(r, _) => d.(inbound := d.inbound[r.id := r])
    case UpdateInbound(r) => d.(inbound := d.inbound[r.id := r])
    case DeleteInbound(id) => d.(inbound := d.inbound - {id})
    case RemoveReceived(id) => d.(received := d.received - {id})
  }

  function Replay(d: Disk, ws: seq<Write>): Disk
    decreases |ws|
  {
    if ws == [] then d else Replay(Apply(d, ws[0]), ws[1..])
  }

  lemma {:induction false} ReplayAppend(d: Disk, a: seq<Write>, b: seq<Write>)
    ensures Replay(d, a + b) == Replay(Replay(d, a), b)
    decreases |a|
  {
    if a == [] {
      assert a + b == b;
    } else {
      ReplayAppend(Apply(d, a[0]), a[1..], b);
      assert (a + b)[1..] == a[1..] + b;
    }
  }

  lemma ReplayMore(d: Disk, ws: seq<Write>, w: Write)
    ensures Replay(d, ws + [w]) == Apply(Replay(d, ws), w)
  {
    ReplayAppend(d, ws, [w]);
    var e := Replay(d, ws);
    assert [w][1..] == [];
    assert Replay(e, [w]) == Replay(Apply(e, w), []);
  }

  lemma ReplayTwo(d: Disk, v: Write, w: Write)
    ensures Replay(d, [v, w]) == Apply(Apply(d, v), w)
  {
    assert [v, w][1..] == [w];
    assert Replay(Apply(d, v), [w]) == Replay(Apply(Apply(d, v), w), []);
  }

  // ---- the step sequence of each operation ----

  /** Bytes first, entry second. A failed put of the entry takes the bytes back. */
  function PutWrites(m: Message, body: Bytes, fileOk: bool, dbOk: bool): seq<Write> {
    if !fileOk then []
    else if !dbOk then [WriteBody(m.id, body), RemoveBody(m.id)]
    else [WriteBody(m.id, body), CommitEntry(m.(size := |body|), body)]
  }

  /** The mirror of a put: entry first, bytes second. */
  function RemoveWrites(id: string): seq<Write> {
    [DeleteEntry(id), RemoveBody(id)]
  }

  function PutReceivedWrites(r: Received, body: Bytes, fileOk: bool, dbOk: bool): seq<Write> {
    if !fileOk then []
    else if !dbOk then [WriteReceived(r.id, body), RemoveReceived(r.id)]
    else [WriteReceived(r.id, body), CommitInbound(r.(size := |body|), body)]
  }

  function RemoveReceivedWrites(id: string): seq<Write> {
    [DeleteInbound(id), RemoveReceived(id)]
  }

  /** One outcome row per recipient, none for a message that names no email. */
  function OutcomeWrites(emailID: string, rcpts: seq<string>, delivered: bool, permanent: bool): (ws: seq<Write>)
    ensures emailID == "" ==> ws == []
    ensures emailID != "" ==> |ws| == |rcpts|
    ensures emailID != "" ==> forall i | 0 <= i < |ws| ::
              ws[i] == PutOutcome(Outcome(emailID, rcpts[i], delivered, permanent))
  {
    if emailID == "" || rcpts == [] then []
    else [PutOutcome(Outcome(emailID, rcpts[0], delivered, permanent))] +
         OutcomeWrites(emailID, rcpts[1..], delivered, permanent)
  }

  /** Every remaining recipient reported, then the message dropped. */
  function GiveUpWrites(m: Message, permanent: bool): seq<Write> {
    OutcomeWrites(m.emailID, m.recipients, false, permanent) + RemoveWrites(m.id)
  }

  /** The expired ones given up one after another: time ran out, so not for good. */
  function SweepWrites(gone: seq<Message>): seq<Write> {
    if gone == [] then [] else GiveUpWrites(gone[0], false) + SweepWrites(gone[1..])
  }

  // ---- what the operations leave on disk ----

  /** Only the rows of these recipients change, and say what was told of them. */
  ghost predicate Told(d: Disk, d': Disk, emailID: string, rcpts: seq<string>, delivered: bool, permanent: bool) {
    && d' == d.(outcomes := d'.outcomes)
    && (emailID != "" ==> forall r | r in rcpts ::
          OutcomeKey(emailID, r) in d'.outcomes && d'.outcomes[OutcomeKey(emailID, r)] == Outcome(emailID, r, delivered, permanent))
    && forall k | emailID == "" || forall r | r in rcpts :: k != OutcomeKey(emailID, r) ::
         (k in d'.outcomes <==> k in d.outcomes) && (k in d.outcomes ==> d'.outcomes[k] == d.outcomes[k])
  }

  lemma SameRecipient(emailID: string, q: string, r: string)
    ensures OutcomeKey(emailID, q) == OutcomeKey(emailID, r) <==> q == r
  {
    assert OutcomeKey(emailID, q)[|emailID| + 1..] == q && OutcomeKey(emailID, r)[|emailID| + 1..] == r;
  }

  lemma {:induction false} OutcomesTold(d: Disk, emailID: string, rcpts: seq<string>, delivered: bool, permanent: bool)
    ensures Told(d, Replay(d, OutcomeWrites(emailID, rcpts, delivered, permanent)), emailID, rcpts, delivered, permanent)
    decreases |rcpts|
  {
    if emailID != "" && rcpts != [] {
      var w := PutOutcome(Outcome(emailID, rcpts[0], delivered, permanent));
      var ws := OutcomeWrites(emailID, rcpts, delivered, permanent);
      assert ws[0] == w && ws[1..] == OutcomeWrites(emailID, rcpts[1..], delivered, permanent);
      OutcomesTold(Apply(d, w), emailID, rcpts[1..], delivered, permanent);
      forall r ensures OutcomeKey(emailID, r) == OutcomeKey(emailID, rcpts[0]) <==> r == rcpts[0] {
        SameRecipient(emailID, r, rcpts[0]);
      }
      ToldOneMore(d, Apply(d, w), Replay(Apply(d, w), ws[1..]), emailID, rcpts, delivered, permanent);
    }
  }

  lemma ToldOneMore(d: Disk, d1: Disk, d': Disk, emailID: string, rcpts: seq<string>, delivered: bool, permanent: bool)
    requires rcpts != [] && emailID != "" && Told(d1, d', emailID, rcpts[1..], delivered, permanent)
    requires d1 == Apply(d, PutOutcome(Outcome(emailID, rcpts[0], delivered, permanent)))
    requires forall r :: OutcomeKey(emailID, r) == OutcomeKey(emailID, rcpts[0]) <==> r == rcpts[0]
    ensures Told(d, d', emailID, rcpts, delivered, permanent)
  {
    forall r | r in rcpts
      ensures OutcomeKey(emailID, r) in d'.outcomes
      ensures d'.outcomes[OutcomeKey(emailID, r)] == Outcome(emailID, r, delivered, permanent)
    {
      if r !in rcpts[1..] {
        forall q | q in rcpts[1..] ensures OutcomeKey(emailID, r) != OutcomeKey(emailID, q) { SameRecipient(emailID, q, r); }
        assert OutcomeKey(emailID, r) in d1.outcomes;
      }
    }
    forall k | forall r | r in rcpts :: k != OutcomeKey(emailID, r)
      ensures (k in d'.outcomes <==> k in d.outcomes) && (k in d.outcomes ==> d'.outcomes[k] == d.outcomes[k])
    {
      assert k != OutcomeKey(emailID, rcpts[0]);
      assert forall r | r in rcpts[1..] :: k != OutcomeKey(emailID, r);
      assert k in d1.outcomes <==> k in d.outcomes;
    }
  }

  /** A given-up message leaves nothing behind but the failures of all its recipients. */
  lemma GivenUpOnDisk(d: Disk, m: Message, permanent: bool)
    ensures var d' := Replay(d, GiveUpWrites(m, permanent));
            && d'.messages == d.messages - {m.id} && d'.bodies == d.bodies - {m.id}
            && Told(d, d'.(messages := d.messages, bodies := d.bodies), m.emailID, m.recipients, false, permanent)
  {
    var told := OutcomeWrites(m.emailID, m.recipients, false, permanent);
    OutcomesTold(d, m.emailID, m.recipients, false, permanent);
    ReplayAppend(d, told, [DeleteEntry(m.id), RemoveBody(m.id)]);
    ReplayTwo(Replay(d, told), DeleteEntry(m.id), RemoveBody(m.id));
  }
}
