/** Draining the spool into the internet: one attempt, what it writes down, and the
    passes that make attempts. */
module Delivery {
  import opened Names
  import opened Sequences
  import opened DurableSteps
  import opened SpoolFiles
  import Backoff

  /** What a peer says to one RCPT: taken, come back later, or a permanent refusal. */
  datatype Verdict = Taken | Later | Refused

  /** What one SMTP conversation leaves. `rejected` maps an address to whether its refusal
      is permanent. */
  datatype Conversation = Conversation(accepted: seq<string>, rejected: map<string, bool>)

  /** The RCPT loop of a conversation: one verdict per address handed over, in order. */
  function Converse(to: seq<string>, verdicts: seq<Verdict>): Conversation
    requires |verdicts| == |to|
  {
    if to == [] then Conversation([], map[])
    else
      var n := |to| - 1;
      var c := Converse(to[..n], verdicts[..n]);
      match verdicts[n]
      case Taken => c.(accepted := c.accepted + [to[n]])
      case Later => c.(rejected := c.rejected[to[n] := false])
      case Refused => c.(rejected := c.rejected[to[n] := true])
  }

  /** Every address handed over comes back accepted or rejected, and no other does. */
  lemma {:induction false} EveryAddressAnswered(to: seq<string>, verdicts: seq<Verdict>)
    requires |verdicts| == |to|
    ensures var c := Converse(to, verdicts);
            forall r :: r in to <==> r in c.accepted || r in c.rejected
  {
    if to != [] {
      var n := |to| - 1;
      EveryAddressAnswered(to[..n], verdicts[..n]);
      assert to == to[..n] + [to[n]];
    }
  }

  lemma {:induction false} AnswerOfPosition(to: seq<string>, verdicts: seq<Verdict>, i: nat)
    requires |verdicts| == |to| && i < |to|
    ensures verdicts[i] == Taken ==> to[i] in Converse(to, verdicts).accepted
    ensures verdicts[i] != Taken ==> to[i] in Converse(to, verdicts).rejected
  {
    if i < |to| - 1 {
      AnswerOfPosition(to[..|to| - 1], verdicts[..|to| - 1], i);
    }
  }

  /** A refusal is for good exactly when the peer's last word on that address, taken verdicts
      aside, was a permanent one. */
  lemma {:induction false} LastRefusalDecides(to: seq<string>, verdicts: seq<Verdict>, i: nat)
    requires |verdicts| == |to| && i < |to| && !verdicts[i].Taken?
    requires forall j | i < j < |to| && to[j] == to[i] :: verdicts[j].Taken?
    ensures to[i] in Converse(to, verdicts).rejected
    ensures Converse(to, verdicts).rejected[to[i]] == verdicts[i].Refused?
  {
    var n := |to| - 1;
    if i < n { LastRefusalDecides(to[..n], verdicts[..n], i); }
  }

  lemma {:induction false} PositionOfAnswer(to: seq<string>, verdicts: seq<Verdict>, r: string)
    requires |verdicts| == |to|
    ensures r in Converse(to, verdicts).accepted ==> exists i :: 0 <= i < |to| && to[i] == r && verdicts[i] == Taken
    ensures r in Converse(to, verdicts).rejected ==> exists i :: 0 <= i < |to| && to[i] == r && verdicts[i] != Taken
  {
    if to != [] {
      PositionOfAnswer(to[..|to| - 1], verdicts[..|to| - 1], r);
    }
  }

  /** What an attempt learns: the resolver's or the exchangers' refusal of the whole
      message, or a conversation. `order` is the order the rejected addresses are walked
      in, which a Go map leaves open. */
  datatype Answer =
    | NoSuchDomain
    | Unresolved
    | RefusedOutright
    | SendFailed
    | Answered(verdicts: seq<Verdict>, order: seq<string>)

  ghost predicate ValidAnswer(m: Message, a: Answer) {
    a.Answered? ==>
      && |a.verdicts| == |m.recipients|
      && Distinct(a.order)
      && forall r :: r in a.order <==> r in Converse(m.recipients, a.verdicts).rejected
  }

  /** The addresses of `order` whose refusal is, or is not, permanent. */
  function Pick(rejected: map<string, bool>, order: seq<string>, permanent: bool): seq<string>
    requires forall r | r in order :: r in rejected
  {
    if order == [] then []
    else (if rejected[order[0]] == permanent then [order[0]] else []) + Pick(rejected, order[1..], permanent)
  }

  lemma {:induction false} PickMember(rejected: map<string, bool>, order: seq<string>, permanent: bool, r: string)
    requires forall x | x in order :: x in rejected
    ensures r in Pick(rejected, order, permanent) <==> r in order && rejected[r] == permanent
  {
    if order != [] {
      PickMember(rejected, order[1..], permanent, r);
      assert order == [order[0]] + order[1..];
    }
  }

  lemma {:induction false} PickExtend(rejected: map<string, bool>, order: seq<string>, r: string, permanent: bool)
    requires forall x | x in order + [r] :: x in rejected
    requires forall x | x in order :: x in rejected
    requires r in rejected
    ensures Pick(rejected, order + [r], permanent) ==
            Pick(rejected, order, permanent) + (if rejected[r] == permanent then [r] else [])
  {
    if order != [] {
      assert (order + [r])[1..] == order[1..] + [r];
      forall x | x in order[1..] + [r] ensures x in rejected {
        assert x in order + [r];
      }
      PickExtend(rejected, order[1..], r, permanent);
    } else {
      assert order + [r] == [r];
      assert Pick(rejected, [], permanent) == [];
    }
  }

  /** The recipients a conversation leaves to be retried. */
  function Retry(m: Message, a: Answer): seq<string>
    requires a.Answered? && ValidAnswer(m, a)
  {
    Pick(Converse(m.recipients, a.verdicts).rejected, a.order, false)
  }

  function Refusals(m: Message, a: Answer): seq<string>
    requires a.Answered? && ValidAnswer(m, a)
  {
    Pick(Converse(m.recipients, a.verdicts).rejected, a.order, true)
  }

  /** What an answer writes. `m` already counts this attempt, `expired` is whether the
      lifetime has passed and `next` when the following attempt is due. */
  function AnswerWrites(m: Message, a: Answer, expired: bool, next: int): seq<Write>
    requires ValidAnswer(m, a)
  {
    match a
    case NoSuchDomain => GiveUpWrites(m, !expired)
    case RefusedOutright => GiveUpWrites(m, !expired)
    case Unresolved => [UpdateEntry(m.(nextAttempt := next))]
    case SendFailed => [UpdateEntry(m.(nextAttempt := next))]
    case Answered(verdicts, order) =>
      OutcomeWrites(m.emailID, Converse(m.recipients, verdicts).accepted, true, false) +
      OutcomeWrites(m.emailID, Refusals(m, a), false, true) +
      Rest(m, Retry(m, a), next)
  }

  /** The end of an answered attempt: nothing left, or the rest to be retried. */
  function Rest(m: Message, retry: seq<string>, next: int): seq<Write> {
    if retry == [] then RemoveWrites(m.id) else [UpdateEntry(m.(recipients := retry, nextAttempt := next))]
  }

  /** One conversation can both accept an address and leave it to be retried exactly when
      the entry names an address twice: the retry list is then not disjoint from what was
      delivered. An entry whose recipients are distinct never delivers one twice. */
  lemma RetryAvoidsAcceptedExactly(m: Message)
    ensures Distinct(m.recipients) <==>
            forall a: Answer, r: string | a.Answered? && ValidAnswer(m, a) && r in Retry(m, a) ::
              r !in Converse(m.recipients, a.verdicts).accepted
  {
    if Distinct(m.recipients) {
      forall a: Answer, r: string | a.Answered? && ValidAnswer(m, a) && r in Retry(m, a)
        ensures r !in Converse(m.recipients, a.verdicts).accepted
      {
        RetryAvoidsAccepted(m, a, r);
      }
    } else {
      var i, j :| 0 <= i < j < |m.recipients| && m.recipients[i] == m.recipients[j];
      var a := AcceptThenDefer(m, i, j);
      assert m.recipients[i] in Retry(m, a);
    }
  }

  lemma RetryAvoidsAccepted(m: Message, a: Answer, r: string)
    requires Distinct(m.recipients)
    requires a.Answered? && ValidAnswer(m, a) && r in Retry(m, a)
    ensures r in m.recipients && r !in Converse(m.recipients, a.verdicts).accepted
  {
    var c := Converse(m.recipients, a.verdicts);
    PickMember(c.rejected, a.order, false, r);
    PositionOfAnswer(m.recipients, a.verdicts, r);
  }

  /** An address named at two places, taken at the first and deferred at the second. */
  lemma AcceptThenDefer(m: Message, i: nat, j: nat) returns (a: Answer)
    requires i < j < |m.recipients| && m.recipients[i] == m.recipients[j]
    ensures a.Answered? && ValidAnswer(m, a) && m.recipients[i] in Retry(m, a)
    ensures m.recipients[i] in Converse(m.recipients, a.verdicts).accepted
  {
    var verdicts := seq(|m.recipients|, k => if k == j then Later else Taken);
    var c := Converse(m.recipients, verdicts);
    AnswerOfPosition(m.recipients, verdicts, i);
    OnlyDeferred(m.recipients, verdicts, j);
    a := Answered(verdicts, [m.recipients[j]]);
    PickMember(c.rejected, a.order, false, m.recipients[j]);
  }

  lemma {:induction false} OnlyDeferred(to: seq<string>, verdicts: seq<Verdict>, j: nat)
    requires |verdicts| == |to| && forall k | 0 <= k < |to| :: verdicts[k] == if k == j then Later else Taken
    ensures Converse(to, verdicts).rejected == if j < |to| then map[to[j] := false] else map[]
  {
    if to != [] {
      OnlyDeferred(to[..|to| - 1], verdicts[..|to| - 1], j);
    }
  }

  // ---- what an answer leaves on disk ----

  /** The five answers, by what is on disk once their steps are taken. A refusal of the whole
      message leaves nothing of it but failures; what may pass keeps it whole, due later;
      and of a conversation everybody is written down but those to be retried, who are all
      the entry still names. */
  lemma AnswerOnDisk(d: Disk, m: Message, a: Answer, expired: bool, next: int)
    requires ValidAnswer(m, a)
    ensures var d' := Replay(d, AnswerWrites(m, a, expired, next));
            && (a.NoSuchDomain? || a.RefusedOutright? ==>
                  && d'.messages == d.messages - {m.id} && d'.bodies == d.bodies - {m.id}
                  && Told(d, d'.(messages := d.messages, bodies := d.bodies), m.emailID, m.recipients, false, !expired))
            && (a.Unresolved? || a.SendFailed? ==> d' == d.(messages := d.messages[m.id := m.(nextAttempt := next)]))
            && (a.Answered? ==>
                  && (if Retry(m, a) == [] then d'.messages == d.messages - {m.id} && d'.bodies == d.bodies - {m.id}
                      else d'.messages == d.messages[m.id := m.(recipients := Retry(m, a), nextAttempt := next)] &&
                           d'.bodies == d.bodies)
                  && d'.inbound == d.inbound && d'.received == d.received
                  && exists told :: Told(d, told, m.emailID, Converse(m.recipients, a.verdicts).accepted, true, false) &&
                       Told(told, d'.(messages := told.messages, bodies := told.bodies), m.emailID, Refusals(m, a), false, true))
  {
    match a {
      case NoSuchDomain => GivenUpOnDisk(d, m, !expired);
      case RefusedOutright => GivenUpOnDisk(d, m, !expired);
      case Unresolved => ReplayMore(d, [], UpdateEntry(m.(nextAttempt := next)));
      case SendFailed => ReplayMore(d, [], UpdateEntry(m.(nextAttempt := next)));
      case Answered(verdicts, _) => ConversationOnDisk(d, m, a, expired, next);
    }
  }

  lemma ConversationOnDisk(d: Disk, m: Message, a: Answer, expired: bool, next: int)
    requires a.Answered? && ValidAnswer(m, a)
    ensures var d1 := Replay(d, OutcomeWrites(m.emailID, Converse(m.recipients, a.verdicts).accepted, true, false));
            var d2 := Replay(d1, OutcomeWrites(m.emailID, Refusals(m, a), false, true));
            && Told(d, d1, m.emailID, Converse(m.recipients, a.verdicts).accepted, true, false)
            && Told(d1, d2, m.emailID, Refusals(m, a), false, true)
            && Replay(d, AnswerWrites(m, a, expired, next)) ==
               if Retry(m, a) == [] then d2.(messages := d2.messages - {m.id}, bodies := d2.bodies - {m.id})
               else d2.(messages := d2.messages[m.id := m.(recipients := Retry(m, a), nextAttempt := next)])
  {
    var accepted, refused := Converse(m.recipients, a.verdicts).accepted, Refusals(m, a);
    var first, second := OutcomeWrites(m.emailID, accepted, true, false), OutcomeWrites(m.emailID, refused, false, true);
    var d1 := Replay(d, first);
    OutcomesTold(d, m.emailID, accepted, true, false);
    OutcomesTold(d1, m.emailID, refused, false, true);
    ReplayAppend(d, first, second);
    ReplayAppend(d, first + second, Rest(m, Retry(m, a), next));
    RestOnDisk(Replay(d1, second), m, Retry(m, a), next);
  }

  lemma RestOnDisk(d: Disk, m: Message, retry: seq<string>, next: int)
    ensures Replay(d, Rest(m, retry, next)) ==
            if retry == [] then d.(messages := d.messages - {m.id}, bodies := d.bodies - {m.id})
            else d.(messages := d.messages[m.id := m.(recipients := retry, nextAttempt := next)])
  {
    if retry == [] {
      ReplayTwo(d, DeleteEntry(m.id), RemoveBody(m.id));
    } else {
      ReplayMore(d, [], UpdateEntry(m.(recipients := retry, nextAttempt := next)));
    }
  }

  // ---- the deliverer ----

  /** `lifetime` is how long a message may keep failing, for ever when it is not
      positive. */
  predicate Expired(lifetime: int, m: Message, now: int) {
    lifetime > 0 && now - m.acceptedAt > lifetime
  }

  /** The clock at the start and at the end of an attempt, and what happened between. */
  datatype Try = Try(started: int, answer: Answer, ended: int)

  /** The steps of one whole attempt on a message read as `m`. */
  function AttemptWrites(converted: nat -> int, lifetime: int, m: Message, readable: bool, t: Try): seq<Write>
    requires ValidAnswer(m, t.answer)
  {
    var n := m.(attempts := m.attempts + 1);
    if Expired(lifetime, n, t.started) || !readable then GiveUpWrites(n, !Expired(lifetime, n, t.ended))
    else AnswerWrites(n, t.answer, Expired(lifetime, n, t.ended), t.ended + Backoff.Gap(converted, n.attempts))
  }

  class Deliverer {
    const spool: Spool
    const lifetime: int
    const converted: nat -> int
    var inFlight: set<string>

    constructor (spool: Spool, lifetime: int, converted: nat -> int)
      ensures this.spool == spool && this.lifetime == lifetime && this.converted == converted && inFlight == {}
    {
      this.spool, this.lifetime, this.converted := spool, lifetime, converted;
      inFlight := {};
    }

    /** A second claim of a message in flight is refused. */
    method Claim(id: string) returns (ok: bool)
      modifies this
      ensures ok == (id !in old(inFlight)) && inFlight == old(inFlight) + {id}
    {
      if id in inFlight {
        return false;
      }
      inFlight := inFlight + {id};
      return true;
    }

    method Release(id: string)
      modifies this
      ensures inFlight == old(inFlight) - {id}
    {
      inFlight := inFlight - {id};
    }

    method ReportAll(emailID: string, rcpts: seq<string>, delivered: bool, permanent: bool)
      requires spool.Valid()
      modifies spool
      ensures spool.Valid() && spool.log == old(spool.log) + OutcomeWrites(emailID, rcpts, delivered, permanent)
      ensures spool.Now() == Replay(old(spool.Now()), OutcomeWrites(emailID, rcpts, delivered, permanent))
    {
      ghost var before, log := spool.Now(), spool.log;
      ghost var told: seq<Write> := [];
      for i := 0 to |rcpts|
        invariant spool.Valid() && told == OutcomeWrites(emailID, rcpts[..i], delivered, permanent)
        invariant spool.log == log + told && spool.Now() == Replay(before, told)
      {
        assert rcpts[..i + 1] == rcpts[..i] + [rcpts[i]];
        told := Tell(emailID, rcpts[i], delivered, permanent, log, before, rcpts[..i], told);
      }
      assert rcpts[..|rcpts|] == rcpts;
    }

    method GiveUp(m: Message, now: int)
      requires spool.Valid()
      modifies spool
      ensures spool.Valid() && spool.log == old(spool.log) + GiveUpWrites(m, !Expired(lifetime, m, now))
      ensures spool.Now() == Replay(old(spool.Now()), GiveUpWrites(m, !Expired(lifetime, m, now)))
      ensures spool.messages == old(spool.messages) - {m.id} && spool.bodies == old(spool.bodies) - {m.id}
      ensures spool.inbound == old(spool.inbound) && spool.received == old(spool.received)
      ensures m.emailID != "" ==> forall r | r in m.recipients ::
                var key := OutcomeKey(m.emailID, r);
                key in spool.outcomes && spool.outcomes[key] ==
                  Outcome(m.emailID, r, false, lifetime <= 0 || now - m.acceptedAt <= lifetime)
      ensures forall k | m.emailID == "" || forall r | r in m.recipients :: k != OutcomeKey(m.emailID, r) ::
                (k in spool.outcomes <==> k in old(spool.outcomes)) &&
                (k in spool.outcomes ==> spool.outcomes[k] == old(spool.outcomes)[k])
    {
      ghost var before := spool.Now();
      GivenUpOnDisk(before, m, !Expired(lifetime, m, now));
      var permanent := !Expired(lifetime, m, now);
      ReportAll(m.emailID, m.recipients, false, permanent);
      ghost var said := OutcomeWrites(m.emailID, m.recipients, false, permanent);
      ReplayAppend(before, said, RemoveWrites(m.id));
      ReplayTwo(Replay(before, said), DeleteEntry(m.id), RemoveBody(m.id));
      spool.Remove(m.id);
    }

    method Defer(m: Message, now: int)
      requires spool.Valid()
      modifies spool
      ensures var w := UpdateEntry(m.(nextAttempt := now + Backoff.Gap(converted, m.attempts)));
              spool.Valid() && spool.log == old(spool.log) + [w] && spool.Now() == Replay(old(spool.Now()), [w])
    {
      var w := UpdateEntry(m.(nextAttempt := now + Backoff.Gap(converted, m.attempts)));
      assert Replay(old(spool.Now()), [w]) == Replay(Apply(old(spool.Now()), w), []);
      spool.Step(w);
    }

    /** Walks the rejected addresses: a permanent refusal is reported, the rest are kept. */
    method Sort(m: Message, a: Answer) returns (retry: seq<string>)
      requires spool.Valid() && a.Answered? && ValidAnswer(m, a)
      modifies spool
      ensures spool.Valid() && retry == Retry(m, a)
      ensures spool.log == old(spool.log) + OutcomeWrites(m.emailID, Refusals(m, a), false, true)
      ensures spool.Now() == Replay(old(spool.Now()), OutcomeWrites(m.emailID, Refusals(m, a), false, true))
    {
      var rejected := Converse(m.recipients, a.verdicts).rejected;
      ghost var before, log := spool.Now(), spool.log;
      ghost var told: seq<Write> := [];
      retry := [];
      for i := 0 to |a.order|
        invariant spool.Valid()
        invariant forall r | r in a.order[..i] :: r in rejected
        invariant retry == Pick(rejected, a.order[..i], false)
        invariant told == OutcomeWrites(m.emailID, Pick(rejected, a.order[..i], true), false, true)
        invariant spool.log == log + told && spool.Now() == Replay(before, told)
      {
        var r := a.order[i];
        assert a.order[..i + 1] == a.order[..i] + [r];
        PickExtend(rejected, a.order[..i], r, true);
        PickExtend(rejected, a.order[..i], r, false);
        if rejected[r] {
          told := Tell(m.emailID, r, false, true, log, before, Pick(rejected, a.order[..i], true), told);
        } else {
          assert Pick(rejected, a.order[..i], true) + [] == Pick(rejected, a.order[..i], true);
          retry := retry + [r];
        }
      }
      assert a.order[..|a.order|] == a.order;
    }

    /** One outcome more, of a message that names its email. */
    method Tell(emailID: string, r: string, delivered: bool, permanent: bool, ghost log: seq<Write>, ghost before: Disk,
                ghost rcpts: seq<string>, ghost told: seq<Write>) returns (ghost more: seq<Write>)
      requires spool.Valid() && spool.log == log + told && spool.Now() == Replay(before, told)
      requires told == OutcomeWrites(emailID, rcpts, delivered, permanent)
      modifies spool
      ensures more == OutcomeWrites(emailID, rcpts + [r], delivered, permanent)
      ensures spool.Valid() && spool.log == log + more && spool.Now() == Replay(before, more)
    {
      OutcomesExtend(emailID, rcpts, r, delivered, permanent);
      more := told;
      if emailID != "" {
        var w := PutOutcome(Outcome(emailID, r, delivered, permanent));
        ReplayMore(before, told, w);
        spool.Step(w);
        more := told + [w];
      }
    }

    /** One delivery attempt. The steps it takes are those of its answer, in that order:
        every outcome is written down before the recipient leaves the entry. */
    method Attempt(m: Message, t: Try)
      requires spool.Valid() && ValidAnswer(m, t.answer)
      modifies spool
      ensures spool.Valid()
      ensures spool.log == old(spool.log) + AttemptWrites(converted, lifetime, m, m.id in old(spool.bodies), t)
      ensures spool.Now() == Replay(old(spool.Now()), AttemptWrites(converted, lifetime, m, m.id in old(spool.bodies), t))
      ensures (lifetime > 0 && t.started - m.acceptedAt > lifetime) || m.id !in old(spool.bodies) ==>
                && spool.messages == old(spool.messages) - {m.id} && spool.bodies == old(spool.bodies) - {m.id}
                && (m.emailID != "" ==> forall r | r in m.recipients ::
                      OutcomeKey(m.emailID, r) in spool.outcomes && !spool.outcomes[OutcomeKey(m.emailID, r)].delivered)
      ensures (lifetime <= 0 || t.started - m.acceptedAt <= lifetime) && m.id in old(spool.bodies) ==>
                var n := m.(attempts := m.attempts + 1);
                var next := t.ended + Backoff.Gap(converted, n.attempts);
                if t.answer.Unresolved? || t.answer.SendFailed? then
                  && spool.messages == old(spool.messages)[m.id := n.(nextAttempt := next)]
                  && spool.bodies == old(spool.bodies) && spool.outcomes == old(spool.outcomes)
                else if t.answer.Answered? && Retry(n, t.answer) != [] then
                  && spool.messages == old(spool.messages)[m.id := n.(recipients := Retry(n, t.answer), nextAttempt := next)]
                  && spool.bodies == old(spool.bodies)
                else
                  spool.messages == old(spool.messages) - {m.id} && spool.bodies == old(spool.bodies) - {m.id}
    {
      var n := m.(attempts := m.attempts + 1);
      ghost var next := t.ended + Backoff.Gap(converted, n.attempts);
      AnswerOnDisk(spool.Now(), n, t.answer, Expired(lifetime, n, t.ended), next);
      if Expired(lifetime, n, t.started) || m.id !in spool.bodies {
        GiveUp(n, t.ended);
        return;
      }
      Settle(n, t.answer, t.ended);
    }

    /** What follows from the answer. */
    method Settle(n: Message, a: Answer, now: int)
      requires spool.Valid() && ValidAnswer(n, a)
      modifies spool
      ensures var plan := AnswerWrites(n, a, Expired(lifetime, n, now), now + Backoff.Gap(converted, n.attempts));
              spool.Valid() && spool.log == old(spool.log) + plan && spool.Now() == Replay(old(spool.Now()), plan)
    {
      match a {
        case NoSuchDomain => GiveUp(n, now);
        case RefusedOutright => GiveUp(n, now);
        case Unresolved => Defer(n, now);
        case SendFailed => Defer(n, now);
        case Answered(_, _) =>
          ghost var told := OutcomeWrites(n.emailID, Converse(n.recipients, a.verdicts).accepted, true, false);
          ghost var refused := OutcomeWrites(n.emailID, Refusals(n, a), false, true);
          Conclude(n, a, now, told, refused);
      }
    }

    /** The end of an answered attempt: the outcomes first, the entry after them. */
    method Conclude(n: Message, a: Answer, now: int, ghost told: seq<Write>, ghost refused: seq<Write>)
      requires spool.Valid() && a.Answered? && ValidAnswer(n, a)
      requires told == OutcomeWrites(n.emailID, Converse(n.recipients, a.verdicts).accepted, true, false)
      requires refused == OutcomeWrites(n.emailID, Refusals(n, a), false, true)
      modifies spool
      ensures var plan := told + refused + Rest(n, Retry(n, a), now + Backoff.Gap(converted, n.attempts));
              spool.Valid() && spool.log == old(spool.log) + plan && spool.Now() == Replay(old(spool.Now()), plan)
    {
      ghost var before, log := spool.Now(), spool.log;
      ReportAll(n.emailID, Converse(n.recipients, a.verdicts).accepted, true, false);
      var retry := Sort(n, a);
      ReplayAppend(before, told, refused);
      ghost var rest := Rest(n, retry, now + Backoff.Gap(converted, n.attempts));
      Finish(n, retry, now, before, told + refused);
      Regroup(log, told, refused, rest);
    }

    /** Gives up every message past its lifetime as it comes to it, tried lately or not;
        `clock` is the time it is looked at. */
    method SweepExpired(clock: string -> int) returns (ghost gone: seq<Message>)
      requires spool.Valid()
      modifies spool
      ensures spool.Valid() && spool.log == old(spool.log) + SweepWrites(gone)
      ensures forall m | m in gone :: m.id in old(spool.messages) && old(spool.messages)[m.id] == m
      ensures forall i, j | 0 <= i < j < |gone| :: gone[i].id != gone[j].id
      ensures forall id | id in old(spool.messages) ::
                var m := old(spool.messages)[id];
                if lifetime > 0 && clock(id) - m.acceptedAt > lifetime
                then id !in spool.messages && id !in spool.bodies && m in gone
                else id in spool.messages && spool.messages[id] == m && (id in spool.bodies <==> id in old(spool.bodies))
      ensures spool.messages.Keys <= old(spool.messages).Keys
    {
      var all := spool.All();
      gone := [];
      ghost var was, bodies, log := spool.messages, spool.bodies, spool.log;
      for i := 0 to |all|
        invariant spool.Valid() && spool.log == log + SweepWrites(gone)
        invariant GoneSoFar(lifetime, gone, all, i, clock)
        invariant SweptSoFar(lifetime, was, bodies, spool.Now(), all, i, clock)
      {
        ghost var before := spool.Now();
        var dropped := SweepOne(all[i], clock(all[i].id));
        SweptMore(lifetime, was, bodies, before, spool.Now(), all, i, clock);
        GoneMore(lifetime, was, gone, all, i, clock);
        if dropped {
          SweepLogged(log, gone, all[i]);
          gone := gone + [all[i]];
        }
      }
      assert all[..|all|] == all;
    }

    /** One message of the sweep. */
    method SweepOne(m: Message, now: int) returns (dropped: bool)
      requires spool.Valid()
      modifies spool
      ensures spool.Valid() && dropped == Expired(lifetime, m, now)
      ensures spool.log == old(spool.log) + if dropped then GiveUpWrites(m, false) else []
      ensures spool.messages == old(spool.messages) - (if dropped then {m.id} else {})
      ensures spool.bodies == old(spool.bodies) - (if dropped then {m.id} else {})
    {
      dropped := Expired(lifetime, m, now);
      if dropped {
        GiveUp(m, now);
      }
    }

    method Finish(n: Message, retry: seq<string>, now: int, ghost before: Disk, ghost done: seq<Write>)
      requires spool.Valid() && spool.Now() == Replay(before, done)
      modifies spool
      ensures var rest := Rest(n, retry, now + Backoff.Gap(converted, n.attempts));
              spool.Valid() && spool.log == old(spool.log) + rest && spool.Now() == Replay(before, done + rest)
    {
      if retry == [] {
        ReplayAppend(before, done, RemoveWrites(n.id));
        ReplayTwo(Replay(before, done), DeleteEntry(n.id), RemoveBody(n.id));
        spool.Remove(n.id);
      } else {
        ReplayAppend(before, done,
                     [UpdateEntry(n.(recipients := retry, nextAttempt := now + Backoff.Gap(converted, n.attempts)))]);
        Defer(n.(recipients := retry), now);
      }
    }
  }

  /** The first `i` messages are dropped if they expired, the others are as they were. */
  ghost predicate SweptSoFar(lifetime: int, was: map<string, Message>, bodies: map<string, Bytes>, now: Disk,
                             all: seq<Message>, i: nat, clock: string -> int)
    requires i <= |all|
  {
    && now.messages.Keys <= was.Keys
    && forall id | id in was ::
         if was[id] in all[..i] && Expired(lifetime, was[id], clock(id)) then id !in now.messages && id !in now.bodies
         else id in now.messages && now.messages[id] == was[id] && (id in now.bodies <==> id in bodies)
  }

  ghost predicate GoneSoFar(lifetime: int, gone: seq<Message>, all: seq<Message>, i: nat, clock: string -> int)
    requires i <= |all|
  {
    && (forall m :: m in gone <==> m in all[..i] && Expired(lifetime, m, clock(m.id)))
    && forall k, j | 0 <= k < j < |gone| :: gone[k].id != gone[j].id
  }

  lemma SweptMore(lifetime: int, was: map<string, Message>, bodies: map<string, Bytes>, before: Disk, now: Disk,
                  all: seq<Message>, i: nat, clock: string -> int)
    requires i < |all| && SweptSoFar(lifetime, was, bodies, before, all, i, clock)
    requires Distinct(all) && (forall m | m in all :: m.id in was && was[m.id] == m) && forall id | id in was :: was[id].id == id
    requires var gone := if Expired(lifetime, all[i], clock(all[i].id)) then {all[i].id} else {};
             now.messages == before.messages - gone && now.bodies == before.bodies - gone
    ensures SweptSoFar(lifetime, was, bodies, now, all, i + 1, clock)
  {
    assert all[..i + 1] == all[..i] + [all[i]];
    NoneBefore(all, was, i);
    assert all[i] in all;
    forall id | id in was
      ensures was[id] in all[..i + 1] <==> was[id] in all[..i] || id == all[i].id
    {
      if was[id] in all[..i + 1] && was[id] !in all[..i] { assert was[id] == all[i]; }
    }
  }

  lemma GoneMore(lifetime: int, was: map<string, Message>, gone: seq<Message>, all: seq<Message>, i: nat, clock: string -> int)
    requires i < |all| && GoneSoFar(lifetime, gone, all, i, clock)
    requires Distinct(all) && forall m | m in all :: m.id in was && was[m.id] == m
    ensures GoneSoFar(lifetime, if Expired(lifetime, all[i], clock(all[i].id)) then gone + [all[i]] else gone, all, i + 1, clock)
  {
    assert all[..i + 1] == all[..i] + [all[i]];
    NoneBefore(all, was, i);
    assert forall k | 0 <= k < |gone| :: gone[k] in gone;
  }

  lemma NoneBefore(all: seq<Message>, was: map<string, Message>, i: nat)
    requires Distinct(all) && i < |all| && forall m | m in all :: m.id in was && was[m.id] == m
    ensures forall n | n in all[..i] :: n in all && n.id != all[i].id
  {
    forall n | n in all[..i] ensures n in all && n.id != all[i].id {
      var j :| 0 <= j < i && all[..i][j] == n;
      assert all[j] == n && all[i] in all;
    }
  }

  lemma {:induction false} SweepMore(gone: seq<Message>, m: Message)
    ensures SweepWrites(gone + [m]) == SweepWrites(gone) + GiveUpWrites(m, false)
  {
    if gone == [] {
      assert [] + [m] == [m] && [m][1..] == [];
      assert SweepWrites([m]) == GiveUpWrites(m, false) + [];
    } else {
      assert (gone + [m])[1..] == gone[1..] + [m];
      SweepMore(gone[1..], m);
    }
  }

  lemma SweepLogged(log: seq<Write>, gone: seq<Message>, m: Message)
    ensures log + SweepWrites(gone) + GiveUpWrites(m, false) == log + SweepWrites(gone + [m])
  {
    SweepMore(gone, m);
    assert log + SweepWrites(gone) + GiveUpWrites(m, false) == log + (SweepWrites(gone) + GiveUpWrites(m, false));
  }

  lemma Regroup<T>(log: seq<T>, a: seq<T>, b: seq<T>, c: seq<T>)
    ensures log + a + b + c == log + (a + b + c)
  {
  }

  lemma OutcomesExtend(emailID: string, rcpts: seq<string>, r: string, delivered: bool, permanent: bool)
    ensures OutcomeWrites(emailID, rcpts + [r], delivered, permanent) ==
            OutcomeWrites(emailID, rcpts, delivered, permanent) +
            (if emailID == "" then [] else [PutOutcome(Outcome(emailID, r, delivered, permanent))])
  {
  }
}
