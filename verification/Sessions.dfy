/** The two SMTP sessions that take mail in: a worker handing over a campaign message, and
    a stranger's MTA delivering to the node's own MX. Both write before they answer. */
module Sessions {
  import opened Names
  import opened DurableSteps
  import opened SpoolFiles
  import opened Node

  datatype Reply = Ok250 | NoRecipients | TooLarge | NoUsable | CouldNotQueue

  const DEFAULT_LIMIT: int := 50 * 1024 * 1024
  const DEFAULT_MX_LIMIT: int := 26214400

  function Limit(configured: int, default: int): int {
    if configured <= 0 then default else configured
  }

  /** The entries a session makes of one message, one per domain. `newId` stands for the
      id generator. */
  function Entries(newId: string -> string, emailID: string, from: string, groups: map<string, seq<string>>,
                   now: int): map<string, Message>
  {
    map d | d in groups :: Message(newId(d), emailID, from, d, groups[d], 0, now, now, 0)
  }

  /** The entry is in the bucket and its bytes are beside it. */
  ghost predicate Holds(d: Disk, m: Message, body: Bytes) {
    && m.id in d.messages && d.messages[m.id] == m.(size := |body|)
    && m.id in d.bodies && d.bodies[m.id] == body
  }

  /** Every domain has an id of its own that nothing has. */
  ghost predicate NewEntries(entries: map<string, Message>, used: map<string, Message>) {
    && (forall d | d in entries :: entries[d].id !in used)
    && (forall d, e | d in entries && e in entries && d != e :: entries[d].id != entries[e].id)
  }

  /** No entry is overwritten, and every new one is one of those asked for. */
  ghost predicate OnlyAdds(was: map<string, Message>, now: map<string, Message>, entries: map<string, Message>) {
    && (forall id | id in was :: id in now && now[id] == was[id])
    && (forall id | id in now :: id in was || exists d :: d in entries && id == entries[d].id)
  }

  lemma AddsOne(was: map<string, Message>, before: map<string, Message>, now: map<string, Message>,
                entries: map<string, Message>, d: string, body: Bytes)
    requires OnlyAdds(was, before, entries) && d in entries && entries[d].id !in was
    requires now == before || now == before[entries[d].id := entries[d].(size := |body|)]
    ensures OnlyAdds(was, now, entries)
  {
  }

  /** The entries but for those `left` are in the spool. */
  ghost predicate HoldsBut(d: Disk, entries: map<string, Message>, left: set<string>, body: Bytes) {
    forall g | g in entries && g !in left :: Holds(d, entries[g], body)
  }

  lemma HoldsMore(before: Disk, after: Disk, entries: map<string, Message>, left: set<string>, g: string, body: Bytes)
    requires HoldsBut(before, entries, left + {g}, body) && g in entries
    requires forall d, e | d in entries && e in entries && d != e :: entries[d].id != entries[e].id
    requires after.messages == before.messages[entries[g].id := entries[g].(size := |body|)]
    requires after.bodies == before.bodies[entries[g].id := body]
    ensures HoldsBut(after, entries, left, body)
  {
    forall h | h in entries && h !in left ensures Holds(after, entries[h], body) {
      if h != g { assert Holds(before, entries[h], body); }
    }
  }

  lemma {:induction false} AcceptAppend(ms: seq<Message>, m: Message, body: Bytes, last: Fate)
    ensures AcceptWrites(ms + [m], body, last) ==
            AcceptWrites(ms, body, Stored) + PutWrites(m, body, !last.NoFile?, last.Stored?)
    decreases |ms|
  {
    if ms == [] {
      assert ms + [m] == [m];
    } else {
      assert (ms + [m])[1..] == ms[1..] + [m];
      AcceptAppend(ms[1..], m, body, last);
      AcceptHead(ms, body);
      AcceptHead(ms + [m], body);
    }
  }

  lemma AcceptHead(ms: seq<Message>, body: Bytes)
    requires ms != []
    ensures AcceptWrites(ms, body, Stored) == PutWrites(ms[0], body, true, true) + AcceptWrites(ms[1..], body, Stored)
  {
  }

  class Session {
    const spool: Spool
    const maxMessageSize: int
    var from: string
    var to: seq<string>
    var accepted: nat

    constructor (spool: Spool, maxMessageSize: int)
      ensures this.spool == spool && this.maxMessageSize == maxMessageSize
      ensures from == "" && to == [] && accepted == 0
    {
      this.spool, this.maxMessageSize := spool, maxMessageSize;
      from, to, accepted := "", [], 0;
    }

    method Mail(sender: string)
      modifies this
      ensures from == sender && to == [] && accepted == old(accepted)
    {
      from, to := sender, [];
    }

    /** `parsed` is the address when it parses. */
    method Rcpt(parsed: Option<string>) returns (ok: bool)
      modifies this
      ensures ok == parsed.Some? && from == old(from) && accepted == old(accepted)
      ensures to == if parsed.Some? then old(to) + [parsed.value] else old(to)
    {
      if parsed.None? {
        return false;
      }
      to := to + [parsed.value];
      return true;
    }

    method Reset()
      modifies this
      ensures from == "" && to == [] && accepted == old(accepted)
    {
      from, to := "", [];
    }

    /** One message in: an entry per recipient domain, all of them written before the 250.
        `fate` is how the put of each domain's entry ends. */
    method Data(body: Bytes, emailID: string, now: int, newId: string -> string, fate: string -> Fate)
        returns (reply: Reply, ghost ms: seq<Message>, ghost last: Fate)
      requires spool.Valid() && NewEntries(Entries(newId, emailID, from, ByDomain(to), now), spool.messages)
      modifies this`accepted, spool
      ensures spool.Valid() && spool.log == old(spool.log) + AcceptWrites(ms, body, last)
      ensures accepted == old(accepted) + (if reply == Ok250 then 1 else 0)
      ensures reply == NoRecipients <==> to == []
      ensures reply == TooLarge <==> to != [] && |body| > (if maxMessageSize <= 0 then 50 * 1024 * 1024 else maxMessageSize)
      ensures reply == NoUsable <==>
                to != [] && |body| <= (if maxMessageSize <= 0 then 50 * 1024 * 1024 else maxMessageSize) &&
                forall r | r in to :: Domain(r).None?
      ensures reply != Ok250 && reply != CouldNotQueue ==> ms == []
      ensures reply == CouldNotQueue ==> exists d :: d in Domains(to) && !fate(d).Stored?
      ensures var entries := Entries(newId, emailID, from, ByDomain(to), now);
              && OnlyAdds(old(spool.messages), spool.messages, entries)
              && (reply == Ok250 ==> HoldsBut(spool.Now(), entries, {}, body))
      ensures reply == Ok250 ==> forall r | r in to && Domain(r).Some? ::
                var d := Domain(r).value;
                && newId(d) in spool.messages && newId(d) in spool.bodies && spool.bodies[newId(d)] == body
                && spool.messages[newId(d)] == Message(newId(d), emailID, from, d, Of(to, d), 0, now, now, |body|)
      ensures forall id | id in old(spool.messages) :: id in spool.messages && spool.messages[id] == old(spool.messages)[id]
    {
      DomainsOf(to);
      ms, last := [], Stored;
      if |to| == 0 {
        return NoRecipients, ms, last;
      }
      if |body| > Limit(maxMessageSize, DEFAULT_LIMIT) {
        return TooLarge, ms, last;
      }
      reply, ms, last := Store(body, emailID, now, newId, fate);
      if reply == Ok250 {
        ghost var after := spool.Now();
        accepted := accepted + 1;
        assert spool.Now() == after;
        EntriesHeld(spool.Now(), newId, emailID, from, to, now, body);
      }
    }

    /** The recipients grouped by domain, and an entry put for each group. */
    method Store(body: Bytes, emailID: string, now: int, newId: string -> string, fate: string -> Fate)
        returns (reply: Reply, ghost ms: seq<Message>, ghost last: Fate)
      requires spool.Valid() && NewEntries(Entries(newId, emailID, from, ByDomain(to), now), spool.messages)
      modifies spool
      ensures spool.Valid() && spool.log == old(spool.log) + AcceptWrites(ms, body, last)
      ensures reply == Ok250 || reply == CouldNotQueue || reply == NoUsable
      ensures reply == NoUsable <==> Domains(to) == {}
      ensures reply == NoUsable ==> ms == []
      ensures reply == CouldNotQueue ==> exists d :: d in Domains(to) && !fate(d).Stored?
      ensures var entries := Entries(newId, emailID, from, ByDomain(to), now);
              && OnlyAdds(old(spool.messages), spool.messages, entries)
              && (reply == Ok250 ==> HoldsBut(spool.Now(), entries, {}, body))
    {
      ms, last := [], Stored;
      var byDomain := Group(to);
      assert byDomain.Keys == Domains(to);
      if byDomain == map[] {
        return NoUsable, ms, last;
      }
      var ok: bool;
      ok, ms, last := PutAll(Entries(newId, emailID, from, byDomain, now), body, fate);
      reply := if ok then Ok250 else CouldNotQueue;
    }

    method PutEntry(m: Message, body: Bytes, fate: Fate) returns (ok: bool)
      requires spool.Valid()
      modifies spool
      ensures spool.Valid() && ok == fate.Stored?
      ensures spool.log == old(spool.log) + PutWrites(m, body, !fate.NoFile?, fate.Stored?)
      ensures spool.messages == if ok then old(spool.messages)[m.id := m.(size := |body|)] else old(spool.messages)
      ensures ok ==> spool.bodies == old(spool.bodies)[m.id := body]
    {
      ghost var before := spool.Now();
      ok := spool.Put(m, body, !fate.NoFile?, fate.Stored?);
      PutReplay(before, m, body, !fate.NoFile?, fate.Stored?);
    }

    /** The put loop: the first failure ends it. */
    method PutAll(entries: map<string, Message>, body: Bytes, fate: string -> Fate)
        returns (ok: bool, ghost ms: seq<Message>, ghost last: Fate)
      requires spool.Valid() && NewEntries(entries, spool.messages)
      modifies spool
      ensures spool.Valid() && spool.log == old(spool.log) + AcceptWrites(ms, body, last)
      ensures !ok ==> exists d :: d in entries && !fate(d).Stored?
      ensures ok ==> HoldsBut(spool.Now(), entries, {}, body)
      ensures OnlyAdds(old(spool.messages), spool.messages, entries)
    {
      var left := entries.Keys;
      ms, last := [], Stored;
      while left != {}
        invariant left <= entries.Keys && spool.Valid() && last == Stored
        invariant spool.log == old(spool.log) + AcceptWrites(ms, body, Stored)
        invariant HoldsBut(spool.Now(), entries, left, body)
        invariant OnlyAdds(old(spool.messages), spool.messages, entries)
        decreases left
      {
        var d :| d in left;
        left := left - {d};
        AcceptAppend(ms, entries[d], body, fate(d));
        ghost var before := spool.Now();
        ok := PutEntry(entries[d], body, fate(d));
        AddsOne(old(spool.messages), before.messages, spool.messages, entries, d, body);
        ms, last := ms + [entries[d]], fate(d);
        if !ok {
          return false, ms, last;
        }
        HoldsMore(before, spool.Now(), entries, left, d, body);
      }
      ok := true;
    }
  }

  lemma DomainsOf(to: seq<string>)
    ensures Domains(to) == {} <==> forall r | r in to :: Domain(r).None?
  {
    forall r | r in to && Domain(r).Some? ensures Domain(r).value in Domains(to) {
    }
  }

  lemma EntriesHeld(d: Disk, newId: string -> string, emailID: string, from: string, to: seq<string>, now: int, body: Bytes)
    requires HoldsBut(d, Entries(newId, emailID, from, ByDomain(to), now), {}, body)
    ensures forall r | r in to && Domain(r).Some? ::
              var h := Domain(r).value;
              && newId(h) in d.messages && newId(h) in d.bodies && d.bodies[newId(h)] == body
              && d.messages[newId(h)] == Message(newId(h), emailID, from, h, Of(to, h), 0, now, now, |body|)
  {
    forall r | r in to && Domain(r).Some? ensures Domain(r).value in Domains(to) {
    }
    var entries := Entries(newId, emailID, from, ByDomain(to), now);
    forall h | h in Domains(to) ensures h in entries && Holds(d, entries[h], body) {
    }
  }

  /** What a put leaves, spelled out. */
  lemma PutReplay(d: Disk, m: Message, body: Bytes, fileOk: bool, dbOk: bool)
    ensures var d' := Replay(d, PutWrites(m, body, fileOk, dbOk));
            && d'.messages == (if fileOk && dbOk then d.messages[m.id := m.(size := |body|)] else d.messages)
            && (fileOk && dbOk ==> d'.bodies == d.bodies[m.id := body])
  {
    if fileOk {
      ReplayTwo(d, WriteBody(m.id, body), if dbOk then CommitEntry(m.(size := |body|), body) else RemoveBody(m.id));
    }
  }

  /** What a 250 covers: every address with a domain, once for each time it was named, in
      the entry of its own domain and in no other. */
  lemma AcceptedCoversEveryRecipient(newId: string -> string, emailID: string, from: string, to: seq<string>,
                                     now: int, r: string)
    ensures var entries := Entries(newId, emailID, from, ByDomain(to), now);
            && (r in to && Domain(r).Some? ==> Domain(r).value in entries)
            && forall d | d in entries ::
                 multiset(entries[d].recipients)[r] == if Domain(r) == Some(d) then multiset(to)[r] else 0
  {
    forall d | d in Domains(to)
      ensures multiset(Of(to, d))[r] == if Domain(r) == Some(d) then multiset(to)[r] else 0
    {
      GroupingPartitions(to, r, d);
    }
  }

  class ReceiveSession {
    const spool: Spool
    const maxMessageSize: int
    const clientIP: string
    const helo: string
    var from: string
    var to: seq<string>

    constructor (spool: Spool, maxMessageSize: int, clientIP: string, helo: string)
      ensures this.spool == spool && this.maxMessageSize == maxMessageSize
      ensures this.clientIP == clientIP && this.helo == helo && from == "" && to == []
    {
      this.spool, this.maxMessageSize, this.clientIP, this.helo := spool, maxMessageSize, clientIP, helo;
      from, to := "", [];
    }

    /** The MX: a 250 only once the message is in the bucket with its bytes. */
    method Data(body: Bytes, id: string, now: int, fate: Fate) returns (reply: Reply)
      requires spool.Valid()
      modifies spool
      ensures spool.Valid()
      ensures reply == NoRecipients <==> to == []
      ensures reply == TooLarge <==> to != [] && |body| > (if maxMessageSize <= 0 then 26214400 else maxMessageSize)
      ensures reply == CouldNotQueue ==> !fate.Stored?
      ensures reply in {NoRecipients, TooLarge, CouldNotQueue, Ok250}
      ensures spool.log == old(spool.log) +
              (if reply in {NoRecipients, TooLarge} then []
               else PutReceivedWrites(Received(id, from, to, clientIP, helo, 0, now, now, 0), body,
                                      !fate.NoFile?, fate.Stored?))
      ensures reply == Ok250 ==>
                && spool.inbound == old(spool.inbound)[id := Received(id, from, to, clientIP, helo, 0, now, now, |body|)]
                && spool.received == old(spool.received)[id := body]
      ensures reply != Ok250 ==> spool.inbound == old(spool.inbound)
      ensures spool.messages == old(spool.messages) && spool.bodies == old(spool.bodies)
    {
      if |to| == 0 {
        return NoRecipients;
      }
      if |body| > Limit(maxMessageSize, DEFAULT_MX_LIMIT) {
        return TooLarge;
      }
      var r := Received(id, from, to, clientIP, helo, 0, now, now, 0);
      ghost var before := spool.Now();
      var ok := spool.PutReceived(r, body, !fate.NoFile?, fate.Stored?);
      PutReceivedReplay(before, r, body, !fate.NoFile?, fate.Stored?);
      reply := if ok then Ok250 else CouldNotQueue;
    }
  }

  lemma PutReceivedReplay(d: Disk, r: Received, body: Bytes, fileOk: bool, dbOk: bool)
    ensures var d' := Replay(d, PutReceivedWrites(r, body, fileOk, dbOk));
            && d'.inbound == (if fileOk && dbOk then d.inbound[r.id := r.(size := |body|)] else d.inbound)
            && (fileOk && dbOk ==> d'.received == d.received[r.id := body])
            && d'.messages == d.messages && d'.bodies == d.bodies
  {
    if fileOk {
      ReplayTwo(d, WriteReceived(r.id, body),
                if dbOk then CommitInbound(r.(size := |body|), body) else RemoveReceived(r.id));
    }
  }
}
