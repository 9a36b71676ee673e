/** The agent's two exchanges with the platform: reporting outcomes, and claiming. */
module Agents {
  import opened Names
  import opened Sequences
  import opened DurableSteps
  import opened SpoolFiles
  import opened Node

  const REPORT_BATCH: nat := 200

  /** The recipients of a claimed message the claim loop spools. */
  function Kept(d: Disk, email: string, rcpts: seq<string>): seq<string> {
    if rcpts == [] then []
    else Kept(d, email, rcpts[..|rcpts| - 1]) +
         (if Wanted(d, email, rcpts[|rcpts| - 1]) then [rcpts[|rcpts| - 1]] else [])
  }

  lemma {:induction false} KeptMember(d: Disk, email: string, rcpts: seq<string>, r: string)
    ensures r in Kept(d, email, rcpts) <==>
              r in rcpts && Domain(r).Some? && Domain(r).value != "" && OutcomeKey(email, r) !in d.outcomes
    ensures r in Kept(d, email, rcpts) ==> multiset(Kept(d, email, rcpts))[r] == multiset(rcpts)[r]
  {
    if rcpts != [] {
      var n := |rcpts| - 1;
      KeptMember(d, email, rcpts[..n], r);
      assert rcpts == rcpts[..n] + [rcpts[n]];
    }
  }

  /** What is kept stands in the order it was named. */
  lemma {:induction false} KeptInOrder(d: Disk, email: string, rcpts: seq<string>, k: nat)
    requires k <= |rcpts|
    ensures Kept(d, email, rcpts[..k]) <= Kept(d, email, rcpts)
    decreases |rcpts|
  {
    if k < |rcpts| {
      KeptInOrder(d, email, rcpts[..|rcpts| - 1], k);
      assert rcpts[..|rcpts| - 1][..k] == rcpts[..k];
    } else {
      assert rcpts[..k] == rcpts;
    }
  }

  /** The entries a claim asks for, one per domain. */
  function Groups(c: Claimed, tag: string -> string, groups: map<string, seq<string>>, now: int): map<string, Message> {
    map d | d in groups :: ClaimedMessage(c, d, ClaimedId(tag, c.email, d), groups[d], now)
  }

  /** Each is under its claimed id, of its domain and for its group, untried and due at once. */
  lemma GroupsAre(c: Claimed, tag: string -> string, groups: map<string, seq<string>>, now: int, d: string)
    requires d in groups
    ensures d in Groups(c, tag, groups, now)
    ensures Groups(c, tag, groups, now)[d] == Message(ClaimedId(tag, c.email, d), c.email, c.from, d, groups[d], 0, now, now, 0)
  {
  }

  /** Digests that tell the domains of one message apart. */
  ghost predicate TagsApart(tag: string -> string, domains: set<string>) {
    forall d, e | d in domains && e in domains && tag(d) == tag(e) :: d == e
  }

  ghost predicate IdsApart(entries: map<string, Message>) {
    forall d, e | d in entries && e in entries && d != e :: entries[d].id != entries[e].id
  }

  lemma GroupsApart(c: Claimed, tag: string -> string, groups: map<string, seq<string>>, now: int)
    requires FixedLength(tag) && TagsApart(tag, groups.Keys)
    ensures IdsApart(Groups(c, tag, groups, now))
  {
    forall d, e | d in groups && e in groups && d != e
      ensures ClaimedId(tag, c.email, d) != ClaimedId(tag, c.email, e)
    {
      ClaimedIdTellsApart(tag, c.email, d, c.email, e);
    }
  }

  /** A group is in the spool: its entry as it was when there was one, and new otherwise. */
  ghost predicate Placed(was: map<string, Message>, d: Disk, m: Message, body: Bytes) {
    && m.id in d.messages
    && (if m.id in was then d.messages[m.id] == was[m.id]
        else d.messages[m.id] == m.(size := |body|) && m.id in d.bodies && d.bodies[m.id] == body)
  }

  /** The groups but for those `left` are placed, and no entry there before was touched. */
  ghost predicate PartWay(was: map<string, Message>, d: Disk, entries: map<string, Message>, left: set<string>, body: Bytes) {
    && (forall id | id in was :: id in d.messages && d.messages[id] == was[id])
    && (forall g | g in entries && g !in left :: Placed(was, d, entries[g], body))
    && (forall g | g in left && g in entries && entries[g].id in d.messages :: entries[g].id in was)
  }

  lemma OneMore(was: map<string, Message>, before: Disk, after: Disk, entries: map<string, Message>, left: set<string>,
                g: string, body: Bytes)
    requires PartWay(was, before, entries, left, body) && IdsApart(entries) && g in left && left <= entries.Keys
    requires if entries[g].id in before.messages then after == before
             else && after.messages == before.messages[entries[g].id := entries[g].(size := |body|)]
                  && after.bodies == before.bodies[entries[g].id := body]
    ensures PartWay(was, after, entries, left - {g}, body)
  {
    forall h | h in entries && h !in left - {g} ensures Placed(was, after, entries[h], body) {
      if h != g { assert Placed(was, before, entries[h], body); }
    }
  }

  class Agent {
    const spool: Spool

    constructor (spool: Spool)
      ensures this.spool == spool
    {
      this.spool := spool;
    }

    /** One report of up to 200 rows. They leave the spool when the platform took them or
        refused them for good, and then all of them; nothing changes when it could not be
        reached or its answer was not heard. */
    method FlushOutcomes(answer: ReportAnswer) returns (sent: seq<Outcome>, ghost keys: set<string>)
      requires spool.Valid()
      modifies spool
      ensures spool.Valid() && keys <= old(spool.outcomes).Keys
      ensures |keys| == if |old(spool.outcomes)| > 200 then 200 else |old(spool.outcomes)|
      ensures forall o :: o in sent <==> exists k :: k in keys && old(spool.outcomes)[k] == o
      ensures answer.Unreachable? || answer.TakenUnheard? ==>
                spool.log == old(spool.log) && spool.Now() == old(spool.Now())
      ensures answer.Taken? || answer.RefusedForGood? ==>
                && spool.log == old(spool.log) + (if keys == {} then [] else [DeleteOutcomes(keys)])
                && spool.Now() == old(spool.Now()).(outcomes := old(spool.outcomes) - keys)
    {
      ghost var before := spool.Now();
      var listed, rows := spool.Outcomes(REPORT_BATCH);
      keys := set k | k in listed;
      BatchSize(listed, spool.outcomes);
      sent := rows;
      RowsOf(listed, rows, spool.outcomes, keys);
      if |listed| == 0 {
        assert keys == {} && before.outcomes - keys == before.outcomes;
        return;
      }
      assert listed[0] in keys;
      if answer.Taken? || answer.RefusedForGood? {
        spool.Step(DeleteOutcomes(set k | k in listed));
      }
    }

    /** The recipients still to be spooled: with a domain, and no outcome waiting. */
    method Sift(c: Claimed) returns (kept: seq<string>)
      ensures kept == Kept(spool.Now(), c.email, c.recipients)
    {
      kept := [];
      for i := 0 to |c.recipients|
        invariant kept == Kept(spool.Now(), c.email, c.recipients[..i])
      {
        var r := c.recipients[i];
        assert c.recipients[..i + 1][..i] == c.recipients[..i];
        if Domain(r).Some? && Domain(r).value != "" && OutcomeKey(c.email, r) !in spool.outcomes {
          kept := kept + [r];
        }
      }
      assert c.recipients[..|c.recipients|] == c.recipients;
    }

    /** One claimed message, an entry per recipient domain. An entry already there is left
        alone. `fate` is how the put for each domain ends. */
    method SpoolClaimed(c: Claimed, tag: string -> string, now: int, fate: string -> Fate) returns (written: nat, ok: bool)
      requires spool.Valid() && FixedLength(tag)
      requires TagsApart(tag, Domains(Kept(spool.Now(), c.email, c.recipients)))
      modifies spool
      ensures spool.Valid() && spool.outcomes == old(spool.outcomes)
      ensures forall id | id in old(spool.messages) ::
                id in spool.messages && spool.messages[id] == old(spool.messages)[id]
      ensures var entries := Groups(c, tag, ByDomain(Kept(old(spool.Now()), c.email, c.recipients)), now);
              && (ok ==> forall d | d in entries ::
                    var m := entries[d];
                    && m.id in spool.messages
                    && (m.id !in old(spool.messages) ==>
                          && spool.messages[m.id] == m.(size := |c.body|)
                          && m.id in spool.bodies && spool.bodies[m.id] == c.body))
              && (!ok ==> exists d :: d in entries && !fate(d).Stored?)
      ensures |spool.messages| == |old(spool.messages)| + written
      ensures var entries := Groups(c, tag, ByDomain(Kept(old(spool.Now()), c.email, c.recipients)), now);
              forall id | id in spool.messages :: id in old(spool.messages) || exists d :: d in entries && entries[d].id == id
    {
      var kept := Sift(c);
      var byDomain := Group(kept);
      assert byDomain.Keys == Domains(kept);
      GroupsApart(c, tag, byDomain, now);
      written, ok := PlaceAll(Groups(c, tag, byDomain, now), c.body, fate);
    }

    /** The put loop over the groups. */
    method PlaceAll(entries: map<string, Message>, body: Bytes, fate: string -> Fate) returns (written: nat, ok: bool)
      requires spool.Valid() && IdsApart(entries)
      modifies spool
      ensures spool.Valid() && spool.outcomes == old(spool.outcomes)
      ensures forall id | id in old(spool.messages) ::
                id in spool.messages && spool.messages[id] == old(spool.messages)[id]
      ensures ok ==> forall d | d in entries ::
                var m := entries[d];
                && m.id in spool.messages
                && (m.id !in old(spool.messages) ==>
                      spool.messages[m.id] == m.(size := |body|) && m.id in spool.bodies && spool.bodies[m.id] == body)
      ensures !ok ==> exists d :: d in entries && !fate(d).Stored?
      ensures |spool.messages| == |old(spool.messages)| + written
      ensures forall id | id in spool.messages ::
                id in old(spool.messages) || exists d :: d in entries && entries[d].id == id
    {
      var left := entries.Keys;
      ghost var was := spool.messages;
      written := 0;
      while left != {}
        invariant left <= entries.Keys && spool.Valid() && spool.outcomes == old(spool.outcomes)
        invariant PartWay(was, spool.Now(), entries, left, body)
        invariant |spool.messages| == |was| + written
        invariant forall id | id in spool.messages :: id in was || exists d :: d in entries && entries[d].id == id
        decreases left
      {
        var d :| d in left;
        ghost var before := spool.Now();
        if entries[d].id !in spool.messages {
          ok := PutOne(entries[d], body, fate(d));
          if !ok {
            return;
          }
          written := written + 1;
        }
        OneMore(was, before, spool.Now(), entries, left, d, body);
        left := left - {d};
      }
      ok := true;
      assert forall g | g in entries :: Placed(was, spool.Now(), entries[g], body);
    }

    method PutOne(m: Message, body: Bytes, fate: Fate) returns (ok: bool)
      requires spool.Valid() && m.id !in spool.messages
      modifies spool
      ensures spool.Valid() && ok == fate.Stored?
      ensures spool.outcomes == old(spool.outcomes)
      ensures spool.messages == if ok then old(spool.messages)[m.id := m.(size := |body|)] else old(spool.messages)
      ensures ok ==> spool.bodies == old(spool.bodies)[m.id := body]
    {
      ghost var before := spool.Now();
      ok := spool.Put(m, body, !fate.NoFile?, fate.Stored?);
      if !fate.NoFile? {
        ReplayTwo(before, WriteBody(m.id, body),
                  if fate.Stored? then CommitEntry(m.(size := |body|), body) else RemoveBody(m.id));
      }
    }
  }

  lemma BatchSize(keys: seq<string>, rows: map<string, Outcome>)
    requires Distinct(keys) && (forall k | k in keys :: k in rows)
    requires if |rows| > REPORT_BATCH then |keys| == REPORT_BATCH else forall k :: k in rows ==> k in keys
    ensures |set k | k in keys| == if |rows| > 200 then 200 else |rows|
  {
    DistinctSize(keys);
    if |rows| <= REPORT_BATCH {
      assert (set k | k in keys) == rows.Keys;
    }
  }

  lemma RowsOf(keys: seq<string>, rows: seq<Outcome>, pending: map<string, Outcome>, named: set<string>)
    requires |keys| == |rows| && named == (set k | k in keys)
    requires forall i | 0 <= i < |keys| :: keys[i] in pending && pending[keys[i]] == rows[i]
    ensures forall o :: o in rows <==> exists k :: k in named && pending[k] == o
  {
    forall o | o in rows ensures exists k :: k in named && pending[k] == o {
      var i :| 0 <= i < |rows| && rows[i] == o;
      assert keys[i] in named;
    }
    forall o | exists k :: k in named && pending[k] == o ensures o in rows {
      var k :| k in named && pending[k] == o;
      var i :| 0 <= i < |keys| && keys[i] == k;
    }
  }

  lemma {:induction false} DistinctSize(keys: seq<string>)
    requires Distinct(keys)
    ensures |set k | k in keys| == |keys|
  {
    if keys != [] {
      var n := |keys| - 1;
      DistinctSize(keys[..n]);
      assert (set k | k in keys) == (set k | k in keys[..n]) + {keys[n]};
    }
  }

  /** The machine's report is this loop's: once the answer is heard its reporter has exactly
      the steps left that `FlushOutcomes` takes, and the platform's side is told of exactly
      the rows sent. */
  lemma ReportIsTheLoops(s: State, rows: map<string, Outcome>, answer: ReportAnswer)
    ensures var s' := Hear(s, rows, answer);
            && (if answer.Taken? || answer.RefusedForGood?
                then Reporter in s'.threads && Todo(s'.threads[Reporter]) == [DeleteOutcomes(rows.Keys)]
                else Reporter !in s'.threads)
            && s'.disk == s.disk
            && (forall q :: q in s'.reported <==>
                  (q in s.reported ||
                   ((answer.Taken? || answer.TakenUnheard?) && exists k :: k in rows && rows[k].Of() == q)))
            && (forall q :: q in s'.dropped <==>
                  (q in s.dropped || (answer.RefusedForGood? && exists k :: k in rows && rows[k].Of() == q)))
  {
    forall k | k in rows ensures rows[k].Of() in Pairs(rows) {
    }
  }

  // ---- the machine's claim is this loop's ----

  /** The recipients of a message looked at one after another, as the machine does. */
  function ReadAll(s: State, th: Thread): Thread
    requires th.Grouping? && th.batch != []
    decreases |th.batch[0].recipients|
  {
    if th.batch[0].recipients == [] then th else ReadAll(s, ReadOne(s, th))
  }

  /** With nothing in between it keeps what `Sift` keeps, and puts for each domain what
      `SpoolClaimed` puts. */
  lemma {:induction false} ClaimIsItsSteps(s: State, c: Claimed, rest: seq<Claimed>, kept: seq<string>)
    ensures ReadAll(s, Grouping([c] + rest, kept)) ==
            Grouping([c.(recipients := [])] + rest, kept + Kept(s.disk, c.email, c.recipients))
    decreases |c.recipients|
  {
    if c.recipients != [] {
      var next := c.(recipients := c.recipients[1..]);
      var more := if Wanted(s.disk, c.email, c.recipients[0]) then [c.recipients[0]] else [];
      assert ([c] + rest)[1..] == rest;
      assert ReadOne(s, Grouping([c] + rest, kept)) == Grouping([next] + rest, kept + more);
      ClaimIsItsSteps(s, next, rest, kept + more);
      KeptFirst(s.disk, c.email, c.recipients);
      assert kept + more + Kept(s.disk, c.email, c.recipients[1..]) == kept + (more + Kept(s.disk, c.email, c.recipients[1..]));
    }
  }

  lemma {:induction false} KeptFirst(d: Disk, email: string, rcpts: seq<string>)
    requires rcpts != []
    ensures Kept(d, email, rcpts) ==
            (if Wanted(d, email, rcpts[0]) then [rcpts[0]] else []) + Kept(d, email, rcpts[1..])
    decreases |rcpts|
  {
    var n := |rcpts| - 1;
    if n > 0 {
      KeptFirst(d, email, rcpts[..n]);
      assert rcpts[..n][1..] == rcpts[1..][..n - 1];
    } else {
      assert rcpts[..0] == [] && rcpts[1..] == [];
    }
  }

  /** The put the machine plans for a domain is the put of that domain's entry. */
  lemma PlaceIsThePut(s: State, th: Thread, tag: string -> string, domain: string, fate: Fate)
    requires th.Placing? && th.batch != [] && domain in th.groups
    ensures var c, id := th.batch[0], ClaimedId(tag, th.batch[0].email, domain);
            Todo(PlaceGroup(s, th, domain, id, fate)) ==
            if id in s.disk.messages then []
            else PutWrites(Groups(c, tag, th.groups, s.clock)[domain], c.body, !fate.NoFile?, fate.Stored?)
  {
  }
}
