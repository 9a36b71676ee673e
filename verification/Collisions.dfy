/** The one thing conservation asks of its callers, shown to be exactly what it needs: two
    email ids that share a key lose a recipient in a run without any failure. */
module Collisions {
  import opened Names
  import opened DurableSteps
  import opened SpoolFiles
  import opened Delivery
  import opened Node
  import opened Conservation

  /** Every message handed over is `text` of its email: the bytes that carry its id in their
      header. */
  ghost predicate Carries(text: string -> Bytes, acts: seq<Act>) {
    forall a | a in acts :: HandsOver(text, a)
  }

  ghost predicate HandsOver(text: string -> Bytes, a: Act) {
    a.Accept? ==> forall m | m in a.ms :: a.body == text(m.emailID)
  }

  /** Some run from `s` reaches `s'`. */
  ghost predicate Leads(emails: set<string>, text: string -> Bytes, s: State, s': State) {
    exists acts :: Runs(emails, s, acts) && Carries(text, acts) && Reached(emails, s, acts) == s'
  }

  lemma {:induction false} RunsOn(emails: set<string>, s: State, a: seq<Act>, b: seq<Act>)
    requires Runs(emails, s, a) && Runs(emails, Reached(emails, s, a), b)
    ensures Runs(emails, s, a + b) && Reached(emails, s, a + b) == Reached(emails, Reached(emails, s, a), b)
    decreases |a|
  {
    if a == [] {
      assert a + b == b;
    } else {
      RunsOn(emails, Do(s, a[0]), a[1..], b);
      assert (a + b)[1..] == a[1..] + b;
    }
  }

  lemma LeadsOn(emails: set<string>, text: string -> Bytes, s: State, s': State, s'': State)
    requires Leads(emails, text, s, s') && Leads(emails, text, s', s'')
    ensures Leads(emails, text, s, s'')
  {
    var a :| Runs(emails, s, a) && Carries(text, a) && Reached(emails, s, a) == s';
    var b :| Runs(emails, s', b) && Carries(text, b) && Reached(emails, s', b) == s'';
    RunsOn(emails, s, a, b);
    assert Carries(text, a + b);
  }

  lemma LeadsBy(emails: set<string>, text: string -> Bytes, s: State, a: Act)
    requires Enabled(s, a) && Admissible(emails, s, a) && HandsOver(text, a)
    ensures Leads(emails, text, s, Do(s, a))
  {
    assert [a][1..] == [];
    assert Runs(emails, Do(s, a), []) && Reached(emails, Do(s, a), []) == Do(s, a);
    assert Runs(emails, s, [a]) && Carries(text, [a]) && Reached(emails, s, [a]) == Do(s, a);
  }

  lemma LeadsStep(emails: set<string>, text: string -> Bytes, s: State, t: Tid)
    requires t in s.threads && Todo(s.threads[t]) != []
    requires Todo(s.threads[t])[0].CommitEntry? ==> Todo(s.threads[t])[0].m.id !in s.ids
    ensures Leads(emails, text, s, TakeStep(s, t))
  {
    LeadsBy(emails, text, s, Step(t));
  }

  lemma LeadsEnd(emails: set<string>, text: string -> Bytes, s: State, t: Tid)
    requires t in s.threads && s.threads[t] == Writing([])
    ensures Leads(emails, text, s, s.(threads := s.threads - {t}))
  {
    LeadsBy(emails, text, s, End(t));
  }

  lemma LeadsAccept(emails: set<string>, text: string -> Bytes, s: State, m: Message)
    requires s.threads == map[] && m.emailID in emails && m.attempts == 0 && m.nextAttempt == m.acceptedAt
    ensures Leads(emails, text, s, s.(threads := map[Session(0) := Writing(AcceptWrites([m], text(m.emailID), Stored))]))
  {
    LeadsBy(emails, text, s, Accept(0, [m], text(m.emailID), Stored));
  }

  lemma LeadsDue(emails: set<string>, text: string -> Bytes, s: State, id: string)
    requires s.threads == map[] && id in s.disk.messages && IsDue(s.disk.messages[id], s.clock)
    ensures Leads(emails, text, s, s.(threads := map[Attempt(id) := Queued(s.disk.messages[id])]))
  {
    LeadsBy(emails, text, s, ReadDue({id}));
    assert Launch(s, {id}).threads == map[Attempt(id) := Queued(s.disk.messages[id])];
  }

  lemma LeadsOpen(emails: set<string>, text: string -> Bytes, s: State, id: string)
    requires Attempt(id) in s.threads && s.threads[Attempt(id)].Queued?
    ensures Leads(emails, text, s, OpenAttempt(s, id, s.threads[Attempt(id)].m))
  {
    LeadsBy(emails, text, s, Open(id));
  }

  lemma LeadsConclude(emails: set<string>, text: string -> Bytes, s: State, id: string, a: Answer)
    requires Attempt(id) in s.threads && s.threads[Attempt(id)].Sending? && ValidAnswer(s.threads[Attempt(id)].m, a)
    ensures Leads(emails, text, s, ConcludeAttempt(s, id, s.threads[Attempt(id)].m, a))
  {
    LeadsBy(emails, text, s, Conclude(id, a));
  }

  /** A message to one recipient, accepted now. */
  function Fresh(id: string, emailID: string, domain: string, r: string, now: int, size: nat): Message {
    Message(id, emailID, "a@e.com", domain, [r], 0, now, now, size)
  }

  /** The node after it accepted `m` and nothing else is going on. */
  function Taking(s: State, m: Message, body: Bytes): State {
    s.(disk := s.disk.(messages := s.disk.messages[m.id := m], bodies := s.disk.bodies[m.id := body]),
       ids := s.ids + {m.id}, accepted := s.accepted[m.id := body],
       committed := s.committed + (set r | r in m.recipients :: Held(m.id, m.emailID, r)))
  }

  /** A lone thread takes its next step; only the disk changes with it. */
  lemma LeadsAlone(emails: set<string>, text: string -> Bytes, s: State, t: Tid, todo: seq<Write>)
    requires todo != [] && s.threads == map[t := Writing(todo)] && !todo[0].CommitEntry? && !todo[0].CommitInbound?
    ensures Leads(emails, text, s, s.(threads := map[t := Writing(todo[1..])], disk := Apply(s.disk, todo[0])))
  {
    LeadsStep(emails, text, s, t);
    assert TakeStep(s, t).threads == map[t := Writing(todo[1..])];
  }

  /** It can carry out all of its plan and end. */
  lemma {:induction false} LeadsThrough(emails: set<string>, text: string -> Bytes, s: State, t: Tid, todo: seq<Write>)
    requires s.threads == map[t := Writing(todo)]
    requires forall w | w in todo :: !w.CommitEntry? && !w.CommitInbound?
    ensures Leads(emails, text, s, s.(threads := map[], disk := Replay(s.disk, todo)))
    decreases |todo|
  {
    if todo == [] {
      LeadsEnd(emails, text, s, t);
      assert s.threads - {t} == map[];
    } else {
      var s' := s.(threads := map[t := Writing(todo[1..])], disk := Apply(s.disk, todo[0]));
      LeadsAlone(emails, text, s, t, todo);
      LeadsThrough(emails, text, s', t, todo[1..]);
      LeadsOn(emails, text, s, s', s.(threads := map[], disk := Replay(s.disk, todo)));
    }
  }

  lemma LeadsCommit(emails: set<string>, text: string -> Bytes, s: State, t: Tid, m: Message, body: Bytes)
    requires s.threads == map[t := Writing([CommitEntry(m, body)])] && m.id !in s.ids
    ensures Leads(emails, text, s, Stepped(s.(threads := map[]), CommitEntry(m, body)))
  {
    var s' := Stepped(s.(threads := map[t := Writing([])]), CommitEntry(m, body));
    LastStep(s, t, CommitEntry(m, body));
    LeadsStep(emails, text, s, t);
    LeadsEnd(emails, text, s', t);
    assert s'.threads - {t} == map[];
    LeadsOn(emails, text, s, s', Stepped(s.(threads := map[]), CommitEntry(m, body)));
  }

  lemma LastStep(s: State, t: Tid, w: Write)
    requires s.threads == map[t := Writing([w])]
    ensures TakeStep(s, t) == Stepped(s.(threads := map[t := Writing([])]), w)
  {
    assert [w][1..] == [];
    assert Took(s.threads[t]) == Writing([]);
    assert s.threads[t := Writing([])] == map[t := Writing([])];
  }

  lemma LeadsTaking(emails: set<string>, text: string -> Bytes, s: State, m: Message)
    requires s.threads == map[] && m.id !in s.ids && m.emailID in emails && m.size == |text(m.emailID)|
    requires m.attempts == 0 && m.nextAttempt == m.acceptedAt
    ensures Leads(emails, text, s, Taking(s, m, text(m.emailID)))
  {
    var t, body := Session(0), text(m.emailID);
    var plan := [WriteBody(m.id, body), CommitEntry(m, body)];
    assert AcceptWrites([m], body, Stored) == plan && plan[1..] == [CommitEntry(m, body)];
    LeadsAccept(emails, text, s, m);
    var s1 := s.(threads := map[t := Writing(plan)]);
    var s2 := s.(threads := map[t := Writing([CommitEntry(m, body)])], disk := Apply(s.disk, plan[0]));
    LeadsAlone(emails, text, s1, t, plan);
    LeadsOn(emails, text, s, s1, s2);
    LeadsCommit(emails, text, s2, t, m, body);
    LeadsOn(emails, text, s, s2, Taking(s, m, body));
  }

  /** The node after it delivered `m`, the only message it held. */
  function Delivering(s: State, m: Message, r: string): State {
    s.(disk := s.disk.(messages := s.disk.messages - {m.id}, bodies := s.disk.bodies - {m.id},
                       outcomes := s.disk.outcomes[OutcomeKey(m.emailID, r) := Outcome(m.emailID, r, true, false)]),
       done := s.done + {Done(m.id, r)})
  }

  lemma LeadsSending(emails: set<string>, text: string -> Bytes, s: State, m: Message)
    requires s.threads == map[] && m.id in s.disk.messages && s.disk.messages[m.id] == m && m.id in s.disk.bodies
    requires m.nextAttempt == m.acceptedAt == s.clock
    ensures Leads(emails, text, s, s.(threads := map[Attempt(m.id) := Sending(m.(attempts := m.attempts + 1), s.disk.bodies[m.id])]))
  {
    LeadsDue(emails, text, s, m.id);
    var s1 := s.(threads := map[Attempt(m.id) := Queued(m)]);
    LeadsOpen(emails, text, s1, m.id);
    var s2 := s.(threads := map[Attempt(m.id) := Sending(m.(attempts := m.attempts + 1), s.disk.bodies[m.id])]);
    assert OpenAttempt(s1, m.id, m) == s2;
    LeadsOn(emails, text, s, s1, s2);
  }

  function DeliveredPlan(m: Message, r: string): seq<Write> {
    [PutOutcome(Outcome(m.emailID, r, true, false)), DeleteEntry(m.id), RemoveBody(m.id)]
  }

  lemma LeadsAnswered(emails: set<string>, text: string -> Bytes, s: State, n: Message, r: string, body: Bytes)
    requires s.threads == map[Attempt(n.id) := Sending(n, body)] && n.recipients == [r] && n.emailID != ""
    ensures Leads(emails, text, s, s.(threads := map[Attempt(n.id) := Writing(DeliveredPlan(n, r))],
                                done := s.done + {Done(n.id, r)}))
  {
    var answer := Answered([Verdict.Taken], []);
    AnswerOfOne(n, r);
    LeadsConclude(emails, text, s, n.id, answer);
    assert ConcludePlan(s, n, answer) == DeliveredPlan(n, r);
    assert Ended(n, answer) == {Done(n.id, r)};
  }

  lemma LeadsDelivering(emails: set<string>, text: string -> Bytes, s: State, m: Message, r: string)
    requires s.threads == map[] && m.id in s.disk.messages && s.disk.messages[m.id] == m && m.id in s.disk.bodies
    requires m.recipients == [r] && m.emailID != "" && m.nextAttempt == m.acceptedAt == s.clock
    ensures Leads(emails, text, s, Delivering(s, m, r))
  {
    var t := Attempt(m.id);
    var n := m.(attempts := m.attempts + 1);
    LeadsSending(emails, text, s, m);
    var s2 := s.(threads := map[t := Sending(n, s.disk.bodies[m.id])]);
    LeadsAnswered(emails, text, s2, n, r, s.disk.bodies[m.id]);
    var s3 := s.(threads := map[t := Writing(DeliveredPlan(n, r))], done := s.done + {Done(m.id, r)});
    LeadsOn(emails, text, s, s2, s3);
    LeadsRecorded(emails, text, s, m, n, r);
    LeadsOn(emails, text, s, s3, Delivering(s, m, r));
  }

  /** The outcome is written down and the message dropped. */
  lemma LeadsRecorded(emails: set<string>, text: string -> Bytes, s: State, m: Message, n: Message, r: string)
    requires s.threads == map[] && n == m.(attempts := n.attempts)
    ensures Leads(emails, text, s.(threads := map[Attempt(m.id) := Writing(DeliveredPlan(n, r))], done := s.done + {Done(m.id, r)}),
                  Delivering(s, m, r))
  {
    var s3 := s.(threads := map[Attempt(m.id) := Writing(DeliveredPlan(n, r))], done := s.done + {Done(m.id, r)});
    LeadsThrough(emails, text, s3, Attempt(m.id), DeliveredPlan(n, r));
    ReplayThree(s.disk, DeliveredPlan(n, r));
  }

  lemma ReplayThree(d: Disk, plan: seq<Write>)
    requires |plan| == 3
    ensures Replay(d, plan) == Apply(Apply(Apply(d, plan[0]), plan[1]), plan[2])
  {
    ReplayTwo(Apply(d, plan[0]), plan[1], plan[2]);
    assert plan[1..] == [plan[1], plan[2]];
  }

  lemma AnswerOfOne(n: Message, r: string)
    requires n.recipients == [r] && n.emailID != ""
    ensures var a := Answered([Verdict.Taken], []);
            ValidAnswer(n, a) && Converse(n.recipients, a.verdicts) == Conversation([r], map[]) &&
            Retry(n, a) == [] && Refusals(n, a) == []
  {
    assert n.recipients[..0] == [] && [Verdict.Taken][..0] == [];
    assert Converse([], []) == Conversation([], map[]);
  }

  /** Two email ids that share a key lose a recipient, whatever the messages say and whatever
      address it is: both are accepted and delivered, one row is left, and the platform
      never hears of the other. */
  lemma SharedKeyLoses(emails: set<string>, text: string -> Bytes, rules: Rules, clock: int, e: string, f: string, r: string)
    returns (acts: seq<Act>)
    requires e in emails && f in emails && e != "" && e + [SEPARATOR] <= f && Domain(r).Some?
    ensures Runs(emails, Boot(rules, clock), acts) && Carries(text, acts)
    ensures !Conserved(Reached(emails, Boot(rules, clock), acts))
    ensures forall h | h in Reached(emails, Boot(rules, clock), acts).committed :: Domain(h.rcpt) == Domain(r)
  {
    var p, q := Collision(e, f, r);
    DomainOfTail(f[|e| + 1..] + [SEPARATOR], r);
    var m := Fresh("1", e, Domain(r).value, p.recipient, clock, |text(e)|);
    var n := Fresh("2", f, Domain(r).value, q.recipient, clock, |text(f)|);
    var s := BothDelivered(emails, text, rules, clock, m, n, p.recipient, q.recipient);
    acts :| Runs(emails, Boot(rules, clock), acts) && Carries(text, acts) && Reached(emails, Boot(rules, clock), acts) == s;
    assert Held("1", e, p.recipient) in s.committed && !Kept(s, Held("1", e, p.recipient));
  }

  /** Two messages one after the other, each to one recipient, the outcomes in one row. */
  lemma BothDelivered(emails: set<string>, text: string -> Bytes, rules: Rules, clock: int, m: Message, n: Message,
                      r: string, q: string) returns (s: State)
    requires m.emailID in emails && n.emailID in emails && m.emailID != "" && n.emailID != ""
    requires m == Fresh("1", m.emailID, m.domain, r, clock, |text(m.emailID)|)
    requires n == Fresh("2", n.emailID, n.domain, q, clock, |text(n.emailID)|)
    requires OutcomeKey(m.emailID, r) == OutcomeKey(n.emailID, q)
    ensures Leads(emails, text, Boot(rules, clock), s) && s.reported == s.dropped == {} && s.disk.messages == map[]
    ensures s.disk.outcomes == map[OutcomeKey(n.emailID, q) := Outcome(n.emailID, q, true, false)]
    ensures s.committed == {Held("1", m.emailID, r), Held("2", n.emailID, q)}
  {
    var s0 := Boot(rules, clock);
    var s1 := Delivering(Taking(s0, m, text(m.emailID)), m, r);
    s := Delivering(Taking(s1, n, text(n.emailID)), n, q);
    WhatIsLeft(s0, s1, m, text(m.emailID), r);
    WhatIsLeft(s1, s, n, text(n.emailID), q);
    LeadsBoth(emails, text, s0, m, r);
    LeadsBoth(emails, text, s1, n, q);
    LeadsOn(emails, text, s0, s1, s);
  }

  lemma WhatIsLeft(s: State, s': State, m: Message, body: Bytes, r: string)
    requires s' == Delivering(Taking(s, m, body), m, r) && m.recipients == [r] && s.disk.messages == map[]
    ensures s'.threads == s.threads && s'.clock == s.clock && s'.ids == s.ids + {m.id}
    ensures s'.disk.messages == map[] && s'.reported == s.reported && s'.dropped == s.dropped
    ensures s'.disk.outcomes == s.disk.outcomes[OutcomeKey(m.emailID, r) := Outcome(m.emailID, r, true, false)]
    ensures s'.committed == s.committed + {Held(m.id, m.emailID, r)}
  {
  }

  /** Taken and delivered. */
  lemma LeadsBoth(emails: set<string>, text: string -> Bytes, s: State, m: Message, r: string)
    requires s.threads == map[] && m.id !in s.ids && m.emailID in emails && m.emailID != "" && m.size == |text(m.emailID)|
    requires m.attempts == 0 && m.recipients == [r] && m.nextAttempt == m.acceptedAt == s.clock
    ensures Leads(emails, text, s, Delivering(Taking(s, m, text(m.emailID)), m, r))
  {
    var s1 := Taking(s, m, text(m.emailID));
    LeadsTaking(emails, text, s, m);
    LeadsDelivering(emails, text, s1, m, r);
    LeadsOn(emails, text, s, s1, Delivering(s1, m, r));
  }

  ghost predicate AlwaysConserved(emails: set<string>, text: string -> Bytes, s: State) {
    forall acts | Runs(emails, s, acts) && Carries(text, acts) :: Conserved(Reached(emails, s, acts))
  }

  /** Whatever the messages say: conservation holds over every run exactly when no email id
      of the accepted messages begins with another one and a separator. */
  lemma ConservedExactly(emails: set<string>, text: string -> Bytes, rules: Rules, clock: int)
    requires "" !in emails
    ensures AlwaysConserved(emails, text, Boot(rules, clock)) <==> Unambiguous(emails)
  {
    if Unambiguous(emails) {
      forall acts | Runs(emails, Boot(rules, clock), acts)
        ensures Conserved(Reached(emails, Boot(rules, clock), acts))
      {
        NothingAcceptedIsLost(emails, rules, clock, acts);
      }
    } else {
      var e, f :| e in emails && f in emails && e + [SEPARATOR] <= f;
      assert AfterLast("@e.org", '@').Some? && "b@e.org"[1..] == "@e.org";
      var acts := SharedKeyLoses(emails, text, rules, clock, e, f, "b@e.org");
    }
  }
}
