/** A node that takes its mail by claims, all its promises together. That ids are unused,
    which the other theorems ask of every put, follows here from the platform's contract,
    claimed ids being computed and not drawn. */
module PullNode {
  import opened Node
  import opened Conservation
  import opened ClaimOnce
  import opened Files
  import opened EntryLife
  import opened Shrink

  ghost predicate NoSessions(s: State) {
    forall t | t in s.threads :: !t.Session?
  }

  ghost predicate PullState(p: Platform, s: State) {
    WellFormed(p) && Inv(p.recipients.Keys, s) && PullInv(p, s) && NoSessions(s)
  }

  lemma NoSessionsKept(p: Platform, s: State, a: Act)
    requires NoSessions(s) && Enabled(s, a) && Honest(p, s, a)
    ensures NoSessions(Do(s, a))
  {
    if a.ReadDue? {
      LaunchThreads(s, a.due);
      forall t | t in Do(s, a).threads ensures !t.Session? {
        assert LaunchedOrSame(s, Do(s, a), a.due, t);
      }
    }
  }

  /** The id computed for a group about to be put has no entry yet and no put under way. */
  lemma ClaimedIdIsFresh(p: Platform, s: State, a: Act)
    requires PullState(p, s) && Enabled(s, a) && Honest(p, s, a)
    ensures FreshIds(s, a) && NewId(s, a)
  {
    HonestAdmissible(p, s, a);
    if a.Place? {
      var th := s.threads[Claimer];
      assert GroupOk(p, s, th.batch[0].email, a.domain, th.groups[a.domain]);
      NewGroupNewId(p, s, th.batch[0].email, a.domain, th.groups[a.domain]);
      assert forall t | t in s.threads && Puts(t) :: t == Claimer;
    }
  }

  lemma PullStateKept(p: Platform, s: State, a: Act)
    requires PullState(p, s) && Enabled(s, a) && Honest(p, s, a)
    ensures PullState(p, Do(s, a))
  {
    PullEmailsTellApart(p);
    HonestAdmissible(p, s, a);
    InvKept(p.recipients.Keys, s, a);
    PullKept(p, s, a);
    NoSessionsKept(p, s, a);
  }

  /** The sweeps are kept apart as `k` says in every state of the run. */
  ghost predicate KeepsAlong(k: Discipline, p: Platform, s: State, acts: seq<Act>)
    requires PullRuns(p, s, acts)
    decreases |acts|
  {
    Keeps(k, s) && (acts == [] || KeepsAlong(k, p, Do(s, acts[0]), acts[1..]))
  }

  lemma {:induction false} PullRunIsNew(p: Platform, s: State, acts: seq<Act>)
    requires PullState(p, s) && PullRuns(p, s, acts)
    ensures NewRun(s, acts) && Reaches(s, acts) == PullReached(p, s, acts)
    decreases |acts|
  {
    if acts != [] {
      ClaimedIdIsFresh(p, s, acts[0]);
      PullStateKept(p, s, acts[0]);
      PullRunIsNew(p, Do(s, acts[0]), acts[1..]);
    }
  }

  lemma {:induction false} PullRunsUnder(k: Discipline, p: Platform, s: State, acts: seq<Act>)
    requires PullState(p, s) && PullRuns(p, s, acts) && KeepsAlong(k, p, s, acts)
    ensures RunsUnder(k, s, acts) && Under(k, s, acts) == PullReached(p, s, acts)
    decreases |acts|
  {
    if acts != [] {
      ClaimedIdIsFresh(p, s, acts[0]);
      PullStateKept(p, s, acts[0]);
      PullRunsUnder(k, p, Do(s, acts[0]), acts[1..]);
    }
  }

  /** Everything at once, of every run of a pull node under the platform's contract. Always:
      nothing accepted is lost, nothing is spooled twice, every put has an id of its own.
      With the sweeps kept apart: every entry has its bytes. Without a crash: nobody is
      mailed twice. */
  lemma PullNodeKeepsItsPromises(p: Platform, rules: Rules, clock: int, acts: seq<Act>)
    requires WellFormed(p) && PullRuns(p, Boot(rules, clock), acts)
    ensures var s0, s := Boot(rules, clock), PullReached(p, Boot(rules, clock), acts);
            && NewRun(s0, acts) && Reaches(s0, acts) == s
            && Conserved(s) && (forall t, m | Committing(s, t, m) :: AllNew(s, m))
            && (KeepsAlong(CALM, p, s0, acts) ==> BytesKept(s))
            && (QuietRun(s0, acts) ==> forall id, r | Offering(s, id, r) :: Done(id, r) !in s.done)
  {
    var s0 := Boot(rules, clock);
    PullRunIsNew(p, s0, acts);
    NothingSpooledTwice(p, rules, clock, acts);
    if KeepsAlong(CALM, p, s0, acts) {
      PullRunsUnder(CALM, p, s0, acts);
      EveryEntryHasItsBytes(rules, clock, acts);
    }
    if QuietRun(s0, acts) {
      forall id, r | Offering(Reaches(s0, acts), id, r) ensures Done(id, r) !in Reaches(s0, acts).done {
        NeverSentAgain(rules, clock, acts, id);
      }
    }
  }

  /** A conversation about this entry is offering this recipient. */
  ghost predicate Offering(s: State, id: string, r: string) {
    Attempt(id) in s.threads && s.threads[Attempt(id)].Sending? && r in s.threads[Attempt(id)].m.recipients
  }
}
