/** The webhook dispatcher's bookkeeping and its delivery loop. */
module DispatchBooks {
  import opened Names

  const MAX_CONCURRENT: nat := 8
  const MAX_PER_PROJECT: nat := 2
  const MAX_PENDING: nat := 256

  function CountOf(m: map<string, nat>, p: string): nat {
    if p in m then m[p] else 0
  }

  /** Deliveries spawned of `n` matched hooks, `waiting` already pending. */
  function Room(waiting: nat, n: nat): nat {
    if waiting >= MAX_PENDING then 0
    else if n <= MAX_PENDING - waiting then n
    else MAX_PENDING - waiting
  }

  /** What the mutex guards, and the tokens in the two kinds of channel. */
  datatype Books = Books(closed: bool, pending: map<string, nat>, own: map<string, nat>, global: nat)

  function Opened(): Books {
    Books(false, map[], map[], 0)
  }

  function Spawning(b: Books, p: string, n: nat): Books {
    if b.closed || Room(CountOf(b.pending, p), n) == 0 then b
    else b.(pending := b.pending[p := CountOf(b.pending, p) + Room(CountOf(b.pending, p), n)])
  }

  /** A count that reaches zero is forgotten. */
  function Finishing(b: Books, p: string): Books {
    if CountOf(b.pending, p) <= 1 then b.(pending := b.pending - {p})
    else b.(pending := b.pending[p := b.pending[p] - 1])
  }

  function TakingOwn(b: Books, p: string): Books {
    b.(own := b.own[p := CountOf(b.own, p) + 1])
  }

  function GivingOwn(b: Books, p: string): Books
    requires CountOf(b.own, p) > 0
  {
    b.(own := b.own[p := b.own[p] - 1])
  }

  /** One webhook as the loop uses it. */
  datatype Hook = Hook(id: string, url: string, secret: string)

  /** What re-reading the hook before an attempt finds: the read failed, the hook still
      listens, or it is gone, disabled or unsubscribed. */
  datatype Reread = Unread | Live(hook: Hook) | Dropped

  /** One round of the loop: whether a slot came before the quit, what the re-read found,
      whether the endpoint took it, and whether the quit came during the retry sleep. */
  datatype Round = Round(slot: bool, reread: Reread, ok: bool, quit: bool)

  datatype Record = Record(hook: Hook, attempt: nat, ok: bool)

  /** The hook an attempt uses: the newest copy read up to it. */
  function Using(h: Hook, rounds: seq<Round>, i: nat): Hook
    requires i <= |rounds|
  {
    if i == 0 then h
    else if rounds[i - 1].reread.Live? then rounds[i - 1].reread.hook
    else Using(h, rounds, i - 1)
  }

  /** That is the copy of the last live re-read before it, or the first one when there was
      none: an edited address or a rotated secret is used from then on. */
  lemma {:induction false} UsesNewestCopy(h: Hook, rounds: seq<Round>, i: nat, k: int)
    requires i <= |rounds| && -1 <= k < i
    requires forall j | k < j < i :: !rounds[j].reread.Live?
    requires k >= 0 ==> rounds[k].reread.Live?
    ensures Using(h, rounds, i) == if k >= 0 then rounds[k].reread.hook else h
    decreases i
  {
    if k < i - 1 { UsesNewestCopy(h, rounds, i - 1, k); }
  }

  class Dispatcher {
    const maxAttempts: nat
    var closed: bool
    var pending: map<string, nat>
    var slots: map<string, nat>
    var sem: nat
    var quit: bool

    constructor (maxAttempts: nat)
      ensures this.maxAttempts == maxAttempts && Now() == Opened() && !quit
    {
      this.maxAttempts := maxAttempts;
      closed, pending, slots, sem, quit := false, map[], map[], 0, false;
    }

    function Now(): Books
      reads this
    {
      Books(closed, pending, slots, sem)
    }

    /** Spawns one delivery per matched hook while there is room; the rest are dropped. */
    method Emit(projID: string, matched: seq<Hook>) returns (spawned: seq<Hook>)
      modifies this`pending
      ensures Now() == Spawning(old(Now()), projID, |matched|)
      ensures spawned <= matched
      ensures old(closed) ==> spawned == [] && pending == old(pending)
      ensures !old(closed) ==>
                && CountOf(pending, projID) == CountOf(old(pending), projID) + |spawned|
                && (CountOf(pending, projID) <= 256 || |spawned| == 0)
                && (|spawned| < |matched| ==> CountOf(pending, projID) >= 256)
      ensures forall p | p != projID :: CountOf(pending, p) == CountOf(old(pending), p)
    {
      spawned := [];
      if closed {
        return;
      }
      ghost var waiting := CountOf(pending, projID);
      for i := 0 to |matched|
        invariant spawned == matched[..Room(waiting, i)]
        invariant pending == Spawning(old(Now()), projID, i).pending
      {
        if CountOf(pending, projID) < MAX_PENDING {
          pending := pending[projID := CountOf(pending, projID) + 1];
          spawned := spawned + [matched[i]];
        }
      }
    }

    method Finished(projID: string)
      requires CountOf(pending, projID) > 0
      modifies this`pending
      ensures Now() == Finishing(old(Now()), projID)
      ensures CountOf(pending, projID) == CountOf(old(pending), projID) - 1
      ensures CountOf(pending, projID) == 0 ==> projID !in pending
      ensures forall p | p != projID :: CountOf(pending, p) == CountOf(old(pending), p)
    {
      var n := CountOf(pending, projID) - 1;
      pending := pending[projID := n];
      if n <= 0 {
        pending := pending - {projID};
      }
    }

    /** The project's slot, then a global one. A quit while waiting for the second gives
        the first back. `first` and `second` tell which case of each select was taken. */
    method Acquire(projID: string, first: bool, second: bool) returns (ok: bool)
      requires first ==> CountOf(slots, projID) < MAX_PER_PROJECT
      requires first && second ==> sem < MAX_CONCURRENT
      requires !first || !second ==> quit
      modifies this`slots, this`sem
      ensures ok == (first && second)
      ensures ok ==> Now() == TakingOwn(old(Now()), projID).(global := old(sem) + 1)
      ensures ok ==> CountOf(slots, projID) == CountOf(old(slots), projID) + 1 <= 2 && sem == old(sem) + 1 <= 8
      ensures forall p | p != projID :: CountOf(slots, p) == CountOf(old(slots), p)
      ensures !ok ==> sem == old(sem) && forall p :: CountOf(slots, p) == CountOf(old(slots), p)
    {
      if projID !in slots {
        slots := slots[projID := 0];
      }
      if !first {
        return false;
      }
      slots := slots[projID := slots[projID] + 1];
      if !second {
        slots := slots[projID := slots[projID] - 1];
        return false;
      }
      sem := sem + 1;
      return true;
    }

    method Release(projID: string)
      requires CountOf(slots, projID) > 0 && sem > 0
      modifies this`slots, this`sem
      ensures Now() == GivingOwn(old(Now()), projID).(global := old(sem) - 1)
      ensures CountOf(slots, projID) == CountOf(old(slots), projID) - 1 && sem == old(sem) - 1
      ensures forall p | p != projID :: CountOf(slots, p) == CountOf(old(slots), p)
    {
      sem := sem - 1;
      slots := slots[projID := slots[projID] - 1];
    }

    /** One whole delivery: its records, and the hook taken out of rotation if it was.
        `rounds` is what each attempt would meet. */
    method Deliver(h: Hook, rounds: seq<Round>) returns (records: seq<Record>, disabled: Option<Hook>)
      requires |rounds| == maxAttempts
      ensures |records| <= maxAttempts
      ensures forall i | 0 <= i < |records| ::
                && rounds[i].slot && !rounds[i].reread.Dropped?
                && records[i].attempt == i + 1 && records[i].ok == rounds[i].ok
                && records[i].hook == Using(h, rounds, i + 1)
      ensures forall i | 0 <= i < |records| - 1 :: !rounds[i].ok && !rounds[i].quit
      ensures disabled == (if |records| == maxAttempts && (maxAttempts == 0 || !rounds[maxAttempts - 1].ok)
                           then Some(Using(h, rounds, maxAttempts)) else None)
      ensures |records| < maxAttempts ==>
                || !rounds[|records|].slot || rounds[|records|].reread.Dropped?
                || (|records| > 0 && (rounds[|records| - 1].ok || rounds[|records| - 1].quit))
    {
      records, disabled := [], None;
      var hook := h;
      var attempt := 1;
      while attempt <= maxAttempts
        invariant 1 <= attempt <= maxAttempts + 1 && |records| == attempt - 1
        invariant hook == Using(h, rounds, attempt - 1)
        invariant forall i | 0 <= i < |records| ::
                    && rounds[i].slot && !rounds[i].reread.Dropped?
                    && records[i] == Record(Using(h, rounds, i + 1), i + 1, rounds[i].ok)
        invariant forall i | 0 <= i < |records| :: !rounds[i].ok && (i < maxAttempts - 1 ==> !rounds[i].quit)
      {
        var round := rounds[attempt - 1];
        if !round.slot {
          return;
        }
        match round.reread {
          case Dropped => return;
          case Live(current) => hook := current;
          case Unread =>
        }
        records := records + [Record(hook, attempt, round.ok)];
        if round.ok {
          return;
        }
        if attempt < maxAttempts && round.quit {
          return;
        }
        attempt := attempt + 1;
      }
      disabled := Some(hook);
    }
  }
}
