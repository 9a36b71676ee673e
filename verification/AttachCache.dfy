/** The attachment cache: least recently used first out, bounded by the bytes it holds. */
module AttachCache {
  import opened Names

  datatype Entry = Entry(key: string, val: string, expires: int)

  /** One cell of the recency list. */
  class Element {
    const entry: Entry

    constructor (entry: Entry)
      ensures this.entry == entry
    {
      this.entry := entry;
    }
  }

  // ---- the recency list as a value, most recent first ----

  function Total(es: seq<Entry>): nat {
    if es == [] then 0 else Total(es[..|es| - 1]) + |es[|es| - 1].val|
  }

  ghost predicate KeysOnce(es: seq<Entry>) {
    forall i, j | 0 <= i < j < |es| :: es[i].key != es[j].key
  }

  function Without(es: seq<Entry>, key: string): seq<Entry> {
    if es == [] then []
    else Without(es[..|es| - 1], key) + (if es[|es| - 1].key == key then [] else [es[|es| - 1]])
  }

  function Find(es: seq<Entry>, key: string): Option<Entry> {
    if es == [] then None
    else if es[|es| - 1].key == key then Some(es[|es| - 1])
    else Find(es[..|es| - 1], key)
  }

  /** Entries dropped from the back until the rest fits. */
  function Fit(es: seq<Entry>, room: int): seq<Entry> {
    if es == [] || Total(es) <= room then es else Fit(es[..|es| - 1], room)
  }

  /** The list after a lookup: a live entry moves to the front, an expired one goes. */
  function LookedUp(es: seq<Entry>, key: string, now: int): seq<Entry> {
    match Find(es, key)
    case None => es
    case Some(e) => if now < e.expires then [e] + Without(es, key) else Without(es, key)
  }

  function Hit(es: seq<Entry>, key: string, now: int): Option<string> {
    match Find(es, key)
    case None => None
    case Some(e) => if now < e.expires then Some(e.val) else None
  }

  function StoredIn(es: seq<Entry>, e: Entry, max: int): seq<Entry> {
    if |e.val| > max then es else [e] + Fit(Without(es, e.key), max - |e.val|)
  }

  lemma {:induction false} TotalAppend(a: seq<Entry>, b: seq<Entry>)
    ensures Total(a + b) == Total(a) + Total(b)
    decreases |b|
  {
    if b == [] {
      assert a + b == a;
    } else {
      var n := |b| - 1;
      assert (a + b)[..|a| + n] == a + b[..n];
      TotalAppend(a, b[..n]);
    }
  }

  lemma {:induction false} FindMember(es: seq<Entry>, key: string)
    ensures Find(es, key).Some? ==> Find(es, key).value in es && Find(es, key).value.key == key
    ensures Find(es, key).None? ==> forall e | e in es :: e.key != key
  {
    if es != [] {
      FindMember(es[..|es| - 1], key);
      assert es == es[..|es| - 1] + [es[|es| - 1]];
    }
  }

  lemma {:induction false} FindAt(es: seq<Entry>, i: nat)
    requires KeysOnce(es) && i < |es|
    ensures Find(es, es[i].key) == Some(es[i])
  {
    if i < |es| - 1 {
      FindAt(es[..|es| - 1], i);
    }
  }

  /** In a list that names no key twice, removing a key removes its one place. */
  lemma {:induction false} WithoutAt(es: seq<Entry>, i: nat)
    requires KeysOnce(es) && i < |es|
    ensures Without(es, es[i].key) == Dropped(es, i)
  {
    var n := |es| - 1;
    if i == n {
      WithoutNone(es[..n], es[i].key);
      assert es[i + 1..] == [];
    } else {
      WithoutAt(es[..n], i);
      assert es[..n][..i] == es[..i] && es[..n][i + 1..] + [es[n]] == es[i + 1..];
    }
  }

  lemma {:induction false} WithoutNone(es: seq<Entry>, key: string)
    requires forall e | e in es :: e.key != key
    ensures Without(es, key) == es
  {
    if es != [] {
      var n := |es| - 1;
      assert es == es[..n] + [es[n]];
      WithoutNone(es[..n], key);
    }
  }

  /** What stays of the old order is its longest beginning that fits. */
  lemma {:induction false} FitIsLongestPrefix(es: seq<Entry>, room: int, k: nat)
    requires room >= 0 && k <= |es|
    ensures Fit(es, room) <= es
    ensures Total(es[..k]) <= room <==> k <= |Fit(es, room)|
    decreases |es|
  {
    var n := |es| - 1;
    if es == [] {
      assert es[..k] == es;
    } else if Total(es) <= room {
      assert es[..k] + es[k..] == es;
      TotalAppend(es[..k], es[k..]);
    } else if k == |es| {
      FitIsLongestPrefix(es[..n], room, n);
      assert es[..k] == es;
    } else {
      FitIsLongestPrefix(es[..n], room, k);
      assert es[..n][..k] == es[..k];
    }
  }

  /** A value is found exactly while an entry of that key has not expired. */
  lemma HitExactly(es: seq<Entry>, key: string, now: int)
    requires KeysOnce(es)
    ensures forall e | e in es && e.key == key && now < e.expires :: Hit(es, key, now) == Some(e.val)
    ensures Hit(es, key, now).Some? <==> exists e :: e in es && e.key == key && now < e.expires
  {
    FindMember(es, key);
    forall e | e in es && e.key == key ensures Find(es, key) == Some(e) {
      var i :| 0 <= i < |es| && es[i] == e;
      FindAt(es, i);
    }
  }

  /** A lookup by its place: a live entry goes to the front and the others keep their order;
      an expired one goes; nothing else changes the list. */
  lemma LookupAt(es: seq<Entry>, key: string, now: int)
    requires KeysOnce(es)
    ensures (forall e | e in es :: e.key != key) ==> Hit(es, key, now) == None && LookedUp(es, key, now) == es
    ensures forall i | 0 <= i < |es| && es[i].key == key ::
              if now < es[i].expires
              then Hit(es, key, now) == Some(es[i].val) && LookedUp(es, key, now) == [es[i]] + es[..i] + es[i + 1..]
              else Hit(es, key, now) == None && LookedUp(es, key, now) == es[..i] + es[i + 1..]
  {
    FindMember(es, key);
    forall i | 0 <= i < |es| && es[i].key == key
      ensures Find(es, key) == Some(es[i]) && Without(es, key) == es[..i] + es[i + 1..]
    {
      FindAt(es, i);
      WithoutAt(es, i);
    }
    forall i | 0 <= i < |es| && es[i].key == key
      ensures [es[i]] + (es[..i] + es[i + 1..]) == [es[i]] + es[..i] + es[i + 1..]
    {
    }
  }

  /** `e` first, and behind it as much of `rest` as still fits beside it, from the front. */
  ghost predicate FrontOfWhatFits(rest: seq<Entry>, e: Entry, max: int, now: seq<Entry>) {
    && now != [] && now[0] == e && now[1..] <= rest
    && forall k | 0 <= k <= |rest| :: (Total(rest[..k]) + |e.val| <= max <==> k <= |now| - 1)
  }

  lemma StoreFits(es: seq<Entry>, e: Entry, max: int)
    ensures |e.val| > max ==> StoredIn(es, e, max) == es
    ensures |e.val| <= max ==> FrontOfWhatFits(Without(es, e.key), e, max, StoredIn(es, e, max))
  {
    if |e.val| <= max {
      var rest := Without(es, e.key);
      forall k: nat | k <= |rest|
        ensures Fit(rest, max - |e.val|) <= rest
        ensures Total(rest[..k]) <= max - |e.val| <==> k <= |Fit(rest, max - |e.val|)|
      {
        FitIsLongestPrefix(rest, max - |e.val|, k);
      }
      assert 0 <= |rest| && Fit(rest, max - |e.val|) <= rest by { FitIsLongestPrefix(rest, max - |e.val|, 0); }
    }
  }

  // ---- the cache ----

  function EntriesOf(order: seq<Element>): (es: seq<Entry>)
    ensures |es| == |order| && forall i | 0 <= i < |es| :: es[i] == order[i].entry
  {
    seq(|order|, i requires 0 <= i < |order| => order[i].entry)
  }

  /** Every listed element is the map's element for its key, and the other way round. */
  ghost predicate Bijection(order: seq<Element>, items: map<string, Element>) {
    && KeysOnce(EntriesOf(order))
    && (forall k | k in items :: items[k] in order && items[k].entry.key == k)
    && (forall i | 0 <= i < |order| :: order[i].entry.key in items && items[order[i].entry.key] == order[i])
  }

  function Dropped<T>(s: seq<T>, i: nat): seq<T>
    requires i < |s|
  {
    s[..i] + s[i + 1..]
  }

  lemma DropKeepsBijection(order: seq<Element>, items: map<string, Element>, i: nat)
    requires Bijection(order, items) && i < |order|
    ensures EntriesOf(Dropped(order, i)) == Dropped(EntriesOf(order), i)
    ensures Bijection(Dropped(order, i), items - {order[i].entry.key})
  {
    var rest := Dropped(order, i);
    DropEntries(order, i);
    WithoutKeysOnce(EntriesOf(order), i);
    forall k | k in items && k != order[i].entry.key ensures items[k] in rest {
      var j :| 0 <= j < |order| && order[j] == items[k];
      assert order[j] == rest[if j < i then j else j - 1];
    }
  }

  lemma DropEntries(order: seq<Element>, i: nat)
    requires i < |order|
    ensures EntriesOf(Dropped(order, i)) == Dropped(EntriesOf(order), i)
    ensures forall j | 0 <= j < |order| - 1 :: Dropped(order, i)[j] == order[if j < i then j else j + 1]
  {
  }

  lemma FrontKeepsBijection(order: seq<Element>, items: map<string, Element>, el: Element)
    requires Bijection(order, items) && el.entry.key !in items
    ensures EntriesOf([el] + order) == [el.entry] + EntriesOf(order)
    ensures Bijection([el] + order, items[el.entry.key := el])
  {
    assert EntriesOf([el] + order) == [el.entry] + EntriesOf(order);
    forall i | 0 <= i < |order| ensures order[i].entry.key != el.entry.key {
      assert order[i].entry.key in items;
    }
    forall k | k in items ensures items[k] in [el] + order {
      var j :| 0 <= j < |order| && order[j] == items[k];
      assert ([el] + order)[j + 1] == items[k];
    }
  }

  lemma FrontAgain(order: seq<Element>, items: map<string, Element>, i: nat)
    requires Bijection(order, items) && i < |order|
    ensures var moved := [order[i]] + Dropped(order, i);
            && EntriesOf(moved) == [order[i].entry] + Dropped(EntriesOf(order), i)
            && Bijection(moved, items) && Total(EntriesOf(moved)) == Total(EntriesOf(order))
  {
    var el := order[i];
    DropKeepsBijection(order, items, i);
    FrontKeepsBijection(Dropped(order, i), items - {el.entry.key}, el);
    assert (items - {el.entry.key})[el.entry.key := el] == items;
    TotalWithout(EntriesOf(order), i);
    TotalFront(el.entry, Dropped(EntriesOf(order), i));
  }

  class Cache {
    const max: int
    const ttl: int
    var size: int
    var order: seq<Element>
    var items: map<string, Element>

    constructor (max: int, ttl: int)
      ensures this.max == max && this.ttl == ttl && Valid() && Recency() == []
    {
      this.max, this.ttl := max, ttl;
      size, order, items := 0, [], map[];
    }

    function Recency(): seq<Entry>
      reads this
    {
      EntriesOf(order)
    }

    /** List and map in bijection, and the counter the sum, within the budget. */
    ghost predicate Valid()
      reads this
    {
      && Paired()
      && (order == [] || size <= max)
    }

    ghost predicate Paired()
      reads this
    {
      Bijection(order, items) && size == Total(Recency())
    }

    /** Drops one element from the list, the map and the count. */
    method Remove(el: Element)
      requires Paired() && el in order
      modifies this
      ensures Paired() && Recency() == Without(old(Recency()), el.entry.key)
      ensures size == old(size) - |el.entry.val| && items == old(items) - {el.entry.key}
      ensures |order| == |old(order)| - 1
    {
      var i :| 0 <= i < |order| && order[i] == el;
      WithoutAt(Recency(), i);
      TotalWithout(Recency(), i);
      DropKeepsBijection(order, items, i);
      order := Dropped(order, i);
      items := items - {el.entry.key};
      size := size - |el.entry.val|;
    }

    method Lookup(key: string, now: int) returns (val: Option<string>)
      requires Valid()
      modifies this
      ensures Valid() && val == Hit(old(Recency()), key, now)
      ensures Recency() == LookedUp(old(Recency()), key, now)
      ensures (forall e | e in old(Recency()) :: e.key != key) ==> val == None && Recency() == old(Recency())
      ensures forall i | 0 <= i < |old(Recency())| && old(Recency())[i].key == key ::
                var es := old(Recency());
                if now < es[i].expires then val == Some(es[i].val) && Recency() == [es[i]] + es[..i] + es[i + 1..]
                else val == None && Recency() == es[..i] + es[i + 1..]
    {
      ghost var es := Recency();
      LookupAt(es, key, now);
      FindMember(es, key);
      if key !in items {
        return None;
      }
      var el := items[key];
      var i: nat :| i < |order| && order[i] == el;
      FindAt(es, i);
      if now >= el.entry.expires {
        Remove(el);
        return None;
      }
      MoveToFront(i);
      return Some(el.entry.val);
    }

    method MoveToFront(i: nat)
      requires Valid() && i < |order|
      modifies this`order
      ensures Valid() && Recency() == [old(order)[i].entry] + Without(old(Recency()), old(order)[i].entry.key)
    {
      WithoutAt(Recency(), i);
      FrontAgain(order, items, i);
      order := [order[i]] + Dropped(order, i);
    }

    /** Keeps a value, evicting from the back until it fits. A value larger than the whole
        budget is not kept, and leaves the list as it was. */
    method Store(key: string, val: string, now: int)
      requires Valid()
      modifies this
      ensures Valid() && Recency() == StoredIn(old(Recency()), Entry(key, val, now + ttl), max)
      ensures |val| > max ==> Recency() == old(Recency())
      ensures |val| <= max ==> FrontOfWhatFits(Without(old(Recency()), key), Entry(key, val, now + ttl), max, Recency())
    {
      StoreFits(Recency(), Entry(key, val, now + ttl), max);
      if |val| <= max {
        Keep(Entry(key, val, now + ttl));
      }
    }

    method Keep(e: Entry)
      requires Valid() && |e.val| <= max
      modifies this
      ensures Valid() && Recency() == [e] + Fit(Without(old(Recency()), e.key), max - |e.val|)
    {
      ghost var kept := Fit(Without(Recency(), e.key), max - |e.val|);
      MakeRoom(e.key, |e.val|);
      assert Recency() == kept;
      PushNew(e);
    }

    method PushNew(e: Entry)
      requires Paired() && e.key !in items && size + |e.val| <= max
      modifies this
      ensures Valid() && Recency() == [e] + old(Recency())
    {
      var el := new Element(e);
      PushFront(el);
    }

    /** Drops the key's old value, then whatever else must go. */
    method MakeRoom(key: string, n: nat)
      requires Paired() && n <= max
      modifies this
      ensures Paired() && size + n <= max && key !in items
      ensures Recency() == Fit(Without(old(Recency()), key), max - n)
    {
      ghost var es := Recency();
      FindMember(es, key);
      if key in items {
        Remove(items[key]);
      } else {
        WithoutNone(es, key);
      }
      Evict(n);
    }

    /** The eviction loop: the list is never empty when something must go. */
    method Evict(n: nat)
      requires Paired() && n <= max
      modifies this
      ensures Paired() && size + n <= max
      ensures Recency() == Fit(old(Recency()), max - n)
      ensures items.Keys <= old(items).Keys
    {
      while size + n > max
        invariant Paired() && Fit(Recency(), max - n) == Fit(old(Recency()), max - n)
        invariant items.Keys <= old(items).Keys
        decreases |order|
      {
        RemoveBack();
      }
    }

    method RemoveBack()
      requires Paired() && order != []
      modifies this
      ensures Paired() && Recency() == old(Recency())[..|old(order)| - 1] && |order| == |old(order)| - 1
      ensures items.Keys <= old(items).Keys
    {
      var last := |order| - 1;
      WithoutAt(Recency(), last);
      assert Dropped(Recency(), last) == Recency()[..last];
      Remove(order[last]);
    }

    method PushFront(el: Element)
      requires Paired() && el.entry.key !in items && size + |el.entry.val| <= max
      modifies this
      ensures Valid() && Recency() == [el.entry] + old(Recency())
    {
      TotalFront(el.entry, Recency());
      FrontKeepsBijection(order, items, el);
      order := [el] + order;
      items := items[el.entry.key := el];
      size := size + |el.entry.val|;
    }

    /** One call: the cached value, or what the loader gives, kept when it succeeds.
        `loaded` is the loader's answer, should it be asked. The clock is read for each of
        the two looks, and again once the loader has answered. */
    method Get(key: string, now: int, again: int, stored: int, loaded: Option<string>) returns (val: Option<string>)
      requires Valid()
      modifies this
      ensures Valid()
      ensures var before := if max <= 0 || ttl <= 0 then None else Hit(old(Recency()), key, now);
              val == if before.Some? then before else loaded
      ensures Recency() == Got(old(Recency()), key, now, stored, loaded, max, ttl)
      ensures max <= 0 || ttl <= 0 ==> val == loaded && Recency() == old(Recency())
      ensures max > 0 && ttl > 0 && (exists e :: e in old(Recency()) && e.key == key && now < e.expires) ==>
                Recency() != [] && Recency()[0].key == key && val == Some(Recency()[0].val)
      ensures max > 0 && ttl > 0 && !(exists e :: e in old(Recency()) && e.key == key && now < e.expires) ==>
                && val == loaded
                && (loaded.Some? && |loaded.value| <= max ==>
                      Recency() != [] && Recency()[0] == Entry(key, loaded.value, stored + ttl))
    {
      HitExactly(Recency(), key, now);
      if max <= 0 || ttl <= 0 {
        return loaded;
      }
      ghost var es := Recency();
      val := Lookup(key, now);
      if val.Some? {
        return;
      }
      // The second look, inside the shared load.
      MissAgain(es, key, now);
      val := Lookup(key, again);
      if val.Some? || loaded.None? {
        return;
      }
      Store(key, loaded.value, stored);
      val := loaded;
    }
  }

  /** The list after one call. */
  function Got(es: seq<Entry>, key: string, now: int, stored: int, loaded: Option<string>, max: int, ttl: int): seq<Entry> {
    if max <= 0 || ttl <= 0 then es
    else if Hit(es, key, now).Some? || loaded.None? then LookedUp(es, key, now)
    else StoredIn(LookedUp(es, key, now), Entry(key, loaded.value, stored + ttl), max)
  }

  lemma TotalFront(e: Entry, es: seq<Entry>)
    ensures Total([e] + es) == |e.val| + Total(es)
  {
    TotalAppend([e], es);
    assert [e][..0] == [];
  }

  lemma TotalWithout(es: seq<Entry>, i: nat)
    requires i < |es|
    ensures Total(Dropped(es, i)) == Total(es) - |es[i].val|
  {
    assert es == es[..i] + [es[i]] + es[i + 1..];
    TotalAppend(es[..i] + [es[i]], es[i + 1..]);
    TotalAppend(es[..i], es[i + 1..]);
    assert (es[..i] + [es[i]])[..i] == es[..i];
  }

  lemma WithoutKeysOnce(es: seq<Entry>, i: nat)
    requires KeysOnce(es) && i < |es|
    ensures KeysOnce(Dropped(es, i))
  {
  }

  /** A key just missed is missed again, and nothing more changes. */
  lemma MissAgain(es: seq<Entry>, key: string, now: int)
    requires KeysOnce(es) && Hit(es, key, now).None?
    ensures Find(LookedUp(es, key, now), key).None?
  {
    FindMember(es, key);
    if Find(es, key).Some? {
      FindMember(Without(es, key), key);
      WithoutGone(es, key);
    }
  }

  lemma {:induction false} WithoutGone(es: seq<Entry>, key: string)
    ensures forall e :: e in Without(es, key) <==> e in es && e.key != key
  {
    if es != [] {
      var n := |es| - 1;
      WithoutGone(es[..n], key);
      assert es == es[..n] + [es[n]];
    }
  }

  // ---- over whole runs, with a loader that is a function of the key ----

  /** A call that looks at `now` and, should it have to load, stores at `stored`. */
  datatype Call = Call(key: string, now: int, stored: int, fails: bool)

  function Loaded(loader: string -> string, c: Call): Option<string> {
    if c.fails then None else Some(loader(c.key))
  }

  /** The list after a run of calls on a new cache. */
  function After(loader: string -> string, calls: seq<Call>, max: int, ttl: int): seq<Entry> {
    if calls == [] then []
    else
      var c := calls[|calls| - 1];
      Got(After(loader, calls[..|calls| - 1], max, ttl), c.key, c.now, c.stored, Loaded(loader, c), max, ttl)
  }

  /** Call `j` asked the loader and kept its answer. */
  ghost predicate LoadedAt(loader: string -> string, calls: seq<Call>, max: int, ttl: int, j: nat) {
    j < |calls| && !calls[j].fails && Hit(After(loader, calls[..j], max, ttl), calls[j].key, calls[j].now).None?
  }

  /** An entry is a loader's answer, and it expires one TTL after it was stored. */
  ghost predicate Genuine(loader: string -> string, calls: seq<Call>, max: int, ttl: int, e: Entry) {
    && e.val == loader(e.key)
    && exists j: nat :: LoadedAt(loader, calls, max, ttl, j) && calls[j].key == e.key && e.expires == calls[j].stored + ttl
  }

  ghost predicate Sound(loader: string -> string, calls: seq<Call>, max: int, ttl: int, es: seq<Entry>) {
    && KeysOnce(es) && (max >= 0 ==> Total(es) <= max)
    && forall e | e in es :: Genuine(loader, calls, max, ttl, e)
  }

  lemma {:induction false} WithoutShrinks(es: seq<Entry>, key: string)
    requires KeysOnce(es)
    ensures KeysOnce(Without(es, key)) && Total(Without(es, key)) <= Total(es)
    ensures Find(es, key).Some? ==> Total(Without(es, key)) == Total(es) - |Find(es, key).value.val|
  {
    FindMember(es, key);
    if Find(es, key).None? {
      WithoutNone(es, key);
    } else {
      var i :| 0 <= i < |es| && es[i] == Find(es, key).value;
      WithoutAt(es, i);
      TotalWithout(es, i);
      WithoutKeysOnce(es, i);
    }
  }

  lemma FrontKeysOnce(es: seq<Entry>, e: Entry)
    requires KeysOnce(es) && forall x | x in es :: x.key != e.key
    ensures KeysOnce([e] + es)
  {
  }

  /** A lookup and a store keep keys apart, stay within the budget and bring in nothing
      but what is stored. */
  lemma LookupKeeps(es: seq<Entry>, key: string, now: int, es': seq<Entry>)
    requires KeysOnce(es) && es' == LookedUp(es, key, now)
    ensures KeysOnce(es') && Total(es') <= Total(es) && forall x | x in es' :: x in es
  {
    FindMember(es, key);
    WithoutShrinks(es, key);
    WithoutGone(es, key);
    if Find(es, key).Some? {
      FrontKeysOnce(Without(es, key), Find(es, key).value);
      TotalFront(Find(es, key).value, Without(es, key));
    }
  }

  lemma StoreKeeps(es: seq<Entry>, e: Entry, max: int)
    requires KeysOnce(es) && Total(es) <= max
    ensures var es' := StoredIn(es, e, max);
            KeysOnce(es') && Total(es') <= max && forall x | x in es' :: x in es || x == e
  {
    if |e.val| <= max {
      var rest := Without(es, e.key);
      WithoutShrinks(es, e.key);
      WithoutGone(es, e.key);
      FitKeeps(rest, max - |e.val|);
      FrontKeeps(Fit(rest, max - |e.val|), e);
    }
  }

  lemma FrontKeeps(kept: seq<Entry>, e: Entry)
    requires KeysOnce(kept) && forall x | x in kept :: x.key != e.key
    ensures KeysOnce([e] + kept) && Total([e] + kept) == |e.val| + Total(kept)
    ensures forall x | x in [e] + kept :: x == e || x in kept
  {
    FrontKeysOnce(kept, e);
    TotalFront(e, kept);
  }

  lemma FitKeeps(es: seq<Entry>, room: int)
    requires KeysOnce(es) && room >= 0
    ensures var kept := Fit(es, room);
            KeysOnce(kept) && Total(kept) <= room && forall x | x in kept :: x in es
  {
    var kept := Fit(es, room);
    FitIsLongestPrefix(es, room, 0);
    FitIsLongestPrefix(es, room, |kept|);
    assert kept == es[..|kept|];
  }

  lemma GenuineLater(loader: string -> string, calls: seq<Call>, c: Call, max: int, ttl: int, e: Entry)
    requires Genuine(loader, calls, max, ttl, e)
    ensures Genuine(loader, calls + [c], max, ttl, e)
  {
    var j: nat :| LoadedAt(loader, calls, max, ttl, j) && calls[j].key == e.key && e.expires == calls[j].stored + ttl;
    assert (calls + [c])[..j] == calls[..j];
    assert LoadedAt(loader, calls + [c], max, ttl, j);
  }

  lemma CallKeeps(es: seq<Entry>, c: Call, loaded: Option<string>, max: int, ttl: int)
    requires KeysOnce(es) && (max >= 0 ==> Total(es) <= max)
    ensures var es' := Got(es, c.key, c.now, c.stored, loaded, max, ttl);
            && KeysOnce(es') && (max >= 0 ==> Total(es') <= max)
            && forall x | x in es' :: x in es ||
                 (max > 0 && ttl > 0 && Hit(es, c.key, c.now).None? && loaded.Some? &&
                  x == Entry(c.key, loaded.value, c.stored + ttl))
  {
    var now := Got(es, c.key, c.now, c.stored, loaded, max, ttl);
    if max <= 0 || ttl <= 0 {
      assert now == es;
    } else if Hit(es, c.key, c.now).None? && loaded.Some? {
      LookupStoreKeeps(es, c.key, c.now, Entry(c.key, loaded.value, c.stored + ttl), max, now);
    } else {
      LookupKeeps(es, c.key, c.now, now);
    }
  }

  lemma LookupStoreKeeps(es: seq<Entry>, key: string, now: int, e: Entry, max: int, es': seq<Entry>)
    requires KeysOnce(es) && Total(es) <= max && es' == StoredIn(LookedUp(es, key, now), e, max)
    ensures KeysOnce(es') && Total(es') <= max && forall x | x in es' :: x in es || x == e
  {
    var mid := LookedUp(es, key, now);
    LookupKeeps(es, key, now, mid);
    StoreKeeps(mid, e, max);
  }

  lemma {:induction false} SoundRun(loader: string -> string, calls: seq<Call>, max: int, ttl: int)
    ensures Sound(loader, calls, max, ttl, After(loader, calls, max, ttl))
  {
    if calls != [] {
      var n := |calls| - 1;
      var front, c, es := calls[..n], calls[n], After(loader, calls[..n], max, ttl);
      assert calls == front + [c];
      SoundRun(loader, front, max, ttl);
      forall e | e in es ensures Genuine(loader, calls, max, ttl, e) { GenuineLater(loader, front, c, max, ttl, e); }
      CallKeeps(es, c, Loaded(loader, c), max, ttl);
      forall e | e in After(loader, calls, max, ttl) ensures Genuine(loader, calls, max, ttl, e) {
        if e !in es { assert LoadedAt(loader, calls, max, ttl, n); }
      }
    }
  }

  /** Over every run of calls, evictions and expiries: what the cache answers is what the
      loader would, and it answers only with what was stored less than one TTL ago. */
  lemma CacheAgreesWithLoader(loader: string -> string, calls: seq<Call>, key: string, now: int, max: int, ttl: int)
    ensures var es := After(loader, calls, max, ttl);
            && KeysOnce(es) && (max >= 0 ==> Total(es) <= max)
            && (Hit(es, key, now).Some? ==>
                  && Hit(es, key, now).value == loader(key)
                  && exists j: nat :: LoadedAt(loader, calls, max, ttl, j) && calls[j].key == key && now < calls[j].stored + ttl)
  {
    SoundRun(loader, calls, max, ttl);
    FindMember(After(loader, calls, max, ttl), key);
  }

  // ---- the list is in the order of last use ----

  /** Call `c`, made after `before`, found its value or kept what it loaded. */
  ghost predicate Uses(loader: string -> string, before: seq<Call>, c: Call, max: int, ttl: int) {
    && max > 0 && ttl > 0
    && ((exists e :: e in After(loader, before, max, ttl) && e.key == c.key && c.now < e.expires)
        || (!c.fails && |loader(c.key)| <= max))
  }

  /** The last call that used a key, -1 when none did. */
  ghost function LastUse(loader: string -> string, calls: seq<Call>, max: int, ttl: int, key: string): int {
    if calls == [] then -1
    else
      var n := |calls| - 1;
      if calls[n].key == key && Uses(loader, calls[..n], calls[n], max, ttl) then n
      else LastUse(loader, calls[..n], max, ttl, key)
  }

  lemma {:induction false} LastUseIs(loader: string -> string, calls: seq<Call>, max: int, ttl: int, key: string)
    ensures var j := LastUse(loader, calls, max, ttl, key);
            && -1 <= j < |calls|
            && (j >= 0 ==> calls[j].key == key && Uses(loader, calls[..j], calls[j], max, ttl))
            && forall m | j < m < |calls| && calls[m].key == key :: !Uses(loader, calls[..m], calls[m], max, ttl)
  {
    if calls != [] {
      var n := |calls| - 1;
      var front := calls[..n];
      LastUseIs(loader, front, max, ttl, key);
      forall m | 0 <= m < n ensures front[..m] == calls[..m] && front[m] == calls[m] {
      }
    }
  }

  ghost predicate ByLastUse(loader: string -> string, calls: seq<Call>, max: int, ttl: int, es: seq<Entry>) {
    && (forall i | 0 <= i < |es| :: LastUse(loader, calls, max, ttl, es[i].key) >= 0)
    && forall i, k | 0 <= i < k < |es| ::
         LastUse(loader, calls, max, ttl, es[i].key) > LastUse(loader, calls, max, ttl, es[k].key)
  }

  /** Fewer entries, in the same order. */
  lemma OrderOfFewer(loader: string -> string, calls: seq<Call>, max: int, ttl: int, es: seq<Entry>, i: nat)
    requires ByLastUse(loader, calls, max, ttl, es) && i < |es|
    ensures ByLastUse(loader, calls, max, ttl, es[..i] + es[i + 1..])
  {
    var rest := es[..i] + es[i + 1..];
    assert forall k | 0 <= k < |rest| :: rest[k] == es[if k < i then k else k + 1];
  }

  /** A call changes the last use of its own key alone. */
  lemma OthersUse(loader: string -> string, calls: seq<Call>, c: Call, max: int, ttl: int, es: seq<Entry>)
    requires ByLastUse(loader, calls, max, ttl, es) && forall e | e in es :: e.key != c.key
    ensures ByLastUse(loader, calls + [c], max, ttl, es)
    ensures forall e | e in es :: LastUse(loader, calls + [c], max, ttl, e.key) < |calls|
  {
    assert (calls + [c])[..|calls|] == calls;
    forall e | e in es
      ensures LastUse(loader, calls + [c], max, ttl, e.key) == LastUse(loader, calls, max, ttl, e.key) < |calls|
    {
      LastUseIs(loader, calls, max, ttl, e.key);
    }
    assert forall i | 0 <= i < |es| :: es[i] in es;
  }

  /** The key just used stands before all others. */
  lemma UsedComesFirst(loader: string -> string, calls: seq<Call>, c: Call, max: int, ttl: int, es: seq<Entry>, e: Entry)
    requires ByLastUse(loader, calls, max, ttl, es) && forall x | x in es :: x.key != c.key
    requires e.key == c.key && Uses(loader, calls, c, max, ttl)
    ensures ByLastUse(loader, calls + [c], max, ttl, [e] + es)
  {
    OthersUse(loader, calls, c, max, ttl, es);
    assert (calls + [c])[..|calls|] == calls;
    assert LastUse(loader, calls + [c], max, ttl, e.key) == |calls|;
    assert forall i | 0 <= i < |es| :: es[i] in es;
  }

  /** The keys stand in the order they were last used, the latest first - so what a store
      drops from the back is what was used longest ago. */
  lemma {:induction false} ListedByLastUse(loader: string -> string, calls: seq<Call>, max: int, ttl: int)
    ensures KeysOnce(After(loader, calls, max, ttl))
    ensures ByLastUse(loader, calls, max, ttl, After(loader, calls, max, ttl))
  {
    SoundRun(loader, calls, max, ttl);
    if calls != [] {
      var n := |calls| - 1;
      var front, c := calls[..n], calls[n];
      assert calls == front + [c];
      ListedByLastUse(loader, front, max, ttl);
      if max > 0 && ttl > 0 {
        LookupThenUse(loader, front, c, max, ttl);
      } else {
        NothingKept(loader, front, max, ttl);
      }
    }
  }

  lemma {:induction false} NothingKept(loader: string -> string, calls: seq<Call>, max: int, ttl: int)
    requires max <= 0 || ttl <= 0
    ensures After(loader, calls, max, ttl) == []
  {
    if calls != [] { NothingKept(loader, calls[..|calls| - 1], max, ttl); }
  }

  /** What a lookup leaves besides the call's own key. */
  lemma Others(es: seq<Entry>, key: string) returns (rest: seq<Entry>, at: nat)
    requires KeysOnce(es)
    ensures at <= |es| && (forall e | e in rest :: e.key != key)
    ensures if at < |es| then es[at].key == key && rest == es[..at] + es[at + 1..] else rest == es
  {
    if i: nat :| i < |es| && es[i].key == key {
      rest, at := es[..i] + es[i + 1..], i;
    } else {
      rest, at := es, |es|;
    }
  }

  /** A lookup by what it leaves besides its own key. */
  lemma LookedUpBy(es: seq<Entry>, key: string, now: int, rest: seq<Entry>, at: nat)
    requires KeysOnce(es) && at <= |es| && (forall e | e in rest :: e.key != key)
    requires if at < |es| then es[at].key == key && rest == es[..at] + es[at + 1..] else rest == es
    ensures if at < |es| && now < es[at].expires
            then Hit(es, key, now).Some? && LookedUp(es, key, now) == [es[at]] + rest
            else Hit(es, key, now).None? && LookedUp(es, key, now) == rest
  {
    LookupAt(es, key, now);
    if at < |es| { assert [es[at]] + es[..at] + es[at + 1..] == [es[at]] + rest; }
  }

  /** A store that is kept, by how much of the rest stays. */
  lemma StoredBy(rest: seq<Entry>, e: Entry, max: int) returns (k: nat)
    requires (forall x | x in rest :: x.key != e.key) && |e.val| <= max
    ensures k <= |rest| && StoredIn(rest, e, max) == [e] + rest[..k]
  {
    var room := max - |e.val|;
    var kept := Fit(rest, room);
    WithoutNone(rest, e.key);
    FitIsLongestPrefix(rest, room, 0);
    k := |kept|;
    assert kept == rest[..k] && StoredIn(rest, e, max) == [e] + kept;
  }

  /** The list after a call, by where its key was and how much of the rest is kept. */
  lemma GotBy(es: seq<Entry>, c: Call, loaded: Option<string>, max: int, ttl: int, rest: seq<Entry>, at: nat) returns (k: nat)
    requires max > 0 && ttl > 0 && KeysOnce(es) && at <= |es| && (forall e | e in rest :: e.key != c.key)
    requires if at < |es| then es[at].key == c.key && rest == es[..at] + es[at + 1..] else rest == es
    ensures k <= |rest|
    ensures var now := Got(es, c.key, c.now, c.stored, loaded, max, ttl);
            if at < |es| && c.now < es[at].expires then now == [es[at]] + rest
            else if loaded.Some? && |loaded.value| <= max
            then now == [Entry(c.key, loaded.value, c.stored + ttl)] + rest[..k]
            else now == rest
  {
    k := 0;
    LookedUpBy(es, c.key, c.now, rest, at);
    if loaded.Some? && |loaded.value| <= max {
      k := StoredBy(rest, Entry(c.key, loaded.value, c.stored + ttl), max);
    }
  }

  lemma OrderOfBeginning(loader: string -> string, calls: seq<Call>, max: int, ttl: int, es: seq<Entry>, k: nat)
    requires ByLastUse(loader, calls, max, ttl, es) && k <= |es|
    ensures ByLastUse(loader, calls, max, ttl, es[..k])
  {
  }

  /** What a call leaves is in order: its own key first if it used it, and then others that
      were in order. */
  lemma InOrderAfter(loader: string -> string, front: seq<Call>, c: Call, max: int, ttl: int, rest: seq<Entry>, k: nat,
                     first: Option<Entry>, now: seq<Entry>)
    requires ByLastUse(loader, front, max, ttl, rest) && (forall e | e in rest :: e.key != c.key) && k <= |rest|
    requires now == if first.Some? then [first.value] + rest[..k] else rest[..k]
    requires first.Some? ==> first.value.key == c.key && Uses(loader, front, c, max, ttl)
    ensures ByLastUse(loader, front + [c], max, ttl, now)
  {
    OrderOfBeginning(loader, front, max, ttl, rest, k);
    assert forall e | e in rest[..k] :: e in rest;
    if first.Some? {
      UsedComesFirst(loader, front, c, max, ttl, rest[..k], first.value);
    } else {
      OthersUse(loader, front, c, max, ttl, rest[..k]);
    }
  }

  lemma LookupThenUse(loader: string -> string, front: seq<Call>, c: Call, max: int, ttl: int)
    requires max > 0 && ttl > 0 && KeysOnce(After(loader, front, max, ttl))
    requires ByLastUse(loader, front, max, ttl, After(loader, front, max, ttl))
    ensures ByLastUse(loader, front + [c], max, ttl, After(loader, front + [c], max, ttl))
  {
    var es, loaded := After(loader, front, max, ttl), Loaded(loader, c);
    var now := AfterOneMore(loader, front, c, max, ttl);
    var rest, at := Others(es, c.key);
    var k := GotBy(es, c, loaded, max, ttl, rest, at);
    RestInOrder(loader, front, max, ttl, es, rest, at);
    if at < |es| && c.now < es[at].expires {
      assert rest[..|rest|] == rest && es[at] in es;
      InOrderAfter(loader, front, c, max, ttl, rest, |rest|, Some(es[at]), now);
    } else if loaded.Some? && |loaded.value| <= max {
      InOrderAfter(loader, front, c, max, ttl, rest, k, Some(Entry(c.key, loaded.value, c.stored + ttl)), now);
    } else {
      assert rest[..|rest|] == rest;
      InOrderAfter(loader, front, c, max, ttl, rest, |rest|, None, now);
    }
  }

  lemma AfterOneMore(loader: string -> string, front: seq<Call>, c: Call, max: int, ttl: int) returns (now: seq<Entry>)
    ensures now == After(loader, front + [c], max, ttl)
    ensures now == Got(After(loader, front, max, ttl), c.key, c.now, c.stored, Loaded(loader, c), max, ttl)
  {
    now := After(loader, front + [c], max, ttl);
    assert (front + [c])[..|front|] == front;
  }

  lemma RestInOrder(loader: string -> string, calls: seq<Call>, max: int, ttl: int, es: seq<Entry>, rest: seq<Entry>, at: nat)
    requires ByLastUse(loader, calls, max, ttl, es) && at <= |es|
    requires rest == if at < |es| then es[..at] + es[at + 1..] else es
    ensures ByLastUse(loader, calls, max, ttl, rest)
  {
    if at < |es| { OrderOfFewer(loader, calls, max, ttl, es, at); }
  }
}
