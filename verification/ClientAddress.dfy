/** Whose address a request came from: the forwarded header is walked from its right end,
    which a trusted proxy wrote, and never further than trust reaches. */
module ClientAddress {
  import opened Names

  predicate IsSpace(c: char) {
    c in {' ', '\t', '\n', '\r', 11 as char, 12 as char, 0x85 as char, 0xA0 as char}
  }

  function TrimLeft(s: string): string {
    if s != "" && IsSpace(s[0]) then TrimLeft(s[1..]) else s
  }

  function TrimRight(s: string): string {
    if s != "" && IsSpace(s[|s| - 1]) then TrimRight(s[..|s| - 1]) else s
  }

  function Trim(s: string): string {
    TrimRight(TrimLeft(s))
  }

  /** A text without the white space around it. */
  lemma TrimIs(s: string) returns (i: nat, j: nat)
    ensures i <= j <= |s| && Trim(s) == s[i..j]
    ensures forall k | 0 <= k < |s| && (k < i || k >= j) :: IsSpace(s[k])
    ensures Trim(s) != "" ==> !IsSpace(Trim(s)[0]) && !IsSpace(Trim(s)[|Trim(s)| - 1])
  {
    i := TrimLeftIs(s);
    j := TrimRightIs(s[i..]);
    j := i + j;
  }

  lemma {:induction false} TrimLeftIs(s: string) returns (i: nat)
    ensures i <= |s| && TrimLeft(s) == s[i..] && (forall k | 0 <= k < i :: IsSpace(s[k]))
    ensures i < |s| ==> !IsSpace(s[i])
  {
    i := 0;
    if s != "" && IsSpace(s[0]) {
      i := TrimLeftIs(s[1..]);
      i := i + 1;
    }
  }

  lemma {:induction false} TrimRightIs(s: string) returns (j: nat)
    ensures j <= |s| && TrimRight(s) == s[..j] && (forall k | j <= k < |s| :: IsSpace(s[k]))
    ensures j > 0 ==> !IsSpace(s[j - 1])
  {
    j := |s|;
    if s != "" && IsSpace(s[|s| - 1]) {
      j := TrimRightIs(s[..|s| - 1]);
    }
  }

  /** The position of the last `c`, -1 when there is none. */
  function LastIndex(s: string, c: char): (i: int)
    ensures -1 <= i < |s|
    ensures i >= 0 ==> s[i] == c
    ensures forall k | i < k < |s| :: s[k] != c
  {
    if s == "" then -1
    else if s[|s| - 1] == c then |s| - 1
    else LastIndex(s[..|s| - 1], c)
  }

  /** The comma-separated entries of a header. */
  function Entries(s: string): (es: seq<string>)
    ensures es != []
    decreases |s|
  {
    var at := LastIndex(s, ',');
    if at < 0 then [s] else Entries(s[..at]) + [s[at + 1..]]
  }

  /** The header lines as one, in order. */
  function Joined(lines: seq<string>): string {
    if lines == [] then ""
    else if |lines| == 1 then lines[0]
    else Joined(lines[..|lines| - 1]) + ", " + lines[|lines| - 1]
  }

  /** The entries from the right: empty and trusted ones are passed over, the first other
      one is the caller, and an unreadable one or none at all leaves only the peer. `Addr`
      is an address in its canonical form. */
  function Walk<Addr>(parse: string -> Option<Addr>, trusted: Addr -> bool, entries: seq<string>): Option<Addr> {
    if entries == [] then None
    else
      var entry := Trim(entries[|entries| - 1]);
      if entry == "" then Walk(parse, trusted, entries[..|entries| - 1])
      else match parse(entry)
        case None => None
        case Some(addr) => if trusted(addr) then Walk(parse, trusted, entries[..|entries| - 1]) else Some(addr)
  }

  /** The caller is the entry that reads as an address nobody trusts, with only empty and
      trusted ones to its right. There is none when no entry is like that. */
  lemma WalkFindsTheCaller<Addr>(parse: string -> Option<Addr>, trusted: Addr -> bool,
                                 entries: seq<string>, a: Addr)
    ensures Walk(parse, trusted, entries) == Some(a) <==>
            exists i :: 0 <= i < |entries| && Trim(entries[i]) != "" && parse(Trim(entries[i])) == Some(a) && !trusted(a) &&
              forall k | i < k < |entries| ::
                Trim(entries[k]) == "" || (parse(Trim(entries[k])).Some? && trusted(parse(Trim(entries[k])).value))
  {
    CallerAtFound(parse, trusted, entries, a);
    if i :| CallerAt(parse, trusted, entries, a, i) {
      assert Trim(entries[i]) != "";
    }
    forall i | 0 <= i < |entries| && Trim(entries[i]) != "" && parse(Trim(entries[i])) == Some(a) && !trusted(a) &&
               forall k | i < k < |entries| ::
                 Trim(entries[k]) == "" || (parse(Trim(entries[k])).Some? && trusted(parse(Trim(entries[k])).value))
      ensures CallerAt(parse, trusted, entries, a, i)
    {
    }
  }

  lemma {:induction false} CallerAtFound<Addr>(parse: string -> Option<Addr>, trusted: Addr -> bool,
                                               entries: seq<string>, a: Addr)
    ensures Walk(parse, trusted, entries) == Some(a) <==> exists i :: CallerAt(parse, trusted, entries, a, i)
  {
    if entries != [] {
      CallerAtFound(parse, trusted, entries[..|entries| - 1], a);
      CallerInFront(parse, trusted, entries, a);
    }
  }

  ghost predicate CallerAt<Addr>(parse: string -> Option<Addr>, trusted: Addr -> bool, entries: seq<string>, a: Addr, i: int) {
    0 <= i < |entries| && Trim(entries[i]) != "" && parse(Trim(entries[i])) == Some(a) && !trusted(a) &&
    forall k | i < k < |entries| ::
      Trim(entries[k]) == "" || (parse(Trim(entries[k])).Some? && trusted(parse(Trim(entries[k])).value))
  }

  /** A caller is the last entry, or in front of one that is passed over. */
  lemma CallerInFront<Addr>(parse: string -> Option<Addr>, trusted: Addr -> bool, entries: seq<string>, a: Addr)
    requires entries != []
    ensures var n, last := |entries| - 1, Trim(entries[|entries| - 1]);
            (exists i :: CallerAt(parse, trusted, entries, a, i)) <==>
            if last == "" || (parse(last).Some? && trusted(parse(last).value))
            then exists i :: CallerAt(parse, trusted, entries[..n], a, i)
            else parse(last) == Some(a)
  {
    var n := |entries| - 1;
    forall i | CallerAt(parse, trusted, entries, a, i) && i < n ensures CallerAt(parse, trusted, entries[..n], a, i) {
    }
    forall i | CallerAt(parse, trusted, entries[..n], a, i)
      ensures Trim(entries[n]) == "" || (parse(Trim(entries[n])).Some? && trusted(parse(Trim(entries[n])).value)) ==>
                CallerAt(parse, trusted, entries, a, i)
    {
      assert forall k | 0 <= k < n :: entries[..n][k] == entries[k];
    }
    if parse(Trim(entries[n])) == Some(a) && !trusted(a) && Trim(entries[n]) != "" {
      assert CallerAt(parse, trusted, entries, a, n);
    }
  }

  /** The walk ends at one of these entries: one that is unreadable or not trusted. */
  predicate Settles<Addr>(parse: string -> Option<Addr>, trusted: Addr -> bool, entries: seq<string>) {
    exists i :: 0 <= i < |entries| && Decides(parse, trusted, entries[i])
  }

  predicate Decides<Addr>(parse: string -> Option<Addr>, trusted: Addr -> bool, entry: string) {
    var e := Trim(entry);
    e != "" && (parse(e).None? || !trusted(parse(e).value))
  }

  /** Whether some prefix of the list contains the address. */
  method IsTrusted<Prefix, Addr>(list: seq<Prefix>, contains: (Prefix, Addr) -> bool, addr: Addr) returns (found: bool)
    ensures found <==> exists p :: p in list && contains(p, addr)
  {
    for i := 0 to |list|
      invariant forall p | p in list[..i] :: !contains(p, addr)
    {
      if contains(list[i], addr) {
        return true;
      }
    }
    assert list[..|list|] == list;
    return false;
  }

  /** The backward scan over the text. The answer is the peer, or a forwarded address: the
      one nobody trusts with only empty and trusted entries to its right. */
  method Scan<Addr>(parse: string -> Option<Addr>, trusted: Addr -> bool, forwarded: string) returns (caller: Option<Addr>)
    ensures caller == Walk(parse, trusted, Entries(forwarded))
    ensures forall a :: caller == Some(a) <==> exists i :: CallerAt(parse, trusted, Entries(forwarded), a, i)
  {
    caller := ScanBack(parse, trusted, forwarded);
    forall a ensures caller == Some(a) <==> exists i :: CallerAt(parse, trusted, Entries(forwarded), a, i) {
      CallerAtFound(parse, trusted, Entries(forwarded), a);
    }
  }

  method ScanBack<Addr>(parse: string -> Option<Addr>, trusted: Addr -> bool, forwarded: string) returns (caller: Option<Addr>)
    ensures caller == Walk(parse, trusted, Entries(forwarded))
  {
    var i: int := |forwarded|;
    assert forwarded[..i] == forwarded;
    while i > 0
      invariant -1 <= i <= |forwarded|
      invariant Walk(parse, trusted, Entries(forwarded)) ==
                (if i < 0 then None else Walk(parse, trusted, Entries(forwarded[..i])))
    {
      var start := LastIndex(forwarded[..i], ',') + 1;
      var entry := Trim(forwarded[start..i]);
      EntryStep(forwarded, i, start);
      i := start - 1;
      if entry == "" {
        continue;
      }
      var addr := parse(entry);
      if addr.None? {
        return None;
      }
      if !trusted(addr.value) {
        return addr;
      }
    }
    if i == 0 {
      NoEntry(parse, trusted);
      assert forwarded[..0] == "";
    }
    return None;
  }

  /** The last entry of the text up to `i`, and the text before it. */
  lemma EntryStep(s: string, i: nat, start: nat)
    requires i <= |s| && start == LastIndex(s[..i], ',') + 1
    ensures Entries(s[..i]) == (if start == 0 then [] else Entries(s[..start - 1])) + [s[start..i]]
  {
    assert s[..i][start..] == s[start..i];
    if start > 0 {
      assert s[..i][..start - 1] == s[..start - 1];
    } else {
      assert s[..i] == s[0..i];
    }
  }

  lemma NoEntry<Addr>(parse: string -> Option<Addr>, trusted: Addr -> bool)
    ensures Walk(parse, trusted, Entries("")) == None
  {
    assert Entries("") == [""];
    assert Trim("") == "";
    assert [""][..0] == [];
  }

  /** The caller of a request. Only a peer that is a proxy of ours is believed. */
  method Resolve<Addr>(parse: string -> Option<Addr>, trusted: Addr -> bool, anyTrusted: bool, peer: string,
                       lines: seq<string>) returns (caller: Option<Addr>)
    ensures caller == if anyTrusted && parse(peer).Some? && trusted(parse(peer).value)
                      then Walk(parse, trusted, Entries(Joined(lines))) else None
  {
    if !anyTrusted {
      return None;
    }
    var p := parse(peer);
    if p.None? || !trusted(p.value) {
      return None;
    }
    caller := Scan(parse, trusted, Joined(lines));
  }

  // ---- nothing to the left of where the scan stops counts ----

  lemma {:induction false} EntriesOfJoin(a: string, b: string)
    ensures Entries(a + "," + b) == Entries(a) + Entries(b)
    decreases |b|
  {
    var at := LastIndex(b, ',');
    if at < 0 {
      JoinAtComma(a, b);
      CutAt(a + "," + b, |a|);
    } else {
      EntriesOfJoin(a, b[..at]);
      JoinCut(a, b, at);
      CutAt(b, at);
      Regroup(Entries(a), Entries(b[..at]), [b[at + 1..]]);
    }
  }

  lemma JoinCut(a: string, b: string, at: nat)
    requires at < |b| && b[at] == ',' && forall k | at < k < |b| :: b[k] != ','
    ensures Entries(a + "," + b) == Entries(a + "," + b[..at]) + [b[at + 1..]]
  {
    JoinWithin(a, b, at);
    CutInto(a + "," + b, |a| + 1 + at, a + "," + b[..at], b[at + 1..]);
  }

  lemma CutInto(s: string, i: nat, front: string, last: string)
    requires i < |s| && s[i] == ',' && forall k | i < k < |s| :: s[k] != ','
    requires s[..i] == front && s[i + 1..] == last
    ensures Entries(s) == Entries(front) + [last]
  {
    CutAt(s, i);
  }

  /** A text without a comma is one entry, and so is the only line of a header. */
  lemma OneEntry(s: string)
    ensures ',' !in s ==> Entries(s) == [s]
    ensures Joined([s]) == s
  {
  }

  lemma Regroup<T>(x: seq<T>, y: seq<T>, z: seq<T>)
    ensures (x + y) + z == x + (y + z)
  {
  }

  lemma JoinAtComma(a: string, b: string)
    requires forall k | 0 <= k < |b| :: b[k] != ','
    ensures var s := a + "," + b;
            && s[|a|] == ',' && s[..|a|] == a && s[|a| + 1..] == b
            && forall k | |a| < k < |s| :: s[k] != ','
  {
    var s := a + "," + b;
    assert forall k | |a| < k < |s| :: s[k] == b[k - |a| - 1];
  }

  lemma JoinWithin(a: string, b: string, at: nat)
    requires at < |b| && b[at] == ',' && forall k | at < k < |b| :: b[k] != ','
    ensures var s, cut := a + "," + b, |a| + 1 + at;
            && s[cut] == ',' && s[..cut] == a + "," + b[..at] && s[cut + 1..] == b[at + 1..]
            && forall k | cut < k < |s| :: s[k] != ','
  {
    var s, cut := a + "," + b, |a| + 1 + at;
    assert forall k | cut <= k < |s| :: s[k] == b[k - |a| - 1];
  }

  lemma CutAt(s: string, i: nat)
    requires i < |s| && s[i] == ',' && forall k | i < k < |s| :: s[k] != ','
    ensures Entries(s) == Entries(s[..i]) + [s[i + 1..]]
  {
    LastIndexIs(s, ',', i);
  }

  lemma LastIndexIs(s: string, c: char, i: nat)
    requires i < |s| && s[i] == c && forall k | i < k < |s| :: s[k] != c
    ensures LastIndex(s, c) == i
  {
  }

  lemma {:induction false} WalkAppend<Addr>(parse: string -> Option<Addr>, trusted: Addr -> bool, a: seq<string>, b: seq<string>)
    ensures Walk(parse, trusted, a + b) ==
            if Settles(parse, trusted, b) then Walk(parse, trusted, b) else Walk(parse, trusted, a)
    decreases |b|
  {
    if b == [] {
      assert a + b == a;
    } else {
      var n := |b| - 1;
      assert (a + b)[..|a| + n] == a + b[..n] && (a + b)[|a| + n] == b[n];
      WalkAppend(parse, trusted, a, b[..n]);
      SettlesMore(parse, trusted, b);
    }
  }

  lemma SettlesMore<Addr>(parse: string -> Option<Addr>, trusted: Addr -> bool, b: seq<string>)
    requires b != []
    ensures Settles(parse, trusted, b) <==>
            Decides(parse, trusted, b[|b| - 1]) || Settles(parse, trusted, b[..|b| - 1])
  {
    var n := |b| - 1;
    if Settles(parse, trusted, b) {
      var i :| 0 <= i < |b| && Decides(parse, trusted, b[i]);
      if i < n { assert b[..n][i] == b[i]; }
    }
    if Settles(parse, trusted, b[..n]) {
      var i :| 0 <= i < n && Decides(parse, trusted, b[..n][i]);
      assert b[i] == b[..n][i];
    }
  }

  /** Whatever is written to the left of entries the scan stops in changes nothing - and
      that is the only protection: when it does not stop there, the answer is exactly what
      the left part alone would give. */
  lemma LeftPartCountsOnlyPastTheStop<Addr>(parse: string -> Option<Addr>, trusted: Addr -> bool, left: string, right: string)
    ensures Walk(parse, trusted, Entries(left + "," + right)) ==
            if Settles(parse, trusted, Entries(right)) then Walk(parse, trusted, Entries(right))
            else Walk(parse, trusted, Entries(left))
  {
    EntriesOfJoin(left, right);
    WalkAppend(parse, trusted, Entries(left), Entries(right));
  }

  /** The same for whole header lines: a line of the proxy's own decides over every line
      before it. */
  lemma LastLineDecides<Addr>(parse: string -> Option<Addr>, trusted: Addr -> bool, lines: seq<string>, own: string)
    requires lines != []
    ensures Walk(parse, trusted, Entries(Joined(lines + [own]))) ==
            if Settles(parse, trusted, Entries(" " + own)) then Walk(parse, trusted, Entries(" " + own))
            else Walk(parse, trusted, Entries(Joined(lines)))
  {
    assert (lines + [own])[..|lines|] == lines;
    assert Joined(lines + [own]) == Joined(lines) + "," + (" " + own);
    LeftPartCountsOnlyPastTheStop(parse, trusted, Joined(lines), " " + own);
  }
}
