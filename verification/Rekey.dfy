/** Re-encrypting every sealed column under a new key, in one transaction. */
module Rekeying {
  import opened Names
  import opened Sequences

  /** A crypto service. `seal` takes the plaintext and the nonce; `open` fails on what the
      key did not seal. */
  datatype Service = Service(keyed: bool, seal: (string, nat) -> string, open: string -> Option<string>)

  /** What is assumed of the cipher: opening under the sealing key gives the plaintext
      back, and a sealed value is never empty. */
  ghost predicate Opens(s: Service) {
    forall p, n :: s.seal(p, n) != "" && s.open(s.seal(p, n)) == Some(p)
  }

  function Encrypt(s: Service, plain: string, nonce: nat): Option<string> {
    if plain == "" then Some("")
    else if !s.keyed then None
    else Some(s.seal(plain, nonce))
  }

  function Decrypt(s: Service, stored: string): Option<string> {
    if stored == "" then Some("")
    else if !s.keyed then None
    else s.open(stored)
  }

  lemma DecryptUndoesEncrypt(s: Service, plain: string, nonce: nat)
    requires Opens(s) && Encrypt(s, plain, nonce).Some?
    ensures Decrypt(s, Encrypt(s, plain, nonce).value) == Some(plain)
  {
  }

  /** A value of the database, by the row's primary key. */
  datatype Cell = Cell(table: string, row: seq<string>, column: string)

  type Tables = map<Cell, string>

  /** A column the service seals; `all` when its select does not skip empty values. */
  datatype Column = Column(table: string, column: string, keys: nat, all: bool)

  const SEALED: seq<Column> := [
    Column("users", "totp_secret", 1, false),
    Column("certificates", "data", 2, false),
    Column("domains", "dkim_private_key", 1, false),
    Column("domains", "dkim_next_private_key", 1, false),
    Column("oauth_providers", "client_secret", 1, false),
    Column("smtp_servers", "password", 1, false),
    Column("shared_smtp_servers", "password", 1, false),
    Column("webhooks", "secret", 1, false),
    Column("tracking_keys", "key", 1, true),
    Column("sender_signing_keys", "private_key", 1, false)
  ]

  predicate InColumn(c: Cell, col: Column) {
    c.table == col.table && c.column == col.column
  }

  predicate Covers(cols: seq<Column>, c: Cell) {
    exists i :: 0 <= i < |cols| && InColumn(c, cols[i])
  }

  /** No column is listed twice, or its values would be opened again under the wrong key. */
  ghost predicate ListedOnce(cols: seq<Column>) {
    forall i, j | 0 <= i < j < |cols| :: cols[i].table != cols[j].table || cols[i].column != cols[j].column
  }

  lemma SealedListedOnce()
    ensures ListedOnce(SEALED)
  {
  }

  function Selected(t: Tables, col: Column): set<Cell> {
    set c | c in t && InColumn(c, col) && (col.all || t[c] != "")
  }

  /** The cell reads the same under `renewed` as it did under `current`. */
  predicate Reads(before: Tables, after: Tables, current: Service, renewed: Service, c: Cell)
    requires c in before
  {
    c in after && Decrypt(current, before[c]).Some? && Decrypt(renewed, after[c]) == Decrypt(current, before[c])
  }

  /** Exactly the cells of these columns are resealed, an empty one staying empty; every
      other cell is as it was. */
  ghost predicate Resealed(before: Tables, after: Tables, cols: seq<Column>, current: Service, renewed: Service) {
    && after.Keys == before.Keys
    && (forall c | c in before && Covers(cols, c) ::
          Reads(before, after, current, renewed, c) && (before[c] == "" ==> after[c] == ""))
    && (forall c | c in before && !Covers(cols, c) :: after[c] == before[c])
  }

  const TRACKING := "tracking_keys"

  predicate IsTracking(c: Cell) {
    c.table == TRACKING
  }

  /** One row more, which opens to the retired key. */
  ghost predicate Kept(before: Tables, after: Tables, renewed: Service, retire: string, row: Cell) {
    && row in after && after == before[row := after[row]]
    && Decrypt(renewed, after[row]) == Some(retire)
  }

  /** The tables with every retired tracking key deleted. */
  function Forgotten(t: Tables): Tables {
    map c | c in t && !IsTracking(c) :: t[c]
  }

  /** One transaction on a database. `left` is how many statements the connection will
      still carry out. */
  class Tx {
    var work: Tables
    var left: nat

    constructor (found: Tables, left: nat)
      ensures work == found && this.left == left
    {
      work, this.left := found, left;
    }

    method Statement() returns (ok: bool)
      modifies this`left
      ensures ok == (old(left) > 0) && left == if ok then old(left) - 1 else 0
    {
      ok := left > 0;
      if ok {
        left := left - 1;
      }
    }

    /** Reads the column, then writes each value back under the new key. */
    method RekeyColumn(col: Column, current: Service, renewed: Service, nonce: nat) returns (ok: bool, rows: nat)
      requires Opens(renewed)
      modifies this
      ensures ok ==> rows == |Selected(old(work), col)| && left == old(left) - 1 - rows
      ensures ok ==> Resealed(old(work), work, [col], current, renewed)
      ensures !ok ==> (|| old(left) <= |Selected(old(work), col)|
                       || !renewed.keyed
                       || exists c :: c in Selected(old(work), col) && Decrypt(current, old(work)[c]).None?)
    {
      ghost var found := work;
      ok := Statement();
      if !ok {
        return false, 0;
      }
      var pending := Pending(Selected(work, col));
      for i := 0 to |pending|
        invariant left == old(left) - 1 - i
        invariant work.Keys == found.Keys
        invariant forall k | 0 <= k < i :: pending[k] in found && Reads(found, work, current, renewed, pending[k]) &&
                    (found[pending[k]] == "" ==> work[pending[k]] == "")
        invariant forall c | c in found && c !in pending[..i] :: work[c] == found[c]
      {
        var c := pending[i];
        assert c in Selected(found, col) && c !in pending[..i];
        var plain := Decrypt(current, work[c]);
        if plain.None? {
          return false, 0;
        }
        var resealed := Encrypt(renewed, plain.value, nonce + i);
        if resealed.None? {
          return false, 0;
        }
        DecryptUndoesEncrypt(renewed, plain.value, nonce + i);
        ok := Statement();
        if !ok {
          return false, 0;
        }
        work := work[c := resealed.value];
      }
      rows := |pending|;
      ColumnResealed(found, work, col, current, renewed, pending);
    }

    /** The columns one after another; the first failure ends it. */
    method RekeyEach(cols: seq<Column>, current: Service, renewed: Service, nonce: nat)
        returns (ok: bool, counts: map<Column, nat>)
      requires Opens(renewed) && ListedOnce(cols)
      modifies this
      ensures ok ==> Resealed(old(work), work, cols, current, renewed)
      ensures ok ==> forall col | col in cols :: col in counts && counts[col] == |Selected(old(work), col)|
    {
      counts := map[];
      for i := 0 to |cols|
        invariant Resealed(old(work), work, cols[..i], current, renewed)
        invariant forall k | 0 <= k < i :: cols[k] in counts && counts[cols[k]] == |Selected(old(work), cols[k])|
      {
        ghost var before := work;
        SelectsTheSame(old(work), work, cols, i, current, renewed);
        var rows: nat;
        ok, rows := RekeyColumn(cols[i], current, renewed, nonce);
        if !ok {
          return;
        }
        assert cols[..i + 1] == cols[..i] + [cols[i]];
        ResealedMore(old(work), before, work, cols[..i], cols[i], current, renewed);
        counts := counts[cols[i] := rows];
      }
      assert cols[..|cols|] == cols;
      ok := true;
    }

    /** Keeps the retiring tracking key, sealed once under the new key, or forgets every
        one. */
    method Retire(renewed: Service, retire: string, id: string, nonce: nat) returns (ok: bool)
      requires Opens(renewed) && Cell(TRACKING, [id], "key") !in work
      modifies this
      ensures ok && retire == "" ==> work == Forgotten(old(work))
      ensures ok && retire != "" ==> Kept(old(work), work, renewed, retire, Cell(TRACKING, [id], "key"))
    {
      if retire == "" {
        ok := Statement();
        work := Forgotten(work);
      } else {
        var sealed := Encrypt(renewed, retire, nonce);
        if sealed.None? {
          return false;
        }
        DecryptUndoesEncrypt(renewed, retire, nonce);
        ok := Statement();
        work := work[Cell(TRACKING, [id], "key") := sealed.value];
      }
    }

    /** The rows read, in whatever order they come. */
    method Pending(cells: set<Cell>) returns (pending: seq<Cell>)
      ensures |pending| == |cells| && Distinct(pending) && forall c :: c in pending <==> c in cells
    {
      pending := [];
      var rest := cells;
      while rest != {}
        invariant rest <= cells && Distinct(pending) && |pending| + |rest| == |cells|
        invariant forall c :: c in pending <==> c in cells && c !in rest
        decreases rest
      {
        var c :| c in rest;
        rest := rest - {c};
        pending := pending + [c];
      }
    }
  }

  lemma ColumnResealed(before: Tables, after: Tables, col: Column, current: Service, renewed: Service, pending: seq<Cell>)
    requires after.Keys == before.Keys && forall c :: c in pending <==> c in Selected(before, col)
    requires forall k | 0 <= k < |pending| :: pending[k] in before && Reads(before, after, current, renewed, pending[k]) &&
               (before[pending[k]] == "" ==> after[pending[k]] == "")
    requires forall c | c in before && c !in pending :: after[c] == before[c]
    ensures Resealed(before, after, [col], current, renewed)
  {
    forall c | c in before && Covers([col], c)
      ensures Reads(before, after, current, renewed, c) && (before[c] == "" ==> after[c] == "")
    {
      assert InColumn(c, col);
      if c in pending {
        var k :| 0 <= k < |pending| && pending[k] == c;
      }
    }
    forall c | c in before && !Covers([col], c) ensures after[c] == before[c] {
      assert !InColumn(c, [col][0]);
    }
  }

  /** One column resealed, cell by cell. */
  lemma OneColumnIs(before: Tables, after: Tables, col: Column, current: Service, renewed: Service)
    requires Resealed(before, after, [col], current, renewed)
    ensures forall c | c in before ::
              c in after &&
              if c.table == col.table && c.column == col.column
              then Decrypt(current, before[c]).Some? && Decrypt(renewed, after[c]) == Decrypt(current, before[c])
              else after[c] == before[c]
  {
    forall c | c in before ensures Covers([col], c) <==> c.table == col.table && c.column == col.column {
      CoversMore([], col, c);
      assert [] + [col] == [col];
    }
  }

  /** One column more. */
  lemma ResealedMore(a: Tables, b: Tables, c: Tables, cols: seq<Column>, col: Column, current: Service, renewed: Service)
    requires Resealed(a, b, cols, current, renewed) && Resealed(b, c, [col], current, renewed)
    requires ListedOnce(cols + [col])
    ensures Resealed(a, c, cols + [col], current, renewed)
  {
    var all := cols + [col];
    assert all[|cols|] == col;
    forall x | x in a
      ensures Covers(all, x) <==> Covers(cols, x) || InColumn(x, col)
      ensures !(Covers(cols, x) && InColumn(x, col))
      ensures Covers([col], x) <==> InColumn(x, col)
    {
      CoversMore(cols, col, x);
    }
  }

  lemma CoversMore(cols: seq<Column>, col: Column, x: Cell)
    requires ListedOnce(cols + [col])
    ensures Covers(cols + [col], x) <==> Covers(cols, x) || InColumn(x, col)
    ensures !(Covers(cols, x) && InColumn(x, col))
    ensures Covers([col], x) <==> InColumn(x, col)
  {
    var all := cols + [col];
    assert all[|cols|] == col && [col][0] == col;
    if Covers(cols, x) {
      var i :| 0 <= i < |cols| && InColumn(x, cols[i]);
      assert all[i] == cols[i];
    }
  }

  // ---- the whole rekey ----

  /** The retired tracking keys a database still verifies links with. */
  function Retired(t: Tables, s: Service): set<Option<string>> {
    set c | c in t && IsTracking(c) && c.column == "key" :: Decrypt(s, t[c])
  }

  /** What a committed rekey leaves. */
  ghost predicate Rekeyed(before: Tables, after: Tables, cols: seq<Column>, current: Service, renewed: Service,
                          retire: string, id: string) {
    && (forall c | !IsTracking(c) :: c in after <==> c in before)
    && (forall c | c in before && !IsTracking(c) && Covers(cols, c) ::
          Reads(before, after, current, renewed, c) && (before[c] == "" ==> after[c] == ""))
    && (forall c | c in before && !IsTracking(c) && !Covers(cols, c) :: after[c] == before[c])
    && (retire == "" ==> forall c | c in after :: !IsTracking(c))
    && (retire != "" ==>
          && Retired(after, renewed) == Retired(before, current) + {Some(retire)}
          && after.Keys == before.Keys + {Cell(TRACKING, [id], "key")})
  }

  class Database {
    var tables: Tables

    /** Rewrites every sealed column, and then keeps the retiring tracking key or forgets
        them all. Whatever fails, the database is as it was. */
    method RekeyAll(current: Service, renewed: Service, retire: string, id: string, nonce: nat, statements: nat)
        returns (ok: bool, counts: map<Column, nat>)
      requires Opens(renewed) && Cell(TRACKING, [id], "key") !in tables
      modifies this
      ensures !ok ==> tables == old(tables)
      ensures ok ==> Rekeyed(old(tables), tables, SEALED, current, renewed, retire, id)
      ensures ok ==> forall col | col in SEALED :: col in counts && counts[col] == |Selected(old(tables), col)|
      ensures ok ==> forall c, i | c in old(tables) && 0 <= i < |SEALED| && c.table != "tracking_keys" &&
                                   c.table == SEALED[i].table && c.column == SEALED[i].column ::
                && c in tables && Decrypt(current, old(tables)[c]).Some?
                && Decrypt(renewed, tables[c]) == Decrypt(current, old(tables)[c])
      ensures ok ==> forall c | c in old(tables) && c.table != "tracking_keys" &&
                                forall i | 0 <= i < |SEALED| :: c.table != SEALED[i].table || c.column != SEALED[i].column ::
                c in tables && tables[c] == old(tables)[c]
      ensures ok && retire == "" ==> forall c | c in tables :: c.table != "tracking_keys"
      ensures ok && retire != "" ==>
                && Cell("tracking_keys", [id], "key") in tables
                && Decrypt(renewed, tables[Cell("tracking_keys", [id], "key")]) == Some(retire)
                && forall c | c in old(tables) && c.table == "tracking_keys" && c.column == "key" ::
                     c in tables && Decrypt(renewed, tables[c]) == Decrypt(current, old(tables)[c])
    {
      var tx := new Tx(tables, statements);
      SealedListedOnce();
      ok, counts := tx.RekeyEach(SEALED, current, renewed, nonce);
      if !ok {
        return;
      }
      ghost var resealed := tx.work;
      ok := tx.Retire(renewed, retire, id, nonce);
      if !ok {
        return;
      }
      RekeyedBy(tables, resealed, tx.work, current, renewed, retire, id);
      CellByCell(tables, resealed, tx.work, current, renewed, retire, id);
      // The commit.
      ok := tx.Statement();
      if ok {
        tables := tx.work;
      }
    }
  }

  /** The same cell by cell. */
  lemma CellByCell(before: Tables, resealed: Tables, after: Tables, current: Service, renewed: Service, retire: string, id: string)
    requires Resealed(before, resealed, SEALED, current, renewed) && Cell(TRACKING, [id], "key") !in before
    requires retire == "" ==> after == Forgotten(resealed)
    requires retire != "" ==> Kept(resealed, after, renewed, retire, Cell(TRACKING, [id], "key"))
    ensures forall c, i | c in before && 0 <= i < |SEALED| && c.table != "tracking_keys" &&
                          c.table == SEALED[i].table && c.column == SEALED[i].column ::
              && c in after && Decrypt(current, before[c]).Some? && Decrypt(renewed, after[c]) == Decrypt(current, before[c])
    ensures forall c | c in before && c.table != "tracking_keys" &&
                       forall i | 0 <= i < |SEALED| :: c.table != SEALED[i].table || c.column != SEALED[i].column ::
              c in after && after[c] == before[c]
    ensures retire == "" ==> forall c | c in after :: c.table != "tracking_keys"
    ensures retire != "" ==>
              && Cell("tracking_keys", [id], "key") in after
              && Decrypt(renewed, after[Cell("tracking_keys", [id], "key")]) == Some(retire)
              && forall c | c in before && c.table == "tracking_keys" && c.column == "key" ::
                   c in after && Decrypt(renewed, after[c]) == Decrypt(current, before[c])
  {
    assert SEALED[8] == Column(TRACKING, "key", 1, true);
    forall c, i | c in before && 0 <= i < |SEALED| && c.table == SEALED[i].table && c.column == SEALED[i].column
      ensures Covers(SEALED, c)
    {
      assert InColumn(c, SEALED[i]);
    }
  }

  lemma RekeyedBy(before: Tables, resealed: Tables, after: Tables, current: Service, renewed: Service, retire: string, id: string)
    requires Resealed(before, resealed, SEALED, current, renewed) && Cell(TRACKING, [id], "key") !in before
    requires retire == "" ==> after == Forgotten(resealed)
    requires retire != "" ==> Kept(resealed, after, renewed, retire, Cell(TRACKING, [id], "key"))
    ensures Rekeyed(before, after, SEALED, current, renewed, retire, id)
  {
    if retire != "" {
      RetiredMore(before, resealed, current, renewed, retire, id, after[Cell(TRACKING, [id], "key")]);
    }
  }

  /** A column not rewritten yet selects what it would have at the start. */
  lemma SelectsTheSame(before: Tables, now: Tables, cols: seq<Column>, i: nat, current: Service, renewed: Service)
    requires i < |cols| && ListedOnce(cols) && Resealed(before, now, cols[..i], current, renewed)
    ensures Selected(now, cols[i]) == Selected(before, cols[i])
  {
    forall c | c in before && InColumn(c, cols[i]) ensures now[c] == before[c] {
      NotYetCovered(cols, i, c);
    }
  }

  lemma NotYetCovered(cols: seq<Column>, i: nat, c: Cell)
    requires i < |cols| && ListedOnce(cols) && InColumn(c, cols[i])
    ensures !Covers(cols[..i], c)
  {
    forall k | 0 <= k < i ensures !InColumn(c, cols[..i][k]) {
      assert cols[..i][k] == cols[k];
    }
  }

  lemma RetiredMore(before: Tables, resealed: Tables, current: Service, renewed: Service, retire: string, id: string,
                    sealed: string)
    requires Resealed(before, resealed, SEALED, current, renewed)
    requires Cell(TRACKING, [id], "key") !in before && Decrypt(renewed, sealed) == Some(retire)
    ensures Retired(resealed[Cell(TRACKING, [id], "key") := sealed], renewed) == Retired(before, current) + {Some(retire)}
  {
    var new_ := Cell(TRACKING, [id], "key");
    var after := resealed[new_ := sealed];
    assert SEALED[8] == Column(TRACKING, "key", 1, true);
    forall c | c in before && IsTracking(c) && c.column == "key"
      ensures c in after && Decrypt(renewed, after[c]) == Decrypt(current, before[c])
    {
      assert InColumn(c, SEALED[8]) && Covers(SEALED, c);
    }
    forall p | p in Retired(after, renewed) ensures p in Retired(before, current) + {Some(retire)} {
      var c :| c in after && IsTracking(c) && c.column == "key" && Decrypt(renewed, after[c]) == p;
      if c != new_ { assert c in before; }
    }
    forall p | p in Retired(before, current) + {Some(retire)} ensures p in Retired(after, renewed) {
      if p in Retired(before, current) {
        var c :| c in before && IsTracking(c) && c.column == "key" && Decrypt(current, before[c]) == p;
        assert c in after;
      } else {
        assert new_ in after;
      }
    }
  }

  /** One committed rekey: what it left, the key it renewed to, the tracking key it retired
      and the row that kept it. */
  datatype Rotation = Rotation(after: Tables, renewed: Service, retire: string, id: string)

  /** The tables and the key in force after these rekeys. */
  function TablesAfter(before: Tables, done: seq<Rotation>): Tables {
    if done == [] then before else done[|done| - 1].after
  }

  function KeyAfter(first: Service, done: seq<Rotation>): Service {
    if done == [] then first else done[|done| - 1].renewed
  }

  /** Rekeys one after another, each from what the last one left. */
  ghost predicate Rotated(before: Tables, first: Service, done: seq<Rotation>) {
    done == [] ||
    var front, r := done[..|done| - 1], done[|done| - 1];
    && Rotated(before, first, front)
    && Rekeyed(TablesAfter(before, front), r.after, SEALED, KeyAfter(first, front), r.renewed, r.retire, r.id)
  }

  /** Every sealed value reads as it did, every other cell but the tracking keys is
      untouched; nothing changed at all when nothing was `done`. */
  ghost predicate Through(done: bool, before: Tables, after: Tables, first: Service, last: Service) {
    if !done then after == before && last == first
    else
      && (forall c | !IsTracking(c) :: c in after <==> c in before)
      && (forall c | c in before && !IsTracking(c) && Covers(SEALED, c) :: Reads(before, after, first, last, c))
      && (forall c | c in before && !IsTracking(c) && !Covers(SEALED, c) :: after[c] == before[c])
  }

  lemma OneMore(done: bool, before: Tables, now: Tables, after: Tables, first: Service, current: Service, r: Rotation)
    requires Rekeyed(now, after, SEALED, current, r.renewed, r.retire, r.id)
    requires Through(done, before, now, first, current)
    ensures Through(true, before, after, first, r.renewed)
  {
  }

  lemma RetiredAfter(now: Tables, after: Tables, current: Service, r: Rotation)
    requires Rekeyed(now, after, SEALED, current, r.renewed, r.retire, r.id)
    ensures Retired(after, r.renewed) == if r.retire == "" then {} else Retired(now, current) + {Some(r.retire)}
  {
  }

  /** What is retired after these rekeys, of what was before them. */
  function RetiredSince(before: set<Option<string>>, done: seq<Rotation>): set<Option<string>> {
    if done == [] then before
    else
      var last := done[|done| - 1];
      if last.retire == "" then {} else RetiredSince(before, done[..|done| - 1]) + {Some(last.retire)}
  }

  /** However often the key was rotated, back to an old one or not: every sealed value still
      reads as it did under the first key, and the retired tracking keys are those retired
      since they were last forgotten - with the first ones, when they never were. */
  lemma {:induction false} RotationsKeepEverything(before: Tables, first: Service, done: seq<Rotation>)
    requires Rotated(before, first, done)
    ensures Through(done != [], before, TablesAfter(before, done), first, KeyAfter(first, done))
    ensures Retired(TablesAfter(before, done), KeyAfter(first, done)) == RetiredSince(Retired(before, first), done)
  {
    if done != [] {
      var front, r := done[..|done| - 1], done[|done| - 1];
      RotationsKeepEverything(before, first, front);
      OneMore(front != [], before, TablesAfter(before, front), r.after, first, KeyAfter(first, front), r);
      RetiredAfter(TablesAfter(before, front), r.after, KeyAfter(first, front), r);
    }
  }
}
