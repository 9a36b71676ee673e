/** Go types as the two generators read them by reflection: named structs may refer to each
    other in cycles, everything else is a finite tree. */
module TypeGraph {
  import opened Names

  datatype Kind = StringKind | BoolKind | IntKind | UintKind | Uint8Kind | FloatKind | OtherKind

  datatype Type =
    | Pointer(elem: Type)
    | Slice(elem: Type)
    | Array(elem: Type)
    | MapOf(key: Type, elem: Type)
    | Interface
    | Time
    | Inline(fields: seq<Field>)
    | Named(id: nat)
    | Basic(kind: Kind)

  /** `tag` is the json tag, `validate` and `doc` the validator's and the document's; each
      empty when there is none. */
  datatype Field = Field(name: string, exported: bool, embedded: bool, tag: string, validate: string, doc: string, ty: Type)

  datatype Decl = Decl(pkg: string, name: string, fields: seq<Field>)

  /** Which of the two generators walks: they differ in what they skip and flatten, and the
      document generator does not look at the keys of a map. */
  datatype Walker = Sdk | Document

  /** Every named struct, by identity, and who walks them. */
  datatype Env = Env(walker: Walker, decls: map<nat, Decl>)

  predicate IsStruct(t: Type) {
    t.Inline? || t.Named? || t.Time?
  }

  /** The type an embedded field is flattened through: a pointer is looked behind once. */
  function Behind(t: Type): Type {
    if t.Pointer? then t.elem else t
  }

  predicate Skips(walker: Walker, f: Field) {
    match walker
    case Sdk => (!f.exported && !f.embedded) || Before(f.tag, ',') == "-"
    case Document => !Flattens(walker, f) && (!f.exported || f.tag == "-")
  }

  /** A field whose own fields take its place: embedded, with no name in its tag, and a
      struct. The SDK generator also looks behind a pointer. */
  predicate Flattens(walker: Walker, f: Field) {
    match walker
    case Sdk => f.embedded && Before(f.tag, ',') == "" && IsStruct(Behind(f.ty))
    case Document => f.embedded && f.tag == "" && IsStruct(f.ty)
  }

  // ---- how deep a walk goes ----

  /** Whether walking these fields passes through at most `fuel` nested embeddings of named
      structs. A walk that never ends has no such number. */
  predicate WalksFields(env: Env, fs: seq<Field>, fuel: nat)
    decreases fuel, fs
  {
    forall i | 0 <= i < |fs| :: WalksField(env, fs[i], fuel)
  }

  predicate WalksField(env: Env, f: Field, fuel: nat)
    decreases fuel, f
  {
    if Skips(env.walker, f) then true
    else if Flattens(env.walker, f) then WalksThrough(env, f.ty, fuel)
    else WalksType(env, f.ty, fuel)
  }

  predicate WalksThrough(env: Env, t: Type, fuel: nat)
    decreases fuel, t
  {
    match t
    case Pointer(elem) => WalksThrough(env, elem, fuel)
    case Inline(fs) => WalksFields(env, fs, fuel)
    case Named(j) => j in env.decls && fuel > 0 && WalksFields(env, env.decls[j].fields, fuel - 1)
    case _ => true
  }

  predicate WalksType(env: Env, t: Type, fuel: nat)
    decreases fuel, t
  {
    match t
    case Pointer(elem) => WalksType(env, elem, fuel)
    case Slice(elem) => WalksType(env, elem, fuel)
    case Array(elem) => WalksType(env, elem, fuel)
    case MapOf(key, elem) => (env.walker.Sdk? ==> WalksType(env, key, fuel)) && WalksType(env, elem, fuel)
    case Inline(fs) => WalksFields(env, fs, fuel)
    case Named(j) => j in env.decls
    case _ => true
  }

  // ---- which named structs a walk meets ----

  function IdsOfFields(env: Env, fs: seq<Field>, fuel: nat): set<nat>
    requires WalksFields(env, fs, fuel)
    decreases fuel, fs
  {
    set i, j | 0 <= i < |fs| && j in IdsOfField(env, fs[i], fuel) :: j
  }

  function IdsOfField(env: Env, f: Field, fuel: nat): set<nat>
    requires WalksField(env, f, fuel)
    decreases fuel, f
  {
    if Skips(env.walker, f) then {}
    else if Flattens(env.walker, f) then IdsThrough(env, f.ty, fuel)
    else IdsOfType(env, f.ty, fuel)
  }

  function IdsThrough(env: Env, t: Type, fuel: nat): set<nat>
    requires WalksThrough(env, t, fuel)
    decreases fuel, t
  {
    match t
    case Pointer(elem) => IdsThrough(env, elem, fuel)
    case Inline(fs) => IdsOfFields(env, fs, fuel)
    case Named(j) => IdsOfFields(env, env.decls[j].fields, fuel - 1)
    case _ => {}
  }

  function IdsOfType(env: Env, t: Type, fuel: nat): set<nat>
    requires WalksType(env, t, fuel)
    decreases fuel, t
  {
    match t
    case Pointer(elem) => IdsOfType(env, elem, fuel)
    case Slice(elem) => IdsOfType(env, elem, fuel)
    case Array(elem) => IdsOfType(env, elem, fuel)
    case MapOf(key, elem) => (if env.walker.Sdk? then IdsOfType(env, key, fuel) else {}) + IdsOfType(env, elem, fuel)
    case Inline(fs) => IdsOfFields(env, fs, fuel)
    case Named(j) => {j}
    case _ => {}
  }

  /** Every declaration can be walked with the one `depth`. */
  ghost predicate Walkable(env: Env, depth: nat) {
    forall id | id in env.decls :: WalksFields(env, env.decls[id].fields, depth)
  }

  /** A chain of named structs, each met while walking the one before. */
  ghost predicate Chain(env: Env, depth: nat, path: seq<nat>)
    requires Walkable(env, depth)
  {
    && path != [] && (forall i | 0 <= i < |path| :: path[i] in env.decls)
    && forall i | 0 <= i < |path| - 1 :: path[i + 1] in IdsOfFields(env, env.decls[path[i]].fields, depth)
  }

  // ---- exactly when walks end ----

  /** The named structs whose fields take the place of some field of these, at any depth
      short of another name. */
  function CrossedFields(walker: Walker, fs: seq<Field>): set<nat>
    decreases fs
  {
    set i, j | 0 <= i < |fs| && j in CrossedField(walker, fs[i]) :: j
  }

  function CrossedField(walker: Walker, f: Field): set<nat>
    decreases f
  {
    if Skips(walker, f) then {}
    else if Flattens(walker, f) then CrossedThrough(walker, f.ty)
    else CrossedType(walker, f.ty)
  }

  function CrossedThrough(walker: Walker, t: Type): set<nat>
    decreases t
  {
    match t
    case Pointer(elem) => CrossedThrough(walker, elem)
    case Inline(fs) => CrossedFields(walker, fs)
    case Named(j) => {j}
    case _ => {}
  }

  function CrossedType(walker: Walker, t: Type): set<nat>
    decreases t
  {
    match t
    case Pointer(elem) => CrossedType(walker, elem)
    case Slice(elem) => CrossedType(walker, elem)
    case Array(elem) => CrossedType(walker, elem)
    case MapOf(key, elem) => (if walker.Sdk? then CrossedType(walker, key) else {}) + CrossedType(walker, elem)
    case Inline(fs) => CrossedFields(walker, fs)
    case _ => {}
  }

  /** Every name the types use is declared. */
  predicate ClosedFields(env: Env, fs: seq<Field>)
    decreases fs
  {
    forall i | 0 <= i < |fs| :: ClosedType(env, fs[i].ty)
  }

  predicate ClosedType(env: Env, t: Type)
    decreases t
  {
    match t
    case Pointer(elem) => ClosedType(env, elem)
    case Slice(elem) => ClosedType(env, elem)
    case Array(elem) => ClosedType(env, elem)
    case MapOf(key, elem) => ClosedType(env, key) && ClosedType(env, elem)
    case Inline(fs) => ClosedFields(env, fs)
    case Named(j) => j in env.decls
    case _ => true
  }

  ghost predicate Closed(env: Env) {
    forall id | id in env.decls :: ClosedFields(env, env.decls[id].fields)
  }

  /** No struct's fields take their own place, however far round. */
  ghost predicate Ranked(env: Env, rank: map<nat, nat>) {
    && env.decls.Keys <= rank.Keys
    && forall id, j | id in env.decls && j in CrossedFields(env.walker, env.decls[id].fields) :: j in rank && rank[j] < rank[id]
  }

  ghost predicate Under(rank: map<nat, nat>, ids: set<nat>, fuel: nat) {
    forall j | j in ids :: j in rank && rank[j] < fuel
  }

  lemma {:induction false} FieldsWalk(env: Env, rank: map<nat, nat>, fs: seq<Field>, fuel: nat)
    requires Closed(env) && Ranked(env, rank) && ClosedFields(env, fs) && Under(rank, CrossedFields(env.walker, fs), fuel)
    ensures WalksFields(env, fs, fuel)
    decreases fuel, fs
  {
    forall i | 0 <= i < |fs| ensures WalksField(env, fs[i], fuel) {
      var f := fs[i];
      assert forall j | j in CrossedField(env.walker, f) :: j in CrossedFields(env.walker, fs);
      if !Skips(env.walker, f) {
        if Flattens(env.walker, f) { ThroughWalks(env, rank, f.ty, fuel); } else { TypeWalks(env, rank, f.ty, fuel); }
      }
    }
  }

  lemma {:induction false} ThroughWalks(env: Env, rank: map<nat, nat>, t: Type, fuel: nat)
    requires Closed(env) && Ranked(env, rank) && ClosedType(env, t) && Under(rank, CrossedThrough(env.walker, t), fuel)
    ensures WalksThrough(env, t, fuel)
    decreases fuel, t
  {
    match t {
      case Pointer(elem) => ThroughWalks(env, rank, elem, fuel);
      case Inline(fs) => FieldsWalk(env, rank, fs, fuel);
      case Named(j) => assert j in CrossedThrough(env.walker, t); FieldsWalk(env, rank, env.decls[j].fields, fuel - 1);
      case _ =>
    }
  }

  lemma {:induction false} TypeWalks(env: Env, rank: map<nat, nat>, t: Type, fuel: nat)
    requires Closed(env) && Ranked(env, rank) && ClosedType(env, t) && Under(rank, CrossedType(env.walker, t), fuel)
    ensures WalksType(env, t, fuel)
    decreases fuel, t
  {
    match t {
      case Pointer(elem) => TypeWalks(env, rank, elem, fuel);
      case Slice(elem) => TypeWalks(env, rank, elem, fuel);
      case Array(elem) => TypeWalks(env, rank, elem, fuel);
      case MapOf(key, elem) =>
        if env.walker.Sdk? { TypeWalks(env, rank, key, fuel); }
        TypeWalks(env, rank, elem, fuel);
      case Inline(fs) => FieldsWalk(env, rank, fs, fuel);
      case _ =>
    }
  }

  /** A walk that ends crosses a name only with fuel to spare for that name. */
  lemma {:induction false} FieldsCross(env: Env, fs: seq<Field>, fuel: nat, j: nat)
    requires WalksFields(env, fs, fuel) && j in CrossedFields(env.walker, fs)
    ensures j in env.decls && fuel > 0 && WalksFields(env, env.decls[j].fields, fuel - 1)
    decreases fs
  {
    var i :| 0 <= i < |fs| && j in CrossedField(env.walker, fs[i]);
    var f := fs[i];
    assert WalksField(env, f, fuel);
    if Flattens(env.walker, f) { ThroughCrosses(env, f.ty, fuel, j); } else { TypeCrosses(env, f.ty, fuel, j); }
  }

  lemma {:induction false} ThroughCrosses(env: Env, t: Type, fuel: nat, j: nat)
    requires WalksThrough(env, t, fuel) && j in CrossedThrough(env.walker, t)
    ensures j in env.decls && fuel > 0 && WalksFields(env, env.decls[j].fields, fuel - 1)
    decreases t
  {
    match t {
      case Pointer(elem) => ThroughCrosses(env, elem, fuel, j);
      case Inline(fs) => FieldsCross(env, fs, fuel, j);
      case Named(k) =>
    }
  }

  lemma {:induction false} TypeCrosses(env: Env, t: Type, fuel: nat, j: nat)
    requires WalksType(env, t, fuel) && j in CrossedType(env.walker, t)
    ensures j in env.decls && fuel > 0 && WalksFields(env, env.decls[j].fields, fuel - 1)
    decreases t
  {
    match t {
      case Pointer(elem) => TypeCrosses(env, elem, fuel, j);
      case Slice(elem) => TypeCrosses(env, elem, fuel, j);
      case Array(elem) => TypeCrosses(env, elem, fuel, j);
      case MapOf(key, elem) =>
        if env.walker.Sdk? && j in CrossedType(env.walker, key) { TypeCrosses(env, key, fuel, j); } else { TypeCrosses(env, elem, fuel, j); }
      case Inline(fs) => FieldsCross(env, fs, fuel, j);
    }
  }

  /** The least fuel that is enough. */
  ghost function Least(env: Env, fs: seq<Field>, fuel: nat): (least: nat)
    requires WalksFields(env, fs, fuel)
    ensures least <= fuel && WalksFields(env, fs, least)
    ensures forall n: nat | n < least :: !WalksFields(env, fs, n)
    decreases fuel
  {
    if exists n: nat :: n < fuel && WalksFields(env, fs, n) then
      var n: nat :| n < fuel && WalksFields(env, fs, n);
      Least(env, fs, n)
    else fuel
  }

  /** The walk of every declaration ends exactly when no named struct is embedded, by value
      or behind a pointer, in its own flattening. Nothing but that can make it diverge:
      references may be as cyclic as they like. */
  lemma WalksEndExactly(env: Env)
    requires Closed(env)
    ensures (exists depth :: Walkable(env, depth)) <==> (exists rank :: Ranked(env, rank))
  {
    if depth :| Walkable(env, depth) {
      LeastRanks(env, depth);
    }
    if rank :| Ranked(env, rank) {
      RanksBound(env, rank);
    }
  }

  lemma LeastRanks(env: Env, depth: nat)
    requires Walkable(env, depth)
    ensures exists rank :: Ranked(env, rank)
  {
    var rank := map id | id in env.decls :: Least(env, env.decls[id].fields, depth);
    forall id, j | id in env.decls && j in CrossedFields(env.walker, env.decls[id].fields)
      ensures j in rank && rank[j] < rank[id]
    {
      FieldsCross(env, env.decls[id].fields, rank[id], j);
    }
    assert Ranked(env, rank);
  }

  lemma RanksBound(env: Env, rank: map<nat, nat>)
    requires Closed(env) && Ranked(env, rank)
    ensures exists depth :: Walkable(env, depth)
  {
    var depth := Above(rank, env.decls.Keys);
    forall id | id in env.decls ensures WalksFields(env, env.decls[id].fields, depth) {
      FieldsWalk(env, rank, env.decls[id].fields, depth);
    }
    assert Walkable(env, depth);
  }

  ghost function Above(rank: map<nat, nat>, ids: set<nat>): (top: nat)
    requires ids <= rank.Keys
    ensures forall id | id in ids :: rank[id] <= top
    decreases ids
  {
    if ids == {} then 0
    else
      var id :| id in ids;
      var rest := Above(rank, ids - {id});
      if rank[id] > rest then rank[id] else rest
  }

  /** The smallest walk that never ends: the SDK generator on a struct that embeds a pointer
      to itself, which the document generator walks without trouble. */
  lemma SelfEmbeddingNeverEnds(pkg: string, name: string, fuel: nat)
    ensures var f := Field(name, true, true, "", "", "", Pointer(Named(0)));
            var decls := map[0 := Decl(pkg, name, [f])];
            && !WalksFields(Env(Sdk, decls), [f], fuel) && Closed(Env(Sdk, decls))
            && WalksFields(Env(Document, decls), [f], fuel)
    decreases fuel
  {
    var f := Field(name, true, true, "", "", "", Pointer(Named(0)));
    var env := Env(Sdk, map[0 := Decl(pkg, name, [f])]);
    assert Before("", ',') == "";
    assert Flattens(Sdk, f) && !Skips(Sdk, f);
    if fuel > 0 {
      SelfEmbeddingNeverEnds(pkg, name, fuel - 1);
    }
    assert env.decls[0].fields == [f];
    assert WalksThrough(env, f.ty, fuel) == WalksThrough(env, Named(0), fuel);
    assert !WalksField(env, [f][0], fuel);
    var doc := Env(Document, env.decls);
    assert WalksType(doc, f.ty, fuel) == WalksType(doc, Named(0), fuel);
  }
}
