/** The SDK generator's type walk: one declaration per named struct, each under a name of
    its own. */
module SdkTypes {
  import opened Names
  import opened TypeGraph
  import opened GoNames

  /** Generated Go source, as far as references go. */
  datatype Go =
    | Word(text: string)
    | Star(elem: Go)
    | Many(elem: Go)
    | Dict(key: Go, elem: Go)
    | Ref(name: string)
    | Struct(lines: seq<Line>)

  datatype Line = Line(name: string, go: Go, tag: string)

  // ---- what the source should be, once every name is chosen ----

  function Basics(k: Kind): string {
    match k
    case StringKind => "string"
    case BoolKind => "bool"
    case IntKind => "int64"
    case UintKind => "uint64"
    case Uint8Kind => "uint64"
    case FloatKind => "float64"
    case OtherKind => "any"
  }

  function LinesOf(env: Env, names: map<nat, string>, fs: seq<Field>, fuel: nat): seq<Line>
    requires env.walker.Sdk? && WalksFields(env, fs, fuel)
    decreases fuel, fs
  {
    if fs == [] then []
    else LinesOf(env, names, fs[..|fs| - 1], fuel) + LinesOfField(env, names, fs[|fs| - 1], fuel)
  }

  function LinesOfField(env: Env, names: map<nat, string>, f: Field, fuel: nat): seq<Line>
    requires env.walker.Sdk? && WalksField(env, f, fuel)
    decreases fuel, f
  {
    if Skips(env.walker, f) then []
    else if Flattens(env.walker, f) then LinesThrough(env, names, f.ty, fuel)
    else [Line(Exported(f.name), GoOf(env, names, f.ty, fuel), if f.tag != "" then f.tag else f.name)]
  }

  function LinesThrough(env: Env, names: map<nat, string>, t: Type, fuel: nat): seq<Line>
    requires env.walker.Sdk? && WalksThrough(env, t, fuel)
    decreases fuel, t
  {
    match t
    case Pointer(elem) => LinesThrough(env, names, elem, fuel)
    case Inline(fs) => LinesOf(env, names, fs, fuel)
    case Named(j) => LinesOf(env, names, env.decls[j].fields, fuel - 1)
    case _ => []
  }

  function GoOf(env: Env, names: map<nat, string>, t: Type, fuel: nat): Go
    requires env.walker.Sdk? && WalksType(env, t, fuel)
    decreases fuel, t
  {
    match t
    case Pointer(elem) => Star(GoOf(env, names, elem, fuel))
    case Slice(elem) => if elem == Basic(Uint8Kind) then Word("[]byte") else Many(GoOf(env, names, elem, fuel))
    case Array(elem) => if elem == Basic(Uint8Kind) then Word("[]byte") else Many(GoOf(env, names, elem, fuel))
    case MapOf(key, elem) => Dict(GoOf(env, names, key, fuel), GoOf(env, names, elem, fuel))
    case Interface => Word("any")
    case Time => Word("time.Time")
    case Inline(fs) => Struct(LinesOf(env, names, fs, fuel))
    case Named(j) => Ref(NameOf(names, j))
    case Basic(k) => Word(Basics(k))
  }

  /** The source each kind of type is written as. */
  lemma TypeIsWritten(env: Env, names: map<nat, string>, t: Type, fuel: nat)
    requires env.walker.Sdk? && WalksType(env, t, fuel)
    ensures t == Basic(StringKind) ==> GoOf(env, names, t, fuel) == Word("string")
    ensures t == Basic(BoolKind) ==> GoOf(env, names, t, fuel) == Word("bool")
    ensures t == Basic(IntKind) ==> GoOf(env, names, t, fuel) == Word("int64")
    ensures t == Basic(UintKind) || t == Basic(Uint8Kind) ==> GoOf(env, names, t, fuel) == Word("uint64")
    ensures t == Basic(FloatKind) ==> GoOf(env, names, t, fuel) == Word("float64")
    ensures t == Basic(OtherKind) || t == Interface ==> GoOf(env, names, t, fuel) == Word("any")
    ensures t == Time ==> GoOf(env, names, t, fuel) == Word("time.Time")
    ensures t == Slice(Basic(Uint8Kind)) || t == Array(Basic(Uint8Kind)) ==> GoOf(env, names, t, fuel) == Word("[]byte")
    ensures (t.Slice? || t.Array?) && t.elem != Basic(Uint8Kind) ==>
              GoOf(env, names, t, fuel) == Many(GoOf(env, names, t.elem, fuel))
    ensures t.Pointer? ==> GoOf(env, names, t, fuel) == Star(GoOf(env, names, t.elem, fuel))
    ensures t.MapOf? ==> GoOf(env, names, t, fuel) == Dict(GoOf(env, names, t.key, fuel), GoOf(env, names, t.elem, fuel))
    ensures t.Named? && t.id in names ==> GoOf(env, names, t, fuel) == Ref(names[t.id])
    ensures t.Inline? ==> GoOf(env, names, t, fuel) == Struct(LinesOf(env, names, t.fields, fuel))
  {
  }

  /** The line of a field: none for an unexported one or one its tag leaves out, the embedded
      struct's own lines where no tag names it, and otherwise one under the whole tag, or
      under the field's name when it has none. */
  lemma FieldIsWritten(env: Env, names: map<nat, string>, f: Field, fuel: nat)
    requires env.walker.Sdk? && WalksField(env, f, fuel)
    ensures !f.exported && !f.embedded ==> LinesOfField(env, names, f, fuel) == []
    ensures Before(f.tag, ',') == "-" ==> LinesOfField(env, names, f, fuel) == []
    ensures f.exported && !f.embedded && Before(f.tag, ',') != "-" ==>
              LinesOfField(env, names, f, fuel) ==
              [Line(Exported(f.name), GoOf(env, names, f.ty, fuel), if f.tag == "" then f.name else f.tag)]
    ensures f.embedded && Before(f.tag, ',') != "" && Before(f.tag, ',') != "-" ==>
              LinesOfField(env, names, f, fuel) == [Line(Exported(f.name), GoOf(env, names, f.ty, fuel), f.tag)]
    ensures f.embedded && Before(f.tag, ',') == "" &&
            (f.ty.Basic? || f.ty.Slice? || f.ty.Array? || f.ty.MapOf? || f.ty.Interface?) ==>
              LinesOfField(env, names, f, fuel) ==
              [Line(Exported(f.name), GoOf(env, names, f.ty, fuel), if f.tag == "" then f.name else f.tag)]
    ensures f.embedded && Before(f.tag, ',') == "" && (f.ty.Named? || (f.ty.Pointer? && f.ty.elem.Named?)) ==>
              var id := if f.ty.Named? then f.ty.id else f.ty.elem.id;
              && fuel > 0 && id in env.decls && WalksFields(env, env.decls[id].fields, fuel - 1)
              && LinesOfField(env, names, f, fuel) == LinesOf(env, names, env.decls[id].fields, fuel - 1)
  {
    if f.embedded && Before(f.tag, ',') == "" && f.ty.Pointer? && f.ty.elem.Named? {
      assert WalksThrough(env, f.ty.elem, fuel);
      assert LinesThrough(env, names, f.ty, fuel) == LinesThrough(env, names, f.ty.elem, fuel);
    }
  }

  /** And the lines of several are those of each, in order. */
  lemma {:induction false} LinesInOrder(env: Env, names: map<nat, string>, fs: seq<Field>, i: nat, fuel: nat)
    requires env.walker.Sdk? && WalksFields(env, fs, fuel) && i < |fs|
    ensures WalksFields(env, fs[..i], fuel) && WalksField(env, fs[i], fuel)
    ensures LinesOf(env, names, fs[..i], fuel) + LinesOfField(env, names, fs[i], fuel) <= LinesOf(env, names, fs, fuel)
    decreases |fs|
  {
    var n := |fs| - 1;
    if i < n {
      LinesInOrder(env, names, fs[..n], i, fuel);
      assert fs[..n][..i] == fs[..i];
    }
  }

  // ---- later names change nothing that is already written ----

  lemma {:induction false} LinesStable(env: Env, a: map<nat, string>, b: map<nat, string>, fs: seq<Field>, fuel: nat)
    requires env.walker.Sdk? && WalksFields(env, fs, fuel) && Extends(a, b) && IdsOfFields(env, fs, fuel) <= a.Keys
    ensures LinesOf(env, a, fs, fuel) == LinesOf(env, b, fs, fuel)
    decreases fuel, fs
  {
    if fs != [] {
      var n := |fs| - 1;
      assert forall j | j in IdsOfFields(env, fs[..n], fuel) :: j in IdsOfFields(env, fs, fuel);
      assert forall j | j in IdsOfField(env, fs[n], fuel) :: j in IdsOfFields(env, fs, fuel);
      LinesStable(env, a, b, fs[..n], fuel);
      FieldStable(env, a, b, fs[n], fuel);
    }
  }

  lemma {:induction false} FieldStable(env: Env, a: map<nat, string>, b: map<nat, string>, f: Field, fuel: nat)
    requires env.walker.Sdk? && WalksField(env, f, fuel) && Extends(a, b) && IdsOfField(env, f, fuel) <= a.Keys
    ensures LinesOfField(env, a, f, fuel) == LinesOfField(env, b, f, fuel)
    decreases fuel, f
  {
    if !Skips(env.walker, f) {
      if Flattens(env.walker, f) { ThroughStable(env, a, b, f.ty, fuel); } else { GoStable(env, a, b, f.ty, fuel); }
    }
  }

  lemma {:induction false} ThroughStable(env: Env, a: map<nat, string>, b: map<nat, string>, t: Type, fuel: nat)
    requires env.walker.Sdk? && WalksThrough(env, t, fuel) && Extends(a, b) && IdsThrough(env, t, fuel) <= a.Keys
    ensures LinesThrough(env, a, t, fuel) == LinesThrough(env, b, t, fuel)
    decreases fuel, t
  {
    match t {
      case Pointer(elem) => ThroughStable(env, a, b, elem, fuel);
      case Inline(fs) => LinesStable(env, a, b, fs, fuel);
      case Named(j) => LinesStable(env, a, b, env.decls[j].fields, fuel - 1);
      case _ =>
    }
  }

  lemma {:induction false} GoStable(env: Env, a: map<nat, string>, b: map<nat, string>, t: Type, fuel: nat)
    requires env.walker.Sdk? && WalksType(env, t, fuel) && Extends(a, b) && IdsOfType(env, t, fuel) <= a.Keys
    ensures GoOf(env, a, t, fuel) == GoOf(env, b, t, fuel)
    decreases fuel, t
  {
    match t {
      case Pointer(elem) => GoStable(env, a, b, elem, fuel);
      case Slice(elem) => GoStable(env, a, b, elem, fuel);
      case Array(elem) => GoStable(env, a, b, elem, fuel);
      case MapOf(key, elem) => GoStable(env, a, b, key, fuel); GoStable(env, a, b, elem, fuel);
      case Inline(fs) => LinesStable(env, a, b, fs, fuel);
      case Named(j) => assert j in IdsOfType(env, t, fuel);
      case _ =>
    }
  }

  // ---- every reference written names a declaration ----

  predicate RefsIn(g: Go, defined: set<string>)
    decreases g
  {
    match g
    case Word(_) => true
    case Star(elem) => RefsIn(elem, defined)
    case Many(elem) => RefsIn(elem, defined)
    case Dict(key, elem) => RefsIn(key, defined) && RefsIn(elem, defined)
    case Ref(name) => name in defined
    case Struct(lines) => LineRefsIn(lines, defined)
  }

  predicate LineRefsIn(lines: seq<Line>, defined: set<string>)
    decreases lines
  {
    forall i | 0 <= i < |lines| :: RefsIn(lines[i].go, defined)
  }

  lemma {:induction false} LinesDefined(env: Env, names: map<nat, string>, fs: seq<Field>, fuel: nat, defined: set<string>)
    requires env.walker.Sdk? && WalksFields(env, fs, fuel) && IdsOfFields(env, fs, fuel) <= names.Keys && names.Values <= defined
    ensures LineRefsIn(LinesOf(env, names, fs, fuel), defined)
    decreases fuel, fs
  {
    if fs != [] {
      var n := |fs| - 1;
      assert forall j | j in IdsOfFields(env, fs[..n], fuel) :: j in IdsOfFields(env, fs, fuel);
      assert forall j | j in IdsOfField(env, fs[n], fuel) :: j in IdsOfFields(env, fs, fuel);
      LinesDefined(env, names, fs[..n], fuel, defined);
      FieldDefined(env, names, fs[n], fuel, defined);
    }
  }

  lemma {:induction false} FieldDefined(env: Env, names: map<nat, string>, f: Field, fuel: nat, defined: set<string>)
    requires env.walker.Sdk? && WalksField(env, f, fuel) && IdsOfField(env, f, fuel) <= names.Keys && names.Values <= defined
    ensures LineRefsIn(LinesOfField(env, names, f, fuel), defined)
    decreases fuel, f
  {
    if !Skips(env.walker, f) {
      if Flattens(env.walker, f) { ThroughDefined(env, names, f.ty, fuel, defined); } else { GoDefined(env, names, f.ty, fuel, defined); }
    }
  }

  lemma {:induction false} ThroughDefined(env: Env, names: map<nat, string>, t: Type, fuel: nat, defined: set<string>)
    requires env.walker.Sdk? && WalksThrough(env, t, fuel) && IdsThrough(env, t, fuel) <= names.Keys && names.Values <= defined
    ensures LineRefsIn(LinesThrough(env, names, t, fuel), defined)
    decreases fuel, t
  {
    match t {
      case Pointer(elem) => ThroughDefined(env, names, elem, fuel, defined);
      case Inline(fs) => LinesDefined(env, names, fs, fuel, defined);
      case Named(j) => LinesDefined(env, names, env.decls[j].fields, fuel - 1, defined);
      case _ =>
    }
  }

  lemma {:induction false} GoDefined(env: Env, names: map<nat, string>, t: Type, fuel: nat, defined: set<string>)
    requires env.walker.Sdk? && WalksType(env, t, fuel) && IdsOfType(env, t, fuel) <= names.Keys && names.Values <= defined
    ensures RefsIn(GoOf(env, names, t, fuel), defined)
    decreases fuel, t
  {
    match t {
      case Pointer(elem) => GoDefined(env, names, elem, fuel, defined);
      case Slice(elem) => GoDefined(env, names, elem, fuel, defined);
      case Array(elem) => GoDefined(env, names, elem, fuel, defined);
      case MapOf(key, elem) => GoDefined(env, names, key, fuel, defined); GoDefined(env, names, elem, fuel, defined);
      case Inline(fs) => LinesDefined(env, names, fs, fuel, defined);
      case Named(j) => assert j in IdsOfType(env, t, fuel) && names[j] in names.Values;
      case _ =>
    }
  }

  // ---- names ----

  const HANDWRITTEN: set<string> :=
    { "Client", "New", "ClientOption", "WithHTTPClient", "WithUserAgent", "WithProject", "Error", "FieldError",
      "RequestOption", "Query", "Header", "ForProject", "escape", "do" }

  /** The name asked for first: qualified when the plain one is taken or hand-written. */
  function Candidate(d: Decl, taken: set<string>): string {
    var name := Exported(d.name);
    if name in taken || name in HANDWRITTEN then Qualifier(BaseOf(d.pkg)) + name else name
  }

  ghost function Longest(names: set<string>): (top: nat)
    ensures forall n | n in names :: |n| <= top
    decreases names
  {
    if names == {} then 0
    else
      var n :| n in names;
      var rest := Longest(names - {n});
      if |n| > rest then |n| else rest
  }

  /** Picks a name no type has. It is one the hand-written client already declares exactly
      when the package-qualified candidate is, and is free: that one is not checked. */
  method Choose(d: Decl, taken: set<string>) returns (name: string)
    ensures name !in taken
    ensures Exported(d.name) !in taken && Exported(d.name) !in HANDWRITTEN ==> name == Exported(d.name)
    ensures Exported(d.name) in taken || Exported(d.name) in HANDWRITTEN ==>
              var qualified := Qualifier(BaseOf(d.pkg)) + Exported(d.name);
              if qualified !in taken then name == qualified else qualified <= name && IsDigit(Last(name))
    ensures Candidate(d, taken) !in taken ==> name == Candidate(d, taken)
    ensures Candidate(d, taken) in taken ==> IsDigit(Last(name)) && Candidate(d, taken) <= name
    ensures name in HANDWRITTEN <==> Candidate(d, taken) !in taken && Candidate(d, taken) in HANDWRITTEN
  {
    name := Exported(d.name);
    if name in taken || name in HANDWRITTEN {
      name := Qualifier(BaseOf(d.pkg)) + name;
    }
    name := Numbered(name, taken);
    NoneNumbered();
  }

  lemma NoneNumbered()
    ensures forall n | n in HANDWRITTEN :: !IsDigit(Last(n))
  {
  }

  /** A number appended for as long as the name is taken. */
  method Numbered(base: string, taken: set<string>) returns (name: string)
    ensures name !in taken && base <= name
    ensures if base in taken then IsDigit(Last(name)) else name == base
  {
    name := base;
    ghost var top := Longest(taken);
    var i := 2;
    while name in taken
      invariant i >= 2 && base <= name
      invariant if i == 2 then name == base else base in taken && IsDigit(Last(name))
      decreases top - |name|
    {
      var number := Decimal(i);
      assert Last(name + number) == Last(number);
      name := name + number;
      i := i + 1;
    }
  }

  // ---- the generator ----

  ghost predicate SdkWalkable(env: Env, depth: nat) {
    env.walker.Sdk? && Walkable(env, depth)
  }

  /** Names and types are in bijection, each name with a place for its declaration. */
  ghost predicate Paired(env: Env, emitted: map<nat, string>, takenBy: map<string, nat>,
                         types: map<string, Option<seq<Line>>>) {
    && emitted.Keys <= env.decls.Keys && types.Keys == takenBy.Keys
    && (forall id | id in emitted :: emitted[id] in takenBy && takenBy[emitted[id]] == id)
    && (forall n | n in takenBy :: takenBy[n] in emitted && emitted[takenBy[n]] == n)
  }

  /** The declaration of a type is what its fields say, under the names given out, and
      every struct it mentions has been met. */
  ghost predicate Declares(env: Env, depth: nat, emitted: map<nat, string>, decl: Option<seq<Line>>, id: nat)
    requires env.walker.Sdk? && id in env.decls && WalksFields(env, env.decls[id].fields, depth)
  {
    && IdsOfFields(env, env.decls[id].fields, depth) <= emitted.Keys
    && decl == Some(LinesOf(env, emitted, env.decls[id].fields, depth))
  }

  /** A place is empty exactly while the fields of its struct are being walked. */
  ghost predicate Declared(env: Env, depth: nat, emitted: map<nat, string>, types: map<string, Option<seq<Line>>>,
                           open: set<nat>)
    requires SdkWalkable(env, depth) && emitted.Keys <= env.decls.Keys && forall id | id in emitted :: emitted[id] in types
  {
    forall id | id in emitted ::
      if id in open then types[emitted[id]] == None
      else Declares(env, depth, emitted, types[emitted[id]], id)
  }

  ghost predicate Good(env: Env, depth: nat, emitted: map<nat, string>, takenBy: map<string, nat>,
                       types: map<string, Option<seq<Line>>>, open: set<nat>, unmet: set<nat>) {
    && SdkWalkable(env, depth) && Paired(env, emitted, takenBy, types)
    && (forall id :: id in unmet <==> id in env.decls && id !in emitted) && open <= emitted.Keys
    && Declared(env, depth, emitted, types, open)
  }

  lemma Begins(env: Env, depth: nat, emitted: map<nat, string>, takenBy: map<string, nat>,
               types: map<string, Option<seq<Line>>>, open: set<nat>, unmet: set<nat>, t: nat, name: string)
    requires Good(env, depth, emitted, takenBy, types, open, unmet) && t in env.decls && t !in emitted && name !in takenBy
    ensures Good(env, depth, emitted[t := name], takenBy[name := t], types[name := None], open + {t}, unmet - {t})
    ensures t in unmet && t !in open
  {
    PairMore(env, emitted, takenBy, types, t, name);
    DeclaredMore(env, depth, emitted, takenBy, types, open, t, name);
  }

  lemma Finishes(env: Env, depth: nat, emitted: map<nat, string>, takenBy: map<string, nat>,
                 types: map<string, Option<seq<Line>>>, open: set<nat>, unmet: set<nat>, t: nat)
    requires Good(env, depth, emitted, takenBy, types, open, unmet) && t in open
    requires t in emitted && IdsOfFields(env, env.decls[t].fields, depth) <= emitted.Keys
    ensures Good(env, depth, emitted, takenBy,
                 types[emitted[t] := Some(LinesOf(env, emitted, env.decls[t].fields, depth))], open - {t}, unmet)
  {
  }

  lemma PairMore(env: Env, emitted: map<nat, string>, takenBy: map<string, nat>,
                 types: map<string, Option<seq<Line>>>, t: nat, name: string)
    requires Paired(env, emitted, takenBy, types) && t in env.decls && t !in emitted && name !in takenBy
    ensures Paired(env, emitted[t := name], takenBy[name := t], types[name := None])
  {
  }

  lemma DeclaredMore(env: Env, depth: nat, emitted: map<nat, string>, takenBy: map<string, nat>,
                     types: map<string, Option<seq<Line>>>, open: set<nat>, t: nat, name: string)
    requires SdkWalkable(env, depth) && Paired(env, emitted, takenBy, types) && Declared(env, depth, emitted, types, open)
    requires t in env.decls && t !in emitted && name !in takenBy
    ensures Declared(env, depth, emitted[t := name], types[name := None], open + {t})
  {
    var later := emitted[t := name];
    forall id | id in emitted && id !in open ensures Declares(env, depth, later, types[emitted[id]], id) {
      LinesStable(env, emitted, later, env.decls[id].fields, depth);
    }
  }

  class Generator {
    const env: Env
    ghost const depth: nat

    /** A declaration by its name; none while its fields are still being walked. */
    var types: map<string, Option<seq<Line>>>
    var emitted: map<nat, string>
    var takenBy: map<string, nat>

    /** The declarations being walked, and the types not yet met. */
    ghost var open: set<nat>
    ghost var unmet: set<nat>

    constructor (env: Env, ghost depth: nat)
      requires SdkWalkable(env, depth)
      ensures this.env == env && this.depth == depth && Valid() && emitted == map[] && open == {}
    {
      this.env, this.depth := env, depth;
      types, emitted, takenBy := map[], map[], map[];
      open, unmet := {}, env.decls.Keys;
    }

    ghost predicate Valid()
      reads this
    {
      Good(env, depth, emitted, takenBy, types, open, unmet)
    }

    /** What every method of the walk keeps: names given out stay, and nothing that was
        being walked is finished by anyone else. */
    twostate predicate Onward()
      reads this
    {
      Extends(old(emitted), emitted) && open == old(open) && unmet <= old(unmet)
    }

    /** Reserves a name no type has, before the fields are walked, so that a struct that
        refers to itself finds it. */
    method Reserve(t: nat) returns (name: string)
      requires t in env.decls
      modifies this
      ensures name !in old(takenBy) && takenBy == old(takenBy)[name := t]
      ensures emitted == old(emitted)[t := name] && types == old(types)[name := None]
      ensures open == old(open) + {t} && unmet == old(unmet) - {t}
    {
      name := Choose(env.decls[t], takenBy.Keys);
      takenBy := takenBy[name := t];
      emitted := emitted[t := name];
      types := types[name := None];
      open, unmet := open + {t}, unmet - {t};
    }

    /** The name of a struct, and its declaration the first time it is met. */
    method TypeName(t: nat) returns (name: string)
      requires Valid() && t in env.decls
      modifies this
      ensures Valid() && Onward() && t in emitted && name == emitted[t]
      decreases unmet, 0
    {
      if t in emitted {
        return emitted[t];
      }
      ghost var names, owners, decls, walking, left := emitted, takenBy, types, open, unmet;
      name := Reserve(t);
      Begins(env, depth, names, owners, decls, walking, left, t, name);
      Declare(t);
      assert open == walking + {t} - {t} == walking;
    }

    /** Walks the fields of a struct just reserved and puts its declaration in its place. */
    method Declare(t: nat)
      requires Valid() && t in env.decls && t in emitted && t in open
      modifies this
      ensures Valid() && Extends(old(emitted), emitted) && open == old(open) - {t} && unmet <= old(unmet)
      decreases unmet, depth + 2
    {
      var lines := Fields(env.decls[t].fields, depth);
      Finishes(env, depth, emitted, takenBy, types, open, unmet, t);
      types := types[emitted[t] := Some(lines)];
      open := open - {t};
    }

    /** The lines of a struct's fields. */
    method Fields(fs: seq<Field>, ghost fuel: nat) returns (lines: seq<Line>)
      requires Valid() && WalksFields(env, fs, fuel)
      modifies this
      ensures Valid() && Onward() && IdsOfFields(env, fs, fuel) <= emitted.Keys
      ensures lines == LinesOf(env, emitted, fs, fuel)
      decreases unmet, fuel + 1, fs
    {
      lines := [];
      for i := 0 to |fs|
        invariant Valid() && Onward() && IdsOfFields(env, fs[..i], fuel) <= emitted.Keys
        invariant lines == LinesOf(env, emitted, fs[..i], fuel)
      {
        ghost var was := emitted;
        var more := OneField(fs[i], fuel);
        LinesMore(env, was, emitted, fs, i, fuel);
        lines := lines + more;
      }
      assert fs[..|fs|] == fs;
    }

    method OneField(f: Field, ghost fuel: nat) returns (lines: seq<Line>)
      requires Valid() && WalksField(env, f, fuel)
      modifies this
      ensures Valid() && Onward() && IdsOfField(env, f, fuel) <= emitted.Keys
      ensures lines == LinesOfField(env, emitted, f, fuel)
      decreases unmet, fuel + 1, f
    {
      if Skips(env.walker, f) {
        return [];
      }
      if Flattens(env.walker, f) {
        lines := Flattened(f.ty, fuel);
        return;
      }
      var go := GoType(f.ty, fuel);
      lines := [Line(Exported(f.name), go, if f.tag != "" then f.tag else f.name)];
    }

    /** An embedded struct's fields take its place. */
    method Flattened(t: Type, ghost fuel: nat) returns (lines: seq<Line>)
      requires Valid() && WalksThrough(env, t, fuel)
      modifies this
      ensures Valid() && Onward() && IdsThrough(env, t, fuel) <= emitted.Keys
      ensures lines == LinesThrough(env, emitted, t, fuel)
      decreases unmet, fuel + 1, t
    {
      match t {
        case Pointer(elem) => lines := Flattened(elem, fuel);
        case Inline(fs) => lines := Fields(fs, fuel);
        case Named(j) => lines := Fields(env.decls[j].fields, fuel - 1);
        case _ => lines := [];
      }
    }

    method GoType(t: Type, ghost fuel: nat) returns (go: Go)
      requires Valid() && WalksType(env, t, fuel)
      modifies this
      ensures Valid() && Onward() && IdsOfType(env, t, fuel) <= emitted.Keys
      ensures go == GoOf(env, emitted, t, fuel)
      decreases unmet, fuel + 1, t, 0
    {
      match t {
        case Pointer(elem) =>
          var g := GoType(elem, fuel);
          go := Star(g);
        case Slice(elem) => go := ListType(elem, fuel);
        case Array(elem) => go := ListType(elem, fuel);
        case MapOf(key, elem) =>
          var k := GoType(key, fuel);
          ghost var was := emitted;
          var e := GoType(elem, fuel);
          GoStable(env, was, emitted, key, fuel);
          go := Dict(k, e);
        case Interface => go := Word("any");
        case Time => go := Word("time.Time");
        case Inline(fs) =>
          var lines := Fields(fs, fuel);
          go := Struct(lines);
        case Named(j) =>
          var name := TypeName(j);
          go := Ref(name);
        case Basic(k) => go := Word(Basics(k));
      }
    }

    method ListType(elem: Type, ghost fuel: nat) returns (go: Go)
      requires Valid() && WalksType(env, elem, fuel)
      modifies this
      ensures Valid() && Onward() && IdsOfType(env, elem, fuel) <= emitted.Keys
      ensures go == if elem == Basic(Uint8Kind) then Word("[]byte") else Many(GoOf(env, emitted, elem, fuel))
      decreases unmet, fuel + 1, elem, 1
    {
      if elem == Basic(Uint8Kind) {
        return Word("[]byte");
      }
      var g := GoType(elem, fuel);
      go := Many(g);
    }
  }

  /** The whole walk: every root, one after another. */
  method Render(env: Env, ghost depth: nat, roots: seq<nat>) returns (g: Generator)
    requires SdkWalkable(env, depth) && forall r | r in roots :: r in env.decls
    ensures fresh(g) && g.env == env && g.depth == depth && g.Valid() && g.open == {}
    ensures forall r | r in roots :: r in g.emitted
  {
    g := new Generator(env, depth);
    for i := 0 to |roots|
      invariant g.Valid() && g.env == env && g.depth == depth && g.open == {}
      invariant forall r | r in roots[..i] :: r in g.emitted
    {
      var name := g.TypeName(roots[i]);
    }
  }

  /** What the walk leaves when it is done: every name belongs to one type, every name has
      its declaration, and every reference in one names another. */
  lemma OutputIsComplete(env: Env, depth: nat, emitted: map<nat, string>, takenBy: map<string, nat>,
                         types: map<string, Option<seq<Line>>>)
    requires SdkWalkable(env, depth) && Paired(env, emitted, takenBy, types) && Declared(env, depth, emitted, types, {})
    ensures forall a, b | a in emitted && b in emitted && emitted[a] == emitted[b] :: a == b
    ensures forall n | n in types :: types[n].Some? && LineRefsIn(types[n].value, types.Keys)
  {
    forall n | n in types ensures types[n].Some? && LineRefsIn(types[n].value, types.Keys) {
      var id := takenBy[n];
      assert Declares(env, depth, emitted, types[n], id);
      LinesDefined(env, emitted, env.decls[id].fields, depth, types.Keys);
    }
  }

  /** Whatever can be reached from a type that was met has been met too. */
  lemma {:induction false} ReachableIsDefined(env: Env, depth: nat, emitted: map<nat, string>, takenBy: map<string, nat>,
                                              types: map<string, Option<seq<Line>>>, path: seq<nat>)
    requires SdkWalkable(env, depth) && Paired(env, emitted, takenBy, types) && Declared(env, depth, emitted, types, {})
    requires Chain(env, depth, path) && path[0] in emitted
    ensures path[|path| - 1] in emitted && emitted[path[|path| - 1]] in types
    decreases |path|
  {
    if |path| > 1 {
      var n := |path| - 1;
      assert Chain(env, depth, path[..n]);
      ReachableIsDefined(env, depth, emitted, takenBy, types, path[..n]);
      assert path[..n][n - 1] == path[n - 1];
      assert Declares(env, depth, emitted, types[emitted[path[n - 1]]], path[n - 1]);
      assert path[n] in IdsOfFields(env, env.decls[path[n - 1]].fields, depth);
    }
  }

  /** The struct Error of a package called field is such a struct. */
  lemma FieldErrorClashes(d: Decl, taken: set<string>)
    requires BaseOf(d.pkg) == "field" && d.name == "Error" && "FieldError" !in taken
    ensures Candidate(d, taken) == "FieldError" && "FieldError" in HANDWRITTEN
  {
    assert Exported("Error") == "Error" && Qualifier("field") == "Field";
  }

  /** What a method is called after those before it: by its own name, else by the one its route
      gives, else by that one numbered. */
  ghost predicate NamedAmong(own: string, alt: string, earlier: seq<string>, name: string) {
    if own !in earlier then name == own
    else if alt !in earlier then name == alt
    else alt <= name && IsDigit(Last(name))
  }

  /** Names given out one after another, none twice. */
  ghost predicate NamedInOrder(own: seq<string>, alts: seq<string>, names: seq<string>)
    requires |names| <= |own| == |alts|
  {
    names == [] ||
    var last := |names| - 1;
    && NamedInOrder(own, alts, names[..last]) && names[last] !in names[..last]
    && NamedAmong(own[last], alts[last], names[..last], names[last])
  }

  lemma NamedOneMore(own: seq<string>, alts: seq<string>, names: seq<string>, name: string)
    requires |names| < |own| == |alts| && NamedInOrder(own, alts, names)
    requires name !in names && NamedAmong(own[|names|], alts[|names|], names, name)
    ensures NamedInOrder(own, alts, names + [name]) && Members(names + [name]) == Members(names) + {name}
  {
    assert (names + [name])[..|names|] == names;
  }

  /** Every method has a name of its own, and keeps the one it came with exactly when no
      earlier method was given it. */
  lemma {:induction false} MethodsDiffer(own: seq<string>, alts: seq<string>, names: seq<string>, i: nat)
    requires |names| <= |own| == |alts| && NamedInOrder(own, alts, names) && i < |names|
    ensures NamedAmong(own[i], alts[i], names[..i], names[i])
    ensures forall j | 0 <= j < |names| && j != i :: names[j] != names[i]
    ensures names[i] == own[i] <==> own[i] !in names[..i]
    ensures own[i] in names[..i] && alts[i] !in names[..i] ==> names[i] == alts[i]
    ensures own[i] in names[..i] && alts[i] in names[..i] ==> alts[i] < names[i] && IsDigit(names[i][|names[i]| - 1])
  {
    var last := |names| - 1;
    if i < last {
      assert names[..last][..i] == names[..i];
      MethodsDiffer(own, alts, names[..last], i);
    }
    assert names[i] !in names[..i];
  }

  /** Method names made unique in place: a name already given out is rebuilt from its route
      (`alts`), and numbered while even that repeats. */
  method UniquifyMethodNames(ms: array<string>, alts: seq<string>)
    requires |alts| == ms.Length
    modifies ms
    ensures NamedInOrder(old(ms[..]), alts, ms[..])
  {
    ghost var own, names := ms[..], [];
    var seen: set<string> := {};
    for i := 0 to ms.Length
      invariant |names| == i && NamedInOrder(own, alts, names) && seen == Members(names)
      invariant ms[..i] == names && ms[i..] == own[i..]
    {
      var name := NextName(ms[i], alts[i], seen, own, alts, names);
      names, seen := names + [name], seen + {name};
      ms[i] := name;
      assert ms[..i + 1] == names && ms[i + 1..] == own[i..][1..];
    }
    assert ms[..] == names;
  }

  method NextName(name: string, alt: string, seen: set<string>,
                  ghost own: seq<string>, ghost alts: seq<string>, ghost names: seq<string>) returns (next: string)
    requires |names| < |own| == |alts| && name == own[|names|] && alt == alts[|names|]
    requires NamedInOrder(own, alts, names) && seen == Members(names)
    ensures NamedInOrder(own, alts, names + [next]) && Members(names + [next]) == seen + {next}
  {
    next := name;
    if name in seen {
      next := Numbered(alt, seen);
    }
    NamedOneMore(own, alts, names, next);
  }

  ghost function Members(names: seq<string>): set<string> {
    set n | n in names
  }

  function Last(s: string): char {
    if s == "" then ' ' else s[|s| - 1]
  }

  /** One field more, met under the names given out by then. */
  lemma LinesMore(env: Env, was: map<nat, string>, now: map<nat, string>, fs: seq<Field>, i: nat, fuel: nat)
    requires env.walker.Sdk? && i < |fs| && WalksFields(env, fs, fuel) && Extends(was, now)
    requires env.walker.Sdk? && WalksFields(env, fs[..i], fuel) && IdsOfFields(env, fs[..i], fuel) <= was.Keys
    requires IdsOfField(env, fs[i], fuel) <= now.Keys
    ensures WalksFields(env, fs[..i + 1], fuel) && IdsOfFields(env, fs[..i + 1], fuel) <= now.Keys
    ensures LinesOf(env, now, fs[..i + 1], fuel) ==
            LinesOf(env, was, fs[..i], fuel) + LinesOfField(env, now, fs[i], fuel)
  {
    LinesStable(env, was, now, fs[..i], fuel);
    assert fs[..i + 1][..i] == fs[..i];
    IdsOfMore(env, fs, i, fuel);
  }

  lemma IdsOfMore(env: Env, fs: seq<Field>, i: nat, fuel: nat)
    requires env.walker.Sdk? && i < |fs| && WalksFields(env, fs, fuel)
    ensures WalksFields(env, fs[..i], fuel) && WalksFields(env, fs[..i + 1], fuel)
    ensures IdsOfFields(env, fs[..i + 1], fuel) == IdsOfFields(env, fs[..i], fuel) + IdsOfField(env, fs[i], fuel)
  {
  }
}
