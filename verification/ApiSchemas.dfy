/** The OpenAPI document's schema walk: one component per named struct, referred to from
    wherever it is used. */
module ApiSchemas {
  import opened Names
  import opened TypeGraph
  import opened GoNames
  import opened TagRules

  /** What the validation rules of a value become: its bounds - of a number, of a string's
      length or of an array's - its values and its format. */
  datatype Limits = Limits(min: Option<int>, max: Option<int>, oneOf: Option<seq<string>>, format: string)

  const UNLIMITED := Limits(None, None, None, "")

  datatype Schema =
    | Scalar(kind: string, limits: Limits)
    | Nullable(of: Schema)
    | ArrayOf(items: Schema, limits: Limits)
    | DictOf(elem: Schema)
    | Free
    | Component(name: string)
    | Object(props: seq<Prop>)

  /** One property. When two fields share a name the later one counts, and the name is
      required if either is. */
  datatype Prop = Prop(name: string, schema: Schema, required: bool, doc: string)

  function ScalarOf(k: Kind, rules: string): Schema {
    match k
    case StringKind => Scalar("string", StringLimits(rules))
    case BoolKind => Scalar("boolean", UNLIMITED)
    case IntKind => Scalar("integer", NumberLimits(rules))
    case UintKind => Scalar("integer", NumberLimits(rules))
    case Uint8Kind => Scalar("integer", NumberLimits(rules))
    case FloatKind => Scalar("number", NumberLimits(rules))
    case OtherKind => Free
  }

  /** A length given outright counts over both bounds. */
  function StringLimits(rules: string): Limits {
    var length := NumberAt(rules, "len");
    Limits(if length.Some? then length else NumberAt(rules, "min"),
           if length.Some? then length else NumberAt(rules, "max"),
           WordsAt(rules, "oneof"),
           if HasRule(rules, "email") then "email"
           else if HasRule(rules, "uuid") then "uuid"
           else if HasRule(rules, "url") then "uri" else "")
  }

  function NumberLimits(rules: string): Limits {
    Limits(NumberAt(rules, "min"), NumberAt(rules, "max"), WordsAt(rules, "oneof"), "")
  }

  function ArrayLimits(rules: string): Limits {
    Limits(NumberAt(rules, "min"), NumberAt(rules, "max"), None, "")
  }

  /** The member name: the tag's, or the field's own. */
  function JsonName(f: Field): string {
    var named := Before(f.tag, ',');
    if named != "" then named else f.name
  }

  /** May be absent: either option in the tag, wherever it stands after the name. */
  predicate MayOmit(f: Field) {
    "omitempty" in Parts(f.tag)[1..] || "omitzero" in Parts(f.tag)[1..]
  }

  function PropOf(f: Field, s: Schema): Prop {
    Prop(JsonName(f), s, HasRule(f.validate, "required") && !MayOmit(f), f.doc)
  }

  // ---- what the schemas should be, once every name is chosen ----

  function PropsOf(env: Env, names: map<nat, string>, fs: seq<Field>, fuel: nat): seq<Prop>
    requires env.walker.Document? && WalksFields(env, fs, fuel)
    decreases fuel, fs
  {
    if fs == [] then []
    else PropsOf(env, names, fs[..|fs| - 1], fuel) + PropsOfField(env, names, fs[|fs| - 1], fuel)
  }

  function PropsOfField(env: Env, names: map<nat, string>, f: Field, fuel: nat): seq<Prop>
    requires env.walker.Document? && WalksField(env, f, fuel)
    decreases fuel, f
  {
    if Skips(env.walker, f) then []
    else if Flattens(env.walker, f) then PropsThrough(env, names, f.ty, fuel)
    else [PropOf(f, SchemaOf(env, names, f.ty, f.validate, fuel))]
  }

  function PropsThrough(env: Env, names: map<nat, string>, t: Type, fuel: nat): seq<Prop>
    requires env.walker.Document? && WalksThrough(env, t, fuel)
    decreases fuel, t
  {
    match t
    case Pointer(elem) => PropsThrough(env, names, elem, fuel)
    case Inline(fs) => PropsOf(env, names, fs, fuel)
    case Named(j) => PropsOf(env, names, env.decls[j].fields, fuel - 1)
    case _ => []
  }

  function SchemaOf(env: Env, names: map<nat, string>, t: Type, validate: string, fuel: nat): Schema
    requires env.walker.Document? && WalksType(env, t, fuel)
    decreases fuel, t
  {
    var (outer, inner) := SplitDive(validate);
    match t
    case Pointer(elem) => Nullable(SchemaOf(env, names, elem, validate, fuel))
    case Slice(elem) =>
      if elem == Basic(Uint8Kind) then Scalar("byte", UNLIMITED) else ArrayOf(SchemaOf(env, names, elem, inner, fuel), ArrayLimits(outer))
    case Array(elem) => ArrayOf(SchemaOf(env, names, elem, inner, fuel), ArrayLimits(outer))
    case MapOf(_, elem) => DictOf(SchemaOf(env, names, elem, inner, fuel))
    case Interface => Free
    case Time => Scalar("date-time", UNLIMITED)
    case Inline(fs) => Object(PropsOf(env, names, fs, fuel))
    case Named(j) => Component(NameOf(names, j))
    case Basic(k) => ScalarOf(k, outer)
  }

  /** The schema each kind of type has, `validate` being its field's rules: those before the
      first `dive` bound the value, those after it its elements. */
  lemma TypeHasSchema(env: Env, names: map<nat, string>, t: Type, validate: string, fuel: nat)
    requires env.walker.Document? && WalksType(env, t, fuel)
    ensures var s := SchemaOf(env, names, t, validate, fuel);
            var (outer, inner) := SplitDive(validate);
            && (t == Basic(StringKind) ==> s.Scalar? && s.kind == "string" && s.limits == StringLimits(outer))
            && (t == Basic(BoolKind) ==> s == Scalar("boolean", Limits(None, None, None, "")))
            && (t == Basic(IntKind) || t == Basic(UintKind) || t == Basic(Uint8Kind) ==>
                  s == Scalar("integer", Limits(NumberAt(outer, "min"), NumberAt(outer, "max"), WordsAt(outer, "oneof"), "")))
            && (t == Basic(FloatKind) ==>
                  s == Scalar("number", Limits(NumberAt(outer, "min"), NumberAt(outer, "max"), WordsAt(outer, "oneof"), "")))
            && (t == Basic(OtherKind) || t == Interface ==> s == Free)
            && (t == Time ==> s == Scalar("date-time", Limits(None, None, None, "")))
            && (t == Slice(Basic(Uint8Kind)) ==> s == Scalar("byte", Limits(None, None, None, "")))
            && (t.Array? || (t.Slice? && t.elem != Basic(Uint8Kind)) ==>
                  s == ArrayOf(SchemaOf(env, names, t.elem, inner, fuel),
                               Limits(NumberAt(outer, "min"), NumberAt(outer, "max"), None, "")))
            && (t.MapOf? ==> s == DictOf(SchemaOf(env, names, t.elem, inner, fuel)))
            && (t.Pointer? ==> s == Nullable(SchemaOf(env, names, t.elem, validate, fuel)))
            && (t.Named? && t.id in names ==> s == Component(names[t.id]))
            && (t.Inline? ==> s == Object(PropsOf(env, names, t.fields, fuel)))
  {
  }

  /** A string's bounds are on its length, and one given outright counts over both. */
  lemma StringLimitsAre(rules: string)
    ensures var l := StringLimits(rules);
            && (NumberAt(rules, "len").Some? ==> l.min == l.max == NumberAt(rules, "len"))
            && (NumberAt(rules, "len").None? ==> l.min == NumberAt(rules, "min") && l.max == NumberAt(rules, "max"))
            && l.oneOf == WordsAt(rules, "oneof")
            && (l.format == "email" <==> HasRule(rules, "email"))
            && (l.format == "uuid" <==> HasRule(rules, "uuid") && !HasRule(rules, "email"))
            && (l.format == "uri" <==> HasRule(rules, "url") && !HasRule(rules, "email") && !HasRule(rules, "uuid"))
            && l.format in {"email", "uuid", "uri", ""}
  {
  }

  /** The property of a field: none for an unexported one or one its tag leaves out, the
      embedded struct's own where it has no tag; otherwise one, under the name of its tag or
      its own, described by its doc tag, and required when the validator demands it and no
      option lets it be absent. */
  lemma FieldHasProperty(env: Env, names: map<nat, string>, f: Field, fuel: nat, rules: seq<string>, options: seq<string>)
    requires env.walker.Document? && WalksField(env, f, fuel) && rules == Parts(f.validate) && options == Parts(f.tag)
    ensures !f.exported && !f.embedded ==> PropsOfField(env, names, f, fuel) == []
    ensures f.tag == "-" ==> PropsOfField(env, names, f, fuel) == []
    ensures f.exported && f.tag != "-" &&
            (!f.embedded || f.tag != "" || f.ty.Basic? || f.ty.Slice? || f.ty.Array? || f.ty.MapOf? || f.ty.Pointer?) ==>
              |PropsOfField(env, names, f, fuel)| == 1 &&
              var p := PropsOfField(env, names, f, fuel)[0];
              && p.name == (if Before(f.tag, ',') == "" then f.name else Before(f.tag, ','))
              && p.schema == SchemaOf(env, names, f.ty, f.validate, fuel) && p.doc == f.doc
              && (p.required <==>
                    && (exists i :: 0 <= i < |rules| && Trim(rules[i], ' ') == "required")
                    && !(exists i :: 1 <= i < |options| && options[i] == "omitempty")
                    && !(exists i :: 1 <= i < |options| && options[i] == "omitzero"))
    ensures f.embedded && f.tag == "" && f.ty.Named? ==>
              && fuel > 0 && f.ty.id in env.decls && WalksFields(env, env.decls[f.ty.id].fields, fuel - 1)
              && PropsOfField(env, names, f, fuel) == PropsOf(env, names, env.decls[f.ty.id].fields, fuel - 1)
  {
    InTail(options, "omitempty");
    InTail(options, "omitzero");
    if f.exported && f.tag != "-" && !Flattens(env.walker, f) {
      assert PropsOfField(env, names, f, fuel) == [PropOf(f, SchemaOf(env, names, f.ty, f.validate, fuel))];
      assert MayOmit(f) <==> "omitempty" in options[1..] || "omitzero" in options[1..];
      RuleAmong(f.validate, "required", rules);
    }
  }

  lemma RuleAmong(validate: string, name: string, rules: seq<string>)
    requires rules == Parts(validate)
    ensures HasRule(validate, name) <==> exists i :: 0 <= i < |rules| && Trim(rules[i], ' ') == name
  {
  }

  lemma InTail(parts: seq<string>, option: string)
    requires parts != []
    ensures option in parts[1..] <==> exists i :: 1 <= i < |parts| && parts[i] == option
  {
    if option in parts[1..] {
      var k :| 0 <= k < |parts[1..]| && parts[1..][k] == option;
      assert parts[k + 1] == option;
    }
    if i :| 1 <= i < |parts| && parts[i] == option {
      assert parts[1..][i - 1] == option;
    }
  }

  lemma {:induction false} PropsInOrder(env: Env, names: map<nat, string>, fs: seq<Field>, i: nat, fuel: nat)
    requires env.walker.Document? && WalksFields(env, fs, fuel) && i < |fs|
    ensures WalksFields(env, fs[..i], fuel) && WalksField(env, fs[i], fuel)
    ensures PropsOf(env, names, fs[..i], fuel) + PropsOfField(env, names, fs[i], fuel) <= PropsOf(env, names, fs, fuel)
    decreases |fs|
  {
    var n := |fs| - 1;
    if i < n {
      PropsInOrder(env, names, fs[..n], i, fuel);
      assert fs[..n][..i] == fs[..i];
    }
  }

  lemma {:induction false} PropsStable(env: Env, a: map<nat, string>, b: map<nat, string>, fs: seq<Field>, fuel: nat)
    requires env.walker.Document? && WalksFields(env, fs, fuel) && Extends(a, b) && IdsOfFields(env, fs, fuel) <= a.Keys
    ensures PropsOf(env, a, fs, fuel) == PropsOf(env, b, fs, fuel)
    decreases fuel, fs
  {
    if fs != [] {
      var n := |fs| - 1;
      assert forall j | j in IdsOfFields(env, fs[..n], fuel) :: j in IdsOfFields(env, fs, fuel);
      assert forall j | j in IdsOfField(env, fs[n], fuel) :: j in IdsOfFields(env, fs, fuel);
      PropsStable(env, a, b, fs[..n], fuel);
      PropStable(env, a, b, fs[n], fuel);
    }
  }

  lemma {:induction false} PropStable(env: Env, a: map<nat, string>, b: map<nat, string>, f: Field, fuel: nat)
    requires env.walker.Document? && WalksField(env, f, fuel) && Extends(a, b) && IdsOfField(env, f, fuel) <= a.Keys
    ensures PropsOfField(env, a, f, fuel) == PropsOfField(env, b, f, fuel)
    decreases fuel, f
  {
    if !Skips(env.walker, f) {
      if Flattens(env.walker, f) { PropThroughStable(env, a, b, f.ty, fuel); } else { SchemaStable(env, a, b, f.ty, f.validate, fuel); }
    }
  }

  lemma {:induction false} PropThroughStable(env: Env, a: map<nat, string>, b: map<nat, string>, t: Type, fuel: nat)
    requires env.walker.Document? && WalksThrough(env, t, fuel) && Extends(a, b) && IdsThrough(env, t, fuel) <= a.Keys
    ensures PropsThrough(env, a, t, fuel) == PropsThrough(env, b, t, fuel)
    decreases fuel, t
  {
    match t {
      case Pointer(elem) => PropThroughStable(env, a, b, elem, fuel);
      case Inline(fs) => PropsStable(env, a, b, fs, fuel);
      case Named(j) => PropsStable(env, a, b, env.decls[j].fields, fuel - 1);
      case _ =>
    }
  }

  lemma {:induction false} SchemaStable(env: Env, a: map<nat, string>, b: map<nat, string>, t: Type, validate: string, fuel: nat)
    requires env.walker.Document? && WalksType(env, t, fuel) && Extends(a, b) && IdsOfType(env, t, fuel) <= a.Keys
    ensures SchemaOf(env, a, t, validate, fuel) == SchemaOf(env, b, t, validate, fuel)
    decreases fuel, t
  {
    match t {
      case Pointer(elem) => SchemaStable(env, a, b, elem, validate, fuel);
      case Slice(elem) => SchemaStable(env, a, b, elem, SplitDive(validate).1, fuel);
      case Array(elem) => SchemaStable(env, a, b, elem, SplitDive(validate).1, fuel);
      case MapOf(_, elem) => SchemaStable(env, a, b, elem, SplitDive(validate).1, fuel);
      case Inline(fs) => PropsStable(env, a, b, fs, fuel);
      case Named(j) => assert j in IdsOfType(env, t, fuel);
      case _ =>
    }
  }

  // ---- every reference names a component ----

  predicate Resolved(s: Schema, defined: set<string>)
    decreases s
  {
    match s
    case Nullable(of) => Resolved(of, defined)
    case ArrayOf(items, _) => Resolved(items, defined)
    case DictOf(elem) => Resolved(elem, defined)
    case Component(name) => name in defined
    case Object(props) => PropsResolved(props, defined)
    case _ => true
  }

  predicate PropsResolved(props: seq<Prop>, defined: set<string>)
    decreases props
  {
    forall i | 0 <= i < |props| :: Resolved(props[i].schema, defined)
  }

  lemma {:induction false} PropsDefined(env: Env, names: map<nat, string>, fs: seq<Field>, fuel: nat, defined: set<string>)
    requires env.walker.Document? && WalksFields(env, fs, fuel)
    requires IdsOfFields(env, fs, fuel) <= names.Keys && names.Values <= defined
    ensures PropsResolved(PropsOf(env, names, fs, fuel), defined)
    decreases fuel, fs
  {
    if fs != [] {
      var n := |fs| - 1;
      assert forall j | j in IdsOfFields(env, fs[..n], fuel) :: j in IdsOfFields(env, fs, fuel);
      assert forall j | j in IdsOfField(env, fs[n], fuel) :: j in IdsOfFields(env, fs, fuel);
      PropsDefined(env, names, fs[..n], fuel, defined);
      PropDefined(env, names, fs[n], fuel, defined);
    }
  }

  lemma {:induction false} PropDefined(env: Env, names: map<nat, string>, f: Field, fuel: nat, defined: set<string>)
    requires env.walker.Document? && WalksField(env, f, fuel)
    requires IdsOfField(env, f, fuel) <= names.Keys && names.Values <= defined
    ensures PropsResolved(PropsOfField(env, names, f, fuel), defined)
    decreases fuel, f
  {
    if !Skips(env.walker, f) {
      if Flattens(env.walker, f) {
        PropThroughDefined(env, names, f.ty, fuel, defined);
      } else {
        SchemaDefined(env, names, f.ty, f.validate, fuel, defined);
      }
    }
  }

  lemma {:induction false} PropThroughDefined(env: Env, names: map<nat, string>, t: Type, fuel: nat, defined: set<string>)
    requires env.walker.Document? && WalksThrough(env, t, fuel)
    requires IdsThrough(env, t, fuel) <= names.Keys && names.Values <= defined
    ensures PropsResolved(PropsThrough(env, names, t, fuel), defined)
    decreases fuel, t
  {
    match t {
      case Pointer(elem) => PropThroughDefined(env, names, elem, fuel, defined);
      case Inline(fs) => PropsDefined(env, names, fs, fuel, defined);
      case Named(j) => PropsDefined(env, names, env.decls[j].fields, fuel - 1, defined);
      case _ =>
    }
  }

  lemma {:induction false} SchemaDefined(env: Env, names: map<nat, string>, t: Type, validate: string, fuel: nat, defined: set<string>)
    requires env.walker.Document? && WalksType(env, t, fuel)
    requires IdsOfType(env, t, fuel) <= names.Keys && names.Values <= defined
    ensures Resolved(SchemaOf(env, names, t, validate, fuel), defined)
    decreases fuel, t
  {
    match t {
      case Pointer(elem) => SchemaDefined(env, names, elem, validate, fuel, defined);
      case Slice(elem) => SchemaDefined(env, names, elem, SplitDive(validate).1, fuel, defined);
      case Array(elem) => SchemaDefined(env, names, elem, SplitDive(validate).1, fuel, defined);
      case MapOf(_, elem) => SchemaDefined(env, names, elem, SplitDive(validate).1, fuel, defined);
      case Inline(fs) => PropsDefined(env, names, fs, fuel, defined);
      case Named(j) => assert j in IdsOfType(env, t, fuel) && names[j] in names.Values;
      case _ =>
    }
  }

  // ---- the registry ----

  /** The component name a struct gets: qualified once when the plain one is taken. */
  function ComponentName(d: Decl, taken: set<string>): string {
    if d.name in taken then Qualifier(BaseOf(d.pkg)) + d.name else d.name
  }

  ghost predicate DocWalkable(env: Env, depth: nat) {
    env.walker.Document? && Walkable(env, depth)
  }

  /** The component a struct should have. */
  function ObjectOf(env: Env, depth: nat, names: map<nat, string>, id: nat): Schema
    requires env.walker.Document? && id in env.decls && WalksFields(env, env.decls[id].fields, depth)
  {
    Object(PropsOf(env, names, env.decls[id].fields, depth))
  }

  /** Every struct met and not being walked has all it mentions met. */
  ghost predicate Met(env: Env, depth: nat, seen: map<nat, string>, open: set<nat>)
    requires DocWalkable(env, depth)
  {
    && seen.Keys <= env.decls.Keys && open <= seen.Keys
    && forall id | id in seen && id !in open :: IdsOfFields(env, env.decls[id].fields, depth) <= seen.Keys
  }

  /** A place is empty only while some struct of its name is being walked; otherwise it
      holds the component of some struct of its name. */
  ghost predicate Placed(env: Env, depth: nat, seen: map<nat, string>, open: set<nat>, defs: map<string, Option<Schema>>, n: string)
    requires DocWalkable(env, depth) && Met(env, depth, seen, open) && n in defs
  {
    exists id :: id in seen && seen[id] == n &&
      if defs[n].None? then id in open else id !in open && defs[n] == Some(ObjectOf(env, depth, seen, id))
  }

  ghost predicate Tidy(env: Env, depth: nat, seen: map<nat, string>, open: set<nat>, unmet: set<nat>,
                       defs: map<string, Option<Schema>>) {
    && DocWalkable(env, depth) && Met(env, depth, seen, open)
    && (forall id :: id in unmet <==> id in env.decls && id !in seen)
    && (forall id | id in seen :: seen[id] in defs)
    && (forall n | n in defs :: Placed(env, depth, seen, open, defs, n))
  }

  lemma Begins(env: Env, depth: nat, seen: map<nat, string>, open: set<nat>, unmet: set<nat>,
               defs: map<string, Option<Schema>>, t: nat, name: string)
    requires Tidy(env, depth, seen, open, unmet, defs) && t in env.decls && t !in seen
    ensures Tidy(env, depth, seen[t := name], open + {t}, unmet - {t}, defs[name := None])
    ensures t in unmet && t !in open
  {
    var seen', open', defs' := seen[t := name], open + {t}, defs[name := None];
    assert Met(env, depth, seen', open');
    forall n | n in defs' ensures Placed(env, depth, seen', open', defs', n) {
      if n == name {
        assert t in seen' && seen'[t] == n;
      } else {
        PlacedStill(env, depth, seen, open, defs, t, name, n);
      }
    }
  }

  /** A place already taken stays as it is while a struct of another name begins. */
  lemma PlacedStill(env: Env, depth: nat, seen: map<nat, string>, open: set<nat>,
                    defs: map<string, Option<Schema>>, t: nat, name: string, n: string)
    requires DocWalkable(env, depth) && Met(env, depth, seen, open)
    requires Met(env, depth, seen[t := name], open + {t})
    requires t !in seen && n in defs && n != name && Placed(env, depth, seen, open, defs, n)
    ensures Placed(env, depth, seen[t := name], open + {t}, defs[name := None], n)
  {
    var id :| id in seen && seen[id] == n &&
      if defs[n].None? then id in open else id !in open && defs[n] == Some(ObjectOf(env, depth, seen, id));
    var seen' := seen[t := name];
    if id !in open { PropsStable(env, seen, seen', env.decls[id].fields, depth); }
    assert id in seen' && seen'[id] == n;
  }

  lemma Finishes(env: Env, depth: nat, seen: map<nat, string>, open: set<nat>, unmet: set<nat>,
                 defs: map<string, Option<Schema>>, t: nat)
    requires Tidy(env, depth, seen, open, unmet, defs) && t in open && t in seen
    requires IdsOfFields(env, env.decls[t].fields, depth) <= seen.Keys
    ensures Tidy(env, depth, seen, open - {t}, unmet, defs[seen[t] := Some(ObjectOf(env, depth, seen, t))])
  {
    var defs' := defs[seen[t] := Some(ObjectOf(env, depth, seen, t))];
    assert Met(env, depth, seen, open - {t});
    forall n | n in defs' ensures Placed(env, depth, seen, open - {t}, defs', n) {
      if n == seen[t] {
        assert t in seen && t !in open - {t};
      } else {
        assert Placed(env, depth, seen, open, defs, n);
      }
    }
  }

  lemma StillNamed(names: map<nat, string>, named: map<nat, string>, later: map<nat, string>, t: nat, name: string)
    requires t !in names && named == names[t := name] && Extends(named, later)
    ensures Extends(names, later) && t in later && later[t] == name
  {
  }

  class Registry {
    const env: Env
    ghost const depth: nat

    /** A component by its name; none while its fields are still being walked. */
    var defs: map<string, Option<Schema>>
    var seen: map<nat, string>
    ghost var open: set<nat>
    ghost var unmet: set<nat>

    constructor (env: Env, ghost depth: nat)
      requires DocWalkable(env, depth)
      ensures this.env == env && this.depth == depth && Valid() && seen == map[] && open == {}
    {
      this.env, this.depth := env, depth;
      defs, seen := map[], map[];
      open, unmet := {}, env.decls.Keys;
    }

    ghost predicate Valid()
      reads this
    {
      Tidy(env, depth, seen, open, unmet, defs)
    }

    twostate predicate Onward()
      reads this
    {
      Extends(old(seen), seen) && open == old(open) && unmet <= old(unmet)
    }

    /** Where nothing new is met no name is given. */
    twostate predicate Unchanged(ids: set<nat>)
      reads this
    {
      ids <= old(seen).Keys ==> seen == old(seen)
    }

    /** Reserves the name before the fields are walked, so that a struct that refers to
        itself finds it. The name is another struct's exactly when the plain and the
        qualified one are both taken: the second choice is not checked. */
    method Reserve(t: nat) returns (name: string)
      requires t in env.decls
      modifies this
      ensures name == ComponentName(env.decls[t], old(seen).Values)
      ensures env.decls[t].name !in old(seen).Values ==> name == env.decls[t].name
      ensures env.decls[t].name in old(seen).Values ==> name == Qualifier(BaseOf(env.decls[t].pkg)) + env.decls[t].name
      ensures name in old(seen).Values <==>
                && env.decls[t].name in old(seen).Values
                && Qualifier(BaseOf(env.decls[t].pkg)) + env.decls[t].name in old(seen).Values
      ensures seen == old(seen)[t := name] && defs == old(defs)[name := None]
      ensures open == old(open) + {t} && unmet == old(unmet) - {t}
    {
      var d := env.decls[t];
      name := d.name;
      if name in seen.Values {
        name := Qualifier(BaseOf(d.pkg)) + name;
      }
      seen := seen[t := name];
      defs := defs[name := None];
      open, unmet := open + {t}, unmet - {t};
    }

    method StructSchema(t: nat) returns (s: Schema)
      requires Valid() && t in env.decls
      modifies this
      ensures Valid() && Onward() && t in seen && s == Component(seen[t]) && Unchanged({t})
      decreases unmet, 1
    {
      if t in seen {
        return Component(seen[t]);
      }
      s := Meet(t);
    }

    /** A struct not met before: its name is reserved, its fields walked, its component put. */
    method Meet(t: nat) returns (s: Schema)
      requires Valid() && t in env.decls && t !in seen
      modifies this
      ensures Valid() && Onward() && t in seen && s == Component(seen[t]) && t in old(unmet)
      ensures seen[t] in defs && defs[seen[t]] == Some(ObjectOf(env, depth, seen, t))
      ensures IdsOfFields(env, env.decls[t].fields, depth) <= old(seen).Keys + {t} ==>
                seen == old(seen)[t := ComponentName(env.decls[t], old(seen).Values)]
      decreases unmet, 0
    {
      ghost var names, walking := seen, open;
      var name := Begin(t);
      ghost var named := seen;
      Define(t);
      StillNamed(names, named, seen, t, name);
      assert open == walking + {t} - {t} == walking;
      s := Component(name);
    }

    method Begin(t: nat) returns (name: string)
      requires Valid() && t in env.decls && t !in seen
      modifies this
      ensures Valid() && name == ComponentName(env.decls[t], old(seen).Values) && t in old(unmet) && t !in old(open)
      ensures seen == old(seen)[t := name] && defs == old(defs)[name := None]
      ensures open == old(open) + {t} && unmet == old(unmet) - {t}
    {
      Begins(env, depth, seen, open, unmet, defs, t, ComponentName(env.decls[t], seen.Values));
      name := Reserve(t);
    }

    method Define(t: nat)
      requires Valid() && t in env.decls && t in seen && t in open
      modifies this
      ensures Valid() && Extends(old(seen), seen) && open == old(open) - {t} && unmet <= old(unmet)
      ensures seen[t] in defs && defs[seen[t]] == Some(ObjectOf(env, depth, seen, t))
      ensures Unchanged(IdsOfFields(env, env.decls[t].fields, depth))
      decreases unmet, depth + 3
    {
      var props := WalkFields(env.decls[t].fields, depth);
      Fill(t, props);
    }

    /** The component takes the place kept for it. */
    method Fill(t: nat, props: seq<Prop>)
      requires Valid() && t in env.decls && t in seen && t in open
      requires IdsOfFields(env, env.decls[t].fields, depth) <= seen.Keys && props == PropsOf(env, seen, env.decls[t].fields, depth)
      modifies this`defs, this`open
      ensures Valid() && open == old(open) - {t} && defs == old(defs)[seen[t] := Some(ObjectOf(env, depth, seen, t))]
    {
      Finishes(env, depth, seen, open, unmet, defs, t);
      defs, open := defs[seen[t] := Some(Object(props))], open - {t};
    }

    method WalkFields(fs: seq<Field>, ghost fuel: nat) returns (props: seq<Prop>)
      requires Valid() && WalksFields(env, fs, fuel)
      modifies this
      ensures Valid() && Onward() && IdsOfFields(env, fs, fuel) <= seen.Keys && Unchanged(IdsOfFields(env, fs, fuel))
      ensures props == PropsOf(env, seen, fs, fuel)
      decreases unmet, fuel + 2, fs
    {
      props := [];
      for i := 0 to |fs|
        invariant Valid() && Onward() && IdsOfFields(env, fs[..i], fuel) <= seen.Keys
        invariant Unchanged(IdsOfFields(env, fs, fuel))
        invariant props == PropsOf(env, seen, fs[..i], fuel)
      {
        ghost var was := seen;
        FieldIds(env, fs, i, fuel);
        var more := WalkField(fs[i], fuel);
        PropsMore(env, was, seen, fs, i, fuel);
        props := props + more;
      }
      assert fs[..|fs|] == fs;
    }

    method WalkField(f: Field, ghost fuel: nat) returns (props: seq<Prop>)
      requires Valid() && WalksField(env, f, fuel)
      modifies this
      ensures Valid() && Onward() && IdsOfField(env, f, fuel) <= seen.Keys && Unchanged(IdsOfField(env, f, fuel))
      ensures props == PropsOfField(env, seen, f, fuel)
      decreases unmet, fuel + 2, f
    {
      if Flattens(env.walker, f) {
        props := Flattened(f.ty, fuel);
        return;
      }
      if Skips(env.walker, f) {
        return [];
      }
      var s := Walk(f.ty, f.validate, fuel);
      props := [PropOf(f, s)];
    }

    /** An embedded struct contributes its fields. */
    method Flattened(t: Type, ghost fuel: nat) returns (props: seq<Prop>)
      requires Valid() && WalksThrough(env, t, fuel)
      modifies this
      ensures Valid() && Onward() && IdsThrough(env, t, fuel) <= seen.Keys && Unchanged(IdsThrough(env, t, fuel))
      ensures props == PropsThrough(env, seen, t, fuel)
      decreases unmet, fuel + 2, t
    {
      match t {
        case Pointer(elem) => props := Flattened(elem, fuel);
        case Inline(fs) => props := WalkFields(fs, fuel);
        case Named(j) => props := WalkFields(env.decls[j].fields, fuel - 1);
        case _ => props := [];
      }
    }

    method Walk(t: Type, validate: string, ghost fuel: nat) returns (s: Schema)
      requires Valid() && WalksType(env, t, fuel)
      modifies this
      ensures Valid() && Onward() && IdsOfType(env, t, fuel) <= seen.Keys && Unchanged(IdsOfType(env, t, fuel))
      ensures s == SchemaOf(env, seen, t, validate, fuel)
      decreases unmet, fuel + 2, t
    {
      var (outer, inner) := SplitDive(validate);
      match t {
        case Pointer(elem) =>
          var of := Walk(elem, validate, fuel);
          s := Nullable(of);
        case Slice(elem) =>
          if elem == Basic(Uint8Kind) {
            return Scalar("byte", UNLIMITED);
          }
          var items := Walk(elem, inner, fuel);
          s := ArrayOf(items, ArrayLimits(outer));
        case Array(elem) =>
          var items := Walk(elem, inner, fuel);
          s := ArrayOf(items, ArrayLimits(outer));
        case MapOf(_, elem) =>
          var value := Walk(elem, inner, fuel);
          s := DictOf(value);
        case Interface => s := Free;
        case Time => s := Scalar("date-time", UNLIMITED);
        case Inline(fs) =>
          var props := WalkFields(fs, fuel);
          s := Object(props);
        case Named(j) => s := StructSchema(j);
        case Basic(k) => s := ScalarOf(k, outer);
      }
    }
  }

  lemma PropsMore(env: Env, was: map<nat, string>, now: map<nat, string>, fs: seq<Field>, i: nat, fuel: nat)
    requires env.walker.Document? && i < |fs| && WalksFields(env, fs, fuel) && Extends(was, now)
    requires WalksFields(env, fs[..i], fuel) && IdsOfFields(env, fs[..i], fuel) <= was.Keys
    requires IdsOfField(env, fs[i], fuel) <= now.Keys
    ensures WalksFields(env, fs[..i + 1], fuel) && IdsOfFields(env, fs[..i + 1], fuel) <= now.Keys
    ensures PropsOf(env, now, fs[..i + 1], fuel) ==
            PropsOf(env, was, fs[..i], fuel) + PropsOfField(env, now, fs[i], fuel)
  {
    PropsStable(env, was, now, fs[..i], fuel);
    assert fs[..i + 1][..i] == fs[..i];
    MoreIds(env, fs, i, fuel);
  }

  lemma {:induction false} FieldIds(env: Env, fs: seq<Field>, i: nat, fuel: nat)
    requires i < |fs| && WalksFields(env, fs, fuel)
    ensures WalksField(env, fs[i], fuel) && IdsOfField(env, fs[i], fuel) <= IdsOfFields(env, fs, fuel)
  {
    if i < |fs| - 1 { FieldIds(env, fs[..|fs| - 1], i, fuel); }
  }

  /** A struct none of whose fields mentions a struct. */
  ghost predicate Plain(r: Registry, t: nat)
    requires DocWalkable(r.env, r.depth)
  {
    t in r.env.decls && IdsOfFields(r.env, r.env.decls[t].fields, r.depth) == {}
  }

  /** What the second namesake is called. */
  function SecondName(d: Decl): string {
    Qualifier(BaseOf(d.pkg)) + d.name
  }

  method TwoNamesakes(r: Registry, a: nat, b: nat)
    requires r.Valid() && r.seen == map[] && a != b && Plain(r, a) && Plain(r, b)
    requires r.env.decls[a].name == r.env.decls[b].name
    modifies r
    ensures r.Valid() && r.seen == map[a := r.env.decls[b].name, b := SecondName(r.env.decls[b])]
  {
    var first := r.Meet(a);
    assert r.seen == map[a := r.env.decls[b].name] && r.env.decls[b].name in r.seen.Values;
    var second := r.Meet(b);
  }

  /** A struct whose plain name is taken, and whose qualified one is `b`'s, takes `b`'s
      component: references to `b` lead to its object from then on. */
  method TakesOver(r: Registry, b: nat, c: nat)
    requires r.Valid() && b in r.seen && c !in r.seen && Plain(r, c)
    requires r.env.decls[c].name in r.seen.Values && r.seen[b] == SecondName(r.env.decls[c])
    modifies r
    ensures r.Valid() && r.seen == old(r.seen)[c := old(r.seen[b])]
    ensures r.seen[b] in r.defs && r.defs[r.seen[b]] == Some(ObjectOf(r.env, r.depth, r.seen, c))
  {
    var third := r.Meet(c);
  }

  /** So three namesakes, the last two from packages whose paths end alike, leave two
      components, and the second's is the third's object. */
  method ThirdNamesakeClashes(r: Registry, a: nat, b: nat, c: nat)
    requires r.Valid() && r.seen == map[] && a != b && a != c && b != c && Plain(r, a) && Plain(r, b) && Plain(r, c)
    requires r.env.decls[a].name == r.env.decls[b].name == r.env.decls[c].name
    requires BaseOf(r.env.decls[b].pkg) == BaseOf(r.env.decls[c].pkg)
    modifies r
    ensures var d := r.env.decls[c];
            && r.Valid() && r.seen == map[a := d.name, b := SecondName(d), c := SecondName(d)]
            && SecondName(d) in r.defs && r.defs[SecondName(d)] == Some(ObjectOf(r.env, r.depth, r.seen, c))
  {
    TwoNamesakes(r, a, b);
    assert r.seen[a] in r.seen.Values;
    TakesOver(r, b, c);
  }

  lemma MoreIds(env: Env, fs: seq<Field>, i: nat, fuel: nat)
    requires i < |fs| && WalksFields(env, fs, fuel)
    ensures WalksFields(env, fs[..i], fuel) && WalksFields(env, fs[..i + 1], fuel)
    ensures IdsOfFields(env, fs[..i + 1], fuel) == IdsOfFields(env, fs[..i], fuel) + IdsOfField(env, fs[i], fuel)
  {
  }

  /** What a finished walk leaves: no placeholder, every reference names a component, and a
      component is always that of some struct of its name - every struct has its own exactly
      when those that share a name share their object too. */
  lemma DocumentIsComplete(env: Env, depth: nat, seen: map<nat, string>, unmet: set<nat>, defs: map<string, Option<Schema>>)
    requires Tidy(env, depth, seen, {}, unmet, defs)
    ensures forall n | n in defs :: defs[n].Some? && Resolved(defs[n].value, defs.Keys)
    ensures (forall id | id in seen :: defs[seen[id]] == Some(ObjectOf(env, depth, seen, id))) <==>
            (forall a, b | a in seen && b in seen && seen[a] == seen[b] ::
               ObjectOf(env, depth, seen, a) == ObjectOf(env, depth, seen, b))
  {
    forall n | n in defs ensures defs[n].Some? && Resolved(defs[n].value, defs.Keys) {
      assert Placed(env, depth, seen, {}, defs, n);
      var id :| id in seen && seen[id] == n && defs[n] == Some(ObjectOf(env, depth, seen, id));
      PropsDefined(env, seen, env.decls[id].fields, depth, defs.Keys);
    }
    forall id | id in seen ensures Placed(env, depth, seen, {}, defs, seen[id]) {
    }
  }

  /** Whatever can be reached from a struct that was met has a component. */
  lemma {:induction false} ReachableHasComponent(env: Env, depth: nat, seen: map<nat, string>, unmet: set<nat>,
                                                 defs: map<string, Option<Schema>>, path: seq<nat>)
    requires Tidy(env, depth, seen, {}, unmet, defs) && Chain(env, depth, path) && path[0] in seen
    ensures path[|path| - 1] in seen && seen[path[|path| - 1]] in defs
    decreases |path|
  {
    if |path| > 1 {
      var n := |path| - 1;
      assert Chain(env, depth, path[..n]);
      ReachableHasComponent(env, depth, seen, unmet, defs, path[..n]);
      assert path[..n][n - 1] == path[n - 1];
      assert path[n] in IdsOfFields(env, env.decls[path[n - 1]].fields, depth);
    }
  }
}
