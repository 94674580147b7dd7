/** OpenAPI schemas of Go models: a depth-first walk over possibly cyclic types with shared, mutable maps. */
module SchemaBuilder {
  import opened Common

  // ---------- types ----------

  datatype Mode = InputMode | OutputMode

  datatype LeafKind = StringLeaf | BoolLeaf | IntegerLeaf | NumberLeaf

  datatype Type =
    | Raw | EmptyList | Time | FixedScore | Interface | Bytes | Unsupported
    | Scalar(kind: LeafKind)
    | Pointer(elem: Type)
    | List(elem: Type)
    | Map(stringKey: bool, elem: Type)
    | Struct(fields: seq<Field>)
    | Named(id: nat)

  /** An unexported or skipped field, an embedded one without a JSON name, or one property. `rulesApply` says whether the
      field's validation tokens make sense for its type. */
  datatype Field =
    | Hidden
    | Embedded(typ: Type)
    | Property(name: string, typ: Type, rulesApply: bool, requiredInput: bool, requiredOutput: bool)

  /** A named struct; `depth` bounds the chain of structs it embeds, `overrides` are properties its output replaces. */
  datatype StructDef = StructDef(component: string, fields: seq<Field>, depth: nat, overrides: seq<string>)

  type TypeEnv = map<nat, StructDef>

  datatype Key = Key(id: nat, mode: Mode)

  datatype Prop = Prop(name: string, schema: Schema)

  datatype Schema =
    | AnySchema | NoItems | DateTime | Base64
    | Leaf(kind: LeafKind)
    | Ref(component: string)
    | Nullable(of: Schema)
    | ArrayOf(of: Schema)
    | MapOf(of: Schema)
    | Object(props: seq<Prop>, required: seq<string>)

  datatype BuildError =
    | UnsupportedType | BadMapKey | NotAStruct | DuplicateEmbedded(name: string)
    | InvalidRule | Collision(component: string) | DuplicateSchema

  function Size(t: Type): (n: nat)
    ensures n >= 1
  {
    match t
    case Pointer(e) => 1 + Size(e)
    case List(e) => 1 + Size(e)
    case Map(_, e) => 1 + Size(e)
    case Struct(fs) => 1 + FieldsSize(fs)
    case _ => 1
  }

  function FieldSize(f: Field): (n: nat)
    ensures n >= 1
  {
    match f
    case Hidden => 1
    case Embedded(t) => 1 + Size(t)
    case Property(_, t, _, _, _) => 1 + Size(t)
  }

  function FieldsSize(fs: seq<Field>): nat {
    if fs == [] then 0 else FieldsSize(fs[..|fs| - 1]) + FieldSize(fs[|fs| - 1])
  }

  function Strip(t: Type): (r: Type)
    ensures !r.Pointer? && Size(r) <= Size(t)
  {
    if t.Pointer? then Strip(t.elem) else t
  }

  // ---------- embedding does not go round in circles ----------

  /** Every struct this type expands in place has a smaller depth than `r`. */
  predicate Below(env: TypeEnv, t: Type, r: nat)
    decreases Size(t)
  {
    match t
    case Pointer(e) => Below(env, e, r)
    case List(e) => Below(env, e, r)
    case Map(_, e) => Below(env, e, r)
    case Struct(fs) => FieldsBelow(env, fs, r)
    case _ => true
  }

  predicate FieldsBelow(env: TypeEnv, fs: seq<Field>, r: nat)
    decreases FieldsSize(fs), 1
  {
    if fs == [] then true else FieldsBelow(env, fs[..|fs| - 1], r) && FieldBelow(env, fs[|fs| - 1], r)
  }

  predicate FieldBelow(env: TypeEnv, f: Field, r: nat)
    decreases FieldSize(f), 0
  {
    match f
    case Hidden => true
    case Embedded(t) => Below(env, Strip(t), r) && (Strip(t).Named? && Strip(t).id in env ==> env[Strip(t).id].depth < r)
    case Property(_, t, _, _, _) => Below(env, t, r)
  }

  ghost predicate WellEmbedded(env: TypeEnv) {
    forall id :: id in env ==> FieldsBelow(env, env[id].fields, env[id].depth)
  }

  // ---------- what a schema should be, independently of any builder state ----------

  function ComponentName(env: TypeEnv, key: Key): string
    requires key.id in env
  {
    env[key.id].component + (if key.mode == InputMode then "_Input" else "_Output")
  }

  datatype Members = Members(props: seq<Prop>, required: seq<string>)

  function Names(props: seq<Prop>): set<string> {
    set i | 0 <= i < |props| :: props[i].name
  }

  /** `properties[name] = schema`. */
  function Put(props: seq<Prop>, name: string, schema: Schema): seq<Prop> {
    if props == [] then [Prop(name, schema)]
    else if props[|props| - 1].name == name then props[|props| - 1 := Prop(name, schema)]
    else Put(props[..|props| - 1], name, schema) + [props[|props| - 1]]
  }

  function Merge(props: seq<Prop>, more: seq<Prop>): Result<seq<Prop>, BuildError> {
    if more == [] then Ok(props)
    else
      match Merge(props, more[..|more| - 1])
      case Err(e) => Err(e)
      case Ok(merged) =>
        var p := more[|more| - 1];
        if p.name in Names(merged) then Err(DuplicateEmbedded(p.name)) else Ok(merged + [p])
  }

  function Override(props: seq<Prop>, names: seq<string>): seq<Prop> {
    if names == [] then props else Put(Override(props, names[..|names| - 1]), names[|names| - 1], Nullable(Leaf(StringLeaf)))
  }

  function RequiredIn(f: Field, mode: Mode): bool
    requires f.Property?
  {
    if mode == InputMode then f.requiredInput else f.requiredOutput
  }

  function Describe(env: TypeEnv, t: Type, mode: Mode, inlined: bool, r: nat): Result<Schema, BuildError>
    requires WellEmbedded(env) && Below(env, t, r) && (inlined && t.Named? && t.id in env ==> env[t.id].depth < r)
    decreases r, Size(t), 0
  {
    match t
    case Raw => Ok(AnySchema)
    case EmptyList => Ok(NoItems)
    case Time => Ok(DateTime)
    case Pointer(e) => (match Describe(env, e, mode, false, r) case Err(x) => Err(x) case Ok(s) => Ok(Nullable(s)))
    case FixedScore => Ok(Leaf(StringLeaf))
    case Named(id) =>
      if id !in env then Err(UnsupportedType)
      else if !inlined then Ok(Ref(ComponentName(env, Key(id, mode))))
      else DescribeStruct(env, id, mode)
    case Struct(fs) => (match DescribeFields(env, fs, mode, r) case Err(x) => Err(x) case Ok(m) => Ok(Object(m.props, m.required)))
    case Bytes => Ok(Base64)
    case List(e) => (match Describe(env, e, mode, false, r) case Err(x) => Err(x) case Ok(s) => Ok(ArrayOf(s)))
    case Map(stringKey, e) =>
      if !stringKey then Err(BadMapKey)
      else (match Describe(env, e, mode, false, r) case Err(x) => Err(x) case Ok(s) => Ok(MapOf(s)))
    case Interface => Ok(AnySchema)
    case Scalar(kind) => Ok(Leaf(kind))
    case Unsupported => Err(UnsupportedType)
  }

  function StructMembers(env: TypeEnv, id: nat, mode: Mode): Result<Members, BuildError>
    requires WellEmbedded(env) && id in env
    decreases env[id].depth, FieldsSize(env[id].fields), 2
  {
    match DescribeFields(env, env[id].fields, mode, env[id].depth)
    case Err(x) => Err(x)
    case Ok(m) => Ok(Members(if mode == OutputMode then Override(m.props, env[id].overrides) else m.props, m.required))
  }

  function DescribeStruct(env: TypeEnv, id: nat, mode: Mode): Result<Schema, BuildError>
    requires WellEmbedded(env) && id in env
    decreases env[id].depth, FieldsSize(env[id].fields), 3
  {
    match StructMembers(env, id, mode) case Err(x) => Err(x) case Ok(m) => Ok(Object(m.props, m.required))
  }

  /** Structs with a form of their own; embedded, they show no field. */
  predicate Sealed(t: Type) {
    t.Time? || t.EmptyList? || t.FixedScore?
  }

  function DescribeEmbedded(env: TypeEnv, t: Type, mode: Mode, r: nat): Result<Members, BuildError>
    requires WellEmbedded(env) && Below(env, t, r) && (t.Named? && t.id in env ==> env[t.id].depth < r)
    decreases r, Size(t), 0
  {
    match t
    case Named(id) => if id in env then StructMembers(env, id, mode) else Err(UnsupportedType)
    case Struct(fs) => DescribeFields(env, fs, mode, r)
    case _ => if Sealed(t) then Ok(Members([], [])) else Err(NotAStruct)
  }

  function DescribeFields(env: TypeEnv, fs: seq<Field>, mode: Mode, r: nat): Result<Members, BuildError>
    requires WellEmbedded(env) && FieldsBelow(env, fs, r)
    decreases r, FieldsSize(fs), 1
  {
    if fs == [] then Ok(Members([], []))
    else
      match DescribeFields(env, fs[..|fs| - 1], mode, r)
      case Err(x) => Err(x)
      case Ok(m) => AddField(env, m, fs[|fs| - 1], mode, r)
  }

  function AddField(env: TypeEnv, m: Members, f: Field, mode: Mode, r: nat): Result<Members, BuildError>
    requires WellEmbedded(env) && FieldBelow(env, f, r)
    decreases r, FieldSize(f), 0
  {
    match f
    case Hidden => Ok(m)
    case Embedded(t) =>
      (match DescribeEmbedded(env, Strip(t), mode, r)
       case Err(x) => Err(x)
       case Ok(embedded) =>
         match Merge(m.props, embedded.props)
         case Err(x) => Err(x)
         case Ok(props) => Ok(Members(props, m.required + embedded.required)))
    case Property(name, t, rulesApply, _, _) =>
      (match Describe(env, t, mode, false, r)
       case Err(x) => Err(x)
       case Ok(s) =>
         if !rulesApply then Err(InvalidRule)
         else Ok(Members(Put(m.props, name, s), m.required + if RequiredIn(f, mode) then [name] else [])))
  }

  // ---------- references and required names ----------

  function Refs(s: Schema): set<string> {
    match s
    case Ref(name) => {name}
    case Nullable(x) => Refs(x)
    case ArrayOf(x) => Refs(x)
    case MapOf(x) => Refs(x)
    case Object(props, _) => PropRefs(props)
    case _ => {}
  }

  function PropRefs(props: seq<Prop>): set<string> {
    if props == [] then {} else PropRefs(props[..|props| - 1]) + Refs(props[|props| - 1].schema)
  }

  /** In this schema and everything nested in it, required names are names of properties. */
  predicate RequiredDeclared(s: Schema) {
    match s
    case Nullable(x) => RequiredDeclared(x)
    case ArrayOf(x) => RequiredDeclared(x)
    case MapOf(x) => RequiredDeclared(x)
    case Object(props, required) => PropsDeclared(props) && forall n :: n in required ==> n in Names(props)
    case _ => true
  }

  predicate PropsDeclared(props: seq<Prop>) {
    if props == [] then true else PropsDeclared(props[..|props| - 1]) && RequiredDeclared(props[|props| - 1].schema)
  }

  lemma {:induction false} PutMembers(props: seq<Prop>, name: string, schema: Schema)
    ensures Names(Put(props, name, schema)) == Names(props) + {name}
    ensures PropRefs(Put(props, name, schema)) <= PropRefs(props) + Refs(schema)
    ensures PropsDeclared(props) && RequiredDeclared(schema) ==> PropsDeclared(Put(props, name, schema))
  {
    if props != [] {
      var rest, last := props[..|props| - 1], props[|props| - 1];
      var put := Put(props, name, schema);
      PutMembers(rest, name, schema);
      assert put[..|put| - 1] == if last.name == name then rest else Put(rest, name, schema);
      NamesSplit(props);
      NamesSplit(put);
    } else {
      assert [Prop(name, schema)][..0] == [];
      assert Names([Prop(name, schema)]) == {name} by { assert [Prop(name, schema)][0].name == name; }
    }
  }

  lemma NamesSplit(props: seq<Prop>)
    requires props != []
    ensures Names(props) == Names(props[..|props| - 1]) + {props[|props| - 1].name}
  {
    forall n | n in Names(props) ensures n in Names(props[..|props| - 1]) + {props[|props| - 1].name} {
      var i :| 0 <= i < |props| && props[i].name == n;
      if i < |props| - 1 { assert props[..|props| - 1][i].name == n; }
    }
    forall n | n in Names(props[..|props| - 1]) ensures n in Names(props) {
      var i :| 0 <= i < |props| - 1 && props[..|props| - 1][i].name == n;
      assert props[i].name == n;
    }
  }

  lemma {:induction false} MergeMembers(props: seq<Prop>, more: seq<Prop>)
    requires Merge(props, more).Ok?
    ensures Names(Merge(props, more).value) == Names(props) + Names(more)
    ensures PropRefs(Merge(props, more).value) == PropRefs(props) + PropRefs(more)
    ensures PropsDeclared(props) && PropsDeclared(more) ==> PropsDeclared(Merge(props, more).value)
  {
    if more != [] {
      MergeMembers(props, more[..|more| - 1]);
      var merged := Merge(props, more).value;
      assert merged[..|merged| - 1] == Merge(props, more[..|more| - 1]).value;
      NamesSplit(more);
      NamesSplit(merged);
    }
  }

  lemma {:induction false} OverrideMembers(props: seq<Prop>, names: seq<string>)
    ensures Names(props) <= Names(Override(props, names))
    ensures PropRefs(Override(props, names)) <= PropRefs(props)
    ensures PropsDeclared(props) ==> PropsDeclared(Override(props, names))
  {
    if names != [] {
      OverrideMembers(props, names[..|names| - 1]);
      PutMembers(Override(props, names[..|names| - 1]), names[|names| - 1], Nullable(Leaf(StringLeaf)));
    }
  }

  predicate MembersDeclared(m: Members) {
    PropsDeclared(m.props) && forall n :: n in m.required ==> n in Names(m.props)
  }

  /** Every described schema, at every level, requires only properties it declares. */
  lemma {:induction false} DescribedIsDeclared(env: TypeEnv, t: Type, mode: Mode, inlined: bool, r: nat)
    requires WellEmbedded(env) && Below(env, t, r) && (inlined && t.Named? && t.id in env ==> env[t.id].depth < r)
    requires Describe(env, t, mode, inlined, r).Ok?
    ensures RequiredDeclared(Describe(env, t, mode, inlined, r).value)
    decreases r, Size(t), 0
  {
    match t {
      case Pointer(e) => DescribedIsDeclared(env, e, mode, false, r);
      case List(e) => DescribedIsDeclared(env, e, mode, false, r);
      case Map(_, e) => DescribedIsDeclared(env, e, mode, false, r);
      case Named(id) => if inlined { StructIsDeclared(env, id, mode); }
      case Struct(fs) => FieldsAreDeclared(env, fs, mode, r);
      case _ =>
    }
  }

  lemma {:induction false} StructIsDeclared(env: TypeEnv, id: nat, mode: Mode)
    requires WellEmbedded(env) && id in env && StructMembers(env, id, mode).Ok?
    ensures MembersDeclared(StructMembers(env, id, mode).value)
    decreases env[id].depth, FieldsSize(env[id].fields), 2
  {
    FieldsAreDeclared(env, env[id].fields, mode, env[id].depth);
    OverrideMembers(DescribeFields(env, env[id].fields, mode, env[id].depth).value.props, env[id].overrides);
  }

  lemma {:induction false} FieldsAreDeclared(env: TypeEnv, fs: seq<Field>, mode: Mode, r: nat)
    requires WellEmbedded(env) && FieldsBelow(env, fs, r) && DescribeFields(env, fs, mode, r).Ok?
    ensures MembersDeclared(DescribeFields(env, fs, mode, r).value)
    decreases r, FieldsSize(fs), 1
  {
    if fs != [] {
      FieldsAreDeclared(env, fs[..|fs| - 1], mode, r);
      FieldIsDeclared(env, DescribeFields(env, fs[..|fs| - 1], mode, r).value, fs[|fs| - 1], mode, r);
    }
  }

  lemma {:induction false} FieldIsDeclared(env: TypeEnv, m: Members, f: Field, mode: Mode, r: nat)
    requires WellEmbedded(env) && FieldBelow(env, f, r) && MembersDeclared(m) && AddField(env, m, f, mode, r).Ok?
    ensures MembersDeclared(AddField(env, m, f, mode, r).value)
    decreases r, FieldSize(f), 0
  {
    match f {
      case Hidden =>
      case Embedded(t) =>
        var embedded := DescribeEmbedded(env, Strip(t), mode, r).value;
        if Strip(t).Named? { StructIsDeclared(env, Strip(t).id, mode); }
        else if Strip(t).Struct? { FieldsAreDeclared(env, Strip(t).fields, mode, r); }
        MergeMembers(m.props, embedded.props);
      case Property(name, t, _, _, _) =>
        DescribedIsDeclared(env, t, mode, false, r);
        PutMembers(m.props, name, Describe(env, t, mode, false, r).value);
    }
  }

  // ---------- a reference names a component ----------

  function ComponentNames(env: TypeEnv): set<string> {
    set key | key in Universe(env) && key.id in env :: ComponentName(env, key)
  }

  lemma {:induction false} RefsAreComponents(env: TypeEnv, t: Type, mode: Mode, inlined: bool, r: nat)
    requires WellEmbedded(env) && Below(env, t, r) && (inlined && t.Named? && t.id in env ==> env[t.id].depth < r)
    requires Describe(env, t, mode, inlined, r).Ok?
    ensures Refs(Describe(env, t, mode, inlined, r).value) <= ComponentNames(env)
    decreases r, Size(t), 0
  {
    match t {
      case Pointer(e) => RefsAreComponents(env, e, mode, false, r);
      case List(e) => RefsAreComponents(env, e, mode, false, r);
      case Map(_, e) => RefsAreComponents(env, e, mode, false, r);
      case Named(id) => if inlined { StructRefs(env, id, mode); } else { assert Key(id, mode) in Universe(env); }
      case Struct(fs) => FieldsRefs(env, fs, mode, r);
      case _ =>
    }
  }

  lemma {:induction false} StructRefs(env: TypeEnv, id: nat, mode: Mode)
    requires WellEmbedded(env) && id in env && StructMembers(env, id, mode).Ok?
    ensures PropRefs(StructMembers(env, id, mode).value.props) <= ComponentNames(env)
    decreases env[id].depth, FieldsSize(env[id].fields), 2
  {
    FieldsRefs(env, env[id].fields, mode, env[id].depth);
    OverrideMembers(DescribeFields(env, env[id].fields, mode, env[id].depth).value.props, env[id].overrides);
  }

  lemma {:induction false} FieldsRefs(env: TypeEnv, fs: seq<Field>, mode: Mode, r: nat)
    requires WellEmbedded(env) && FieldsBelow(env, fs, r) && DescribeFields(env, fs, mode, r).Ok?
    ensures PropRefs(DescribeFields(env, fs, mode, r).value.props) <= ComponentNames(env)
    decreases r, FieldsSize(fs), 1
  {
    if fs != [] {
      FieldsRefs(env, fs[..|fs| - 1], mode, r);
      FieldRefs(env, DescribeFields(env, fs[..|fs| - 1], mode, r).value, fs[|fs| - 1], mode, r);
    }
  }

  lemma {:induction false} FieldRefs(env: TypeEnv, m: Members, f: Field, mode: Mode, r: nat)
    requires WellEmbedded(env) && FieldBelow(env, f, r) && PropRefs(m.props) <= ComponentNames(env) && AddField(env, m, f, mode, r).Ok?
    ensures PropRefs(AddField(env, m, f, mode, r).value.props) <= ComponentNames(env)
    decreases r, FieldSize(f), 0
  {
    match f {
      case Hidden =>
      case Embedded(t) =>
        var embedded := DescribeEmbedded(env, Strip(t), mode, r).value;
        if Strip(t).Named? { StructRefs(env, Strip(t).id, mode); }
        else if Strip(t).Struct? { FieldsRefs(env, Strip(t).fields, mode, r); }
        MergeMembers(m.props, embedded.props);
      case Property(name, t, _, _, _) =>
        RefsAreComponents(env, t, mode, false, r);
        PutMembers(m.props, name, Describe(env, t, mode, false, r).value);
    }
  }

  predicate PlainFields(fs: seq<Field>) {
    && (forall i :: 0 <= i < |fs| ==> !fs[i].Embedded?)
    && forall i, j :: 0 <= i < j < |fs| && fs[i].Property? && fs[j].Property? ==> fs[i].name != fs[j].name
  }

  predicate HasField(fs: seq<Field>, n: string) {
    fs != [] && (HasField(fs[..|fs| - 1], n) || (fs[|fs| - 1].Property? && fs[|fs| - 1].name == n))
  }

  predicate RequiresField(fs: seq<Field>, n: string, mode: Mode) {
    fs != [] && (RequiresField(fs[..|fs| - 1], n, mode)
      || (fs[|fs| - 1].Property? && fs[|fs| - 1].name == n && RequiredIn(fs[|fs| - 1], mode)))
  }

  /** A struct without embedded fields has exactly one property for each visible field, and requires exactly those its mode
      requires. */
  lemma {:induction false} PlainStructDescribed(env: TypeEnv, fs: seq<Field>, mode: Mode, r: nat, n: string)
    requires WellEmbedded(env) && FieldsBelow(env, fs, r) && PlainFields(fs) && DescribeFields(env, fs, mode, r).Ok?
    ensures n in Names(DescribeFields(env, fs, mode, r).value.props) <==> HasField(fs, n)
    ensures n in DescribeFields(env, fs, mode, r).value.required <==> RequiresField(fs, n, mode)
    decreases |fs|
  {
    if fs != [] {
      var k := |fs| - 1;
      assert forall i :: 0 <= i < k ==> fs[..k][i] == fs[i];
      PlainStructDescribed(env, fs[..k], mode, r, n);
      if fs[k].Property? {
        PutMembers(DescribeFields(env, fs[..k], mode, r).value.props, fs[k].name, Describe(env, fs[k].typ, mode, false, r).value);
      }
    }
  }

  // ---------- the builder ----------

  function Universe(env: TypeEnv): set<Key> {
    (set id | id in env :: Key(id, InputMode)) + (set id | id in env :: Key(id, OutputMode))
  }

  lemma {:induction false} SubsetCard<T>(a: set<T>, b: set<T>)
    requires a <= b
    ensures |a| <= |b| && (a != b ==> |a| < |b|)
  {
    var rest := b - a;
    assert b == a + rest;
    if rest != {} { assert |rest| > 0; }
  }

  /** The builder's maps. `given` are the names stored by somebody other than the model walk: what the document already
      had (`document`) and operation envelopes. */
  datatype State = State(schemas: map<string, Schema>, components: map<Key, string>, owners: map<string, Key>, building: set<Key>,
                         document: set<string>, given: set<string>)

  /** Each component name belongs to one struct and mode, and everything stored for one is its description. */
  ghost predicate Owned(env: TypeEnv, s: State) {
    && WellEmbedded(env)
    && (forall key :: key in s.components ==>
          key.id in env && s.components[key] == ComponentName(env, key) && s.components[key] in s.owners
            && s.owners[s.components[key]] == key)
    && (forall name :: name in s.owners ==> s.owners[name] in s.components && s.components[s.owners[name]] == name)
    && s.building <= s.components.Keys
    && (forall key :: key in s.building ==> s.components[key] !in s.schemas)
    && s.document <= s.given <= s.schemas.Keys
    && (forall name :: name in s.schemas && name !in s.given ==>
          name in s.owners && DescribeStruct(env, s.owners[name].id, s.owners[name].mode) == Ok(s.schemas[name]))
  }

  /** What a reference may point at: a stored schema, or a component whose construction is under way. */
  ghost function Available(s: State): set<string> {
    s.schemas.Keys + set key | key in s.building && key in s.components :: s.components[key]
  }

  ghost predicate Closed(s: State) {
    forall name :: name in s.schemas && name !in s.document ==> Refs(s.schemas[name]) <= Available(s)
  }

  ghost predicate Open(s: State, key: Key) {
    key !in s.building && !(key in s.components && s.components[key] in s.schemas)
  }

  /** Components still to be built; each nested construction takes one away. */
  ghost function Unvisited(env: TypeEnv, s: State): set<Key> {
    set key | key in Universe(env) && Open(s, key)
  }

  /** Nothing stored or registered is ever changed or dropped, and construction is properly nested. */
  ghost predicate Grows(before: State, after: State) {
    && (forall name :: name in before.schemas ==> name in after.schemas && after.schemas[name] == before.schemas[name])
    && (forall key :: key in before.components ==> key in after.components && after.components[key] == before.components[key])
    && after.building == before.building && after.given == before.given && after.document == before.document
  }

  predicate SharedName(env: TypeEnv, a: Key, b: Key) {
    a.id in env && b.id in env && a != b && ComponentName(env, a) == ComponentName(env, b)
  }

  ghost predicate Describable(env: TypeEnv, key: Key)
    requires WellEmbedded(env)
  {
    key.id in env ==> DescribeStruct(env, key.id, key.mode).Ok?
  }

  /** No two structs share a component name and every struct can be described: then nothing can go wrong. */
  ghost predicate Sound(env: TypeEnv)
    requires WellEmbedded(env)
  {
    (forall a: Key, b: Key :: !SharedName(env, a, b)) && (forall key: Key :: Describable(env, key))
  }

  /** A reference of a description reaches the description of the struct that owns its name, unless somebody else stored a schema
      under that name before; when no such name is a component's, every reference does. */
  lemma ReferencesReachTheirStructs(env: TypeEnv, s: State, t: Type, mode: Mode, inlined: bool, r: nat)
    requires Owned(env, s) && Below(env, t, r) && (inlined && t.Named? && t.id in env ==> env[t.id].depth < r)
    requires Describe(env, t, mode, inlined, r).Ok? && Refs(Describe(env, t, mode, inlined, r).value) <= s.schemas.Keys
    ensures forall name :: name in Refs(Describe(env, t, mode, inlined, r).value) ==>
              || name in s.given
              || (name in s.owners && ComponentName(env, s.owners[name]) == name
                  && DescribeStruct(env, s.owners[name].id, s.owners[name].mode) == Ok(s.schemas[name]))
    ensures s.given !! ComponentNames(env) ==> s.given !! Refs(Describe(env, t, mode, inlined, r).value)
  {
    RefsAreComponents(env, t, mode, inlined, r);
  }

  lemma UnvisitedShrinks(env: TypeEnv, before: State, after: State, n: nat)
    requires |Unvisited(env, before)| <= n && Grows(before, after)
    ensures |Unvisited(env, after)| <= n
  {
    assert Unvisited(env, after) <= Unvisited(env, before);
    SubsetCard(Unvisited(env, after), Unvisited(env, before));
  }

  lemma NestedGrows(s0: State, s1: State, s2: State, s3: State, key: Key)
    requires key !in s0.building && s1 == s0.(building := s0.building + {key}) && Grows(s1, s2)
    requires s3 == s2.(building := s2.building - {key}, schemas := s3.schemas)
    requires forall name :: name in s2.schemas ==> name in s3.schemas && s3.schemas[name] == s2.schemas[name]
    ensures Grows(s0, s3)
  {
  }

  lemma StoredIsDeclared(env: TypeEnv, s: State)
    requires Owned(env, s)
    ensures forall name :: name in s.schemas && name !in s.given ==> RequiredDeclared(s.schemas[name])
  {
    forall name | name in s.schemas && name !in s.given ensures RequiredDeclared(s.schemas[name]) {
      StructIsDeclared(env, s.owners[name].id, s.owners[name].mode);
    }
  }

  class Builder {
    const env: TypeEnv
    var schemas: map<string, Schema>
    var components: map<Key, string>
    var owners: map<string, Key>
    var building: set<Key>
    ghost var given: set<string>
    ghost const document: set<string>

    ghost function Now(): State
      reads this
    {
      State(schemas, components, owners, building, document, given)
    }

    constructor (env: TypeEnv, document: map<string, Schema>)
      requires WellEmbedded(env)
      ensures this.env == env && Now() == State(document, map[], map[], {}, document.Keys, document.Keys)
      ensures Owned(env, Now()) && Closed(Now())
    {
      this.env := env;
      schemas, components, owners, building := document, map[], map[], {};
      given := document.Keys;
      this.document := document.Keys;
    }

    method SchemaForType(t: Type, mode: Mode, inlined: bool, ghost r: nat, ghost n: nat) returns (result: Result<Schema, BuildError>)
      requires Owned(env, Now()) && Closed(Now()) && |Unvisited(env, Now())| <= n
      requires Below(env, t, r) && (inlined && t.Named? && t.id in env ==> env[t.id].depth < r)
      modifies this
      ensures Owned(env, Now()) && Grows(old(Now()), Now())
      ensures result.Ok? ==> Closed(Now()) && result == Describe(env, t, mode, inlined, r) && Refs(result.value) <= Available(Now())
      ensures Sound(env) && Describe(env, t, mode, inlined, r).Ok? ==> result.Ok?
      decreases n, r, Size(t), 3
    {
      match t {
        case Raw => result := Ok(AnySchema);
        case EmptyList => result := Ok(NoItems);
        case Time => result := Ok(DateTime);
        case Pointer(_) => result := ContainerSchema(t, mode, r, n);
        case FixedScore => result := Ok(Leaf(StringLeaf));
        case Named(id) =>
          if id !in env {
            result := Err(UnsupportedType);
          } else if inlined {
            result := InlinedStruct(id, mode, n);
          } else {
            result := ComponentReference(id, mode, r, n);
          }
        case Struct(fs) =>
          var members := FieldsSchema(fs, mode, r, n);
          result := if members.Err? then Err(members.error) else Ok(Object(members.value.props, members.value.required));
        case Bytes => result := Ok(Base64);
        case List(_) => result := ContainerSchema(t, mode, r, n);
        case Map(stringKey, _) => if stringKey { result := ContainerSchema(t, mode, r, n); } else { result := Err(BadMapKey); }
        case Interface => result := Ok(AnySchema);
        case Scalar(kind) => result := Ok(Leaf(kind));
        case Unsupported => result := Err(UnsupportedType);
      }
    }

    /** Pointers, lists and maps wrap the schema of their element. */
    method ContainerSchema(t: Type, mode: Mode, ghost r: nat, ghost n: nat) returns (result: Result<Schema, BuildError>)
      requires Owned(env, Now()) && Closed(Now()) && |Unvisited(env, Now())| <= n && Below(env, t, r)
      requires t.Pointer? || t.List? || (t.Map? && t.stringKey)
      modifies this
      ensures Owned(env, Now()) && Grows(old(Now()), Now())
      ensures result.Ok? ==> Closed(Now()) && result == Describe(env, t, mode, false, r) && Refs(result.value) <= Available(Now())
      ensures Sound(env) && Describe(env, t, mode, false, r).Ok? ==> result.Ok?
      decreases n, r, Size(t), 2
    {
      result := SchemaForType(t.elem, mode, false, r, n);
      if result.Ok? {
        result := Ok(if t.Pointer? then Nullable(result.value) else if t.List? then ArrayOf(result.value) else MapOf(result.value));
      }
    }

    method InlinedStruct(id: nat, mode: Mode, ghost n: nat) returns (result: Result<Schema, BuildError>)
      requires Owned(env, Now()) && Closed(Now()) && |Unvisited(env, Now())| <= n && id in env
      modifies this
      ensures Owned(env, Now()) && Grows(old(Now()), Now())
      ensures result.Ok? ==> Closed(Now()) && result == DescribeStruct(env, id, mode) && Refs(result.value) <= Available(Now())
      ensures Sound(env) ==> result.Ok?
      decreases n, env[id].depth, FieldsSize(env[id].fields), 3
    {
      var members := StructSchema(id, mode, n);
      if members.Err? { return Err(members.error); }
      result := Ok(Object(members.value.props, members.value.required));
    }

    method ComponentReference(id: nat, mode: Mode, ghost r: nat, ghost n: nat) returns (result: Result<Schema, BuildError>)
      requires Owned(env, Now()) && Closed(Now()) && |Unvisited(env, Now())| <= n && id in env
      modifies this
      ensures Owned(env, Now()) && Grows(old(Now()), Now())
      ensures result.Ok? ==> Closed(Now()) && result == Ok(Ref(ComponentName(env, Key(id, mode))))
      ensures result.Ok? ==> ComponentName(env, Key(id, mode)) in Available(Now())
      ensures Sound(env) ==> result.Ok?
      decreases n, r, 1, 1
    {
      ghost var before := Now();
      var key := Key(id, mode);
      var registered := RegisterComponent(key);
      if registered.Err? { return Err(registered.error); }
      UnvisitedShrinks(env, before, Now(), n);
      if components[key] !in schemas && key !in building {
        var built := BuildComponent(key, n);
        if built.Err? { return Err(built.error); }
      }
      result := Ok(Ref(components[key]));
    }

    /** Gives a struct and mode its component name, unless another one already has it. */
    method RegisterComponent(key: Key) returns (result: Result<(), BuildError>)
      requires Owned(env, Now()) && Closed(Now()) && key.id in env
      modifies this`components, this`owners
      ensures Owned(env, Now()) && Closed(Now()) && Grows(old(Now()), Now()) && schemas == old(schemas)
      ensures result.Ok? ==> key in components
      ensures Sound(env) ==> result.Ok?
    {
      var name := ComponentName(env, key);
      if key !in components {
        if name in owners && owners[name] != key {
          assert SharedName(env, key, owners[name]);
          return Err(Collision(name));
        }
        components := components[key := name];
        owners := owners[name := key];
      }
      result := Ok(());
    }

    method BeginBuilding(key: Key, ghost n: nat)
      requires Owned(env, Now()) && Closed(Now()) && |Unvisited(env, Now())| <= n && key in components && Open(Now(), key)
      modifies this`building
      ensures Now() == old(Now()).(building := old(building) + {key}) && Owned(env, Now())
      ensures Closed(Now()) && n >= 1 && |Unvisited(env, Now())| <= n - 1
    {
      ghost var before := Unvisited(env, Now());
      assert key in before;
      building := building + {key};
      assert key !in Unvisited(env, Now()) && Unvisited(env, Now()) <= before;
      SubsetCard(Unvisited(env, Now()), before);
    }

    /** Stores the component whose construction began in `s0` with the step to `s1`. */
    method FinishBuilding(key: Key, schema: Schema, ghost s0: State, ghost s1: State)
      requires Owned(env, Now()) && Closed(Now()) && key in building
      requires DescribeStruct(env, key.id, key.mode) == Ok(schema) && Refs(schema) <= Available(Now())
      requires key !in s0.building && s1 == s0.(building := s0.building + {key}) && Grows(s1, Now())
      modifies this`building, this`schemas
      ensures Owned(env, Now()) && Closed(Now()) && Grows(s0, Now()) && key in components && components[key] in schemas
    {
      ghost var before := Now();
      schemas := schemas[components[key] := schema];
      building := building - {key};
      assert Available(Now()) == Available(before);
      NestedGrows(s0, s1, before, Now(), key);
    }

    method StopBuilding(key: Key, ghost s0: State, ghost s1: State)
      requires Owned(env, Now()) && key !in s0.building && s1 == s0.(building := s0.building + {key}) && Grows(s1, Now())
      modifies this`building
      ensures Owned(env, Now()) && Grows(s0, Now())
    {
      building := building - {key};
    }

    /** The members of a component, its key left under construction on success and taken back on failure. */
    method ComponentMembers(key: Key, ghost n: nat, ghost s1: State) returns (result: Result<Members, BuildError>)
      requires Owned(env, Now()) && Closed(Now()) && |Unvisited(env, Now())| <= n && key in components && Open(Now(), key)
      requires s1 == Now().(building := building + {key})
      modifies this
      ensures Owned(env, Now())
      ensures result.Err? ==> Grows(old(Now()), Now()) && !Sound(env)
      ensures result.Ok? ==> Closed(Now()) && Grows(s1, Now()) && result == StructMembers(env, key.id, key.mode)
                             && PropRefs(result.value.props) <= Available(Now())
      decreases n, 0, 0, 0
    {
      ghost var s0 := Now();
      BeginBuilding(key, n);
      result := StructSchema(key.id, key.mode, n - 1);
      if result.Err? { StopBuilding(key, s0, s1); }
    }

    method BuildComponent(key: Key, ghost n: nat) returns (result: Result<(), BuildError>)
      requires Owned(env, Now()) && Closed(Now()) && |Unvisited(env, Now())| <= n && key in components && Open(Now(), key)
      modifies this
      ensures Owned(env, Now()) && Grows(old(Now()), Now())
      ensures result.Ok? ==> Closed(Now()) && components[key] in schemas
      ensures Sound(env) ==> result.Ok?
      decreases n, 0, 0, 1
    {
      ghost var s0 := Now();
      ghost var s1 := s0.(building := building + {key});
      var members := ComponentMembers(key, n, s1);
      if members.Err? { return Err(members.error); }
      FinishBuilding(key, Object(members.value.props, members.value.required), s0, s1);
      result := Ok(());
    }

    method StructSchema(id: nat, mode: Mode, ghost n: nat) returns (result: Result<Members, BuildError>)
      requires Owned(env, Now()) && Closed(Now()) && |Unvisited(env, Now())| <= n && id in env
      modifies this
      ensures Owned(env, Now()) && Grows(old(Now()), Now())
      ensures result.Ok? ==> Closed(Now()) && result == StructMembers(env, id, mode) && PropRefs(result.value.props) <= Available(Now())
      ensures Sound(env) ==> result.Ok?
      decreases n, env[id].depth, FieldsSize(env[id].fields), 2
    {
      var members := FieldsSchema(env[id].fields, mode, env[id].depth, n);
      if members.Err? {
        assert Describable(env, Key(id, mode)) ==> DescribeStruct(env, id, mode).Ok?;
        assert DescribeStruct(env, id, mode).Ok? ==> StructMembers(env, id, mode).Ok?;
        return members;
      }
      var props := members.value.props;
      OverrideMembers(props, env[id].overrides);
      if mode == OutputMode { props := Override(props, env[id].overrides); }
      result := Ok(Members(props, members.value.required));
    }

    method FieldsSchema(fs: seq<Field>, mode: Mode, ghost r: nat, ghost n: nat) returns (result: Result<Members, BuildError>)
      requires Owned(env, Now()) && Closed(Now()) && |Unvisited(env, Now())| <= n && FieldsBelow(env, fs, r)
      modifies this
      ensures Owned(env, Now()) && Grows(old(Now()), Now())
      ensures result.Ok? ==> Closed(Now()) && result == DescribeFields(env, fs, mode, r) && PropRefs(result.value.props) <= Available(Now())
      ensures Sound(env) && DescribeFields(env, fs, mode, r).Ok? ==> result.Ok?
      decreases n, r, FieldsSize(fs), 1
    {
      var m := Members([], []);
      var i := 0;
      while i < |fs|
        invariant i <= |fs| && Owned(env, Now()) && Closed(Now()) && Grows(old(Now()), Now()) && |Unvisited(env, Now())| <= n
        invariant FieldsBelow(env, fs[..i], r) && DescribeFields(env, fs[..i], mode, r) == Ok(m)
        invariant PropRefs(m.props) <= Available(Now())
      {
        FieldsPrefix(env, fs, mode, r, i + 1);
        assert fs[..i + 1][..i] == fs[..i];
        ghost var before := Now();
        var added := AddFieldTo(m, fs[i], mode, r, n);
        UnvisitedShrinks(env, before, Now(), n);
        if added.Err? { return added; }
        m := added.value;
        i := i + 1;
      }
      assert fs[..i] == fs;
      result := Ok(m);
    }

    method AddFieldTo(m: Members, f: Field, mode: Mode, ghost r: nat, ghost n: nat) returns (result: Result<Members, BuildError>)
      requires Owned(env, Now()) && Closed(Now()) && |Unvisited(env, Now())| <= n
      requires FieldBelow(env, f, r) && PropRefs(m.props) <= Available(Now())
      modifies this
      ensures Owned(env, Now()) && Grows(old(Now()), Now())
      ensures result.Ok? ==> Closed(Now()) && result == AddField(env, m, f, mode, r) && PropRefs(result.value.props) <= Available(Now())
      ensures Sound(env) && AddField(env, m, f, mode, r).Ok? ==> result.Ok?
      decreases n, r, FieldSize(f), 0
    {
      match f {
        case Hidden => return Ok(m);
        case Embedded(t) =>
          var embeddedType := Strip(t);
          var embedded: Result<Members, BuildError>;
          if embeddedType.Named? {
            if embeddedType.id !in env {
              assert DescribeEmbedded(env, embeddedType, mode, r) == Err(UnsupportedType);
              return Err(UnsupportedType);
            }
            embedded := StructSchema(embeddedType.id, mode, n);
          } else if embeddedType.Struct? {
            embedded := FieldsSchema(embeddedType.fields, mode, r, n);
            assert DescribeEmbedded(env, embeddedType, mode, r) == DescribeFields(env, embeddedType.fields, mode, r);
          } else if Sealed(embeddedType) {
            embedded := Ok(Members([], []));
          } else {
            assert DescribeEmbedded(env, embeddedType, mode, r) == Err(NotAStruct);
            return Err(NotAStruct);
          }
          if embedded.Err? { return embedded; }
          assert DescribeEmbedded(env, embeddedType, mode, r) == embedded;
          var props := MergeInto(m.props, embedded.value.props);
          if props.Err? { return Err(props.error); }
          MergeMembers(m.props, embedded.value.props);
          return Ok(Members(props.value, m.required + embedded.value.required));
        case Property(name, t, rulesApply, _, _) =>
          var property := SchemaForType(t, mode, false, r, n);
          if property.Err? { return Err(property.error); }
          if !rulesApply { return Err(InvalidRule); }
          PutMembers(m.props, name, property.value);
          return Ok(Members(Put(m.props, name, property.value), m.required + if RequiredIn(f, mode) then [name] else []));
      }
    }

    static method MergeInto(props: seq<Prop>, more: seq<Prop>) returns (result: Result<seq<Prop>, BuildError>)
      ensures result == Merge(props, more)
    {
      var merged := props;
      var i := 0;
      while i < |more|
        invariant i <= |more| && Merge(props, more[..i]) == Ok(merged)
      {
        assert more[..i + 1][..i] == more[..i];
        if more[i].name in Names(merged) {
          MergeFails(props, more, i + 1);
          return Err(DuplicateEmbedded(more[i].name));
        }
        merged := merged + [more[i]];
        i := i + 1;
      }
      assert more[..i] == more;
      result := Ok(merged);
    }

    /** A response or request schema under its operation's own name. */
    method AddSchema(name: string, schema: Schema) returns (result: Result<(), BuildError>)
      requires Owned(env, Now()) && Closed(Now()) && building == {} && Refs(schema) <= schemas.Keys
      modifies this
      ensures Owned(env, Now()) && Closed(Now()) && building == {}
      ensures result.Ok? <==> old(name !in schemas && name !in owners)
      ensures schemas == if result.Ok? then old(schemas)[name := schema] else old(schemas)
      ensures components == old(components) && owners == old(owners)
    {
      if name in schemas { return Err(DuplicateSchema); }
      if name in owners { return Err(DuplicateSchema); }
      schemas := schemas[name := schema];
      given := given + {name};
      result := Ok(());
    }

    /** A whole model from the outside: on success the model walk leaves every reference resolved, every component name with
        one owner, every required name declared, and everything it stored equal to its description. It can fail only when
        some struct cannot be described or two structs share a component name. */
    method SchemaForModel(t: Type, mode: Mode, inlined: bool, ghost r: nat) returns (result: Result<Schema, BuildError>)
      requires Owned(env, Now()) && Closed(Now()) && building == {}
      requires Below(env, Strip(t), r) && (Strip(t).Named? && Strip(t).id in env ==> env[Strip(t).id].depth < r)
      modifies this
      ensures Owned(env, Now()) && Grows(old(Now()), Now())
      ensures result.Ok? ==>
                && result == Describe(env, Strip(t), mode, inlined, r) && RequiredDeclared(result.value)
                && Refs(result.value) <= schemas.Keys
                && (forall name :: name in schemas && name !in document ==> Refs(schemas[name]) <= schemas.Keys)
                && (forall name :: name in schemas && name !in given ==> RequiredDeclared(schemas[name]))
                && (forall a, b :: a in components && b in components && components[a] == components[b] ==> a == b)
      ensures Sound(env) && Describe(env, Strip(t), mode, inlined, r).Ok? ==> result.Ok?
    {
      result := SchemaForType(Strip(t), mode, inlined, r, |Unvisited(env, Now())|);
      if result.Ok? {
        DescribedIsDeclared(env, Strip(t), mode, inlined, r);
        StoredIsDeclared(env, Now());
      }
    }
  }

  lemma {:induction false} MergeFails(props: seq<Prop>, more: seq<Prop>, k: nat)
    requires k <= |more| && Merge(props, more[..k]).Err?
    ensures Merge(props, more) == Merge(props, more[..k])
    decreases |more|
  {
    if k < |more| {
      assert more[..|more| - 1][..k] == more[..k];
      MergeFails(props, more[..|more| - 1], k);
    } else {
      assert more[..k] == more;
    }
  }

  lemma {:induction false} FieldsPrefix(env: TypeEnv, fs: seq<Field>, mode: Mode, r: nat, k: nat)
    requires WellEmbedded(env) && FieldsBelow(env, fs, r) && k <= |fs|
    ensures FieldsBelow(env, fs[..k], r) && FieldsSize(fs[..k]) <= FieldsSize(fs)
    ensures forall i :: 0 <= i < k ==> FieldSize(fs[i]) <= FieldsSize(fs) && FieldBelow(env, fs[i], r)
    ensures DescribeFields(env, fs[..k], mode, r).Err? ==> DescribeFields(env, fs, mode, r) == DescribeFields(env, fs[..k], mode, r)
    decreases |fs|
  {
    if k < |fs| {
      FieldsPrefix(env, fs[..|fs| - 1], mode, r, k);
      assert fs[..|fs| - 1][..k] == fs[..k];
    } else if k > 0 {
      assert fs[..k] == fs;
      FieldsPrefix(env, fs[..|fs| - 1], mode, r, k - 1);
    }
  }
}
