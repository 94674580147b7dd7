/** What a described schema means: which JSON values it accepts, against which JSON values the Go type has. */
module SchemaMeaning {
  import opened Common
  import opened SchemaBuilder

  datatype Member = Member(name: string, value: Json)

  /** A JSON value; of a number only whether it is an integer matters here. */
  datatype Json =
    | Null | Bool(b: bool) | Number(integral: bool) | Text(text: string) | Arr(items: seq<Json>) | Obj(members: seq<Member>)

  /** Which texts are date-times and which are base64. */
  datatype Formats = Formats(dateTime: string -> bool, base64: string -> bool)

  // ---------- what a schema accepts ----------

  predicate Matches(kind: LeafKind, json: Json) {
    match kind
    case StringLeaf => json.Text?
    case BoolLeaf => json.Bool?
    case IntegerLeaf => json.Number? && json.integral
    case NumberLeaf => json.Number?
  }

  function PropOf(props: seq<Prop>, n: string): Option<Schema> {
    if props == [] then None
    else if props[|props| - 1].name == n then Some(props[|props| - 1].schema)
    else PropOf(props[..|props| - 1], n)
  }

  predicate Has(members: seq<Member>, n: string) {
    exists i :: 0 <= i < |members| && members[i].name == n
  }

  /** Validation of a JSON value; references go to the components, which are objects. */
  ghost predicate Accepts(comps: map<string, Schema>, fm: Formats, s: Schema, json: Json)
    decreases json, 1, s
  {
    match s
    case AnySchema => true
    case NoItems => json == Arr([])
    case DateTime => json.Text? && fm.dateTime(json.text)
    case Base64 => json.Text? && fm.base64(json.text)
    case Leaf(kind) => Matches(kind, json)
    case Ref(c) => c in comps && comps[c].Object? && AcceptsObject(comps, fm, comps[c].props, comps[c].required, json)
    case Nullable(x) => json.Null? || Accepts(comps, fm, x, json)
    case ArrayOf(x) => json.Arr? && forall i :: 0 <= i < |json.items| ==> Accepts(comps, fm, x, json.items[i])
    case MapOf(x) => json.Obj? && forall i :: 0 <= i < |json.members| ==> Accepts(comps, fm, x, json.members[i].value)
    case Object(props, required) => AcceptsObject(comps, fm, props, required, json)
  }

  /** A closed object: every member is a property and of its schema, every required one is there. */
  ghost predicate AcceptsObject(comps: map<string, Schema>, fm: Formats, props: seq<Prop>, required: seq<string>, json: Json)
    decreases json, 0
  {
    && json.Obj?
    && (forall i :: 0 <= i < |json.members| ==>
          var p := PropOf(props, json.members[i].name); p.Some? && Accepts(comps, fm, p.value, json.members[i].value))
    && forall n :: n in required ==> Has(json.members, n)
  }

  // ---------- what JSON a type has ----------

  /** The field behind a name: one of the struct's own or embedded fields, or one the output replaces by a nullable text. */
  datatype FieldForm = Typed(typ: Type, bound: nat) | Replaced

  /** The last field of that name. */
  function FieldOf(env: TypeEnv, fs: seq<Field>, mode: Mode, r: nat, n: string): (form: Option<FieldForm>)
    requires WellEmbedded(env) && FieldsBelow(env, fs, r)
    ensures form.Some? && form.value.Typed? ==> Below(env, form.value.typ, form.value.bound)
    decreases r, FieldsSize(fs), 1
  {
    if fs == [] then None
    else
      var here := NamedBy(env, fs[|fs| - 1], mode, r, n);
      if here.Some? then here else FieldOf(env, fs[..|fs| - 1], mode, r, n)
  }

  function NamedBy(env: TypeEnv, f: Field, mode: Mode, r: nat, n: string): (form: Option<FieldForm>)
    requires WellEmbedded(env) && FieldBelow(env, f, r)
    ensures form.Some? && form.value.Typed? ==> Below(env, form.value.typ, form.value.bound)
    decreases r, FieldSize(f), 0
  {
    match f
    case Hidden => None
    case Property(name, t, _, _, _) => if name == n then Some(Typed(t, r)) else None
    case Embedded(t) => EmbeddedFieldOf(env, Strip(t), mode, r, n)
  }

  function EmbeddedFieldOf(env: TypeEnv, t: Type, mode: Mode, r: nat, n: string): (form: Option<FieldForm>)
    requires WellEmbedded(env) && Below(env, t, r) && (t.Named? && t.id in env ==> env[t.id].depth < r)
    ensures form.Some? && form.value.Typed? ==> Below(env, form.value.typ, form.value.bound)
    decreases r, Size(t), 0
  {
    match t
    case Named(id) => if id in env then StructFieldOf(env, id, mode, n) else None
    case Struct(fs) => FieldOf(env, fs, mode, r, n)
    case _ => None
  }

  function StructFieldOf(env: TypeEnv, id: nat, mode: Mode, n: string): (form: Option<FieldForm>)
    requires WellEmbedded(env) && id in env
    ensures form.Some? && form.value.Typed? ==> Below(env, form.value.typ, form.value.bound)
    decreases env[id].depth, FieldsSize(env[id].fields), 2
  {
    if mode == OutputMode && n in env[id].overrides then Some(Replaced)
    else FieldOf(env, env[id].fields, mode, env[id].depth, n)
  }

  /** Some field of that name is always there in this mode. */
  predicate Always(env: TypeEnv, fs: seq<Field>, mode: Mode, r: nat, n: string)
    requires WellEmbedded(env) && FieldsBelow(env, fs, r)
    decreases r, FieldsSize(fs), 1
  {
    fs != [] && (Always(env, fs[..|fs| - 1], mode, r, n) || AlwaysBy(env, fs[|fs| - 1], mode, r, n))
  }

  predicate AlwaysBy(env: TypeEnv, f: Field, mode: Mode, r: nat, n: string)
    requires WellEmbedded(env) && FieldBelow(env, f, r)
    decreases r, FieldSize(f), 0
  {
    match f
    case Hidden => false
    case Property(name, _, _, _, _) => name == n && RequiredIn(f, mode)
    case Embedded(t) => EmbeddedAlways(env, Strip(t), mode, r, n)
  }

  predicate EmbeddedAlways(env: TypeEnv, t: Type, mode: Mode, r: nat, n: string)
    requires WellEmbedded(env) && Below(env, t, r) && (t.Named? && t.id in env ==> env[t.id].depth < r)
    decreases r, Size(t), 0
  {
    match t
    case Named(id) => id in env && Always(env, env[id].fields, mode, env[id].depth, n)
    case Struct(fs) => Always(env, fs, mode, r, n)
    case _ => false
  }

  /** The JSON values a type has in this mode: those Go writes for it, or reads into it, when its slices and maps are there. */
  ghost predicate Encodes(env: TypeEnv, fm: Formats, t: Type, mode: Mode, r: nat, json: Json)
    requires WellEmbedded(env) && Below(env, t, r)
    decreases json, 1, Size(t)
  {
    match t
    case Raw => true
    case Interface => true
    case EmptyList => json == Arr([])
    case Time => json.Text? && fm.dateTime(json.text)
    case FixedScore => json.Text?
    case Bytes => json.Text? && fm.base64(json.text)
    case Scalar(kind) => Matches(kind, json)
    case Pointer(e) => json.Null? || Encodes(env, fm, e, mode, r, json)
    case List(e) => json.Arr? && forall i :: 0 <= i < |json.items| ==> Encodes(env, fm, e, mode, r, json.items[i])
    case Map(_, e) => json.Obj? && forall i :: 0 <= i < |json.members| ==> Encodes(env, fm, e, mode, r, json.members[i].value)
    case Struct(fs) =>
      && json.Obj?
      && (forall i :: 0 <= i < |json.members| ==>
            FieldEncodes(env, fm, FieldOf(env, fs, mode, r, json.members[i].name), mode, json.members[i].value))
      && forall n: string :: Always(env, fs, mode, r, n) ==> Has(json.members, n)
    case Named(id) => id in env && StructEncodes(env, fm, id, mode, json)
    case Unsupported => false
  }

  ghost predicate StructEncodes(env: TypeEnv, fm: Formats, id: nat, mode: Mode, json: Json)
    requires WellEmbedded(env) && id in env
    decreases json, 0
  {
    && json.Obj?
    && (forall i :: 0 <= i < |json.members| ==>
          FieldEncodes(env, fm, StructFieldOf(env, id, mode, json.members[i].name), mode, json.members[i].value))
    && forall n: string :: Always(env, env[id].fields, mode, env[id].depth, n) ==> Has(json.members, n)
  }

  ghost predicate FieldEncodes(env: TypeEnv, fm: Formats, form: Option<FieldForm>, mode: Mode, json: Json)
    requires WellEmbedded(env) && (form.Some? && form.value.Typed? ==> Below(env, form.value.typ, form.value.bound))
    decreases json, 2
  {
    match form
    case None => false
    case Some(Replaced) => json.Null? || json.Text?
    case Some(Typed(t, bound)) => Encodes(env, fm, t, mode, bound, json)
  }

  // ---------- properties and fields agree ----------

  lemma {:induction false} PutLookup(props: seq<Prop>, name: string, schema: Schema, n: string)
    ensures PropOf(Put(props, name, schema), n) == if n == name then Some(schema) else PropOf(props, n)
  {
    if props == [] {
      assert [Prop(name, schema)][..0] == [];
    } else {
      var rest, last := props[..|props| - 1], props[|props| - 1];
      var put := Put(props, name, schema);
      if last.name == name { assert put[..|put| - 1] == rest; }
      else {
        PutLookup(rest, name, schema, n);
        assert put[..|put| - 1] == Put(rest, name, schema);
      }
    }
  }

  lemma {:induction false} MergeLookup(props: seq<Prop>, more: seq<Prop>, n: string)
    requires Merge(props, more).Ok?
    ensures PropOf(Merge(props, more).value, n) == if PropOf(more, n).Some? then PropOf(more, n) else PropOf(props, n)
  {
    if more != [] {
      MergeLookup(props, more[..|more| - 1], n);
      var merged := Merge(props, more).value;
      assert merged[..|merged| - 1] == Merge(props, more[..|more| - 1]).value;
    }
  }

  lemma {:induction false} OverrideLookup(props: seq<Prop>, names: seq<string>, n: string)
    ensures PropOf(Override(props, names), n) == if n in names then Some(Nullable(Leaf(StringLeaf))) else PropOf(props, n)
  {
    if names != [] {
      OverrideLookup(props, names[..|names| - 1], n);
      PutLookup(Override(props, names[..|names| - 1]), names[|names| - 1], Nullable(Leaf(StringLeaf)), n);
    }
  }

  /** The schema a name should have. */
  ghost predicate FormDescribed(env: TypeEnv, mode: Mode, form: Option<FieldForm>, p: Option<Schema>)
    requires WellEmbedded(env) && (form.Some? && form.value.Typed? ==> Below(env, form.value.typ, form.value.bound))
  {
    match form
    case None => p.None?
    case Some(Replaced) => p == Some(Nullable(Leaf(StringLeaf)))
    case Some(Typed(t, bound)) => p.Some? && Describe(env, t, mode, false, bound) == Ok(p.value)
  }

  lemma {:induction false} FieldsLookup(env: TypeEnv, fs: seq<Field>, mode: Mode, r: nat, n: string)
    requires WellEmbedded(env) && FieldsBelow(env, fs, r) && DescribeFields(env, fs, mode, r).Ok?
    ensures var m := DescribeFields(env, fs, mode, r).value;
            && FormDescribed(env, mode, FieldOf(env, fs, mode, r, n), PropOf(m.props, n))
            && (n in m.required <==> Always(env, fs, mode, r, n))
    decreases r, FieldsSize(fs), 1
  {
    if fs != [] {
      FieldsLookup(env, fs[..|fs| - 1], mode, r, n);
      FieldLookup(env, DescribeFields(env, fs[..|fs| - 1], mode, r).value, fs[|fs| - 1], mode, r, n);
    }
  }

  lemma {:induction false} FieldLookup(env: TypeEnv, before: Members, f: Field, mode: Mode, r: nat, n: string)
    requires WellEmbedded(env) && FieldBelow(env, f, r) && AddField(env, before, f, mode, r).Ok?
    ensures var m, here := AddField(env, before, f, mode, r).value, NamedBy(env, f, mode, r, n);
            && (if here.Some? then FormDescribed(env, mode, here, PropOf(m.props, n)) else PropOf(m.props, n) == PropOf(before.props, n))
            && (n in m.required <==> n in before.required || AlwaysBy(env, f, mode, r, n))
    decreases r, FieldSize(f), 0
  {
    match f {
      case Hidden =>
      case Property(name, t, _, _, _) => PutLookup(before.props, name, Describe(env, t, mode, false, r).value, n);
      case Embedded(t) =>
        EmbeddedLookup(env, Strip(t), mode, r, n);
        MergeLookup(before.props, DescribeEmbedded(env, Strip(t), mode, r).value.props, n);
    }
  }

  lemma {:induction false} EmbeddedLookup(env: TypeEnv, t: Type, mode: Mode, r: nat, n: string)
    requires WellEmbedded(env) && Below(env, t, r) && (t.Named? && t.id in env ==> env[t.id].depth < r)
    requires DescribeEmbedded(env, t, mode, r).Ok?
    ensures var m := DescribeEmbedded(env, t, mode, r).value;
            && FormDescribed(env, mode, EmbeddedFieldOf(env, t, mode, r, n), PropOf(m.props, n))
            && (n in m.required <==> EmbeddedAlways(env, t, mode, r, n))
    decreases r, Size(t), 0
  {
    match t {
      case Named(id) => StructLookup(env, id, mode, n);
      case Struct(fs) => FieldsLookup(env, fs, mode, r, n);
      case _ =>
    }
  }

  lemma {:induction false} StructLookup(env: TypeEnv, id: nat, mode: Mode, n: string)
    requires WellEmbedded(env) && id in env && StructMembers(env, id, mode).Ok?
    ensures var m := StructMembers(env, id, mode).value;
            && FormDescribed(env, mode, StructFieldOf(env, id, mode, n), PropOf(m.props, n))
            && (n in m.required <==> Always(env, env[id].fields, mode, env[id].depth, n))
    decreases env[id].depth, FieldsSize(env[id].fields), 2
  {
    FieldsLookup(env, env[id].fields, mode, env[id].depth, n);
    OverrideLookup(DescribeFields(env, env[id].fields, mode, env[id].depth).value.props, env[id].overrides, n);
  }

  // ---------- a description accepts exactly the type's values ----------

  /** Every component stored for a struct is its description, with all its references stored. */
  ghost predicate Meaningful(env: TypeEnv, comps: map<string, Schema>) {
    && WellEmbedded(env)
    && forall key: Key :: key.id in env && ComponentName(env, key) in comps ==>
         && DescribeStruct(env, key.id, key.mode) == Ok(comps[ComponentName(env, key)])
         && Refs(comps[ComponentName(env, key)]) <= comps.Keys
  }

  lemma {:induction false} PropRefsCover(props: seq<Prop>, n: string)
    requires PropOf(props, n).Some?
    ensures Refs(PropOf(props, n).value) <= PropRefs(props)
  {
    if props[|props| - 1].name != n { PropRefsCover(props[..|props| - 1], n); }
  }

  lemma {:induction false} DescribedExactly(env: TypeEnv, comps: map<string, Schema>, fm: Formats, t: Type, mode: Mode, inlined: bool,
                                            r: nat, json: Json)
    requires Meaningful(env, comps) && Below(env, t, r) && (inlined && t.Named? && t.id in env ==> env[t.id].depth < r)
    requires Describe(env, t, mode, inlined, r).Ok? && Refs(Describe(env, t, mode, inlined, r).value) <= comps.Keys
    ensures Accepts(comps, fm, Describe(env, t, mode, inlined, r).value, json) <==> Encodes(env, fm, t, mode, r, json)
    decreases json, 1, Size(t)
  {
    match t {
      case Pointer(e) => DescribedExactly(env, comps, fm, e, mode, false, r, json);
      case List(e) =>
        if json.Arr? {
          forall i | 0 <= i < |json.items|
            ensures Accepts(comps, fm, Describe(env, e, mode, false, r).value, json.items[i])
               <==> Encodes(env, fm, e, mode, r, json.items[i])
          {
            DescribedExactly(env, comps, fm, e, mode, false, r, json.items[i]);
          }
        }
      case Map(_, e) =>
        if json.Obj? {
          forall i | 0 <= i < |json.members|
            ensures Accepts(comps, fm, Describe(env, e, mode, false, r).value, json.members[i].value)
               <==> Encodes(env, fm, e, mode, r, json.members[i].value)
          {
            DescribedExactly(env, comps, fm, e, mode, false, r, json.members[i].value);
          }
        }
      case Struct(fs) => FieldsExactly(env, comps, fm, fs, mode, r, json);
      case Named(id) => StructExactly(env, comps, fm, id, mode, inlined, json);
      case _ =>
    }
  }

  lemma {:induction false} FieldsExactly(env: TypeEnv, comps: map<string, Schema>, fm: Formats, fs: seq<Field>, mode: Mode, r: nat,
                                         json: Json)
    requires Meaningful(env, comps) && FieldsBelow(env, fs, r) && DescribeFields(env, fs, mode, r).Ok?
    requires PropRefs(DescribeFields(env, fs, mode, r).value.props) <= comps.Keys
    ensures var m := DescribeFields(env, fs, mode, r).value;
            AcceptsObject(comps, fm, m.props, m.required, json) <==> Encodes(env, fm, Struct(fs), mode, r, json)
    decreases json, 0
  {
    var m := DescribeFields(env, fs, mode, r).value;
    if json.Obj? {
      forall i | 0 <= i < |json.members|
        ensures var p := PropOf(m.props, json.members[i].name);
                (p.Some? && Accepts(comps, fm, p.value, json.members[i].value))
                <==> FieldEncodes(env, fm, FieldOf(env, fs, mode, r, json.members[i].name), mode, json.members[i].value)
      {
        FieldsLookup(env, fs, mode, r, json.members[i].name);
        var (name, value) := (json.members[i].name, json.members[i].value);
        FormExactly(env, comps, fm, m.props, FieldOf(env, fs, mode, r, name), mode, name, value);
      }
      forall n: string ensures n in m.required <==> Always(env, fs, mode, r, n) { FieldsLookup(env, fs, mode, r, n); }
    }
  }

  lemma {:induction false} StructExactly(env: TypeEnv, comps: map<string, Schema>, fm: Formats, id: nat, mode: Mode, inlined: bool,
                                         json: Json)
    requires Meaningful(env, comps) && id in env
    requires inlined ==> DescribeStruct(env, id, mode).Ok? && Refs(DescribeStruct(env, id, mode).value) <= comps.Keys
    requires !inlined ==> ComponentName(env, Key(id, mode)) in comps
    ensures Accepts(comps, fm, if inlined then DescribeStruct(env, id, mode).value else Ref(ComponentName(env, Key(id, mode))), json)
       <==> StructEncodes(env, fm, id, mode, json)
    decreases json, 0
  {
    assert ComponentName(env, Key(id, mode)) == ComponentName(env, Key(id, mode));
    var m := StructMembers(env, id, mode).value;
    if json.Obj? {
      forall i | 0 <= i < |json.members|
        ensures var p := PropOf(m.props, json.members[i].name);
                (p.Some? && Accepts(comps, fm, p.value, json.members[i].value))
                <==> FieldEncodes(env, fm, StructFieldOf(env, id, mode, json.members[i].name), mode, json.members[i].value)
      {
        StructLookup(env, id, mode, json.members[i].name);
        var (name, value) := (json.members[i].name, json.members[i].value);
        FormExactly(env, comps, fm, m.props, StructFieldOf(env, id, mode, name), mode, name, value);
      }
      forall n: string ensures n in m.required <==> Always(env, env[id].fields, mode, env[id].depth, n) { StructLookup(env, id, mode, n); }
    }
  }

  lemma {:induction false} FormExactly(env: TypeEnv, comps: map<string, Schema>, fm: Formats, props: seq<Prop>, form: Option<FieldForm>,
                                       mode: Mode, n: string, json: Json)
    requires Meaningful(env, comps) && PropRefs(props) <= comps.Keys
    requires form.Some? && form.value.Typed? ==> Below(env, form.value.typ, form.value.bound)
    requires FormDescribed(env, mode, form, PropOf(props, n))
    ensures PropOf(props, n).Some? && Accepts(comps, fm, PropOf(props, n).value, json) <==> FieldEncodes(env, fm, form, mode, json)
    decreases json, 2
  {
    if PropOf(props, n).Some? { PropRefsCover(props, n); }
    match form {
      case Some(Typed(t, bound)) => DescribedExactly(env, comps, fm, t, mode, false, bound, json);
      case _ =>
    }
  }

  /** Two structs share a component name exactly when they have one base name in one mode; the modes never share one. */
  lemma NamesCollideExactly(env: TypeEnv, a: Key, b: Key)
    requires a.id in env && b.id in env
    ensures ComponentName(env, a) == ComponentName(env, b) <==> a.mode == b.mode && env[a.id].component == env[b.id].component
  {
    var x, y := ComponentName(env, a), ComponentName(env, b);
    if x == y {
      assert x[|x| - 4] == if a.mode == InputMode then 'n' else 't';
      assert y[|y| - 4] == if b.mode == InputMode then 'n' else 't';
      assert env[a.id].component == x[..|env[a.id].component|];
      assert env[b.id].component == y[..|env[b.id].component|];
    }
  }

  /** What the model walk leaves behind is meaningful when no two structs share a component name and nobody else stored a schema
      under one. */
  lemma WalkIsMeaningful(env: TypeEnv, s: State)
    requires Owned(env, s) && Closed(s) && s.building == {} && s.given !! ComponentNames(env)
    requires forall a: Key, b: Key :: !SharedName(env, a, b)
    ensures Meaningful(env, s.schemas)
  {
    forall key: Key | key.id in env && ComponentName(env, key) in s.schemas
      ensures DescribeStruct(env, key.id, key.mode) == Ok(s.schemas[ComponentName(env, key)])
      ensures Refs(s.schemas[ComponentName(env, key)]) <= s.schemas.Keys
    {
      var name := ComponentName(env, key);
      assert key in Universe(env) && name in ComponentNames(env) && name !in s.given;
      assert !SharedName(env, key, s.owners[name]);
    }
  }

  /** The schema of a model accepts exactly the JSON values of its type, down to every component it refers to. */
  lemma ModelAcceptsExactlyItsValues(env: TypeEnv, s: State, fm: Formats, t: Type, mode: Mode, inlined: bool, r: nat, json: Json)
    requires Owned(env, s) && Closed(s) && s.building == {} && s.given !! ComponentNames(env)
    requires forall a: Key, b: Key :: !SharedName(env, a, b)
    requires Below(env, t, r) && (inlined && t.Named? && t.id in env ==> env[t.id].depth < r)
    requires Describe(env, t, mode, inlined, r).Ok? && Refs(Describe(env, t, mode, inlined, r).value) <= s.schemas.Keys
    ensures Accepts(s.schemas, fm, Describe(env, t, mode, inlined, r).value, json) <==> Encodes(env, fm, t, mode, r, json)
  {
    WalkIsMeaningful(env, s);
    DescribedExactly(env, s.schemas, fm, t, mode, inlined, r, json);
  }

  /** A null is accepted exactly for pointers, interfaces and raw JSON. Go writes null for a nil slice, map or byte slice too, so a
      model that leaves one nil breaks its own contract. */
  lemma NullIsForPointers(env: TypeEnv, comps: map<string, Schema>, fm: Formats, t: Type, mode: Mode, inlined: bool, r: nat)
    requires Meaningful(env, comps) && Below(env, t, r) && (inlined && t.Named? && t.id in env ==> env[t.id].depth < r)
    requires Describe(env, t, mode, inlined, r).Ok? && Refs(Describe(env, t, mode, inlined, r).value) <= comps.Keys
    ensures Accepts(comps, fm, Describe(env, t, mode, inlined, r).value, Null) <==> t.Pointer? || t.Interface? || t.Raw?
  {
    DescribedExactly(env, comps, fm, t, mode, inlined, r, Null);
  }
}
