/** The JSON-schema subset validator for tool inputs, against a declarative reading of the
    subset that never looks at key order. */
module SchemaValidate {
  import opened Basics
  import opened JsonValues

  /** The type names the subset knows; any other name matches nothing. */
  datatype TypeName = ObjectT | ArrayT | IntegerT | NullT | StringT | NumberT | BooleanT | Unknown(name: string)

  /** One step of the way from the input to the place a message names. */
  datatype Segment = Key(key: string) | Index(index: nat)

  datatype Fault =
    | WrongType(expected: seq<string>, got: TypeName)
    | NotInEnum
    | Required
    | NotAllowed
    | PropertySchemaNotObject
    | ItemsSchemaNotObject

  /** One message: where, and what is wrong there. */
  datatype Issue = Issue(path: seq<Segment>, fault: Fault)

  // ----- the pure helpers of the source -----

  function Get(j: Json, key: string): (r: Option<Json>)
    ensures r.Some? ==> r.value < j
  {
    if j.Obj? && key in Keys(j.fields) then Some(Lookup(j.fields, key)) else None
  }

  function Strings(items: seq<Json>): seq<string> {
    if items == [] then []
    else (if items[0].Str? then [items[0].s] else []) + Strings(items[1..])
  }

  /** `Array.isArray(v) ? v.filter(isString) : []` */
  function StringsOf(j: Option<Json>): seq<string> {
    if j.Some? && j.value.Arr? then Strings(j.value.items) else []
  }

  function ReadType(name: string): TypeName {
    match name
    case "object" => ObjectT
    case "array" => ArrayT
    case "integer" => IntegerT
    case "null" => NullT
    case "string" => StringT
    case "number" => NumberT
    case "boolean" => BooleanT
    case _ => Unknown(name)
  }

  function NormalizeTypes(declared: Option<Json>): seq<string> {
    if declared.Some? && declared.value.Str? then [declared.value.s] else StringsOf(declared)
  }

  function Describe(j: Json): TypeName {
    match j
    case Null => NullT
    case Bool(_) => BooleanT
    case Num(_) => NumberT
    case Str(_) => StringT
    case Arr(_) => ArrayT
    case Obj(_) => ObjectT
  }

  /** `Number.isInteger` on the text of a number: JavaScript writes an integer without a point,
      or, from 1e21 on, with a positive exponent. */
  predicate IntegerLiteral(literal: string) {
    ('.' !in literal && 'e' !in literal) || ('e' in literal && '+' in literal)
  }

  predicate MatchesType(t: TypeName, j: Json) {
    match t
    case ObjectT => j.Obj?
    case ArrayT => j.Arr?
    case IntegerT => j.Num? && IntegerLiteral(j.literal)
    case NullT => j.Null?
    case StringT => j.Str?
    case NumberT => j.Num?
    case BooleanT => j.Bool?
    case Unknown(_) => false
  }

  /** `types.some((t) => matchesType(t, value))` */
  predicate SomeTypeMatches(types: seq<string>, j: Json) {
    types != [] && (MatchesType(ReadType(types[0]), j) || SomeTypeMatches(types[1..], j))
  }

  predicate DeepEqual(a: Json, b: Json)
    decreases a
  {
    match a
    case Arr(items) => b.Arr? && |items| == |b.items| && forall i | 0 <= i < |items| :: DeepEqual(items[i], b.items[i])
    case Obj(fields) =>
      b.Obj? && |fields| == |b.fields| &&
      forall i | 0 <= i < |fields| ::
        fields[i].key in Keys(b.fields) && DeepEqual(fields[i].value, Lookup(b.fields, fields[i].key))
    case _ => a == b
  }

  /** `candidates.some((candidate) => deepEqual(candidate, value))` */
  predicate SomeEqual(candidates: seq<Json>, j: Json) {
    candidates != [] && (DeepEqual(candidates[0], j) || SomeEqual(candidates[1..], j))
  }

  // ----- what the walk reports -----

  function TypeIssues(declared: Option<Json>, value: Json, path: seq<Segment>): seq<Issue> {
    var types := NormalizeTypes(declared);
    if |types| > 0 && !SomeTypeMatches(types, value) then [Issue(path, WrongType(types, Describe(value)))]
    else []
  }

  function EnumIssues(allowed: Option<Json>, value: Json, path: seq<Segment>): seq<Issue> {
    if allowed.Some? && allowed.value.Arr? && |allowed.value.items| > 0 && !SomeEqual(allowed.value.items, value)
    then [Issue(path, NotInEnum)]
    else []
  }

  function RequiredIssues(keys: seq<string>, n: nat, value: Json, path: seq<Segment>): seq<Issue>
    requires value.Obj? && n <= |keys|
  {
    if n == 0 then [] else
      RequiredIssues(keys, n - 1, value, path) +
      if keys[n - 1] in Keys(value.fields) then [] else [Issue(path + [Key(keys[n - 1])], Required)]
  }

  function ExtraIssues(properties: Json, n: nat, value: Json, path: seq<Segment>): seq<Issue>
    requires properties.Obj? && value.Obj? && n <= |value.fields|
  {
    if n == 0 then [] else
      var key := value.fields[n - 1].key;
      ExtraIssues(properties, n - 1, value, path) +
      if key in Keys(properties.fields) then [] else [Issue(path + [Key(key)], NotAllowed)]
  }

  /** What the walk reports for one declared property. */
  function PropertyIssuesAt(declared: Field, value: Json, path: seq<Segment>): seq<Issue>
    requires value.Obj?
    decreases value, 0, 0
  {
    if declared.key !in Keys(value.fields) then []
    else if !declared.value.Obj? then [Issue(path + [Key(declared.key)], PropertySchemaNotObject)]
    else Issues(declared.value, Lookup(value.fields, declared.key), path + [Key(declared.key)])
  }

  function PropertyIssues(properties: Json, n: nat, value: Json, path: seq<Segment>): seq<Issue>
    requires properties.Obj? && value.Obj? && n <= |properties.fields|
    decreases value, 0, n
  {
    if n == 0 then [] else
      PropertyIssues(properties, n - 1, value, path) + PropertyIssuesAt(properties.fields[n - 1], value, path)
  }

  /** What the walk reports for one item. */
  function ItemIssuesAt(itemSchema: Json, i: nat, value: Json, path: seq<Segment>): seq<Issue>
    requires itemSchema.Obj? && value.Arr? && i < |value.items|
    decreases value, 0, 0
  {
    Issues(itemSchema, value.items[i], path + [Index(i)])
  }

  function ItemIssues(itemSchema: Json, n: nat, value: Json, path: seq<Segment>): seq<Issue>
    requires itemSchema.Obj? && value.Arr? && n <= |value.items|
    decreases value, 0, n
  {
    if n == 0 then [] else
      ItemIssues(itemSchema, n - 1, value, path) + ItemIssuesAt(itemSchema, n - 1, value, path)
  }

  function ObjectIssues(required: Option<Json>, properties: Option<Json>, additional: Option<Json>,
                        value: Json, path: seq<Segment>): seq<Issue>
    requires value.Obj?
    decreases value, 1
  {
    var keys := StringsOf(required);
    RequiredIssues(keys, |keys|, value, path) +
    (if properties.Some? && properties.value.Obj?
     then PropertyIssues(properties.value, |properties.value.fields|, value, path) else []) +
    (if properties.Some? && properties.value.Obj? && additional == Some(Bool(false))
     then ExtraIssues(properties.value, |value.fields|, value, path) else [])
  }

  function ArrayIssues(items: Option<Json>, value: Json, path: seq<Segment>): seq<Issue>
    requires value.Arr?
    decreases value, 1
  {
    if items.None? then []
    else if items.value.Obj? then ItemIssues(items.value, |value.items|, value, path)
    else [Issue(path, ItemsSchemaNotObject)]
  }

  /** Everything `walk` appends for this schema and value. */
  function Issues(schema: Json, value: Json, path: seq<Segment>): seq<Issue>
    requires schema.Obj?
    decreases value, 2
  {
    var typeIssues := TypeIssues(Get(schema, "type"), value, path);
    var enumIssues := EnumIssues(Get(schema, "enum"), value, path);
    if typeIssues != [] then typeIssues
    else if enumIssues != [] then enumIssues
    else if value.Obj? then
      ObjectIssues(Get(schema, "required"), Get(schema, "properties"), Get(schema, "additionalProperties"), value, path)
    else if value.Arr? then ArrayIssues(Get(schema, "items"), value, path)
    else []
  }

  // ----- the walk itself, appending to one shared list -----

  class ErrorLog {
    var errors: seq<Issue>

    constructor ()
      ensures errors == []
    {
      errors := [];
    }

    method Push(issue: Issue)
      modifies this
      ensures errors == old(errors) + [issue]
    {
      errors := errors + [issue];
    }
  }

  lemma NextItem(before: seq<Issue>, itemSchema: Json, n: nat, value: Json, path: seq<Segment>)
    requires itemSchema.Obj? && value.Arr? && n < |value.items|
    ensures before + ItemIssues(itemSchema, n, value, path) + ItemIssuesAt(itemSchema, n, value, path) ==
            before + ItemIssues(itemSchema, n + 1, value, path)
  {
  }

  lemma NextProperty(before: seq<Issue>, properties: Json, n: nat, value: Json, path: seq<Segment>)
    requires properties.Obj? && value.Obj? && n < |properties.fields|
    ensures before + PropertyIssues(properties, n, value, path) + PropertyIssuesAt(properties.fields[n], value, path) ==
            before + PropertyIssues(properties, n + 1, value, path)
  {
  }

  method Walk(schema: Json, value: Json, path: seq<Segment>, log: ErrorLog)
    requires schema.Obj?
    modifies log
    ensures log.errors == old(log.errors) + Issues(schema, value, path)
    decreases value, 2
  {
    var types := NormalizeTypes(Get(schema, "type"));
    if |types| > 0 && !SomeTypeMatches(types, value) {
      log.Push(Issue(path, WrongType(types, Describe(value))));
      return;
    }
    var allowed := Get(schema, "enum");
    if allowed.Some? && allowed.value.Arr? && |allowed.value.items| > 0 {
      if !SomeEqual(allowed.value.items, value) {
        log.Push(Issue(path, NotInEnum));
        return;
      }
    }
    if value.Obj? {
      WalkObject(Get(schema, "required"), Get(schema, "properties"), Get(schema, "additionalProperties"),
                 value, path, log);
    } else if value.Arr? {
      WalkArray(Get(schema, "items"), value, path, log);
    }
  }

  method WalkObject(required: Option<Json>, properties: Option<Json>, additional: Option<Json>,
                    value: Json, path: seq<Segment>, log: ErrorLog)
    requires value.Obj?
    modifies log
    ensures log.errors == old(log.errors) + ObjectIssues(required, properties, additional, value, path)
    decreases value, 1
  {
    var keys := StringsOf(required);
    for i := 0 to |keys|
      invariant log.errors == old(log.errors) + RequiredIssues(keys, i, value, path)
    {
      if keys[i] !in Keys(value.fields) {
        log.Push(Issue(path + [Key(keys[i])], Required));
      }
    }
    if properties.Some? && properties.value.Obj? {
      WalkProperties(properties.value, value, path, log);
      if additional == Some(Bool(false)) {
        RefuseExtras(properties.value, value, path, log);
      }
    }
  }

  method RefuseExtras(properties: Json, value: Json, path: seq<Segment>, log: ErrorLog)
    requires properties.Obj? && value.Obj?
    modifies log
    ensures log.errors == old(log.errors) + ExtraIssues(properties, |value.fields|, value, path)
  {
    for i := 0 to |value.fields|
      invariant log.errors == old(log.errors) + ExtraIssues(properties, i, value, path)
    {
      if value.fields[i].key !in Keys(properties.fields) {
        log.Push(Issue(path + [Key(value.fields[i].key)], NotAllowed));
      }
    }
  }

  method WalkProperties(properties: Json, value: Json, path: seq<Segment>, log: ErrorLog)
    requires properties.Obj? && value.Obj?
    modifies log
    ensures log.errors == old(log.errors) + PropertyIssues(properties, |properties.fields|, value, path)
    decreases value, 0
  {
    for i := 0 to |properties.fields|
      invariant log.errors == old(log.errors) + PropertyIssues(properties, i, value, path)
    {
      WalkProperty(properties.fields[i], value, path, log);
      NextProperty(old(log.errors), properties, i, value, path);
    }
  }

  method WalkProperty(declared: Field, value: Json, path: seq<Segment>, log: ErrorLog)
    requires value.Obj?
    modifies log
    ensures log.errors == old(log.errors) + PropertyIssuesAt(declared, value, path)
    decreases value, 0, 0
  {
    if declared.key !in Keys(value.fields) {
      return;
    }
    if !declared.value.Obj? {
      log.Push(Issue(path + [Key(declared.key)], PropertySchemaNotObject));
      return;
    }
    Walk(declared.value, Lookup(value.fields, declared.key), path + [Key(declared.key)], log);
  }

  method WalkArray(items: Option<Json>, value: Json, path: seq<Segment>, log: ErrorLog)
    requires value.Arr?
    modifies log
    ensures log.errors == old(log.errors) + ArrayIssues(items, value, path)
    decreases value, 1
  {
    if items.Some? && !items.value.Obj? {
      log.Push(Issue(path, ItemsSchemaNotObject));
      return;
    }
    if items.Some? {
      WalkItems(items.value, value, path, log);
    }
  }

  method WalkItems(items: Json, value: Json, path: seq<Segment>, log: ErrorLog)
    requires items.Obj? && value.Arr?
    modifies log
    ensures log.errors == old(log.errors) + ItemIssues(items, |value.items|, value, path)
    decreases value, 0
  {
    for index := 0 to |value.items|
      invariant log.errors == old(log.errors) + ItemIssues(items, index, value, path)
    {
      Walk(items, value.items[index], path + [Index(index)], log);
      NextItem(old(log.errors), items, index, value, path);
    }
  }

  method ValidateAgainstInputSchema(schema: Json, input: Json) returns (ok: bool, errors: seq<Issue>)
    ensures errors == if schema.Obj? then Issues(schema, input, []) else []
    ensures WellFormed(schema) && WellFormed(input) ==>
              (ok <==> (schema.Obj? ==> Conforms(Meaning(schema), Meaning(input))))
  {
    if !schema.Obj? {
      return true, [];
    }
    var log := new ErrorLog();
    Walk(schema, input, [], log);
    if WellFormed(schema) && WellFormed(input) {
      NoIssuesIffConforms(schema, input, []);
    }
    return |log.errors| == 0, log.errors;
  }

  // ----- the declarative reading -----

  function Entry(v: Value, key: string): (r: Option<Value>) {
    if v.VObj? && key in v.fields then Some(v.fields[key]) else None
  }

  function StringSet(v: Option<Value>): set<string> {
    if v.Some? && v.value.VArr? then
      set i | 0 <= i < |v.value.items| && v.value.items[i].VStr? :: v.value.items[i].s
    else {}
  }

  /** The value is of the named JSON kind; any other name is of no kind. */
  predicate HasType(t: string, v: Value) {
    || (t == "object" && v.VObj?)
    || (t == "array" && v.VArr?)
    || (t == "string" && v.VStr?)
    || (t == "number" && v.VNum?)
    || (t == "integer" && v.VNum? && IntegerLiteral(v.literal))
    || (t == "boolean" && v.VBool?)
    || (t == "null" && v.VNull?)
  }

  /** `type`: the value has the one named type, or one of the listed ones. */
  ghost predicate TypeConforms(declared: Option<Value>, value: Value) {
    var types := if declared.Some? && declared.value.VStr? then {declared.value.s} else StringSet(declared);
    types != {} ==> exists t | t in types :: HasType(t, value)
  }

  /** `enum`: the value equals a listed candidate. */
  ghost predicate EnumConforms(allowed: Option<Value>, value: Value) {
    allowed.Some? && allowed.value.VArr? && allowed.value.items != [] ==> value in allowed.value.items
  }

  /** `required`, `properties` and `additionalProperties: false`. */
  ghost predicate ObjectConforms(required: Option<Value>, properties: Option<Value>, additional: Option<Value>,
                                 value: Value)
    requires value.VObj?
    decreases value, 1
  {
    && StringSet(required) <= value.fields.Keys
    && (properties.Some? && properties.value.VObj? ==>
          && PropertiesConform(properties.value, value)
          && (additional == Some(VBool(false)) ==> value.fields.Keys <= properties.value.fields.Keys))
  }

  ghost predicate PropertiesConform(properties: Value, value: Value)
    requires properties.VObj? && value.VObj?
    decreases value, 0
  {
    forall key | key in value.fields && key in properties.fields ::
      properties.fields[key].VObj? && Conforms(properties.fields[key], value.fields[key])
  }

  /** `items`: an object schema that every element satisfies. */
  ghost predicate ArrayConforms(items: Option<Value>, value: Value)
    requires value.VArr?
    decreases value, 1
  {
    items.Some? ==> items.value.VObj? && forall i | 0 <= i < |value.items| :: Conforms(items.value, value.items[i])
  }

  /** A value satisfies a schema object. */
  ghost predicate Conforms(schema: Value, value: Value)
    requires schema.VObj?
    decreases value, 2
  {
    && TypeConforms(Entry(schema, "type"), value)
    && EnumConforms(Entry(schema, "enum"), value)
    && (value.VObj? ==>
          ObjectConforms(Entry(schema, "required"), Entry(schema, "properties"),
                         Entry(schema, "additionalProperties"), value))
    && (value.VArr? ==> ArrayConforms(Entry(schema, "items"), value))
  }

  // ----- the helpers read the same from syntax and from meaning -----

  function MeaningOf(j: Option<Json>): Option<Value> {
    if j.Some? then Some(Meaning(j.value)) else None
  }

  predicate WellFormedOption(j: Option<Json>) {
    j.Some? ==> WellFormed(j.value)
  }

  lemma GetMeaning(j: Json, key: string)
    requires WellFormed(j)
    ensures Entry(Meaning(j), key) == MeaningOf(Get(j, key))
    ensures WellFormedOption(Get(j, key))
  {
  }

  lemma {:induction false} StringsAre(items: seq<Json>, t: string)
    ensures t in Strings(items) <==> exists i :: 0 <= i < |items| && items[i] == Str(t)
  {
    if items != [] {
      StringsAre(items[1..], t);
      if exists i :: 0 <= i < |items| && items[i] == Str(t) {
        var i :| 0 <= i < |items| && items[i] == Str(t);
        assert i > 0 ==> items[1..][i - 1] == Str(t);
      }
    }
  }

  lemma StringsOfAre(j: Option<Json>, t: string)
    ensures t in StringsOf(j) <==> t in StringSet(MeaningOf(j))
  {
    if j.Some? && j.value.Arr? {
      var items, meanings := j.value.items, Meaning(j.value).items;
      StringsAre(items, t);
      forall i | 0 <= i < |items| ensures items[i] == Str(t) <==> meanings[i] == VStr(t) {
        assert meanings[i] == Meaning(items[i]);
      }
    }
  }

  lemma {:induction false} SomeTypeMeaning(types: seq<string>, j: Json)
    ensures SomeTypeMatches(types, j) <==> exists t | t in types :: HasType(t, Meaning(j))
  {
    if types != [] {
      SomeTypeMeaning(types[1..], j);
      assert MatchesType(ReadType(types[0]), j) <==> HasType(types[0], Meaning(j));
      assert forall t | t in types :: t == types[0] || t in types[1..];
    }
  }

  lemma {:induction false} SomeEqualMeaning(candidates: seq<Json>, j: Json)
    requires WellFormed(j) && forall i | 0 <= i < |candidates| :: WellFormed(candidates[i])
    ensures SomeEqual(candidates, j) <==> exists i :: 0 <= i < |candidates| && Meaning(candidates[i]) == Meaning(j)
  {
    if candidates != [] {
      SomeEqualMeaning(candidates[1..], j);
      DeepEqualIsMeaning(candidates[0], j);
      if i :| 0 <= i < |candidates| && Meaning(candidates[i]) == Meaning(j) {
        assert i > 0 ==> candidates[1..][i - 1] == candidates[i];
      }
    }
  }

  lemma KeysNext(fields: seq<Field>, field: Field)
    ensures Keys(fields + [field]) == Keys(fields) + {field.key}
  {
    var all := fields + [field];
    forall i | 0 <= i < |fields| ensures fields[i].key in Keys(all) {
      assert all[i] == fields[i];
    }
    assert all[|fields|] == field;
  }

  lemma {:induction false} KeyCount(fields: seq<Field>)
    requires DistinctKeys(fields)
    ensures |Keys(fields)| == |fields|
  {
    if fields != [] {
      var front := fields[..|fields| - 1];
      var last := fields[|fields| - 1].key;
      KeyCount(front);
      assert fields == front + [fields[|fields| - 1]];
      KeysNext(front, fields[|fields| - 1]);
      forall i | 0 <= i < |front| ensures front[i].key != last {
        assert front[i] == fields[i];
      }
    }
  }

  lemma SameSizeSubset(a: set<string>, b: set<string>)
    requires a <= b && |a| == |b|
    ensures a == b
  {
    assert |b - a| == |b| - |a|;
  }

  /** deepEqual decides equality up to key order, which is an equivalence relation. */
  lemma {:induction false} DeepEqualIsMeaning(a: Json, b: Json)
    requires WellFormed(a) && WellFormed(b)
    ensures DeepEqual(a, b) <==> Meaning(a) == Meaning(b)
    decreases a
  {
    if a.Arr? && b.Arr? {
      if |a.items| == |b.items| {
        forall i | 0 <= i < |a.items|
          ensures DeepEqual(a.items[i], b.items[i]) <==> Meaning(a.items[i]) == Meaning(b.items[i])
        {
          DeepEqualIsMeaning(a.items[i], b.items[i]);
        }
      }
      ArraysEqual(a.items, b.items);
      assert a == Arr(a.items) && b == Arr(b.items);
    } else if a.Obj? && b.Obj? {
      forall i | 0 <= i < |a.fields| && a.fields[i].key in Keys(b.fields)
        ensures DeepEqual(a.fields[i].value, Lookup(b.fields, a.fields[i].key)) <==>
                Meaning(a.fields[i].value) == Meaning(Lookup(b.fields, a.fields[i].key))
      {
        DeepEqualIsMeaning(a.fields[i].value, Lookup(b.fields, a.fields[i].key));
      }
      ObjectsEqual(a.fields, b.fields);
      assert a == Obj(a.fields) && b == Obj(b.fields);
    } else {
      OthersEqual(a, b);
    }
  }

  lemma OthersEqual(a: Json, b: Json)
    requires !(a.Arr? && b.Arr?) && !(a.Obj? && b.Obj?)
    ensures DeepEqual(a, b) <==> Meaning(a) == Meaning(b)
  {
    match a
    case Arr(_) => assert Meaning(a).VArr? && !Meaning(b).VArr?;
    case Obj(_) => assert Meaning(a).VObj? && !Meaning(b).VObj?;
    case _ =>
  }

  lemma ArraysEqual(xs: seq<Json>, ys: seq<Json>)
    ensures Meaning(Arr(xs)) == Meaning(Arr(ys)) <==>
            |xs| == |ys| && forall i | 0 <= i < |xs| :: Meaning(xs[i]) == Meaning(ys[i])
  {
    var m, n := Meaning(Arr(xs)).items, Meaning(Arr(ys)).items;
    assert |m| == |xs| && |n| == |ys|;
    if |xs| == |ys| {
      assert forall i | 0 <= i < |xs| :: m[i] == Meaning(xs[i]) && n[i] == Meaning(ys[i]);
      if forall i | 0 <= i < |xs| :: Meaning(xs[i]) == Meaning(ys[i]) { assert m == n; }
    }
  }

  lemma ObjectsEqual(fs: seq<Field>, gs: seq<Field>)
    requires DistinctKeys(fs) && DistinctKeys(gs)
    ensures Meaning(Obj(fs)) == Meaning(Obj(gs)) <==>
            |fs| == |gs| && forall i | 0 <= i < |fs| ::
              fs[i].key in Keys(gs) && Meaning(fs[i].value) == Meaning(Lookup(gs, fs[i].key))
  {
    var m, n := Meaning(Obj(fs)).fields, Meaning(Obj(gs)).fields;
    KeyCount(fs);
    KeyCount(gs);
    assert m.Keys == Keys(fs) && n.Keys == Keys(gs);
    forall i | 0 <= i < |fs| ensures fs[i].key in m && m[fs[i].key] == Meaning(fs[i].value) {
      IndexOfDistinct(fs, i);
    }
    var same := |fs| == |gs| && forall i | 0 <= i < |fs| ::
                  fs[i].key in Keys(gs) && Meaning(fs[i].value) == Meaning(Lookup(gs, fs[i].key));
    if same {
      EntriesEqual(fs, gs);
    }
  }

  lemma EntriesEqual(fs: seq<Field>, gs: seq<Field>)
    requires |Keys(fs)| == |Keys(gs)|
    requires forall i | 0 <= i < |fs| ::
               fs[i].key in Keys(gs) && Meaning(fs[i].value) == Meaning(Lookup(gs, fs[i].key))
    ensures Meaning(Obj(fs)) == Meaning(Obj(gs))
  {
    assert forall key | key in Keys(fs) :: fs[IndexOf(fs, key)].key == key;
    SameSizeSubset(Keys(fs), Keys(gs));
  }

  // ----- no issue exactly when the value conforms -----

  lemma TypeAgrees(declared: Option<Json>, value: Json, path: seq<Segment>)
    ensures TypeIssues(declared, value, path) == [] <==> TypeConforms(MeaningOf(declared), Meaning(value))
  {
    var types := NormalizeTypes(declared);
    forall t ensures t in StringsOf(declared) <==> t in StringSet(MeaningOf(declared)) {
      StringsOfAre(declared, t);
    }
    assert |types| > 0 ==> types[0] in types;
    SomeTypeMeaning(types, value);
  }

  lemma EnumAgrees(allowed: Option<Json>, value: Json, path: seq<Segment>)
    requires WellFormedOption(allowed) && WellFormed(value)
    ensures EnumIssues(allowed, value, path) == [] <==> EnumConforms(MeaningOf(allowed), Meaning(value))
  {
    if allowed.Some? && allowed.value.Arr? {
      SomeEqualMeaning(allowed.value.items, value);
      assert forall i | 0 <= i < |allowed.value.items| ::
          Meaning(allowed.value).items[i] == Meaning(allowed.value.items[i]);
    }
  }

  lemma {:induction false} RequiredAgrees(keys: seq<string>, n: nat, value: Json, path: seq<Segment>)
    requires value.Obj? && n <= |keys|
    ensures RequiredIssues(keys, n, value, path) == [] <==> forall i | 0 <= i < n :: keys[i] in Keys(value.fields)
  {
    if n > 0 { RequiredAgrees(keys, n - 1, value, path); }
  }

  lemma {:induction false} ExtraAgrees(properties: Json, n: nat, value: Json, path: seq<Segment>)
    requires properties.Obj? && value.Obj? && n <= |value.fields|
    ensures ExtraIssues(properties, n, value, path) == [] <==>
            forall i | 0 <= i < n :: value.fields[i].key in Keys(properties.fields)
  {
    if n > 0 { ExtraAgrees(properties, n - 1, value, path); }
  }

  lemma {:induction false} NoPropertyIssues(properties: Json, n: nat, value: Json, path: seq<Segment>)
    requires properties.Obj? && value.Obj? && n <= |properties.fields|
    ensures PropertyIssues(properties, n, value, path) == [] <==>
            forall i | 0 <= i < n :: PropertyIssuesAt(properties.fields[i], value, path) == []
  {
    if n > 0 {
      NoPropertyIssues(properties, n - 1, value, path);
      var last := PropertyIssuesAt(properties.fields[n - 1], value, path);
      assert PropertyIssues(properties, n, value, path) == PropertyIssues(properties, n - 1, value, path) + last;
    }
  }

  lemma NoIssueInBoth(itemSchema: Json, n: nat, value: Json, path: seq<Segment>)
    requires itemSchema.Obj? && value.Arr? && n < |value.items|
    ensures ItemIssues(itemSchema, n + 1, value, path) == [] <==>
            ItemIssues(itemSchema, n, value, path) == [] && Issues(itemSchema, value.items[n], path + [Index(n)]) == []
  {
    NextItem([], itemSchema, n, value, path);
    EmptyParts(ItemIssues(itemSchema, n, value, path), ItemIssuesAt(itemSchema, n, value, path), []);
  }

  /** The list holds the issues of each item, */
  lemma {:induction false} ItemIssuesHold(itemSchema: Json, n: nat, value: Json, path: seq<Segment>, i: nat)
    requires itemSchema.Obj? && value.Arr? && i < n <= |value.items| && ItemIssues(itemSchema, n, value, path) == []
    ensures Issues(itemSchema, value.items[i], path + [Index(i)]) == []
  {
    NoIssueInBoth(itemSchema, n - 1, value, path);
    if i < n - 1 { ItemIssuesHold(itemSchema, n - 1, value, path, i); }
  }

  /** and no others. */
  lemma {:induction false} ItemWithIssue(itemSchema: Json, n: nat, value: Json, path: seq<Segment>) returns (i: nat)
    requires itemSchema.Obj? && value.Arr? && n <= |value.items| && ItemIssues(itemSchema, n, value, path) != []
    ensures i < n && Issues(itemSchema, value.items[i], path + [Index(i)]) != []
  {
    NoIssueInBoth(itemSchema, n - 1, value, path);
    i := n - 1;
    if ItemIssues(itemSchema, n - 1, value, path) != [] { i := ItemWithIssue(itemSchema, n - 1, value, path); }
  }

  lemma NoItemIssues(itemSchema: Json, value: Json, path: seq<Segment>)
    requires itemSchema.Obj? && value.Arr?
    ensures ItemIssues(itemSchema, |value.items|, value, path) == [] <==>
            forall i | 0 <= i < |value.items| :: Issues(itemSchema, value.items[i], path + [Index(i)]) == []
  {
    if ItemIssues(itemSchema, |value.items|, value, path) == [] {
      forall i | 0 <= i < |value.items| ensures Issues(itemSchema, value.items[i], path + [Index(i)]) == [] {
        ItemIssuesHold(itemSchema, |value.items|, value, path, i);
      }
    } else {
      var i := ItemWithIssue(itemSchema, |value.items|, value, path);
    }
  }

  /** One declared property, when the value has it, has an object schema that it satisfies. */
  ghost predicate PropertyConforms(declared: Field, value: Json)
    requires value.Obj?
  {
    declared.key in Keys(value.fields) ==>
      declared.value.Obj? && Conforms(Meaning(declared.value), Meaning(Lookup(value.fields, declared.key)))
  }

  lemma PropertiesByMeaning(properties: Json, value: Json)
    requires properties.Obj? && value.Obj? && WellFormed(properties) && WellFormed(value)
    ensures PropertiesConform(Meaning(properties), Meaning(value)) <==>
            forall i | 0 <= i < |properties.fields| :: PropertyConforms(properties.fields[i], value)
  {
    var m, p := Meaning(value), Meaning(properties);
    if PropertiesConform(p, m) {
      forall i | 0 <= i < |properties.fields| ensures PropertyConforms(properties.fields[i], value) {
        IndexOfDistinct(properties.fields, i);
        var key := properties.fields[i].key;
        assert p.fields[key] == Meaning(properties.fields[i].value);
        if key in Keys(value.fields) {
          assert m.fields[key] == Meaning(Lookup(value.fields, key));
          assert Conforms(p.fields[key], m.fields[key]);
        }
      }
    }
    if forall i | 0 <= i < |properties.fields| :: PropertyConforms(properties.fields[i], value) {
      forall key | key in m.fields && key in p.fields
        ensures p.fields[key].VObj? && Conforms(p.fields[key], m.fields[key])
      {
        assert PropertyConforms(properties.fields[IndexOf(properties.fields, key)], value);
      }
    }
  }

  lemma {:induction false} PropertiesAgree(properties: Json, value: Json, path: seq<Segment>)
    requires properties.Obj? && value.Obj? && WellFormed(properties) && WellFormed(value)
    ensures PropertyIssues(properties, |properties.fields|, value, path) == [] <==>
            PropertiesConform(Meaning(properties), Meaning(value))
    decreases value, 0
  {
    NoPropertyIssues(properties, |properties.fields|, value, path);
    PropertiesByMeaning(properties, value);
    forall i | 0 <= i < |properties.fields|
      ensures PropertyIssuesAt(properties.fields[i], value, path) == [] <==>
              PropertyConforms(properties.fields[i], value)
    {
      var declared := properties.fields[i];
      if declared.key in Keys(value.fields) && declared.value.Obj? {
        NoIssuesIffConforms(declared.value, Lookup(value.fields, declared.key), path + [Key(declared.key)]);
      }
    }
  }

  lemma {:induction false} ObjectAgrees(required: Option<Json>, properties: Option<Json>, additional: Option<Json>,
                                        value: Json, path: seq<Segment>)
    requires value.Obj? && WellFormed(value) && WellFormedOption(properties)
    ensures ObjectIssues(required, properties, additional, value, path) == [] <==>
            ObjectConforms(MeaningOf(required), MeaningOf(properties), MeaningOf(additional), Meaning(value))
    decreases value, 1
  {
    var keys := StringsOf(required);
    var missing := RequiredIssues(keys, |keys|, value, path);
    if properties.Some? && properties.value.Obj? {
      var declared := properties.value;
      var wrong := PropertyIssues(declared, |declared.fields|, value, path);
      var extra := if additional == Some(Bool(false)) then ExtraIssues(declared, |value.fields|, value, path) else [];
      assert ObjectIssues(required, properties, additional, value, path) == missing + wrong + extra;
      EmptyParts(missing, wrong, extra);
      PropertiesAgree(declared, value, path);
      ExtraKeysAgree(declared, value, path);
    } else {
      EmptyParts(missing, [], []);
    }
    RequiredKeysAgree(required, value, path);
  }

  lemma EmptyParts(a: seq<Issue>, b: seq<Issue>, c: seq<Issue>)
    ensures a + b + c == [] <==> a == [] && b == [] && c == []
  {
    assert |a + b + c| == |a| + |b| + |c|;
  }

  lemma RequiredKeysAgree(required: Option<Json>, value: Json, path: seq<Segment>)
    requires value.Obj?
    ensures var keys := StringsOf(required);
            RequiredIssues(keys, |keys|, value, path) == [] <==>
            StringSet(MeaningOf(required)) <= Meaning(value).fields.Keys
  {
    var keys := StringsOf(required);
    RequiredAgrees(keys, |keys|, value, path);
    forall t ensures t in keys <==> t in StringSet(MeaningOf(required)) {
      StringsOfAre(required, t);
    }
    assert Meaning(value).fields.Keys == Keys(value.fields);
  }

  lemma ExtraKeysAgree(properties: Json, value: Json, path: seq<Segment>)
    requires properties.Obj? && value.Obj?
    ensures ExtraIssues(properties, |value.fields|, value, path) == [] <==>
            Meaning(value).fields.Keys <= Meaning(properties).fields.Keys
  {
    ExtraAgrees(properties, |value.fields|, value, path);
    assert Meaning(value).fields.Keys == Keys(value.fields);
    assert Meaning(properties).fields.Keys == Keys(properties.fields);
  }

  /** At every depth: the walk reports nothing exactly when the value satisfies the schema. */
  lemma {:induction false} NoIssuesIffConforms(schema: Json, value: Json, path: seq<Segment>)
    requires schema.Obj? && WellFormed(schema) && WellFormed(value)
    ensures Issues(schema, value, path) == [] <==> Conforms(Meaning(schema), Meaning(value))
    decreases value, 2
  {
    var declared, allowed, items := Get(schema, "type"), Get(schema, "enum"), Get(schema, "items");
    GetMeaning(schema, "type");
    GetMeaning(schema, "enum");
    TypeAgrees(declared, value, path);
    EnumAgrees(allowed, value, path);
    if value.Obj? {
      GetMeaning(schema, "required");
      GetMeaning(schema, "properties");
      GetMeaning(schema, "additionalProperties");
      ObjectAgrees(Get(schema, "required"), Get(schema, "properties"), Get(schema, "additionalProperties"), value,
                   path);
    } else if value.Arr? {
      GetMeaning(schema, "items");
      ArrayAgrees(items, value, path);
    }
  }

  lemma {:induction false} ArrayAgrees(items: Option<Json>, value: Json, path: seq<Segment>)
    requires value.Arr? && WellFormed(value) && WellFormedOption(items)
    ensures ArrayIssues(items, value, path) == [] <==> ArrayConforms(MeaningOf(items), Meaning(value))
    decreases value, 1
  {
    if items.Some? && items.value.Obj? {
      NoItemIssues(items.value, value, path);
      forall i | 0 <= i < |value.items|
        ensures Issues(items.value, value.items[i], path + [Index(i)]) == [] <==>
                Conforms(Meaning(items.value), Meaning(value).items[i])
      {
        NoIssuesIffConforms(items.value, value.items[i], path + [Index(i)]);
      }
    }
  }

  /** Reordering keys in the schema or in the value never changes the verdict. */
  lemma VerdictIgnoresKeyOrder(schema: Json, other: Json, value: Json, otherValue: Json)
    requires schema.Obj? && other.Obj? && WellFormed(schema) && WellFormed(other)
    requires WellFormed(value) && WellFormed(otherValue)
    requires Meaning(schema) == Meaning(other) && Meaning(value) == Meaning(otherValue)
    ensures Issues(schema, value, []) == [] <==> Issues(other, otherValue, []) == []
  {
    NoIssuesIffConforms(schema, value, []);
    NoIssuesIffConforms(other, otherValue, []);
  }
}
