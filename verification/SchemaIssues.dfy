/** What a message of the validator says: which ones there are, for every schema and value. */
module SchemaIssues {
  import opened Basics
  import opened JsonValues
  import opened SchemaValidate

  // ----- what is wrong where -----

  /** The type names that the schema declares. */
  ghost predicate Declares(schema: Json, name: string) {
    match Get(schema, "type")
    case Some(Str(s)) => name == s
    case Some(Arr(items)) => Str(name) in items
    case _ => false
  }

  ghost predicate WrongKind(schema: Json, value: Json) {
    (exists name :: Declares(schema, name)) && forall name | Declares(schema, name) :: !HasType(name, Meaning(value))
  }

  ghost predicate Unlisted(schema: Json, value: Json) {
    match Get(schema, "enum")
    case Some(Arr(items)) => items != [] && forall item | item in items :: Meaning(item) != Meaning(value)
    case _ => false
  }

  ghost predicate Requires(schema: Json, key: string) {
    match Get(schema, "required")
    case Some(Arr(items)) => Str(key) in items
    case _ => false
  }

  /** The schema of a declared property, whatever it is. */
  ghost function PropertyOf(schema: Json, key: string): Option<Json> {
    match Get(schema, "properties")
    case Some(Obj(fields)) => Get(Obj(fields), key)
    case _ => None
  }

  ghost predicate RefusesOthers(schema: Json) {
    Get(schema, "additionalProperties") == Some(Bool(false)) &&
    Get(schema, "properties").Some? && Get(schema, "properties").value.Obj?
  }

  ghost predicate IsKind(kind: TypeName, value: Json) {
    match kind
    case ObjectT => value.Obj?
    case ArrayT => value.Arr?
    case NullT => value.Null?
    case StringT => value.Str?
    case NumberT => value.Num?
    case BooleanT => value.Bool?
    case _ => false
  }

  /** A fault of the value itself. */
  ghost predicate FaultHere(schema: Json, value: Json, fault: Fault) {
    match fault
    case WrongType(expected, got) =>
      WrongKind(schema, value) && IsKind(got, value) && expected == NormalizeTypes(Get(schema, "type"))
    case NotInEnum => !WrongKind(schema, value) && Unlisted(schema, value)
    case ItemsSchemaNotObject =>
      && !WrongKind(schema, value) && !Unlisted(schema, value)
      && value.Arr? && Get(schema, "items").Some? && !Get(schema, "items").value.Obj?
    case _ => false
  }

  /** A fault of one key of the value: a required one is missing, one is not allowed, or its schema is none. */
  ghost predicate FaultAtKey(schema: Json, value: Json, key: string, fault: Fault) {
    match fault
    case Required => Requires(schema, key) && Get(value, key) == None
    case NotAllowed => RefusesOthers(schema) && Get(value, key).Some? && PropertyOf(schema, key) == None
    case PropertySchemaNotObject =>
      Get(value, key).Some? && PropertyOf(schema, key).Some? && !PropertyOf(schema, key).value.Obj?
    case _ => false
  }

  /** There is this fault at the end of this way into the value. Nothing is wrong inside a value that is
      wrong itself. */
  ghost predicate FaultAt(schema: Json, value: Json, way: seq<Segment>, fault: Fault)
    decreases value, 1
  {
    if way == [] then FaultHere(schema, value, fault)
    else if WrongKind(schema, value) || Unlisted(schema, value) then false
    else if way[0].Key? then
      value.Obj? && ((|way| == 1 && FaultAtKey(schema, value, way[0].key, fault)) ||
                     FaultInKey(schema, value, way[0].key, way[1..], fault))
    else value.Arr? && FaultInItem(schema, value, way[0].index, way[1..], fault)
  }

  ghost predicate FaultInKey(schema: Json, value: Json, key: string, way: seq<Segment>, fault: Fault)
    requires value.Obj?
    decreases value, 0
  {
    var declared, child := PropertyOf(schema, key), Get(value, key);
    declared.Some? && declared.value.Obj? && child.Some? && FaultAt(declared.value, child.value, way, fault)
  }

  ghost predicate FaultInItem(schema: Json, value: Json, i: nat, way: seq<Segment>, fault: Fault)
    requires value.Arr?
    decreases value, 0
  {
    var items := Get(schema, "items");
    items.Some? && items.value.Obj? && i < |value.items| && FaultAt(items.value, value.items[i], way, fault)
  }

  // ----- the walk's helpers say the same -----

  lemma DeclaredNames(schema: Json, name: string)
    ensures name in NormalizeTypes(Get(schema, "type")) <==> Declares(schema, name)
  {
    var declared := Get(schema, "type");
    if declared.Some? && declared.value.Arr? { StringsAre(declared.value.items, name); }
  }

  lemma WrongKindIff(schema: Json, value: Json)
    ensures var types := NormalizeTypes(Get(schema, "type"));
            |types| > 0 && !SomeTypeMatches(types, value) <==> WrongKind(schema, value)
  {
    var types := NormalizeTypes(Get(schema, "type"));
    forall name ensures name in types <==> Declares(schema, name) {
      DeclaredNames(schema, name);
    }
    SomeTypeMeaning(types, value);
    if types != [] { assert types[0] in types; }
  }

  lemma UnlistedIff(schema: Json, value: Json)
    requires WellFormed(schema) && WellFormed(value)
    ensures var allowed := Get(schema, "enum");
            Unlisted(schema, value) <==>
            && allowed.Some? && allowed.value.Arr? && |allowed.value.items| > 0
            && !SomeEqual(allowed.value.items, value)
  {
    GetMeaning(schema, "enum");
    var allowed := Get(schema, "enum");
    if allowed.Some? && allowed.value.Arr? { SomeEqualMeaning(allowed.value.items, value); }
  }

  lemma RequiredKeys(schema: Json, key: string)
    ensures key in StringsOf(Get(schema, "required")) <==> Requires(schema, key)
  {
    var required := Get(schema, "required");
    if required.Some? && required.value.Arr? { StringsAre(required.value.items, key); }
  }

  // ----- which messages the lists hold -----

  lemma {:induction false} InRequired(keys: seq<string>, n: nat, value: Json, path: seq<Segment>, issue: Issue)
    requires value.Obj? && n <= |keys|
    ensures issue in RequiredIssues(keys, n, value, path) <==>
            exists i :: 0 <= i < n && keys[i] !in Keys(value.fields) &&
                        issue == Issue(path + [Key(keys[i])], Required)
  {
    if n > 0 { InRequired(keys, n - 1, value, path, issue); }
  }

  lemma {:induction false} InExtra(properties: Json, n: nat, value: Json, path: seq<Segment>, issue: Issue)
    requires properties.Obj? && value.Obj? && n <= |value.fields|
    ensures issue in ExtraIssues(properties, n, value, path) <==>
            exists i :: 0 <= i < n && value.fields[i].key !in Keys(properties.fields) &&
                        issue == Issue(path + [Key(value.fields[i].key)], NotAllowed)
  {
    if n > 0 { InExtra(properties, n - 1, value, path, issue); }
  }

  lemma {:induction false} InProperties(properties: Json, n: nat, value: Json, path: seq<Segment>, issue: Issue)
    requires properties.Obj? && value.Obj? && n <= |properties.fields|
    ensures issue in PropertyIssues(properties, n, value, path) <==>
            exists i :: 0 <= i < n && issue in PropertyIssuesAt(properties.fields[i], value, path)
  {
    if n > 0 { InProperties(properties, n - 1, value, path, issue); }
  }

  ghost predicate SomeItem(itemSchema: Json, n: nat, value: Json, path: seq<Segment>, issue: Issue)
    requires itemSchema.Obj? && value.Arr? && n <= |value.items|
  {
    exists i: nat :: i < n && issue in ItemIssuesAt(itemSchema, i, value, path)
  }

  lemma SomeItemNext(itemSchema: Json, n: nat, value: Json, path: seq<Segment>, issue: Issue)
    requires itemSchema.Obj? && value.Arr? && n < |value.items|
    ensures SomeItem(itemSchema, n + 1, value, path, issue) <==>
            SomeItem(itemSchema, n, value, path, issue) || issue in ItemIssuesAt(itemSchema, n, value, path)
  {
    if issue in ItemIssuesAt(itemSchema, n, value, path) { assert n < n + 1; }
  }

  lemma {:induction false} InItems(itemSchema: Json, n: nat, value: Json, path: seq<Segment>, issue: Issue)
    requires itemSchema.Obj? && value.Arr? && n <= |value.items|
    ensures issue in ItemIssues(itemSchema, n, value, path) <==> SomeItem(itemSchema, n, value, path, issue)
  {
    if n > 0 {
      InItems(itemSchema, n - 1, value, path, issue);
      SomeItemNext(itemSchema, n - 1, value, path, issue);
      NextItem([], itemSchema, n - 1, value, path);
      InBoth(issue, ItemIssues(itemSchema, n - 1, value, path), ItemIssuesAt(itemSchema, n - 1, value, path));
    }
  }

  lemma InBoth(issue: Issue, a: seq<Issue>, b: seq<Issue>)
    ensures issue in [] + a + b <==> issue in a || issue in b
  {
  }

  /** The way of a message that lies behind one more segment. */
  lemma WayBehind(path: seq<Segment>, segment: Segment, way: seq<Segment>)
    ensures path + [segment] <= way <==> path < way && way[|path|] == segment
    ensures path < way ==> way[|path|..][0] == way[|path|] && way[|path|..][1..] == way[|path| + 1..]
  {
  }

  /** The message is of the list exactly when there is its fault behind the path. */
  ghost predicate Says(schema: Json, value: Json, path: seq<Segment>, issue: Issue) {
    path <= issue.path && FaultAt(schema, value, issue.path[|path|..], issue.fault)
  }

  lemma TypeSays(schema: Json, value: Json, path: seq<Segment>, issue: Issue)
    requires schema.Obj? && WrongKind(schema, value)
    ensures issue in Issues(schema, value, path) <==> Says(schema, value, path, issue)
  {
    WrongKindIff(schema, value);
    if issue.path == path { assert issue.path[|path|..] == []; }
    if path <= issue.path && issue.path[|path|..] == [] { assert issue.path == path; }
  }

  lemma EnumSays(schema: Json, value: Json, path: seq<Segment>, issue: Issue)
    requires schema.Obj? && WellFormed(schema) && WellFormed(value)
    requires !WrongKind(schema, value) && Unlisted(schema, value)
    ensures issue in Issues(schema, value, path) <==> Says(schema, value, path, issue)
  {
    WrongKindIff(schema, value);
    UnlistedIff(schema, value);
    if issue.path == path { assert issue.path[|path|..] == []; }
    if path <= issue.path && issue.path[|path|..] == [] { assert issue.path == path; }
  }

  // ----- the messages of an object and of an array -----

  /** A declared property is the only one of its key. */
  lemma PropertyAt(schema: Json, properties: Json, i: nat)
    requires WellFormed(properties) && properties.Obj? && Get(schema, "properties") == Some(properties)
    requires i < |properties.fields|
    ensures PropertyOf(schema, properties.fields[i].key) == Some(properties.fields[i].value)
  {
    IndexOfDistinct(properties.fields, i);
  }

  lemma PropertyIsThere(schema: Json, key: string) returns (i: nat)
    requires PropertyOf(schema, key).Some?
    ensures var properties := Get(schema, "properties");
            properties.Some? && properties.value.Obj? && i < |properties.value.fields| &&
              properties.value.fields[i] == Field(key, PropertyOf(schema, key).value)
  {
    i := IndexOf(Get(schema, "properties").value.fields, key);
  }

  /** The message is about a fault of this key. */
  ghost predicate KeyFault(schema: Json, value: Json, path: seq<Segment>, issue: Issue, key: string) {
    issue.path == path + [Key(key)] && FaultAtKey(schema, value, key, issue.fault)
  }

  /** The message is about a fault behind this key. */
  ghost predicate BehindKey(schema: Json, value: Json, path: seq<Segment>, issue: Issue, key: string)
    requires value.Obj?
  {
    path + [Key(key)] <= issue.path && FaultInKey(schema, value, key, issue.path[|path| + 1..], issue.fault)
  }

  lemma RequiredSays(schema: Json, value: Json, path: seq<Segment>, issue: Issue)
    requires value.Obj?
    ensures var keys := StringsOf(Get(schema, "required"));
            issue in RequiredIssues(keys, |keys|, value, path) <==>
            issue.fault == Required && SomeKeyFault(schema, value, path, issue)
  {
    var keys := StringsOf(Get(schema, "required"));
    InRequired(keys, |keys|, value, path, issue);
    forall key ensures key in keys <==> Requires(schema, key) {
      RequiredKeys(schema, key);
    }
    if i :| 0 <= i < |keys| && keys[i] !in Keys(value.fields) && issue == Issue(path + [Key(keys[i])], Required) {
      assert KeyFault(schema, value, path, issue, keys[i]);
    }
    if key :| KeyFault(schema, value, path, issue, key) && issue.fault == Required {
      var i :| 0 <= i < |keys| && keys[i] == key;
    }
  }

  lemma ExtraSays(schema: Json, value: Json, path: seq<Segment>, issue: Issue)
    requires value.Obj? && RefusesOthers(schema)
    ensures issue in ExtraIssues(Get(schema, "properties").value, |value.fields|, value, path) <==>
            issue.fault == NotAllowed && SomeKeyFault(schema, value, path, issue)
  {
    var properties := Get(schema, "properties").value;
    InExtra(properties, |value.fields|, value, path, issue);
    if i :| 0 <= i < |value.fields| && value.fields[i].key !in Keys(properties.fields) &&
            issue == Issue(path + [Key(value.fields[i].key)], NotAllowed) {
      assert KeyFault(schema, value, path, issue, value.fields[i].key);
    }
    if key :| KeyFault(schema, value, path, issue, key) && issue.fault == NotAllowed {
      var i := IndexOf(value.fields, key);
      assert value.fields[i].key !in Keys(properties.fields);
    }
  }

  /** A message about a declared property: its schema is none, or there is a fault behind its key. */
  ghost predicate PropertySays(schema: Json, value: Json, path: seq<Segment>, issue: Issue, key: string)
    requires value.Obj?
  {
    || (issue.fault == PropertySchemaNotObject && KeyFault(schema, value, path, issue, key))
    || BehindKey(schema, value, path, issue, key)
  }

  /** A property of the value with an object schema. */
  lemma {:induction false} ChildSays(schema: Json, value: Json, path: seq<Segment>, issue: Issue, key: string,
                                     declared: Json)
    requires value.Obj? && WellFormed(declared) && WellFormed(value) && declared.Obj? && key in Keys(value.fields)
    requires PropertyOf(schema, key) == Some(declared)
    ensures issue in Issues(declared, Lookup(value.fields, key), path + [Key(key)]) <==>
            BehindKey(schema, value, path, issue, key)
    decreases value, 0
  {
    GetMeaning(value, key);
    IssuesAre(declared, Lookup(value.fields, key), path + [Key(key)], issue);
    assert |path + [Key(key)]| == |path| + 1;
  }

  lemma {:induction false} PropertyAtSays(schema: Json, value: Json, path: seq<Segment>, issue: Issue, declared: Field)
    requires value.Obj? && WellFormed(declared.value) && WellFormed(value)
    requires PropertyOf(schema, declared.key) == Some(declared.value)
    ensures issue in PropertyIssuesAt(declared, value, path) <==> PropertySays(schema, value, path, issue, declared.key)
    decreases value, 1
  {
    if declared.key in Keys(value.fields) && declared.value.Obj? {
      ChildSays(schema, value, path, issue, declared.key, declared.value);
    }
  }

  lemma {:induction false} PropertiesSay(schema: Json, value: Json, path: seq<Segment>, issue: Issue)
    requires value.Obj? && WellFormed(schema) && WellFormed(value)
    requires Get(schema, "properties").Some? && Get(schema, "properties").value.Obj?
    ensures var properties := Get(schema, "properties").value;
            issue in PropertyIssues(properties, |properties.fields|, value, path) <==>
            SomePropertySays(schema, value, path, issue)
    decreases value, 2
  {
    var properties := Get(schema, "properties").value;
    GetMeaning(schema, "properties");
    InProperties(properties, |properties.fields|, value, path, issue);
    forall i: nat | i < |properties.fields|
      ensures issue in PropertyIssuesAt(properties.fields[i], value, path) <==>
              PropertySays(schema, value, path, issue, properties.fields[i].key)
    {
      PropertyAt(schema, properties, i);
      PropertyAtSays(schema, value, path, issue, properties.fields[i]);
    }
    if key :| PropertySays(schema, value, path, issue, key) {
      var i := PropertyIsThere(schema, key);
    }
  }

  /** Which parts of the walk a value gets to when it is of a declared type and listed. */
  lemma Fits(schema: Json, value: Json, path: seq<Segment>)
    requires schema.Obj? && WellFormed(schema) && WellFormed(value)
    requires !WrongKind(schema, value) && !Unlisted(schema, value)
    ensures Issues(schema, value, path) ==
            if value.Obj? then
              ObjectIssues(Get(schema, "required"), Get(schema, "properties"), Get(schema, "additionalProperties"),
                           value, path)
            else if value.Arr? then ArrayIssues(Get(schema, "items"), value, path)
            else []
  {
    WrongKindIff(schema, value);
    UnlistedIff(schema, value);
  }

  lemma BelowObject(schema: Json, value: Json, way: seq<Segment>, fault: Fault)
    requires value.Obj? && !WrongKind(schema, value) && !Unlisted(schema, value)
    ensures FaultAt(schema, value, way, fault) <==>
            way != [] && way[0].Key? &&
            ((|way| == 1 && FaultAtKey(schema, value, way[0].key, fault)) ||
             FaultInKey(schema, value, way[0].key, way[1..], fault))
  {
  }

  lemma BelowArray(schema: Json, value: Json, way: seq<Segment>, fault: Fault)
    requires value.Arr? && !WrongKind(schema, value) && !Unlisted(schema, value)
    ensures FaultAt(schema, value, way, fault) <==>
            if way == [] then
              fault.ItemsSchemaNotObject? && Get(schema, "items").Some? && !Get(schema, "items").value.Obj?
            else way[0].Index? && FaultInItem(schema, value, way[0].index, way[1..], fault)
  {
  }

  lemma OtherSays(schema: Json, value: Json, path: seq<Segment>, issue: Issue)
    requires schema.Obj? && WellFormed(schema) && WellFormed(value)
    requires !WrongKind(schema, value) && !Unlisted(schema, value) && !value.Obj? && !value.Arr?
    ensures issue in Issues(schema, value, path) <==> Says(schema, value, path, issue)
  {
    Fits(schema, value, path);
  }

  lemma KeySaysIff(schema: Json, value: Json, path: seq<Segment>, issue: Issue)
    requires value.Obj? && !WrongKind(schema, value) && !Unlisted(schema, value)
    ensures Says(schema, value, path, issue) <==>
            AboutKey(schema, value, path, issue)
  {
    if path <= issue.path {
      var way := issue.path[|path|..];
      BelowObject(schema, value, way, issue.fault);
      if way != [] && way[0].Key? {
        WayBehind(path, way[0], issue.path);
        assert |way| == 1 <==> issue.path == path + [way[0]];
        assert KeyFault(schema, value, path, issue, way[0].key) || BehindKey(schema, value, path, issue, way[0].key) ||
               !Says(schema, value, path, issue);
      }
    }
    if key :| KeyFault(schema, value, path, issue, key) || BehindKey(schema, value, path, issue, key) {
      WayBehind(path, Key(key), issue.path);
    }
  }

  lemma InThree(issue: Issue, a: seq<Issue>, b: seq<Issue>, c: seq<Issue>)
    ensures issue in a + b + c <==> issue in a || issue in b || issue in c
  {
  }

  lemma InObject(schema: Json, value: Json, path: seq<Segment>, issue: Issue)
    requires value.Obj?
    ensures var keys, properties := StringsOf(Get(schema, "required")), Get(schema, "properties");
            issue in ObjectIssues(Get(schema, "required"), properties, Get(schema, "additionalProperties"), value, path)
            <==>
            || issue in RequiredIssues(keys, |keys|, value, path)
            || (properties.Some? && properties.value.Obj? &&
                issue in PropertyIssues(properties.value, |properties.value.fields|, value, path))
            || (RefusesOthers(schema) && issue in ExtraIssues(properties.value, |value.fields|, value, path))
  {
    var keys, properties := StringsOf(Get(schema, "required")), Get(schema, "properties");
    InThree(issue, RequiredIssues(keys, |keys|, value, path),
            if properties.Some? && properties.value.Obj?
            then PropertyIssues(properties.value, |properties.value.fields|, value, path) else [],
            if RefusesOthers(schema) then ExtraIssues(properties.value, |value.fields|, value, path) else []);
  }

  /** Some key of the value is what the message is about. */
  ghost predicate AboutKey(schema: Json, value: Json, path: seq<Segment>, issue: Issue)
    requires value.Obj?
  {
    exists key :: KeyFault(schema, value, path, issue, key) || BehindKey(schema, value, path, issue, key)
  }

  ghost predicate SomeKeyFault(schema: Json, value: Json, path: seq<Segment>, issue: Issue) {
    exists key :: KeyFault(schema, value, path, issue, key)
  }

  ghost predicate SomePropertySays(schema: Json, value: Json, path: seq<Segment>, issue: Issue)
    requires value.Obj?
  {
    exists key :: PropertySays(schema, value, path, issue, key)
  }

  lemma AboutKeyIff(schema: Json, value: Json, path: seq<Segment>, issue: Issue)
    requires value.Obj?
    ensures AboutKey(schema, value, path, issue) <==>
            || (issue.fault == Required && SomeKeyFault(schema, value, path, issue))
            || SomePropertySays(schema, value, path, issue)
            || (issue.fault == NotAllowed && SomeKeyFault(schema, value, path, issue))
  {
    forall key
      ensures KeyFault(schema, value, path, issue, key) ==>
                AboutKey(schema, value, path, issue) &&
                issue.fault in {Required, NotAllowed, PropertySchemaNotObject}
      ensures BehindKey(schema, value, path, issue, key) ==> PropertySays(schema, value, path, issue, key)
      ensures PropertySays(schema, value, path, issue, key) ==> AboutKey(schema, value, path, issue)
    {
    }
    if AboutKey(schema, value, path, issue) {
      var key :| KeyFault(schema, value, path, issue, key) || BehindKey(schema, value, path, issue, key);
      if issue.fault == PropertySchemaNotObject { assert PropertySays(schema, value, path, issue, key); }
    }
  }

  /** Without declared properties nothing is said about them, and no key is refused. */
  lemma NoProperties(schema: Json, value: Json, path: seq<Segment>, issue: Issue)
    requires value.Obj?
    ensures !(Get(schema, "properties").Some? && Get(schema, "properties").value.Obj?) ==>
              !RefusesOthers(schema) && !SomePropertySays(schema, value, path, issue)
    ensures !RefusesOthers(schema) ==> !(issue.fault == NotAllowed && SomeKeyFault(schema, value, path, issue))
  {
  }

  lemma {:induction false} KeysSay(schema: Json, value: Json, path: seq<Segment>, issue: Issue)
    requires WellFormed(schema) && WellFormed(value) && value.Obj?
    ensures issue in ObjectIssues(Get(schema, "required"), Get(schema, "properties"),
                                  Get(schema, "additionalProperties"), value, path) <==>
            AboutKey(schema, value, path, issue)
    decreases value, 3
  {
    var properties := Get(schema, "properties");
    InObject(schema, value, path, issue);
    RequiredSays(schema, value, path, issue);
    if properties.Some? && properties.value.Obj? { PropertiesSay(schema, value, path, issue); }
    if RefusesOthers(schema) { ExtraSays(schema, value, path, issue); }
    AboutKeyIff(schema, value, path, issue);
    NoProperties(schema, value, path, issue);
  }

  lemma ItemSays(schema: Json, value: Json, path: seq<Segment>, issue: Issue, items: Json)
    requires value.Arr? && Get(schema, "items") == Some(items) && items.Obj?
    requires !WrongKind(schema, value) && !Unlisted(schema, value)
    ensures Says(schema, value, path, issue) <==>
            SomeItemSays(items, value, path, issue)
  {
    if path <= issue.path {
      var way := issue.path[|path|..];
      BelowArray(schema, value, way, issue.fault);
      if way != [] && way[0].Index? && way[0].index < |value.items| {
        var i := way[0].index;
        WayBehind(path, Index(i), issue.path);
        assert |path + [Index(i)]| == |path| + 1;
        assert Says(items, value.items[i], path + [Index(i)], issue) <==> Says(schema, value, path, issue);
      }
    }
    if i: nat :| i < |value.items| && Says(items, value.items[i], path + [Index(i)], issue) {
      WayBehind(path, Index(i), issue.path);
    }
  }

  lemma NoItemSays(schema: Json, value: Json, path: seq<Segment>, issue: Issue)
    requires value.Arr? && !WrongKind(schema, value) && !Unlisted(schema, value)
    requires Get(schema, "items").None? || !Get(schema, "items").value.Obj?
    ensures issue in ArrayIssues(Get(schema, "items"), value, path) <==> Says(schema, value, path, issue)
  {
    if path <= issue.path {
      BelowArray(schema, value, issue.path[|path|..], issue.fault);
      assert issue.path[|path|..] == [] <==> issue.path == path;
    }
  }

  ghost predicate SomeItemSays(items: Json, value: Json, path: seq<Segment>, issue: Issue)
    requires value.Arr?
  {
    exists i: nat :: i < |value.items| && Says(items, value.items[i], path + [Index(i)], issue)
  }

  lemma {:induction false} ItemsSay(items: Json, value: Json, path: seq<Segment>, issue: Issue)
    requires items.Obj? && WellFormed(items) && WellFormed(value) && value.Arr?
    ensures issue in ItemIssues(items, |value.items|, value, path) <==> SomeItemSays(items, value, path, issue)
    decreases value, 0
  {
    InItems(items, |value.items|, value, path, issue);
    if SomeItem(items, |value.items|, value, path, issue) {
      var i: nat :| i < |value.items| && issue in ItemIssuesAt(items, i, value, path);
      IssuesAre(items, value.items[i], path + [Index(i)], issue);
    }
    if SomeItemSays(items, value, path, issue) {
      var i: nat :| i < |value.items| && Says(items, value.items[i], path + [Index(i)], issue);
      IssuesAre(items, value.items[i], path + [Index(i)], issue);
      assert issue in ItemIssuesAt(items, i, value, path);
    }
  }

  /** For every schema and value: the messages are exactly the faults there are, each with the way to it. */
  lemma {:induction false} IssuesAre(schema: Json, value: Json, path: seq<Segment>, issue: Issue)
    requires schema.Obj? && WellFormed(schema) && WellFormed(value)
    ensures issue in Issues(schema, value, path) <==> Says(schema, value, path, issue)
    decreases value, 4
  {
    if WrongKind(schema, value) {
      TypeSays(schema, value, path, issue);
    } else if Unlisted(schema, value) {
      EnumSays(schema, value, path, issue);
    } else if value.Obj? {
      Fits(schema, value, path);
      KeysSay(schema, value, path, issue);
      KeySaysIff(schema, value, path, issue);
    } else if value.Arr? {
      var items := Get(schema, "items");
      Fits(schema, value, path);
      GetMeaning(schema, "items");
      if items.Some? && items.value.Obj? {
        ItemsSay(items.value, value, path, issue);
        ItemSays(schema, value, path, issue, items.value);
      } else {
        NoItemSays(schema, value, path, issue);
      }
    } else {
      OtherSays(schema, value, path, issue);
    }
  }
}
