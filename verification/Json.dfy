/** JSON values as the TypeScript sources see them, and what such a value means.

    `Json` keeps the insertion order of an object's own keys, because the sources walk
    objects in that order.  `Value` forgets it: two `Json` values are "equal up to key
    order" exactly when they have the same `Meaning`. */
module JsonValues {

  datatype Json =
    | Null
    | Bool(b: bool)
    | Num(literal: string)
    | Str(s: string)
    | Arr(items: seq<Json>)
    | Obj(fields: seq<Field>)

  datatype Field = Field(key: string, value: Json)

  datatype Value =
    | VNull
    | VBool(b: bool)
    | VNum(literal: string)
    | VStr(s: string)
    | VArr(items: seq<Value>)
    | VObj(fields: map<string, Value>)

  predicate NumberChar(c: char) {
    '0' <= c <= '9' || c == '+' || c == '-' || c == '.' || c == 'e'
  }

  /** A finite number is represented by the text JavaScript prints for it. */
  predicate NumberLiteral(literal: string) {
    literal != "" && forall i | 0 <= i < |literal| :: NumberChar(literal[i])
  }

  predicate DistinctKeys(fields: seq<Field>) {
    forall i, j | 0 <= i < j < |fields| :: fields[i].key != fields[j].key
  }

  /** An object never holds one key twice, and a number prints as a number literal. */
  predicate WellFormed(j: Json) {
    match j
    case Num(literal) => NumberLiteral(literal)
    case Arr(items) => forall i | 0 <= i < |items| :: WellFormed(items[i])
    case Obj(fields) => DistinctKeys(fields) && forall i | 0 <= i < |fields| :: WellFormed(fields[i].value)
    case _ => true
  }

  function Keys(fields: seq<Field>): set<string> {
    set i | 0 <= i < |fields| :: fields[i].key
  }

  function IndexOf(fields: seq<Field>, key: string): (i: nat)
    requires key in Keys(fields)
    ensures i < |fields| && fields[i].key == key
  {
    if fields[0].key == key then 0 else
      assert key in Keys(fields[1..]) by {
        var i :| 0 <= i < |fields| && fields[i].key == key;
        assert fields[1..][i - 1].key == key;
      }
      1 + IndexOf(fields[1..], key)
  }

  /** `record[key]` for an own key. */
  function Lookup(fields: seq<Field>, key: string): (j: Json)
    requires key in Keys(fields)
    ensures j < Obj(fields)
  {
    fields[IndexOf(fields, key)].value
  }

  function Meaning(j: Json): Value {
    match j
    case Null => VNull
    case Bool(b) => VBool(b)
    case Num(literal) => VNum(literal)
    case Str(s) => VStr(s)
    case Arr(items) => VArr(seq(|items|, i requires 0 <= i < |items| => Meaning(items[i])))
    case Obj(fields) => VObj(map key | key in Keys(fields) :: Meaning(fields[IndexOf(fields, key)].value))
  }

  lemma IndexOfDistinct(fields: seq<Field>, i: nat)
    requires DistinctKeys(fields) && i < |fields|
    ensures fields[i].key in Keys(fields)
    ensures IndexOf(fields, fields[i].key) == i
  {
  }

  /** Reordering the fields of an object does not change what it means. */
  lemma ReorderKeepsMeaning(fields: seq<Field>, sorted: seq<Field>)
    requires DistinctKeys(fields) && DistinctKeys(sorted)
    requires multiset(fields) == multiset(sorted)
    ensures Meaning(Obj(fields)) == Meaning(Obj(sorted))
  {
    forall f: Field
      ensures f in fields <==> f in sorted
    {
      assert f in fields <==> f in multiset(fields);
      assert f in sorted <==> f in multiset(sorted);
    }
    forall key
      ensures key in Keys(fields) <==> key in Keys(sorted)
      ensures key in Keys(fields) && key in Keys(sorted) ==> Lookup(fields, key) == Lookup(sorted, key)
    {
      if key in Keys(fields) {
        var f := fields[IndexOf(fields, key)];
        assert f in fields;
        var i :| 0 <= i < |sorted| && sorted[i] == f;
        IndexOfDistinct(sorted, i);
      }
      if key in Keys(sorted) {
        var f := sorted[IndexOf(sorted, key)];
        assert f in sorted;
        var i :| 0 <= i < |fields| && fields[i] == f;
        IndexOfDistinct(fields, i);
      }
    }
  }
}
