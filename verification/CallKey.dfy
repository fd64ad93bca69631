/** The canonical call key of the loop guard: `stableJson` and `callKey`. */
module CallKey {
  import opened JsonValues

  // ----- the text of strings and numbers -----

  function HexDigit(n: nat): char
    requires n < 16
  {
    "0123456789abcdef"[n]
  }

  /** One character inside a JSON string literal (section 7 of RFC 8259, as JSON.stringify writes it). */
  function EscapeChar(c: char): string {
    if c == '\"' then "\\\""
    else if c == '\\' then "\\\\"
    else if c == 8 as char then "\\b"
    else if c == '\t' then "\\t"
    else if c == '\n' then "\\n"
    else if c == 12 as char then "\\f"
    else if c == '\r' then "\\r"
    else if c as int < 32 then "\\u00" + [HexDigit(c as int / 16), HexDigit(c as int % 16)]
    else [c]
  }

  /** How a character is written: a short escape for a quote, a backslash and five control characters, two
      hexadecimal digits for the other control characters, and any other as itself. */
  lemma EscapesAre(c: char)
    ensures var code := c as int;
            EscapeChar(c) ==
            if code == 34 || code == 92 then ['\\', c]
            else if code == 8 then "\\b" else if code == 9 then "\\t" else if code == 10 then "\\n"
            else if code == 12 then "\\f" else if code == 13 then "\\r"
            else if code < 10 || 16 <= code < 26 then
              "\\u00" + [if code < 16 then '0' else '1', (48 + code % 16) as char]
            else if code < 32 then "\\u00" + [if code < 16 then '0' else '1', (87 + code % 16) as char]
            else [c]
  {
  }

  function Escape(s: string): string {
    if s == "" then "" else EscapeChar(s[0]) + Escape(s[1..])
  }

  function Quote(s: string): string {
    "\"" + Escape(s) + "\""
  }

  // ----- key order -----

  predicate Less(a: string, b: string) {
    if b == "" then false
    else if a == "" then true
    else if a[0] == b[0] then Less(a[1..], b[1..])
    else a[0] < b[0]
  }

  lemma LessTotal(a: string, b: string)
    ensures a == b || Less(a, b) || Less(b, a)
  {
    if a != "" && b != "" && a[0] == b[0] {
      LessTotal(a[1..], b[1..]);
      assert a == [a[0]] + a[1..] && b == [b[0]] + b[1..];
    }
  }

  lemma LessIrreflexive(a: string)
    ensures !Less(a, a)
  {
  }

  lemma {:induction false} LessTransitive(a: string, b: string, c: string)
    requires Less(a, b) && Less(b, c)
    ensures Less(a, c)
  {
    if a != "" && a[0] == b[0] && b[0] == c[0] {
      LessTransitive(a[1..], b[1..], c[1..]);
    }
  }

  ghost predicate Ascending(fields: seq<Field>) {
    forall i, j | 0 <= i < j < |fields| :: Less(fields[i].key, fields[j].key)
  }

  function Insert(f: Field, sorted: seq<Field>): (r: seq<Field>)
    ensures multiset(r) == multiset(sorted) + multiset{f}
  {
    if sorted == [] || Less(f.key, sorted[0].key) then [f] + sorted
    else
      assert sorted == [sorted[0]] + sorted[1..];
      [sorted[0]] + Insert(f, sorted[1..])
  }

  /** `Object.keys(record).sort()`, carrying each key's value along. */
  function SortFields(fields: seq<Field>): (r: seq<Field>)
    ensures multiset(r) == multiset(fields)
  {
    if fields == [] then [] else
      assert fields == [fields[0]] + fields[1..];
      Insert(fields[0], SortFields(fields[1..]))
  }

  lemma {:induction false} InsertAscending(f: Field, sorted: seq<Field>)
    requires Ascending(sorted)
    requires forall i | 0 <= i < |sorted| :: sorted[i].key != f.key
    ensures Ascending(Insert(f, sorted))
  {
    if sorted == [] {
    } else if Less(f.key, sorted[0].key) {
      forall j | 0 < j < |sorted| ensures Less(f.key, sorted[j].key) {
        LessTransitive(f.key, sorted[0].key, sorted[j].key);
      }
    } else {
      var rest := Insert(f, sorted[1..]);
      InsertAscending(f, sorted[1..]);
      forall j | 0 <= j < |rest| ensures Less(sorted[0].key, rest[j].key) {
        assert rest[j] in multiset(rest);
        LessTotal(sorted[0].key, f.key);
        if rest[j] != f {
          assert rest[j] in multiset(sorted[1..]);
          var i :| 0 <= i < |sorted[1..]| && sorted[1..][i] == rest[j];
          assert sorted[i + 1] == rest[j];
        }
      }
    }
  }

  lemma AscendingDistinct(fields: seq<Field>)
    requires Ascending(fields)
    ensures DistinctKeys(fields)
  {
    forall i, j | 0 <= i < j < |fields| ensures fields[i].key != fields[j].key {
      LessIrreflexive(fields[i].key);
      assert Less(fields[i].key, fields[j].key);
    }
  }

  lemma {:induction false} SortAscending(fields: seq<Field>)
    requires DistinctKeys(fields)
    ensures Ascending(SortFields(fields)) && DistinctKeys(SortFields(fields))
  {
    if fields != [] {
      var rest := SortFields(fields[1..]);
      SortAscending(fields[1..]);
      forall i | 0 <= i < |rest| ensures rest[i].key != fields[0].key {
        assert rest[i] in multiset(rest) && rest[i] in fields[1..];
        var j :| 0 <= j < |fields[1..]| && fields[1..][j] == rest[i];
        assert fields[j + 1] == rest[i];
      }
      InsertAscending(fields[0], rest);
    }
    AscendingDistinct(SortFields(fields));
  }

  lemma SameElements(r: seq<Field>, fields: seq<Field>)
    requires multiset(r) == multiset(fields)
    ensures |r| == |fields|
    ensures forall i | 0 <= i < |r| :: r[i] in fields
  {
    assert |r| == |multiset(r)| == |multiset(fields)| == |fields|;
    forall i | 0 <= i < |r| ensures r[i] in fields {
      assert r[i] in multiset(r);
    }
  }

  /** The fields of an object in key order. */
  function Sorted(j: Json): (r: seq<Field>)
    requires j.Obj?
    ensures |r| == |j.fields|
    ensures forall i | 0 <= i < |r| :: r[i].value < j
    ensures WellFormed(j) ==> Ascending(r) && forall i | 0 <= i < |r| :: WellFormed(r[i].value)
    ensures WellFormed(j) ==> Meaning(Obj(r)) == Meaning(j)
  {
    var r := SortFields(j.fields);
    SameElements(r, j.fields);
    assert WellFormed(j) ==> Ascending(r) && Meaning(Obj(r)) == Meaning(j) by {
      if WellFormed(j) {
        SortAscending(j.fields);
        ReorderKeepsMeaning(j.fields, r);
      }
    }
    r
  }

  // ----- stableJson -----

  function StableJson(j: Json): string
    decreases j
  {
    match j
    case Null => "null"
    case Bool(b) => if b then "true" else "false"
    case Num(literal) => literal
    case Str(s) => Quote(s)
    case Arr(items) => "[" + StableItems(j, items) + "]"
    case Obj(fields) => "{" + StableEntries(j, Sorted(j)) + "}"
  }

  /** `items.map(stableJson).join(",")` */
  function StableItems(context: Json, items: seq<Json>): string
    requires forall i | 0 <= i < |items| :: items[i] < context
    decreases context, |items|
  {
    if items == [] then ""
    else StableJson(items[0]) + if |items| == 1 then "" else "," + StableItems(context, items[1..])
  }

  /** The `key:value` entries of an object, joined by commas. */
  function StableEntries(context: Json, fields: seq<Field>): string
    requires forall i | 0 <= i < |fields| :: fields[i].value < context
    decreases context, |fields|
  {
    if fields == [] then ""
    else
      Quote(fields[0].key) + ":" + StableJson(fields[0].value) +
      if |fields| == 1 then "" else "," + StableEntries(context, fields[1..])
  }

  /** The key under which the guard counts a call; `input` is `{}` when the call has none. */
  function CallKeyOf(tool: string, input: Json): string {
    tool + ":" + StableJson(input)
  }

  // ----- the same text with what follows it: `XThen(v, k)` is `X(v) + k` -----

  function QuoteRest(s: string, k: string): string {
    if s == "" then "\"" + k else EscapeChar(s[0]) + QuoteRest(s[1..], k)
  }

  function JsonThen(j: Json, k: string): string
    decreases j
  {
    match j
    case Null => "null" + k
    case Bool(b) => (if b then "true" else "false") + k
    case Num(literal) => literal + k
    case Str(s) => "\"" + QuoteRest(s, k)
    case Arr(items) => "[" + ItemsThen(j, items, k)
    case Obj(fields) => "{" + EntriesThen(j, Sorted(j), k)
  }

  function ItemsThen(context: Json, items: seq<Json>, k: string): string
    requires forall i | 0 <= i < |items| :: items[i] < context
    decreases context, |items|
  {
    if items == [] then "]" + k
    else JsonThen(items[0], if |items| == 1 then "]" + k else "," + ItemsThen(context, items[1..], k))
  }

  function EntriesThen(context: Json, fields: seq<Field>, k: string): string
    requires forall i | 0 <= i < |fields| :: fields[i].value < context
    decreases context, |fields|
  {
    if fields == [] then "}" + k
    else
      "\"" + QuoteRest(fields[0].key,
        ":" + JsonThen(fields[0].value,
          if |fields| == 1 then "}" + k else "," + EntriesThen(context, fields[1..], k)))
  }

  lemma {:induction false} QuoteRestIs(s: string, k: string)
    ensures QuoteRest(s, k) == Escape(s) + "\"" + k
  {
    if s != "" {
      QuoteRestIs(s[1..], k);
      assert EscapeChar(s[0]) + (Escape(s[1..]) + "\"" + k) == EscapeChar(s[0]) + Escape(s[1..]) + "\"" + k;
    }
  }

  lemma {:induction false} JsonThenIs(j: Json, k: string)
    ensures JsonThen(j, k) == StableJson(j) + k
    decreases j
  {
    match j
    case Str(s) =>
      QuoteRestIs(s, k);
      Bracketed("\"", Escape(s), "\"", k);
    case Arr(items) =>
      ItemsThenIs(j, items, k);
      Bracketed("[", StableItems(j, items), "]", k);
    case Obj(fields) =>
      EntriesThenIs(j, Sorted(j), k);
      Bracketed("{", StableEntries(j, Sorted(j)), "}", k);
    case _ =>
  }

  lemma Bracketed(open: string, text: string, close: string, k: string)
    ensures open + (text + close + k) == open + text + close + k
  {
  }

  lemma {:induction false} ItemsThenIs(context: Json, items: seq<Json>, k: string)
    requires forall i | 0 <= i < |items| :: items[i] < context
    ensures ItemsThen(context, items, k) == StableItems(context, items) + "]" + k
    decreases context, |items|
  {
    if |items| == 1 {
      JsonThenIs(items[0], "]" + k);
      LastItem(StableJson(items[0]), k);
    } else if items != [] {
      var rest := StableItems(context, items[1..]);
      ItemsThenIs(context, items[1..], k);
      JsonThenIs(items[0], "," + ItemsThen(context, items[1..], k));
      OneMoreItem(StableJson(items[0]), rest, k);
    }
  }

  lemma LastItem(text: string, k: string)
    ensures text + ("]" + k) == text + "" + "]" + k
  {
  }

  lemma OneMoreItem(text: string, rest: string, k: string)
    ensures text + ("," + (rest + "]" + k)) == text + ("," + rest) + "]" + k
  {
    Bracketed(text, "," + rest, "]", k);
    Bracketed(",", rest, "]", k);
  }

  lemma {:induction false} EntriesThenIs(context: Json, fields: seq<Field>, k: string)
    requires forall i | 0 <= i < |fields| :: fields[i].value < context
    ensures EntriesThen(context, fields, k) == StableEntries(context, fields) + "}" + k
    decreases context, |fields|
  {
    NothingBefore(k);
    if |fields| == 1 {
      JsonThenIs(fields[0].value, "}" + k);
      FirstEntryThenIs(context, fields, k, "}" + k, "");
    } else if fields != [] {
      EntriesThenIs(context, fields[1..], k);
      JsonThenIs(fields[0].value, "," + EntriesThen(context, fields[1..], k));
      MoreEntriesThenIs(context, fields, k);
    }
  }

  lemma NothingBefore(k: string)
    ensures "" + "}" + k == "}" + k
  {
  }

  lemma CommaBefore(rest: string, k: string)
    ensures "," + (rest + "}" + k) == "," + rest + "}" + k
  {
  }

  lemma MoreEntriesThenIs(context: Json, fields: seq<Field>, k: string)
    requires |fields| > 1 && forall i | 0 <= i < |fields| :: fields[i].value < context
    requires EntriesThen(context, fields[1..], k) == StableEntries(context, fields[1..]) + "}" + k
    requires var after := "," + EntriesThen(context, fields[1..], k);
             JsonThen(fields[0].value, after) == StableJson(fields[0].value) + after
    ensures EntriesThen(context, fields, k) == StableEntries(context, fields) + "}" + k
  {
    CommaBefore(StableEntries(context, fields[1..]), k);
    FirstEntryThenIs(context, fields, k, "," + EntriesThen(context, fields[1..], k),
                     "," + StableEntries(context, fields[1..]));
  }

  /** The first field, with the texts of what comes behind it. */
  lemma FirstEntryThenIs(context: Json, fields: seq<Field>, k: string, after: string, rest: string)
    requires fields != [] && forall i | 0 <= i < |fields| :: fields[i].value < context
    requires after == if |fields| == 1 then "}" + k else "," + EntriesThen(context, fields[1..], k)
    requires rest == if |fields| == 1 then "" else "," + StableEntries(context, fields[1..])
    requires after == rest + "}" + k && JsonThen(fields[0].value, after) == StableJson(fields[0].value) + after
    ensures EntriesThen(context, fields, k) == StableEntries(context, fields) + "}" + k
  {
    EntryThenIs(fields[0].key, JsonThen(fields[0].value, after), StableJson(fields[0].value), rest, k, after);
    FirstEntry(context, fields, k, after, rest);
  }

  /** Both texts of the fields start with the first one. */
  lemma FirstEntry(context: Json, fields: seq<Field>, k: string, after: string, rest: string)
    requires fields != [] && forall i | 0 <= i < |fields| :: fields[i].value < context
    requires after == if |fields| == 1 then "}" + k else "," + EntriesThen(context, fields[1..], k)
    requires rest == if |fields| == 1 then "" else "," + StableEntries(context, fields[1..])
    ensures EntriesThen(context, fields, k) == "\"" + QuoteRest(fields[0].key, ":" + JsonThen(fields[0].value, after))
    ensures StableEntries(context, fields) == Quote(fields[0].key) + ":" + StableJson(fields[0].value) + rest
  {
  }

  lemma EntryThenIs(key: string, textThen: string, text: string, rest: string, k: string, after: string)
    requires textThen == text + after && after == rest + "}" + k
    ensures "\"" + QuoteRest(key, ":" + textThen) == (Quote(key) + ":" + text + rest) + "}" + k
  {
    QuoteRestIs(key, ":" + textThen);
    var e := Escape(key);
    assert "\"" + (e + "\"" + (":" + (text + (rest + "}" + k)))) == (("\"" + e + "\"") + ":" + text + rest) + "}" + k;
  }

  // ----- reading the text back -----

  /** What may follow a value: the end of the text, a comma or a closing bracket. */
  predicate Ends(x: string) {
    x == "" || x[0] == ',' || x[0] == ']' || x[0] == '}'
  }

  lemma EscapeCharShape(c: char)
    ensures |EscapeChar(c)| in {1, 2, 6}
    ensures |EscapeChar(c)| == 1 ==> EscapeChar(c) == [c] && c != '\"' && c != '\\'
    ensures |EscapeChar(c)| > 1 ==> EscapeChar(c)[0] == '\\'
    ensures |EscapeChar(c)| == 2 ==> EscapeChar(c)[1] != 'u'
    ensures |EscapeChar(c)| == 6 ==> EscapeChar(c)[1] == 'u'
  {
  }

  lemma EscapeCharPrefixFree(c: char, d: char, x: string, y: string)
    requires EscapeChar(c) + x == EscapeChar(d) + y
    ensures c == d && x == y
  {
    EscapeCharShape(c);
    EscapeCharShape(d);
    var e, g := EscapeChar(c), EscapeChar(d);
    assert e[0] == (e + x)[0] == (g + y)[0] == g[0];
    if |e| > 1 && |g| > 1 {
      assert e[1] == (e + x)[1] == (g + y)[1] == g[1];
    }
    assert |e| == |g|;
    assert e == (e + x)[..|e|] == (g + y)[..|g|] == g;
    assert x == (e + x)[|e|..] == (g + y)[|g|..] == y;
    if |e| == 6 {
      assert e[4] == g[4] && e[5] == g[5];
      HexInjective(c as int / 16, d as int / 16);
      HexInjective(c as int % 16, d as int % 16);
    }
  }

  lemma HexInjective(a: nat, b: nat)
    requires a < 16 && b < 16 && HexDigit(a) == HexDigit(b)
    ensures a == b
  {
  }

  lemma {:induction false} QuoteDecodes(s: string, t: string, x: string, y: string)
    requires QuoteRest(s, x) == QuoteRest(t, y)
    ensures s == t && x == y
  {
    if s != "" { EscapeCharShape(s[0]); }
    if t != "" { EscapeCharShape(t[0]); }
    assert s == "" <==> QuoteRest(s, x)[0] == '\"';
    assert t == "" <==> QuoteRest(t, y)[0] == '\"';
    if s == "" && t == "" {
      assert x == QuoteRest(s, x)[1..] == QuoteRest(t, y)[1..] == y;
    } else if s != "" && t != "" {
      EscapeCharPrefixFree(s[0], t[0], QuoteRest(s[1..], x), QuoteRest(t[1..], y));
      QuoteDecodes(s[1..], t[1..], x, y);
      assert s == [s[0]] + s[1..] && t == [t[0]] + t[1..];
    }
  }

  lemma NumberDecodes(l: string, m: string, x: string, y: string)
    requires NumberLiteral(l) && NumberLiteral(m) && Ends(x) && Ends(y)
    requires l + x == m + y
    ensures l == m && x == y
  {
    NumberNotLonger(l, m, x, y);
    NumberNotLonger(m, l, y, x);
    assert l == (l + x)[..|l|] == (m + y)[..|m|] == m;
    assert x == (l + x)[|l|..] == (m + y)[|m|..] == y;
  }

  lemma NumberNotLonger(l: string, m: string, x: string, y: string)
    requires NumberLiteral(m) && Ends(x) && l + x == m + y
    ensures |m| <= |l|
  {
    var both := l + x;
    assert forall i | 0 <= i < |m| :: both[i] == m[i] && NumberChar(both[i]);
    assert |l| < |both| ==> both[|l|] == x[0] && !NumberChar(both[|l|]);
  }

  /** The first character of a value's text tells which kind of value it is. */
  lemma FirstChar(j: Json, k: string)
    requires WellFormed(j)
    ensures JsonThen(j, k) != ""
    ensures var c := JsonThen(j, k)[0];
            match j
            case Null => c == 'n'
            case Bool(b) => c == if b then 't' else 'f'
            case Num(_) => NumberChar(c)
            case Str(_) => c == '\"'
            case Arr(_) => c == '['
            case Obj(_) => c == '{'
  {
  }

  lemma {:induction false} Decodes(a: Json, b: Json, x: string, y: string)
    requires WellFormed(a) && WellFormed(b) && Ends(x) && Ends(y)
    requires JsonThen(a, x) == JsonThen(b, y)
    ensures Meaning(a) == Meaning(b) && x == y
    decreases a
  {
    FirstChar(a, x);
    FirstChar(b, y);
    match a
    case Null => assert x == JsonThen(a, x)[4..] == JsonThen(b, y)[4..] == y;
    case Bool(p) =>
      var n := if p then 4 else 5;
      assert x == JsonThen(a, x)[n..] == JsonThen(b, y)[n..] == y;
    case Num(l) => NumberDecodes(l, b.literal, x, y);
    case Str(s) =>
      assert QuoteRest(s, x) == JsonThen(a, x)[1..] == JsonThen(b, y)[1..] == QuoteRest(b.s, y);
      QuoteDecodes(s, b.s, x, y);
    case Arr(items) =>
      assert ItemsThen(a, items, x) == JsonThen(a, x)[1..] == JsonThen(b, y)[1..] == ItemsThen(b, b.items, y);
      ItemsDecode(a, b, items, b.items, x, y);
    case Obj(fields) =>
      ObjectDecodes(a, b, x, y);
  }

  lemma {:induction false} ObjectDecodes(a: Json, b: Json, x: string, y: string)
    requires WellFormed(a) && WellFormed(b) && Ends(x) && Ends(y) && a.Obj? && b.Obj?
    requires JsonThen(a, x) == JsonThen(b, y)
    ensures Meaning(a) == Meaning(b) && x == y
    decreases a, |a.fields| + 2
  {
    var fs, gs := Sorted(a), Sorted(b);
    AscendingDistinct(fs);
    AscendingDistinct(gs);
    assert EntriesThen(a, fs, x) == JsonThen(a, x)[1..] == JsonThen(b, y)[1..] == EntriesThen(b, gs, y);
    EntriesDecode(a, b, fs, gs, x, y);
    SameEntriesSameMeaning(fs, gs);
  }

  /** The text of the items starts with the first one, if there is one, and `r` is behind it. */
  lemma BehindFirstItem(context: Json, items: seq<Json>, k: string) returns (r: string)
    requires forall i | 0 <= i < |items| :: items[i] < context && WellFormed(items[i])
    ensures Ends(r) && r != "" && r[0] == if |items| <= 1 then ']' else ','
    ensures r[1..] == if |items| <= 1 then k else ItemsThen(context, items[1..], k)
    ensures ItemsThen(context, items, k) == if items == [] then r else JsonThen(items[0], r)
    ensures ItemsThen(context, items, k) != "" && (items == [] <==> ItemsThen(context, items, k)[0] == ']')
  {
    r := if |items| <= 1 then "]" + k else "," + ItemsThen(context, items[1..], k);
    if items != [] { FirstChar(items[0], r); }
  }

  lemma {:induction false} ItemsDecode(a: Json, b: Json, items: seq<Json>, others: seq<Json>, x: string, y: string)
    requires forall i | 0 <= i < |items| :: items[i] < a && WellFormed(items[i])
    requires forall i | 0 <= i < |others| :: others[i] < b && WellFormed(others[i])
    requires ItemsThen(a, items, x) == ItemsThen(b, others, y)
    ensures |items| == |others| && x == y
    ensures forall i | 0 <= i < |items| :: Meaning(items[i]) == Meaning(others[i])
    decreases a, |items| + 1
  {
    ItemHeadsDecode(a, b, items, others, x, y);
    if |items| > 1 {
      ItemsDecode(a, b, items[1..], others[1..], x, y);
      forall i | 0 <= i < |items| ensures Meaning(items[i]) == Meaning(others[i]) {
        if i > 0 { assert items[i] == items[1..][i - 1] && others[i] == others[1..][i - 1]; }
      }
    }
  }

  lemma {:induction false} ItemHeadsDecode(a: Json, b: Json, items: seq<Json>, others: seq<Json>, x: string, y: string)
    requires forall i | 0 <= i < |items| :: items[i] < a && WellFormed(items[i])
    requires forall i | 0 <= i < |others| :: others[i] < b && WellFormed(others[i])
    requires ItemsThen(a, items, x) == ItemsThen(b, others, y)
    ensures (items == [] <==> others == []) && (|items| == 1 <==> |others| == 1)
    ensures items != [] ==> Meaning(items[0]) == Meaning(others[0])
    ensures if |items| <= 1 then x == y else ItemsThen(a, items[1..], x) == ItemsThen(b, others[1..], y)
    decreases a, 0
  {
    var r := BehindFirstItem(a, items, x);
    var q := BehindFirstItem(b, others, y);
    if items != [] && others != [] { Decodes(items[0], others[0], r, q); }
    Tails(r, q);
  }

  lemma Tails(r: string, q: string)
    requires r == q && r != ""
    ensures r[0] == q[0] && r[1..] == q[1..]
  {
  }

  lemma EntryDecodes(key: string, other: string, s: string, t: string)
    requires "\"" + QuoteRest(key, ":" + s) == "\"" + QuoteRest(other, ":" + t)
    ensures key == other && s == t
  {
    assert QuoteRest(key, ":" + s) == ("\"" + QuoteRest(key, ":" + s))[1..];
    assert QuoteRest(other, ":" + t) == ("\"" + QuoteRest(other, ":" + t))[1..];
    QuoteDecodes(key, other, ":" + s, ":" + t);
    assert s == (":" + s)[1..] == (":" + t)[1..] == t;
  }

  lemma {:induction false} FirstEntryDecodes(a: Json, f: Field, g: Field, r: string, q: string)
    requires f.value < a && WellFormed(f.value) && WellFormed(g.value) && Ends(r) && Ends(q)
    requires "\"" + QuoteRest(f.key, ":" + JsonThen(f.value, r)) == "\"" + QuoteRest(g.key, ":" + JsonThen(g.value, q))
    ensures f.key == g.key && Meaning(f.value) == Meaning(g.value) && r == q
    decreases a, 0
  {
    EntryDecodes(f.key, g.key, JsonThen(f.value, r), JsonThen(g.value, q));
    Decodes(f.value, g.value, r, q);
  }

  lemma {:induction false} EntriesDecode(a: Json, b: Json, fs: seq<Field>, gs: seq<Field>, x: string, y: string)
    requires forall i | 0 <= i < |fs| :: fs[i].value < a && WellFormed(fs[i].value)
    requires forall i | 0 <= i < |gs| :: gs[i].value < b && WellFormed(gs[i].value)
    requires EntriesThen(a, fs, x) == EntriesThen(b, gs, y)
    ensures |fs| == |gs| && x == y
    ensures forall i | 0 <= i < |fs| :: fs[i].key == gs[i].key && Meaning(fs[i].value) == Meaning(gs[i].value)
    decreases a, |fs| + 1
  {
    EmptyTogether(a, b, fs, gs, x, y);
    if fs != [] {
      HeadsDecode(a, b, fs, gs, x, y);
      if |fs| > 1 {
        EntriesDecode(a, b, fs[1..], gs[1..], x, y);
        forall i | 0 <= i < |fs| ensures fs[i].key == gs[i].key && Meaning(fs[i].value) == Meaning(gs[i].value) {
          if i > 0 { assert fs[i] == fs[1..][i - 1] && gs[i] == gs[1..][i - 1]; }
        }
      }
    }
  }

  lemma EmptyTogether(a: Json, b: Json, fs: seq<Field>, gs: seq<Field>, x: string, y: string)
    requires forall i | 0 <= i < |fs| :: fs[i].value < a
    requires forall i | 0 <= i < |gs| :: gs[i].value < b
    requires EntriesThen(a, fs, x) == EntriesThen(b, gs, y)
    ensures fs == [] <==> gs == []
    ensures fs == [] ==> x == y
  {
    var r := BehindFirst(a, fs, x);
    var q := BehindFirst(b, gs, y);
    if fs == [] && gs == [] { Tails(r, q); }
  }

  lemma {:induction false} HeadsDecode(a: Json, b: Json, fs: seq<Field>, gs: seq<Field>, x: string, y: string)
    requires fs != [] && gs != [] && WellFormed(fs[0].value) && WellFormed(gs[0].value)
    requires forall i | 0 <= i < |fs| :: fs[i].value < a
    requires forall i | 0 <= i < |gs| :: gs[i].value < b
    requires EntriesThen(a, fs, x) == EntriesThen(b, gs, y)
    ensures fs[0].key == gs[0].key && Meaning(fs[0].value) == Meaning(gs[0].value)
    ensures |fs| == 1 <==> |gs| == 1
    ensures if |fs| == 1 then x == y else EntriesThen(a, fs[1..], x) == EntriesThen(b, gs[1..], y)
    decreases a, 1
  {
    var r := BehindFirst(a, fs, x);
    var q := BehindFirst(b, gs, y);
    FirstEntryDecodes(a, fs[0], gs[0], r, q);
    Tails(r, q);
  }

  /** The text of the fields starts with the first one, if there is one, and `r` is behind it. */
  lemma BehindFirst(context: Json, fields: seq<Field>, k: string) returns (r: string)
    requires forall i | 0 <= i < |fields| :: fields[i].value < context
    ensures Ends(r) && r != "" && r[0] == if |fields| <= 1 then '}' else ','
    ensures r[1..] == if |fields| <= 1 then k else EntriesThen(context, fields[1..], k)
    ensures EntriesThen(context, fields, k) ==
            if fields == [] then r else "\"" + QuoteRest(fields[0].key, ":" + JsonThen(fields[0].value, r))
    ensures EntriesThen(context, fields, k)[..1] == if fields == [] then "}" else "\""
  {
    r := if |fields| <= 1 then "}" + k else "," + EntriesThen(context, fields[1..], k);
  }

  lemma SameEntriesSameMeaning(fs: seq<Field>, gs: seq<Field>)
    requires DistinctKeys(fs) && DistinctKeys(gs) && |fs| == |gs|
    requires forall i | 0 <= i < |fs| :: fs[i].key == gs[i].key && Meaning(fs[i].value) == Meaning(gs[i].value)
    ensures Meaning(Obj(fs)) == Meaning(Obj(gs))
  {
    forall key ensures key in Keys(fs) <==> key in Keys(gs) {
      if key in Keys(fs) { assert gs[IndexOf(fs, key)].key == key; }
      if key in Keys(gs) { assert fs[IndexOf(gs, key)].key == key; }
    }
    forall key | key in Keys(fs)
      ensures Meaning(Lookup(fs, key)) == Meaning(Lookup(gs, key))
    {
      LookupAgrees(fs, gs, key);
    }
  }

  lemma LookupAgrees(fs: seq<Field>, gs: seq<Field>, key: string)
    requires DistinctKeys(gs) && |fs| == |gs| && key in Keys(fs)
    requires forall i | 0 <= i < |fs| :: fs[i].key == gs[i].key && Meaning(fs[i].value) == Meaning(gs[i].value)
    ensures key in Keys(gs) && Meaning(Lookup(fs, key)) == Meaning(Lookup(gs, key))
  {
    IndexOfDistinct(gs, IndexOf(fs, key));
  }

  // ----- equal meaning, equal text -----

  lemma {:induction false} AscendingUnique(fs: seq<Field>, gs: seq<Field>)
    requires Ascending(fs) && Ascending(gs) && Keys(fs) == Keys(gs)
    ensures |fs| == |gs| && forall i | 0 <= i < |fs| :: fs[i].key == gs[i].key
  {
    assert fs != [] ==> fs[0].key in Keys(fs);
    assert gs != [] ==> gs[0].key in Keys(gs);
    if fs != [] && gs != [] {
      AscendingDistinct(fs);
      AscendingDistinct(gs);
      assert fs[0].key in Keys(gs) && gs[0].key in Keys(fs);
      var i, j := IndexOf(gs, fs[0].key), IndexOf(fs, gs[0].key);
      if 0 < i && 0 < j {
        LessTransitive(fs[0].key, gs[0].key, fs[0].key);
        LessIrreflexive(fs[0].key);
      }
      forall key ensures key in Keys(fs[1..]) <==> key in Keys(fs) && key != fs[0].key {
        if key in Keys(fs) && key != fs[0].key { assert fs[1..][IndexOf(fs, key) - 1].key == key; }
      }
      forall key ensures key in Keys(gs[1..]) <==> key in Keys(gs) && key != gs[0].key {
        if key in Keys(gs) && key != gs[0].key { assert gs[1..][IndexOf(gs, key) - 1].key == key; }
      }
      AscendingUnique(fs[1..], gs[1..]);
      assert fs == [fs[0]] + fs[1..] && gs == [gs[0]] + gs[1..];
    }
  }

  lemma {:induction false} SameMeaningSameText(a: Json, b: Json)
    requires WellFormed(a) && WellFormed(b) && Meaning(a) == Meaning(b)
    ensures StableJson(a) == StableJson(b)
    decreases a
  {
    match a
    case Arr(items) =>
      forall i | 0 <= i < |items| ensures Meaning(items[i]) == Meaning(b.items[i]) {
        assert Meaning(a).items[i] == Meaning(b).items[i];
      }
      ItemsSameText(a, b, items, b.items);
    case Obj(fields) =>
      SortedEntriesAgree(a, b);
      EntriesSameText(a, b, Sorted(a), Sorted(b));
    case _ =>
  }

  lemma SortedEntriesAgree(a: Json, b: Json)
    requires WellFormed(a) && WellFormed(b) && a.Obj? && b.Obj? && Meaning(a) == Meaning(b)
    ensures var fs, gs := Sorted(a), Sorted(b);
            |fs| == |gs| && forall i | 0 <= i < |fs| ::
              fs[i].key == gs[i].key && Meaning(fs[i].value) == Meaning(gs[i].value)
  {
    var fs, gs := Sorted(a), Sorted(b);
    AscendingDistinct(fs);
    AscendingDistinct(gs);
    assert Meaning(Obj(fs)).fields.Keys == Keys(fs) && Meaning(Obj(gs)).fields.Keys == Keys(gs);
    AscendingUnique(fs, gs);
    forall i | 0 <= i < |fs| ensures Meaning(fs[i].value) == Meaning(gs[i].value) {
      IndexOfDistinct(fs, i);
      IndexOfDistinct(gs, i);
      assert Meaning(Obj(fs)).fields[fs[i].key] == Meaning(Obj(gs)).fields[gs[i].key];
    }
  }

  lemma {:induction false} ItemsSameText(a: Json, b: Json, items: seq<Json>, others: seq<Json>)
    requires |items| == |others|
    requires forall i | 0 <= i < |items| ::
               items[i] < a && others[i] < b && WellFormed(items[i]) && WellFormed(others[i]) &&
               Meaning(items[i]) == Meaning(others[i])
    ensures StableItems(a, items) == StableItems(b, others)
    decreases a, |items|
  {
    if items != [] {
      SameMeaningSameText(items[0], others[0]);
      ItemsSameText(a, b, items[1..], others[1..]);
    }
  }

  lemma {:induction false} EntriesSameText(a: Json, b: Json, fs: seq<Field>, gs: seq<Field>)
    requires |fs| == |gs|
    requires forall i | 0 <= i < |fs| ::
               fs[i].value < a && gs[i].value < b && WellFormed(fs[i].value) && WellFormed(gs[i].value) &&
               fs[i].key == gs[i].key && Meaning(fs[i].value) == Meaning(gs[i].value)
    ensures StableEntries(a, fs) == StableEntries(b, gs)
    decreases a, |fs|
  {
    if fs != [] {
      SameMeaningSameText(fs[0].value, gs[0].value);
      EntriesSameText(a, b, fs[1..], gs[1..]);
    }
  }

  /** Two JSON values have the same canonical text exactly when they are equal up to key order. */
  lemma StableJsonIsCanonical(a: Json, b: Json)
    requires WellFormed(a) && WellFormed(b)
    ensures StableJson(a) == StableJson(b) <==> Meaning(a) == Meaning(b)
  {
    if StableJson(a) == StableJson(b) {
      JsonThenIs(a, "");
      JsonThenIs(b, "");
      Decodes(a, b, "", "");
    }
    if Meaning(a) == Meaning(b) {
      SameMeaningSameText(a, b);
    }
  }
}
