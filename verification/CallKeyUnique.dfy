/** Why the guard's key cannot confuse two calls, whatever characters the tool names hold. */
module CallKeyUnique {
  import opened JsonValues
  import opened CallKey

  // ----- no tool name can imitate another call's key -----

  /** A bracket-matching reader that knows string literals.  `Done` is reached when the first
      bracket is closed; anything after that, and a backslash outside a string, is an error. */
  datatype Lex = Start | Out(depth: nat) | In(depth: nat) | Esc(depth: nat) | Done | Err

  function Step(st: Lex, c: char): Lex {
    match st
    case Start => if c == '{' || c == '[' then Out(1) else Err
    case Out(d) =>
      if c == '\"' then In(d)
      else if c == '\\' then Err
      else if c == '{' || c == '[' then Out(d + 1)
      else if c == '}' || c == ']' then Close(d)
      else Out(d)
    case In(d) => if c == '\"' then Out(d) else if c == '\\' then Esc(d) else In(d)
    case Esc(d) => In(d)
    case _ => Err
  }

  function Close(d: nat): Lex {
    if d <= 1 then Done else Out(d - 1)
  }

  function Run(st: Lex, s: string): Lex
    decreases |s|
  {
    if s == "" then st else Run(Step(st, s[0]), s[1..])
  }

  lemma {:induction false} RunConcat(st: Lex, s: string, t: string)
    ensures Run(st, s + t) == Run(Run(st, s), t)
    decreases |s|
  {
    if s == "" {
      assert s + t == t;
    } else {
      assert (s + t)[0] == s[0] && (s + t)[1..] == s[1..] + t;
      RunConcat(Step(st, s[0]), s[1..], t);
    }
  }

  predicate Ordinary(c: char) {
    c != '\"' && c != '\\'
  }

  /** Not a quote, a backslash or a bracket: outside a string it changes nothing. */
  predicate Plain(c: char) {
    Ordinary(c) && c != '{' && c != '}' && c != '[' && c != ']'
  }

  lemma {:induction false} RunPlain(d: nat, s: string, k: string)
    requires forall i | 0 <= i < |s| :: Plain(s[i])
    ensures Run(Out(d), s + k) == Run(Out(d), k)
  {
    if s == "" {
      assert s + k == k;
    } else {
      assert Plain(s[0]) && (s + k)[0] == s[0] && (s + k)[1..] == s[1..] + k;
      RunPlain(d, s[1..], k);
    }
  }

  lemma RunEscapeChar(d: nat, c: char, k: string)
    ensures Run(In(d), EscapeChar(c) + k) == Run(In(d), k)
  {
    EscapeCharShape(c);
    var e := EscapeChar(c);
    assert (e + k)[1..] == e[1..] + k;
    if |e| == 2 {
      assert (e[1..] + k)[1..] == k;
    } else if |e| == 6 {
      assert e[2] == '0' && e[3] == '0' && Ordinary(e[4]) && Ordinary(e[5]);
      assert (e[1..] + k)[1..] == e[2..] + k;
      RunUnescaped(d, e[2..], k);
    } else {
      assert e[1..] + k == k;
    }
  }

  lemma {:induction false} RunUnescaped(d: nat, s: string, k: string)
    requires forall i | 0 <= i < |s| :: Ordinary(s[i])
    ensures Run(In(d), s + k) == Run(In(d), k)
  {
    if s == "" {
      assert s + k == k;
    } else {
      assert Ordinary(s[0]) && (s + k)[0] == s[0] && (s + k)[1..] == s[1..] + k;
      RunUnescaped(d, s[1..], k);
    }
  }

  lemma {:induction false} RunQuote(d: nat, s: string, k: string)
    ensures Run(In(d), QuoteRest(s, k)) == Run(Out(d), k)
  {
    if s == "" {
      assert QuoteRest(s, k)[1..] == k;
    } else {
      RunEscapeChar(d, s[0], QuoteRest(s[1..], k));
      RunQuote(d, s[1..], k);
    }
  }

  /** Reading a whole value outside any string comes back to the depth it started from. */
  lemma {:induction false} RunValue(d: nat, j: Json, k: string)
    requires WellFormed(j) && d >= 1
    ensures Run(Out(d), JsonThen(j, k)) == Run(Out(d), k)
    decreases j
  {
    if j.Arr? {
      RunArray(d, j, k);
    } else if j.Obj? {
      RunRecord(d, j, k);
    } else {
      RunScalar(d, j, k);
    }
  }

  lemma {:induction false} RunArray(d: nat, j: Json, k: string)
    requires WellFormed(j) && d >= 1 && j.Arr?
    ensures Run(Out(d), JsonThen(j, k)) == Run(Out(d), k)
    decreases j, |j.items| + 1
  {
    var rest := ItemsThen(j, j.items, k);
    RunItems(d + 1, j, j.items, k);
    RunFirst(d, '[', rest);
    assert JsonThen(j, k) == ['['] + rest;
  }

  lemma {:induction false} RunRecord(d: nat, j: Json, k: string)
    requires WellFormed(j) && d >= 1 && j.Obj?
    ensures Run(Out(d), JsonThen(j, k)) == Run(Out(d), k)
    decreases j, |j.fields| + 1
  {
    var rest := EntriesThen(j, Sorted(j), k);
    RecordOpens(j, k);
    RunFirst(d, '{', rest);
    RunEntries(d + 1, j, Sorted(j), k);
  }

  lemma RecordOpens(j: Json, k: string)
    requires WellFormed(j) && j.Obj?
    ensures JsonThen(j, k) == ['{'] + EntriesThen(j, Sorted(j), k)
  {
  }

  lemma RunScalar(d: nat, j: Json, k: string)
    requires WellFormed(j) && !j.Arr? && !j.Obj?
    ensures Run(Out(d), JsonThen(j, k)) == Run(Out(d), k)
  {
    match j
    case Null => RunPlain(d, "null", k);
    case Bool(b) => RunPlain(d, if b then "true" else "false", k);
    case Num(literal) => RunPlain(d, literal, k);
    case Str(s) =>
      RunFirst(d, '\"', QuoteRest(s, k));
      RunQuote(d, s, k);
  }

  lemma RunFirst(d: nat, c: char, rest: string)
    ensures Run(Out(d), [c] + rest) == Run(Step(Out(d), c), rest)
  {
    assert ([c] + rest)[1..] == rest;
  }

  lemma {:induction false} RunItems(d: nat, context: Json, items: seq<Json>, k: string)
    requires d >= 1
    requires forall i | 0 <= i < |items| :: items[i] < context && WellFormed(items[i])
    ensures Run(Out(d), ItemsThen(context, items, k)) == Run(Close(d), k)
    decreases context, |items|
  {
    var after := if |items| <= 1 then "]" + k else "," + ItemsThen(context, items[1..], k);
    assert after[1..] == if |items| <= 1 then k else ItemsThen(context, items[1..], k);
    if items != [] { RunValue(d, items[0], after); }
    if |items| > 1 { RunItems(d, context, items[1..], k); }
  }

  lemma RunKey(d: nat, key: string, valueThen: string)
    ensures Run(Out(d), "\"" + QuoteRest(key, ":" + valueThen)) == Run(Out(d), valueThen)
  {
    assert ("\"" + QuoteRest(key, ":" + valueThen))[1..] == QuoteRest(key, ":" + valueThen);
    RunQuote(d, key, ":" + valueThen);
    assert (":" + valueThen)[1..] == valueThen;
  }

  lemma {:induction false} RunEntries(d: nat, context: Json, fields: seq<Field>, k: string)
    requires d >= 1
    requires forall i | 0 <= i < |fields| :: fields[i].value < context && WellFormed(fields[i].value)
    ensures Run(Out(d), EntriesThen(context, fields, k)) == Run(Close(d), k)
    decreases context, |fields|
  {
    if |fields| <= 1 {
      var after := "}" + k;
      assert after[1..] == k;
      if fields != [] { RunEntry(d, context, fields, k, after); }
    } else {
      RunEntries(d, context, fields[1..], k);
      var after := "," + EntriesThen(context, fields[1..], k);
      assert after[1..] == EntriesThen(context, fields[1..], k);
      RunEntry(d, context, fields, k, after);
    }
  }

  lemma {:induction false} RunEntry(d: nat, context: Json, fields: seq<Field>, k: string, after: string)
    requires d >= 1 && fields != [] && WellFormed(fields[0].value)
    requires forall i | 0 <= i < |fields| :: fields[i].value < context
    requires after == if |fields| == 1 then "}" + k else "," + EntriesThen(context, fields[1..], k)
    ensures Run(Out(d), EntriesThen(context, fields, k)) == Run(Out(d), after)
    decreases context, 0
  {
    var valueThen := JsonThen(fields[0].value, after);
    assert EntriesThen(context, fields, k) == "\"" + QuoteRest(fields[0].key, ":" + valueThen);
    RunKey(d, fields[0].key, valueThen);
    RunValue(d, fields[0].value, after);
  }

  /** The reader finishes an object's text exactly at its end. */
  lemma RunObject(j: Json)
    requires WellFormed(j) && j.Obj?
    ensures Run(Start, StableJson(j)) == Done
    ensures Run(Out(1), StableJson(j)) == Out(1)
  {
    JsonThenIs(j, "");
    assert StableJson(j) == JsonThen(j, "");
    assert JsonThen(j, "")[1..] == EntriesThen(j, Sorted(j), "");
    RunEntries(1, j, Sorted(j), "");
    RunValue(1, j, "");
  }

  /** Two readers of one text, one inside a string where the other is outside, never both succeed. */
  ghost predicate Crossed(a: Lex, b: Lex) {
    a.Err? || b.Err? || b.Done? || (a.In? && b.Out?) || (a.Out? && b.In?) || (a.Done? && b.In?)
  }

  lemma {:induction false} RunCrossed(a: Lex, b: Lex, s: string)
    requires Crossed(a, b)
    ensures Crossed(Run(a, s), Run(b, s))
    decreases |s|
  {
    if s != "" {
      RunCrossed(Step(a, s[0]), Step(b, s[0]), s[1..]);
    }
  }

  lemma {:induction false} RunErr(s: string)
    ensures Run(Err, s) == Err
  {
    if s != "" { RunErr(s[1..]); }
  }

  lemma {:induction false} RunDepth(d: nat, j: Json)
    requires WellFormed(j) && j.Obj? && d >= 1
    ensures Run(Out(d), StableJson(j)) == Out(d)
  {
    JsonThenIs(j, "");
    assert StableJson(j) == JsonThen(j, "");
    RunValue(d, j, "");
  }

  /** One object's text is never another object's text behind a colon: not at the top level,
      not nested inside it, and not inside one of its strings. */
  lemma NotBehindColon(a: Json, b: Json, u: string)
    requires WellFormed(a) && WellFormed(b) && a.Obj? && b.Obj?
    ensures StableJson(a) != u + ":" + StableJson(b)
  {
    if StableJson(a) == u + ":" + StableJson(b) {
      RunObject(a);
      RunConcat(Start, u + ":", StableJson(b));
      AfterColon(u);
      NeverDone(Run(Start, u + ":"), b);
    }
  }

  /** A colon is neither the first thing read nor what ends an escape unseen. */
  lemma AfterColon(u: string)
    ensures var st := Run(Start, u + ":"); !st.Start? && !st.Esc? && (st.Out? ==> st.depth >= 1)
  {
    RunConcat(Start, u, ":");
    assert Run(Start, u + ":") == Step(Run(Start, u), ':');
    RunOutDepth(Start, u + ":");
  }

  /** Once the reader has begun, an object's text does not bring it to the end. */
  lemma NeverDone(st: Lex, j: Json)
    requires WellFormed(j) && j.Obj?
    requires !st.Start? && !st.Esc? && (st.Out? ==> st.depth >= 1)
    ensures Run(st, StableJson(j)) != Done
  {
    match st
    case Out(d) => RunDepth(d, j);
    case In(d) => NeverDoneInside(d, j);
    case _ =>
      JsonThenIs(j, "");
      RunStuck(st, StableJson(j));
  }

  lemma NeverDoneInside(d: nat, j: Json)
    requires WellFormed(j) && j.Obj?
    ensures Run(In(d), StableJson(j)) != Done
  {
    RunObject(j);
    RunCrossed(In(d), Out(1), StableJson(j));
  }

  lemma RunStuck(st: Lex, s: string)
    requires st.Done? || st.Err?
    ensures s != "" ==> Run(st, s) == Err
  {
    if s != "" { RunErr(s[1..]); }
  }

  /** Outside a string the depth is always positive. */
  lemma {:induction false} RunOutDepth(st: Lex, s: string)
    requires (st.Out? || st.In? || st.Esc?) ==> st.depth >= 1
    ensures var r := Run(st, s); (r.Out? || r.In? || r.Esc?) ==> r.depth >= 1
    decreases |s|
  {
    if s != "" { RunOutDepth(Step(st, s[0]), s[1..]); }
  }

  /** The guard's key never merges two different calls and never splits one call, whatever
      characters the tool names hold. */
  lemma CallKeyInjective(tool: string, input: Json, other: string, otherInput: Json)
    requires WellFormed(input) && WellFormed(otherInput) && input.Obj? && otherInput.Obj?
    ensures CallKeyOf(tool, input) == CallKeyOf(other, otherInput) <==>
            tool == other && Meaning(input) == Meaning(otherInput)
  {
    StableJsonIsCanonical(input, otherInput);
    if CallKeyOf(tool, input) == CallKeyOf(other, otherInput) {
      NameNotShorter(tool, input, other, otherInput);
      NameNotShorter(other, otherInput, tool, input);
      SameNames(tool, StableJson(input), other, StableJson(otherInput));
    }
  }

  lemma SameNames(tool: string, text: string, other: string, otherText: string)
    requires |tool| == |other| && tool + ":" + text == other + ":" + otherText
    ensures tool == other && text == otherText
  {
    var key := tool + ":" + text;
    assert tool == key[..|tool|] && other == key[..|tool|];
    assert text == key[|tool| + 1..] && otherText == key[|tool| + 1..];
  }

  lemma NameNotShorter(tool: string, input: Json, other: string, otherInput: Json)
    requires WellFormed(input) && WellFormed(otherInput) && input.Obj? && otherInput.Obj?
    requires CallKeyOf(tool, input) == CallKeyOf(other, otherInput)
    ensures |other| <= |tool|
  {
    if |tool| < |other| {
      Behind(tool, StableJson(input), other, StableJson(otherInput));
      NotBehindColon(input, otherInput, other[|tool| + 1..]);
    }
  }

  lemma Behind(tool: string, text: string, other: string, otherText: string)
    requires |tool| < |other| && tool + ":" + text == other + ":" + otherText
    ensures text == other[|tool| + 1..] + ":" + otherText
  {
    var key := tool + ":" + text;
    assert text == key[|tool| + 1..];
    assert key[|tool| + 1..] == other[|tool| + 1..] + ":" + otherText;
  }
}
