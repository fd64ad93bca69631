/** What the type names of a schema stand for. */
module SchemaTypes {
  import opened Basics
  import opened Numerals
  import opened JsonValues
  import opened SchemaValidate

  // ----- one declared type -----

  /** The schema that declares this one type and nothing else. */
  function TypeSchema(name: string): Json {
    Obj([Field("type", Str(name))])
  }

  ghost predicate Accepts(schema: Json, value: Json)
    requires schema.Obj?
  {
    Issues(schema, value, []) == []
  }

  lemma OnlyType(name: string, key: string)
    ensures Get(TypeSchema(name), key) == if key == "type" then Some(Str(name)) else None
  {
    var fields := TypeSchema(name).fields;
    assert fields[0].key == "type";
    assert forall k | k in Keys(fields) :: k == "type";
  }

  lemma TypeAccepts(name: string, value: Json)
    ensures Accepts(TypeSchema(name), value) <==> MatchesType(ReadType(name), value)
  {
    assert "enum"[0] != "type"[0];
    OnlyType(name, "type");
    OnlyType(name, "enum");
    OnlyType(name, "required");
    OnlyType(name, "properties");
    OnlyType(name, "additionalProperties");
    OnlyType(name, "items");
    assert [name][1..] == [];
    assert SomeTypeMatches([name], value) <==> MatchesType(ReadType(name), value);
    assert TypeIssues(Some(Str(name)), value, []) == [] <==> SomeTypeMatches([name], value);
    assert StringsOf(None) == [];
    if value.Obj? { assert ObjectIssues(None, None, None, value, []) == []; }
    if value.Arr? { assert ArrayIssues(None, value, []) == []; }
    var schema := TypeSchema(name);
    assert TypeIssues(Get(schema, "type"), value, []) == [] ==> Issues(schema, value, []) == [];
  }

  /** A schema that declares one of the seven type names and nothing else accepts exactly the values of that
      JSON kind; with any other name it accepts nothing. */
  lemma NamesStandFor(name: string, value: Json)
    ensures Accepts(TypeSchema(name), value) <==>
            || (name == "object" && value.Obj?)
            || (name == "array" && value.Arr?)
            || (name == "string" && value.Str?)
            || (name == "number" && value.Num?)
            || (name == "integer" && value.Num? && IntegerLiteral(value.literal))
            || (name == "boolean" && value.Bool?)
            || (name == "null" && value.Null?)
  {
    TypeAccepts(name, value);
  }

  // ----- integers -----

  /** A number as JavaScript writes it: digits before and behind the point, and a power of ten. */
  datatype Number = Number(negative: bool, whole: string, fraction: string, exponent: int)

  /** Section 6.1.6.1.20 of ECMA-262: without an exponent there are digits before the point, and those
      behind it do not end in a zero; an exponent is at least 21 or at most -7, and goes with at most 17
      digits, one of them before the point, which neither start nor end in a zero. */
  ghost predicate Printed(n: Number) {
    && Digits(n.whole) && Digits(n.fraction) && n.whole != ""
    && (n.fraction != "" ==> n.fraction[|n.fraction| - 1] != '0')
    && (n.exponent != 0 ==>
          && (n.exponent >= 21 || n.exponent <= -7) && |n.whole| == 1 && n.whole[0] != '0' && |n.fraction| <= 16)
  }

  function PlainText(n: Number): string {
    (if n.negative then "-" else "") + n.whole + (if n.fraction == "" then "" else "." + n.fraction)
  }

  function ExponentText(exponent: int): string {
    if exponent == 0 then "" else if exponent > 0 then "e+" + Decimal(exponent) else "e-" + Decimal(-exponent)
  }

  function NumberText(n: Number): string {
    PlainText(n) + ExponentText(n.exponent)
  }

  function Ten(n: nat): (r: nat)
    ensures r > 0
  {
    if n == 0 then 1 else 10 * Ten(n - 1)
  }

  /** The number's size is `ValueOf(whole + fraction)` times ten to the exponent less the number of digits
      behind the point; it is whole when the power is not negative or divides the value. */
  ghost predicate IsWhole(n: Number)
    requires Printed(n)
  {
    n.exponent >= |n.fraction| || IsMultiple(ValueOf(n.whole + n.fraction), Ten(|n.fraction| - n.exponent))
  }

  ghost predicate IsMultiple(v: nat, t: nat)
    requires t > 0
  {
    v % t == 0
  }

  lemma MultipleEndsInZero(v: nat, t: nat)
    requires t > 0 && v % (10 * t) == 0
    ensures v % 10 == 0
  {
    var q := v / (10 * t);
    assert v == 10 * (t * q);
  }

  /** Digits that do not end in a zero stand for no multiple of a power of ten. */
  lemma NoMultiple(digits: string, k: nat)
    requires Digits(digits) && digits != "" && digits[|digits| - 1] != '0' && k > 0
    ensures !IsMultiple(ValueOf(digits), Ten(k))
  {
    var last := (digits[|digits| - 1] - '0') as nat;
    assert 0 < last < 10;
    if ValueOf(digits) % Ten(k) == 0 { MultipleEndsInZero(ValueOf(digits), Ten(k - 1)); }
  }

  /** A number with more digits behind the point than its exponent moves is not whole. */
  lemma NotWhole(n: Number)
    requires Printed(n) && n.exponent < |n.fraction|
    ensures !IsWhole(n)
  {
    var digits := n.whole + n.fraction;
    var last := if n.fraction != "" then n.fraction else n.whole;
    assert digits[|digits| - 1] == last[|last| - 1];
    NoMultiple(digits, |n.fraction| - n.exponent);
  }

  /** The text of a whole number is what the validator takes for an integer, and no other is. */
  lemma IntegerTextIff(n: Number)
    requires Printed(n)
    ensures IntegerLiteral(NumberText(n)) <==> IsWhole(n)
  {
    TextMarks(n);
    if n.exponent < |n.fraction| { NotWhole(n); }
  }

  lemma TextMarks(n: Number)
    requires Printed(n)
    ensures '.' in NumberText(n) <==> n.fraction != ""
    ensures 'e' in NumberText(n) <==> n.exponent != 0
    ensures '+' in NumberText(n) <==> n.exponent > 0
  {
    PlainMarks(n);
    ExponentMarks(n.exponent);
  }

  lemma PlainMarks(n: Number)
    requires Digits(n.whole) && Digits(n.fraction)
    ensures ('.' in PlainText(n) <==> n.fraction != "") && 'e' !in PlainText(n) && '+' !in PlainText(n)
  {
    NoMarks(n.whole);
    NoMarks(n.fraction);
  }

  lemma ExponentMarks(exponent: int)
    ensures var text := ExponentText(exponent);
            '.' !in text && ('e' in text <==> exponent != 0) && ('+' in text <==> exponent > 0)
  {
    var text := Decimal(if exponent < 0 then -exponent else exponent);
    DecimalReads(if exponent < 0 then -exponent else exponent);
    NoMarks(text);
    assert ("e+" + text)[0] == 'e' && ("e+" + text)[1] == '+' && ("e-" + text)[0] == 'e';
  }

  ghost predicate NumberChars(text: string) {
    forall i | 0 <= i < |text| :: NumberChar(text[i])
  }

  lemma JoinedNumberChars(a: string, b: string)
    requires NumberChars(a) && NumberChars(b)
    ensures NumberChars(a + b)
  {
  }

  lemma DigitsAreNumberChars(text: string)
    requires Digits(text)
    ensures NumberChars(text)
  {
  }

  lemma PlainIsNumber(n: Number)
    requires Printed(n)
    ensures PlainText(n) != "" && NumberChars(PlainText(n))
  {
    var front := (if n.negative then "-" else "") + n.whole;
    DigitsAreNumberChars(n.whole);
    DigitsAreNumberChars(n.fraction);
    JoinedNumberChars(if n.negative then "-" else "", n.whole);
    JoinedNumberChars(".", n.fraction);
    JoinedNumberChars(front, if n.fraction == "" then "" else "." + n.fraction);
  }

  lemma DecimalIsNumber(mark: string, n: nat)
    requires NumberChars(mark)
    ensures NumberChars(mark + Decimal(n))
  {
    DecimalReads(n);
    DigitsAreNumberChars(Decimal(n));
    JoinedNumberChars(mark, Decimal(n));
  }

  lemma ExponentIsNumber(exponent: int)
    ensures NumberChars(ExponentText(exponent))
  {
    assert NumberChars("e+") && NumberChars("e-");
    if exponent > 0 {
      DecimalIsNumber("e+", exponent);
    } else if exponent < 0 {
      DecimalIsNumber("e-", -exponent);
    }
  }

  /** The values that the theorems about well-formed JSON are about: numbers as they are printed, and every
      null, truth value and text; lists and records are made of these. */
  lemma PrintedIsWellFormed(n: Number, b: bool, text: string)
    requires Printed(n)
    ensures WellFormed(Num(NumberText(n))) && WellFormed(Null) && WellFormed(Bool(b)) && WellFormed(Str(text))
  {
    PlainIsNumber(n);
    ExponentIsNumber(n.exponent);
    JoinedNumberChars(PlainText(n), ExponentText(n.exponent));
  }

  lemma NoMarks(text: string)
    requires Digits(text)
    ensures '.' !in text && 'e' !in text && '+' !in text
  {
  }
}
