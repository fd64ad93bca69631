/** Comment stripping for JSONC files: the index-jumping scanner, the token grammar it refines,
    and the trailing-comma replacement that follows it. */
module Jsonc {
  import opened Text

  // ----- the grammar -----

  datatype Token =
    | Literal(text: string)
    | LineComment(text: string)
    | BlockComment(text: string)
    | Plain(text: string)

  predicate IsQuote(c: char) {
    c == '\"' || c == '\''
  }

  /** The length of a string literal's text after its opening quote, up to and with the closing
      one, or to the end of the input. */
  function BodyLength(s: string, quote: char): (n: nat)
    ensures n <= |s|
  {
    if s == "" then 0
    else if s[0] == '\\' then if |s| == 1 then 1 else 2 + BodyLength(s[2..], quote)
    else if s[0] == quote then 1
    else 1 + BodyLength(s[1..], quote)
  }

  /** The length of the text up to and with the next newline. */
  function LineLength(s: string): (n: nat)
    ensures n <= |s|
  {
    if s == "" then 0 else if s[0] == '\n' then 1 else 1 + LineLength(s[1..])
  }

  predicate StartsWith(s: string, a: char, b: char) {
    |s| >= 2 && s[0] == a && s[1] == b
  }

  /** The length of a block comment's text after its opener, up to and with its closer. */
  function BlockLength(s: string): (n: nat)
    ensures n <= |s|
  {
    if s == "" then 0 else if StartsWith(s, '*', '/') then 2 else 1 + BlockLength(s[1..])
  }

  function FirstToken(s: string): (t: Token)
    requires s != ""
    ensures t.text != "" && |t.text| <= |s| && t.text == s[..|t.text|]
  {
    if IsQuote(s[0]) then Literal(s[..1 + BodyLength(s[1..], s[0])])
    else if StartsWith(s, '/', '/') then
      assert LineLength(s) > 0;
      LineComment(s[..LineLength(s)])
    else if StartsWith(s, '/', '*') then BlockComment(s[..2 + BlockLength(s[2..])])
    else Plain(s[..1])
  }

  function Tokens(s: string): seq<Token> {
    if s == "" then [] else [FirstToken(s)] + Tokens(s[|FirstToken(s).text|..])
  }

  /** What stripping leaves of a token. */
  function Stripped(t: Token): string {
    match t
    case LineComment(_) => "\n"
    case BlockComment(_) => ""
    case _ => t.text
  }

  function StrippedAll(tokens: seq<Token>): string {
    if tokens == [] then "" else Stripped(tokens[0]) + StrippedAll(tokens[1..])
  }

  function TextOf(tokens: seq<Token>): string {
    if tokens == [] then "" else tokens[0].text + TextOf(tokens[1..])
  }

  /** The tokens cut the input up without loss. */
  lemma {:induction false} TokensAreText(s: string)
    ensures TextOf(Tokens(s)) == s
    decreases |s|
  {
    if s != "" {
      var first := FirstToken(s);
      TokensAreText(s[|first.text|..]);
      TextOfFirst(first, Tokens(s[|first.text|..]));
    }
  }

  lemma TextOfFirst(first: Token, rest: seq<Token>)
    ensures TextOf([first] + rest) == first.text + TextOf(rest)
  {
    assert ([first] + rest)[1..] == rest;
  }

  // ----- the scanner, character by character -----

  /** Where the scanner is: outside strings, inside one, or right behind a backslash in one. */
  datatype Mode = Outside | Inside(quote: char) | Escaped(quote: char)

  function NextInside(c: char, quote: char): Mode {
    if c == '\\' then Escaped(quote) else if c == quote then Outside else Inside(quote)
  }

  /** How much of the rest of the input a comment that starts here takes up. */
  function CommentLength(s: string): nat {
    if StartsWith(s, '/', '/') then LineLength(s)
    else if StartsWith(s, '/', '*') then 2 + BlockLength(s[2..])
    else 0
  }

  predicate IsComment(s: string) {
    StartsWith(s, '/', '/') || StartsWith(s, '/', '*')
  }

  lemma CommentFits(s: string)
    ensures CommentLength(s) <= |s| && (IsComment(s) ==> CommentLength(s) >= 2)
  {
    if StartsWith(s, '/', '/') { assert s[1..][0] == s[1] && LineLength(s[1..]) >= 1; }
  }

  function ScanFrom(s: string, mode: Mode): string
    decreases |s|
  {
    if s == "" then ""
    else if mode.Escaped? then [s[0]] + ScanFrom(s[1..], Inside(mode.quote))
    else if mode.Inside? then [s[0]] + ScanFrom(s[1..], NextInside(s[0], mode.quote))
    else if IsQuote(s[0]) then [s[0]] + ScanFrom(s[1..], Inside(s[0]))
    else if IsComment(s) then
      CommentFits(s);
      (if s[1] == '/' then "\n" else "") + ScanFrom(s[CommentLength(s)..], Outside)
    else [s[0]] + ScanFrom(s[1..], Outside)
  }

  function Scan(s: string): string {
    ScanFrom(s, Outside)
  }

  function From(input: string, index: nat): string {
    if index >= |input| then "" else input[index..]
  }

  function ModeOf(inString: bool, quote: char, escaped: bool): Mode {
    if escaped then Escaped(quote) else if inString then Inside(quote) else Outside
  }

  method StripComments(input: string) returns (output: string)
    ensures output == Scan(input)
  {
    output := "";
    var inString, quote, escaped := false, ' ', false;
    var index := 0;
    while index < |input|
      invariant escaped ==> inString
      invariant output + ScanFrom(From(input, index), ModeOf(inString, quote, escaped)) == Scan(input)
      decreases |input| - index
    {
      ghost var so := output;
      var emitted;
      if inString {
        var c := input[index];
        assert From(input, index)[1..] == From(input, index + 1);
        emitted := [c];
        if escaped {
          escaped := false;
        } else if c == '\\' {
          escaped := true;
        } else if c == quote {
          inString, quote := false, ' ';
        }
        index := index + 1;
      } else {
        emitted, index, inString, quote := ScanOutside(input, index);
      }
      output := output + emitted;
      Associates(so, emitted, ScanFrom(From(input, index), ModeOf(inString, quote, escaped)));
    }
  }

  lemma OutsideScanned(s: string)
    requires s != ""
    ensures CommentLength(s) <= |s|
    ensures Scan(s) == if IsQuote(s[0]) then [s[0]] + ScanFrom(s[1..], Inside(s[0]))
                       else if StartsWith(s, '/', '/') then "\n" + Scan(s[CommentLength(s)..])
                       else if StartsWith(s, '/', '*') then Scan(s[CommentLength(s)..])
                       else [s[0]] + Scan(s[1..])
  {
    CommentFits(s);
  }

  /** One turn of the loop outside a string: a quote, a comment, or any other character. */
  method ScanOutside(input: string, start: nat) returns (emitted: string, index: nat, inString: bool, quote: char)
    requires start < |input|
    ensures index > start
    ensures Scan(From(input, start)) == emitted + ScanFrom(From(input, index), ModeOf(inString, quote, false))
  {
    var c := input[start];
    emitted, index, inString, quote := [c], start + 1, false, ' ';
    assert From(input, start)[1..] == From(input, start + 1);
    ghost var s := From(input, start);
    OutsideScanned(s);
    assert s[0] == c && |s| == |input| - start && (|s| > 1 ==> s[1] == input[start + 1]);
    if IsQuote(c) {
      inString, quote := true, c;
    } else if c == '/' && start + 1 < |input| && input[start + 1] == '/' {
      var end := SkipLine(input, start);
      emitted, index := "\n", end + 1;
      assert From(input, index) == s[CommentLength(s)..];
    } else if c == '/' && start + 1 < |input| && input[start + 1] == '*' {
      var end := SkipBlock(input, start);
      emitted, index := "", end + 2;
      assert From(input, index) == s[CommentLength(s)..];
    }
  }

  /** The index of the newline that ends the line, or the end of the input. */
  method SkipLine(input: string, start: nat) returns (index: nat)
    requires start < |input|
    ensures start <= index <= |input|
    ensures From(input, index + 1) == input[start..][LineLength(input[start..])..]
  {
    index := start;
    while index < |input| && input[index] != '\n'
      invariant start <= index <= |input|
      invariant LineLength(input[start..]) == index - start + LineLength(input[index..])
    {
      assert input[index..][1..] == input[index + 1..];
      index := index + 1;
    }
    if index < |input| { assert input[start..][index + 1 - start..] == input[index + 1..]; }
  }

  /** The index of the closer of the block comment that starts here, or the end of the input. */
  method SkipBlock(input: string, start: nat) returns (index: nat)
    requires start < |input| && StartsWith(input[start..], '/', '*')
    ensures start + 2 <= index <= |input|
    ensures From(input, index + 2) == input[start..][CommentLength(input[start..])..]
  {
    index := start + 2;
    assert input[start..][2..] == input[index..];
    ghost var body := index;
    while index < |input| && !(input[index] == '*' && index + 1 < |input| && input[index + 1] == '/')
      invariant body <= index <= |input|
      invariant BlockLength(input[body..]) == index - body + BlockLength(input[index..])
    {
      assert input[index..][1..] == input[index + 1..];
      index := index + 1;
    }
    if index < |input| { assert input[start..][index + 2 - start..] == input[index + 2..]; }
  }
}
