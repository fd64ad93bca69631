/** What comment stripping and the trailing-comma replacement keep and change. */
module JsoncLaws {
  import opened Jsonc
  import opened Text

  // ----- the scanner strips tokens -----

  lemma InsideIsLiteral(s: string, quote: char)
    ensures var n := BodyLength(s, quote); ScanFrom(s, Inside(quote)) == s[..n] + Scan(s[n..])
  {
    var body, rest := LiteralSplits(s, quote);
    assert s[..|body|] == body && s[|body|..] == rest;
  }

  /** The rest of a literal is copied, and the scan goes on behind it. */
  lemma {:induction false} LiteralSplits(s: string, quote: char) returns (body: string, rest: string)
    ensures s == body + rest && |body| == BodyLength(s, quote)
    ensures ScanFrom(s, Inside(quote)) == body + Scan(rest)
    decreases |s|
  {
    if s == "" {
      body, rest := "", "";
    } else if s[0] == '\\' && |s| > 1 {
      EscapeIsCopied(s, quote);
      body, rest := LiteralSplits(s[2..], quote);
      body := s[..2] + body;
    } else if s[0] == '\\' || s[0] == quote {
      body, rest := [s[0]], s[1..];
    } else {
      body, rest := LiteralSplits(s[1..], quote);
      body := [s[0]] + body;
    }
  }

  lemma EscapeIsCopied(s: string, quote: char)
    requires |s| > 1 && s[0] == '\\'
    ensures ScanFrom(s, Inside(quote)) == s[..2] + ScanFrom(s[2..], Inside(quote))
  {
    var tail, rest := s[1..], ScanFrom(s[2..], Inside(quote));
    assert tail[1..] == s[2..];
    assert ScanFrom(tail, Escaped(quote)) == [tail[0]] + rest;
    assert [s[0]] + ([tail[0]] + rest) == s[..2] + rest;
  }

  lemma LiteralScanned(s: string)
    requires s != "" && IsQuote(s[0])
    ensures Scan(s) == s[..1 + BodyLength(s[1..], s[0])] + Scan(s[1 + BodyLength(s[1..], s[0])..])
  {
    var tail := s[1..];
    var n := BodyLength(tail, s[0]);
    InsideIsLiteral(tail, s[0]);
    assert s[..1 + n] == [s[0]] + tail[..n] && s[1 + n..] == tail[n..];
  }

  /** The scan strips the first token and goes on behind it. */
  lemma FirstTokenScanned(s: string)
    requires s != ""
    ensures Scan(s) == Stripped(FirstToken(s)) + Scan(s[|FirstToken(s).text|..])
  {
    if IsQuote(s[0]) { LiteralScanned(s); }
  }

  lemma StrippedFirst(first: Token, rest: seq<Token>)
    ensures StrippedAll([first] + rest) == Stripped(first) + StrippedAll(rest)
  {
    assert ([first] + rest)[1..] == rest;
  }

  /** Scanning cuts the input into tokens and strips each: literals and other characters stay
      verbatim, a line comment becomes one newline, and a block comment nothing. */
  lemma {:induction false} ScanStripsTokens(s: string)
    ensures Scan(s) == StrippedAll(Tokens(s))
    decreases |s|
  {
    if s != "" {
      var rest := s[|FirstToken(s).text|..];
      FirstTokenScanned(s);
      ScanStripsTokens(rest);
      StrippedFirst(FirstToken(s), Tokens(rest));
    }
  }

  // ----- the output has no comments -----

  /** No comment starts outside a string. */
  predicate Clean(s: string, mode: Mode) {
    if s == "" then true
    else if mode.Escaped? then Clean(s[1..], Inside(mode.quote))
    else if mode.Inside? then Clean(s[1..], NextInside(s[0], mode.quote))
    else if IsQuote(s[0]) then Clean(s[1..], Inside(s[0]))
    else !IsComment(s) && Clean(s[1..], Outside)
  }

  /** Exactly the texts without comments are left unchanged; any other gets shorter. */
  lemma {:induction false} UnchangedIffClean(s: string, mode: Mode)
    ensures ScanFrom(s, mode) == s <==> Clean(s, mode)
    ensures |ScanFrom(s, mode)| <= |s|
    decreases |s|
  {
    if s != "" {
      assert s == [s[0]] + s[1..];
      if mode.Escaped? {
        UnchangedIffClean(s[1..], Inside(mode.quote));
      } else if mode.Inside? {
        UnchangedIffClean(s[1..], NextInside(s[0], mode.quote));
      } else if IsQuote(s[0]) {
        UnchangedIffClean(s[1..], Inside(s[0]));
      } else if IsComment(s) {
        CommentFits(s);
        UnchangedIffClean(s[CommentLength(s)..], Outside);
      } else {
        UnchangedIffClean(s[1..], Outside);
      }
    }
  }

  lemma FirstStays(s: string)
    requires s == "" || s[0] != '/'
    ensures s == "" <==> Scan(s) == ""
    ensures s != "" ==> Scan(s)[0] == s[0]
  {
  }

  lemma {:induction false} ScanIsClean(s: string, mode: Mode)
    ensures Clean(ScanFrom(s, mode), mode)
    decreases |s|
  {
    if s != "" {
      if mode.Escaped? {
        ScanIsClean(s[1..], Inside(mode.quote));
      } else if mode.Inside? {
        ScanIsClean(s[1..], NextInside(s[0], mode.quote));
      } else if IsQuote(s[0]) {
        ScanIsClean(s[1..], Inside(s[0]));
      } else if IsComment(s) {
        CommentFits(s);
        ScanIsClean(s[CommentLength(s)..], Outside);
        var rest := Scan(s[CommentLength(s)..]);
        assert mode == Outside && ("\n" + rest)[1..] == rest && "" + rest == rest;
      } else {
        ScanIsClean(s[1..], Outside);
        if s[0] == '/' { FirstStays(s[1..]); }
        assert ScanFrom(s, mode)[1..] == Scan(s[1..]);
      }
    }
  }

  /** Stripping comments twice is stripping them once. */
  lemma ScanIsIdempotent(s: string)
    ensures Scan(Scan(s)) == Scan(s)
  {
    ScanIsClean(s, Outside);
    UnchangedIffClean(Scan(s), Outside);
  }

  // ----- trailing commas -----

  predicate IsCloser(c: char) {
    c == '}' || c == ']'
  }

  /** White space, if any, and then a closing bracket. */
  predicate ClosesNext(s: string) {
    s != "" && (IsCloser(s[0]) || (IsSpace(s[0]) && ClosesNext(s[1..])))
  }

  /** A match of the expression: a comma, white space, and a closing bracket. */
  predicate TrailingComma(s: string) {
    s != "" && s[0] == ',' && ClosesNext(s[1..])
  }

  /** Replaces every match by its bracket, from left to right. */
  function DropTrailingCommas(s: string): string
    decreases |s|, 1
  {
    if s == "" then ""
    else if TrailingComma(s) then DropToCloser(s[1..])
    else [s[0]] + DropTrailingCommas(s[1..])
  }

  function DropToCloser(s: string): string
    requires ClosesNext(s)
    decreases |s|, 0
  {
    if IsCloser(s[0]) then [s[0]] + DropTrailingCommas(s[1..]) else DropToCloser(s[1..])
  }

  /** All of `strip`. */
  function Strip(s: string): string {
    DropTrailingCommas(Scan(s))
  }

  predicate HasTrailingComma(s: string) {
    s != "" && (TrailingComma(s) || HasTrailingComma(s[1..]))
  }

  /** White space, if any, and then a trailing comma. */
  predicate TrailingCommaNext(s: string) {
    s != "" && (TrailingComma(s) || (IsSpace(s[0]) && TrailingCommaNext(s[1..])))
  }

  /** A comma, white space, and then a trailing comma. */
  predicate DoubleComma(s: string) {
    s != "" && s[0] == ',' && TrailingCommaNext(s[1..])
  }

  predicate HasDoubleComma(s: string) {
    s != "" && (DoubleComma(s) || HasDoubleComma(s[1..]))
  }

  lemma {:induction false} DropShortens(s: string)
    ensures |DropTrailingCommas(s)| <= |s|
    ensures DropTrailingCommas(s) == s <==> !HasTrailingComma(s)
    decreases |s|, 1
  {
    if s != "" {
      assert s == [s[0]] + s[1..];
      if TrailingComma(s) { DropToCloserShortens(s[1..]); } else { DropShortens(s[1..]); }
    }
  }

  lemma {:induction false} DropToCloserShortens(s: string)
    requires ClosesNext(s)
    ensures |DropToCloser(s)| <= |s|
    decreases |s|, 0
  {
    if IsCloser(s[0]) { DropShortens(s[1..]); } else { DropToCloserShortens(s[1..]); }
  }

  /** What is left starts with a closer exactly when one came next, or a trailing comma did. */
  lemma {:induction false} DropCloses(s: string)
    ensures ClosesNext(DropTrailingCommas(s)) <==> ClosesNext(s) || TrailingCommaNext(s)
    decreases |s|
  {
    if s != "" {
      if TrailingComma(s) {
        DropToCloserStarts(s[1..]);
      } else {
        DropCloses(s[1..]);
        assert DropTrailingCommas(s)[1..] == DropTrailingCommas(s[1..]);
      }
    }
  }

  lemma {:induction false} DropToCloserStarts(s: string)
    requires ClosesNext(s)
    ensures DropToCloser(s) != "" && IsCloser(DropToCloser(s)[0])
    decreases |s|
  {
    if !IsCloser(s[0]) { DropToCloserStarts(s[1..]); }
  }

  lemma {:induction false} DropLeavesDoubles(s: string)
    ensures HasTrailingComma(DropTrailingCommas(s)) <==> HasDoubleComma(s)
    decreases |s|, 1
  {
    if s != "" {
      if TrailingComma(s) {
        DropToCloserLeaves(s[1..]);
        CloserIsNoComma(s[1..]);
      } else {
        DropLeavesDoubles(s[1..]);
        DropCloses(s[1..]);
        assert DropTrailingCommas(s)[1..] == DropTrailingCommas(s[1..]);
      }
    }
  }

  lemma {:induction false} DropToCloserLeaves(s: string)
    requires ClosesNext(s)
    ensures HasTrailingComma(DropToCloser(s)) <==> HasDoubleComma(s)
    decreases |s|, 0
  {
    if IsCloser(s[0]) {
      DropLeavesDoubles(s[1..]);
      assert DropToCloser(s)[1..] == DropTrailingCommas(s[1..]);
    } else {
      DropToCloserLeaves(s[1..]);
    }
  }

  lemma {:induction false} CloserIsNoComma(s: string)
    requires ClosesNext(s)
    ensures !TrailingCommaNext(s)
  {
    if !IsCloser(s[0]) { CloserIsNoComma(s[1..]); }
  }

  // ----- both together -----

  /** The mode behind a character that starts no comment. */
  function NextMode(mode: Mode, c: char): Mode {
    if mode.Escaped? then Inside(mode.quote)
    else if mode.Inside? then NextInside(c, mode.quote)
    else if IsQuote(c) then Inside(c)
    else Outside
  }

  predicate Proper(mode: Mode) {
    mode.Outside? || IsQuote(mode.quote)
  }

  lemma {:induction false} DropKeepsClean(s: string, mode: Mode)
    requires Clean(s, mode) && Proper(mode)
    ensures Clean(DropTrailingCommas(s), mode)
    decreases |s|, 1
  {
    if s != "" {
      if TrailingComma(s) {
        DropToCloserClean(s[1..], mode);
      } else {
        DropKeepsClean(s[1..], NextMode(mode, s[0]));
        DropStart(s[1..]);
        assert DropTrailingCommas(s)[1..] == DropTrailingCommas(s[1..]);
      }
    }
  }

  lemma DropStart(s: string)
    ensures s == "" ==> DropTrailingCommas(s) == ""
    ensures var r := DropTrailingCommas(s); s != "" ==> r != "" && (r[0] == s[0] || IsCloser(r[0]))
  {
    if TrailingComma(s) { DropToCloserStarts(s[1..]); }
  }

  /** `mode` is where the dropped comma was. */
  lemma {:induction false} DropToCloserClean(s: string, mode: Mode)
    requires ClosesNext(s) && Clean(s, NextMode(mode, ',')) && Proper(mode)
    ensures Clean(DropToCloser(s), mode)
    decreases |s|, 0
  {
    if IsCloser(s[0]) {
      DropKeepsClean(s[1..], NextMode(mode, ','));
      assert DropToCloser(s)[1..] == DropTrailingCommas(s[1..]);
    } else {
      DropToCloserClean(s[1..], mode);
    }
  }

  /** `strip` does more than strip comments exactly when a trailing comma is left, which the
      expression also finds inside string literals. */
  lemma StripIsScanIff(s: string)
    ensures Strip(s) == Scan(s) <==> !HasTrailingComma(Scan(s))
  {
    DropShortens(Scan(s));
  }

  /** Stripping twice is stripping once exactly when no comma comes before a trailing comma. */
  lemma StripIsIdempotentIff(s: string)
    ensures Strip(Strip(s)) == Strip(s) <==> !HasDoubleComma(Scan(s))
  {
    ScanIsClean(s, Outside);
    DropKeepsClean(Scan(s), Outside);
    UnchangedIffClean(Strip(s), Outside);
    DropShortens(Strip(s));
    DropLeavesDoubles(Scan(s));
  }

  // ----- what happens to string literals -----

  /** The string literals of a text with their quotes, one behind the other. */
  function LiteralText(s: string, mode: Mode): string
    decreases |s|
  {
    if s == "" then ""
    else if mode.Escaped? then [s[0]] + LiteralText(s[1..], Inside(mode.quote))
    else if mode.Inside? then [s[0]] + LiteralText(s[1..], NextInside(s[0], mode.quote))
    else if IsQuote(s[0]) then [s[0]] + LiteralText(s[1..], Inside(s[0]))
    else if IsComment(s) then
      CommentFits(s);
      LiteralText(s[CommentLength(s)..], Outside)
    else LiteralText(s[1..], Outside)
  }

  function LiteralsOf(tokens: seq<Token>): string {
    if tokens == [] then "" else (if tokens[0].Literal? then tokens[0].text else "") + LiteralsOf(tokens[1..])
  }

  lemma {:induction false} LiteralIsRead(s: string, quote: char)
    ensures var n := BodyLength(s, quote); LiteralText(s, Inside(quote)) == s[..n] + LiteralText(s[n..], Outside)
    decreases |s|
  {
    if s != "" {
      if s[0] == '\\' && |s| > 1 {
        LiteralIsRead(s[2..], quote);
        EscapeIsRead(s, quote, BodyLength(s[2..], quote));
      } else if s[0] != '\\' && s[0] != quote {
        LiteralIsRead(s[1..], quote);
        FirstApart(s, BodyLength(s[1..], quote));
      }
    }
  }

  lemma FirstApart(s: string, n: nat)
    requires s != "" && n <= |s| - 1
    ensures s[..1 + n] == [s[0]] + s[1..][..n] && s[1 + n..] == s[1..][n..]
  {
  }

  /** An escape with what is read behind it. */
  lemma EscapeIsRead(s: string, quote: char, n: nat)
    requires |s| > 1 && s[0] == '\\' && n <= |s| - 2
    requires LiteralText(s[2..], Inside(quote)) == s[2..][..n] + LiteralText(s[2..][n..], Outside)
    ensures LiteralText(s, Inside(quote)) == s[..2 + n] + LiteralText(s[2 + n..], Outside)
  {
    var tail := s[1..];
    assert tail[1..] == s[2..] && LiteralText(tail, Escaped(quote)) == [tail[0]] + LiteralText(s[2..], Inside(quote));
    TwoApart(s, n);
  }

  lemma TwoApart(s: string, n: nat)
    requires |s| > 1 && n <= |s| - 2
    ensures s[..2 + n] == [s[0]] + ([s[1..][0]] + s[2..][..n]) && s[2 + n..] == s[2..][n..]
  {
  }

  lemma FirstTokenLiteral(s: string)
    requires s != ""
    ensures var first := FirstToken(s);
            LiteralText(s, Outside) == (if first.Literal? then first.text else "") +
              LiteralText(s[|first.text|..], Outside)
  {
    if IsQuote(s[0]) {
      var tail, n := s[1..], BodyLength(s[1..], s[0]);
      LiteralIsRead(tail, s[0]);
      assert s[..1 + n] == [s[0]] + tail[..n] && s[1 + n..] == tail[n..];
    } else {
      assert "" + LiteralText(s[|FirstToken(s).text|..], Outside) == LiteralText(s[|FirstToken(s).text|..], Outside);
    }
  }

  /** These are the literals of the token grammar. */
  lemma {:induction false} LiteralTextIsTokens(s: string)
    ensures LiteralText(s, Outside) == LiteralsOf(Tokens(s))
    decreases |s|
  {
    if s != "" {
      var rest := s[|FirstToken(s).text|..];
      FirstTokenLiteral(s);
      LiteralTextIsTokens(rest);
      assert ([FirstToken(s)] + Tokens(rest))[1..] == Tokens(rest);
    }
  }

  /** A trailing comma starts inside a string literal. */
  predicate CommaInLiteral(s: string, mode: Mode) {
    s != "" && ((!mode.Outside? && TrailingComma(s)) || CommaInLiteral(s[1..], NextMode(mode, s[0])))
  }

  /** Stripping comments keeps every literal as it is. */
  lemma {:induction false} ScanKeepsLiterals(s: string, mode: Mode)
    ensures LiteralText(ScanFrom(s, mode), mode) == LiteralText(s, mode)
    decreases |s|
  {
    ScanIsClean(s, mode);
    if s != "" {
      if mode.Escaped? {
        ScanKeepsLiterals(s[1..], Inside(mode.quote));
        HeadAndTail(s[0], ScanFrom(s[1..], Inside(mode.quote)));
      } else if mode.Inside? {
        ScanKeepsLiterals(s[1..], NextInside(s[0], mode.quote));
        HeadAndTail(s[0], ScanFrom(s[1..], NextInside(s[0], mode.quote)));
      } else if IsQuote(s[0]) {
        ScanKeepsLiterals(s[1..], Inside(s[0]));
        HeadAndTail(s[0], ScanFrom(s[1..], Inside(s[0])));
      } else if IsComment(s) {
        CommentFits(s);
        ScanKeepsLiterals(s[CommentLength(s)..], Outside);
        var rest := Scan(s[CommentLength(s)..]);
        HeadAndTail('\n', rest);
        assert mode == Outside && "" + rest == rest;
      } else {
        ScanKeepsLiterals(s[1..], Outside);
        HeadAndTail(s[0], Scan(s[1..]));
      }
    }
  }

  lemma HeadAndTail(c: char, rest: string)
    ensures ([c] + rest)[0] == c && ([c] + rest)[1..] == rest
  {
  }

  /** One character of a text without comments. */
  lemma LiteralStep(c: char, rest: string, mode: Mode)
    requires Clean([c] + rest, mode)
    ensures Clean(rest, NextMode(mode, c))
    ensures LiteralText([c] + rest, mode) ==
            (if mode.Outside? && !IsQuote(c) then "" else [c]) + LiteralText(rest, NextMode(mode, c))
  {
    HeadAndTail(c, rest);
  }

  /** Dropping trailing commas never adds to the literals, and leaves them as they are exactly when
      none of them holds one. */
  lemma {:induction false} DropKeepsLiteralsIff(s: string, mode: Mode)
    requires Clean(s, mode) && Proper(mode)
    ensures |LiteralText(DropTrailingCommas(s), mode)| <= |LiteralText(s, mode)|
    ensures LiteralText(DropTrailingCommas(s), mode) == LiteralText(s, mode) <==> !CommaInLiteral(s, mode)
    decreases |s|, 1
  {
    if s != "" {
      assert s == [s[0]] + s[1..];
      LiteralStep(s[0], s[1..], mode);
      if TrailingComma(s) {
        DropToCloserLiterals(s[1..], mode);
        assert mode.Outside? ==> LiteralText(s, mode) == LiteralText(s[1..], mode);
        assert !mode.Outside? ==> |LiteralText(s, mode)| == 1 + |LiteralText(s[1..], NextMode(mode, ','))|;
      } else {
        DropKeepsClean(s, mode);
        DropKeepsLiteralsIff(s[1..], NextMode(mode, s[0]));
        LiteralStep(s[0], DropTrailingCommas(s[1..]), mode);
        SameBehind(if mode.Outside? && !IsQuote(s[0]) then "" else [s[0]],
                   LiteralText(DropTrailingCommas(s[1..]), NextMode(mode, s[0])),
                   LiteralText(s[1..], NextMode(mode, s[0])));
      }
    }
  }

  lemma SameBehind(head: string, a: string, b: string)
    ensures head + a == head + b <==> a == b
  {
    assert (head + a)[|head|..] == a && (head + b)[|head|..] == b;
  }

  /** `mode` is where the dropped comma was. */
  lemma {:induction false} DropToCloserLiterals(s: string, mode: Mode)
    requires ClosesNext(s) && Clean(s, NextMode(mode, ',')) && Proper(mode)
    ensures |LiteralText(DropToCloser(s), mode)| <= |LiteralText(s, NextMode(mode, ','))|
    ensures mode.Outside? ==>
              (LiteralText(DropToCloser(s), mode) == LiteralText(s, mode) <==> !CommaInLiteral(s, mode))
    decreases |s|, 0
  {
    var inner := NextMode(mode, ',');
    assert s == [s[0]] + s[1..];
    LiteralStep(s[0], s[1..], inner);
    if IsCloser(s[0]) {
      DropToCloserClean(s, mode);
      DropKeepsLiteralsIff(s[1..], inner);
      LiteralStep(s[0], DropTrailingCommas(s[1..]), mode);
    } else {
      DropToCloserLiterals(s[1..], mode);
    }
  }

  /** The whole of `strip` keeps the string literals of a text exactly when no literal holds a comma
      that only white space separates from a closing bracket. */
  lemma StripKeepsLiteralsIff(s: string)
    ensures LiteralText(Strip(s), Outside) == LiteralText(s, Outside) <==> !CommaInLiteral(Scan(s), Outside)
  {
    ScanIsClean(s, Outside);
    ScanKeepsLiterals(s, Outside);
    DropKeepsLiteralsIff(Scan(s), Outside);
  }

  /** A string literal that the whole of `strip` changes, and a text it must strip twice. */
  lemma StripCounterexamples()
    ensures Scan("\",]\"") == "\",]\"" && Strip("\",]\"") == "\"]\""
    ensures Strip(",,]") == ",]" && Strip(",]") == "]"
  {
    assert ClosesNext("]\"") && ClosesNext("]");
    assert "\",]\""[1..] == ",]\"" && ",]\""[1..] == "]\"" && "]\""[1..] == "\"" && "\""[1..] == "";
    assert ",,]"[1..] == ",]" && ",]"[1..] == "]" && "]"[1..] == "";
  }
}
