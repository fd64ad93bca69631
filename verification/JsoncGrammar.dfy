/** Where the tokens of a text end, and which characters a trailing comma takes with it. */
module JsoncGrammar {
  import opened Jsonc
  import opened JsoncLaws
  import opened Text

  // ----- string literals -----

  /** How many backslashes stand directly before place `p`. */
  ghost function BackslashesBefore(s: string, p: nat): nat
    requires p <= |s|
  {
    if p > 0 && s[p - 1] == '\\' then 1 + BackslashesBefore(s, p - 1) else 0
  }

  /** A quote that an even number of backslashes precedes ends the literal. */
  ghost predicate Ends(s: string, quote: char, p: nat) {
    p < |s| && s[p] == quote && BackslashesBefore(s, p) % 2 == 0
  }

  lemma {:induction false} RunBehind(s: string, p: nat)
    requires 1 <= p <= |s| && s[0] != '\\'
    ensures BackslashesBefore(s, p) == BackslashesBefore(s[1..], p - 1)
  {
    if p > 1 { RunBehind(s, p - 1); }
  }

  lemma {:induction false} RunBehindTwo(s: string, p: nat)
    requires 2 <= p <= |s| && s[0] == '\\'
    ensures BackslashesBefore(s, p) % 2 == BackslashesBefore(s[2..], p - 2) % 2
  {
    assert BackslashesBefore(s, 1) == 1 + BackslashesBefore(s, 0);
    if p > 2 { RunBehindTwo(s, p - 1); }
  }

  /** The rest of a literal is the text up to and with the first quote of its kind that an even number of
      backslashes precedes, or all of it when there is none. */
  lemma {:induction false} LiteralEnds(s: string, quote: char)
    requires quote != '\\'
    ensures var n := BodyLength(s, quote);
            && (forall p | 0 <= p < n - 1 :: !Ends(s, quote, p))
            && ((n > 0 && Ends(s, quote, n - 1)) || (n == |s| && !(n > 0 && Ends(s, quote, n - 1))))
    decreases |s|
  {
    if s != "" {
      var n := BodyLength(s, quote);
      if s[0] == '\\' && |s| > 1 {
        LiteralEnds(s[2..], quote);
        forall p | 2 <= p < |s| ensures Ends(s, quote, p) <==> Ends(s[2..], quote, p - 2) {
          RunBehindTwo(s, p);
        }
        assert BackslashesBefore(s, 1) == 1 + BackslashesBefore(s, 0);
      } else if s[0] != '\\' && s[0] != quote {
        LiteralEnds(s[1..], quote);
        forall p | 1 <= p < |s| ensures Ends(s, quote, p) <==> Ends(s[1..], quote, p - 1) {
          RunBehind(s, p);
        }
      }
    }
  }

  // ----- comments -----

  lemma {:induction false} LineEnds(s: string)
    ensures var n := LineLength(s);
            && (forall p | 0 <= p < n - 1 :: s[p] != '\n')
            && ((n > 0 && s[n - 1] == '\n') || n == |s|)
  {
    if s != "" && s[0] != '\n' {
      LineEnds(s[1..]);
      assert forall p | 1 <= p < |s| :: s[p] == s[1..][p - 1];
    }
  }

  /** A comment's closer stands at this place. */
  ghost predicate Closes(s: string, p: nat) {
    p + 1 < |s| && s[p] == '*' && s[p + 1] == '/'
  }

  lemma {:induction false} BlockEnds(s: string)
    ensures var n := BlockLength(s);
            && (forall p | 0 <= p < n - 2 :: !Closes(s, p))
            && ((n > 1 && Closes(s, n - 2)) || (n == |s| && forall p | 0 <= p < n :: !Closes(s, p)))
  {
    if s != "" && !StartsWith(s, '*', '/') {
      BlockEnds(s[1..]);
      assert forall p | 1 <= p < |s| :: Closes(s, p) <==> Closes(s[1..], p - 1);
    }
  }

  // ----- the first token -----

  /** A literal: a quote, and what follows up to the quote that ends it. */
  ghost predicate IsLiteral(s: string, text: string) {
    && text != "" && text <= s && (s[0] == '"' || s[0] == '\'')
    && (forall p | 0 <= p < |text| - 2 :: !Ends(s[1..], s[0], p))
    && ((|text| > 1 && Ends(s[1..], s[0], |text| - 2)) || text == s)
  }

  /** A line comment: two slashes, and what follows up to and with the next newline. */
  ghost predicate IsLineComment(s: string, text: string) {
    && |text| >= 2 && text <= s && s[0] == '/' && s[1] == '/'
    && (forall p | 0 <= p < |text| - 1 :: text[p] != '\n')
    && (text[|text| - 1] == '\n' || text == s)
  }

  /** A block comment: a slash and a star, and what follows up to and with the next star and slash. */
  ghost predicate IsBlockComment(s: string, text: string) {
    && |text| >= 2 && text <= s && s[0] == '/' && s[1] == '*'
    && (forall p | 2 <= p < |text| - 2 :: !Closes(s, p))
    && ((|text| >= 4 && Closes(s, |text| - 2)) || (text == s && forall p | 2 <= p < |s| :: !Closes(s, p)))
  }

  lemma LiteralFits(s: string)
    requires s != "" && (s[0] == '"' || s[0] == '\'')
    ensures FirstToken(s).Literal? && IsLiteral(s, FirstToken(s).text)
  {
    LiteralEnds(s[1..], s[0]);
  }

  lemma LineCommentFits(s: string)
    requires |s| >= 2 && s[0] == '/' && s[1] == '/'
    ensures FirstToken(s).LineComment? && IsLineComment(s, FirstToken(s).text)
  {
    LineEnds(s);
    CommentFits(s);
  }

  lemma BlockCommentFits(s: string)
    requires |s| >= 2 && s[0] == '/' && s[1] == '*'
    ensures FirstToken(s).BlockComment? && IsBlockComment(s, FirstToken(s).text)
  {
    BlockEnds(s[2..]);
    assert forall p | 2 <= p < |s| :: Closes(s, p) <==> Closes(s[2..], p - 2);
  }

  /** The first token of a text: a literal, a line comment, a block comment, or a single character that
      starts none of these. */
  lemma FirstTokenIs(s: string)
    requires s != ""
    ensures match FirstToken(s)
            case Literal(text) => IsLiteral(s, text)
            case LineComment(text) => IsLineComment(s, text)
            case BlockComment(text) => IsBlockComment(s, text)
            case Plain(text) =>
              text == [s[0]] && s[0] != '"' && s[0] != '\'' &&
              (s[0] == '/' ==> |s| == 1 || (s[1] != '/' && s[1] != '*'))
  {
    if s[0] == '"' || s[0] == '\'' {
      LiteralFits(s);
    } else if |s| >= 2 && s[0] == '/' && s[1] == '/' {
      LineCommentFits(s);
    } else if |s| >= 2 && s[0] == '/' && s[1] == '*' {
      BlockCommentFits(s);
    }
  }

  /** What the scan leaves of the first token: a literal or another character as it is, one newline for a
      line comment, and nothing for a block comment. */
  lemma ScanTakesFirst(s: string)
    requires s != ""
    ensures var rest := Scan(s[|FirstToken(s).text|..]);
            Scan(s) == match FirstToken(s)
                       case Literal(text) => text + rest
                       case LineComment(_) => "\n" + rest
                       case BlockComment(_) => rest
                       case Plain(text) => text + rest
  {
    FirstTokenScanned(s);
  }

  // ----- trailing commas -----

  /** A comma, white space, and a closing bracket, from place `j` to place `k`. */
  ghost predicate Trails(s: string, j: nat, k: nat) {
    && j < k < |s| && s[j] == ',' && (s[k] == '}' || s[k] == ']')
    && forall i | j < i < k :: IsSpace(s[i])
  }

  /** The character is such a comma, or stands between one and its bracket. */
  ghost predicate Dropped(s: string, i: nat) {
    exists j: nat, k: nat :: j <= i < k && Trails(s, j, k)
  }

  /** The characters from place `i` on that are not dropped. */
  ghost function Remaining(s: string, i: nat): string
    requires i <= |s|
    decreases |s| - i
  {
    if i == |s| then "" else (if Dropped(s, i) then "" else [s[i]]) + Remaining(s, i + 1)
  }

  ghost predicate ClosedAt(s: string, i: nat, k: nat) {
    i <= k < |s| && IsCloser(s[k]) && forall x | i <= x < k :: IsSpace(s[x])
  }

  lemma {:induction false} CloserAt(s: string, i: nat) returns (k: nat)
    requires i <= |s| && ClosesNext(s[i..])
    ensures ClosedAt(s, i, k)
    decreases |s| - i
  {
    if IsCloser(s[i]) {
      k := i;
    } else {
      assert s[i..][1..] == s[i + 1..];
      k := CloserAt(s, i + 1);
    }
  }

  lemma {:induction false} ClosesAt(s: string, i: nat, k: nat)
    requires ClosedAt(s, i, k)
    ensures ClosesNext(s[i..])
    decreases k - i
  {
    if i < k {
      assert s[i..][1..] == s[i + 1..];
      ClosesAt(s, i + 1, k);
    }
  }

  /** No comma before place `i` takes anything from there on. */
  ghost predicate Between(s: string, i: nat) {
    forall j: nat, k: nat | Trails(s, j, k) && j < i :: k < i
  }

  lemma NoCommaHere(s: string, i: nat)
    requires i < |s| && Between(s, i) && !TrailingComma(s[i..])
    ensures !Dropped(s, i) && Between(s, i + 1)
  {
    forall k: nat ensures !Trails(s, i, k) {
      if Trails(s, i, k) {
        assert s[i..][1..] == s[i + 1..];
        ClosesAt(s, i + 1, k);
      }
    }
  }

  lemma CloserStays(s: string, j: nat, k: nat)
    requires Trails(s, j, k)
    ensures !Dropped(s, k) && Between(s, k + 1)
  {
    assert !IsSpace(s[k]) && s[k] != ',';
  }

  /** From here to the next closer all is as it should be. */
  ghost predicate Inside(s: string, i: nat) {
    i <= |s| && ClosesNext(s[i..]) && DropToCloser(s[i..]) == Remaining(s, i)
  }

  lemma CloserCopied(s: string, j: nat, k: nat)
    requires Trails(s, j, k) && DropTrailingCommas(s[k + 1..]) == Remaining(s, k + 1)
    ensures Inside(s, k)
  {
    CloserStays(s, j, k);
    assert s[k..][1..] == s[k + 1..];
  }

  lemma SpaceDropped(s: string, j: nat, k: nat, i: nat)
    requires Trails(s, j, k) && j < i < k && Inside(s, i + 1)
    ensures Inside(s, i)
  {
    IsDropped(s, j, k, i);
    NoCloser(s[i]);
    assert s[i..][1..] == s[i + 1..];
  }

  lemma NoCloser(c: char)
    requires IsSpace(c)
    ensures !IsCloser(c)
  {
  }

  /** So it is from behind a comma to its bracket, when the rest is as it should be. */
  lemma {:induction false} DropInside(s: string, j: nat, k: nat, i: nat)
    requires Trails(s, j, k) && j < i <= k
    requires DropTrailingCommas(s[k + 1..]) == Remaining(s, k + 1)
    ensures Inside(s, i)
    decreases k - i
  {
    if i == k {
      CloserCopied(s, j, k);
    } else {
      DropInside(s, j, k, i + 1);
      SpaceDropped(s, j, k, i);
    }
  }

  lemma IsDropped(s: string, j: nat, k: nat, i: nat)
    requires Trails(s, j, k) && j <= i < k
    ensures Dropped(s, i)
  {
  }

  lemma CommaDropped(s: string, i: nat)
    requires i < |s| && TrailingComma(s[i..]) && Dropped(s, i) && Inside(s, i + 1)
    ensures DropTrailingCommas(s[i..]) == Remaining(s, i)
  {
    assert s[i..][1..] == s[i + 1..];
  }

  lemma {:induction false} DropFrom(s: string, i: nat)
    requires i <= |s| && Between(s, i)
    ensures DropTrailingCommas(s[i..]) == Remaining(s, i)
    decreases |s| - i
  {
    if i < |s| {
      assert s[i..][1..] == s[i + 1..];
      if TrailingComma(s[i..]) {
        var k := CloserAt(s, i + 1);
        assert Trails(s, i, k);
        IsDropped(s, i, k, i);
        CloserStays(s, i, k);
        DropFrom(s, k + 1);
        DropInside(s, i, k, i + 1);
        CommaDropped(s, i);
      } else {
        NoCommaHere(s, i);
        DropFrom(s, i + 1);
      }
    }
  }

  /** What the replacement leaves are exactly the other characters, in order. */
  lemma DropIsFilter(s: string)
    ensures DropTrailingCommas(s) == Remaining(s, 0)
  {
    DropFrom(s, 0);
    assert s[0..] == s;
  }
}
