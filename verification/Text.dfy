/** White space as JavaScript sees it, and trimming. */
module Text {

  /** What `\s` matches in a regular expression, and what `trim` removes. */
  predicate IsSpace(c: char) {
    c == ' ' || ('\t' <= c <= '\r') || c == '\U{00A0}' || c == '\U{1680}' || ('\U{2000}' <= c <= '\U{200A}') ||
    c == '\U{2028}' || c == '\U{2029}' || c == '\U{202F}' || c == '\U{205F}' || c == '\U{3000}' || c == '\U{FEFF}'
  }

  function TrimStart(s: string): string {
    if s != "" && IsSpace(s[0]) then TrimStart(s[1..]) else s
  }

  function TrimEnd(s: string): string {
    if s != "" && IsSpace(s[|s| - 1]) then TrimEnd(s[..|s| - 1]) else s
  }

  function Trim(s: string): string {
    TrimEnd(TrimStart(s))
  }

  lemma {:induction false} TrimStartAppend(s: string, c: char)
    requires IsSpace(c)
    ensures TrimStart(s + [c]) == if TrimStart(s) == "" then "" else TrimStart(s) + [c]
  {
    if s == "" {
      assert s + [c] == [c] && [c][1..] == "";
    } else {
      assert (s + [c])[0] == s[0] && (s + [c])[1..] == s[1..] + [c];
      if IsSpace(s[0]) { TrimStartAppend(s[1..], c); }
    }
  }

  /** Trimming does not see white space added around the text. */
  lemma TrimIgnoresMargin(s: string, c: char, d: char)
    requires IsSpace(c) && IsSpace(d)
    ensures Trim([c] + s + [d]) == Trim(s)
  {
    var inner := s + [d];
    assert [c] + s + [d] == [c] + inner && ([c] + inner)[1..] == inner;
    TrimStartAppend(s, d);
    var t := TrimStart(s);
    if t != "" { assert (t + [d])[..|t|] == t; }
  }

  /** A text is blank when only white space is in it. */
  lemma {:induction false} BlankTrims(s: string)
    ensures Trim(s) == "" <==> forall i | 0 <= i < |s| :: IsSpace(s[i])
  {
    TrimStartBlank(s);
    var t := TrimStart(s);
    if t != "" { TrimEndKeepsFirst(t); }
  }

  lemma {:induction false} TrimStartBlank(s: string)
    ensures TrimStart(s) == "" <==> forall i | 0 <= i < |s| :: IsSpace(s[i])
    ensures TrimStart(s) != "" ==> !IsSpace(TrimStart(s)[0])
  {
    if s != "" && IsSpace(s[0]) {
      TrimStartBlank(s[1..]);
      assert s == [s[0]] + s[1..];
    }
  }

  lemma {:induction false} TrimEndKeepsFirst(s: string)
    requires s != "" && !IsSpace(s[0])
    ensures TrimEnd(s) != ""
  {
    if IsSpace(s[|s| - 1]) { TrimEndKeepsFirst(s[..|s| - 1]); }
  }

  lemma {:induction false} TrimEndEnds(s: string)
    ensures TrimEnd(TrimEnd(s)) == TrimEnd(s)
    ensures s != "" && !IsSpace(s[0]) ==> TrimEnd(s) != "" && TrimEnd(s)[0] == s[0]
  {
    if s != "" && IsSpace(s[|s| - 1]) { TrimEndEnds(s[..|s| - 1]); }
  }

  /** Trimming twice is trimming once. */
  lemma TrimTwice(s: string)
    ensures Trim(Trim(s)) == Trim(s)
  {
    var t := TrimStart(s);
    TrimStartBlank(s);
    TrimEndEnds(t);
    assert TrimStart(TrimEnd(t)) == TrimEnd(t);
  }

  // ----- comparing texts loosely -----

  /** `toLowerCase`, for ASCII letters. */
  function LowerChar(c: char): char {
    if 'A' <= c <= 'Z' then c - 'A' + 'a' else c
  }

  function Lower(s: string): string {
    seq(|s|, i requires 0 <= i < |s| => LowerChar(s[i]))
  }

  /** Every run of white space becomes one blank. */
  function Collapse(s: string): string {
    if s == "" then ""
    else if !IsSpace(s[0]) then [s[0]] + Collapse(s[1..])
    else if |s| > 1 && IsSpace(s[1]) then Collapse(s[1..])
    else " " + Collapse(s[1..])
  }

  function Normalize(s: string): string {
    Collapse(Lower(Trim(s)))
  }

  lemma {:induction false} CollapseKeepsNonEmpty(s: string)
    requires s != ""
    ensures Collapse(s) != ""
  {
    if |s| > 1 && IsSpace(s[0]) && IsSpace(s[1]) { CollapseKeepsNonEmpty(s[1..]); }
  }

  lemma NormalizeBlank(s: string)
    ensures Normalize(s) == "" <==> Trim(s) == ""
    ensures Normalize(Trim(s)) == Normalize(s)
  {
    TrimTwice(s);
    if Trim(s) != "" { CollapseKeepsNonEmpty(Lower(Trim(s))); }
  }

  lemma Associates(x: string, y: string, z: string)
    ensures x + y + z == x + (y + z)
  {
  }
}
