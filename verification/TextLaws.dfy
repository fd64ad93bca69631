/** Trimming and normalising texts, from their characters and words. */
module TextLaws {
  import opened Text

  // ----- trimming -----

  ghost predicate AllSpace(s: string) {
    forall i | 0 <= i < |s| :: IsSpace(s[i])
  }

  /** The characters that count as white space. */
  lemma SpacesAre(c: char)
    ensures IsSpace(c) <==>
            c as int in {9, 10, 11, 12, 13, 32, 160, 5760, 8192, 8193, 8194, 8195, 8196, 8197, 8198, 8199, 8200, 8201,
                         8202, 8232, 8233, 8239, 8287, 12288, 65279}
  {
  }

  lemma {:induction false} TrimStartSplits(s: string) returns (a: string)
    ensures s == a + TrimStart(s) && AllSpace(a)
    ensures TrimStart(s) != "" ==> !IsSpace(TrimStart(s)[0])
  {
    if s != "" && IsSpace(s[0]) {
      var rest := TrimStartSplits(s[1..]);
      a := [s[0]] + rest;
    } else {
      a := "";
    }
  }

  lemma {:induction false} TrimEndSplits(s: string) returns (b: string)
    ensures s == TrimEnd(s) + b && AllSpace(b)
    ensures TrimEnd(s) != "" ==> !IsSpace(TrimEnd(s)[|TrimEnd(s)| - 1])
  {
    if s != "" && IsSpace(s[|s| - 1]) {
      var rest := TrimEndSplits(s[..|s| - 1]);
      b := rest + [s[|s| - 1]];
    } else {
      b := "";
    }
  }

  /** A text is white space, its trimmed form, and white space again; and the trimmed form neither starts
      nor ends with any. */
  lemma TrimSplits(s: string) returns (a: string, b: string)
    ensures s == a + Trim(s) + b && AllSpace(a) && AllSpace(b)
    ensures Trim(s) != "" ==> !IsSpace(Trim(s)[0]) && !IsSpace(Trim(s)[|Trim(s)| - 1])
  {
    a := TrimStartSplits(s);
    b := TrimEndSplits(TrimStart(s));
    assert Trim(s) != "" ==> Trim(s)[0] == TrimStart(s)[0];
  }

  // ----- words -----

  /** A word that starts with this character goes on with the next word, or ends. */
  ghost function Prepend(c: char, words: seq<string>, goesOn: bool): seq<string>
    requires goesOn ==> words != []
  {
    if goesOn then [[c] + words[0]] + words[1..] else [[c]] + words
  }

  /** What stands between white space. */
  ghost function Words(s: string): (words: seq<string>)
    ensures s != "" && !IsSpace(s[0]) ==> words != []
  {
    if s == "" then []
    else if IsSpace(s[0]) then Words(s[1..])
    else Prepend(s[0], Words(s[1..]), |s| > 1 && !IsSpace(s[1]))
  }

  /** The words with one blank between each two. */
  ghost function Joined(words: seq<string>): string {
    if words == [] then "" else if |words| == 1 then words[0] else words[0] + " " + Joined(words[1..])
  }

  lemma {:induction false} SpaceBeforeWords(a: string, s: string)
    requires AllSpace(a)
    ensures Words(a + s) == Words(s)
  {
    if a == "" {
      assert a + s == s;
    } else {
      assert (a + s)[1..] == a[1..] + s;
      SpaceBeforeWords(a[1..], s);
    }
  }

  lemma {:induction false} SpaceBehindWords(s: string, b: string)
    requires AllSpace(b)
    ensures Words(s + b) == Words(s)
  {
    if s == "" {
      assert s + b == b && b + "" == b;
      SpaceBeforeWords(b, "");
    } else {
      assert (s + b)[1..] == s[1..] + b;
      SpaceBehindWords(s[1..], b);
    }
  }

  lemma {:induction false} WordsNone(s: string)
    ensures Words(s) == [] <==> AllSpace(s)
    decreases |s|
  {
    if s != "" {
      assert s == [s[0]] + s[1..];
      if IsSpace(s[0]) { WordsNone(s[1..]); }
    }
  }

  lemma JoinedMore(word: string, words: seq<string>)
    ensures Joined([word] + words) == if words == [] then word else word + " " + Joined(words)
  {
    assert ([word] + words)[1..] == words;
  }

  lemma NewWord(c: char, words: seq<string>)
    ensures Joined(Prepend(c, words, false)) == if words == [] then [c] else [c] + (" " + Joined(words))
  {
    JoinedMore([c], words);
    Associates([c], " ", Joined(words));
  }

  lemma LongerWord(c: char, words: seq<string>)
    requires words != []
    ensures Joined(Prepend(c, words, true)) == [c] + Joined(words)
  {
    var more := words[1..];
    JoinedMore([c] + words[0], more);
    JoinedMore(words[0], more);
    assert words == [words[0]] + more;
    Associates([c], words[0], " " + Joined(more));
    Associates(words[0], " ", Joined(more));
    Associates([c] + words[0], " ", Joined(more));
  }

  /** What collapsing a text leaves, when it leaves its words with one blank between each two. */
  ghost predicate Joins(s: string) {
    Collapse(s) == (if s != "" && IsSpace(s[0]) then " " else "") + Joined(Words(s))
  }

  lemma SpaceJoins(s: string)
    requires |s| > 1 && IsSpace(s[0]) && Joins(s[1..])
    ensures Joins(s)
  {
    assert s[1..][0] == s[1] && Words(s) == Words(s[1..]);
  }

  lemma WordJoins(s: string)
    requires s != "" && !IsSpace(s[0]) && Joins(s[1..]) && (|s| > 1 ==> !AllSpace(s[1..]))
    ensures Joins(s)
  {
    var rest := s[1..];
    WordsNone(rest);
    if |s| > 1 && !IsSpace(s[1]) { LongerWord(s[0], Words(rest)); } else { NewWord(s[0], Words(rest)); }
  }

  /** That is so for a text that ends in a word. */
  lemma {:induction false} CollapseJoins(s: string)
    requires s == "" || !IsSpace(s[|s| - 1])
    ensures Joins(s)
  {
    if s != "" {
      CollapseJoins(s[1..]);
      if IsSpace(s[0]) {
        SpaceJoins(s);
      } else {
        assert |s| > 1 ==> s[1..][|s| - 2] == s[|s| - 1];
        WordJoins(s);
      }
    }
  }

  lemma LowerKeepsSpace(s: string)
    ensures |Lower(s)| == |s| && forall i | 0 <= i < |s| :: IsSpace(Lower(s)[i]) <==> IsSpace(s[i])
  {
  }

  lemma LowerConcat(a: string, b: string)
    ensures Lower(a + b) == Lower(a) + Lower(b)
  {
  }

  /** The normal form of a text are its words in lower case, with one blank between each two. */
  lemma NormalizeIs(s: string, lower: string)
    requires |lower| == |s|
    requires forall i | 0 <= i < |s| ::
               lower[i] as int == if 65 <= s[i] as int <= 90 then s[i] as int + 32 else s[i] as int
    ensures Normalize(s) == Joined(Words(lower))
  {
    assert lower == Lower(s);
    var a, b := TrimSplits(s);
    var t := Trim(s);
    LowerConcat(a, t);
    LowerConcat(a + t, b);
    LowerKeepsSpace(a);
    LowerKeepsSpace(b);
    LowerKeepsSpace(t);
    SpaceBehindWords(Lower(a) + Lower(t), Lower(b));
    SpaceBeforeWords(Lower(a), Lower(t));
    CollapseJoins(Lower(t));
  }
}
