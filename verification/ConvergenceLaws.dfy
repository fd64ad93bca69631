/** The verdict on a round and the open issues, from the steps alone. */
module ConvergenceLaws {
  import opened Basics
  import opened BlackboardTypes
  import opened Text
  import opened Convergence

  // ----- the verdict -----

  ghost predicate HasOpen(s: Step) {
    exists v :: (v in s.openIssues || v in s.blockers) && !Blank(v)
  }

  ghost predicate NoneOpen(current: seq<Step>) {
    forall s | s in current :: !HasOpen(s)
  }

  lemma OpenIsSome(current: seq<Step>)
    ensures Open(current) <==> !NoneOpen(current)
  {
    if Open(current) {
      var s, v :| s in current && (v in s.openIssues || v in s.blockers) && !Blank(v);
      assert HasOpen(s);
    }
    if s :| s in current && HasOpen(s) {
      var v :| (v in s.openIssues || v in s.blockers) && !Blank(v);
      assert Open(current);
    }
  }

  /** A round converges if and only if it has exactly one step for each worker, all of them final, none a
      rejection and none with an open issue or blocker that is not blank; the user is asked if and only if
      as many steps are all blocked and something is open. Otherwise the discussion goes on: because steps
      are missing, else something is open, else not all are final, else somebody rejects. */
  lemma VerdictIff(current: seq<Step>, expected: nat)
    ensures var verdict := VerdictOf(current, expected);
            && (verdict.status == Converge <==>
                  |current| == expected && NoneOpen(current) &&
                  forall s | s in current :: s.outcome == Some(Final) && s.agreement != Some(false))
            && (verdict.status == AskUser <==>
                  |current| == expected && !NoneOpen(current) && forall s | s in current :: s.outcome == Some(Blocked))
            && (verdict.reason == WorkersReachedConsensus <==> verdict.status == Converge)
            && (verdict.reason == WaitingForWorkers <==> |current| < expected)
            && (verdict.reason == PeerQaOpenIssues <==> |current| >= expected && !NoneOpen(current))
            && (verdict.reason == AwaitingWorkerFinalOutput <==>
                  |current| >= expected && NoneOpen(current) &&
                  (|current| > expected || exists s :: s in current && s.outcome != Some(Final)))
            && verdict.reason != HardRoundBudgetExhausted
  {
    OpenIsSome(current);
  }

  // ----- texts without repetitions -----

  /** Of texts with the same normal form the first one is kept, trimmed, behind all that are kept of the
      texts before it. */
  lemma {:induction false} UniqueAt(values: seq<string>, i: nat)
    requires i < |values| && Normalize(values[i]) != "" && Normalize(values[i]) !in Norms(values[..i])
    ensures |UniqueOf(values[..i])| < |UniqueOf(values)| && UniqueOf(values)[|UniqueOf(values[..i])|] == Trim(values[i])
    decreases |values|
  {
    var front, last := values[..|values| - 1], values[|values| - 1];
    assert values == front + [last];
    UniqueAppend(front, last);
    if i < |front| {
      assert front[..i] == values[..i];
      UniqueAt(front, i);
    } else {
      assert front == values[..i];
    }
  }

  ghost predicate StaysInFront(a: seq<string>, kept: seq<string>) {
    UniqueOf(a) <= kept && forall k | |UniqueOf(a)| <= k < |kept| :: Normalize(kept[k]) !in Norms(a)
  }

  lemma UniqueAppend(values: seq<string>, value: string)
    ensures UniqueOf(values + [value]) ==
            UniqueOf(values) + if Normalize(value) == "" || Normalize(value) in Norms(values) then [] else [Trim(value)]
  {
    assert (values + [value])[..|values|] == values;
  }

  /** What is kept of some texts stays in front when more texts follow; and nothing behind it looks like
      any of them. */
  lemma {:induction false} UniqueStays(a: seq<string>, b: seq<string>)
    ensures StaysInFront(a, UniqueOf(a + b))
  {
    if b == [] {
      assert a + b == a;
    } else {
      var front, last := b[..|b| - 1], b[|b| - 1];
      UniqueStays(a, front);
      assert b == front + [last] && a + b == a + front + [last];
      UniqueAppend(a + front, last);
      NormsGrow(a, front);
      NormalizeBlank(last);
    }
  }

  lemma NormsGrow(a: seq<string>, b: seq<string>)
    ensures forall n :: n in Norms(a + b) <==> n in Norms(a) || n in Norms(b)
  {
    forall i | 0 <= i < |a| && Normalize(a[i]) != "" ensures Normalize(a[i]) in Norms(a + b) {
      assert (a + b)[i] == a[i];
    }
    forall i | 0 <= i < |b| && Normalize(b[i]) != "" ensures Normalize(b[i]) in Norms(a + b) {
      assert (a + b)[|a| + i] == b[i];
    }
  }

  /** So the kept texts that look like one of the first ones are exactly those in front. */
  lemma FrontIff(a: seq<string>, b: seq<string>, k: nat)
    requires k < |UniqueOf(a + b)|
    ensures Normalize(UniqueOf(a + b)[k]) in Norms(a) <==> k < |UniqueOf(a)|
  {
    UniqueStays(a, b);
    UniqueRepresents(a);
    if k < |UniqueOf(a)| {
      assert UniqueOf(a + b)[k] == UniqueOf(a)[k];
      assert Normalize(UniqueOf(a)[k]) in Norms(UniqueOf(a));
    }
  }

  // ----- collecting from steps -----

  lemma CollectNext(steps: seq<Step>, step: Step)
    ensures BlockersOf(steps + [step]) == BlockersOf(steps) + step.blockers
    ensures OpenIssuesOf(steps + [step]) == OpenIssuesOf(steps) + step.openIssues
    ensures QuestionsOf(steps + [step]) == QuestionsOf(steps) + step.questions
  {
    assert (steps + [step])[..|steps|] == steps;
  }

  /** The texts are collected from step to step. */
  lemma {:induction false} CollectedConcat(a: seq<Step>, b: seq<Step>)
    ensures BlockersOf(a + b) == BlockersOf(a) + BlockersOf(b)
    ensures OpenIssuesOf(a + b) == OpenIssuesOf(a) + OpenIssuesOf(b)
    ensures QuestionsOf(a + b) == QuestionsOf(a) + QuestionsOf(b)
  {
    if b == [] {
      assert a + b == a;
    } else {
      var front, last := b[..|b| - 1], b[|b| - 1];
      CollectedConcat(a, front);
      CollectNext(front, last);
      CollectNext(a + front, last);
      assert b == front + [last] && a + b == a + front + [last];
      Join(BlockersOf(a), BlockersOf(front), last.blockers);
      Join(OpenIssuesOf(a), OpenIssuesOf(front), last.openIssues);
      Join(QuestionsOf(a), QuestionsOf(front), last.questions);
    }
  }

  lemma Join(a: seq<string>, b: seq<string>, c: seq<string>)
    ensures a + b + c == a + (b + c)
  {
  }

  /** From each they are taken in the step's own order. */
  lemma CollectedFromOne(step: Step)
    ensures BlockersOf([step]) == step.blockers && OpenIssuesOf([step]) == step.openIssues
    ensures QuestionsOf([step]) == step.questions
  {
    assert [step][..0] == [];
  }

  // ----- what the user is asked -----

  /** A step that counts: any when the rounds are used up, else one of the latest round. */
  ghost predicate Counts(steps: seq<Step>, reason: Reason, s: Step) {
    s in steps && (reason == HardRoundBudgetExhausted || (s.round >= 0 && forall t | t in steps :: t.round <= s.round))
  }

  /** The text was reported as a blocker (`rank` 0), an open issue (1) or a question (2) of a step that
      counts, or is a contradiction of the contract (3). */
  ghost predicate ReportedAs(steps: seq<Step>, contract: Contract, reason: Reason, v: string, rank: nat) {
    || (rank == 0 && exists s :: Counts(steps, reason, s) && v in s.blockers)
    || (rank == 1 && exists s :: Counts(steps, reason, s) && v in s.openIssues)
    || (rank == 2 && exists s :: Counts(steps, reason, s) && v in s.questions)
    || (rank == 3 && exists c :: c in contract.contradictions && v == c.left + " / " + c.right + ": " + c.reason)
  }

  /** A text with this normal form was reported in one of the first ranks. */
  ghost predicate Ranked(steps: seq<Step>, contract: Contract, reason: Reason, norm: string, last: nat) {
    exists v, rank: nat :: rank <= last && ReportedAs(steps, contract, reason, v, rank) && Normalize(v) == norm != ""
  }

  lemma {:induction false} HighestIsMax(steps: seq<Step>)
    ensures HighestRound(steps) >= 0 && forall s | s in steps :: s.round <= HighestRound(steps)
    ensures HighestRound(steps) == 0 || exists s :: s in steps && s.round == HighestRound(steps)
  {
    if steps != [] {
      var n := |steps| - 1;
      assert steps == steps[..n] + [steps[n]];
      HighestIsMax(steps[..n]);
    }
  }

  /** The steps that an open issue is taken from. */
  ghost function Source(steps: seq<Step>, reason: Reason): seq<Step> {
    if reason == HardRoundBudgetExhausted then steps else InRound(steps, HighestRound(steps))
  }

  lemma SourceCounts(steps: seq<Step>, reason: Reason, s: Step)
    ensures s in Source(steps, reason) <==> Counts(steps, reason, s)
  {
    HighestIsMax(steps);
    InRoundMembers(steps, HighestRound(steps));
  }

  ghost function ListOf(source: seq<Step>, contract: Contract, rank: nat): seq<string> {
    if rank == 0 then BlockersOf(source) else if rank == 1 then OpenIssuesOf(source)
    else if rank == 2 then QuestionsOf(source) else if rank == 3 then ContradictionTexts(contract) else []
  }

  ghost function Front(source: seq<Step>, contract: Contract, last: nat): seq<string> {
    if last == 0 then ListOf(source, contract, 0)
    else Front(source, contract, last - 1) + ListOf(source, contract, last)
  }

  lemma ListHolds(steps: seq<Step>, contract: Contract, reason: Reason, v: string, rank: nat)
    ensures v in ListOf(Source(steps, reason), contract, rank) <==> ReportedAs(steps, contract, reason, v, rank)
  {
    var source := Source(steps, reason);
    CollectedFrom(source, v);
    forall s ensures s in source <==> Counts(steps, reason, s) {
      SourceCounts(steps, reason, s);
    }
    if c :| c in contract.contradictions && v == c.left + " / " + c.right + ": " + c.reason {
      var i :| 0 <= i < |contract.contradictions| && contract.contradictions[i] == c;
      assert ContradictionTexts(contract)[i] == v;
    }
  }

  lemma {:induction false} FrontHolds(steps: seq<Step>, contract: Contract, reason: Reason, norm: string, last: nat)
    ensures norm in Norms(Front(Source(steps, reason), contract, last)) <==>
            Ranked(steps, contract, reason, norm, last)
  {
    var list := ListOf(Source(steps, reason), contract, last);
    if last > 0 {
      FrontHolds(steps, contract, reason, norm, last - 1);
      NormsGrow(Front(Source(steps, reason), contract, last - 1), list);
    }
    forall v ensures v in list <==> ReportedAs(steps, contract, reason, v, last) {
      ListHolds(steps, contract, reason, v, last);
    }
    InNorms(list, norm);
  }

  lemma InNorms(values: seq<string>, norm: string)
    ensures norm in Norms(values) <==> exists v :: v in values && Normalize(v) == norm != ""
  {
    if v :| v in values && Normalize(v) == norm != "" {
      var i :| 0 <= i < |values| && values[i] == v;
      assert Normalize(values[i]) in Norms(values);
    }
  }

  lemma MaterialIs(steps: seq<Step>, contract: Contract, reason: Reason, last: nat) returns (back: seq<string>)
    requires last <= 3
    ensures Material(steps, contract, reason) == Front(Source(steps, reason), contract, last) + back
    ensures last == 3 ==> back == []
  {
    var source := Source(steps, reason);
    var o, q, c := OpenIssuesOf(source), QuestionsOf(source), ContradictionTexts(contract);
    var one, two := BlockersOf(source) + o, BlockersOf(source) + o + q;
    assert Front(source, contract, 1) == one && Front(source, contract, 2) == two;
    back := if last == 0 then o + q + c else if last == 1 then q + c else if last == 2 then c else [];
    assert BlockersOf(source) + (o + q + c) == one + (q + c) == two + c == two + c + [];
  }

  lemma {:induction false} KeptFrom(values: seq<string>, kept: string) returns (v: string)
    requires kept in UniqueOf(values)
    ensures v in values && Normalize(v) != "" && kept == Trim(v)
  {
    var n := |values| - 1;
    assert values == values[..n] + [values[n]];
    if kept in UniqueOf(values[..n]) {
      v := KeptFrom(values[..n], kept);
    } else {
      v := values[n];
    }
  }

  ghost predicate Represented(issues: seq<Issue>, v: string) {
    exists k :: 0 <= k < |issues| && issues[k].Reported? && Normalize(issues[k].text) == Normalize(v)
  }

  ghost predicate AllRanked(steps: seq<Step>, contract: Contract, reason: Reason, issues: seq<Issue>, last: nat) {
    forall k | 0 <= k < |issues| ::
      issues[k].Reported? && Ranked(steps, contract, reason, Normalize(issues[k].text), last)
  }

  /** Something that is not blank was reported. */
  ghost predicate Something(steps: seq<Step>, contract: Contract, reason: Reason) {
    exists v, rank: nat :: ReportedAs(steps, contract, reason, v, rank) && !Blank(v)
  }

  lemma KeptIsRanked(steps: seq<Step>, contract: Contract, reason: Reason, last: nat, k: nat)
    requires last <= 3 && k < |UniqueOf(Material(steps, contract, reason))|
    ensures Ranked(steps, contract, reason, Normalize(UniqueOf(Material(steps, contract, reason))[k]), last) <==>
            k < |UniqueOf(Front(Source(steps, reason), contract, last))|
  {
    var back := MaterialIs(steps, contract, reason, last);
    FrontIff(Front(Source(steps, reason), contract, last), back, k);
    FrontHolds(steps, contract, reason, Normalize(UniqueOf(Material(steps, contract, reason))[k]), last);
  }

  /** Blockers are asked about before open issues, these before questions, and contradictions last. */
  lemma AskedByRank(steps: seq<Step>, contract: Contract, reason: Reason, last: nat, i: nat, j: nat)
    requires last <= 3
    requires var issues := UnresolvedOf(steps, contract, reason);
             i < j < |issues| && issues[i].Reported? && issues[j].Reported? &&
               Ranked(steps, contract, reason, Normalize(issues[j].text), last)
    ensures Ranked(steps, contract, reason, Normalize(UnresolvedOf(steps, contract, reason)[i].text), last)
  {
    AskedIsKept(steps, contract, reason, i);
    AskedIsKept(steps, contract, reason, j);
    KeptByRank(steps, contract, reason, last, i, j);
  }

  lemma AskedIsKept(steps: seq<Step>, contract: Contract, reason: Reason, i: nat)
    requires i < |UnresolvedOf(steps, contract, reason)| && UnresolvedOf(steps, contract, reason)[i].Reported?
    ensures i < |UniqueOf(Material(steps, contract, reason))|
    ensures UnresolvedOf(steps, contract, reason)[i].text == UniqueOf(Material(steps, contract, reason))[i]
  {
  }

  lemma KeptByRank(steps: seq<Step>, contract: Contract, reason: Reason, last: nat, i: nat, j: nat)
    requires last <= 3 && i < j < |UniqueOf(Material(steps, contract, reason))|
    requires Ranked(steps, contract, reason, Normalize(UniqueOf(Material(steps, contract, reason))[j]), last)
    ensures Ranked(steps, contract, reason, Normalize(UniqueOf(Material(steps, contract, reason))[i]), last)
  {
    KeptIsRanked(steps, contract, reason, last, i);
    KeptIsRanked(steps, contract, reason, last, j);
  }

  /** A text that is asked about is a reported one, trimmed. */
  lemma AskedIsReported(steps: seq<Step>, contract: Contract, reason: Reason, k: nat)
    returns (v: string, rank: nat)
    requires k < |UnresolvedOf(steps, contract, reason)| && UnresolvedOf(steps, contract, reason)[k].Reported?
    ensures ReportedAs(steps, contract, reason, v, rank) && !Blank(v)
    ensures UnresolvedOf(steps, contract, reason)[k].text == Trim(v)
  {
    var text := UnresolvedOf(steps, contract, reason)[k].text;
    v := KeptFrom(Material(steps, contract, reason), text);
    rank := ReportedSomehow(steps, contract, reason, v);
    NormalizeBlank(v);
  }

  lemma ReportedSomehow(steps: seq<Step>, contract: Contract, reason: Reason, v: string) returns (rank: nat)
    requires v in Material(steps, contract, reason)
    ensures ReportedAs(steps, contract, reason, v, rank)
  {
    var source := Source(steps, reason);
    rank := if v in BlockersOf(source) then 0 else if v in OpenIssuesOf(source) then 1
            else if v in QuestionsOf(source) then 2 else 3;
    ListHolds(steps, contract, reason, v, rank);
  }

  /** A reported text that is not blank is asked about, unless eight others are that rank as high. */
  lemma ReportedIsAsked(steps: seq<Step>, contract: Contract, reason: Reason, v: string, rank: nat)
    requires ReportedAs(steps, contract, reason, v, rank) && !Blank(v)
    ensures var issues := UnresolvedOf(steps, contract, reason);
            Represented(issues, v) || (|issues| == 8 && AllRanked(steps, contract, reason, issues, rank))
  {
    var issues, texts := UnresolvedOf(steps, contract, reason), UniqueOf(Material(steps, contract, reason));
    NormalizeBlank(v);
    assert Ranked(steps, contract, reason, Normalize(v), rank);
    var k := KeptAs(steps, contract, reason, Normalize(v), rank);
    if k < 8 {
      assert issues[k].Reported? && issues[k].text == texts[k];
    } else {
      EightAsHigh(steps, contract, reason, rank, k);
    }
  }

  lemma EightAsHigh(steps: seq<Step>, contract: Contract, reason: Reason, rank: nat, k: nat)
    requires rank <= 3 && 8 <= k < |UniqueOf(Material(steps, contract, reason))|
    requires Ranked(steps, contract, reason, Normalize(UniqueOf(Material(steps, contract, reason))[k]), rank)
    ensures var issues := UnresolvedOf(steps, contract, reason);
            |issues| == 8 && AllRanked(steps, contract, reason, issues, rank)
  {
    var issues := UnresolvedOf(steps, contract, reason);
    KeptIsRanked(steps, contract, reason, rank, k);
    forall i | 0 <= i < |issues|
      ensures issues[i].Reported? && Ranked(steps, contract, reason, Normalize(issues[i].text), rank)
    {
      KeptIsRanked(steps, contract, reason, rank, i);
    }
  }

  lemma KeptAs(steps: seq<Step>, contract: Contract, reason: Reason, norm: string, rank: nat) returns (k: nat)
    requires rank <= 3 && Ranked(steps, contract, reason, norm, rank)
    ensures k < |UniqueOf(Material(steps, contract, reason))|
    ensures Normalize(UniqueOf(Material(steps, contract, reason))[k]) == norm
  {
    var material := Material(steps, contract, reason);
    var front := Front(Source(steps, reason), contract, rank);
    var back := MaterialIs(steps, contract, reason, rank);
    FrontHolds(steps, contract, reason, norm, rank);
    NormsGrow(front, back);
    UniqueRepresents(material);
    assert norm in Norms(UniqueOf(material));
    k :| 0 <= k < |UniqueOf(material)| && Normalize(UniqueOf(material)[k]) == norm;
  }

  /** When nothing but blank texts was reported, one question is asked that depends on the reason. */
  lemma FixedIff(steps: seq<Step>, contract: Contract, reason: Reason)
    ensures var issues := UnresolvedOf(steps, contract, reason);
            if Something(steps, contract, reason) then forall k | 0 <= k < |issues| :: issues[k].Reported?
            else issues == [if reason == AwaitingWorkerFinalOutput then ConfirmWithoutFinalOutput
                            else if reason == AwaitingWorkerConsensus then ConfirmDisagreement
                            else ConfirmLimitReached]
  {
    var texts := UniqueOf(Material(steps, contract, reason));
    if texts != [] {
      assert UnresolvedOf(steps, contract, reason)[0].Reported?;
      var v, rank := AskedIsReported(steps, contract, reason, 0);
    }
    if v, rank: nat :| ReportedAs(steps, contract, reason, v, rank) && !Blank(v) {
      ReportedIsAsked(steps, contract, reason, v, rank);
    }
  }
}
