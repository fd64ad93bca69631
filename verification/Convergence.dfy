/** When a round of the blackboard ends the discussion, and what is still open. */
module Convergence {
  import opened Basics
  import opened BlackboardTypes
  import opened Text

  // ----- texts without repetitions -----

  /** The normal forms of the texts that are not blank. */
  ghost function Norms(values: seq<string>): set<string> {
    set i | 0 <= i < |values| && Normalize(values[i]) != "" :: Normalize(values[i])
  }

  /** Of texts with the same normal form the first one, trimmed; blank texts are left out. */
  ghost function UniqueOf(values: seq<string>): seq<string> {
    if values == [] then [] else
      var n := |values| - 1;
      var norm := Normalize(values[n]);
      UniqueOf(values[..n]) + if norm == "" || norm in Norms(values[..n]) then [] else [Trim(values[n])]
  }

  lemma NormsNext(values: seq<string>, value: string)
    ensures Norms(values + [value]) == Norms(values) + if Normalize(value) == "" then {} else {Normalize(value)}
  {
    var all := values + [value];
    forall i | 0 <= i < |values| && Normalize(values[i]) != "" ensures Normalize(values[i]) in Norms(all) {
      assert all[i] == values[i];
    }
    if Normalize(value) != "" { assert Normalize(all[|values|]) in Norms(all); }
    forall i | 0 <= i < |all| && Normalize(all[i]) != ""
      ensures Normalize(all[i]) in Norms(values) || Normalize(all[i]) == Normalize(value)
    {
      if i < |values| { assert values[i] == all[i]; }
    }
  }

  lemma UniqueOfNext(values: seq<string>, k: nat)
    requires k < |values|
    ensures var norm, seen, kept := Normalize(values[k]), Norms(values[..k]), UniqueOf(values[..k]);
            if norm == "" || norm in seen then Norms(values[..k + 1]) == seen && UniqueOf(values[..k + 1]) == kept
            else Norms(values[..k + 1]) == seen + {norm} && UniqueOf(values[..k + 1]) == kept + [Trim(values[k])]
  {
    NormsNext(values[..k], values[k]);
    assert values[..k + 1] == values[..k] + [values[k]] && values[..k + 1][..k] == values[..k];
    assert UniqueOf(values[..k]) + [] == UniqueOf(values[..k]);
  }

  method NormalizedUnique(values: seq<string>) returns (result: seq<string>)
    ensures result == UniqueOf(values)
  {
    var seen: set<string> := {};
    result := [];
    for k := 0 to |values|
      invariant seen == Norms(values[..k]) && result == UniqueOf(values[..k])
    {
      var value := values[k];
      var normalized := Normalize(value);
      UniqueOfNext(values, k);
      if normalized == "" || normalized in seen { continue; }
      seen := seen + {normalized};
      result := result + [Trim(value)];
    }
    assert values[..|values|] == values;
  }

  /** The texts differ in their normal forms, and none is blank. */
  ghost predicate AllDifferent(values: seq<string>) {
    (forall i | 0 <= i < |values| :: Normalize(values[i]) != "") &&
    forall i, j | 0 <= i < j < |values| :: Normalize(values[i]) != Normalize(values[j])
  }

  lemma AllDifferentNext(values: seq<string>, value: string)
    requires AllDifferent(values) && Normalize(value) != "" && Normalize(value) !in Norms(values)
    ensures AllDifferent(values + [value])
  {
    forall i | 0 <= i < |values| ensures Normalize(values[i]) != Normalize(value) {
      assert Normalize(values[i]) in Norms(values);
    }
  }

  /** Every text that is not blank is represented exactly once. */
  lemma {:induction false} UniqueRepresents(values: seq<string>)
    ensures Norms(UniqueOf(values)) == Norms(values) && AllDifferent(UniqueOf(values))
  {
    if values != [] {
      var n := |values| - 1;
      UniqueRepresents(values[..n]);
      assert values == values[..n] + [values[n]];
      UniqueNext(values[..n], UniqueOf(values[..n]), values[n]);
      assert UniqueOf(values[..n]) + [] == UniqueOf(values[..n]);
    }
  }

  lemma UniqueNext(front: seq<string>, kept: seq<string>, last: string)
    requires Norms(kept) == Norms(front) && AllDifferent(kept)
    ensures if Normalize(last) == "" || Normalize(last) in Norms(front) then Norms(front + [last]) == Norms(kept)
            else Norms(front + [last]) == Norms(kept + [Trim(last)]) && AllDifferent(kept + [Trim(last)])
  {
    NormalizeBlank(last);
    NormsNext(front, last);
    NormsNext(kept, Trim(last));
    if Normalize(last) != "" && Normalize(last) !in Norms(front) { AllDifferentNext(kept, Trim(last)); }
  }

  predicate Blank(s: string) {
    Trim(s) == ""
  }

  lemma UniqueEmptyIff(values: seq<string>)
    ensures UniqueOf(values) == [] <==> forall v | v in values :: Blank(v)
  {
    UniqueRepresents(values);
    var kept := UniqueOf(values);
    if kept != [] { assert Normalize(kept[0]) in Norms(kept); }
    forall i | 0 <= i < |values| ensures Normalize(values[i]) == "" <==> Blank(values[i]) {
      NormalizeBlank(values[i]);
    }
    if i :| 0 <= i < |values| && !Blank(values[i]) {
      assert Normalize(values[i]) in Norms(values);
      assert kept != [];
    }
  }

  // ----- the steps of a round -----

  function InRound(steps: seq<Step>, round: int): seq<Step> {
    if steps == [] then [] else
      var n := |steps| - 1;
      InRound(steps[..n], round) + if steps[n].round == round then [steps[n]] else []
  }

  function Below(steps: seq<Step>, round: int): seq<Step> {
    if steps == [] then [] else
      var n := |steps| - 1;
      Below(steps[..n], round) + if steps[n].round < round then [steps[n]] else []
  }

  function HighestRound(steps: seq<Step>): int {
    if steps == [] then 0 else
      var n := |steps| - 1;
      var highest := HighestRound(steps[..n]);
      if steps[n].round > highest then steps[n].round else highest
  }

  function NextRound(steps: seq<Step>): int {
    HighestRound(steps) + 1
  }

  lemma {:induction false} NextRoundIsAbove(steps: seq<Step>)
    ensures NextRound(steps) >= 1
    ensures forall s | s in steps :: s.round < NextRound(steps)
    ensures NextRound(steps) == 1 || exists s :: s in steps && s.round == NextRound(steps) - 1
  {
    if steps != [] {
      var n := |steps| - 1;
      NextRoundIsAbove(steps[..n]);
      assert steps == steps[..n] + [steps[n]];
    }
  }

  /** When all steps belong to earlier rounds, there is none of this round, and all are below. */
  lemma {:induction false} FreshRound(steps: seq<Step>, round: int)
    requires forall s | s in steps :: s.round < round
    ensures InRound(steps, round) == [] && Below(steps, round) == steps
  {
    if steps != [] {
      var n := |steps| - 1;
      assert steps == steps[..n] + [steps[n]];
      FreshRound(steps[..n], round);
    }
  }

  lemma {:induction false} InRoundMembers(steps: seq<Step>, round: int)
    ensures forall s :: s in InRound(steps, round) <==> s in steps && s.round == round
  {
    if steps != [] {
      var n := |steps| - 1;
      assert steps == steps[..n] + [steps[n]];
      InRoundMembers(steps[..n], round);
    }
  }

  /** The steps of a round as a multiset do not depend on the order of all steps. */
  lemma {:induction false} InRoundCounts(steps: seq<Step>, round: int, s: Step)
    ensures multiset(InRound(steps, round))[s] == if s.round == round then multiset(steps)[s] else 0
  {
    if steps != [] {
      var n := |steps| - 1;
      assert steps == steps[..n] + [steps[n]];
      InRoundCounts(steps[..n], round, s);
    }
  }

  lemma InRoundPermutes(a: seq<Step>, b: seq<Step>, round: int)
    requires multiset(a) == multiset(b)
    ensures multiset(InRound(a, round)) == multiset(InRound(b, round))
  {
    forall s ensures multiset(InRound(a, round))[s] == multiset(InRound(b, round))[s] {
      InRoundCounts(a, round, s);
      InRoundCounts(b, round, s);
    }
  }

  // ----- the verdict -----

  datatype Move = GoOn | Converge | AskUser

  datatype Convergence = Convergence(status: Move, reason: Reason)

  ghost predicate All(current: seq<Step>, expected: int, outcome: Outcome) {
    |current| == expected && forall s | s in current :: s.outcome == Some(outcome)
  }

  ghost predicate Rejected(current: seq<Step>) {
    exists s :: s in current && s.agreement == Some(false)
  }

  /** A step names an issue or a blocker. */
  ghost predicate Open(current: seq<Step>) {
    exists s, v :: s in current && (v in s.openIssues || v in s.blockers) && !Blank(v)
  }

  ghost function VerdictOf(current: seq<Step>, expected: int): Convergence {
    if |current| < expected then Convergence(GoOn, WaitingForWorkers)
    else if All(current, expected, Final) && !Rejected(current) && !Open(current)
      then Convergence(Converge, WorkersReachedConsensus)
    else if All(current, expected, Blocked) && Open(current) then Convergence(AskUser, PeerQaOpenIssues)
    else if Open(current) then Convergence(GoOn, PeerQaOpenIssues)
    else if !All(current, expected, Final) then Convergence(GoOn, AwaitingWorkerFinalOutput)
    else Convergence(GoOn, AwaitingWorkerConsensus)
  }

  function OpenIssuesOf(steps: seq<Step>): seq<string> {
    if steps == [] then [] else OpenIssuesOf(steps[..|steps| - 1]) + steps[|steps| - 1].openIssues
  }

  function BlockersOf(steps: seq<Step>): seq<string> {
    if steps == [] then [] else BlockersOf(steps[..|steps| - 1]) + steps[|steps| - 1].blockers
  }

  function QuestionsOf(steps: seq<Step>): seq<string> {
    if steps == [] then [] else QuestionsOf(steps[..|steps| - 1]) + steps[|steps| - 1].questions
  }

  lemma {:induction false} CollectedFrom(steps: seq<Step>, v: string)
    ensures v in OpenIssuesOf(steps) <==> exists s :: s in steps && v in s.openIssues
    ensures v in BlockersOf(steps) <==> exists s :: s in steps && v in s.blockers
    ensures v in QuestionsOf(steps) <==> exists s :: s in steps && v in s.questions
  {
    if steps != [] {
      var n := |steps| - 1;
      assert steps == steps[..n] + [steps[n]];
      CollectedFrom(steps[..n], v);
    }
  }

  lemma OpenIff(current: seq<Step>)
    ensures UniqueOf(OpenIssuesOf(current) + BlockersOf(current)) != [] <==> Open(current)
  {
    var values := OpenIssuesOf(current) + BlockersOf(current);
    UniqueEmptyIff(values);
    forall v ensures v in values <==> exists s :: s in current && (v in s.openIssues || v in s.blockers) {
      CollectedFrom(current, v);
    }
  }

  method EvaluateConvergence(steps: seq<Step>, round: int, expectedWorkerCount: int) returns (r: Convergence)
    ensures r == VerdictOf(InRound(steps, round), expectedWorkerCount)
  {
    var current := InRound(steps, round);
    if |current| < expectedWorkerCount {
      return Convergence(GoOn, WaitingForWorkers);
    }
    var openIssues := NormalizedUnique(OpenIssuesOf(current) + BlockersOf(current));
    OpenIff(current);
    var hasExplicitRejection := exists s | s in current :: s.agreement == Some(false);
    var complete := |current| == expectedWorkerCount;
    var hasFinalOutputs := complete && forall s | s in current :: s.outcome == Some(Final);
    var hasBlockedOutputs := complete && forall s | s in current :: s.outcome == Some(Blocked);
    if hasFinalOutputs && !hasExplicitRejection && |openIssues| == 0 {
      return Convergence(Converge, WorkersReachedConsensus);
    }
    if hasBlockedOutputs && |openIssues| > 0 {
      return Convergence(AskUser, PeerQaOpenIssues);
    }
    if |openIssues| > 0 {
      return Convergence(GoOn, PeerQaOpenIssues);
    }
    if !hasFinalOutputs {
      return Convergence(GoOn, AwaitingWorkerFinalOutput);
    }
    return Convergence(GoOn, AwaitingWorkerConsensus);
  }

  /** The order in which the steps of a round arrived does not matter. */
  lemma VerdictIgnoresOrder(a: seq<Step>, b: seq<Step>, round: int, expected: int)
    requires multiset(a) == multiset(b)
    ensures VerdictOf(InRound(a, round), expected) == VerdictOf(InRound(b, round), expected)
  {
    InRoundPermutes(a, b, round);
    SameSteps(InRound(a, round), InRound(b, round));
  }

  lemma SameSteps(a: seq<Step>, b: seq<Step>)
    requires multiset(a) == multiset(b)
    ensures |a| == |b| && forall s :: s in a <==> s in b
  {
    assert |a| == |multiset(a)| && |b| == |multiset(b)|;
    forall s ensures s in a <==> s in b {
      assert (s in a <==> s in multiset(a)) && (s in b <==> s in multiset(b));
    }
  }

  // ----- what is still open -----

  const MAX_UNRESOLVED_ISSUES := 8

  function ContradictionText(c: Contradiction): string {
    c.left + " / " + c.right + ": " + c.reason
  }

  function ContradictionTexts(contract: Contract): seq<string> {
    seq(|contract.contradictions|,
        i requires 0 <= i < |contract.contradictions| => ContradictionText(contract.contradictions[i]))
  }

  /** All texts that may be open: of the whole turn when the rounds are used up, else of its last round. */
  function Material(steps: seq<Step>, contract: Contract, reason: Reason): seq<string> {
    var source := if reason == HardRoundBudgetExhausted then steps else InRound(steps, HighestRound(steps));
    BlockersOf(source) + OpenIssuesOf(source) + QuestionsOf(source) + ContradictionTexts(contract)
  }

  function FixedQuestion(reason: Reason): Issue {
    match reason
    case AwaitingWorkerFinalOutput => ConfirmWithoutFinalOutput
    case AwaitingWorkerConsensus => ConfirmDisagreement
    case _ => ConfirmLimitReached
  }

  function Reports(texts: seq<string>): seq<Issue> {
    seq(|texts|, i requires 0 <= i < |texts| => Reported(texts[i]))
  }

  ghost function UnresolvedOf(steps: seq<Step>, contract: Contract, reason: Reason): seq<Issue> {
    var texts := UniqueOf(Material(steps, contract, reason));
    if texts == [] then [FixedQuestion(reason)]
    else Reports(if |texts| <= MAX_UNRESOLVED_ISSUES then texts else texts[..MAX_UNRESOLVED_ISSUES])
  }

  method LatestUnresolvedIssues(steps: seq<Step>, contract: Contract, reason: Reason) returns (issues: seq<Issue>)
    ensures issues == UnresolvedOf(steps, contract, reason)
  {
    var latestRound := HighestRound(steps);
    var sourceSteps := if reason == HardRoundBudgetExhausted then steps else InRound(steps, latestRound);
    var texts := NormalizedUnique(
      BlockersOf(sourceSteps) + OpenIssuesOf(sourceSteps) + QuestionsOf(sourceSteps) + ContradictionTexts(contract));
    if |texts| > 0 {
      return Reports(if |texts| <= MAX_UNRESOLVED_ISSUES then texts else texts[..MAX_UNRESOLVED_ISSUES]);
    }
    return [FixedQuestion(reason)];
  }

  /** The user is always asked something, about at most eight things, none of them blank and no two
      alike; a fixed question is asked exactly when nothing was reported. */
  lemma UnresolvedIsAskable(steps: seq<Step>, contract: Contract, reason: Reason)
    ensures var issues := UnresolvedOf(steps, contract, reason);
            1 <= |issues| <= MAX_UNRESOLVED_ISSUES &&
            (forall i | 0 <= i < |issues| && issues[i].Reported? :: !Blank(issues[i].text)) &&
            (forall i, j | 0 <= i < j < |issues| && issues[i].Reported? && issues[j].Reported? ::
               Normalize(issues[i].text) != Normalize(issues[j].text)) &&
            (issues[0].Reported? <==> exists v :: v in Material(steps, contract, reason) && !Blank(v))
  {
    var material := Material(steps, contract, reason);
    UniqueRepresents(material);
    UniqueEmptyIff(material);
    NoneBlank(UniqueOf(material));
    if UniqueOf(material) != [] { AtMostEight(UniqueOf(material)); }
  }

  lemma AtMostEight(texts: seq<string>)
    requires texts != [] && AllDifferent(texts) && forall i | 0 <= i < |texts| :: !Blank(texts[i])
    ensures var issues := Reports(if |texts| <= MAX_UNRESOLVED_ISSUES then texts else texts[..MAX_UNRESOLVED_ISSUES]);
            1 <= |issues| <= MAX_UNRESOLVED_ISSUES &&
            (forall i | 0 <= i < |issues| :: issues[i].Reported? && !Blank(issues[i].text)) &&
            forall i, j | 0 <= i < j < |issues| :: Normalize(issues[i].text) != Normalize(issues[j].text)
  {
  }

  lemma NoneBlank(texts: seq<string>)
    requires AllDifferent(texts)
    ensures forall i | 0 <= i < |texts| :: !Blank(texts[i])
  {
    forall i | 0 <= i < |texts| ensures !Blank(texts[i]) {
      NormalizeBlank(texts[i]);
    }
  }
}
