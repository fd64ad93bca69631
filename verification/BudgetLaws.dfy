/** The budget's answers, from the groups admitted before a group alone. */
module BudgetLaws {
  import opened Basics
  import opened ToolCalls
  import opened ToolBudget

  /** The operation budget is used up by the groups admitted so far. */
  ghost predicate UsedUp(l: Ledger, marks: seq<bool>) {
    l.operationsUsed + Trues(marks) >= l.operationBudget
  }

  /** The risk quota is used up by the groups of high risk admitted so far. */
  ghost predicate QuotaUsedUp(l: Ledger, groups: seq<Unit>, marks: seq<bool>)
    requires |groups| == |marks|
  {
    l.riskUsed + Risky(groups, marks) >= l.riskQuota
  }

  /** Each group is admitted if and only if its budgets are not used up when it is offered. */
  ghost predicate AdmitsExactly(l: Ledger, groups: seq<Unit>, marks: seq<bool>) {
    && |marks| == |groups|
    && forall i | 0 <= i < |groups| ::
         marks[i] <==> !UsedUp(l, marks[..i]) && (groups[i].highRisk ==> !QuotaUsedUp(l, groups[..i], marks[..i]))
  }

  /** Failed executions of these calls for this reason. */
  ghost predicate RefusedFor(refused: seq<Execution>, calls: seq<Call>, reason: Exhausted) {
    |refused| == |calls| &&
    forall j | 0 <= j < |calls| :: refused[j] == Execution(calls[j], false, BudgetStop(reason))
  }

  /** The refused executions are, in order, those of the groups not admitted: for the operation budget
      when that is used up, and else for the risk quota. */
  ghost predicate RefusesExactly(l: Ledger, groups: seq<Unit>, marks: seq<bool>, refused: seq<Execution>)
    requires |groups| == |marks|
  {
    if groups == [] then refused == [] else
      var n := |groups| - 1;
      var m := |refused| - |groups[n].calls|;
      if marks[n] then RefusesExactly(l, groups[..n], marks[..n], refused)
      else
        && m >= 0
        && RefusedFor(refused[m..], groups[n].calls, if UsedUp(l, marks[..n]) then ExecutionOperation else RiskQuota)
        && RefusesExactly(l, groups[..n], marks[..n], refused[..m])
  }

  lemma AdmitsNext(l: Ledger, groups: seq<Unit>, marks: seq<bool>, group: Unit, mark: bool)
    requires AdmitsExactly(l, groups, marks)
    requires mark <==> !UsedUp(l, marks) && (group.highRisk ==> !QuotaUsedUp(l, groups, marks))
    ensures AdmitsExactly(l, groups + [group], marks + [mark])
  {
    var n := |groups|;
    assert (marks + [mark])[..n] == marks && (groups + [group])[..n] == groups;
    forall i | 0 <= i < n
      ensures (marks + [mark])[..i] == marks[..i] && (groups + [group])[..i] == groups[..i]
    {
    }
  }

  lemma RefusesNext(l: Ledger, groups: seq<Unit>, marks: seq<bool>, refused: seq<Execution>, group: Unit,
                    more: seq<Execution>)
    requires |groups| == |marks| && RefusesExactly(l, groups, marks, refused)
    ensures RefusesExactly(l, groups + [group], marks + [true], refused)
    ensures RefusedFor(more, group.calls, if UsedUp(l, marks) then ExecutionOperation else RiskQuota) ==>
              RefusesExactly(l, groups + [group], marks + [false], refused + more)
  {
    assert (groups + [group])[..|groups|] == groups;
    assert forall mark :: (marks + [mark])[..|groups|] == marks;
    assert (refused + more)[|refused|..] == more && (refused + more)[..|refused|] == refused;
  }

  /** The counters are those of the groups admitted. */
  lemma VerdictIs(l: Ledger, groups: seq<Unit>, highRisk: bool)
    ensures var b := BudgetAll(l, groups);
            |b.groupMarks| == |groups| &&
            Verdict(b.ledger, highRisk) ==
            if UsedUp(l, b.groupMarks) then Some(ExecutionOperation)
            else if highRisk && QuotaUsedUp(l, groups, b.groupMarks) then Some(RiskQuota)
            else None
  {
    BudgetCounts(l, groups);
  }

  ghost predicate Exact(l: Ledger, groups: seq<Unit>, b: Budgeted) {
    AdmitsExactly(l, groups, b.groupMarks) && RefusesExactly(l, groups, b.groupMarks, b.refused)
  }

  lemma OneMoreGroup(l: Ledger, groups: seq<Unit>, b: Budgeted, group: Unit)
    requires Exact(l, groups, b)
    requires Verdict(b.ledger, group.highRisk) ==
             if UsedUp(l, b.groupMarks) then Some(ExecutionOperation)
             else if group.highRisk && QuotaUsedUp(l, groups, b.groupMarks) then Some(RiskQuota)
             else None
    ensures Exact(l, groups + [group], BudgetNext(b, group))
  {
    var verdict := Verdict(b.ledger, group.highRisk);
    AdmitsNext(l, groups, b.groupMarks, group, verdict.None?);
    RefusesNext(l, groups, b.groupMarks, b.refused, group,
                if verdict.Some? then RefusedGroup(group.calls, verdict.value) else []);
  }

  /** Groups are refused only when a budget is used up, and always then; each for the right reason. */
  lemma {:induction false} BudgetIsExact(l: Ledger, groups: seq<Unit>)
    ensures var b := BudgetAll(l, groups);
            AdmitsExactly(l, groups, b.groupMarks) && RefusesExactly(l, groups, b.groupMarks, b.refused)
  {
    if groups != [] {
      var front, group := groups[..|groups| - 1], groups[|groups| - 1];
      BudgetIsExact(l, front);
      VerdictIs(l, front, group.highRisk);
      OneMoreGroup(l, front, BudgetAll(l, front), group);
      assert groups == front + [group];
    }
  }

  /** The last reason is the one that the last refused call was given. */
  lemma {:induction false} LastReasonIsLast(l: Ledger, groups: seq<Unit>)
    requires forall i | 0 <= i < |groups| :: groups[i].calls != []
    ensures var b := BudgetAll(l, groups);
            && (b.refused == [] <==> b.reasons == [])
            && (b.refused != [] ==> b.refused[|b.refused| - 1].result == BudgetStop(b.reasons[|b.reasons| - 1]))
  {
    if groups != [] { LastReasonIsLast(l, groups[..|groups| - 1]); }
  }
}
