/** The tool budget: one operation per group of calls, and a quota of high-risk operations. */
module ToolBudget {
  import opened Basics
  import opened ToolCalls

  const MAX_SAFE_INTEGER := 9007199254740991

  /** The budgets as given; an absent one is unlimited for practical purposes. */
  datatype BudgetOptions = BudgetOptions(executionOperationBudget: Option<int>, riskQuota: Option<int>)

  datatype Ledger = Ledger(operationBudget: nat, turnBudget: nat, riskQuota: nat,
                           operationsUsed: nat, turnsUsed: nat, riskUsed: nat)

  datatype Snapshot = Snapshot(ledger: Ledger, operationsRemaining: nat, turnsRemaining: nat, riskRemaining: nat)

  datatype BudgetDecision = Admit(snapshot: Snapshot) | Refuse(snapshot: Snapshot, reason: Exhausted)

  function Remaining(budget: nat, used: nat): nat {
    if budget < used then 0 else budget - used
  }

  function SnapshotOf(l: Ledger): Snapshot {
    Snapshot(l, Remaining(l.operationBudget, l.operationsUsed), Remaining(l.turnBudget, l.turnsUsed),
             Remaining(l.riskQuota, l.riskUsed))
  }

  function Verdict(l: Ledger, highRisk: bool): Option<Exhausted> {
    if l.operationsUsed >= l.operationBudget then Some(ExecutionOperation)
    else if highRisk && l.riskUsed >= l.riskQuota then Some(RiskQuota)
    else None
  }

  function Charge(l: Ledger, highRisk: bool): Ledger {
    if Verdict(l, highRisk).Some? then l
    else l.(operationsUsed := l.operationsUsed + 1, riskUsed := l.riskUsed + if highRisk then 1 else 0)
  }

  /** What holds of the counters from the start on. */
  predicate Sound(l: Ledger) {
    l.riskUsed <= l.operationsUsed <= l.operationBudget && l.riskUsed <= l.riskQuota
  }

  class ExecutiveToolBudgetState {
    var executionOperationsUsed: nat
    var modelToolTurnsUsed: nat
    var riskUsed: nat
    const executionOperationBudget: nat
    const modelToolTurnBudget: nat
    const riskQuota: nat

    function State(): Ledger
      reads this
    {
      Ledger(executionOperationBudget, modelToolTurnBudget, riskQuota,
             executionOperationsUsed, modelToolTurnsUsed, riskUsed)
    }

    constructor (operationBudget: nat, turnBudget: nat, riskQuota: nat)
      ensures State() == Ledger(operationBudget, turnBudget, riskQuota, 0, 0, 0)
    {
      executionOperationBudget, modelToolTurnBudget, this.riskQuota := operationBudget, turnBudget, riskQuota;
      executionOperationsUsed, modelToolTurnsUsed, riskUsed := 0, 0, 0;
    }

    method ConsumeModelToolTurn()
      modifies this
      ensures State() == old(State()).(turnsUsed := old(State()).turnsUsed + 1)
    {
      modelToolTurnsUsed := modelToolTurnsUsed + 1;
    }

    method InspectExecution(highRisk: bool) returns (decision: BudgetDecision)
      modifies this
      ensures State() == Charge(old(State()), highRisk)
      ensures decision.Refuse? <==> Verdict(old(State()), highRisk).Some?
      ensures decision.Refuse? ==> Verdict(old(State()), highRisk) == Some(decision.reason)
      ensures decision.snapshot == SnapshotOf(State())
      ensures var l := old(State());
              var usedUp := l.operationsUsed >= l.operationBudget;
              && decision.snapshot ==
                 Snapshot(State(),
                          if State().operationsUsed > l.operationBudget then 0
                          else l.operationBudget - State().operationsUsed,
                          if l.turnsUsed > l.turnBudget then 0 else l.turnBudget - l.turnsUsed,
                          if State().riskUsed > l.riskQuota then 0 else l.riskQuota - State().riskUsed)
              && (decision.Refuse? <==> usedUp || (highRisk && l.riskUsed >= l.riskQuota))
              && (decision.Refuse? ==>
                    State() == l && decision.reason == if usedUp then ExecutionOperation else RiskQuota)
              && (decision.Admit? ==>
                    State() == l.(operationsUsed := l.operationsUsed + 1,
                                  riskUsed := if highRisk then l.riskUsed + 1 else l.riskUsed))
      ensures old(Sound(State())) ==>
                Sound(State()) &&
                State().operationsUsed + decision.snapshot.operationsRemaining == State().operationBudget &&
                State().riskUsed + decision.snapshot.riskRemaining == State().riskQuota
    {
      if executionOperationsUsed >= executionOperationBudget {
        return Refuse(SnapshotOf(State()), ExecutionOperation);
      }
      if highRisk && riskUsed >= riskQuota {
        return Refuse(SnapshotOf(State()), RiskQuota);
      }
      executionOperationsUsed := executionOperationsUsed + 1;
      if highRisk {
        riskUsed := riskUsed + 1;
      }
      return Admit(SnapshotOf(State()));
    }
  }

  // ----- grouping -----

  datatype Unit = Unit(calls: seq<Call>, highRisk: bool)

  predicate AnyHighRisk(descriptors: Lookup, calls: seq<Call>) {
    exists i :: 0 <= i < |calls| && HighRisk(descriptors, calls[i])
  }

  function Units(descriptors: Lookup, chunks: seq<seq<Call>>): seq<Unit> {
    seq(|chunks|, i requires 0 <= i < |chunks| => Unit(chunks[i], AnyHighRisk(descriptors, chunks[i])))
  }

  lemma UnitsAdd(descriptors: Lookup, chunks: seq<seq<Call>>, call: Call)
    ensures var joins := UnitSharing(descriptors);
            var units := Units(descriptors, chunks);
            Units(descriptors, Add(chunks, call, joins)) ==
            if joins(call) && OpenEnded(chunks, joins) then
              var last := units[|units| - 1];
              units[..|units| - 1] + [Unit(last.calls + [call], last.highRisk || HighRisk(descriptors, call))]
            else units + [Unit([call], HighRisk(descriptors, call))]
  {
    RiskNext(descriptors, [], call);
    assert [] + [call] == [call];
    if chunks != [] {
      RiskNext(descriptors, chunks[|chunks| - 1], call);
    }
  }

  /** The groups pushed so far, and the batch still open. */
  function Pending(groups: seq<Unit>, batch: seq<Call>, batchHighRisk: bool): seq<Unit> {
    groups + if batch == [] then [] else [Unit(batch, batchHighRisk)]
  }

  lemma GroupNext(descriptors: Lookup, chunks: seq<seq<Call>>, call: Call,
                  groups: seq<Unit>, batch: seq<Call>, batchHighRisk: bool)
    requires Pending(groups, batch, batchHighRisk) == Units(descriptors, chunks)
    requires batch != [] <==> OpenEnded(chunks, UnitSharing(descriptors))
    requires batchHighRisk ==> batch != []
    ensures var risk := HighRisk(descriptors, call);
            var units := Units(descriptors, Add(chunks, call, UnitSharing(descriptors)));
            if SharesUnit(descriptors, call) then units == Pending(groups, batch + [call], batchHighRisk || risk)
            else units == Pending(groups, batch, batchHighRisk) + [Unit([call], risk)]
    ensures SharesUnit(descriptors, call) <==>
            OpenEnded(Add(chunks, call, UnitSharing(descriptors)), UnitSharing(descriptors))
  {
    UnitsAdd(descriptors, chunks, call);
    var units := Units(descriptors, chunks);
    if batch == [] {
      assert units == groups && batch + [call] == [call];
    } else {
      assert units[..|units| - 1] == groups && units[|units| - 1] == Unit(batch, batchHighRisk);
    }
  }

  /** Groups are the chunks of unit-sharing calls, each as risky as its riskiest call. */
  method GroupBudgetUnits(descriptors: Lookup, calls: seq<Call>) returns (groups: seq<Unit>)
    ensures groups == Units(descriptors, Chunks(calls, UnitSharing(descriptors)))
  {
    ghost var joins := UnitSharing(descriptors);
    groups := [];
    var batch: seq<Call> := [];
    var batchHighRisk := false;
    for i := 0 to |calls|
      invariant batchHighRisk ==> batch != []
      invariant batch != [] <==> OpenEnded(Chunks(calls[..i], joins), joins)
      invariant Pending(groups, batch, batchHighRisk) == Units(descriptors, Chunks(calls[..i], joins))
    {
      var call := calls[i];
      assert calls[..i + 1][..i] == calls[..i];
      GroupNext(descriptors, Chunks(calls[..i], joins), call, groups, batch, batchHighRisk);
      if SharesUnit(descriptors, call) {
        batch := batch + [call];
        batchHighRisk := batchHighRisk || HighRisk(descriptors, call);
      } else {
        if batch != [] {
          groups := groups + [Unit(batch, batchHighRisk)];
          batch, batchHighRisk := [], false;
        }
        groups := groups + [Unit([call], HighRisk(descriptors, call))];
      }
    }
    assert calls[..|calls|] == calls;
    if batch != [] {
      groups := groups + [Unit(batch, batchHighRisk)];
    }
  }

  lemma RiskNext(descriptors: Lookup, batch: seq<Call>, call: Call)
    ensures AnyHighRisk(descriptors, batch + [call]) <==> AnyHighRisk(descriptors, batch) || HighRisk(descriptors, call)
  {
    var all := batch + [call];
    assert all[|batch|] == call;
    assert forall i | 0 <= i < |batch| :: all[i] == batch[i];
  }

  // ----- admitting groups -----

  /** The ledger after offering groups one by one: the calls of admitted groups, a failed
      execution for each other call, why groups were refused, and which groups and which calls
      were admitted. */
  datatype Budgeted = Budgeted(ledger: Ledger, admitted: seq<Call>, refused: seq<Execution>,
                               reasons: seq<Exhausted>, groupMarks: seq<bool>, callMarks: seq<bool>)

  function RefusedGroup(calls: seq<Call>, reason: Exhausted): seq<Execution> {
    seq(|calls|, i requires 0 <= i < |calls| => Execution(calls[i], false, BudgetStop(reason)))
  }

  function BudgetNext(b: Budgeted, group: Unit): Budgeted {
    match Verdict(b.ledger, group.highRisk)
    case None =>
      Budgeted(Charge(b.ledger, group.highRisk), b.admitted + group.calls, b.refused, b.reasons,
               b.groupMarks + [true], b.callMarks + All(|group.calls|, true))
    case Some(reason) =>
      Budgeted(b.ledger, b.admitted, b.refused + RefusedGroup(group.calls, reason), b.reasons + [reason],
               b.groupMarks + [false], b.callMarks + All(|group.calls|, false))
  }

  function BudgetAll(l: Ledger, groups: seq<Unit>): Budgeted {
    if groups == [] then Budgeted(l, [], [], [], [], []) else
      BudgetNext(BudgetAll(l, groups[..|groups| - 1]), groups[|groups| - 1])
  }

  method ApplyBudget(calls: seq<Call>, descriptors: Lookup, budget: ExecutiveToolBudgetState)
    returns (admitted: seq<Call>, refused: seq<Execution>, reasons: seq<Exhausted>)
    modifies budget
    ensures var b := BudgetAll(old(budget.State()), Units(descriptors, Chunks(calls, UnitSharing(descriptors))));
            budget.State() == b.ledger && admitted == b.admitted && refused == b.refused && reasons == b.reasons
  {
    var groups := GroupBudgetUnits(descriptors, calls);
    ghost var l := budget.State();
    admitted, refused, reasons := [], [], [];
    for i := 0 to |groups|
      invariant var b := BudgetAll(l, groups[..i]);
                budget.State() == b.ledger && admitted == b.admitted && refused == b.refused && reasons == b.reasons
    {
      assert groups[..i + 1][..i] == groups[..i];
      var group := groups[i];
      var decision := budget.InspectExecution(group.highRisk);
      if decision.Admit? {
        admitted := admitted + group.calls;
      } else {
        reasons := reasons + [decision.reason];
        refused := refused + RefusedGroup(group.calls, decision.reason);
      }
    }
    assert groups[..|groups|] == groups;
  }

  // ----- what admission keeps -----

  function Trues(marks: seq<bool>): nat {
    if marks == [] then 0 else Trues(marks[..|marks| - 1]) + if marks[|marks| - 1] then 1 else 0
  }

  lemma TruesNext(marks: seq<bool>, mark: bool)
    ensures Trues(marks + [mark]) == Trues(marks) + if mark then 1 else 0
  {
    assert (marks + [mark])[..|marks|] == marks;
  }

  /** How many admitted groups are of high risk. */
  function Risky(groups: seq<Unit>, marks: seq<bool>): nat
    requires |groups| == |marks|
  {
    if groups == [] then 0 else
      var n := |groups| - 1;
      Risky(groups[..n], marks[..n]) + if marks[n] && groups[n].highRisk then 1 else 0
  }

  lemma RiskyNext(groups: seq<Unit>, marks: seq<bool>, group: Unit, mark: bool)
    requires |groups| == |marks|
    ensures Risky(groups + [group], marks + [mark]) == Risky(groups, marks) + if mark && group.highRisk then 1 else 0
  {
    assert (groups + [group])[..|groups|] == groups && (marks + [mark])[..|marks|] == marks;
  }

  /** One operation for each admitted group, however many calls it holds, and one of the risk
      quota for each admitted group of high risk; a reason for each other group; and counters
      that stay within their budgets. */
  lemma {:induction false} BudgetCounts(l: Ledger, groups: seq<Unit>)
    ensures var b := BudgetAll(l, groups);
            && b.ledger.operationsUsed == l.operationsUsed + Trues(b.groupMarks)
            && |b.groupMarks| == |groups| == Trues(b.groupMarks) + |b.reasons|
            && b.ledger.riskUsed == l.riskUsed + Risky(groups, b.groupMarks)
            && b.ledger.(operationsUsed := 0, riskUsed := 0) == l.(operationsUsed := 0, riskUsed := 0)
            && (Sound(l) ==> Sound(b.ledger))
  {
    if groups != [] {
      var front, group := groups[..|groups| - 1], groups[|groups| - 1];
      BudgetCounts(l, front);
      assert groups == front + [group];
      OneMoreGroup(BudgetAll(l, front), front, group);
    }
  }

  /** What one more group is charged. */
  lemma OneMoreGroup(b: Budgeted, groups: seq<Unit>, group: Unit)
    requires |b.groupMarks| == |groups|
    ensures var after := BudgetNext(b, group);
            var mark := if Verdict(b.ledger, group.highRisk).None? then 1 else 0;
            && after.ledger.operationsUsed == b.ledger.operationsUsed + mark
            && Trues(after.groupMarks) == Trues(b.groupMarks) + mark
            && |after.groupMarks| == |groups| + 1 && |after.reasons| == |b.reasons| + 1 - mark
            && after.ledger.riskUsed - b.ledger.riskUsed ==
               Risky(groups + [group], after.groupMarks) - Risky(groups, b.groupMarks)
            && after.ledger.(operationsUsed := 0, riskUsed := 0) == b.ledger.(operationsUsed := 0, riskUsed := 0)
            && (Sound(b.ledger) ==> Sound(after.ledger))
  {
    var mark := Verdict(b.ledger, group.highRisk).None?;
    TruesNext(b.groupMarks, mark);
    RiskyNext(groups, b.groupMarks, group, mark);
  }

  function CallsOf(groups: seq<Unit>): seq<seq<Call>> {
    seq(|groups|, i requires 0 <= i < |groups| => groups[i].calls)
  }

  /** The marks of the calls: each call is marked as its group is. */
  function Spread(groups: seq<Unit>, marks: seq<bool>): seq<bool>
    requires |groups| == |marks|
  {
    if groups == [] then [] else
      var n := |groups| - 1;
      Spread(groups[..n], marks[..n]) + All(|groups[n].calls|, marks[n])
  }

  /** The calls offered so far are divided by their marks into admitted and refused, in order. */
  ghost predicate Divides(b: Budgeted, calls: seq<Call>) {
    && |b.callMarks| == |calls|
    && b.admitted == Pick(calls, b.callMarks, true)
    && CallsIn(b.refused) == Pick(calls, b.callMarks, false)
  }

  lemma BudgetNextDivides(b: Budgeted, group: Unit, calls: seq<Call>)
    requires Divides(b, calls)
    ensures Divides(BudgetNext(b, group), calls + group.calls)
  {
    var verdict := Verdict(b.ledger, group.highRisk);
    var marks := All(|group.calls|, verdict.None?);
    PickConcat(calls, b.callMarks, group.calls, marks, true);
    PickConcat(calls, b.callMarks, group.calls, marks, false);
    PickAll(group.calls, verdict.None?);
    if verdict.Some? {
      assert CallsIn(b.refused + RefusedGroup(group.calls, verdict.value)) == CallsIn(b.refused) + group.calls;
    }
  }

  /** Groups are admitted or refused whole, and both parts keep the order of the calls. */
  lemma {:induction false} BudgetSplits(l: Ledger, groups: seq<Unit>)
    ensures var b := BudgetAll(l, groups);
            && |b.groupMarks| == |groups| && b.callMarks == Spread(groups, b.groupMarks)
            && Divides(b, Flatten(CallsOf(groups)))
  {
    if groups != [] {
      var n := |groups| - 1;
      BudgetSplits(l, groups[..n]);
      var before, after := BudgetAll(l, groups[..n]), BudgetAll(l, groups);
      assert after.groupMarks[..n] == before.groupMarks;
      assert CallsOf(groups)[..n] == CallsOf(groups[..n]);
      BudgetNextDivides(before, groups[n], Flatten(CallsOf(groups[..n])));
    }
  }

  /** A call is refused exactly when some group is. */
  lemma {:induction false} RefusedHasReason(l: Ledger, groups: seq<Unit>)
    requires forall i | 0 <= i < |groups| :: groups[i].calls != []
    ensures BudgetAll(l, groups).refused == [] <==> BudgetAll(l, groups).reasons == []
  {
    if groups != [] { RefusedHasReason(l, groups[..|groups| - 1]); }
  }
}
