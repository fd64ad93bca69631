/** The guard's failure counts, against the executions that failed: what is counted, and which
    failures the guard stops. */
module ToolFailures {
  import opened Basics
  import opened CallKey
  import opened LoopGuard
  import opened ToolCalls
  import opened ToolRuntime

  function KeyOfCall(call: Call): string {
    CallKeyOf(call.key, call.input)
  }

  predicate FailsWith(execution: Execution, key: string) {
    !execution.ok && KeyOfCall(execution.call) == key
  }

  /** How many of the executions of a call failed. */
  function FailedRuns(executions: seq<Execution>, key: string): nat {
    if executions == [] then 0 else
      var n := |executions| - 1;
      FailedRuns(executions[..n], key) + if FailsWith(executions[n], key) then 1 else 0
  }

  /** How many of the executions are of a call. */
  function RunsOf(executions: seq<Execution>, key: string): nat {
    if executions == [] then 0 else
      var n := |executions| - 1;
      RunsOf(executions[..n], key) + if KeyOfCall(executions[n].call) == key then 1 else 0
  }

  lemma RunsNext(executions: seq<Execution>, execution: Execution, key: string)
    ensures FailedRuns(executions + [execution], key) ==
            FailedRuns(executions, key) + if FailsWith(execution, key) then 1 else 0
    ensures RunsOf(executions + [execution], key) ==
            RunsOf(executions, key) + if KeyOfCall(execution.call) == key then 1 else 0
  {
    assert (executions + [execution])[..|executions|] == executions;
  }

  /** By how many a number of failures is beyond the limit. */
  function Beyond(l: Limits, failures: nat): nat {
    Max0(failures - Max0(l.maxFailedCallRepeats))
  }

  lemma FailureNext(l: Limits, h: seq<Entry>, entry: Entry, key: string)
    ensures FailureCount(l, h + [entry], key) ==
            FailureCount(l, h, key) + if CountsAsFailure(l, h, entry) && KeyOf(entry.event) == key then 1 else 0
  {
    assert (h + [entry])[..|h|] == h;
  }

  // ----- inspections count no failure, results count theirs -----

  lemma {:induction false} InspectionsFailNothing(l: Limits, h: seq<Entry>, known: set<string>, calls: seq<Call>,
                                                  key: string)
    ensures FailureCount(l, h + Inspections(calls, known), key) == FailureCount(l, h, key)
  {
    if calls == [] {
      assert h + Inspections(calls, known) == h;
    } else {
      var n := |calls| - 1;
      var before := h + Inspections(calls[..n], known);
      InspectionsFailNothing(l, h, known, calls[..n], key);
      FailureNext(l, before, InspectionOf(calls[n], known), key);
      assert h + Inspections(calls, known) == before + [InspectionOf(calls[n], known)];
    }
  }

  lemma ResultsNext(h: seq<Entry>, done: seq<Execution>, execution: Execution)
    ensures Results(done + [execution]) == Results(done) + [ResultOf(execution)]
    ensures h + Results(done + [execution]) == h + Results(done) + [ResultOf(execution)]
  {
  }

  /** The guard's count of failures of a call grows by exactly its executions that failed. */
  lemma {:induction false} ResultsCountFailures(l: Limits, h: seq<Entry>, done: seq<Execution>, key: string)
    ensures FailureCount(l, h + Results(done), key) == FailureCount(l, h, key) + FailedRuns(done, key)
  {
    if done == [] {
      assert h + Results(done) == h;
    } else {
      var n := |done| - 1;
      ResultsCountFailures(l, h, done[..n], key);
      ResultsNext(h, done[..n], done[n]);
      FailureNext(l, h + Results(done[..n]), ResultOf(done[n]), key);
      assert done == done[..n] + [done[n]];
    }
  }

  // ----- the failures beyond the limit are stopped -----

  /** What the result guard answers to one more execution. */
  function AnswerTo(l: Limits, h: seq<Entry>, done: seq<Execution>, execution: Execution): Decision {
    Decide(l, h + Results(done), ResultOf(execution))
  }

  lemma AnswersNext(l: Limits, h: seq<Entry>, done: seq<Execution>, execution: Execution)
    ensures Answers(l, h, Results(done + [execution])) ==
            Answers(l, h, Results(done)) + [AnswerTo(l, h, done, execution)]
  {
    var all, front := Results(done + [execution]), Results(done);
    ResultsNext(h, done, execution);
    forall i | 0 <= i < |front| ensures Answers(l, h, all)[i] == Answers(l, h, front)[i] {
      assert all[..i] == front[..i];
    }
    assert all[..|front|] == front;
  }

  lemma BlocksNext(calls: seq<Call>, answers: seq<Decision>, call: Call, answer: Decision)
    requires |calls| == |answers|
    ensures Blocks(calls + [call], answers + [answer]) == Blocks(calls, answers) + [BlockedExecution(call, answer)]
    ensures Allows(answers + [answer]) == Allows(answers) + [answer == Allow]
  {
  }

  lemma ResultBlocksNext(l: Limits, h: seq<Entry>, done: seq<Execution>, execution: Execution)
    ensures var answer := AnswerTo(l, h, done, execution);
            ResultBlocks(l, h, done + [execution]) ==
            ResultBlocks(l, h, done) + if answer == Allow then [] else [BlockedExecution(execution.call, answer)]
  {
    var answers, answer := Answers(l, h, Results(done)), AnswerTo(l, h, done, execution);
    var calls := CallsIn(done);
    AnswersNext(l, h, done, execution);
    BlocksNext(calls, answers, execution.call, answer);
    assert CallsIn(done + [execution]) == calls + [execution.call];
    PickConcat(Blocks(calls, answers), Allows(answers), [BlockedExecution(execution.call, answer)], [answer == Allow],
               false);
  }

  /** The next execution is of the call, and the result guard stops it. */
  predicate Stops(l: Limits, h: seq<Entry>, done: seq<Execution>, execution: Execution, key: string) {
    KeyOfCall(execution.call) == key && AnswerTo(l, h, done, execution) != Allow
  }

  /** A failure is stopped exactly when the limit is reached already. */
  lemma StopsIff(l: Limits, h: seq<Entry>, done: seq<Execution>, execution: Execution, key: string)
    ensures Stops(l, h, done, execution, key) <==>
            FailsWith(execution, key) && FailureCount(l, h, key) + FailedRuns(done, key) >= l.maxFailedCallRepeats
  {
    ResultsCountFailures(l, h, done, key);
  }

  lemma BeyondNext(l: Limits, failures: nat, fails: bool, stops: bool)
    requires stops <==> fails && failures >= l.maxFailedCallRepeats
    ensures Beyond(l, failures + if fails then 1 else 0) == Beyond(l, failures) + if stops then 1 else 0
  {
  }

  /** How many of the executions of a call the result guard stops. */
  function StoppedRuns(l: Limits, h: seq<Entry>, done: seq<Execution>, key: string): nat {
    if done == [] then 0 else
      var front, last := done[..|done| - 1], done[|done| - 1];
      StoppedRuns(l, h, front, key) + if Stops(l, h, front, last, key) then 1 else 0
  }

  lemma BlockedNext(blocks: seq<Execution>, call: Call, answer: Decision, key: string)
    ensures RunsOf(blocks + (if answer == Allow then [] else [BlockedExecution(call, answer)]), key) ==
            RunsOf(blocks, key) + if KeyOfCall(call) == key && answer != Allow then 1 else 0
  {
    RunsNext(blocks, BlockedExecution(call, answer), key);
    assert blocks + [] == blocks;
  }

  lemma {:induction false} BlocksAreStopped(l: Limits, h: seq<Entry>, done: seq<Execution>, key: string)
    ensures RunsOf(ResultBlocks(l, h, done), key) == StoppedRuns(l, h, done, key)
  {
    if done == [] {
      assert ResultBlocks(l, h, done) == [];
    } else {
      var front, last := done[..|done| - 1], done[|done| - 1];
      BlocksAreStopped(l, h, front, key);
      ResultBlocksNext(l, h, front, last);
      BlockedNext(ResultBlocks(l, h, front), last.call, AnswerTo(l, h, front, last), key);
      assert front + [last] == done;
    }
  }

  /** Of each call exactly the failures beyond the limit are stopped. */
  lemma {:induction false} ResultsStopped(l: Limits, h: seq<Entry>, done: seq<Execution>, key: string)
    ensures Beyond(l, FailureCount(l, h, key)) + StoppedRuns(l, h, done, key) ==
            Beyond(l, FailureCount(l, h, key) + FailedRuns(done, key))
  {
    if done != [] {
      var front, last := done[..|done| - 1], done[|done| - 1];
      ResultsStopped(l, h, front, key);
      StopsIff(l, h, front, last, key);
      BeyondNext(l, FailureCount(l, h, key) + FailedRuns(front, key), FailsWith(last, key),
                 Stops(l, h, front, last, key));
    }
  }

  /** Both at once. */
  lemma DoneCounts(l: Limits, h: seq<Entry>, done: seq<Execution>, key: string)
    ensures var before, after := FailureCount(l, h, key), FailureCount(l, h + Results(done), key);
            after == before + FailedRuns(done, key) &&
              Beyond(l, before) + StoppedRuns(l, h, done, key) == Beyond(l, after)
  {
    ResultsCountFailures(l, h, done, key);
    ResultsStopped(l, h, done, key);
  }

  // ----- over the turns of a run -----

  /** How many executions of a call failed in these turns. */
  function FailedDone(turns: seq<TurnRecord>, key: string): nat {
    if turns == [] then 0 else
      FailedDone(turns[..|turns| - 1], key) + FailedRuns(turns[|turns| - 1].done, key)
  }

  /** How many executions of a call the result guard stopped in these turns. */
  function Stopped(turns: seq<TurnRecord>, key: string): nat {
    if turns == [] then 0 else
      Stopped(turns[..|turns| - 1], key) + RunsOf(turns[|turns| - 1].resultBlocked, key)
  }

  lemma AddFailures(turns: seq<TurnRecord>, t: TurnRecord, key: string)
    ensures FailedDone(turns + [t], key) == FailedDone(turns, key) + FailedRuns(t.done, key)
    ensures Stopped(turns + [t], key) == Stopped(turns, key) + RunsOf(t.resultBlocked, key)
  {
    assert (turns + [t])[..|turns|] == turns;
  }

  /** The guard has counted exactly the executions that failed, and has stopped exactly those
      beyond the limit. */
  ghost predicate FailuresCounted(l: Limits, s: State) {
    forall key ::
      FailureCount(l, s.history, key) == FailedDone(s.turns, key) &&
      Stopped(s.turns, key) == Beyond(l, FailedDone(s.turns, key))
  }

  /** A finished turn keeps that. */
  lemma TurnCounts(l: Limits, s: State, known: set<string>, calls: seq<Call>, t: TurnRecord, after: State)
    requires FailuresCounted(l, s)
    requires var h := s.history + Inspections(calls, known);
             && t.resultBlocked == ResultBlocks(l, h, t.done)
             && after.history == h + Results(t.done) && after.turns == s.turns + [t]
    ensures FailuresCounted(l, after)
  {
    var h := s.history + Inspections(calls, known);
    forall key
      ensures FailureCount(l, after.history, key) == FailedDone(after.turns, key)
      ensures Stopped(after.turns, key) == Beyond(l, FailedDone(after.turns, key))
    {
      InspectionsFailNothing(l, s.history, known, calls, key);
      DoneCounts(l, h, t.done, key);
      BlocksAreStopped(l, h, t.done, key);
      AddFailures(s.turns, t, key);
    }
  }

  /** A turn that is broken off before any result keeps it as well. */
  lemma NoResultCounts(l: Limits, s: State, known: set<string>, calls: seq<Call>, after: State)
    requires FailuresCounted(l, s)
    requires after.history == s.history + Inspections(calls, known) && after.turns == s.turns
    ensures FailuresCounted(l, after)
  {
    forall key ensures FailureCount(l, after.history, key) == FailureCount(l, s.history, key) {
      InspectionsFailNothing(l, s.history, known, calls, key);
    }
  }

  lemma {:induction false} NothingStopped(turns: seq<TurnRecord>, key: string)
    requires forall i | 0 <= i < |turns| :: turns[i].resultBlocked == []
    ensures Stopped(turns, key) == 0
  {
    if turns != [] { NothingStopped(turns[..|turns| - 1], key); }
  }

  /** While the result guard has stopped nothing, no call failed more often than allowed. */
  lemma UnstoppedWithinLimit(l: Limits, s: State, key: string)
    requires FailuresCounted(l, s) && forall i | 0 <= i < |s.turns| :: s.turns[i].resultBlocked == []
    ensures FailedDone(s.turns, key) <= Max0(l.maxFailedCallRepeats)
  {
    NothingStopped(s.turns, key);
    assert Stopped(s.turns, key) == Beyond(l, FailedDone(s.turns, key));
  }
}
