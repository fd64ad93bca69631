/** How a run of the tool loop ends: in which turn, with what result, and what its last turn did. */
module RunEnds {
  import opened Basics
  import opened LoopGuard
  import opened ToolCalls
  import opened ToolBudget
  import opened ToolScheduler
  import opened ToolRuntime
  import opened ToolLoop
  import opened ToolRunSafety
  import opened BudgetLaws
  import opened RunLaws

  // ----- questions -----

  /** The guard reason that a result carries. */
  ghost predicate Carries(e: Execution, reason: Reason) {
    e.result == GuardStop(reason) || (e.result.Payload? && e.result.guardReason == Some(reason))
  }

  /** The reason is the one carried by the last execution that carries any. */
  ghost predicate IsLastReason(executions: seq<Execution>, reason: Option<Reason>) {
    match reason
    case None => forall i, other | 0 <= i < |executions| :: !Carries(executions[i], other)
    case Some(r) => exists m :: 0 <= m < |executions| && IsLastAt(executions, r, m)
  }

  ghost predicate IsLastAt(executions: seq<Execution>, reason: Reason, m: nat)
    requires m < |executions|
  {
    Carries(executions[m], reason) && forall i, other | m < i < |executions| :: !Carries(executions[i], other)
  }

  lemma {:induction false} LastGuardReasonIsLast(executions: seq<Execution>)
    ensures IsLastReason(executions, LastGuardReason(executions))
  {
    if executions != [] {
      var n := |executions| - 1;
      var front, reason := executions[..n], LastGuardReason(executions);
      LastGuardReasonIsLast(front);
      if GuardReasonIn(executions[n]).Some? {
        assert IsLastAt(executions, reason.value, n);
      } else if reason.Some? {
        var m :| 0 <= m < |front| && IsLastAt(front, reason.value, m);
        assert forall i | m < i < n :: executions[i] == front[i];
        assert IsLastAt(executions, reason.value, m);
      } else {
        assert forall i | 0 <= i < n :: executions[i] == front[i];
      }
    }
  }

  /** What a run asks after a last turn with calls.  When the guard let no call through, it pauses for that;
      else the first execution that asks decides; else it pauses because the budget refused calls, for the
      reason of the last of them, or because the guard stopped results. */
  ghost predicate AsksAfter(cb: Callbacks, t: TurnRecord, at: Circumstances, ask: Ask) {
    if true !in t.guardMarks then
      ask.Pause? && ask.cause == GuardBlockedStep && ask.at == at && IsLastReason(t.blocked, ask.guardReason)
    else if ask.Supplied? then
      AsksFirst(cb, t.done + t.refused + t.resultBlocked, at, Some(ask))
    else
      && AsksFirst(cb, t.done + t.refused + t.resultBlocked, at, None)
      && ask.at == at && IsLastReason(t.resultBlocked, ask.guardReason)
      && if t.refused != [] then
           ask.cause.BudgetExhausted? && t.refused[|t.refused| - 1].result == BudgetStop(ask.cause.exhausted)
         else t.resultBlocked != [] && ask.cause == ResultGuardStop
  }

  // ----- the last turn -----

  /** The budget admitted and refused the groups of the calls that passed the guard exactly as it had to. */
  ghost predicate BudgetedAs(descriptors: Lookup, l: Ledger, t: TurnRecord) {
    && |t.guardMarks| == |t.calls| && AdmitsExactly(l, Groups(descriptors, t), t.groupMarks)
    && RefusesExactly(l, Groups(descriptors, t), t.groupMarks, t.refused)
  }

  /** A last turn with calls whose results the adapter returned: all its records are in the executions
      returned, and the run asks. */
  ghost predicate EndedAsking(cb: Callbacks, l: Limits, s: State, turn: nat, t: TurnRecord, shown: string,
                              r: RunResult, end: State)
  {
    && Replied(cb, s.transcript, turn, t.calls, shown) && t.calls != [] && t.known == cb.known(turn)
    && end.turns == s.turns + [t] && end.broken == None
    && Guarded(l, s.history, t, end.history) && BudgetedAs(cb.descriptors, s.ledger, t)
    && s.log <= end.log && Schedule(cb.execute, |s.log|, end.log[|s.log|..]) == Some(t.done)
    && r.Done? && r.rawText == shown
    && r.executions == s.executions + (t.blocked + t.done + t.refused + t.resultBlocked)
    && r.ask.Some? && AsksAfter(cb, t, Circumstances(end.ledger, GuardAt(l, end.history), turn + 1), r.ask.value)
  }

  /** A last turn with calls in which the adapter returned results for other calls. */
  ghost predicate EndedBroken(cb: Callbacks, l: Limits, s: State, turn: nat, t: TurnRecord, shown: string,
                              r: RunResult, end: State)
  {
    && Replied(cb, s.transcript, turn, t.calls, shown) && t.calls != [] && t.known == cb.known(turn)
    && end.turns == s.turns && end.broken == Some(t)
    && Guarded(l, s.history, t, end.history) && BudgetedAs(cb.descriptors, s.ledger, t)
    && s.log <= end.log && Schedule(cb.execute, |s.log|, end.log[|s.log|..]) == None
    && r == Rejected(COVERAGE_ERROR)
  }

  /** A last reply without calls is the answer; one that cannot be parsed is what the caller makes of it. */
  ghost predicate EndedAnswering(cb: Callbacks, l: Limits, s: State, turn: nat, r: RunResult) {
    var raw := cb.generate(s.transcript, turn);
    match cb.parse(raw)
    case Parsed(calls, text) => calls == [] && r == Done(None, if text != "" then text else raw, s.executions)
    case Unparsable(error) =>
      match cb.recover(raw, Circumstances(s.ledger, GuardAt(l, s.history), turn + 1))
      case None => r == Rejected(error)
      case Some(c) =>
        && r.Done? && r.ask == Some(Supplied(c.askId))
        && r.rawText == (match c.rawText case Some(text) => text case None => raw)
        && r.executions == s.executions + (match c.execution case Some(e) => [e] case None => [])
  }

  lemma GroupsAreBudgeted(l: Ledger, turnsUsed: nat, groups: seq<Unit>)
    ensures Exact(l, groups, BudgetAll(l.(turnsUsed := turnsUsed), groups))
  {
    var b := BudgetAll(l.(turnsUsed := turnsUsed), groups);
    BudgetIsExact(l.(turnsUsed := turnsUsed), groups);
    TurnsDoNotCount(l, turnsUsed, groups, b.groupMarks, b.refused);
  }

  lemma RecordIsBudgeted(cb: Callbacks, l: Limits, s: State, known: set<string>, calls: seq<Call>, t: Triage,
                         record: TurnRecord)
    requires t == TriageCalls(cb.descriptors, l, s, known, calls)
    requires record.calls == calls && record.guardMarks == t.marks
    requires record.groupMarks == t.budgeted.groupMarks && record.refused == t.budgeted.refused
    ensures BudgetedAs(cb.descriptors, s.ledger, record)
  {
    assert PassedGuard(record) == t.allowed;
    GroupsAreBudgeted(s.ledger, s.ledger.turnsUsed + 1, Groups(cb.descriptors, record));
  }

  lemma {:induction false} TurnsDoNotCount(l: Ledger, turnsUsed: nat, groups: seq<Unit>, marks: seq<bool>,
                                           refused: seq<Execution>)
    requires |groups| == |marks|
    ensures RefusesExactly(l.(turnsUsed := turnsUsed), groups, marks, refused) <==>
            RefusesExactly(l, groups, marks, refused)
  {
    if groups != [] {
      var n := |groups| - 1;
      TurnsDoNotCount(l, turnsUsed, groups[..n], marks[..n], refused);
      if |groups[n].calls| <= |refused| {
        TurnsDoNotCount(l, turnsUsed, groups[..n], marks[..n], refused[..|refused| - |groups[n].calls|]);
      }
    }
  }

  /** The question after a settled turn. */
  lemma SettleAsks(cb: Callbacks, l: Limits, s: State, turn: nat, known: set<string>, calls: seq<Call>, shown: string,
                   t: Triage, done: seq<Execution>)
    requires true in t.marks && Settle(cb, l, s, turn, known, calls, shown, t, done).Halt?
    requires var b := t.budgeted;
             && (b.refused == [] <==> b.reasons == [])
             && (b.refused != [] ==> b.refused[|b.refused| - 1].result == BudgetStop(b.reasons[|b.reasons| - 1]))
    ensures var o := Settle(cb, l, s, turn, known, calls, shown, t, done);
            && o.result.Done? && o.result.ask.Some?
            && AsksAfter(cb, RecordOf(l, known, calls, t, done),
                         Circumstances(o.state.ledger, GuardAt(l, o.state.history), turn + 1), o.result.ask.value)
  {
    var o := Settle(cb, l, s, turn, known, calls, shown, t, done);
    var resultBlocked := ResultBlocks(l, t.history, done);
    FirstAskIsFirst(cb, done + t.budgeted.refused + resultBlocked,
                    Circumstances(o.state.ledger, GuardAt(l, o.state.history), turn + 1));
    LastGuardReasonIsLast(resultBlocked);
  }

  lemma UnitsHaveCalls(descriptors: Lookup, calls: seq<Call>, groups: seq<Unit>)
    requires groups == Units(descriptors, Chunks(calls, UnitSharing(descriptors)))
    ensures forall i | 0 <= i < |groups| :: groups[i].calls != []
  {
    var joins := UnitSharing(descriptors);
    ChunksAreChunking(calls, joins);
    assert forall i | 0 <= i < |Chunks(calls, joins)| :: IsChunk(Chunks(calls, joins)[i], joins);
  }

  lemma UnitsGiveReasons(ledger: Ledger, descriptors: Lookup, calls: seq<Call>)
    ensures var b := BudgetAll(ledger, Units(descriptors, Chunks(calls, UnitSharing(descriptors))));
            && (b.refused == [] <==> b.reasons == [])
            && (b.refused != [] ==> b.refused[|b.refused| - 1].result == BudgetStop(b.reasons[|b.reasons| - 1]))
  {
    var groups := Units(descriptors, Chunks(calls, UnitSharing(descriptors)));
    UnitsHaveCalls(descriptors, calls, groups);
    LastReasonIsLast(ledger, groups);
  }

  lemma GroupsGiveReasons(ledger: Ledger, descriptors: Lookup, calls: seq<Call>, t: Triage)
    requires |t.marks| == |calls| && t.allowed == Pick(calls, t.marks, true)
    requires t.budgeted == BudgetAll(ledger, Units(descriptors, Chunks(t.allowed, UnitSharing(descriptors))))
    ensures var b := t.budgeted;
            && (t.allowed != [] <==> true in t.marks)
            && (b.refused == [] <==> b.reasons == [])
            && (b.refused != [] ==> b.refused[|b.refused| - 1].result == BudgetStop(b.reasons[|b.reasons| - 1]))
  {
    SomeMarked(calls, t.marks);
    UnitsGiveReasons(ledger, descriptors, t.allowed);
  }

  lemma TriageGivesReasons(descriptors: Lookup, l: Limits, s: State, known: set<string>, calls: seq<Call>, t: Triage)
    requires t == TriageCalls(descriptors, l, s, known, calls)
    ensures var b := t.budgeted;
            && (t.allowed != [] <==> true in t.marks)
            && (b.refused == [] <==> b.reasons == [])
            && (b.refused != [] ==> b.refused[|b.refused| - 1].result == BudgetStop(b.reasons[|b.reasons| - 1]))
  {
    GroupsGiveReasons(s.ledger.(turnsUsed := s.ledger.turnsUsed + 1), descriptors, calls, t);
  }

  /** The question after a turn whose calls were all blocked. */
  lemma BlockedAsks(cb: Callbacks, l: Limits, s: State, turn: nat, known: set<string>, calls: seq<Call>, shown: string,
                    t: Triage)
    requires true !in t.marks
    ensures var o := AllBlocked(l, s, turn, known, calls, shown, t);
            AsksAfter(cb, o.state.turns[|s.turns|],
                      Circumstances(o.state.ledger, GuardAt(l, o.state.history), turn + 1), o.result.ask.value)
  {
    LastGuardReasonIsLast(t.blocked);
  }

  /** The question after a last turn with calls. */
  lemma WorkAsks(cb: Callbacks, l: Limits, s: State, turn: nat, calls: seq<Call>, shown: string, t: Triage)
    requires t == TriageCalls(cb.descriptors, l, s, cb.known(turn), calls)
    requires WorkOn(cb, l, s, turn, calls, shown).Halt? && WorkOn(cb, l, s, turn, calls, shown).result.Done?
    ensures var o := WorkOn(cb, l, s, turn, calls, shown);
            && o.result.ask.Some? && o.result.rawText == shown && |o.state.turns| == |s.turns| + 1
            && AsksAfter(cb, o.state.turns[|s.turns|],
                         Circumstances(o.state.ledger, GuardAt(l, o.state.history), turn + 1), o.result.ask.value)
  {
    var known := cb.known(turn);
    TriageGivesReasons(cb.descriptors, l, s, known, calls, t);
    if t.allowed == [] {
      BlockedAsks(cb, l, s, turn, known, calls, shown, t);
    } else {
      var done := Schedule(cb.execute, |s.log|, Chunks(t.budgeted.admitted, Batchable(cb.descriptors))).value;
      SettleAsks(cb, l, s, turn, known, calls, shown, t, done);
    }
  }

  lemma RecordIsGuarded(cb: Callbacks, l: Limits, s: State, known: set<string>, calls: seq<Call>, t: Triage,
                        record: TurnRecord)
    requires t == TriageCalls(cb.descriptors, l, s, known, calls)
    requires record == RecordOf(l, known, calls, t, record.done)
    ensures Guarded(l, s.history, record, t.history + Results(record.done))
  {
    TurnIsGuarded(l, s.history, record, t.history, t.history + Results(record.done));
  }

  /** A last turn with calls either asks or is broken off by the adapter. */
  lemma WorkEnds(cb: Callbacks, l: Limits, s: State, turn: nat, calls: seq<Call>, shown: string)
    returns (t: TurnRecord)
    requires WorkOn(cb, l, s, turn, calls, shown).Halt? && s.broken.None?
    requires Replied(cb, s.transcript, turn, calls, shown) && calls != []
    ensures var o := WorkOn(cb, l, s, turn, calls, shown);
            if o.state.broken.None? then EndedAsking(cb, l, s, turn, t, shown, o.result, o.state)
            else EndedBroken(cb, l, s, turn, t, shown, o.result, o.state)
  {
    var known := cb.known(turn);
    var o := WorkOn(cb, l, s, turn, calls, shown);
    var done := WorkShape(cb, l, s, turn, calls, shown);
    var triage := TriageCalls(cb.descriptors, l, s, known, calls);
    var batches := Chunks(triage.budgeted.admitted, Batchable(cb.descriptors));
    t := RecordOf(l, known, calls, triage, if o.state.broken.None? then done else []);
    RecordIsGuarded(cb, l, s, known, calls, triage, t);
    RecordIsBudgeted(cb, l, s, known, calls, triage, t);
    if o.state.broken.None? {
      WorkAsks(cb, l, s, turn, calls, shown, triage);
      assert (s.log + batches)[|s.log|..] == batches;
    } else {
      var sent := Sending(cb.execute, |s.log|, batches);
      assert (s.log + sent)[|s.log|..] == sent && triage.history + Results([]) == triage.history;
    }
  }

  // ----- the end of a run -----

  /** A run is refused at once when its turn budget is not positive, its last message is empty, or a budget
      is negative. */
  lemma RefusedAtOnceIff(o: RunOptions)
    ensures !ValidOptions(o) <==>
            || (match o.modelToolTurnBudget case Some(n) => n <= 0 case None => o.maxTurns <= 0)
            || o.noMoreToolsMessage == ""
            || (o.budget.executionOperationBudget.Some? && o.budget.executionOperationBudget.value < 0)
            || (o.budget.riskQuota.Some? && o.budget.riskQuota.value < 0)
  {
  }

  /** How a run ends: out of turns; or in its last turn, with an answer, with a question, or broken off. */
  ghost predicate EndsAs(cb: Callbacks, l: Limits, maxTurns: nat, heads: seq<State>, r: RunResult, end: State) {
    heads != [] &&
    var k := |heads| - 1;
    var s := heads[k];
    if k == maxTurns then
      && end == s && r.Done? && r.rawText == "" && r.executions == s.executions
      && r.ask.Some? && r.ask.value.Pause? && r.ask.value.cause == BudgetExhausted(ModelToolTurn)
      && r.ask.value.at == Circumstances(s.ledger, GuardAt(l, s.history), maxTurns)
      && IsLastReason(s.executions, r.ask.value.guardReason)
    else
      k < maxTurns &&
      if CallsRead(cb, s, k) == [] then EndedAnswering(cb, l, s, k, r)
      else exists t, shown ::
        EndedAsking(cb, l, s, k, t, shown, r, end) || EndedBroken(cb, l, s, k, t, shown, r, end)
  }

  lemma LastTurnEnds(cb: Callbacks, l: Limits, s: State, k: nat)
    requires TakeTurn(cb, l, s, k).Halt? && s.broken.None?
    ensures var o := TakeTurn(cb, l, s, k);
            if CallsRead(cb, s, k) == [] then EndedAnswering(cb, l, s, k, o.result)
            else exists t, shown ::
              EndedAsking(cb, l, s, k, t, shown, o.result, o.state) ||
              EndedBroken(cb, l, s, k, t, shown, o.result, o.state)
  {
    if CallsRead(cb, s, k) == [] {
      assert s.executions + [] == s.executions;
    } else {
      var raw := cb.generate(s.transcript, k);
      var calls, shown := cb.parse(raw).calls, Shown(cb.parse(raw).text, raw);
      var t := WorkEnds(cb, l, s, k, calls, shown);
      var o := TakeTurn(cb, l, s, k);
      assert EndedAsking(cb, l, s, k, t, shown, o.result, o.state) ||
             EndedBroken(cb, l, s, k, t, shown, o.result, o.state);
    }
  }

  /** Every run ends so. */
  lemma RunEndsSo(cb: Callbacks, o: RunOptions, log: seq<seq<Call>>)
    requires ValidOptions(o)
    ensures var l := LimitsOf(o.loopGuard);
            var (r, end) := RunFrom(cb, l, TurnBudget(o), Initial(o, log), 0);
            EndsAs(cb, l, TurnBudget(o), RunHeads(cb, o, log), r, end)
  {
    var l, start, heads := LimitsOf(o.loopGuard), Initial(o, log), RunHeads(cb, o, log);
    var (r, end) := RunFrom(cb, l, TurnBudget(o), start, 0);
    var k := |heads| - 1;
    RunTakes(cb, o, log);
    LastHead(cb, l, TurnBudget(o), start, heads, r, end);
    HeadsRead(cb, l, TurnBudget(o), start, heads, r, end, k);
    if k < TurnBudget(o) {
      LastTurnEnds(cb, l, heads[k], k);
    } else {
      LastGuardReasonIsLast(heads[k].executions);
    }
  }
}
