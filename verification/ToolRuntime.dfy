/** The bounded model/tool loop: what one turn does, what a run does, and the class that runs it. */
module ToolRuntime {
  import opened Basics
  import opened LoopGuard
  import opened ToolCalls
  import opened ToolBudget
  import opened ToolScheduler
  import opened ToolLoop

  datatype Message = Given(text: string) | Assistant(text: string) | ToolResults(text: string)

  datatype ParseOutcome = Parsed(calls: seq<Call>, text: string) | Unparsable(error: string)

  datatype Recovery = Recovery(askId: string, execution: Option<Execution>, rawText: Option<string>)

  /** Where a run stands when the caller is asked about it. */
  datatype Circumstances = Circumstances(budget: Ledger, guard: GuardSnapshot, stepCount: nat)

  datatype Callbacks = Callbacks(
    generate: (seq<Message>, nat) -> string,
    parse: string -> ParseOutcome,
    known: nat -> set<string>,
    descriptors: Lookup,
    execute: Execute,
    render: seq<Execution> -> string,
    executionAsk: (Execution, Circumstances) -> Option<string>,
    recover: (string, Circumstances) -> Option<Recovery>)

  datatype RunOptions = RunOptions(modelToolTurnBudget: Option<int>, maxTurns: int, budget: BudgetOptions,
                                   loopGuard: Options, initialMessages: seq<Message>, noMoreToolsMessage: string)

  datatype Cause = GuardBlockedStep | BudgetExhausted(exhausted: Exhausted) | ResultGuardStop

  datatype Ask =
    | Pause(cause: Cause, guardReason: Option<Reason>, at: Circumstances)
    | Supplied(id: string)

  datatype RunResult =
    | Done(ask: Option<Ask>, rawText: string, executions: seq<Execution>)
    | Rejected(error: string)

  // ----- the loop guard, before and after execution -----

  function InspectionOf(call: Call, known: set<string>): Entry {
    Inspected(Event(call.key, Some(call.input), Some(known), None))
  }

  function Inspections(calls: seq<Call>, known: set<string>): seq<Entry> {
    seq(|calls|, i requires 0 <= i < |calls| => InspectionOf(calls[i], known))
  }

  function ResultOf(execution: Execution): Entry {
    Recorded(Event(execution.call.key, Some(execution.call.input), None, Some(execution.ok)))
  }

  function Results(executions: seq<Execution>): seq<Entry> {
    seq(|executions|, i requires 0 <= i < |executions| => ResultOf(executions[i]))
  }

  /** What the guard answers to each of a list of entries. */
  function Answers(l: Limits, h: seq<Entry>, entries: seq<Entry>): seq<Decision> {
    seq(|entries|, i requires 0 <= i < |entries| => Decide(l, h + entries[..i], entries[i]))
  }

  lemma HistoryNext(h: seq<Entry>, entries: seq<Entry>, i: nat)
    requires i < |entries|
    ensures h + entries[..i] + [entries[i]] == h + entries[..i + 1]
  {
    assert entries[..i + 1] == entries[..i] + [entries[i]];
  }

  function Allows(answers: seq<Decision>): seq<bool> {
    seq(|answers|, i requires 0 <= i < |answers| => answers[i] == Allow)
  }

  function BlockedExecution(call: Call, answer: Decision): Execution {
    Execution(call, false, GuardStop(if answer.Block? then answer.reason else RepeatedCallNoProgress))
  }

  function Blocks(calls: seq<Call>, answers: seq<Decision>): seq<Execution>
    requires |calls| == |answers|
  {
    seq(|calls|, i requires 0 <= i < |calls| => BlockedExecution(calls[i], answers[i]))
  }

  method ApplyLoopGuard(calls: seq<Call>, known: set<string>, guard: ExecutiveLoopGuard)
    returns (allowed: seq<Call>, blocked: seq<Execution>)
    requires guard.Valid()
    modifies guard
    ensures guard.Valid() && guard.history == old(guard.history) + Inspections(calls, known)
    ensures var answers := Answers(guard.options, old(guard.history), Inspections(calls, known));
            allowed == Pick(calls, Allows(answers), true) &&
            blocked == Pick(Blocks(calls, answers), Allows(answers), false)
  {
    ghost var h := guard.history;
    ghost var entries := Inspections(calls, known);
    ghost var answers := Answers(guard.options, h, entries);
    allowed, blocked := [], [];
    for i := 0 to |calls|
      invariant guard.Valid() && guard.history == h + entries[..i]
      invariant allowed == Pick(calls[..i], Allows(answers)[..i], true)
      invariant blocked == Pick(Blocks(calls, answers)[..i], Allows(answers)[..i], false)
    {
      var call := calls[i];
      var decision := guard.Inspect(Event(call.key, Some(call.input), Some(known), None));
      HistoryNext(h, entries, i);
      assert decision == answers[i];
      PickNext(calls, Allows(answers), i, true);
      PickNext(Blocks(calls, answers), Allows(answers), i, false);
      if decision == Allow {
        allowed := allowed + [call];
      } else {
        blocked := blocked + [BlockedExecution(call, decision)];
      }
    }
    assert entries[..|calls|] == entries && calls[..|calls|] == calls;
    assert Allows(answers)[..|calls|] == Allows(answers) && Blocks(calls, answers)[..|calls|] == Blocks(calls, answers);
  }

  method ApplyResultGuard(executions: seq<Execution>, guard: ExecutiveLoopGuard) returns (blocked: seq<Execution>)
    requires guard.Valid()
    modifies guard
    ensures guard.Valid() && guard.history == old(guard.history) + Results(executions)
    ensures var answers := Answers(guard.options, old(guard.history), Results(executions));
            blocked == Pick(Blocks(CallsIn(executions), answers), Allows(answers), false)
  {
    ghost var h := guard.history;
    ghost var entries := Results(executions);
    ghost var answers := Answers(guard.options, h, entries);
    ghost var blocks := Blocks(CallsIn(executions), answers);
    blocked := [];
    for i := 0 to |executions|
      invariant guard.Valid() && guard.history == h + entries[..i]
      invariant blocked == Pick(blocks[..i], Allows(answers)[..i], false)
    {
      var call := executions[i].call;
      var decision := guard.RecordResult(ResultOf(executions[i]).event);
      HistoryNext(h, entries, i);
      assert decision == answers[i];
      PickNext(blocks, Allows(answers), i, false);
      if decision != Allow {
        blocked := blocked + [BlockedExecution(call, decision)];
      }
    }
    assert entries[..|executions|] == entries;
    assert Allows(answers)[..|executions|] == Allows(answers) && blocks[..|executions|] == blocks;
  }

  // ----- one turn -----

  /** What became of the calls of one turn. */
  datatype TurnRecord = TurnRecord(
    calls: seq<Call>,
    known: set<string>,
    guardMarks: seq<bool>,        // per call: let through by the loop guard
    groupMarks: seq<bool>,        // per budget group of those: admitted by the budget
    budgetMarks: seq<bool>,       // per call let through: admitted by the budget
    blocked: seq<Execution>,
    refused: seq<Execution>,
    done: seq<Execution>,
    resultBlocked: seq<Execution>)

  function PassedGuard(t: TurnRecord): seq<Call>
    requires |t.guardMarks| == |t.calls|
  {
    Pick(t.calls, t.guardMarks, true)
  }

  /** Everything a run carries from one turn to the next, and in the end the turn that the
      adapter broke off, if it did. */
  datatype State = State(history: seq<Entry>, ledger: Ledger, executions: seq<Execution>, transcript: seq<Message>,
                         log: seq<seq<Call>>, turns: seq<TurnRecord>, broken: Option<TurnRecord>)

  type TurnOutcome = Outcome<State, RunResult>

  function FirstAsk(cb: Callbacks, executions: seq<Execution>, at: Circumstances): Option<Ask> {
    if executions == [] then None else
      match cb.executionAsk(executions[0], at)
      case Some(id) => Some(Supplied(id))
      case None => FirstAsk(cb, executions[1..], at)
  }

  function GuardReasonIn(execution: Execution): Option<Reason> {
    match execution.result
    case GuardStop(reason) => Some(reason)
    case Payload(_, reason) => reason
    case _ => None
  }

  /** The guard reason of the last execution that carries one. */
  function LastGuardReason(executions: seq<Execution>): Option<Reason> {
    if executions == [] then None else
      var n := |executions| - 1;
      if GuardReasonIn(executions[n]).Some? then GuardReasonIn(executions[n]) else LastGuardReason(executions[..n])
  }

  /** The guard's and the budget's treatment of the calls of a turn. */
  datatype Triage = Triage(history: seq<Entry>, marks: seq<bool>, allowed: seq<Call>, blocked: seq<Execution>,
                           budgeted: Budgeted)

  function TriageCalls(descriptors: Lookup, l: Limits, s: State, known: set<string>, calls: seq<Call>): (t: Triage)
    ensures |t.marks| == |calls|
  {
    var entries := Inspections(calls, known);
    var answers := Answers(l, s.history, entries);
    var marks := Allows(answers);
    var allowed := Pick(calls, marks, true);
    Triage(s.history + entries, marks, allowed, Pick(Blocks(calls, answers), marks, false),
           BudgetAll(s.ledger.(turnsUsed := s.ledger.turnsUsed + 1),
                     Units(descriptors, Chunks(allowed, UnitSharing(descriptors)))))
  }

  /** What the guard leaves of the calls is what their triage says. */
  lemma TriageIs(descriptors: Lookup, l: Limits, s: State, known: set<string>, calls: seq<Call>,
                 allowed: seq<Call>, blocked: seq<Execution>, history: seq<Entry>)
    requires history == s.history + Inspections(calls, known)
    requires var answers := Answers(l, s.history, Inspections(calls, known));
             allowed == Pick(calls, Allows(answers), true) &&
               blocked == Pick(Blocks(calls, answers), Allows(answers), false)
    ensures var t := TriageCalls(descriptors, l, s, known, calls);
            && allowed == t.allowed && blocked == t.blocked && history == t.history
            && t.budgeted == BudgetAll(s.ledger.(turnsUsed := s.ledger.turnsUsed + 1),
                                       Units(descriptors, Chunks(allowed, UnitSharing(descriptors))))
  {
  }

  function ResultBlocks(l: Limits, h: seq<Entry>, done: seq<Execution>): seq<Execution> {
    var answers := Answers(l, h, Results(done));
    Pick(Blocks(CallsIn(done), answers), Allows(answers), false)
  }

  /** A turn whose calls were all blocked by the loop guard. */
  function AllBlocked(l: Limits, s: State, turn: nat, known: set<string>, calls: seq<Call>, shown: string,
                      t: Triage): TurnOutcome {
    var ledger := s.ledger.(turnsUsed := s.ledger.turnsUsed + 1);
    var at := Circumstances(ledger, GuardAt(l, t.history), turn + 1);
    var executions := s.executions + t.blocked;
    Halt(Done(Some(Pause(GuardBlockedStep, LastGuardReason(t.blocked), at)), shown, executions),
         s.(history := t.history, ledger := ledger, executions := executions,
            turns := s.turns + [TurnRecord(calls, known, t.marks, [], [], t.blocked, [], [], [])]))
  }

  function RecordOf(l: Limits, known: set<string>, calls: seq<Call>, t: Triage, done: seq<Execution>): TurnRecord {
    TurnRecord(calls, known, t.marks, t.budgeted.groupMarks, t.budgeted.callMarks, t.blocked, t.budgeted.refused, done,
               ResultBlocks(l, t.history, done))
  }

  /** The state after a turn whose admitted calls were executed with these results. */
  function AfterWork(cb: Callbacks, s: State, t: Triage, record: TurnRecord): State {
    State(t.history + Results(record.done), t.budgeted.ledger,
          s.executions + (record.blocked + record.done + record.refused + record.resultBlocked),
          s.transcript, s.log + Chunks(t.budgeted.admitted, Batchable(cb.descriptors)), s.turns + [record],
          s.broken)
  }

  /** The state in which a turn leaves the run when results of the adapter break its contract:
      the guard has seen the calls, the budget is charged and some batches are sent, but no
      execution is added to the list. */
  function BrokenOff(cb: Callbacks, l: Limits, s: State, known: set<string>, calls: seq<Call>, t: Triage): State {
    s.(history := t.history, ledger := t.budgeted.ledger,
       log := s.log + Sending(cb.execute, |s.log|, Chunks(t.budgeted.admitted, Batchable(cb.descriptors))),
       broken := Some(RecordOf(l, known, calls, t, [])))
  }

  /** Whether such a turn ends the run, and how. */
  function Settle(cb: Callbacks, l: Limits, s: State, turn: nat, known: set<string>, calls: seq<Call>, shown: string,
                  t: Triage, done: seq<Execution>): TurnOutcome
  {
    var b := t.budgeted;
    var record := RecordOf(l, known, calls, t, done);
    var resultBlocked := record.resultBlocked;
    var after := AfterWork(cb, s, t, record);
    var at := Circumstances(b.ledger, GuardAt(l, after.history), turn + 1);
    var ask := FirstAsk(cb, done + b.refused + resultBlocked, at);
    var reason := LastGuardReason(resultBlocked);
    if ask.Some? then Halt(Done(ask, shown, after.executions), after)
    else if b.refused != [] then
      var why := if b.reasons == [] then ExecutionOperation else b.reasons[|b.reasons| - 1];
      Halt(Done(Some(Pause(BudgetExhausted(why), reason, at)), shown, after.executions), after)
    else if resultBlocked != [] then
      Halt(Done(Some(Pause(ResultGuardStop, reason, at)), shown, after.executions), after)
    else
      Next(after.(transcript := s.transcript +
                    [Assistant(shown), ToolResults(cb.render(t.blocked + done + resultBlocked))]))
  }

  const COVERAGE_ERROR := "Executive tool adapter broke its result contract."

  function WorkOn(cb: Callbacks, l: Limits, s: State, turn: nat, calls: seq<Call>, shown: string): TurnOutcome {
    var known := cb.known(turn);
    var t := TriageCalls(cb.descriptors, l, s, known, calls);
    if t.allowed == [] then AllBlocked(l, s, turn, known, calls, shown, t)
    else WorkOff(cb, l, s, turn, known, calls, shown, t)
  }

  /** A turn with calls that the loop guard let through. */
  function WorkOff(cb: Callbacks, l: Limits, s: State, turn: nat, known: set<string>, calls: seq<Call>, shown: string,
                   t: Triage): TurnOutcome
  {
    match Schedule(cb.execute, |s.log|, Chunks(t.budgeted.admitted, Batchable(cb.descriptors)))
    case None => Halt(Rejected(COVERAGE_ERROR), BrokenOff(cb, l, s, known, calls, t))
    case Some(done) => Settle(cb, l, s, turn, known, calls, shown, t, done)
  }

  function Shown(text: string, raw: string): string {
    if text == "" then raw else text
  }

  function ParseFailure(cb: Callbacks, l: Limits, s: State, turn: nat, raw: string, error: string): TurnOutcome {
    match cb.recover(raw, Circumstances(s.ledger, GuardAt(l, s.history), turn + 1))
    case None => Halt(Rejected(error), s)
    case Some(r) =>
      var executions := s.executions + if r.execution.Some? then [r.execution.value] else [];
      Halt(Done(Some(Supplied(r.askId)), if r.rawText.Some? then r.rawText.value else raw, executions),
           s.(executions := executions))
  }

  function TakeTurn(cb: Callbacks, l: Limits, s: State, turn: nat): TurnOutcome {
    var raw := cb.generate(s.transcript, turn);
    match cb.parse(raw)
    case Unparsable(error) => ParseFailure(cb, l, s, turn, raw, error)
    case Parsed(calls, text) =>
      if calls == [] then Halt(Done(None, Shown(text, raw), s.executions), s)
      else WorkOn(cb, l, s, turn, calls, Shown(text, raw))
  }

  // ----- a run -----

  function OutOfTurns(l: Limits, maxTurns: nat, s: State): RunResult {
    var at := Circumstances(s.ledger, GuardAt(l, s.history), maxTurns);
    Done(Some(Pause(BudgetExhausted(ModelToolTurn), LastGuardReason(s.executions), at)), "", s.executions)
  }

  function Turns(cb: Callbacks, l: Limits): (State, nat) -> TurnOutcome {
    (s: State, turn: nat) => TakeTurn(cb, l, s, turn)
  }

  function UsedUp(l: Limits, maxTurns: nat): State -> RunResult {
    (s: State) => OutOfTurns(l, maxTurns, s)
  }

  /** The turns from `turn` on. */
  function RunFrom(cb: Callbacks, l: Limits, maxTurns: nat, s: State, turn: nat): (RunResult, State) {
    Loop(Turns(cb, l), UsedUp(l, maxTurns), maxTurns, s, turn)
  }

  /** The run goes on, or ends, as its next turn does. */
  lemma RunNext(cb: Callbacks, l: Limits, maxTurns: nat, s: State, turn: nat)
    requires turn < maxTurns
    ensures RunFrom(cb, l, maxTurns, s, turn) ==
            match TakeTurn(cb, l, s, turn)
            case Halt(result, after) => (result, after)
            case Next(after) => RunFrom(cb, l, maxTurns, after, turn + 1)
  {
    assert Turns(cb, l)(s, turn) == TakeTurn(cb, l, s, turn);
  }

  function TurnBudget(o: RunOptions): int {
    Or(o.modelToolTurnBudget, o.maxTurns)
  }

  /** What makes a run fail before its first turn. */
  predicate ValidOptions(o: RunOptions) {
    && TurnBudget(o) > 0
    && o.noMoreToolsMessage != ""
    && Or(o.budget.executionOperationBudget, MAX_SAFE_INTEGER) >= 0
    && Or(o.budget.riskQuota, MAX_SAFE_INTEGER) >= 0
  }

  function InitialLedger(o: RunOptions): Ledger
    requires ValidOptions(o)
  {
    Ledger(Or(o.budget.executionOperationBudget, MAX_SAFE_INTEGER), TurnBudget(o),
           Or(o.budget.riskQuota, MAX_SAFE_INTEGER), 0, 0, 0)
  }

  function Initial(o: RunOptions, log: seq<seq<Call>>): State
    requires ValidOptions(o)
  {
    State([], InitialLedger(o), [], o.initialMessages, log, [], None)
  }

  class ExecutiveToolRuntime {
    constructor () {}

    method Run(cb: Callbacks, o: RunOptions, adapter: Adapter) returns (result: RunResult)
      requires adapter.behaviour == cb.execute
      modifies adapter
      ensures !ValidOptions(o) ==> result.Rejected? && adapter.log == old(adapter.log)
      ensures ValidOptions(o) ==>
                var (expected, end) := RunFrom(cb, LimitsOf(o.loopGuard), TurnBudget(o), Initial(o, old(adapter.log)),
                                               0);
                result == expected && adapter.log == end.log
    {
      var maxTurns := TurnBudget(o);
      if maxTurns <= 0 {
        return Rejected("Executive tool runtime budget.modelToolTurnBudget must be a positive integer.");
      }
      if o.noMoreToolsMessage == "" {
        return Rejected("Executive tool runtime requires a non-empty noMoreToolsMessage.");
      }
      var operationBudget := Or(o.budget.executionOperationBudget, MAX_SAFE_INTEGER);
      var riskQuota := Or(o.budget.riskQuota, MAX_SAFE_INTEGER);
      if operationBudget < 0 || riskQuota < 0 {
        return Rejected("Executive tool runtime budgets must be non-negative integers.");
      }
      var allExecutions: seq<Execution> := [];
      var transcript := o.initialMessages;
      var guard := new ExecutiveLoopGuard(o.loopGuard);
      var budget := new ExecutiveToolBudgetState(operationBudget, maxTurns, riskQuota);
      ghost var l := guard.options;
      ghost var s := Initial(o, adapter.log);
      ghost var goal := RunFrom(cb, l, maxTurns, s, 0);
      for turn := 0 to maxTurns
        invariant fresh(guard) && fresh(budget) && guard.Valid() && guard.options == l
        invariant Holds(s, guard, budget, adapter, allExecutions, transcript)
        invariant RunFrom(cb, l, maxTurns, s, turn) == goal
      {
        var halted;
        ghost var outcome := TakeTurn(cb, l, s, turn);
        RunNext(cb, l, maxTurns, s, turn);
        halted, allExecutions, transcript := RunTurn(cb, turn, guard, budget, adapter, allExecutions, transcript, s);
        if halted.Some? {
          return halted.value;
        }
        s := outcome.state;
      }
      var at := Circumstances(budget.State(), guard.Snapshot(), maxTurns);
      return Done(Some(Pause(BudgetExhausted(ModelToolTurn), LastGuardReason(allExecutions), at)), "", allExecutions);
    }

    /** The objects of the run are in the state `s`. */
    static ghost predicate Holds(s: State, guard: ExecutiveLoopGuard, budget: ExecutiveToolBudgetState,
                                 adapter: Adapter, allExecutions: seq<Execution>, transcript: seq<Message>)
      reads guard, budget, adapter
    {
      && s.history == guard.history && s.ledger == budget.State() && s.log == adapter.log
      && s.executions == allExecutions && s.transcript == transcript
    }

    /** The body of the turn loop. */
    method RunTurn(cb: Callbacks, turn: nat, guard: ExecutiveLoopGuard, budget: ExecutiveToolBudgetState,
                   adapter: Adapter, allExecutions: seq<Execution>, transcript: seq<Message>, ghost s: State)
      returns (halted: Option<RunResult>, executions: seq<Execution>, messages: seq<Message>)
      requires guard.Valid() && adapter.behaviour == cb.execute
      requires Holds(s, guard, budget, adapter, allExecutions, transcript)
      modifies guard, budget, adapter
      ensures guard.Valid()
      ensures match TakeTurn(cb, guard.options, s, turn)
              case Halt(result, after) =>
                halted == Some(result) && Holds(after, guard, budget, adapter, executions, messages)
              case Next(after) => halted == None && Holds(after, guard, budget, adapter, executions, messages)
    {
      executions, messages := allExecutions, transcript;
      var raw := cb.generate(transcript, turn);
      var parsed := cb.parse(raw);
      if parsed.Unparsable? {
        var recovery := cb.recover(raw, Circumstances(budget.State(), guard.Snapshot(), turn + 1));
        if recovery.None? {
          return Some(Rejected(parsed.error)), executions, messages;
        }
        if recovery.value.execution.Some? {
          executions := executions + [recovery.value.execution.value];
        }
        assert s.executions + [] == s.executions;
        return Some(Done(Some(Supplied(recovery.value.askId)),
                         if recovery.value.rawText.Some? then recovery.value.rawText.value else raw, executions)),
               executions, messages;
      }
      var shown := Shown(parsed.text, raw);
      if |parsed.calls| == 0 {
        return Some(Done(None, shown, executions)), executions, messages;
      }
      budget.ConsumeModelToolTurn();
      halted, executions, messages := RunCalls(cb, turn, parsed.calls, shown, guard, budget, adapter, executions,
                                               messages, s);
    }

    /** A turn's calls, after the turn itself has been charged: guard, budget, adapter, result guard. */
    method RunCalls(cb: Callbacks, turn: nat, calls: seq<Call>, shown: string, guard: ExecutiveLoopGuard,
                    budget: ExecutiveToolBudgetState, adapter: Adapter,
                    allExecutions: seq<Execution>, transcript: seq<Message>, ghost s: State)
      returns (halted: Option<RunResult>, executions: seq<Execution>, messages: seq<Message>)
      requires guard.Valid() && adapter.behaviour == cb.execute && calls != []
      requires Holds(s.(ledger := s.ledger.(turnsUsed := s.ledger.turnsUsed + 1)), guard, budget, adapter,
                     allExecutions, transcript)
      modifies guard, budget, adapter
      ensures guard.Valid()
      ensures match WorkOn(cb, guard.options, s, turn, calls, shown)
              case Halt(result, after) =>
                halted == Some(result) && Holds(after, guard, budget, adapter, executions, messages)
              case Next(after) => halted == None && Holds(after, guard, budget, adapter, executions, messages)
    {
      executions, messages := allExecutions, transcript;
      var known := cb.known(turn);
      var allowed, blocked := ApplyLoopGuard(calls, known, guard);
      ghost var t := TriageCalls(cb.descriptors, guard.options, s, known, calls);
      TriageIs(cb.descriptors, guard.options, s, known, calls, allowed, blocked, guard.history);
      if |allowed| == 0 {
        executions := executions + blocked;
        var at := Circumstances(budget.State(), guard.Snapshot(), turn + 1);
        return Some(Done(Some(Pause(GuardBlockedStep, LastGuardReason(blocked), at)), shown, executions)),
               executions, messages;
      }
      halted, executions, messages := RunAllowed(cb, turn, calls, known, shown, allowed, blocked, guard, budget,
                                                 adapter, executions, messages, s, t);
    }

    /** The calls that passed the loop guard: budget, adapter, and the end of the turn. */
    method RunAllowed(cb: Callbacks, turn: nat, calls: seq<Call>, known: set<string>, shown: string,
                      allowed: seq<Call>, blocked: seq<Execution>, guard: ExecutiveLoopGuard,
                      budget: ExecutiveToolBudgetState, adapter: Adapter,
                      allExecutions: seq<Execution>, transcript: seq<Message>, ghost s: State, ghost t: Triage)
      returns (halted: Option<RunResult>, executions: seq<Execution>, messages: seq<Message>)
      requires guard.Valid() && adapter.behaviour == cb.execute
      requires t.budgeted == BudgetAll(budget.State(),
                                       Units(cb.descriptors, Chunks(allowed, UnitSharing(cb.descriptors))))
      requires allowed == t.allowed && blocked == t.blocked && guard.history == t.history
      requires adapter.log == s.log && allExecutions == s.executions && transcript == s.transcript
      modifies guard, budget, adapter
      ensures guard.Valid()
      ensures match WorkOff(cb, guard.options, s, turn, known, calls, shown, t)
              case Halt(result, after) =>
                halted == Some(result) && Holds(after, guard, budget, adapter, executions, messages)
              case Next(after) => halted == None && Holds(after, guard, budget, adapter, executions, messages)
    {
      executions, messages := allExecutions, transcript;
      var admitted, refused, reasons := ApplyBudget(allowed, cb.descriptors, budget);
      assert Budgeted(budget.State(), admitted, refused, reasons, t.budgeted.groupMarks, t.budgeted.callMarks) ==
             t.budgeted;
      var results := ExecuteScheduled(admitted, cb.descriptors, adapter);
      assert results == Schedule(cb.execute, |s.log|, Chunks(t.budgeted.admitted, Batchable(cb.descriptors)));
      if results.None? {
        return Some(Rejected(COVERAGE_ERROR)), executions, messages;
      }
      halted, executions, messages := SettleTurn(cb, turn, calls, known, shown, blocked, refused, reasons,
                                                 results.value, guard, budget.State(), executions, messages, s, t);
    }

    /** The end of a turn: the result guard, the record of the turn, and whether the run pauses. */
    method SettleTurn(cb: Callbacks, turn: nat, calls: seq<Call>, known: set<string>, shown: string,
                      blocked: seq<Execution>, refused: seq<Execution>, reasons: seq<Exhausted>, done: seq<Execution>,
                      guard: ExecutiveLoopGuard, ledger: Ledger, allExecutions: seq<Execution>,
                        transcript: seq<Message>,
                      ghost s: State, ghost t: Triage)
      returns (halted: Option<RunResult>, executions: seq<Execution>, messages: seq<Message>)
      requires guard.Valid() && guard.history == t.history
      requires allExecutions == s.executions && transcript == s.transcript
      requires blocked == t.blocked && refused == t.budgeted.refused && reasons == t.budgeted.reasons
      requires ledger == t.budgeted.ledger
      modifies guard
      ensures guard.Valid()
      ensures match Settle(cb, guard.options, s, turn, known, calls, shown, t, done)
              case Halt(result, after) =>
                halted == Some(result) &&
                guard.history == after.history && executions == after.executions && messages == after.transcript
              case Next(after) =>
                halted == None && guard.history == after.history && executions == after.executions &&
                  messages == after.transcript
    {
      var resultBlocked := ApplyResultGuard(done, guard);
      executions, messages := allExecutions + (blocked + done + refused + resultBlocked), transcript;
      var at := Circumstances(ledger, guard.Snapshot(), turn + 1);
      var ask := FirstExecutionAskRequired(cb, done + refused + resultBlocked, at);
      if ask.Some? {
        return Some(Done(ask, shown, executions)), executions, messages;
      }
      if |refused| > 0 {
        var why := if |reasons| == 0 then ExecutionOperation else reasons[|reasons| - 1];
        return Some(Done(Some(Pause(BudgetExhausted(why), LastGuardReason(resultBlocked), at)), shown, executions)),
               executions, messages;
      }
      if |resultBlocked| > 0 {
        return Some(Done(Some(Pause(ResultGuardStop, LastGuardReason(resultBlocked), at)), shown, executions)),
               executions, messages;
      }
      messages := messages + [Assistant(shown), ToolResults(cb.render(blocked + done + resultBlocked))];
      halted := None;
    }
  }

  method FirstExecutionAskRequired(cb: Callbacks, executions: seq<Execution>, at: Circumstances)
    returns (ask: Option<Ask>)
    ensures ask == FirstAsk(cb, executions, at)
  {
    for i := 0 to |executions|
      invariant FirstAsk(cb, executions[i..], at) == FirstAsk(cb, executions, at)
    {
      var id := cb.executionAsk(executions[i], at);
      if id.Some? {
        return Some(Supplied(id.value));
      }
      assert executions[i..][1..] == executions[i + 1..];
    }
    return None;
  }
}
