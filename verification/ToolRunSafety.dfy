/** What holds of every whole run of the tool loop. */
module ToolRunSafety {
  import opened Basics
  import opened LoopGuard
  import opened ToolCalls
  import opened ToolBudget
  import opened ToolScheduler
  import opened ToolRuntime
  import opened ToolLoop
  import opened ToolFailures

  // ----- one turn divides its calls -----

  /** Each call of the turn is in exactly one class - blocked by the guard, refused by the
      budget, or admitted - and each class keeps the model's order. */
  ghost predicate Sifted(t: TurnRecord) {
    && |t.guardMarks| == |t.calls|
    && |t.budgetMarks| == |PassedGuard(t)|
    && CallsIn(t.blocked) == Pick(t.calls, t.guardMarks, false)
    && CallsIn(t.refused) == Pick(PassedGuard(t), t.budgetMarks, false)
  }

  /** The calls of a turn that the guard and the budget let through. */
  function AdmittedCalls(t: TurnRecord): seq<Call>
    requires |t.guardMarks| == |t.calls| && |t.budgetMarks| == |PassedGuard(t)|
  {
    Pick(PassedGuard(t), t.budgetMarks, true)
  }

  /** In addition every admitted call was executed: it has its result. */
  ghost predicate Divided(t: TurnRecord) {
    Sifted(t) && Covers(AdmittedCalls(t), t.done)
  }

  /** The budget groups of the calls that passed the guard. */
  function Groups(descriptors: Lookup, t: TurnRecord): seq<Unit>
    requires |t.guardMarks| == |t.calls|
  {
    Units(descriptors, Chunks(PassedGuard(t), UnitSharing(descriptors)))
  }

  /** The budget admits or refuses each group of calls as a whole. */
  ghost predicate WholeGroups(descriptors: Lookup, t: TurnRecord)
    requires |t.guardMarks| == |t.calls|
  {
    |t.groupMarks| == |Groups(descriptors, t)| && t.budgetMarks == Spread(Groups(descriptors, t), t.groupMarks)
  }

  function KeysIn(calls: seq<Call>): seq<string> {
    seq(|calls|, i requires 0 <= i < |calls| => KeyOfCall(calls[i]))
  }

  lemma {:induction false} KeysOfPick(calls: seq<Call>, marks: seq<bool>, want: bool)
    requires |calls| == |marks|
    ensures KeysIn(Pick(calls, marks, want)) == Pick(KeysIn(calls), marks, want)
  {
    if calls != [] {
      var n := |calls| - 1;
      KeysOfPick(calls[..n], marks[..n], want);
      assert KeysIn(calls)[..n] == KeysIn(calls[..n]);
    }
  }

  lemma CoveredKeys(calls: seq<Call>, done: seq<Execution>)
    requires Covers(calls, done)
    ensures KeysIn(CallsIn(done)) == KeysIn(calls)
  {
    forall i | 0 <= i < |calls| ensures KeyOfCall(done[i].call) == KeyOfCall(calls[i]) {
      assert SameCall(done[i].call, calls[i]);
    }
  }

  /** Nothing is lost and nothing is invented: by call key, the three classes together are a
      permutation of the parsed calls. */
  lemma CallsConserved(t: TurnRecord)
    requires Divided(t)
    ensures multiset(KeysIn(t.calls)) ==
            multiset(KeysIn(CallsIn(t.blocked))) + multiset(KeysIn(CallsIn(t.refused))) +
              multiset(KeysIn(CallsIn(t.done)))
  {
    var keys, passed := KeysIn(t.calls), PassedGuard(t);
    KeysOfPick(t.calls, t.guardMarks, true);
    KeysOfPick(t.calls, t.guardMarks, false);
    PickPartitions(keys, t.guardMarks);
    KeysOfPick(passed, t.budgetMarks, true);
    KeysOfPick(passed, t.budgetMarks, false);
    PickPartitions(KeysIn(passed), t.budgetMarks);
    CoveredKeys(AdmittedCalls(t), t.done);
  }

  lemma {:induction false} CallsOfPick(executions: seq<Execution>, marks: seq<bool>, want: bool)
    requires |executions| == |marks|
    ensures CallsIn(Pick(executions, marks, want)) == Pick(CallsIn(executions), marks, want)
  {
    if executions != [] {
      var n := |executions| - 1;
      CallsOfPick(executions[..n], marks[..n], want);
      assert CallsIn(executions)[..n] == CallsIn(executions[..n]);
    }
  }

  lemma UnitsDivide(ledger: Ledger, descriptors: Lookup, allowed: seq<Call>)
    ensures var groups := Units(descriptors, Chunks(allowed, UnitSharing(descriptors)));
            var b := BudgetAll(ledger, groups);
            Divides(b, allowed) && |b.groupMarks| == |groups| && b.callMarks == Spread(groups, b.groupMarks)
  {
    var chunks := Chunks(allowed, UnitSharing(descriptors));
    var groups := Units(descriptors, chunks);
    ChunksAreChunking(allowed, UnitSharing(descriptors));
    assert CallsOf(groups) == chunks;
    BudgetSplits(ledger, groups);
  }

  lemma UnitsCharge(ledger: Ledger, descriptors: Lookup, allowed: seq<Call>)
    ensures var b := BudgetAll(ledger, Units(descriptors, Chunks(allowed, UnitSharing(descriptors))));
            && b.ledger.operationsUsed == ledger.operationsUsed + Trues(b.groupMarks)
            && b.ledger.turnsUsed == ledger.turnsUsed
            && SameBudgets(b.ledger, ledger)
            && (Sound(ledger) ==> Sound(b.ledger))
            && (b.refused == [] <==> b.reasons == [])
            && var groups := Units(descriptors, Chunks(allowed, UnitSharing(descriptors)));
               |b.groupMarks| == |groups| && b.ledger.riskUsed == ledger.riskUsed + Risky(groups, b.groupMarks)
  {
    var joins := UnitSharing(descriptors);
    var chunks := Chunks(allowed, joins);
    ChunksAreChunking(allowed, joins);
    assert forall i | 0 <= i < |chunks| :: IsChunk(chunks[i], joins);
    BudgetCounts(ledger, Units(descriptors, chunks));
    RefusedHasReason(ledger, Units(descriptors, chunks));
  }

  lemma BlocksOfPick(calls: seq<Call>, answers: seq<Decision>, marks: seq<bool>)
    requires |calls| == |answers| == |marks|
    ensures CallsIn(Pick(Blocks(calls, answers), marks, false)) == Pick(calls, marks, false)
  {
    CallsOfPick(Blocks(calls, answers), marks, false);
    assert CallsIn(Blocks(calls, answers)) == calls;
  }

  /** What triage does to the calls, and what it charges. */
  lemma TriageDivides(descriptors: Lookup, l: Limits, s: State, known: set<string>, calls: seq<Call>)
    ensures var t := TriageCalls(descriptors, l, s, known, calls);
            var b := t.budgeted;
            && t.allowed == Pick(calls, t.marks, true)
            && CallsIn(t.blocked) == Pick(calls, t.marks, false)
            && Divides(b, t.allowed)
            && var groups := Units(descriptors, Chunks(t.allowed, UnitSharing(descriptors)));
               |b.groupMarks| == |groups| && b.callMarks == Spread(groups, b.groupMarks)
  {
    var t := TriageCalls(descriptors, l, s, known, calls);
    BlocksOfPick(calls, Answers(l, s.history, Inspections(calls, known)), t.marks);
    UnitsDivide(s.ledger.(turnsUsed := s.ledger.turnsUsed + 1), descriptors, t.allowed);
  }

  lemma TriageCharges(descriptors: Lookup, l: Limits, s: State, known: set<string>, calls: seq<Call>)
    ensures var t := TriageCalls(descriptors, l, s, known, calls);
            var b := t.budgeted;
            && b.ledger.operationsUsed == s.ledger.operationsUsed + Trues(b.groupMarks)
            && b.ledger.turnsUsed == s.ledger.turnsUsed + 1
            && SameBudgets(b.ledger, s.ledger)
            && (Sound(s.ledger) ==> Sound(b.ledger))
            && (b.refused == [] <==> b.reasons == [])
            && var groups := Units(descriptors, Chunks(t.allowed, UnitSharing(descriptors)));
               |b.groupMarks| == |groups| && b.ledger.riskUsed == s.ledger.riskUsed + Risky(groups, b.groupMarks)
  {
    var t := TriageCalls(descriptors, l, s, known, calls);
    var ledger := s.ledger.(turnsUsed := s.ledger.turnsUsed + 1);
    assert t.budgeted == BudgetAll(ledger, Units(descriptors, Chunks(t.allowed, UnitSharing(descriptors))));
    UnitsCharge(ledger, descriptors, t.allowed);
  }

  predicate SameBudgets(a: Ledger, b: Ledger) {
    a.operationBudget == b.operationBudget && a.turnBudget == b.turnBudget && a.riskQuota == b.riskQuota
  }

  /** The branch for a step with nothing allowed and nothing blocked can not be taken. */
  lemma SomethingAllowedOrBlocked(descriptors: Lookup, l: Limits, s: State, known: set<string>, calls: seq<Call>)
    requires calls != []
    ensures var t := TriageCalls(descriptors, l, s, known, calls); t.allowed != [] || t.blocked != []
  {
    var t := TriageCalls(descriptors, l, s, known, calls);
    TriageDivides(descriptors, l, s, known, calls);
    PickPartitions(calls, t.marks);
    assert calls[0] in multiset(calls);
  }

  // ----- counting executed calls against the guard's limits -----

  /** How many of the calls are about the subject, given the tools known in their turn. */
  function AboutCount(subject: Subject, known: set<string>, calls: seq<Call>): nat {
    if calls == [] then 0 else
      var n := |calls| - 1;
      AboutCount(subject, known, calls[..n]) + if About(subject, InspectionOf(calls[n], known).event) then 1 else 0
  }

  lemma AboutNext(subject: Subject, known: set<string>, calls: seq<Call>, call: Call)
    ensures AboutCount(subject, known, calls + [call]) ==
            AboutCount(subject, known, calls) + if About(subject, InspectionOf(call, known).event) then 1 else 0
  {
    assert (calls + [call])[..|calls|] == calls;
  }

  lemma {:induction false} PickAboutFewer(subject: Subject, known: set<string>, calls: seq<Call>, marks: seq<bool>)
    requires |calls| == |marks|
    ensures AboutCount(subject, known, Pick(calls, marks, true)) <= AboutCount(subject, known, calls)
  {
    if calls != [] {
      var n := |calls| - 1;
      PickAboutFewer(subject, known, calls[..n], marks[..n]);
      var front := Pick(calls[..n], marks[..n], true);
      AboutNext(subject, known, front, calls[n]);
      assert Pick(calls, marks, true) == if marks[n] then front + [calls[n]] else front;
    }
  }

  lemma AllowedNext(l: Limits, h: seq<Entry>, entry: Entry, subject: Subject)
    ensures Allowed(l, h + [entry], subject) == Allowed(l, h, subject) +
            if entry.Inspected? && About(subject, entry.event) && Decide(l, h, entry) == Allow then 1 else 0
  {
    assert (h + [entry])[..|h|] == h;
  }

  /** The calls triage marks: those the guard lets through. */
  function GuardMarks(l: Limits, h: seq<Entry>, known: set<string>, calls: seq<Call>): (marks: seq<bool>)
    ensures |marks| == |calls|
  {
    Allows(Answers(l, h, Inspections(calls, known)))
  }

  lemma GuardMarksNext(l: Limits, h: seq<Entry>, known: set<string>, calls: seq<Call>)
    requires calls != []
    ensures var n := |calls| - 1;
            var entry := InspectionOf(calls[n], known);
            && Inspections(calls, known) == Inspections(calls[..n], known) + [entry]
            && GuardMarks(l, h, known, calls) ==
               GuardMarks(l, h, known, calls[..n]) + [Decide(l, h + Inspections(calls[..n], known), entry) == Allow]
  {
    var n := |calls| - 1;
    var entries, front := Inspections(calls, known), Inspections(calls[..n], known);
    assert entries[..n] == front;
    forall i | 0 <= i < n
      ensures GuardMarks(l, h, known, calls)[i] == GuardMarks(l, h, known, calls[..n])[i]
    {
      assert entries[..i] == front[..i];
    }
  }

  /** The guard's count of allowed inspections grows by exactly the calls it lets through. */
  lemma {:induction false} InspectionsAllow(l: Limits, h: seq<Entry>, known: set<string>, calls: seq<Call>,
                                            subject: Subject)
    ensures Allowed(l, h + Inspections(calls, known), subject) ==
            Allowed(l, h, subject) + AboutCount(subject, known, Pick(calls, GuardMarks(l, h, known, calls), true))
  {
    if calls == [] {
      assert h + Inspections(calls, known) == h;
    } else {
      var n := |calls| - 1;
      var before := h + Inspections(calls[..n], known);
      var marks := GuardMarks(l, h, known, calls);
      InspectionsAllow(l, h, known, calls[..n], subject);
      GuardMarksNext(l, h, known, calls);
      assert h + Inspections(calls, known) == before + [InspectionOf(calls[n], known)];
      assert marks[..n] == GuardMarks(l, h, known, calls[..n]);
      CountNext(l, before, known, Pick(calls[..n], marks[..n], true), calls[n], subject);
    }
  }

  lemma CountNext(l: Limits, h: seq<Entry>, known: set<string>, picked: seq<Call>, call: Call, subject: Subject)
    ensures var entry := InspectionOf(call, known);
            Allowed(l, h + [entry], subject) - Allowed(l, h, subject) ==
            AboutCount(subject, known, picked + (if Decide(l, h, entry) == Allow then [call] else [])) -
            AboutCount(subject, known, picked)
  {
    AllowedNext(l, h, InspectionOf(call, known), subject);
    AboutNext(subject, known, picked, call);
    assert picked + [] == picked;
  }

  lemma {:induction false} ResultsAllowNothing(l: Limits, h: seq<Entry>, done: seq<Execution>, n: nat, subject: Subject)
    requires n <= |done|
    ensures Allowed(l, h + Results(done)[..n], subject) == Allowed(l, h, subject)
  {
    var entries := Results(done);
    if n == 0 {
      assert h + entries[..0] == h;
    } else {
      ResultsAllowNothing(l, h, done, n - 1, subject);
      AllowedNext(l, h + entries[..n - 1], entries[n - 1], subject);
      assert h + entries[..n] == h + entries[..n - 1] + [entries[n - 1]];
    }
  }

  ghost predicate AllSifted(turns: seq<TurnRecord>) {
    forall i | 0 <= i < |turns| :: Sifted(turns[i])
  }

  /** How many admitted calls of these turns are about the subject. */
  function AdmittedAbout(turns: seq<TurnRecord>, subject: Subject): nat
    requires AllSifted(turns)
  {
    if turns == [] then 0 else
      var n := |turns| - 1;
      assert Sifted(turns[n]);
      AdmittedAbout(turns[..n], subject) + AboutCount(subject, turns[n].known, AdmittedCalls(turns[n]))
  }

  // ----- failures -----

  lemma InspectionsAreQuiet(l: Limits, h: seq<Entry>, known: set<string>, calls: seq<Call>)
    requires NoFailureBlocked(l, h)
    ensures NoFailureBlocked(l, h + Inspections(calls, known))
  {
    var all := h + Inspections(calls, known);
    forall i | 0 <= i < |all| && Failed(all[i].event) ensures Decide(l, all[..i], all[i]) == Allow {
      assert i < |h|;
      assert all[..i] == h[..i];
    }
  }

  lemma UnblockedResultsAreQuiet(l: Limits, h: seq<Entry>, done: seq<Execution>)
    requires NoFailureBlocked(l, h) && ResultBlocks(l, h, done) == []
    ensures NoFailureBlocked(l, h + Results(done))
  {
    var entries := Results(done);
    var answers := Answers(l, h, entries);
    PickNothing(Blocks(CallsIn(done), answers), Allows(answers), false);
    forall i | 0 <= i < |entries| ensures Decide(l, h + entries[..i], entries[i]) == Allow {
      assert Allows(answers)[i] && answers[i] == Decide(l, h + entries[..i], entries[i]);
    }
    AllowedIsQuiet(l, h, entries);
  }

  lemma AllowedIsQuiet(l: Limits, h: seq<Entry>, entries: seq<Entry>)
    requires NoFailureBlocked(l, h)
    requires forall i | 0 <= i < |entries| :: Decide(l, h + entries[..i], entries[i]) == Allow
    ensures NoFailureBlocked(l, h + entries)
  {
    var all := h + entries;
    forall i | 0 <= i < |all| && Failed(all[i].event) ensures Decide(l, all[..i], all[i]) == Allow {
      if i < |h| {
        assert all[..i] == h[..i];
      } else {
        assert all[..i] == h + entries[..i - |h|];
      }
    }
  }

  // ----- what every state of a run satisfies -----

  /** The executions recorded for one turn, in the order they are returned. */
  function RecordsOf(t: TurnRecord): seq<Execution> {
    t.blocked + t.done + t.refused + t.resultBlocked
  }

  function Records(turns: seq<TurnRecord>): seq<Execution> {
    if turns == [] then [] else Records(turns[..|turns| - 1]) + RecordsOf(turns[|turns| - 1])
  }

  function AdmittedGroups(turns: seq<TurnRecord>): nat {
    if turns == [] then 0 else AdmittedGroups(turns[..|turns| - 1]) + Trues(turns[|turns| - 1].groupMarks)
  }

  /** In every turn the budget admitted or refused each group as a whole. */
  ghost predicate AllWhole(descriptors: Lookup, turns: seq<TurnRecord>) {
    forall i | 0 <= i < |turns| :: |turns[i].guardMarks| == |turns[i].calls| && WholeGroups(descriptors, turns[i])
  }

  /** How many admitted groups of these turns are of high risk. */
  function RiskyGroups(descriptors: Lookup, turns: seq<TurnRecord>): nat
    requires AllWhole(descriptors, turns)
  {
    if turns == [] then 0 else
      var n := |turns| - 1;
      assert WholeGroups(descriptors, turns[n]);
      RiskyGroups(descriptors, turns[..n]) + Risky(Groups(descriptors, turns[n]), turns[n].groupMarks)
  }

  ghost predicate AllDivided(descriptors: Lookup, turns: seq<TurnRecord>) {
    forall i | 0 <= i < |turns| :: Divided(turns[i]) && WholeGroups(descriptors, turns[i])
  }

  /** All admitted calls of these turns, in order. */
  function AllAdmitted(turns: seq<TurnRecord>): seq<Call>
    requires AllSifted(turns)
  {
    if turns == [] then [] else
      var n := |turns| - 1;
      assert Sifted(turns[n]);
      AllAdmitted(turns[..n]) + AdmittedCalls(turns[n])
  }

  /** The turns with calls: the finished ones, and the one that was broken off. */
  function AllTurns(s: State): seq<TurnRecord> {
    if s.broken.None? then s.turns else s.turns + [s.broken.value]
  }

  /** Every call of every turn is accounted for, and the executions are those of the finished turns. */
  ghost predicate Conserved(descriptors: Lookup, s: State) {
    && AllDivided(descriptors, s.turns) && s.executions == Records(s.turns)
    && (s.broken.Some? ==> Unfinished(descriptors, s.broken.value))
  }

  /** A turn that was broken off: its calls are divided, and none has a result. */
  ghost predicate Unfinished(descriptors: Lookup, t: TurnRecord) {
    Sifted(t) && WholeGroups(descriptors, t) && t.done == [] && t.resultBlocked == []
  }

  /** The counters are sound, and count the turns, the admitted groups and those of high risk. */
  ghost predicate Charged(descriptors: Lookup, start: State, s: State)
    requires AllWhole(descriptors, AllTurns(s))
  {
    && Sound(s.ledger) && SameBudgets(s.ledger, start.ledger)
    && s.ledger.turnsUsed == |AllTurns(s)| && s.ledger.operationsUsed == AdmittedGroups(AllTurns(s))
    && s.ledger.riskUsed == RiskyGroups(descriptors, AllTurns(s))
  }

  /** No more admitted calls about any subject than the guard let through. */
  ghost predicate Limited(l: Limits, s: State)
    requires AllSifted(AllTurns(s))
  {
    forall subject :: AdmittedAbout(AllTurns(s), subject) <= Allowed(l, s.history, subject)
  }

  /** The log from `first` on gives these calls in safe batches. */
  ghost predicate SafeFrom(descriptors: Lookup, log: seq<seq<Call>>, first: nat) {
    forall i | first <= i < |log| :: log[i] != [] && SafeBatch(descriptors, log[i])
  }

  /** The calls sent to the adapter since the start, in order. */
  function SentCalls(start: State, s: State): seq<Call>
    requires start.log <= s.log
  {
    Flatten(s.log[|start.log|..])
  }

  /** The adapter was sent exactly the admitted calls, in order, in safe batches; of a turn that
      was broken off it was sent the first ones, at least one. */
  ghost predicate Sent(descriptors: Lookup, start: State, s: State)
    requires AllSifted(s.turns)
    requires s.broken.Some? ==> Sifted(s.broken.value)
  {
    && start.log <= s.log
    && SafeFrom(descriptors, s.log, |start.log|)
    && (s.broken.None? ==> SentCalls(start, s) == AllAdmitted(s.turns))
    && (s.broken.Some? ==>
          AllAdmitted(s.turns) < SentCalls(start, s) <= AllAdmitted(s.turns) + AdmittedCalls(s.broken.value))
  }

  ghost predicate Invariant(cb: Callbacks, l: Limits, start: State, s: State) {
    && Conserved(cb.descriptors, s) && AllWhole(cb.descriptors, AllTurns(s)) && Charged(cb.descriptors, start, s)
    && Limited(l, s) && FailuresCounted(l, s) && Sent(cb.descriptors, start, s)
  }

  /** Nothing so far would have ended the run: no failure limit was passed, nothing was refused,
      and no turn was broken off. */
  ghost predicate Continuing(l: Limits, s: State) {
    && NoFailureBlocked(l, s.history) && s.broken.None?
    && forall i | 0 <= i < |s.turns| :: s.turns[i].refused == [] && s.turns[i].resultBlocked == []
  }

  // ----- a turn keeps them -----

  lemma AddTurn(turns: seq<TurnRecord>, t: TurnRecord)
    ensures Records(turns + [t]) == Records(turns) + RecordsOf(t)
    ensures AdmittedGroups(turns + [t]) == AdmittedGroups(turns) + Trues(t.groupMarks)
  {
    assert (turns + [t])[..|turns|] == turns;
  }

  lemma AddWholeTurn(descriptors: Lookup, turns: seq<TurnRecord>, t: TurnRecord)
    requires AllWhole(descriptors, turns) && |t.guardMarks| == |t.calls| && WholeGroups(descriptors, t)
    ensures AllWhole(descriptors, turns + [t])
    ensures RiskyGroups(descriptors, turns + [t]) ==
            RiskyGroups(descriptors, turns) + Risky(Groups(descriptors, t), t.groupMarks)
  {
    assert (turns + [t])[..|turns|] == turns;
  }

  lemma AddSiftedTurn(turns: seq<TurnRecord>, t: TurnRecord)
    requires Sifted(t) && AllSifted(turns)
    ensures AllAdmitted(turns + [t]) == AllAdmitted(turns) + AdmittedCalls(t)
    ensures forall subject ::
              AdmittedAbout(turns + [t], subject) ==
                AdmittedAbout(turns, subject) + AboutCount(subject, t.known, AdmittedCalls(t))
  {
    assert (turns + [t])[..|turns|] == turns;
  }

  lemma SettleState(cb: Callbacks, l: Limits, s: State, turn: nat, known: set<string>, calls: seq<Call>, shown: string,
                    t: Triage, done: seq<Execution>)
    ensures var o := Settle(cb, l, s, turn, known, calls, shown, t, done);
            var record := RecordOf(l, known, calls, t, done);
            && o.state.(transcript := s.transcript) == AfterWork(cb, s, t, record)
            && (o.Halt? ==> o.result.Done? && o.result.executions == o.state.executions && o.result.ask.Some?)
            && (o.Next? ==> record.refused == [] && record.resultBlocked == [])
            && (record.refused != [] ==> o.Halt?)
  {
  }

  lemma RecordSifts(cb: Callbacks, l: Limits, s: State, known: set<string>, calls: seq<Call>, done: seq<Execution>)
    ensures var t := TriageCalls(cb.descriptors, l, s, known, calls);
            var record := RecordOf(l, known, calls, t, done);
            Sifted(record) && WholeGroups(cb.descriptors, record) && AdmittedCalls(record) == t.budgeted.admitted
  {
    TriageDivides(cb.descriptors, l, s, known, calls);
  }

  lemma RecordDivides(cb: Callbacks, l: Limits, s: State, known: set<string>, calls: seq<Call>, done: seq<Execution>)
    requires var b := TriageCalls(cb.descriptors, l, s, known, calls).budgeted;
             Schedule(cb.execute, |s.log|, Chunks(b.admitted, Batchable(cb.descriptors))) == Some(done)
    ensures Divided(RecordOf(l, known, calls, TriageCalls(cb.descriptors, l, s, known, calls), done))
  {
    RecordSifts(cb, l, s, known, calls, done);
    var b := TriageCalls(cb.descriptors, l, s, known, calls).budgeted;
    SchedulerRefinesCalls(b.admitted, cb.descriptors, cb.execute, |s.log|);
  }

  /** A turn with calls either is broken off or adds one record, and only a turn without
      refusals lets the run go on. */
  lemma WorkShape(cb: Callbacks, l: Limits, s: State, turn: nat, calls: seq<Call>, shown: string)
    returns (done: seq<Execution>)
    ensures var o := WorkOn(cb, l, s, turn, calls, shown);
            var t := TriageCalls(cb.descriptors, l, s, cb.known(turn), calls);
            var results := Schedule(cb.execute, |s.log|, Chunks(t.budgeted.admitted, Batchable(cb.descriptors)));
            if results.None? then
              o == Halt(Rejected(COVERAGE_ERROR), BrokenOff(cb, l, s, cb.known(turn), calls, t))
            else
              var record := RecordOf(l, cb.known(turn), calls, t, done);
              && results == Some(done)
              && o.state.(transcript := s.transcript) == AfterWork(cb, s, t, record)
              && (o.Halt? ==> o.result.Done? && o.result.executions == o.state.executions && o.result.ask.Some?)
              && (o.Next? ==> record.refused == [] && record.resultBlocked == [])
              && (record.refused != [] ==> o.Halt?)
  {
    var known := cb.known(turn);
    var t := TriageCalls(cb.descriptors, l, s, known, calls);
    done := [];
    if t.allowed == [] {
      NothingAllowed(cb, l, s, known, calls, t);
    } else {
      var results := Schedule(cb.execute, |s.log|, Chunks(t.budgeted.admitted, Batchable(cb.descriptors)));
      if results.Some? {
        done := results.value;
        SettleState(cb, l, s, turn, known, calls, shown, t, done);
      }
    }
  }

  lemma NothingAllowed(cb: Callbacks, l: Limits, s: State, known: set<string>, calls: seq<Call>, t: Triage)
    requires t == TriageCalls(cb.descriptors, l, s, known, calls) && t.allowed == []
    ensures Chunks(t.budgeted.admitted, Batchable(cb.descriptors)) == []
    ensures RecordOf(l, known, calls, t, []) == TurnRecord(calls, known, t.marks, [], [], t.blocked, [], [], [])
    ensures AfterWork(cb, s, t, RecordOf(l, known, calls, t, [])) ==
            State(t.history, s.ledger.(turnsUsed := s.ledger.turnsUsed + 1), s.executions + t.blocked, s.transcript,
                  s.log, s.turns + [RecordOf(l, known, calls, t, [])], s.broken)
  {
    assert Units(cb.descriptors, Chunks([], UnitSharing(cb.descriptors))) == [];
    assert t.history + Results([]) == t.history && s.log + [] == s.log;
    assert t.blocked + [] + [] + [] == t.blocked;
  }

  lemma KeepsConserved(cb: Callbacks, l: Limits, s: State, known: set<string>, calls: seq<Call>, done: seq<Execution>)
    requires Conserved(cb.descriptors, s)
    requires var b := TriageCalls(cb.descriptors, l, s, known, calls).budgeted;
             Schedule(cb.execute, |s.log|, Chunks(b.admitted, Batchable(cb.descriptors))) == Some(done)
    ensures var t := TriageCalls(cb.descriptors, l, s, known, calls);
            Conserved(cb.descriptors, AfterWork(cb, s, t, RecordOf(l, known, calls, t, done)))
  {
    var t := TriageCalls(cb.descriptors, l, s, known, calls);
    RecordSifts(cb, l, s, known, calls, done);
    RecordDivides(cb, l, s, known, calls, done);
    AllDividedNext(cb.descriptors, s.turns, RecordOf(l, known, calls, t, done));
    AddTurn(s.turns, RecordOf(l, known, calls, t, done));
  }

  lemma AllDividedNext(descriptors: Lookup, turns: seq<TurnRecord>, t: TurnRecord)
    requires AllDivided(descriptors, turns) && Divided(t) && WholeGroups(descriptors, t)
    ensures AllDivided(descriptors, turns + [t])
  {
  }

  /** One more turn on the ledger that its triage left. */
  lemma KeepsCharged(cb: Callbacks, l: Limits, start: State, s: State, known: set<string>, calls: seq<Call>,
                     done: seq<Execution>, after: State)
    requires s.broken.None? && AllWhole(cb.descriptors, s.turns) && Charged(cb.descriptors, start, s)
    requires var t := TriageCalls(cb.descriptors, l, s, known, calls);
             after.ledger == t.budgeted.ledger && AllTurns(after) == s.turns + [RecordOf(l, known, calls, t, done)]
    ensures AllWhole(cb.descriptors, AllTurns(after)) && Charged(cb.descriptors, start, after)
  {
    var record := RecordOf(l, known, calls, TriageCalls(cb.descriptors, l, s, known, calls), done);
    TriageCharges(cb.descriptors, l, s, known, calls);
    RecordSifts(cb, l, s, known, calls, done);
    AddTurn(s.turns, record);
    AddWholeTurn(cb.descriptors, s.turns, record);
  }

  /** One more turn, on a history that goes on with its inspections and results. */
  lemma KeepsLimited(cb: Callbacks, l: Limits, s: State, known: set<string>, calls: seq<Call>, done: seq<Execution>,
                     after: State)
    requires s.broken.None? && AllSifted(s.turns) && Limited(l, s)
    requires var t := TriageCalls(cb.descriptors, l, s, known, calls);
             && after.history == t.history + Results(done)
             && AllTurns(after) == s.turns + [RecordOf(l, known, calls, t, done)]
    ensures AllSifted(AllTurns(after)) && Limited(l, after)
  {
    var t := TriageCalls(cb.descriptors, l, s, known, calls);
    var record := RecordOf(l, known, calls, t, done);
    RecordSifts(cb, l, s, known, calls, done);
    AddSiftedTurn(s.turns, record);
    forall subject
      ensures AdmittedAbout(s.turns + [record], subject) <= Allowed(l, t.history + Results(done), subject)
    {
      TurnStaysAllowed(cb, l, s, known, calls, done, subject);
    }
  }

  /** The calls a turn admits about a subject are among those the guard let through in it. */
  lemma TurnStaysAllowed(cb: Callbacks, l: Limits, s: State, known: set<string>, calls: seq<Call>, done: seq<Execution>,
                         subject: Subject)
    ensures var t := TriageCalls(cb.descriptors, l, s, known, calls);
            Divides(t.budgeted, t.allowed) ==>
              Allowed(l, s.history, subject) + AboutCount(subject, known, t.budgeted.admitted) <=
              Allowed(l, t.history + Results(done), subject)
  {
    var t := TriageCalls(cb.descriptors, l, s, known, calls);
    InspectionsAllow(l, s.history, known, calls, subject);
    ResultsAllowNothing(l, t.history, done, |done|, subject);
    assert Results(done)[..|done|] == Results(done);
    if |t.budgeted.callMarks| == |t.allowed| { PickAboutFewer(subject, known, t.allowed, t.budgeted.callMarks); }
  }

  lemma {:induction false} FlattenConcat(a: seq<seq<Call>>, b: seq<seq<Call>>)
    ensures Flatten(a + b) == Flatten(a) + Flatten(b)
  {
    if b == [] {
      assert a + b == a;
    } else {
      var n := |b| - 1;
      FlattenConcat(a, b[..n]);
      assert (a + b)[..|a| + n] == a + b[..n];
    }
  }

  lemma SentMore(descriptors: Lookup, so: seq<seq<Call>>, log: seq<seq<Call>>, batches: seq<seq<Call>>)
    requires so <= log && SafeFrom(descriptors, log, |so|) && SafeFrom(descriptors, batches, 0)
    ensures so <= log + batches && SafeFrom(descriptors, log + batches, |so|)
    ensures Flatten((log + batches)[|so|..]) == Flatten(log[|so|..]) + Flatten(batches)
  {
    assert (log + batches)[|so|..] == log[|so|..] + batches;
    FlattenConcat(log[|so|..], batches);
  }

  lemma KeepsSent(cb: Callbacks, l: Limits, start: State, s: State, known: set<string>, calls: seq<Call>,
                  done: seq<Execution>)
    requires AllDivided(cb.descriptors, s.turns) && s.broken.None? && Sent(cb.descriptors, start, s)
    requires var b := TriageCalls(cb.descriptors, l, s, known, calls).budgeted;
             Schedule(cb.execute, |s.log|, Chunks(b.admitted, Batchable(cb.descriptors))) == Some(done)
    ensures var t := TriageCalls(cb.descriptors, l, s, known, calls);
            var after := AfterWork(cb, s, t, RecordOf(l, known, calls, t, done));
            AllSifted(after.turns) && Sent(cb.descriptors, start, after)
  {
    var t := TriageCalls(cb.descriptors, l, s, known, calls);
    var record := RecordOf(l, known, calls, t, done);
    RecordSifts(cb, l, s, known, calls, done);
    RecordDivides(cb, l, s, known, calls, done);
    AddSiftedTurn(s.turns, record);
    var batches := Chunks(t.budgeted.admitted, Batchable(cb.descriptors));
    SchedulerRefinesCalls(t.budgeted.admitted, cb.descriptors, cb.execute, |s.log|);
    SentMore(cb.descriptors, start.log, s.log, batches);
  }

  /** What is sent until results break the contract: some of the calls, from the first on. */
  lemma SendingSome(descriptors: Lookup, behaviour: Execute, start: nat, calls: seq<Call>)
    requires Schedule(behaviour, start, Chunks(calls, Batchable(descriptors))).None?
    ensures var sent := Sending(behaviour, start, Chunks(calls, Batchable(descriptors)));
            SafeFrom(descriptors, sent, 0) && [] < Flatten(sent) <= calls
  {
    var batches := Chunks(calls, Batchable(descriptors));
    var sent := Sending(behaviour, start, batches);
    SchedulerRefinesCalls(calls, descriptors, behaviour, start);
    FlattenPrefix(sent, batches);
  }

  lemma FlattenPrefix(sent: seq<seq<Call>>, batches: seq<seq<Call>>)
    requires [] < sent <= batches && sent[|sent| - 1] != []
    ensures [] < Flatten(sent) <= Flatten(batches)
  {
    FlattenConcat(sent, batches[|sent|..]);
    assert sent + batches[|sent|..] == batches;
  }

  lemma BreakKeepsSent(cb: Callbacks, l: Limits, start: State, s: State, known: set<string>, calls: seq<Call>)
    requires AllDivided(cb.descriptors, s.turns) && s.broken.None? && Sent(cb.descriptors, start, s)
    requires var b := TriageCalls(cb.descriptors, l, s, known, calls).budgeted;
             Schedule(cb.execute, |s.log|, Chunks(b.admitted, Batchable(cb.descriptors))).None?
    ensures var after := BrokenOff(cb, l, s, known, calls, TriageCalls(cb.descriptors, l, s, known, calls));
            Sifted(after.broken.value) && Sent(cb.descriptors, start, after)
  {
    var admitted := TriageCalls(cb.descriptors, l, s, known, calls).budgeted.admitted;
    RecordSifts(cb, l, s, known, calls, []);
    SendingSome(cb.descriptors, cb.execute, |s.log|, admitted);
    SentMore(cb.descriptors, start.log, s.log,
             Sending(cb.execute, |s.log|, Chunks(admitted, Batchable(cb.descriptors))));
  }

  /** A turn that is broken off keeps the account all the same. */
  lemma BreakKeeps(cb: Callbacks, l: Limits, start: State, s: State, known: set<string>, calls: seq<Call>)
    requires Invariant(cb, l, start, s) && s.broken.None?
    requires var b := TriageCalls(cb.descriptors, l, s, known, calls).budgeted;
             Schedule(cb.execute, |s.log|, Chunks(b.admitted, Batchable(cb.descriptors))).None?
    ensures Invariant(cb, l, start, BrokenOff(cb, l, s, known, calls, TriageCalls(cb.descriptors, l, s, known, calls)))
  {
    var t := TriageCalls(cb.descriptors, l, s, known, calls);
    var after := BrokenOff(cb, l, s, known, calls, t);
    RecordSifts(cb, l, s, known, calls, []);
    assert t.history + Results([]) == t.history;
    KeepsCharged(cb, l, start, s, known, calls, [], after);
    KeepsLimited(cb, l, s, known, calls, [], after);
    NoResultCounts(l, s, known, calls, after);
    BreakKeepsSent(cb, l, start, s, known, calls);
  }

  lemma KeepsContinuing(cb: Callbacks, l: Limits, s: State, known: set<string>, calls: seq<Call>, done: seq<Execution>)
    requires Continuing(l, s)
    requires var record := RecordOf(l, known, calls, TriageCalls(cb.descriptors, l, s, known, calls), done);
             record.refused == [] && record.resultBlocked == []
    ensures var t := TriageCalls(cb.descriptors, l, s, known, calls);
            Continuing(l, AfterWork(cb, s, t, RecordOf(l, known, calls, t, done)))
  {
    InspectionsAreQuiet(l, s.history, known, calls);
    UnblockedResultsAreQuiet(l, s.history + Inspections(calls, known), done);
  }

  lemma WorkKeeps(cb: Callbacks, l: Limits, start: State, s: State, turn: nat, calls: seq<Call>, shown: string)
    requires Invariant(cb, l, start, s) && Continuing(l, s)
    ensures var o := WorkOn(cb, l, s, turn, calls, shown);
            && Invariant(cb, l, start, o.state)
            && (o.Next? ==> Continuing(l, o.state))
            && (o.Halt? && o.result.Done? ==> Ended(o.result, o.state))
  {
    var known := cb.known(turn);
    var done := WorkShape(cb, l, s, turn, calls, shown);
    var t := TriageCalls(cb.descriptors, l, s, known, calls);
    if Schedule(cb.execute, |s.log|, Chunks(t.budgeted.admitted, Batchable(cb.descriptors))).None? {
      BreakKeeps(cb, l, start, s, known, calls);
    } else {
      WorkDoneKeeps(cb, l, start, s, known, calls, done);
      var o := WorkOn(cb, l, s, turn, calls, shown);
      SameBut(cb, l, start, AfterWork(cb, s, t, RecordOf(l, known, calls, t, done)), o.state);
      if o.Next? { KeepsContinuing(cb, l, s, known, calls, done); }
    }
  }

  lemma WorkDoneKeeps(cb: Callbacks, l: Limits, start: State, s: State, known: set<string>, calls: seq<Call>,
                      done: seq<Execution>)
    requires Invariant(cb, l, start, s) && s.broken.None?
    requires var b := TriageCalls(cb.descriptors, l, s, known, calls).budgeted;
             Schedule(cb.execute, |s.log|, Chunks(b.admitted, Batchable(cb.descriptors))) == Some(done)
    ensures var t := TriageCalls(cb.descriptors, l, s, known, calls);
            Invariant(cb, l, start, AfterWork(cb, s, t, RecordOf(l, known, calls, t, done)))
  {
    var t := TriageCalls(cb.descriptors, l, s, known, calls);
    var after := AfterWork(cb, s, t, RecordOf(l, known, calls, t, done));
    KeepsConserved(cb, l, s, known, calls, done);
    KeepsCharged(cb, l, start, s, known, calls, done, after);
    KeepsLimited(cb, l, s, known, calls, done, after);
    TurnCounts(l, s, known, calls, RecordOf(l, known, calls, t, done), after);
    KeepsSent(cb, l, start, s, known, calls, done);
  }

  /** The transcript plays no part in the account. */
  lemma SameBut(cb: Callbacks, l: Limits, start: State, a: State, b: State)
    requires Invariant(cb, l, start, a) && b.(transcript := a.transcript) == a
    ensures Invariant(cb, l, start, b)
  {
  }

  /** How a run that returns ends: with the executions of its turns and at most one record of a
      reply that could not be parsed.  Only the last turn may have refused calls, and then the
      run ends with a question to the user. */
  ghost predicate Ended(r: RunResult, s: State) {
    && r.Done? && s.broken.None?
    && Records(s.turns) <= r.executions && |r.executions| <= |Records(s.turns)| + 1
    && (|r.executions| > |Records(s.turns)| ==> r.ask.Some? && r.ask.value.Supplied?)
    && forall i | 0 <= i < |s.turns| :: s.turns[i].refused != [] ==> i == |s.turns| - 1 && r.ask.Some?
  }

  // ----- a whole run -----

  /** The state without the record of a reply that could not be parsed. */
  function Core(s: State): State {
    s.(executions := Records(s.turns))
  }

  /** The tool calls in the reply of turn `k`; none when it can not be parsed. */
  function CallsRead(cb: Callbacks, s: State, k: nat): seq<Call> {
    match cb.parse(cb.generate(s.transcript, k))
    case Parsed(calls, _) => calls
    case Unparsable(_) => []
  }

  lemma TurnKeeps(cb: Callbacks, l: Limits, start: State, s: State, turn: nat)
    requires Invariant(cb, l, start, s) && Continuing(l, s)
    ensures var o := TakeTurn(cb, l, s, turn);
            && Invariant(cb, l, start, Core(o.state))
            && (o.Next? ==>
                  Invariant(cb, l, start, o.state) && Continuing(l, o.state) && |o.state.turns| == |s.turns| + 1)
            && (o.Halt? && o.result.Done? ==> Ended(o.result, o.state))
            && (o.state.broken.Some? ==> o.Halt? && o.result == Rejected(COVERAGE_ERROR))
  {
    var raw := cb.generate(s.transcript, turn);
    var parsed := cb.parse(raw);
    if parsed.Parsed? && parsed.calls != [] {
      var shown := Shown(parsed.text, raw);
      WorkKeeps(cb, l, start, s, turn, parsed.calls, shown);
      var _ := WorkShape(cb, l, s, turn, parsed.calls, shown);
      IsCore(cb, l, start, WorkOn(cb, l, s, turn, parsed.calls, shown).state);
    } else {
      IsCore(cb, l, start, s);
      HaltKeeps(cb, l, start, s, turn);
    }
  }

  lemma IsCore(cb: Callbacks, l: Limits, start: State, s: State)
    requires Invariant(cb, l, start, s)
    ensures Core(s) == s
  {
  }

  /** A turn without calls ends the run with at most one more execution. */
  lemma HaltKeeps(cb: Callbacks, l: Limits, start: State, s: State, turn: nat)
    requires Core(s) == s && Continuing(l, s)
    requires CallsRead(cb, s, turn) == []
    ensures var o := TakeTurn(cb, l, s, turn);
            && Core(o.state) == s && o.Halt? && o.state.broken.None?
            && (o.result.Done? ==> Ended(o.result, o.state))
  {
  }

  lemma StartHolds(cb: Callbacks, l: Limits, o: RunOptions, log: seq<seq<Call>>)
    requires ValidOptions(o)
    ensures var start := Initial(o, log); Invariant(cb, l, start, start) && Continuing(l, start)
  {
    assert log[|log|..] == [];
  }

  ghost predicate AtHead(cb: Callbacks, l: Limits, start: State, s: State, k: nat) {
    && Invariant(cb, l, start, s) && Continuing(l, s) && s.ledger.turnsUsed == k
    && forall key :: FailureCount(l, s.history, key) == FailedDone(s.turns, key) <= Max0(l.maxFailedCallRepeats)
  }

  lemma FirstHead(cb: Callbacks, o: RunOptions, log: seq<seq<Call>>)
    requires ValidOptions(o)
    ensures var start := Initial(o, log); AtHead(cb, LimitsOf(o.loopGuard), start, start, 0)
  {
    StartHolds(cb, LimitsOf(o.loopGuard), o, log);
    NoKeyFailsTooOften(LimitsOf(o.loopGuard), Initial(o, log));
  }

  lemma NextHead(cb: Callbacks, l: Limits, start: State, s: State, k: nat)
    requires AtHead(cb, l, start, s, k)
    ensures var o := TakeTurn(cb, l, s, k); o.Next? ==> AtHead(cb, l, start, o.state, k + 1)
  {
    TurnKeeps(cb, l, start, s, k);
    var o := TakeTurn(cb, l, s, k);
    if o.Next? { NoKeyFailsTooOften(l, o.state); }
  }

  lemma NoKeyFailsTooOften(l: Limits, s: State)
    requires Continuing(l, s) && FailuresCounted(l, s)
    ensures forall key :: FailureCount(l, s.history, key) == FailedDone(s.turns, key) <= Max0(l.maxFailedCallRepeats)
  {
    forall key ensures FailedDone(s.turns, key) <= Max0(l.maxFailedCallRepeats) {
      UnstoppedWithinLimit(l, s, key);
    }
  }

  /** The heads and the end of a run. */
  ghost predicate RunCourse(cb: Callbacks, l: Limits, maxTurns: nat, start: State, heads: seq<State>, r: RunResult,
                            end: State) {
    Course(Turns(cb, l), UsedUp(l, maxTurns), maxTurns, heads, 0, r, end) && heads[0] == start
  }

  lemma RunHasCourse(cb: Callbacks, l: Limits, maxTurns: nat, start: State)
    ensures var (r, end) := RunFrom(cb, l, maxTurns, start, 0);
            RunCourse(cb, l, maxTurns, start, Heads(Turns(cb, l), maxTurns, start, 0), r, end)
  {
    LoopCourse(Turns(cb, l), UsedUp(l, maxTurns), maxTurns, start, 0);
  }

  lemma HeadFollows(cb: Callbacks, l: Limits, maxTurns: nat, start: State, heads: seq<State>, r: RunResult,
                    end: State, k: nat)
    requires RunCourse(cb, l, maxTurns, start, heads, r, end) && 1 <= k < |heads|
    ensures TakeTurn(cb, l, heads[k - 1], k - 1) == Next(heads[k])
  {
    assert Turns(cb, l)(heads[k - 1], 0 + k - 1) == Next(heads[k]);
  }

  lemma {:induction false} HeadsHold(cb: Callbacks, l: Limits, maxTurns: nat, start: State, heads: seq<State>,
                                     r: RunResult, end: State, k: nat)
    requires RunCourse(cb, l, maxTurns, start, heads, r, end) && AtHead(cb, l, start, start, 0) && k < |heads|
    ensures AtHead(cb, l, start, heads[k], k)
  {
    if k > 0 {
      HeadsHold(cb, l, maxTurns, start, heads, r, end, k - 1);
      HeadFollows(cb, l, maxTurns, start, heads, r, end, k);
      NextHead(cb, l, start, heads[k - 1], k - 1);
    }
  }

  /** At the head of every turn the loop reaches: exactly the turns before it are used, the
      budgets hold, every call so far is accounted for and none was refused by the budget, and
      no call has more recorded failures than allowed. */
  lemma HeadHolds(cb: Callbacks, o: RunOptions, log: seq<seq<Call>>)
    requires ValidOptions(o)
    ensures var l, start := LimitsOf(o.loopGuard), Initial(o, log);
            var heads := Heads(Turns(cb, l), TurnBudget(o), start, 0);
            forall k | 0 <= k < |heads| :: AtHead(cb, l, start, heads[k], k)
  {
    var l, start := LimitsOf(o.loopGuard), Initial(o, log);
    var heads := Heads(Turns(cb, l), TurnBudget(o), start, 0);
    var (r, end) := RunFrom(cb, l, TurnBudget(o), start, 0);
    FirstHead(cb, o, log);
    RunHasCourse(cb, l, TurnBudget(o), start);
    forall k | 0 <= k < |heads| ensures AtHead(cb, l, start, heads[k], k) {
      HeadsHold(cb, l, TurnBudget(o), start, heads, r, end, k);
    }
  }

  /** The account of a run that has ended. */
  ghost predicate RunEnded(cb: Callbacks, l: Limits, maxTurns: nat, start: State, r: RunResult, end: State) {
    && Invariant(cb, l, start, Core(end)) && |AllTurns(end)| <= maxTurns
    && (r.Done? ==> Ended(r, end))
    && (end.broken.Some? ==> r == Rejected(COVERAGE_ERROR))
  }

  lemma TurnEnds(cb: Callbacks, l: Limits, maxTurns: nat, start: State, s: State, k: nat)
    requires AtHead(cb, l, start, s, k) && k < maxTurns && TakeTurn(cb, l, s, k).Halt?
    ensures var o := TakeTurn(cb, l, s, k); RunEnded(cb, l, maxTurns, start, o.result, o.state)
  {
    TurnKeeps(cb, l, start, s, k);
    TurnReads(cb, l, s, k);
  }

  lemma TurnsUsedUp(cb: Callbacks, l: Limits, maxTurns: nat, start: State, s: State)
    requires AtHead(cb, l, start, s, maxTurns)
    ensures RunEnded(cb, l, maxTurns, start, OutOfTurns(l, maxTurns, s), s)
  {
    IsCore(cb, l, start, s);
  }

  /** The last head, and how the run ends from there. */
  lemma LastHead(cb: Callbacks, l: Limits, maxTurns: nat, start: State, heads: seq<State>, r: RunResult, end: State)
    requires RunCourse(cb, l, maxTurns, start, heads, r, end)
    ensures var k := |heads| - 1;
            && k <= maxTurns
            && if k == maxTurns then r == OutOfTurns(l, maxTurns, heads[k]) && end == heads[k]
               else TakeTurn(cb, l, heads[k], k) == Halt(r, end)
  {
    var k := |heads| - 1;
    assert k < maxTurns ==> Turns(cb, l)(heads[k], k) == TakeTurn(cb, l, heads[k], k);
  }

  lemma RunKeeps(cb: Callbacks, l: Limits, maxTurns: nat, start: State, heads: seq<State>, r: RunResult, end: State)
    requires RunCourse(cb, l, maxTurns, start, heads, r, end) && AtHead(cb, l, start, start, 0)
    ensures RunEnded(cb, l, maxTurns, start, r, end)
  {
    var k := |heads| - 1;
    HeadsHold(cb, l, maxTurns, start, heads, r, end, k);
    LastHead(cb, l, maxTurns, start, heads, r, end);
    if k == maxTurns {
      TurnsUsedUp(cb, l, maxTurns, start, end);
    } else {
      TurnEnds(cb, l, maxTurns, start, heads[k], k);
    }
  }

  lemma {:induction false} AnyCallCounts(known: set<string>, calls: seq<Call>)
    ensures AboutCount(AnyCall, known, calls) == |calls|
  {
    if calls != [] { AnyCallCounts(known, calls[..|calls| - 1]); }
  }

  lemma {:induction false} AdmittedTotal(turns: seq<TurnRecord>)
    requires AllSifted(turns)
    ensures AdmittedAbout(turns, AnyCall) == |AllAdmitted(turns)|
  {
    if turns != [] {
      var n := |turns| - 1;
      assert Sifted(turns[n]);
      AdmittedTotal(turns[..n]);
      AnyCallCounts(turns[n].known, AdmittedCalls(turns[n]));
    }
  }

  /** No more calls were sent than admitted. */
  lemma SentTotal(descriptors: Lookup, start: State, s: State)
    requires Conserved(descriptors, s) && AllSifted(AllTurns(s)) && Sent(descriptors, start, s)
    ensures |SentCalls(start, s)| <= AdmittedAbout(AllTurns(s), AnyCall)
  {
    assert AllSifted(s.turns);
    AdmittedTotal(s.turns);
    if s.broken.Some? {
      AddSiftedTurn(s.turns, s.broken.value);
      AdmittedTotal(AllTurns(s));
    }
  }

  /** Every run, however it ends: its turns divide their calls and admit whole groups; the adapter
      was sent exactly the admitted calls, in order and in safe batches, and of a turn that it broke
      off the first ones; no more groups were admitted than the operation budget allows, and none of
      high risk beyond the risk quota; the result guard stopped exactly the failures beyond the limit;
      no more calls were sent than the loop guard allows, and none of a known call or of an unknown
      tool beyond their limits.  A run that returns does so with the executions of its turns, asking
      the user when calls were refused. */
  lemma RunIsSafe(cb: Callbacks, o: RunOptions, log: seq<seq<Call>>)
    requires ValidOptions(o)
    ensures var l := LimitsOf(o.loopGuard);
            var start := Initial(o, log);
            var (r, end) := RunFrom(cb, l, TurnBudget(o), start, 0);
            && Conserved(cb.descriptors, Core(end))
            && AllWhole(cb.descriptors, AllTurns(end)) && Charged(cb.descriptors, start, end)
            && |AllTurns(end)| <= (match o.modelToolTurnBudget case Some(n) => n case None => o.maxTurns)
            && AdmittedGroups(AllTurns(end)) <=
               (match o.budget.executionOperationBudget case Some(n) => n case None => 9007199254740991)
            && RiskyGroups(cb.descriptors, AllTurns(end)) <=
               (match o.budget.riskQuota case Some(n) => n case None => 9007199254740991)
            && FailuresCounted(l, end)
            && Sent(cb.descriptors, start, end)
            && (r.Done? ==> Ended(r, end))
            && (end.broken.Some? ==> r == Rejected(COVERAGE_ERROR))
            && AllSifted(AllTurns(end))
            && |SentCalls(start, end)| <= AdmittedAbout(AllTurns(end), AnyCall) <= Max0(l.maxCalls)
            && (forall key :: AdmittedAbout(AllTurns(end), KnownCall(key)) <= Max0(l.maxRepeatedCalls))
            && (forall tool :: AdmittedAbout(AllTurns(end), UnknownTool(tool)) <= Max0(l.maxUnknownToolRepeats))
  {
    var l, start := LimitsOf(o.loopGuard), Initial(o, log);
    var (r, end) := RunFrom(cb, l, TurnBudget(o), start, 0);
    FirstHead(cb, o, log);
    RunHasCourse(cb, l, TurnBudget(o), start);
    RunKeeps(cb, l, TurnBudget(o), start, Heads(Turns(cb, l), TurnBudget(o), start, 0), r, end);
    ConservedSifts(cb.descriptors, Core(end));
    EndWithin(l, Core(end));
    SentTotal(cb.descriptors, start, Core(end));
  }

  lemma ConservedSifts(descriptors: Lookup, s: State)
    requires Conserved(descriptors, s)
    ensures AllSifted(s.turns) && AllSifted(AllTurns(s))
  {
  }

  lemma EndWithin(l: Limits, end: State)
    requires AllSifted(AllTurns(end)) && Limited(l, end)
    ensures AdmittedAbout(AllTurns(end), AnyCall) <= Max0(l.maxCalls)
    ensures forall key :: AdmittedAbout(AllTurns(end), KnownCall(key)) <= Max0(l.maxRepeatedCalls)
    ensures forall tool :: AdmittedAbout(AllTurns(end), UnknownTool(tool)) <= Max0(l.maxUnknownToolRepeats)
  {
    AllowedTotal(l, end.history);
    forall key ensures AdmittedAbout(AllTurns(end), KnownCall(key)) <= Max0(l.maxRepeatedCalls) {
      AllowedRepeats(l, end.history, key);
    }
    forall tool ensures AdmittedAbout(AllTurns(end), UnknownTool(tool)) <= Max0(l.maxUnknownToolRepeats) {
      AllowedUnknown(l, end.history, tool);
    }
  }

  // ----- the turns are those of the model's replies -----

  /** A turn records its calls when there are any, and otherwise ends the run. */
  lemma TurnReads(cb: Callbacks, l: Limits, s: State, turn: nat)
    requires s.broken.None?
    ensures var calls := CallsRead(cb, s, turn);
            var o := TakeTurn(cb, l, s, turn);
            if calls == [] then o.Halt? && AllTurns(o.state) == s.turns
            else
              && s.turns < AllTurns(o.state) && |AllTurns(o.state)| == |s.turns| + 1
              && AllTurns(o.state)[|s.turns|].calls == calls
              && (o.Next? ==> o.state.broken.None?)
  {
    var raw := cb.generate(s.transcript, turn);
    var parsed := cb.parse(raw);
    if parsed.Parsed? && parsed.calls != [] {
      var _ := WorkShape(cb, l, s, turn, parsed.calls, Shown(parsed.text, raw));
    }
  }

  /** The loop takes turn `k`, and the reply in it has calls. */
  predicate CallsAt(cb: Callbacks, maxTurns: nat, heads: seq<State>, k: nat) {
    k < maxTurns && k < |heads| && CallsRead(cb, heads[k], k) != []
  }

  /** The recorded turns are exactly the replies with calls, and each has the calls of its reply. */
  ghost predicate ReadAll(cb: Callbacks, maxTurns: nat, heads: seq<State>, turns: seq<TurnRecord>) {
    forall k: nat ::
      && (k < |turns| <==> CallsAt(cb, maxTurns, heads, k))
      && (k < |turns| ==> turns[k].calls == CallsRead(cb, heads[k], k))
  }

  /** The turns recorded at head `k`: one for each turn before it, with the calls of its reply. */
  ghost predicate ReadBefore(cb: Callbacks, heads: seq<State>, k: nat, turns: seq<TurnRecord>)
    requires k <= |heads|
  {
    |turns| == k &&
    forall j | 0 <= j < k :: CallsRead(cb, heads[j], j) != [] && turns[j].calls == CallsRead(cb, heads[j], j)
  }

  lemma ReadNext(cb: Callbacks, heads: seq<State>, k: nat, turns: seq<TurnRecord>, more: seq<TurnRecord>)
    requires k < |heads| && ReadBefore(cb, heads, k, turns)
    requires turns < more && |more| == k + 1 && CallsRead(cb, heads[k], k) != [] &&
             more[k].calls == CallsRead(cb, heads[k], k)
    ensures ReadBefore(cb, heads, k + 1, more)
  {
  }

  lemma {:induction false} HeadsRead(cb: Callbacks, l: Limits, maxTurns: nat, start: State, heads: seq<State>,
                                     r: RunResult, end: State, k: nat)
    requires RunCourse(cb, l, maxTurns, start, heads, r, end) && start.broken.None? && start.turns == [] && k < |heads|
    ensures heads[k].broken.None? && ReadBefore(cb, heads, k, heads[k].turns)
  {
    if k > 0 {
      HeadsRead(cb, l, maxTurns, start, heads, r, end, k - 1);
      HeadFollows(cb, l, maxTurns, start, heads, r, end, k);
      TurnReads(cb, l, heads[k - 1], k - 1);
      ReadNext(cb, heads, k - 1, heads[k - 1].turns, heads[k].turns);
    }
  }

  lemma RunReads(cb: Callbacks, l: Limits, maxTurns: nat, start: State, heads: seq<State>, r: RunResult, end: State)
    requires RunCourse(cb, l, maxTurns, start, heads, r, end) && start.broken.None? && start.turns == []
    ensures ReadAll(cb, maxTurns, heads, AllTurns(end))
  {
    var k := |heads| - 1;
    HeadsRead(cb, l, maxTurns, start, heads, r, end, k);
    LastHead(cb, l, maxTurns, start, heads, r, end);
    if k < maxTurns {
      TurnReads(cb, l, heads[k], k);
      if CallsRead(cb, heads[k], k) != [] { ReadNext(cb, heads, k, heads[k].turns, AllTurns(end)); }
    }
    ReadToTheEnd(cb, maxTurns, heads, AllTurns(end));
  }

  lemma ReadToTheEnd(cb: Callbacks, maxTurns: nat, heads: seq<State>, turns: seq<TurnRecord>)
    requires heads != [] && |heads| <= maxTurns + 1
    requires var k := |heads| - 1;
             if CallsAt(cb, maxTurns, heads, k) then ReadBefore(cb, heads, k + 1, turns)
             else ReadBefore(cb, heads, k, turns)
    ensures ReadAll(cb, maxTurns, heads, turns)
  {
  }

  // ----- conservation over a whole run -----

  function AllCalls(turns: seq<TurnRecord>): seq<Call> {
    if turns == [] then [] else AllCalls(turns[..|turns| - 1]) + turns[|turns| - 1].calls
  }

  function AllResultBlocked(turns: seq<TurnRecord>): seq<Execution> {
    if turns == [] then [] else AllResultBlocked(turns[..|turns| - 1]) + turns[|turns| - 1].resultBlocked
  }

  function KeyBag(executions: seq<Execution>): multiset<string> {
    multiset(KeysIn(CallsIn(executions)))
  }

  lemma KeyBagConcat(a: seq<Execution>, b: seq<Execution>)
    ensures KeyBag(a + b) == KeyBag(a) + KeyBag(b)
  {
    assert KeysIn(CallsIn(a + b)) == KeysIn(CallsIn(a)) + KeysIn(CallsIn(b));
  }

  lemma RecordBag(t: TurnRecord)
    requires Divided(t)
    ensures KeyBag(RecordsOf(t)) == multiset(KeysIn(t.calls)) + KeyBag(t.resultBlocked)
  {
    CallsConserved(t);
    KeyBagConcat(t.blocked, t.done);
    KeyBagConcat(t.blocked + t.done, t.refused);
    KeyBagConcat(t.blocked + t.done + t.refused, t.resultBlocked);
  }

  /** By call key, the records of finished turns are a permutation of all their calls, apart from
      the extra records of the result guard. */
  lemma {:induction false} RecordsConserve(turns: seq<TurnRecord>)
    requires forall i | 0 <= i < |turns| :: Divided(turns[i])
    ensures KeyBag(Records(turns)) == multiset(KeysIn(AllCalls(turns))) + KeyBag(AllResultBlocked(turns))
  {
    if turns != [] {
      var n := |turns| - 1;
      var front, last := turns[..n], turns[n];
      RecordsConserve(front);
      assert Divided(last);
      RecordBag(last);
      ConservesNext(Records(front), RecordsOf(last), AllCalls(front), last.calls, AllResultBlocked(front),
                    last.resultBlocked);
    }
  }

  lemma ConservesNext(records: seq<Execution>, moreRecords: seq<Execution>, calls: seq<Call>, moreCalls: seq<Call>,
                      results: seq<Execution>, moreResults: seq<Execution>)
    requires KeyBag(records) == multiset(KeysIn(calls)) + KeyBag(results)
    requires KeyBag(moreRecords) == multiset(KeysIn(moreCalls)) + KeyBag(moreResults)
    ensures KeyBag(records + moreRecords) == multiset(KeysIn(calls + moreCalls)) + KeyBag(results + moreResults)
  {
    KeyBagConcat(records, moreRecords);
    KeyBagConcat(results, moreResults);
    CallBagConcat(calls, moreCalls);
    BagsAdd(multiset(KeysIn(calls)), KeyBag(results), multiset(KeysIn(moreCalls)), KeyBag(moreResults));
  }

  lemma CallBagConcat(a: seq<Call>, b: seq<Call>)
    ensures multiset(KeysIn(a + b)) == multiset(KeysIn(a)) + multiset(KeysIn(b))
  {
    assert KeysIn(a + b) == KeysIn(a) + KeysIn(b);
  }

  lemma BagsAdd(a: multiset<string>, b: multiset<string>, c: multiset<string>, d: multiset<string>)
    ensures (a + b) + (c + d) == (a + c) + (b + d)
  {
  }

  /** The execution that the caller supplies for a reply that can not be parsed, if turn `k` has one. */
  function FailureRecord(cb: Callbacks, l: Limits, s: State, k: nat): seq<Execution> {
    var raw := cb.generate(s.transcript, k);
    if cb.parse(raw).Parsed? then [] else
      match cb.recover(raw, Circumstances(s.ledger, GuardAt(l, s.history), k + 1))
      case None => []
      case Some(r) => if r.execution.Some? then [r.execution.value] else []
  }

  /** The same for turn `k` if the loop takes it. */
  function FailureAt(cb: Callbacks, l: Limits, maxTurns: nat, heads: seq<State>, k: nat): seq<Execution> {
    if k < maxTurns && k < |heads| then FailureRecord(cb, l, heads[k], k) else []
  }

  lemma TurnReturns(cb: Callbacks, l: Limits, s: State, turn: nat)
    requires s.broken.None? && s.executions == Records(s.turns)
    ensures var o := TakeTurn(cb, l, s, turn);
            && |o.state.turns| >= |s.turns|
            && (o.Next? ==> o.state.executions == Records(o.state.turns))
            && (o.Halt? && o.result.Done? ==>
                  && |o.state.turns| == |s.turns| + (if CallsRead(cb, s, turn) == [] then 0 else 1)
                  && o.result.executions ==
                     Records(o.state.turns) +
                     if CallsRead(cb, s, turn) == [] then FailureRecord(cb, l, s, turn) else [])
  {
    var raw := cb.generate(s.transcript, turn);
    var parsed := cb.parse(raw);
    if parsed.Parsed? && parsed.calls != [] {
      var done := WorkShape(cb, l, s, turn, parsed.calls, Shown(parsed.text, raw));
      var known := cb.known(turn);
      AddTurn(s.turns, RecordOf(l, known, parsed.calls, TriageCalls(cb.descriptors, l, s, known, parsed.calls), done));
    }
  }

  /** What a run returns: the records of its turns, and that of a last reply that failed. */
  lemma RunReturns(cb: Callbacks, l: Limits, maxTurns: nat, start: State, heads: seq<State>, r: RunResult, end: State)
    requires RunCourse(cb, l, maxTurns, start, heads, r, end) && AtHead(cb, l, start, start, 0)
    ensures r.Done? ==> r.executions == Records(end.turns) + FailureAt(cb, l, maxTurns, heads, |end.turns|)
  {
    var k := |heads| - 1;
    HeadsHold(cb, l, maxTurns, start, heads, r, end, k);
    LastHead(cb, l, maxTurns, start, heads, r, end);
    if k < maxTurns { TurnReturns(cb, l, heads[k], k); }
  }

  /** Every run accounts for every tool call it reads.  Its turns are exactly the replies with
      calls, each with the calls that were parsed from it; and when it returns, its executions are
      by call key a permutation of all those calls, apart from the extra records of the result
      guard and the one record of a last reply that could not be parsed. */
  lemma RunConserves(cb: Callbacks, o: RunOptions, log: seq<seq<Call>>)
    requires ValidOptions(o)
    ensures var l, start := LimitsOf(o.loopGuard), Initial(o, log);
            var (r, end) := RunFrom(cb, l, TurnBudget(o), start, 0);
            var heads := Heads(Turns(cb, l), TurnBudget(o), start, 0);
            && ReadAll(cb, TurnBudget(o), heads, AllTurns(end))
            && (r.Done? ==>
                  end.broken.None? &&
                  KeyBag(r.executions) ==
                  multiset(KeysIn(AllCalls(end.turns))) + KeyBag(AllResultBlocked(end.turns)) +
                  KeyBag(FailureAt(cb, l, TurnBudget(o), heads, |end.turns|)))
  {
    var l, start := LimitsOf(o.loopGuard), Initial(o, log);
    var (r, end) := RunFrom(cb, l, TurnBudget(o), start, 0);
    var heads := Heads(Turns(cb, l), TurnBudget(o), start, 0);
    RunIsSafe(cb, o, log);
    FirstHead(cb, o, log);
    RunHasCourse(cb, l, TurnBudget(o), start);
    RunReads(cb, l, TurnBudget(o), start, heads, r, end);
    RunReturns(cb, l, TurnBudget(o), start, heads, r, end);
    if r.Done? {
      RecordsConserve(end.turns);
      KeyBagConcat(Records(end.turns), FailureAt(cb, l, TurnBudget(o), heads, |end.turns|));
    }
  }
}
