/** What the model is shown and what becomes of its calls, turn by turn over a whole run, and how a run ends. */
module RunLaws {
  import opened Basics
  import opened LoopGuard
  import opened ToolCalls
  import opened ToolBudget
  import opened ToolScheduler
  import opened ToolRuntime
  import opened ToolLoop
  import opened ToolRunSafety

  // ----- where the picked items are -----

  /** Item `j` is picked out behind those with its mark before it. */
  lemma {:induction false} PickAt<T>(items: seq<T>, marks: seq<bool>, j: nat)
    requires j < |items| == |marks|
    ensures var at := if marks[j] then Trues(marks[..j]) else j - Trues(marks[..j]);
            0 <= at < |Pick(items, marks, marks[j])| && Pick(items, marks, marks[j])[at] == items[j]
  {
    var n := |items| - 1;
    PickLength(items[..n], marks[..n]);
    if j < n {
      PickAt(items[..n], marks[..n], j);
      assert marks[..n][..j] == marks[..j];
    }
  }

  lemma {:induction false} PickLength<T>(items: seq<T>, marks: seq<bool>)
    requires |items| == |marks|
    ensures |Pick(items, marks, true)| == Trues(marks) <= |items|
    ensures |Pick(items, marks, false)| == |items| - Trues(marks)
  {
    if items != [] {
      var n := |items| - 1;
      PickLength(items[..n], marks[..n]);
    }
  }

  // ----- what the guard is told, and what it stops -----

  /** These entries are the inspections of the calls, by the tools known. */
  ghost predicate TellCalls(entries: seq<Entry>, calls: seq<Call>, known: set<string>) {
    && |entries| == |calls|
    && forall j | 0 <= j < |entries| ::
         entries[j] == Inspected(Event(calls[j].key, Some(calls[j].input), Some(known), None))
  }

  /** These entries are the results of the executions. */
  ghost predicate TellResults(entries: seq<Entry>, done: seq<Execution>) {
    && |entries| == |done|
    && forall j | 0 <= j < |entries| ::
         entries[j] == Recorded(Event(done[j].call.key, Some(done[j].call.input), None, Some(done[j].ok)))
  }

  /** The guard was told the calls of the turn and then the results. */
  ghost predicate Told(h: seq<Entry>, t: TurnRecord, after: seq<Entry>) {
    && |after| == |h| + |t.calls| + |t.done| && h <= after
    && TellCalls(after[|h|..|h| + |t.calls|], t.calls, t.known)
    && TellResults(after[|h| + |t.calls|..], t.done)
  }

  /** The guard's answers to the `n` entries of a history from `first` on. */
  ghost function AnswersFrom(l: Limits, h: seq<Entry>, first: nat, n: nat): seq<Decision>
    requires first + n <= |h|
  {
    seq(n, j requires 0 <= j < n => Decide(l, h[..first + j], h[first + j]))
  }

  /** The stops are, in order, the failed records of the calls that were not allowed, with the reasons. */
  ghost predicate Stopped(answers: seq<Decision>, calls: seq<Call>, stops: seq<Execution>)
    requires |answers| == |calls|
  {
    if calls == [] then stops == [] else
      var n, m := |calls| - 1, |stops| - 1;
      match answers[n]
      case Allow => Stopped(answers[..n], calls[..n], stops)
      case Block(reason) =>
        m >= 0 && stops[m] == Execution(calls[n], false, GuardStop(reason)) &&
        Stopped(answers[..n], calls[..n], stops[..m])
  }

  lemma StoppedNext(answers: seq<Decision>, calls: seq<Call>, stops: seq<Execution>, answer: Decision, call: Call)
    requires |answers| == |calls| && Stopped(answers, calls, stops)
    ensures Stopped(answers + [answer], calls + [call],
                    stops + if answer == Allow then [] else [BlockedExecution(call, answer)])
  {
    assert (answers + [answer])[..|calls|] == answers && (calls + [call])[..|calls|] == calls;
    assert stops + [] == stops && (stops + [BlockedExecution(call, answer)])[..|stops|] == stops;
  }

  lemma {:induction false} BlocksAreStops(calls: seq<Call>, answers: seq<Decision>)
    requires |answers| == |calls|
    ensures Stopped(answers, calls, Pick(Blocks(calls, answers), Allows(answers), false))
  {
    if calls != [] {
      var n := |calls| - 1;
      BlocksAreStops(calls[..n], answers[..n]);
      StoppedNext(answers[..n], calls[..n], Pick(Blocks(calls[..n], answers[..n]), Allows(answers[..n]), false),
                  answers[n], calls[n]);
      assert Blocks(calls, answers)[..n] == Blocks(calls[..n], answers[..n]);
      assert Allows(answers)[..n] == Allows(answers[..n]);
      assert calls == calls[..n] + [calls[n]] && answers == answers[..n] + [answers[n]];
    }
  }

  lemma AnswersAre(l: Limits, h: seq<Entry>, entries: seq<Entry>, all: seq<Entry>)
    requires h + entries <= all
    ensures AnswersFrom(l, all, |h|, |entries|) == Answers(l, h, entries)
  {
    forall j | 0 <= j < |entries| ensures AnswersFrom(l, all, |h|, |entries|)[j] == Answers(l, h, entries)[j] {
      assert all[..|h| + j] == h + entries[..j];
    }
  }

  /** Each call is let through or stopped as it was answered. */
  ghost predicate CallsFollow(answers: seq<Decision>, t: TurnRecord) {
    |answers| == |t.calls| && t.guardMarks == Allows(answers) && Stopped(answers, t.calls, t.blocked)
  }

  /** And so is each result. */
  ghost predicate ResultsFollow(answers: seq<Decision>, t: TurnRecord) {
    |answers| == |t.done| && Stopped(answers, CallsIn(t.done), t.resultBlocked)
  }

  lemma CallsAreGuarded(l: Limits, h: seq<Entry>, t: TurnRecord, told: seq<Entry>, after: seq<Entry>)
    requires var answers := Answers(l, h, Inspections(t.calls, t.known));
             t.guardMarks == Allows(answers) && t.blocked == Pick(Blocks(t.calls, answers), Allows(answers), false)
    requires told == h + Inspections(t.calls, t.known) && told <= after
    ensures CallsFollow(AnswersFrom(l, after, |h|, |t.calls|), t)
  {
    AnswersAre(l, h, Inspections(t.calls, t.known), after);
    BlocksAreStops(t.calls, Answers(l, h, Inspections(t.calls, t.known)));
  }

  lemma ResultsAreGuarded(l: Limits, told: seq<Entry>, t: TurnRecord, after: seq<Entry>)
    requires t.resultBlocked == ResultBlocks(l, told, t.done) && after == told + Results(t.done)
    ensures ResultsFollow(AnswersFrom(l, after, |told|, |t.done|), t)
  {
    AnswersAre(l, told, Results(t.done), after);
    BlocksAreStops(CallsIn(t.done), Answers(l, told, Results(t.done)));
  }

  lemma TurnIsTold(h: seq<Entry>, t: TurnRecord, told: seq<Entry>, after: seq<Entry>)
    requires told == h + Inspections(t.calls, t.known) && after == told + Results(t.done)
    ensures Told(h, t, after)
  {
    assert after[|h|..|h| + |t.calls|] == Inspections(t.calls, t.known);
    assert after[|h| + |t.calls|..] == Results(t.done);
  }

  /** What the guard makes of a turn: the calls and results it is told, which calls it lets through, and
      the records of those calls and results that it does not. */
  ghost predicate Guarded(l: Limits, h: seq<Entry>, t: TurnRecord, after: seq<Entry>) {
    && Told(h, t, after)
    && CallsFollow(AnswersFrom(l, after, |h|, |t.calls|), t)
    && ResultsFollow(AnswersFrom(l, after, |h| + |t.calls|, |t.done|), t)
  }

  lemma TurnIsGuarded(l: Limits, h: seq<Entry>, t: TurnRecord, told: seq<Entry>, after: seq<Entry>)
    requires var answers := Answers(l, h, Inspections(t.calls, t.known));
             t.guardMarks == Allows(answers) && t.blocked == Pick(Blocks(t.calls, answers), Allows(answers), false)
    requires told == h + Inspections(t.calls, t.known) && after == told + Results(t.done)
    requires t.resultBlocked == ResultBlocks(l, told, t.done)
    ensures Guarded(l, h, t, after)
  {
    assert |told| == |h| + |t.calls|;
    assert CallsFollow(AnswersFrom(l, after, |h|, |t.calls|), t) by { CallsAreGuarded(l, h, t, told, after); }
    assert ResultsFollow(AnswersFrom(l, after, |told|, |t.done|), t) by { ResultsAreGuarded(l, told, t, after); }
    assert Told(h, t, after) by { TurnIsTold(h, t, told, after); }
  }

  // ----- questions -----

  /** The first execution that asks decides; without one nobody asks. */
  ghost predicate AsksFirst(cb: Callbacks, executions: seq<Execution>, at: Circumstances, ask: Option<Ask>) {
    match ask
    case None => forall i | 0 <= i < |executions| :: cb.executionAsk(executions[i], at) == None
    case Some(a) =>
      exists m :: 0 <= m < |executions| && AsksAt(cb, executions, at, a, m)
  }

  ghost predicate AsksAt(cb: Callbacks, executions: seq<Execution>, at: Circumstances, ask: Ask, m: nat)
    requires m < |executions|
  {
    && ask.Supplied? && cb.executionAsk(executions[m], at) == Some(ask.id)
    && forall i | 0 <= i < m :: cb.executionAsk(executions[i], at) == None
  }

  lemma {:induction false} FirstAskIsFirst(cb: Callbacks, executions: seq<Execution>, at: Circumstances)
    ensures AsksFirst(cb, executions, at, FirstAsk(cb, executions, at))
  {
    if executions != [] {
      var rest, ask := executions[1..], FirstAsk(cb, executions, at);
      FirstAskIsFirst(cb, rest, at);
      if cb.executionAsk(executions[0], at).Some? {
        assert AsksAt(cb, executions, at, ask.value, 0);
      } else if ask.Some? {
        var m :| 0 <= m < |rest| && AsksAt(cb, rest, at, ask.value, m);
        assert forall i | 1 <= i < m + 1 :: executions[i] == rest[i - 1];
        assert AsksAt(cb, executions, at, ask.value, m + 1);
      } else {
        assert forall i | 1 <= i < |executions| :: executions[i] == rest[i - 1];
      }
    }
  }

  // ----- one turn -----

  /** The reply in this turn has these calls, and is shown as this text: its own, or the raw one when
      that is empty. */
  ghost predicate Replied(cb: Callbacks, transcript: seq<Message>, turn: nat, calls: seq<Call>, shown: string) {
    var raw := cb.generate(transcript, turn);
    var parsed := cb.parse(raw);
    parsed.Parsed? && parsed.calls == calls && shown == if parsed.text != "" then parsed.text else raw
  }

  /** A turn after which the run goes on: it records the calls of the reply; the guard let some through; the
      adapter was sent some batches and answered them with the recorded results; nothing was refused or
      stopped and no execution asks; and the transcript grows by the reply and all results. */
  ghost predicate WentOn(cb: Callbacks, l: Limits, s: State, turn: nat, t: TurnRecord, shown: string, after: State) {
    && Replied(cb, s.transcript, turn, t.calls, shown) && t.calls != [] && t.known == cb.known(turn)
    && after.transcript ==
       s.transcript + [Assistant(shown), ToolResults(cb.render(t.blocked + t.done + t.resultBlocked))]
    && after.executions == s.executions + (t.blocked + t.done + t.refused + t.resultBlocked)
    && true in t.guardMarks && t.refused == [] && t.resultBlocked == []
    && AsksFirst(cb, t.done, Circumstances(after.ledger, GuardAt(l, after.history), turn + 1), None)
    && Guarded(l, s.history, t, after.history)
    && s.log <= after.log && Schedule(cb.execute, |s.log|, after.log[|s.log|..]) == Some(t.done)
    && after.turns == s.turns + [t]
  }

  lemma SomeMarked(calls: seq<Call>, marks: seq<bool>)
    requires |calls| == |marks|
    ensures Pick(calls, marks, true) != [] <==> true in marks
  {
    PickNothing(calls, marks, true);
  }

  /** What a turn that goes on does. */
  lemma TurnGoesOn(cb: Callbacks, l: Limits, s: State, turn: nat) returns (t: TurnRecord, shown: string)
    requires TakeTurn(cb, l, s, turn).Next?
    ensures WentOn(cb, l, s, turn, t, shown, TakeTurn(cb, l, s, turn).state)
  {
    var raw := cb.generate(s.transcript, turn);
    var calls := cb.parse(raw).calls;
    shown := Shown(cb.parse(raw).text, raw);
    var known := cb.known(turn);
    var triage := TriageCalls(cb.descriptors, l, s, known, calls);
    SomeMarked(calls, triage.marks);
    var done := Schedule(cb.execute, |s.log|, Chunks(triage.budgeted.admitted, Batchable(cb.descriptors))).value;
    t := RecordOf(l, known, calls, triage, done);
    WorkGoesOn(cb, l, s, turn, known, calls, shown, triage, done);
    TurnIsGuarded(l, s.history, t, triage.history, triage.history + Results(done));
  }

  /** The part of that after the guard. */
  lemma WorkGoesOn(cb: Callbacks, l: Limits, s: State, turn: nat, known: set<string>, calls: seq<Call>, shown: string,
                   t: Triage, done: seq<Execution>)
    requires WorkOff(cb, l, s, turn, known, calls, shown, t).Next?
    requires var batches := Chunks(t.budgeted.admitted, Batchable(cb.descriptors));
             Schedule(cb.execute, |s.log|, batches).Some? ==> Schedule(cb.execute, |s.log|, batches).value == done
    ensures var after := WorkOff(cb, l, s, turn, known, calls, shown, t).state;
            var r := RecordOf(l, known, calls, t, done);
            && after.transcript ==
               s.transcript + [Assistant(shown), ToolResults(cb.render(r.blocked + r.done + r.resultBlocked))]
            && after.executions == s.executions + (r.blocked + r.done + r.refused + r.resultBlocked)
            && r.refused == [] && r.resultBlocked == []
            && AsksFirst(cb, r.done, Circumstances(after.ledger, GuardAt(l, after.history), turn + 1), None)
            && after.history == t.history + Results(done) && after.turns == s.turns + [r]
            && s.log <= after.log && Schedule(cb.execute, |s.log|, after.log[|s.log|..]) == Some(done)
  {
    var batches := Chunks(t.budgeted.admitted, Batchable(cb.descriptors));
    assert (s.log + batches)[|s.log|..] == batches;
    var after := WorkOff(cb, l, s, turn, known, calls, shown, t).state;
    assert done + [] + [] == done;
    FirstAskIsFirst(cb, done, Circumstances(after.ledger, GuardAt(l, after.history), turn + 1));
  }

  // ----- the whole run -----

  /** What turn `i` is shown as in the transcript of a later head: two messages behind those of the turns
      before it, the text of its reply and the rendering of all its results. */
  ghost predicate ShownAt(cb: Callbacks, first: nat, heads: seq<State>, i: nat, turns: seq<TurnRecord>,
                          transcript: seq<Message>)
    requires i < |heads| && i < |turns| && first + 2 * i + 1 < |transcript|
  {
    var t := turns[i];
    var raw := cb.generate(heads[i].transcript, i);
    && cb.parse(raw).Parsed? && cb.parse(raw).calls == t.calls && t.known == cb.known(i)
    && transcript[first + 2 * i] == Assistant(if cb.parse(raw).text != "" then cb.parse(raw).text else raw)
    && transcript[first + 2 * i + 1] == ToolResults(cb.render(t.blocked + t.done + t.resultBlocked))
  }

  /** The transcript at head `k`: the initial messages, and behind them every earlier turn. */
  ghost predicate ShowsTurns(cb: Callbacks, initial: seq<Message>, heads: seq<State>, k: nat)
    requires k < |heads|
  {
    var s := heads[k];
    && |s.turns| == k && |s.transcript| == |initial| + 2 * k && initial <= s.transcript
    && forall i | 0 <= i < k :: ShownAt(cb, |initial|, heads, i, s.turns, s.transcript)
  }

  lemma ShowsNext(cb: Callbacks, l: Limits, initial: seq<Message>, heads: seq<State>, k: nat, t: TurnRecord,
                  shown: string)
    requires k + 1 < |heads| && ShowsTurns(cb, initial, heads, k)
    requires WentOn(cb, l, heads[k], k, t, shown, heads[k + 1])
    ensures ShowsTurns(cb, initial, heads, k + 1)
  {
    var s, after := heads[k], heads[k + 1];
    forall i | 0 <= i < k + 1 ensures ShownAt(cb, |initial|, heads, i, after.turns, after.transcript) {
      if i < k {
        assert ShownAt(cb, |initial|, heads, i, s.turns, s.transcript);
      }
    }
  }

  lemma {:induction false} HeadShows(cb: Callbacks, l: Limits, maxTurns: nat, start: State, heads: seq<State>,
                                     r: RunResult, end: State, k: nat)
    requires RunCourse(cb, l, maxTurns, start, heads, r, end) && k < |heads| && start.turns == []
    ensures ShowsTurns(cb, start.transcript, heads, k)
  {
    if k > 0 {
      HeadShows(cb, l, maxTurns, start, heads, r, end, k - 1);
      HeadFollows(cb, l, maxTurns, start, heads, r, end, k);
      var t, shown := TurnGoesOn(cb, l, heads[k - 1], k - 1);
      ShowsNext(cb, l, start.transcript, heads, k - 1, t, shown);
    }
  }

  /** The states at the heads of the turns of a run. */
  ghost function RunHeads(cb: Callbacks, o: RunOptions, log: seq<seq<Call>>): (heads: seq<State>)
    requires ValidOptions(o)
    ensures heads != [] && heads[0] == Initial(o, log)
  {
    Heads(Turns(cb, LimitsOf(o.loopGuard)), TurnBudget(o), Initial(o, log), 0)
  }

  lemma RunTakes(cb: Callbacks, o: RunOptions, log: seq<seq<Call>>)
    requires ValidOptions(o)
    ensures var l, start := LimitsOf(o.loopGuard), Initial(o, log);
            var (r, end) := RunFrom(cb, l, TurnBudget(o), start, 0);
            RunCourse(cb, l, TurnBudget(o), start, RunHeads(cb, o, log), r, end)
  {
    RunHasCourse(cb, LimitsOf(o.loopGuard), TurnBudget(o), Initial(o, log));
  }

  /** At the head of every turn the model is given the initial messages and, for each turn before, the
      text of its reply and the rendering of everything that came of its calls. */
  lemma ModelSeesResults(cb: Callbacks, o: RunOptions, log: seq<seq<Call>>, k: nat)
    requires ValidOptions(o) && k < |RunHeads(cb, o, log)|
    ensures ShowsTurns(cb, o.initialMessages, RunHeads(cb, o, log), k)
  {
    var l, start := LimitsOf(o.loopGuard), Initial(o, log);
    var (r, end) := RunFrom(cb, l, TurnBudget(o), start, 0);
    RunTakes(cb, o, log);
    HeadShows(cb, l, TurnBudget(o), start, RunHeads(cb, o, log), r, end, k);
  }

  /** Every turn but the last does what a turn does that goes on. */
  lemma EveryTurnWentOn(cb: Callbacks, o: RunOptions, log: seq<seq<Call>>, k: nat)
    returns (t: TurnRecord, shown: string)
    requires ValidOptions(o) && k + 1 < |RunHeads(cb, o, log)|
    ensures var heads := RunHeads(cb, o, log);
            WentOn(cb, LimitsOf(o.loopGuard), heads[k], k, t, shown, heads[k + 1])
  {
    var l, start := LimitsOf(o.loopGuard), Initial(o, log);
    var (r, end) := RunFrom(cb, l, TurnBudget(o), start, 0);
    RunTakes(cb, o, log);
    HeadFollows(cb, l, TurnBudget(o), start, RunHeads(cb, o, log), r, end, k + 1);
    t, shown := TurnGoesOn(cb, l, RunHeads(cb, o, log)[k], k);
  }

  /** An execution is among the results that turn `i` was shown with. */
  ghost predicate SeenIn(cb: Callbacks, first: nat, turns: seq<TurnRecord>, transcript: seq<Message>, e: Execution,
                         i: nat)
  {
    && i < |turns| && first + 2 * i + 1 < |transcript|
    && var results := turns[i].blocked + turns[i].done + turns[i].resultBlocked;
       e in results && transcript[first + 2 * i + 1] == ToolResults(cb.render(results))
  }

  ghost predicate AllSeen(cb: Callbacks, first: nat, executions: seq<Execution>, turns: seq<TurnRecord>,
                          transcript: seq<Message>)
  {
    forall e | e in executions :: exists i :: SeenIn(cb, first, turns, transcript, e, i)
  }

  lemma AllSeenNext(cb: Callbacks, first: nat, s: State, t: TurnRecord, reply: Message)
    requires |s.transcript| == first + 2 * |s.turns| && t.refused == []
    requires AllSeen(cb, first, s.executions, s.turns, s.transcript)
    ensures AllSeen(cb, first, s.executions + (t.blocked + t.done + t.refused + t.resultBlocked), s.turns + [t],
                    s.transcript + [reply, ToolResults(cb.render(t.blocked + t.done + t.resultBlocked))])
  {
    var results := t.blocked + t.done + t.resultBlocked;
    var turns, transcript := s.turns + [t], s.transcript + [reply, ToolResults(cb.render(results))];
    assert t.blocked + t.done + t.refused + t.resultBlocked == results;
    forall e | e in s.executions ensures exists i :: SeenIn(cb, first, turns, transcript, e, i) {
      var i :| SeenIn(cb, first, s.turns, s.transcript, e, i);
      assert SeenIn(cb, first, turns, transcript, e, i);
    }
    forall e | e in results ensures exists i :: SeenIn(cb, first, turns, transcript, e, i) {
      assert SeenIn(cb, first, turns, transcript, e, |s.turns|);
    }
  }

  lemma TurnSeesAll(cb: Callbacks, l: Limits, first: nat, s: State, turn: nat)
    requires TakeTurn(cb, l, s, turn).Next? && |s.transcript| == first + 2 * |s.turns|
    requires AllSeen(cb, first, s.executions, s.turns, s.transcript)
    ensures var after := TakeTurn(cb, l, s, turn).state;
            AllSeen(cb, first, after.executions, after.turns, after.transcript)
  {
    var t, shown := TurnGoesOn(cb, l, s, turn);
    AllSeenNext(cb, first, s, t, Assistant(shown));
  }

  lemma {:induction false} HeadSeesAll(cb: Callbacks, l: Limits, maxTurns: nat, start: State, heads: seq<State>,
                                       r: RunResult, end: State, k: nat)
    requires RunCourse(cb, l, maxTurns, start, heads, r, end) && k < |heads|
    requires start.turns == [] && start.executions == []
    ensures AllSeen(cb, |start.transcript|, heads[k].executions, heads[k].turns, heads[k].transcript)
  {
    if k > 0 {
      HeadSeesAll(cb, l, maxTurns, start, heads, r, end, k - 1);
      HeadShows(cb, l, maxTurns, start, heads, r, end, k - 1);
      HeadFollows(cb, l, maxTurns, start, heads, r, end, k);
      TurnSeesAll(cb, l, |start.transcript|, heads[k - 1], k - 1);
    }
  }

  /** Every execution that a run has collected when it asks the model is among those the model is shown. */
  lemma EveryExecutionIsSeen(cb: Callbacks, o: RunOptions, log: seq<seq<Call>>, k: nat)
    requires ValidOptions(o) && k < |RunHeads(cb, o, log)|
    ensures var s := RunHeads(cb, o, log)[k];
            AllSeen(cb, |o.initialMessages|, s.executions, s.turns, s.transcript)
  {
    var l, start := LimitsOf(o.loopGuard), Initial(o, log);
    var (r, end) := RunFrom(cb, l, TurnBudget(o), start, 0);
    RunTakes(cb, o, log);
    HeadSeesAll(cb, l, TurnBudget(o), start, RunHeads(cb, o, log), r, end, k);
  }
}
