/** What comes back from the adapter, batch by batch, and which calls share a batch or a budget unit. */
module ScheduleLaws {
  import opened Basics
  import opened JsonValues
  import opened CallKey
  import opened ToolCalls
  import opened ToolBudget
  import opened ToolScheduler

  // ----- results -----

  /** This result is for this call: the same tool, and an input with the same canonical text. */
  ghost predicate IsFor(execution: Execution, call: Call) {
    execution.call.key == call.key && StableJson(execution.call.input) == StableJson(call.input)
  }

  /** That is the same tool and the same input up to key order. */
  lemma IsForIff(execution: Execution, call: Call)
    requires WellFormed(execution.call.input) && WellFormed(call.input)
    ensures IsFor(execution, call) <==>
            execution.call.key == call.key && Meaning(execution.call.input) == Meaning(call.input)
  {
    StableJsonIsCanonical(execution.call.input, call.input);
  }

  /** What a batch is answered: the adapter's own list, with one result for each call in order, or
      when it threw a failed result for each call that carries the message. */
  ghost predicate IsAnswer(batch: seq<Call>, outcome: AdapterOutcome, answer: seq<Execution>) {
    && |answer| == |batch|
    && match outcome
       case Returned(executions) => answer == executions && forall j | 0 <= j < |batch| :: IsFor(answer[j], batch[j])
       case Threw(message) => forall j | 0 <= j < |batch| :: answer[j] == Execution(batch[j], false, ToolError(message))
  }

  ghost predicate AreAnswers(behaviour: Execute, start: nat, batches: seq<seq<Call>>, answers: seq<seq<Execution>>) {
    && |answers| == |batches|
    && forall i | 0 <= i < |batches| :: IsAnswer(batches[i], behaviour(start + i, batches[i]), answers[i])
  }

  /** Results cover the calls exactly when they are for them one by one. */
  lemma CoversIff(calls: seq<Call>, executions: seq<Execution>)
    ensures Covers(calls, executions) <==>
            |executions| == |calls| && forall i | 0 <= i < |calls| :: IsFor(executions[i], calls[i])
  {
    if |executions| == |calls| {
      assert forall i | 0 <= i < |calls| :: SameCall(executions[i].call, calls[i]) <==> IsFor(executions[i], calls[i]);
    }
  }

  lemma BatchIsAnswered(batch: seq<Call>, outcome: AdapterOutcome, answer: seq<Execution>)
    ensures BatchResults(batch, outcome) == Some(answer) <==> IsAnswer(batch, outcome, answer)
  {
    match outcome
    case Returned(executions) => CoversIff(batch, executions);
    case Threw(message) =>
      var failures := BatchResults(batch, outcome).value;
      if IsAnswer(batch, outcome, answer) { assert answer == failures; }
  }

  lemma AnswersNext(behaviour: Execute, start: nat, batches: seq<seq<Call>>, batch: seq<Call>,
                    answers: seq<seq<Execution>>, answer: seq<Execution>)
    requires AreAnswers(behaviour, start, batches, answers)
    requires IsAnswer(batch, behaviour(start + |batches|, batch), answer)
    ensures AreAnswers(behaviour, start, batches + [batch], answers + [answer])
  {
  }

  lemma AnswersFront(behaviour: Execute, start: nat, batches: seq<seq<Call>>, answers: seq<seq<Execution>>)
    requires AreAnswers(behaviour, start, batches, answers) && batches != []
    ensures var n := |batches| - 1;
            && AreAnswers(behaviour, start, batches[..n], answers[..n])
            && IsAnswer(batches[n], behaviour(start + n, batches[n]), answers[n])
            && Flatten(answers) == Flatten(answers[..n]) + answers[n]
  {
  }

  /** When every use of the adapter is answered, the results are exactly these answers, use by use. */
  lemma {:induction false} AnswersAreResults(behaviour: Execute, start: nat, batches: seq<seq<Call>>,
                                             answers: seq<seq<Execution>>)
    requires AreAnswers(behaviour, start, batches, answers)
    ensures Schedule(behaviour, start, batches) == Some(Flatten(answers))
  {
    if batches != [] {
      var n := |batches| - 1;
      AnswersFront(behaviour, start, batches, answers);
      AnswersAreResults(behaviour, start, batches[..n], answers[..n]);
      BatchIsAnswered(batches[n], behaviour(start + n, batches[n]), answers[n]);
    }
  }

  /** And there are results only when every use is answered. */
  lemma {:induction false} ResultsAreAnswers(behaviour: Execute, start: nat, batches: seq<seq<Call>>)
    returns (answers: seq<seq<Execution>>)
    requires Schedule(behaviour, start, batches).Some?
    ensures AreAnswers(behaviour, start, batches, answers)
    ensures Schedule(behaviour, start, batches).value == Flatten(answers)
  {
    if batches == [] {
      answers := [];
    } else {
      var n := |batches| - 1;
      var front := ResultsAreAnswers(behaviour, start, batches[..n]);
      var last := BatchResults(batches[n], behaviour(start + n, batches[n])).value;
      BatchIsAnswered(batches[n], behaviour(start + n, batches[n]), last);
      answers := front + [last];
      AnswersNext(behaviour, start, batches[..n], batches[n], front, last);
      FlattenNext(front, last);
      assert batches == batches[..n] + [batches[n]];
    }
  }

  /** The place of call `j` of batch `i` among all calls. */
  ghost function Place<T>(lists: seq<seq<T>>, i: nat, j: nat): nat
    requires i < |lists|
  {
    |Flatten(lists[..i])| + j
  }

  lemma {:induction false} FlattenAt<T>(lists: seq<seq<T>>, i: nat, j: nat)
    requires i < |lists| && j < |lists[i]|
    ensures Place(lists, i, j) < |Flatten(lists)| && Flatten(lists)[Place(lists, i, j)] == lists[i][j]
  {
    var n := |lists| - 1;
    if i < n {
      FlattenAt(lists[..n], i, j);
      assert lists[..n][..i] == lists[..i];
    }
  }

  lemma {:induction false} SameLengths<S, T>(a: seq<seq<S>>, b: seq<seq<T>>)
    requires |a| == |b| && forall i | 0 <= i < |a| :: |a[i]| == |b[i]|
    ensures |Flatten(a)| == |Flatten(b)|
  {
    if a != [] { SameLengths(a[..|a| - 1], b[..|b| - 1]); }
  }

  /** The result of every call is the adapter's own element where its batch returned, and the failure
      record of the call where its batch threw. */
  lemma ResultAt(behaviour: Execute, start: nat, batches: seq<seq<Call>>, i: nat, j: nat)
    requires Schedule(behaviour, start, batches).Some?
    requires i < |batches| && j < |batches[i]|
    ensures var results := Schedule(behaviour, start, batches).value;
            var at := Place(batches, i, j);
            && |results| == |Flatten(batches)| && at < |results|
            && match behaviour(start + i, batches[i])
               case Returned(executions) => |executions| == |batches[i]| && results[at] == executions[j]
               case Threw(message) => results[at] == Execution(batches[i][j], false, ToolError(message))
  {
    var answers := ResultsAreAnswers(behaviour, start, batches);
    assert IsAnswer(batches[i], behaviour(start + i, batches[i]), answers[i]);
    SameLengths(batches, answers);
    SameLengths(batches[..i], answers[..i]);
    FlattenAt(batches, i, j);
    FlattenAt(answers, i, j);
  }

  // ----- which calls go together -----

  /** Read-only, safe to run beside others and not exclusive. */
  ghost predicate MayShareBatch(descriptor: Option<Descriptor>) {
    descriptor.Some? && descriptor.value.readOnly && descriptor.value.concurrencySafe && !descriptor.value.exclusive
  }

  /** Two consecutive calls stand in one list of a cut. */
  ghost predicate Together<T>(lists: seq<seq<T>>, k: nat) {
    exists i, j :: 0 <= i < |lists| && 0 < j < |lists[i]| && Place(lists, i, j) == k
  }

  lemma PlaceNext<T>(lists: seq<seq<T>>, list: seq<T>, i: nat, j: nat)
    requires i < |lists|
    ensures Place(lists + [list], i, j) == Place(lists, i, j)
  {
    assert (lists + [list])[..i] == lists[..i];
  }

  lemma TogetherIn<T>(lists: seq<seq<T>>, list: seq<T>, k: nat)
    ensures Together(lists + [list], k) <==>
            Together(lists, k) || |Flatten(lists)| < k < |Flatten(lists)| + |list|
  {
    var all := lists + [list];
    var n := |lists|;
    assert all[..n] == lists;
    if Together(lists, k) {
      var i, j :| 0 <= i < |lists| && 0 < j < |lists[i]| && Place(lists, i, j) == k;
      PlaceNext(lists, list, i, j);
      assert 0 <= i < |all| && 0 < j < |all[i]| && Place(all, i, j) == k;
    }
    if |Flatten(lists)| < k < |Flatten(lists)| + |list| {
      assert 0 < k - |Flatten(lists)| < |all[n]| && Place(all, n, k - |Flatten(lists)|) == k;
    }
    if Together(all, k) {
      var i, j :| 0 <= i < |all| && 0 < j < |all[i]| && Place(all, i, j) == k;
      if i < n {
        PlaceNext(lists, list, i, j);
        assert 0 <= i < |lists| && 0 < j < |lists[i]| && Place(lists, i, j) == k;
      }
    }
  }

  lemma {:induction false} TogetherInside<T>(lists: seq<seq<T>>, k: nat)
    requires Together(lists, k)
    ensures k < |Flatten(lists)|
  {
    var i, j :| 0 <= i < |lists| && 0 < j < |lists[i]| && Place(lists, i, j) == k;
    FlattenAt(lists, i, j);
  }

  /** Two consecutive calls are in one chunk exactly when both join. */
  lemma {:induction false} TogetherIff(calls: seq<Call>, joins: Call -> bool, k: nat)
    requires 0 < k < |calls|
    ensures Together(Chunks(calls, joins), k) <==> joins(calls[k - 1]) && joins(calls[k])
  {
    var n := |calls| - 1;
    var front, chunks := calls[..n], Chunks(calls[..n], joins);
    ChunksAreChunking(front, joins);
    LastOfChunks(chunks, front, joins);
    TogetherNext(chunks, calls[n], joins, k);
    if k < n { TogetherIff(front, joins, k); }
  }

  /** One more call stands with the last one exactly when both join. */
  lemma TogetherNext(chunks: seq<seq<Call>>, call: Call, joins: Call -> bool, k: nat)
    requires 0 < k <= |Flatten(chunks)|
    ensures Together(Add(chunks, call, joins), k) <==>
            if k < |Flatten(chunks)| then Together(chunks, k) else joins(call) && OpenEnded(chunks, joins)
  {
    if Together(chunks, k) { TogetherInside(chunks, k); }
    if joins(call) && OpenEnded(chunks, joins) {
      var m := |chunks| - 1;
      assert chunks == chunks[..m] + [chunks[m]];
      TogetherIn(chunks[..m], chunks[m], k);
      TogetherIn(chunks[..m], chunks[m] + [call], k);
    } else {
      TogetherIn(chunks, [call], k);
    }
  }

  /** The last chunk is open-ended exactly when the last call joins. */
  lemma LastOfChunks(chunks: seq<seq<Call>>, calls: seq<Call>, joins: Call -> bool)
    requires IsChunking(chunks, calls, joins) && calls != []
    ensures OpenEnded(chunks, joins) <==> joins(calls[|calls| - 1])
  {
    var last := chunks[|chunks| - 1];
    assert IsChunk(last, joins);
    assert calls[|calls| - 1] == last[|last| - 1];
  }

  /** Two consecutive calls are sent in one batch exactly when both are read-only, safe to run beside
      others and not exclusive. */
  lemma SentTogetherIff(calls: seq<Call>, descriptors: Lookup, k: nat)
    requires 0 < k < |calls|
    ensures Together(Chunks(calls, Batchable(descriptors)), k) <==>
            MayShareBatch(descriptors(calls[k - 1])) && MayShareBatch(descriptors(calls[k]))
  {
    TogetherIff(calls, Batchable(descriptors), k);
  }

  /** Two consecutive calls are charged as one operation exactly when both declare the batch as their
      budget unit. */
  lemma ChargedTogetherIff(calls: seq<Call>, descriptors: Lookup, k: nat)
    requires 0 < k < |calls|
    ensures Together(CallsOf(Units(descriptors, Chunks(calls, UnitSharing(descriptors)))), k) <==>
            (descriptors(calls[k - 1]).Some? && descriptors(calls[k - 1]).value.batchBudgetUnit) &&
            (descriptors(calls[k]).Some? && descriptors(calls[k]).value.batchBudgetUnit)
  {
    TogetherIff(calls, UnitSharing(descriptors), k);
    var chunks := Chunks(calls, UnitSharing(descriptors));
    assert CallsOf(Units(descriptors, chunks)) == chunks;
  }

  /** A group is of high risk exactly when one of its calls is declared so, is no read-only one or is
      exclusive. */
  lemma GroupRiskIff(descriptors: Lookup, chunks: seq<seq<Call>>, i: nat)
    requires i < |chunks|
    ensures Units(descriptors, chunks)[i].calls == chunks[i]
    ensures Units(descriptors, chunks)[i].highRisk <==>
            exists call :: call in chunks[i] && descriptors(call).Some? &&
              var d := descriptors(call).value; d.riskHigh || !d.readOnly || d.exclusive
  {
    var chunk := chunks[i];
    if Units(descriptors, chunks)[i].highRisk {
      var j :| 0 <= j < |chunk| && HighRisk(descriptors, chunk[j]);
      assert chunk[j] in chunk;
    }
    if call :| call in chunk && HighRisk(descriptors, call) {
      var j :| 0 <= j < |chunk| && chunk[j] == call;
      assert HighRisk(descriptors, chunk[j]);
    }
  }
}
