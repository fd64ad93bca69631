/** Sending admitted calls to the tool adapter, in batches, and checking what comes back. */
module ToolScheduler {
  import opened Basics
  import opened CallKey
  import opened ToolCalls

  datatype AdapterOutcome = Returned(executions: seq<Execution>) | Threw(message: string)

  /** What the adapter does the n-th time it is used, with the batch it is given then. */
  type Execute = (nat, seq<Call>) -> AdapterOutcome

  /** The side-effect boundary: it remembers every batch it was sent. */
  class Adapter {
    const behaviour: Execute
    var log: seq<seq<Call>>

    constructor (behaviour: Execute)
      ensures this.behaviour == behaviour && log == []
    {
      this.behaviour := behaviour;
      log := [];
    }

    method Execute(calls: seq<Call>) returns (outcome: AdapterOutcome)
      modifies this
      ensures log == old(log) + [calls] && outcome == behaviour(|old(log)|, calls)
    {
      outcome := behaviour(|log|, calls);
      log := log + [calls];
    }
  }

  /** The same tool and the same input up to key order. */
  predicate SameCall(a: Call, b: Call) {
    a.key == b.key && StableJson(a.input) == StableJson(b.input)
  }

  /** The i-th result is for the i-th call: nothing missing, extra or reordered. */
  predicate Covers(calls: seq<Call>, executions: seq<Execution>) {
    |executions| == |calls| && forall i | 0 <= i < |calls| :: SameCall(executions[i].call, calls[i])
  }

  method AssertExecutionCoverage(calls: seq<Call>, executions: seq<Execution>) returns (ok: bool)
    ensures ok <==> Covers(calls, executions)
    ensures ok <==>
            && |executions| == |calls|
            && forall i | 0 <= i < |calls| ::
                 executions[i].call.key == calls[i].key &&
                 StableJson(executions[i].call.input) == StableJson(calls[i].input)
  {
    if |executions| != |calls| {
      return false;
    }
    for index := 0 to |calls|
      invariant forall i | 0 <= i < index :: SameCall(executions[i].call, calls[i])
    {
      var call, execution := calls[index], executions[index];
      if execution.call.key != call.key || StableJson(execution.call.input) != StableJson(call.input) {
        return false;
      }
    }
    return true;
  }

  function Failures(calls: seq<Call>, message: string): seq<Execution> {
    seq(|calls|, i requires 0 <= i < |calls| => Execution(calls[i], false, ToolError(message)))
  }

  /** The results of one batch; none when the adapter breaks its contract. */
  function BatchResults(calls: seq<Call>, outcome: AdapterOutcome): Option<seq<Execution>> {
    match outcome
    case Threw(message) => Some(Failures(calls, message))
    case Returned(executions) => if Covers(calls, executions) then Some(executions) else None
  }

  /** The results of batches sent in order, the first of them being use number `start`. */
  function Schedule(behaviour: Execute, start: nat, batches: seq<seq<Call>>): Option<seq<Execution>> {
    if batches == [] then Some([]) else
      var n := |batches| - 1;
      match Schedule(behaviour, start, batches[..n])
      case None => None
      case Some(done) =>
        match BatchResults(batches[n], behaviour(start + n, batches[n]))
        case None => None
        case Some(more) => Some(done + more)
  }

  lemma ScheduleNext(behaviour: Execute, start: nat, batches: seq<seq<Call>>, batch: seq<Call>)
    ensures Schedule(behaviour, start, batches + [batch]) ==
            match Schedule(behaviour, start, batches)
            case None => None
            case Some(done) =>
              match BatchResults(batch, behaviour(start + |batches|, batch))
              case None => None
              case Some(more) => Some(done + more)
  {
    assert (batches + [batch])[..|batches|] == batches;
  }

  /** The batches that the adapter is sent: all of them, or those up to the one whose results
      break the contract. */
  function Sending(behaviour: Execute, start: nat, batches: seq<seq<Call>>): (sent: seq<seq<Call>>)
    ensures sent <= batches
    ensures Schedule(behaviour, start, sent).None? <==> Schedule(behaviour, start, batches).None?
    ensures Schedule(behaviour, start, batches).Some? ==> sent == batches
  {
    if batches == [] then [] else
      var front := batches[..|batches| - 1];
      if Schedule(behaviour, start, front).None? then Sending(behaviour, start, front) else batches
  }

  /** Sending stops at the first batch whose results break the contract: none of those before it does. */
  lemma {:induction false} SendingStopsFirst(behaviour: Execute, start: nat, batches: seq<seq<Call>>, n: nat)
    requires n < |Sending(behaviour, start, batches)|
    ensures Schedule(behaviour, start, batches[..n]).Some?
    decreases |batches|
  {
    var front := batches[..|batches| - 1];
    if Schedule(behaviour, start, front).None? {
      SendingStopsFirst(behaviour, start, front, n);
      assert front[..n] == batches[..n];
    } else {
      StaysSound(behaviour, start, front, n);
      assert front[..n] == batches[..n];
    }
  }

  lemma {:induction false} StaysSound(behaviour: Execute, start: nat, batches: seq<seq<Call>>, n: nat)
    requires n <= |batches| && Schedule(behaviour, start, batches).Some?
    ensures Schedule(behaviour, start, batches[..n]).Some?
    decreases |batches|
  {
    if n < |batches| {
      var front := batches[..|batches| - 1];
      StaysSound(behaviour, start, front, n);
      assert front[..n] == batches[..n];
    } else {
      assert batches[..n] == batches;
    }
  }

  /** A batch that breaks the contract after others that kept it is the last one sent. */
  lemma {:induction false} SendingStopsAt(behaviour: Execute, start: nat, sent: seq<seq<Call>>, batch: seq<Call>,
                                          batches: seq<seq<Call>>)
    requires sent + [batch] <= batches
    requires Schedule(behaviour, start, sent).Some? && Schedule(behaviour, start, sent + [batch]).None?
    ensures Sending(behaviour, start, batches) == sent + [batch]
    decreases |batches|
  {
    var front := batches[..|batches| - 1];
    if sent + [batch] == batches {
      assert front == sent;
    } else {
      assert sent + [batch] <= front;
      SendingStopsAt(behaviour, start, sent, batch, front);
    }
  }

  method ExecuteBatch(calls: seq<Call>, adapter: Adapter) returns (results: Option<seq<Execution>>)
    modifies adapter
    ensures adapter.log == old(adapter.log) + [calls]
    ensures results == BatchResults(calls, adapter.behaviour(|old(adapter.log)|, calls))
    ensures match adapter.behaviour(|old(adapter.log)|, calls)
            case Returned(executions) =>
              results == if Covers(calls, executions) then Some(executions) else None
            case Threw(message) =>
              && results.Some? && |results.value| == |calls|
              && forall i | 0 <= i < |calls| :: results.value[i] == Execution(calls[i], false, ToolError(message))
  {
    var outcome := adapter.Execute(calls);
    if outcome.Threw? {
      return Some(Failures(calls, outcome.message));
    }
    var ok := AssertExecutionCoverage(calls, outcome.executions);
    return if ok then Some(outcome.executions) else None;
  }

  /** Several calls go out together only when all of them are read-only, safe to run beside
      others and not exclusive. */
  predicate SafeBatch(descriptors: Lookup, batch: seq<Call>) {
    |batch| >= 2 ==> forall i | 0 <= i < |batch| :: CanBatch(descriptors, batch[i])
  }

  /** The batches sent so far, and the batch still open. */
  function Pending(sent: seq<seq<Call>>, batch: seq<Call>): seq<seq<Call>> {
    sent + if batch == [] then [] else [batch]
  }

  /** The open batch is the last chunk of the calls seen so far, exactly when that chunk may grow. */
  ghost predicate Tracks(sent: seq<seq<Call>>, batch: seq<Call>, calls: seq<Call>, joins: Call -> bool) {
    Pending(sent, batch) == Chunks(calls, joins) && (batch != [] <==> OpenEnded(Chunks(calls, joins), joins))
  }

  lemma BatchNext(sent: seq<seq<Call>>, batch: seq<Call>, chunks: seq<seq<Call>>, call: Call, joins: Call -> bool)
    requires Pending(sent, batch) == chunks && (batch != [] <==> OpenEnded(chunks, joins))
    ensures Add(chunks, call, joins) ==
            if joins(call) then Pending(sent, batch + [call]) else Pending(Pending(sent, batch) + [[call]], [])
    ensures joins(call) <==> OpenEnded(Add(chunks, call, joins), joins)
  {
    if batch == [] {
      assert batch + [call] == [call];
    } else {
      assert chunks[..|chunks| - 1] == sent && chunks[|chunks| - 1] == batch;
    }
  }

  lemma TrackNext(sent: seq<seq<Call>>, batch: seq<Call>, calls: seq<Call>, i: nat, joins: Call -> bool)
    requires i < |calls| && Tracks(sent, batch, calls[..i], joins)
    ensures if joins(calls[i]) then Tracks(sent, batch + [calls[i]], calls[..i + 1], joins)
            else Tracks(Pending(sent, batch) + [[calls[i]]], [], calls[..i + 1], joins)
    ensures !joins(calls[i]) ==> Pending(sent, batch) + [[calls[i]]] <= Chunks(calls, joins)
  {
    assert calls[..i + 1][..i] == calls[..i] && calls[..i + 1][i] == calls[i];
    assert Chunks(calls[..i + 1], joins) == Add(Chunks(calls[..i], joins), calls[i], joins);
    BatchNext(sent, batch, Chunks(calls[..i], joins), calls[i], joins);
    if !joins(calls[i]) { ClosedChunksStay(calls, i + 1, joins); }
  }

  method ExecuteScheduled(calls: seq<Call>, descriptors: Lookup, adapter: Adapter)
    returns (results: Option<seq<Execution>>)
    modifies adapter
    ensures var batches := Chunks(calls, Batchable(descriptors));
            && results == Schedule(adapter.behaviour, |old(adapter.log)|, batches)
            && adapter.log == old(adapter.log) + Sending(adapter.behaviour, |old(adapter.log)|, batches)
  {
    ghost var joins := Batchable(descriptors);
    ghost var batches := Chunks(calls, joins);
    ghost var so, sent := adapter.log, [];
    var executions: seq<Execution> := [];
    var batch: seq<Call> := [];
    for i := 0 to |calls|
      invariant adapter.log == so + sent && Schedule(adapter.behaviour, |so|, sent) == Some(executions)
      invariant Tracks(sent, batch, calls[..i], joins)
    {
      TrackNext(sent, batch, calls, i, joins);
      if CanBatch(descriptors, calls[i]) {
        batch := batch + [calls[i]];
        continue;
      }
      var more := FlushThenSend(batch, calls[i], adapter, so, sent, batches, executions);
      if more.None? {
        return None;
      }
      sent, executions, batch := Pending(sent, batch) + [[calls[i]]], more.value, [];
    }
    assert calls[..|calls|] == calls;
    if batch == [] {
      assert sent == batches;
      return Some(executions);
    }
    assert sent + [batch] == batches;
    results := Send(batch, adapter, so, sent, executions);
  }

  /** Sends one more batch and appends its results to those so far. */
  method Send(batch: seq<Call>, adapter: Adapter, ghost so: seq<seq<Call>>, ghost sent: seq<seq<Call>>,
              executions: seq<Execution>)
    returns (results: Option<seq<Execution>>)
    requires adapter.log == so + sent
    requires Schedule(adapter.behaviour, |so|, sent) == Some(executions)
    modifies adapter
    ensures adapter.log == so + (sent + [batch])
    ensures results == Schedule(adapter.behaviour, |so|, sent + [batch])
  {
    ScheduleNext(adapter.behaviour, |so|, sent, batch);
    var more := ExecuteBatch(batch, adapter);
    return if more.Some? then Some(executions + more.value) else None;
  }

  /** Sends the open batch, if there is one, and then the call that could not join it. */
  method FlushThenSend(batch: seq<Call>, call: Call, adapter: Adapter, ghost so: seq<seq<Call>>,
                       ghost sent: seq<seq<Call>>, ghost batches: seq<seq<Call>>, executions: seq<Execution>)
    returns (results: Option<seq<Execution>>)
    requires adapter.log == so + sent
    requires Schedule(adapter.behaviour, |so|, sent) == Some(executions)
    requires Pending(sent, batch) + [[call]] <= batches
    modifies adapter
    ensures results.Some? ==>
              adapter.log == so + (Pending(sent, batch) + [[call]]) &&
              results == Schedule(adapter.behaviour, |so|, Pending(sent, batch) + [[call]])
    ensures results.None? ==>
              Schedule(adapter.behaviour, |so|, batches).None? &&
              adapter.log == so + Sending(adapter.behaviour, |so|, batches)
  {
    results := Some(executions);
    ghost var flushed := Pending(sent, batch);
    if batch != [] {
      results := Send(batch, adapter, so, sent, executions);
      if results.None? {
        assert sent + [batch] <= batches;
        SendingStopsAt(adapter.behaviour, |so|, sent, batch, batches);
        return;
      }
    } else {
      assert flushed == sent;
    }
    results := Send([call], adapter, so, flushed, results.value);
    if results.None? { SendingStopsAt(adapter.behaviour, |so|, flushed, [call], batches); }
  }

  // ----- the scheduler refines sending each call and getting its result -----

  lemma CoversConcat(calls: seq<Call>, executions: seq<Execution>, more: seq<Call>, results: seq<Execution>)
    requires Covers(calls, executions) && Covers(more, results)
    ensures Covers(calls + more, executions + results)
  {
  }

  lemma {:induction false} ScheduleCovers(behaviour: Execute, start: nat, batches: seq<seq<Call>>)
    requires Schedule(behaviour, start, batches).Some?
    ensures Covers(Flatten(batches), Schedule(behaviour, start, batches).value)
  {
    if batches != [] {
      var n := |batches| - 1;
      ScheduleCovers(behaviour, start, batches[..n]);
      CoversConcat(Flatten(batches[..n]), Schedule(behaviour, start, batches[..n]).value,
                   batches[n], BatchResults(batches[n], behaviour(start + n, batches[n])).value);
    }
  }

  /** Whatever the adapter does: the batches give back the call list, several calls share a
      batch only when that is safe, and on normal return the i-th result is for the i-th call. */
  lemma SchedulerRefinesCalls(calls: seq<Call>, descriptors: Lookup, behaviour: Execute, start: nat)
    ensures var batches := Chunks(calls, Batchable(descriptors));
            var results := Schedule(behaviour, start, batches);
            && Flatten(batches) == calls
            && (forall i | 0 <= i < |batches| :: batches[i] != [] && SafeBatch(descriptors, batches[i]))
            && (results.Some? ==> Covers(calls, results.value))
  {
    var joins := Batchable(descriptors);
    var batches := Chunks(calls, joins);
    ChunksAreChunking(calls, joins);
    assert forall i | 0 <= i < |batches| :: IsChunk(batches[i], joins);
    if Schedule(behaviour, start, batches).Some? {
      ScheduleCovers(behaviour, start, batches);
    }
  }

  /** A throwing adapter still yields one failed result for each call of the batch. */
  lemma ThrowIsCovered(calls: seq<Call>, message: string)
    ensures BatchResults(calls, Threw(message)).Some?
    ensures var failures := BatchResults(calls, Threw(message)).value;
            Covers(calls, failures) && forall i | 0 <= i < |failures| :: !failures[i].ok
  {
  }
}
