/** Tool calls, what is known about them, and the two ways a list of calls is cut up. */
module ToolCalls {
  import opened Basics
  import opened JsonValues
  import opened LoopGuard

  datatype Call = Call(key: string, input: Json)

  datatype Exhausted = ExecutionOperation | ModelToolTurn | RiskQuota

  datatype ToolResult =
    | GuardStop(reason: Reason)
    | BudgetStop(exhausted: Exhausted)
    | ToolError(message: string)
    | Payload(text: string, guardReason: Option<Reason>)

  datatype Execution = Execution(call: Call, ok: bool, result: ToolResult)

  function CallsIn(executions: seq<Execution>): seq<Call> {
    seq(|executions|, i requires 0 <= i < |executions| => executions[i].call)
  }

  datatype Descriptor = Descriptor(batchBudgetUnit: bool, concurrencySafe: bool, exclusive: bool,
                                   readOnly: bool, riskHigh: bool)

  /** The descriptor lookup: a tool may have none. */
  type Lookup = Call -> Option<Descriptor>

  /** Read-only, safe to run beside others, and not exclusive. */
  predicate CanBatch(descriptors: Lookup, call: Call) {
    var d := descriptors(call);
    d.Some? && d.value.readOnly && d.value.concurrencySafe && !d.value.exclusive
  }

  /** Shares one budget operation with the neighbours that do so too. */
  predicate SharesUnit(descriptors: Lookup, call: Call) {
    var d := descriptors(call);
    d.Some? && d.value.batchBudgetUnit
  }

  function Batchable(descriptors: Lookup): Call -> bool {
    call => CanBatch(descriptors, call)
  }

  function UnitSharing(descriptors: Lookup): Call -> bool {
    call => SharesUnit(descriptors, call)
  }

  predicate HighRisk(descriptors: Lookup, call: Call) {
    var d := descriptors(call);
    d.Some? && (d.value.riskHigh || !d.value.readOnly || d.value.exclusive)
  }

  // ----- picking out and joining -----

  /** The items marked `want`, in order. */
  function Pick<T>(items: seq<T>, marks: seq<bool>, want: bool): seq<T>
    requires |items| == |marks|
  {
    if items == [] then [] else
      var n := |items| - 1;
      Pick(items[..n], marks[..n], want) + if marks[n] == want then [items[n]] else []
  }

  lemma {:induction false} PickPartitions<T>(items: seq<T>, marks: seq<bool>)
    requires |items| == |marks|
    ensures multiset(Pick(items, marks, true)) + multiset(Pick(items, marks, false)) == multiset(items)
  {
    if items != [] {
      var n := |items| - 1;
      PickPartitions(items[..n], marks[..n]);
      assert items == items[..n] + [items[n]];
    }
  }

  lemma {:induction false} PickNothing<T>(items: seq<T>, marks: seq<bool>, want: bool)
    requires |items| == |marks|
    ensures Pick(items, marks, want) == [] <==> forall i | 0 <= i < |marks| :: marks[i] != want
  {
    if items != [] {
      var n := |items| - 1;
      var front := marks[..n];
      PickNothing(items[..n], front, want);
      assert marks == front + [marks[n]];
    }
  }

  lemma PickNext<T>(items: seq<T>, marks: seq<bool>, n: nat, want: bool)
    requires n < |items| == |marks|
    ensures Pick(items[..n + 1], marks[..n + 1], want) ==
            Pick(items[..n], marks[..n], want) + if marks[n] == want then [items[n]] else []
  {
    assert items[..n + 1][..n] == items[..n] && marks[..n + 1][..n] == marks[..n];
  }

  lemma {:induction false} PickConcat<T>(items: seq<T>, marks: seq<bool>, more: seq<T>, moreMarks: seq<bool>,
                                         want: bool)
    requires |items| == |marks| && |more| == |moreMarks|
    ensures Pick(items + more, marks + moreMarks, want) == Pick(items, marks, want) + Pick(more, moreMarks, want)
  {
    if more == [] {
      assert items + more == items && marks + moreMarks == marks;
    } else {
      var n := |more| - 1;
      PickConcat(items, marks, more[..n], moreMarks[..n], want);
      assert (items + more)[..|items| + n] == items + more[..n];
      assert (marks + moreMarks)[..|items| + n] == marks + moreMarks[..n];
    }
  }

  function All(n: nat, mark: bool): seq<bool> {
    seq(n, _ => mark)
  }

  lemma {:induction false} PickAll<T>(items: seq<T>, mark: bool)
    ensures Pick(items, All(|items|, mark), mark) == items
    ensures Pick(items, All(|items|, mark), !mark) == []
  {
    if items != [] {
      var n := |items| - 1;
      PickAll(items[..n], mark);
      assert All(|items|, mark)[..n] == All(n, mark);
    }
  }

  function Flatten<T>(groups: seq<seq<T>>): seq<T> {
    if groups == [] then [] else Flatten(groups[..|groups| - 1]) + groups[|groups| - 1]
  }

  lemma FlattenNext<T>(groups: seq<seq<T>>, group: seq<T>)
    ensures Flatten(groups + [group]) == Flatten(groups) + group
  {
    assert (groups + [group])[..|groups|] == groups;
  }

  // ----- runs of joinable calls -----

  /** Consecutive calls that join form one chunk; any other call is a chunk of its own. */
  function Chunks(calls: seq<Call>, joins: Call -> bool): seq<seq<Call>> {
    if calls == [] then [] else
      var n := |calls| - 1;
      Add(Chunks(calls[..n], joins), calls[n], joins)
  }

  /** The last chunk is a run that a further joining call extends. */
  predicate OpenEnded(chunks: seq<seq<Call>>, joins: Call -> bool) {
    chunks != [] && chunks[|chunks| - 1] != [] && joins(chunks[|chunks| - 1][0])
  }

  function Add(chunks: seq<seq<Call>>, call: Call, joins: Call -> bool): seq<seq<Call>> {
    if joins(call) && OpenEnded(chunks, joins)
    then chunks[..|chunks| - 1] + [chunks[|chunks| - 1] + [call]]
    else chunks + [[call]]
  }

  /** A chunk is a run of joining calls, or one call that does not join. */
  predicate IsChunk(chunk: seq<Call>, joins: Call -> bool) {
    chunk != [] && ((forall i | 0 <= i < |chunk| :: joins(chunk[i])) || (|chunk| == 1 && !joins(chunk[0])))
  }

  /** Chunks that give the calls back in order, none of which could be longer. */
  predicate IsChunking(chunks: seq<seq<Call>>, calls: seq<Call>, joins: Call -> bool) {
    && Flatten(chunks) == calls
    && (forall i | 0 <= i < |chunks| :: IsChunk(chunks[i], joins))
    && (forall i | 0 < i < |chunks| ::
          IsChunk(chunks[i - 1], joins) && IsChunk(chunks[i], joins) ==>
            !joins(chunks[i - 1][0]) || !joins(chunks[i][0]))
  }

  lemma {:induction false} ChunksAreChunking(calls: seq<Call>, joins: Call -> bool)
    ensures IsChunking(Chunks(calls, joins), calls, joins)
  {
    if calls != [] {
      var n := |calls| - 1;
      ChunksAreChunking(calls[..n], joins);
      AddKeepsChunking(Chunks(calls[..n], joins), calls[..n], calls[n], joins);
      assert calls == calls[..n] + [calls[n]];
    }
  }

  lemma AddKeepsChunking(chunks: seq<seq<Call>>, calls: seq<Call>, call: Call, joins: Call -> bool)
    requires IsChunking(chunks, calls, joins)
    ensures IsChunking(Add(chunks, call, joins), calls + [call], joins)
  {
    if joins(call) && OpenEnded(chunks, joins) {
      var m := |chunks|;
      assert chunks == chunks[..m - 1] + [chunks[m - 1]];
      ExtendKeepsChunking(chunks[..m - 1], chunks[m - 1], calls, call, joins);
    } else {
      AppendKeepsChunking(chunks, calls, call, joins);
    }
  }

  lemma ExtendKeepsChunking(front: seq<seq<Call>>, last: seq<Call>, calls: seq<Call>, call: Call, joins: Call -> bool)
    requires IsChunking(front + [last], calls, joins) && last != [] && joins(last[0]) && joins(call)
    ensures IsChunking(front + [last + [call]], calls + [call], joins)
  {
    var before, after := front + [last], front + [last + [call]];
    FlattenNext(front, last);
    FlattenNext(front, last + [call]);
    assert Flatten(front) + (last + [call]) == Flatten(front) + last + [call];
    assert IsChunk(before[|front|], joins) && IsChunk(last + [call], joins);
    assert forall i | 0 <= i < |front| :: after[i] == before[i];
  }

  lemma AppendKeepsChunking(chunks: seq<seq<Call>>, calls: seq<Call>, call: Call, joins: Call -> bool)
    requires IsChunking(chunks, calls, joins) && !(joins(call) && OpenEnded(chunks, joins))
    ensures IsChunking(chunks + [[call]], calls + [call], joins)
  {
    var after := chunks + [[call]];
    FlattenNext(chunks, [call]);
    assert IsChunk([call], joins);
    assert forall i | 0 <= i < |chunks| :: after[i] == chunks[i];
  }

  lemma ChunkingDropsSingle(front: seq<seq<Call>>, call: Call, calls: seq<Call>, joins: Call -> bool)
    requires IsChunking(front + [[call]], calls, joins)
    ensures calls == Flatten(front) + [call] && IsChunking(front, Flatten(front), joins)
    ensures !(joins(call) && OpenEnded(front, joins))
  {
    var all := front + [[call]];
    FlattenNext(front, [call]);
    assert forall i | 0 <= i < |front| :: all[i] == front[i];
    assert IsChunk(all[|front|], joins);
    if front != [] { assert IsChunk(all[|front| - 1], joins); }
  }

  lemma ChunkingShortens(front: seq<seq<Call>>, run: seq<Call>, call: Call, calls: seq<Call>, joins: Call -> bool)
    requires IsChunking(front + [run + [call]], calls, joins) && run != []
    ensures joins(run[0]) && joins(call)
    ensures calls == Flatten(front + [run]) + [call] && IsChunking(front + [run], Flatten(front + [run]), joins)
  {
    var all, shorter := front + [run + [call]], front + [run];
    FlattenNext(front, run + [call]);
    FlattenNext(front, run);
    assert Flatten(front) + (run + [call]) == Flatten(front) + run + [call];
    assert IsChunk(all[|front|], joins);
    assert forall i | 0 <= i <= |run| :: joins((run + [call])[i]);
    assert joins((run + [call])[|run|]);
    assert forall i | 0 <= i < |run| :: run[i] == (run + [call])[i];
    assert IsChunk(run, joins);
    assert forall i | 0 <= i < |front| :: all[i] == shorter[i];
  }

  /** There is only one such way to cut the calls up. */
  lemma {:induction false} ChunkingUnique(chunks: seq<seq<Call>>, calls: seq<Call>, joins: Call -> bool)
    requires IsChunking(chunks, calls, joins)
    ensures chunks == Chunks(calls, joins)
    decreases |calls|
  {
    if chunks != [] {
      var m := |chunks|;
      var front, last := chunks[..m - 1], chunks[m - 1];
      assert IsChunk(last, joins) && chunks == front + [last];
      var run, call := last[..|last| - 1], last[|last| - 1];
      assert last == run + [call];
      if run == [] {
        assert last == [call];
        ChunkingDropsSingle(front, call, calls, joins);
        ChunkingUnique(front, Flatten(front), joins);
        ChunksNext(Flatten(front), call, joins);
      } else {
        ChunkingShortens(front, run, call, calls, joins);
        ChunkingUnique(front + [run], Flatten(front + [run]), joins);
        ChunksNext(Flatten(front + [run]), call, joins);
        AddExtends(front, run, call, joins);
      }
    }
  }

  lemma ChunksNext(calls: seq<Call>, call: Call, joins: Call -> bool)
    ensures Chunks(calls + [call], joins) == Add(Chunks(calls, joins), call, joins)
  {
    assert (calls + [call])[..|calls|] == calls;
  }

  lemma AddExtends(front: seq<seq<Call>>, run: seq<Call>, call: Call, joins: Call -> bool)
    requires run != [] && joins(run[0]) && joins(call)
    ensures Add(front + [run], call, joins) == front + [run + [call]]
  {
    assert (front + [run])[..|front|] == front;
  }

  /** Chunks whose last one cannot be extended are kept as they are when calls are added. */
  lemma {:induction false} ClosedChunksStay(calls: seq<Call>, i: nat, joins: Call -> bool)
    requires i <= |calls| && !OpenEnded(Chunks(calls[..i], joins), joins)
    ensures Chunks(calls[..i], joins) <= Chunks(calls, joins)
    decreases |calls|
  {
    if i == |calls| {
      assert calls[..i] == calls;
    } else {
      var front := calls[..|calls| - 1];
      assert front[..i] == calls[..i];
      ClosedChunksStay(front, i, joins);
    }
  }
}
