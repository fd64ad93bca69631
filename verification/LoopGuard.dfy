/** The executive loop guard.

    The class keeps three count maps, as the source does.  What it decides is specified from
    the history of events alone: how often something was counted before. */
module LoopGuard {
  import opened Basics
  import opened JsonValues
  import opened CallKey

  datatype Options = Options(maxCalls: Option<int>, maxFailedCallRepeats: Option<int>,
                             maxRepeatedCalls: Option<int>, maxUnknownToolRepeats: Option<int>)

  datatype Limits = Limits(maxCalls: int, maxFailedCallRepeats: int, maxRepeatedCalls: int, maxUnknownToolRepeats: int)

  datatype Reason = FailedCallRepeat | MaxCallsExceeded | RepeatedCallNoProgress | UnknownToolRepeat

  datatype Decision = Allow | Block(reason: Reason)

  datatype Event = Event(tool: string, input: Option<Json>, known: Option<set<string>>, ok: Option<bool>)

  /** What the guard has been told since it was built or reset. */
  datatype Entry = Inspected(event: Event) | Recorded(event: Event)

  function LimitsOf(options: Options): Limits {
    Limits(Or(options.maxCalls, 16), Or(options.maxFailedCallRepeats, 2),
           Or(options.maxRepeatedCalls, 3), Or(options.maxUnknownToolRepeats, 2))
  }

  function KeyOf(e: Event): string {
    CallKeyOf(e.tool, if e.input.Some? then e.input.value else Obj([]))
  }

  predicate IsUnknown(e: Event) {
    e.known.Some? && e.tool !in e.known.value
  }

  predicate Failed(e: Event) {
    e.ok == Some(false)
  }

  // ----- counting in the history -----

  /** The number of inspections. */
  function Total(h: seq<Entry>): nat {
    if h == [] then 0 else Total(h[..|h| - 1]) + if h[|h| - 1].Inspected? then 1 else 0
  }

  /** The entry, coming after `before`, is an inspection within the call cap. */
  predicate InCap(l: Limits, before: seq<Entry>, entry: Entry) {
    entry.Inspected? && Total(before) < l.maxCalls
  }

  /** Inspections within the cap of a tool of this name that was not known. */
  function UnknownCount(l: Limits, h: seq<Entry>, tool: string): nat {
    if h == [] then 0 else
      var before, entry := h[..|h| - 1], h[|h| - 1];
      UnknownCount(l, before, tool) +
      if InCap(l, before, entry) && IsUnknown(entry.event) && entry.event.tool == tool then 1 else 0
  }

  /** Inspections within the cap of this call by a known tool. */
  function RepeatCount(l: Limits, h: seq<Entry>, key: string): nat {
    if h == [] then 0 else
      var before, entry := h[..|h| - 1], h[|h| - 1];
      RepeatCount(l, before, key) +
      if InCap(l, before, entry) && !IsUnknown(entry.event) && KeyOf(entry.event) == key then 1 else 0
  }

  /** The entry reports a failure of its call: a failed result, or an inspection of a failed
      call that the call cap and the repeat limit let through. */
  predicate CountsAsFailure(l: Limits, before: seq<Entry>, entry: Entry) {
    Failed(entry.event) &&
    (entry.Inspected? ==>
       InCap(l, before, entry) && !IsUnknown(entry.event) &&
       RepeatCount(l, before, KeyOf(entry.event)) < l.maxRepeatedCalls)
  }

  function FailureCount(l: Limits, h: seq<Entry>, key: string): nat {
    if h == [] then 0 else
      var before, entry := h[..|h| - 1], h[|h| - 1];
      FailureCount(l, before, key) + if CountsAsFailure(l, before, entry) && KeyOf(entry.event) == key then 1 else 0
  }

  /** What the guard answers to an entry that comes after `before`. */
  function Decide(l: Limits, before: seq<Entry>, entry: Entry): Decision {
    var key := KeyOf(entry.event);
    if entry.Inspected? && !InCap(l, before, entry) then Block(MaxCallsExceeded)
    else if entry.Inspected? && IsUnknown(entry.event) then
      if UnknownCount(l, before, entry.event.tool) < l.maxUnknownToolRepeats then Allow else Block(UnknownToolRepeat)
    else if entry.Inspected? && RepeatCount(l, before, key) >= l.maxRepeatedCalls then Block(RepeatedCallNoProgress)
    else if Failed(entry.event) && FailureCount(l, before, key) >= l.maxFailedCallRepeats then Block(FailedCallRepeat)
    else Allow
  }

  // ----- the count maps of the source, replayed from the history -----

  function Count(m: map<string, nat>, key: string): nat {
    if key in m then m[key] else 0
  }

  function Increment(m: map<string, nat>, key: string): map<string, nat> {
    m[key := Count(m, key) + 1]
  }

  function UnknownMap(l: Limits, h: seq<Entry>): map<string, nat> {
    if h == [] then map[] else
      var before, entry := h[..|h| - 1], h[|h| - 1];
      if InCap(l, before, entry) && IsUnknown(entry.event) then Increment(UnknownMap(l, before), entry.event.tool)
      else UnknownMap(l, before)
  }

  function RepeatMap(l: Limits, h: seq<Entry>): map<string, nat> {
    if h == [] then map[] else
      var before, entry := h[..|h| - 1], h[|h| - 1];
      if InCap(l, before, entry) && !IsUnknown(entry.event) then Increment(RepeatMap(l, before), KeyOf(entry.event))
      else RepeatMap(l, before)
  }

  function FailureMap(l: Limits, h: seq<Entry>): map<string, nat> {
    if h == [] then map[] else
      var before, entry := h[..|h| - 1], h[|h| - 1];
      if CountsAsFailure(l, before, entry) then Increment(FailureMap(l, before), KeyOf(entry.event))
      else FailureMap(l, before)
  }

  lemma {:induction false} UnknownMapCounts(l: Limits, h: seq<Entry>, tool: string)
    ensures Count(UnknownMap(l, h), tool) == UnknownCount(l, h, tool)
  {
    if h != [] { UnknownMapCounts(l, h[..|h| - 1], tool); }
  }

  lemma {:induction false} RepeatMapCounts(l: Limits, h: seq<Entry>, key: string)
    ensures Count(RepeatMap(l, h), key) == RepeatCount(l, h, key)
  {
    if h != [] { RepeatMapCounts(l, h[..|h| - 1], key); }
  }

  lemma {:induction false} FailureMapCounts(l: Limits, h: seq<Entry>, key: string)
    ensures Count(FailureMap(l, h), key) == FailureCount(l, h, key)
  {
    if h != [] { FailureMapCounts(l, h[..|h| - 1], key); }
  }

  /** The counts after one entry more. */
  lemma MapsNext(l: Limits, before: seq<Entry>, entry: Entry)
    ensures Total(before + [entry]) == Total(before) + if entry.Inspected? then 1 else 0
    ensures UnknownMap(l, before + [entry]) ==
            if InCap(l, before, entry) && IsUnknown(entry.event) then Increment(UnknownMap(l, before), entry.event.tool)
            else UnknownMap(l, before)
    ensures RepeatMap(l, before + [entry]) ==
            if InCap(l, before, entry) && !IsUnknown(entry.event)
            then Increment(RepeatMap(l, before), KeyOf(entry.event))
            else RepeatMap(l, before)
    ensures FailureMap(l, before + [entry]) ==
            if CountsAsFailure(l, before, entry) then Increment(FailureMap(l, before), KeyOf(entry.event))
            else FailureMap(l, before)
  {
    var h := before + [entry];
    assert h[..|h| - 1] == before;
  }

  datatype GuardSnapshot = GuardSnapshot(totalCalls: nat, unknownToolCounts: map<string, nat>,
                                         callRepeatCounts: map<string, nat>, failedCallRepeatCounts: map<string, nat>)

  /** The counts that a guard with this history shows. */
  function GuardAt(l: Limits, h: seq<Entry>): GuardSnapshot {
    GuardSnapshot(Total(h), UnknownMap(l, h), RepeatMap(l, h), FailureMap(l, h))
  }

  // ----- the class -----

  class ExecutiveLoopGuard {
    const options: Limits
    var totalCalls: nat
    var unknownToolCounts: map<string, nat>
    var callRepeatCounts: map<string, nat>
    var failedCallRepeatCounts: map<string, nat>
    ghost var history: seq<Entry>

    ghost predicate Valid()
      reads this
    {
      && totalCalls == Total(history)
      && unknownToolCounts == UnknownMap(options, history)
      && callRepeatCounts == RepeatMap(options, history)
      && failedCallRepeatCounts == FailureMap(options, history)
    }

    constructor (options: Options)
      ensures Valid() && history == [] && this.options == LimitsOf(options)
      ensures this.options.maxCalls == if options.maxCalls.Some? then options.maxCalls.value else 16
      ensures this.options.maxFailedCallRepeats ==
              if options.maxFailedCallRepeats.Some? then options.maxFailedCallRepeats.value else 2
      ensures this.options.maxRepeatedCalls ==
              if options.maxRepeatedCalls.Some? then options.maxRepeatedCalls.value else 3
      ensures this.options.maxUnknownToolRepeats ==
              if options.maxUnknownToolRepeats.Some? then options.maxUnknownToolRepeats.value else 2
    {
      this.options := LimitsOf(options);
      totalCalls := 0;
      unknownToolCounts, callRepeatCounts, failedCallRepeatCounts := map[], map[], map[];
      history := [];
    }

    method Inspect(event: Event) returns (decision: Decision)
      requires Valid()
      modifies this
      ensures Valid()
      ensures history == old(history) + [Inspected(event)]
      ensures decision == Decide(options, old(history), Inspected(event))
    {
      ghost var before := history;
      history := history + [Inspected(event)];
      MapsNext(options, before, Inspected(event));
      UnknownMapCounts(options, before, event.tool);
      RepeatMapCounts(options, before, KeyOf(event));
      FailureMapCounts(options, before, KeyOf(event));
      totalCalls := totalCalls + 1;
      if totalCalls > options.maxCalls {
        return Block(MaxCallsExceeded);
      }
      if IsUnknown(event) {
        unknownToolCounts := Increment(unknownToolCounts, event.tool);
        var count := Count(unknownToolCounts, event.tool);
        return if count > options.maxUnknownToolRepeats then Block(UnknownToolRepeat) else Allow;
      }
      var callKey := KeyOf(event);
      callRepeatCounts := Increment(callRepeatCounts, callKey);
      if Count(callRepeatCounts, callKey) > options.maxRepeatedCalls {
        return Block(RepeatedCallNoProgress);
      }
      if Failed(event) {
        failedCallRepeatCounts := Increment(failedCallRepeatCounts, callKey);
        if Count(failedCallRepeatCounts, callKey) > options.maxFailedCallRepeats {
          return Block(FailedCallRepeat);
        }
      }
      return Allow;
    }

    method RecordResult(event: Event) returns (decision: Decision)
      requires Valid()
      modifies this
      ensures Valid()
      ensures history == old(history) + [Recorded(event)]
      ensures decision == Decide(options, old(history), Recorded(event))
    {
      ghost var before := history;
      history := history + [Recorded(event)];
      MapsNext(options, before, Recorded(event));
      if !Failed(event) {
        return Allow;
      }
      var callKey := KeyOf(event);
      FailureMapCounts(options, before, callKey);
      failedCallRepeatCounts := Increment(failedCallRepeatCounts, callKey);
      return if Count(failedCallRepeatCounts, callKey) > options.maxFailedCallRepeats
        then Block(FailedCallRepeat) else Allow;
    }

    function Snapshot(): (s: GuardSnapshot)
      requires Valid()
      reads this
      ensures s == GuardAt(options, history)
    {
      GuardSnapshot(totalCalls, unknownToolCounts, callRepeatCounts, failedCallRepeatCounts)
    }

    method Reset()
      modifies this
      ensures Valid() && history == []
    {
      totalCalls := 0;
      unknownToolCounts, callRepeatCounts, failedCallRepeatCounts := map[], map[], map[];
      history := [];
    }
  }

  // ----- accounting -----

  function Min(a: nat, b: int): nat {
    if b < 0 then 0 else if a < b then a else b
  }

  ghost function Sum(m: map<string, nat>): nat {
    if m == map[] then 0 else
      var key :| key in m;
      m[key] + Sum(m - {key})
  }

  lemma {:induction false} SumWithout(m: map<string, nat>, key: string)
    requires key in m
    ensures Sum(m) == m[key] + Sum(m - {key})
    decreases |m|
  {
    var first :| first in m && Sum(m) == m[first] + Sum(m - {first});
    if first != key {
      SumWithout(m - {first}, key);
      SumWithout(m - {key}, first);
      assert m - {first} - {key} == m - {key} - {first};
    }
  }

  lemma SumIncrement(m: map<string, nat>, key: string)
    ensures Sum(m[key := Count(m, key) + 1]) == Sum(m) + 1
  {
    var more := m[key := Count(m, key) + 1];
    SumWithout(more, key);
    if key in m {
      SumWithout(m, key);
      assert more - {key} == m - {key};
    } else {
      assert more - {key} == m;
    }
  }

  /** Every inspection within the cap is counted once, as a repeat or as an unknown tool. */
  lemma {:induction false} Accounting(l: Limits, h: seq<Entry>)
    ensures Sum(RepeatMap(l, h)) + Sum(UnknownMap(l, h)) == Min(Total(h), l.maxCalls)
  {
    if h != [] {
      var before, entry := h[..|h| - 1], h[|h| - 1];
      Accounting(l, before);
      assert h == before + [entry];
      MapsNext(l, before, entry);
      SumIncrement(RepeatMap(l, before), KeyOf(entry.event));
      SumIncrement(UnknownMap(l, before), entry.event.tool);
    }
  }

  /** Once an inspection exceeds the cap, every later inspection is refused, whatever comes between. */
  lemma CapIsFinal(l: Limits, before: seq<Entry>, later: seq<Entry>, entry: Entry)
    requires entry.Inspected? && Total(before) >= l.maxCalls
    ensures Decide(l, before + later, entry) == Block(MaxCallsExceeded)
    decreases |later|
  {
    if later == [] {
      assert before + later == before;
    } else {
      var front := later[..|later| - 1];
      CapIsFinal(l, before, front, entry);
      assert (before + later)[..|before + later| - 1] == before + front;
    }
  }

  // ----- the limits, over any history -----

  datatype Subject = AnyCall | KnownCall(key: string) | UnknownTool(tool: string)

  predicate About(subject: Subject, e: Event) {
    match subject
    case AnyCall => true
    case KnownCall(key) => !IsUnknown(e) && KeyOf(e) == key
    case UnknownTool(tool) => IsUnknown(e) && e.tool == tool
  }

  /** How many inspections about the subject the guard let through. */
  function Allowed(l: Limits, h: seq<Entry>, subject: Subject): nat {
    if h == [] then 0 else
      var before, entry := h[..|h| - 1], h[|h| - 1];
      Allowed(l, before, subject) +
      if entry.Inspected? && About(subject, entry.event) && Decide(l, before, entry) == Allow then 1 else 0
  }

  /** No inspection reports a failed call; no inspection of a run does. */
  ghost predicate NoFailedInspection(h: seq<Entry>) {
    forall i | 0 <= i < |h| && h[i].Inspected? :: !Failed(h[i].event)
  }

  /** No call and no unknown tool name has been inspected more often than allowed. */
  ghost predicate OnlyCapReached(l: Limits, h: seq<Entry>) {
    NoFailedInspection(h) && (forall key :: RepeatCount(l, h, key) <= l.maxRepeatedCalls) &&
    forall tool :: UnknownCount(l, h, tool) <= l.maxUnknownToolRepeats
  }

  lemma FrontOnlyCap(l: Limits, h: seq<Entry>)
    requires h != [] && OnlyCapReached(l, h)
    ensures OnlyCapReached(l, h[..|h| - 1])
  {
    var before := h[..|h| - 1];
    forall key ensures RepeatCount(l, before, key) <= l.maxRepeatedCalls {
      assert RepeatCount(l, before, key) <= RepeatCount(l, h, key);
    }
    forall tool ensures UnknownCount(l, before, tool) <= l.maxUnknownToolRepeats {
      assert UnknownCount(l, before, tool) <= UnknownCount(l, h, tool);
    }
  }

  /** With nothing but the cap reached, the last inspection is let through exactly within the cap. */
  lemma LastWithinCap(l: Limits, h: seq<Entry>)
    requires h != [] && h[|h| - 1].Inspected? && OnlyCapReached(l, h)
    ensures Decide(l, h[..|h| - 1], h[|h| - 1]) == Allow <==> Total(h[..|h| - 1]) < l.maxCalls
  {
    var entry := h[|h| - 1];
    assert !Failed(entry.event);
    assert RepeatCount(l, h, KeyOf(entry.event)) <= l.maxRepeatedCalls;
    assert UnknownCount(l, h, entry.event.tool) <= l.maxUnknownToolRepeats;
  }

  /** No more inspections are let through than the cap allows, and while no other limit is passed, no
      fewer. */
  lemma {:induction false} AllowedTotal(l: Limits, h: seq<Entry>)
    ensures Allowed(l, h, AnyCall) <= Min(Total(h), l.maxCalls)
    ensures OnlyCapReached(l, h) ==> Allowed(l, h, AnyCall) == Min(Total(h), l.maxCalls)
  {
    if h != [] {
      AllowedTotal(l, h[..|h| - 1]);
      if OnlyCapReached(l, h) {
        FrontOnlyCap(l, h);
        if h[|h| - 1].Inspected? { LastWithinCap(l, h); }
      }
    }
  }

  /** At most `maxRepeatedCalls` inspections of one call by a known tool are let through, and unless an
      inspection reports a failure, all up to that number. */
  lemma {:induction false} AllowedRepeats(l: Limits, h: seq<Entry>, key: string)
    ensures Allowed(l, h, KnownCall(key)) <= Min(RepeatCount(l, h, key), l.maxRepeatedCalls)
    ensures NoFailedInspection(h) ==> Allowed(l, h, KnownCall(key)) == Min(RepeatCount(l, h, key), l.maxRepeatedCalls)
  {
    if h != [] {
      AllowedRepeats(l, h[..|h| - 1], key);
      assert NoFailedInspection(h) ==> !h[|h| - 1].Inspected? || !Failed(h[|h| - 1].event);
    }
  }

  /** Of the inspections of an unknown tool name within the cap exactly the first
      `maxUnknownToolRepeats` are let through. */
  lemma {:induction false} AllowedUnknown(l: Limits, h: seq<Entry>, tool: string)
    ensures Allowed(l, h, UnknownTool(tool)) == Min(UnknownCount(l, h, tool), l.maxUnknownToolRepeats)
  {
    if h != [] { AllowedUnknown(l, h[..|h| - 1], tool); }
  }

  /** Every entry that reports a failure was answered with `Allow`. */
  ghost predicate NoFailureBlocked(l: Limits, h: seq<Entry>) {
    forall i | 0 <= i < |h| && Failed(h[i].event) :: Decide(l, h[..i], h[i]) == Allow
  }

  /** While no failure has been blocked, no call has more recorded failures than allowed. */
  lemma {:induction false} FailuresWithinLimit(l: Limits, h: seq<Entry>, key: string)
    requires NoFailureBlocked(l, h)
    ensures FailureCount(l, h, key) <= Max0(l.maxFailedCallRepeats)
  {
    if h != [] {
      var before := h[..|h| - 1];
      forall i | 0 <= i < |before| && Failed(before[i].event) ensures Decide(l, before[..i], before[i]) == Allow {
        assert before[..i] == h[..i];
      }
      FailuresWithinLimit(l, before, key);
    }
  }
}
