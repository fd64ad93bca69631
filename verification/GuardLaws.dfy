/** The guard's answers, from the entries before an entry alone. */
module GuardLaws {
  import opened Basics
  import opened JsonValues
  import opened CallKey
  import opened LoopGuard

  // ----- counting places -----

  /** The places below `n` with `p`. */
  ghost function Places(n: nat, p: nat -> bool): set<nat> {
    set j: nat | j < n && p(j)
  }

  lemma PlacesNext(n: nat, p: nat -> bool)
    ensures |Places(n + 1, p)| == |Places(n, p)| + if p(n) then 1 else 0
  {
    assert Places(n + 1, p) == Places(n, p) + if p(n) then {n} else {};
  }

  // ----- what happened before an entry -----

  ghost predicate InspectedAt(h: seq<Entry>, j: nat) {
    j < |h| && h[j].Inspected?
  }

  ghost function InspectedBefore(h: seq<Entry>, n: nat): nat {
    |Places(n, (j: nat) => InspectedAt(h, j))|
  }

  /** An inspection with fewer than `maxCalls` before it. */
  ghost predicate Within(l: Limits, h: seq<Entry>, j: nat) {
    InspectedAt(h, j) && InspectedBefore(h, j) < l.maxCalls
  }

  /** An inspection, within the cap, of an unknown tool of this name. */
  ghost predicate UnknownAt(l: Limits, h: seq<Entry>, j: nat, tool: string) {
    Within(l, h, j) && h[j].event.known.Some? && h[j].event.tool !in h[j].event.known.value && h[j].event.tool == tool
  }

  ghost function UnknownBefore(l: Limits, h: seq<Entry>, n: nat, tool: string): nat {
    |Places(n, (j: nat) => UnknownAt(l, h, j, tool))|
  }

  ghost predicate SameCall(e: Event, key: string) {
    CallKeyOf(e.tool, if e.input.Some? then e.input.value else Obj([])) == key
  }

  /** An inspection, within the cap, of this call of a known tool. */
  ghost predicate KnownAt(l: Limits, h: seq<Entry>, j: nat, key: string) {
    Within(l, h, j) && (h[j].event.known.None? || h[j].event.tool in h[j].event.known.value) &&
    SameCall(h[j].event, key)
  }

  ghost function KnownBefore(l: Limits, h: seq<Entry>, n: nat, key: string): nat {
    |Places(n, (j: nat) => KnownAt(l, h, j, key))|
  }

  /** A failure reported of this call: a failed result, or a failed inspection that neither the cap nor
      the repeat limit refused. */
  ghost predicate FailedAt(l: Limits, h: seq<Entry>, j: nat, key: string) {
    j < |h| && h[j].event.ok == Some(false) && SameCall(h[j].event, key) &&
    (h[j].Recorded? || (KnownAt(l, h, j, key) && KnownBefore(l, h, j, key) < l.maxRepeatedCalls))
  }

  ghost function FailedBefore(l: Limits, h: seq<Entry>, n: nat, key: string): nat {
    |Places(n, (j: nat) => FailedAt(l, h, j, key))|
  }

  // ----- the guard's counts are these -----

  lemma {:induction false} TotalIs(h: seq<Entry>, n: nat)
    requires n <= |h|
    ensures Total(h[..n]) == InspectedBefore(h, n)
  {
    if n > 0 {
      TotalIs(h, n - 1);
      PlacesNext(n - 1, (j: nat) => InspectedAt(h, j));
      assert h[..n][..n - 1] == h[..n - 1];
    }
  }

  lemma InCapIs(l: Limits, h: seq<Entry>, n: nat)
    requires n < |h|
    ensures InCap(l, h[..n], h[n]) <==> Within(l, h, n)
  {
    TotalIs(h, n);
  }

  lemma CountsNext(l: Limits, h: seq<Entry>, n: nat, word: string)
    requires n < |h|
    ensures UnknownCount(l, h[..n + 1], word) ==
            UnknownCount(l, h[..n], word) + if UnknownAt(l, h, n, word) then 1 else 0
    ensures RepeatCount(l, h[..n + 1], word) ==
            RepeatCount(l, h[..n], word) + if KnownAt(l, h, n, word) then 1 else 0
  {
    InCapIs(l, h, n);
    assert h[..n + 1][..n] == h[..n] && h[..n + 1][n] == h[n];
  }

  lemma {:induction false} UnknownIs(l: Limits, h: seq<Entry>, n: nat, tool: string)
    requires n <= |h|
    ensures UnknownCount(l, h[..n], tool) == UnknownBefore(l, h, n, tool)
  {
    if n > 0 {
      UnknownIs(l, h, n - 1, tool);
      CountsNext(l, h, n - 1, tool);
      PlacesNext(n - 1, (j: nat) => UnknownAt(l, h, j, tool));
    }
  }

  lemma {:induction false} RepeatIs(l: Limits, h: seq<Entry>, n: nat, key: string)
    requires n <= |h|
    ensures RepeatCount(l, h[..n], key) == KnownBefore(l, h, n, key)
  {
    if n > 0 {
      RepeatIs(l, h, n - 1, key);
      CountsNext(l, h, n - 1, key);
      PlacesNext(n - 1, (j: nat) => KnownAt(l, h, j, key));
    }
  }

  lemma FailuresNext(l: Limits, h: seq<Entry>, n: nat, key: string)
    requires n < |h|
    ensures FailureCount(l, h[..n + 1], key) == FailureCount(l, h[..n], key) + if FailedAt(l, h, n, key) then 1 else 0
  {
    InCapIs(l, h, n);
    RepeatIs(l, h, n, key);
    assert h[..n + 1][..n] == h[..n] && h[..n + 1][n] == h[n];
  }

  lemma {:induction false} FailureIs(l: Limits, h: seq<Entry>, n: nat, key: string)
    requires n <= |h|
    ensures FailureCount(l, h[..n], key) == FailedBefore(l, h, n, key)
  {
    if n > 0 {
      FailureIs(l, h, n - 1, key);
      FailuresNext(l, h, n - 1, key);
      PlacesNext(n - 1, (j: nat) => FailedAt(l, h, j, key));
    }
  }

  /** What entry `i` is answered. An inspection is refused for the cap when there are `maxCalls`
      before it; else, of an unknown tool, when that name was inspected as often as allowed; else for
      repetition when the same call was; and any other entry is refused exactly when it reports a
      failure of a call that has failed as often as allowed. */
  lemma AnswersExactly(l: Limits, h: seq<Entry>, i: nat)
    requires i < |h|
    ensures var e := h[i].event;
            var key := CallKeyOf(e.tool, if e.input.Some? then e.input.value else Obj([]));
            var capped := h[i].Inspected? && InspectedBefore(h, i) >= l.maxCalls;
            var unknown := h[i].Inspected? && e.known.Some? && e.tool !in e.known.value;
            var repeated := h[i].Inspected? && KnownBefore(l, h, i, key) >= l.maxRepeatedCalls;
            var failing := e.ok == Some(false) && FailedBefore(l, h, i, key) >= l.maxFailedCallRepeats;
            var answer := Decide(l, h[..i], h[i]);
            && (answer == Block(MaxCallsExceeded) <==> capped)
            && (answer == Block(UnknownToolRepeat) <==>
                  !capped && unknown && UnknownBefore(l, h, i, e.tool) >= l.maxUnknownToolRepeats)
            && (answer == Block(RepeatedCallNoProgress) <==> !capped && !unknown && repeated)
            && (answer == Block(FailedCallRepeat) <==> !capped && !unknown && !repeated && failing)
  {
    var e := h[i].event;
    TotalIs(h, i);
    UnknownIs(l, h, i, e.tool);
    RepeatIs(l, h, i, KeyOf(e));
    FailureIs(l, h, i, KeyOf(e));
  }
}
