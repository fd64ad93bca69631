/** The socket read cache: least-recently-used eviction and a time to live, on a `Map` in
    insertion order. */
module ReadCache {
  import opened Basics
  import opened OrderedMap

  datatype Entry<V> = Entry(expiresAt: int, value: V)

  datatype Op<V> = GetOp(key: string, now: int) | SetOp(key: string, value: V, now: int) | ClearOp

  type Table<V> = seq<Slot<Entry<V>>>

  // ----- the operations on the table -----

  /** What `get` returns. */
  function HitOf<V>(t: Table<V>, key: string, now: int): Option<V> {
    match Get(t, key)
    case None => None
    case Some(entry) => if entry.expiresAt <= now then None else Some(entry.value)
  }

  function AfterGet<V>(t: Table<V>, key: string, now: int): Table<V> {
    match Get(t, key)
    case None => t
    case Some(entry) =>
      if entry.expiresAt <= now then Delete(t, key) else Delete(t, key) + [Slot(key, entry)]
  }

  /** The table with room for one more entry: the key's old one, or else the oldest, is gone. */
  function MakeRoom<V>(maxEntries: int, t: Table<V>, key: string): Table<V> {
    if Has(t, key) then Delete(t, key)
    else if |t| >= maxEntries && t != [] then Delete(t, t[0].key)
    else t
  }

  function AfterSet<V>(maxEntries: int, ttlMs: int, t: Table<V>, key: string, value: V, now: int): Table<V> {
    if maxEntries <= 0 then t
    else MakeRoom(maxEntries, t, key) + [Slot(key, Entry(now + ttlMs, value))]
  }

  function After<V>(maxEntries: int, ttlMs: int, t: Table<V>, op: Op<V>): Table<V> {
    match op
    case GetOp(key, now) => AfterGet(t, key, now)
    case SetOp(key, value, now) => AfterSet(maxEntries, ttlMs, t, key, value, now)
    case ClearOp => []
  }

  /** The table after a sequence of operations on a given one. */
  function RunOn<V>(maxEntries: int, ttlMs: int, t: Table<V>, ops: seq<Op<V>>): Table<V> {
    if ops == [] then t else
      After(maxEntries, ttlMs, RunOn(maxEntries, ttlMs, t, ops[..|ops| - 1]), ops[|ops| - 1])
  }

  /** The table after a sequence of operations on a new cache. */
  function Run<V>(maxEntries: int, ttlMs: int, ops: seq<Op<V>>): Table<V> {
    RunOn(maxEntries, ttlMs, [], ops)
  }

  datatype Stats = Stats(entries: nat, hits: nat, misses: nat, invalidations: nat, ttlMs: int)

  class SocketReadCache<V> {
    const maxEntries: int
    const ttlMs: int
    var entries: Table<V>
    var hits: nat
    var misses: nat
    var invalidations: nat

    constructor (maxEntries: int, ttlMs: int)
      ensures entries == [] && this.maxEntries == maxEntries && this.ttlMs == ttlMs
      ensures hits == misses == invalidations == 0
    {
      this.maxEntries, this.ttlMs := maxEntries, ttlMs;
      entries := [];
      hits, misses, invalidations := 0, 0, 0;
    }

    method Get(key: string, now: int) returns (r: Option<V>)
      requires Distinct(entries)
      modifies this
      ensures r == HitOf(old(entries), key, now)
      ensures entries == AfterGet(old(entries), key, now)
      ensures invalidations == old(invalidations)
      ensures if r.Some? then hits == old(hits) + 1 && misses == old(misses)
              else hits == old(hits) && misses == old(misses) + 1
    {
      var entry := OrderedMap.Get(entries, key);
      if entry.None? {
        misses := misses + 1;
        return None;
      }
      if entry.value.expiresAt <= now {
        entries := Delete(entries, key);
        misses := misses + 1;
        return None;
      }
      entries := Delete(entries, key);
      DeleteKeeps(old(entries), key);
      entries := OrderedMap.Set(entries, key, entry.value);
      hits := hits + 1;
      return Some(entry.value.value);
    }

    method Set(key: string, value: V, now: int)
      requires Distinct(entries)
      modifies this
      ensures entries == AfterSet(maxEntries, ttlMs, old(entries), key, value, now)
      ensures hits == old(hits) && misses == old(misses) && invalidations == old(invalidations)
    {
      if maxEntries <= 0 {
        return;
      }
      RoomIsFree(maxEntries, entries, key);
      if Has(entries, key) {
        entries := Delete(entries, key);
      } else if |entries| >= maxEntries {
        entries := Delete(entries, entries[0].key);
      }
      entries := OrderedMap.Set(entries, key, Entry(now + ttlMs, value));
    }

    method Clear()
      modifies this
      ensures entries == []
      ensures invalidations == old(invalidations) + if |old(entries)| > 0 then 1 else 0
      ensures hits == old(hits) && misses == old(misses)
    {
      if |entries| > 0 {
        invalidations := invalidations + 1;
      }
      entries := [];
    }

    method GetStats() returns (stats: Stats)
      ensures stats == Stats(|entries|, hits, misses, invalidations, ttlMs)
    {
      stats := Stats(|entries|, hits, misses, invalidations, ttlMs);
    }
  }

  // ----- the table stays well formed and small -----

  lemma RoomIsFree<V>(maxEntries: int, t: Table<V>, key: string)
    requires Distinct(t) && maxEntries > 0
    ensures var r := MakeRoom(maxEntries, t, key);
            && Distinct(r) && !Has(r, key)
            && (|t| <= maxEntries ==> |r| < maxEntries)
            && forall i | 0 <= i < |r| :: r[i] in t
  {
    if Has(t, key) {
      DeleteKeeps(t, key);
      DeleteDistinct(t, key);
    } else if |t| >= maxEntries {
      var oldest := t[0].key;
      DeleteKeeps(t, oldest);
      DeleteDistinct(t, oldest);
      assert Has(t, oldest);
      var r := Delete(t, oldest);
      forall i | 0 <= i < |r| ensures r[i].key != key {
        assert r[i] in t;
        var j :| 0 <= j < |t| && t[j] == r[i];
      }
    }
  }

  /** A read of a key at place `q`: an expired entry is taken out and not returned; any other is returned and
      moves to the end. */
  lemma GetFinds<V>(t: Table<V>, q: nat, now: int)
    requires Distinct(t) && q < |t|
    ensures var key, expired := t[q].key, t[q].value.expiresAt <= now;
            && HitOf(t, key, now) == (if expired then None else Some(t[q].value.value))
            && AfterGet(t, key, now) == t[..q] + t[q + 1..] + if expired then [] else [t[q]]
  {
    GetIs(t, t[q]);
    DeleteAt(t, q);
  }

  /** A read of any other key changes nothing. */
  lemma GetMisses<V>(t: Table<V>, key: string, now: int)
    requires forall i | 0 <= i < |t| :: t[i].key != key
    ensures HitOf(t, key, now) == None && AfterGet(t, key, now) == t
  {
    assert !Has(t, key);
  }

  /** A write of a key at place `q` takes the old entry out. */
  lemma SetReplaces<V>(maxEntries: int, ttlMs: int, t: Table<V>, q: nat, value: V, now: int)
    requires Distinct(t) && q < |t| && maxEntries > 0
    ensures var key := t[q].key;
            AfterSet(maxEntries, ttlMs, t, key, value, now) ==
            t[..q] + t[q + 1..] + [Slot(key, Entry(now + ttlMs, value))]
  {
    DeleteAt(t, q);
    assert Has(t, t[q].key);
  }

  /** A write of another key takes the oldest entry out when the table is full. */
  lemma SetAdds<V>(maxEntries: int, ttlMs: int, t: Table<V>, key: string, value: V, now: int)
    requires Distinct(t) && !Has(t, key) && maxEntries > 0
    ensures AfterSet(maxEntries, ttlMs, t, key, value, now) ==
            (if |t| < maxEntries then t else t[1..]) + [Slot(key, Entry(now + ttlMs, value))]
  {
    if |t| >= maxEntries { OldestGoes(t); }
  }

  lemma OldestGoes<V>(t: Table<V>)
    requires Distinct(t) && t != []
    ensures Delete(t, t[0].key) == t[1..]
  {
    DeleteAt(t, 0);
    assert t[..0] + t[0 + 1..] == t[1..];
  }

  /** The cache never holds two entries for a key, nor more entries than allowed. */
  lemma {:induction false} RunFits<V>(maxEntries: int, ttlMs: int, ops: seq<Op<V>>)
    ensures var t := Run(maxEntries, ttlMs, ops);
            Distinct(t) && |t| <= if maxEntries < 0 then 0 else maxEntries
  {
    if ops != [] {
      var t, op := Run(maxEntries, ttlMs, ops[..|ops| - 1]), ops[|ops| - 1];
      RunFits(maxEntries, ttlMs, ops[..|ops| - 1]);
      if op.GetOp? {
        DeleteKeeps(t, op.key);
        DeleteDistinct(t, op.key);
        if Has(t, op.key) {
          AppendDistinct(Delete(t, op.key), Slot(op.key, Get(t, op.key).value));
        }
      } else if op.SetOp? && maxEntries > 0 {
        RoomIsFree(maxEntries, t, op.key);
        AppendDistinct(MakeRoom(maxEntries, t, op.key), Slot(op.key, Entry(op.now + ttlMs, op.value)));
      }
    }
  }

  // ----- what a hit returns -----

  /** The latest value set for the key since the last clear, and when. */
  function LatestSet<V>(ops: seq<Op<V>>, key: string): Option<(V, int)> {
    if ops == [] then None else
      match ops[|ops| - 1]
      case ClearOp => None
      case SetOp(k, value, now) => if k == key then Some((value, now)) else LatestSet(ops[..|ops| - 1], key)
      case GetOp(_, _) => LatestSet(ops[..|ops| - 1], key)
  }

  /** Every entry is that of the latest set of its key since the last clear. */
  lemma {:induction false} EntriesAreLatest<V>(maxEntries: int, ttlMs: int, ops: seq<Op<V>>, i: nat)
    requires i < |Run(maxEntries, ttlMs, ops)|
    ensures var slot := Run(maxEntries, ttlMs, ops)[i];
            var latest := LatestSet(ops, slot.key);
            latest.Some? && slot.value == Entry(latest.value.1 + ttlMs, latest.value.0)
  {
    var before := ops[..|ops| - 1];
    var t, op := Run(maxEntries, ttlMs, before), ops[|ops| - 1];
    var r := Run(maxEntries, ttlMs, ops);
    RunFits(maxEntries, ttlMs, before);
    if op.GetOp? {
      DeleteKeeps(t, op.key);
      assert r[i] in t;
      var j :| 0 <= j < |t| && t[j] == r[i];
      EntriesAreLatest(maxEntries, ttlMs, before, j);
    } else if op.SetOp? {
      if maxEntries <= 0 {
        assert false;
      } else {
        var room := MakeRoom(maxEntries, t, op.key);
        RoomIsFree(maxEntries, t, op.key);
        if i < |room| {
          assert room[i].key != op.key;
          var j :| 0 <= j < |t| && t[j] == r[i];
          EntriesAreLatest(maxEntries, ttlMs, before, j);
        }
      }
    }
  }

  /** A hit returns the value of the latest set for that key since the last clear, and that set
      is less than the time to live ago. */
  lemma HitIsLatestAndFresh<V>(maxEntries: int, ttlMs: int, ops: seq<Op<V>>, key: string, now: int)
    ensures var hit := HitOf(Run(maxEntries, ttlMs, ops), key, now);
            var latest := LatestSet(ops, key);
            hit.Some? ==> latest.Some? && hit.value == latest.value.0 && now < latest.value.1 + ttlMs
  {
    var t := Run(maxEntries, ttlMs, ops);
    if HitOf(t, key, now).Some? {
      var i :| 0 <= i < |t| && t[i] == Slot(key, Get(t, key).value);
      EntriesAreLatest(maxEntries, ttlMs, ops, i);
    }
  }

  // ----- what stays -----

  /** The keys that a sequence of operations sets or hits, starting from a table. */
  function Touched<V>(maxEntries: int, ttlMs: int, t: Table<V>, ops: seq<Op<V>>): set<string> {
    if ops == [] then {} else
      var before := ops[..|ops| - 1];
      var op := ops[|ops| - 1];
      Touched(maxEntries, ttlMs, t, before) +
      (if op.SetOp? || (op.GetOp? && HitOf(RunOn(maxEntries, ttlMs, t, before), op.key, op.now).Some?) then {op.key}
       else {})
  }

  lemma RunNext<V>(maxEntries: int, ttlMs: int, t: Table<V>, ops: seq<Op<V>>, op: Op<V>)
    ensures RunOn(maxEntries, ttlMs, t, ops + [op]) == After(maxEntries, ttlMs, RunOn(maxEntries, ttlMs, t, ops), op)
  {
    assert (ops + [op])[..|ops|] == ops;
  }

  lemma {:induction false} RunConcat<V>(maxEntries: int, ttlMs: int, ops: seq<Op<V>>, more: seq<Op<V>>)
    ensures Run(maxEntries, ttlMs, ops + more) == RunOn(maxEntries, ttlMs, Run(maxEntries, ttlMs, ops), more)
  {
    if more == [] {
      assert ops + more == ops;
    } else {
      var n := |more| - 1;
      var front, last := more[..n], more[n];
      RunConcat(maxEntries, ttlMs, ops, front);
      assert more == front + [last];
      assert ops + (front + [last]) == ops + front + [last];
      RunNext(maxEntries, ttlMs, [], ops + front, last);
      RunNext(maxEntries, ttlMs, Run(maxEntries, ttlMs, ops), front, last);
    }
  }

  /** The entry is at position `p`, and everything behind it was touched meanwhile. */
  ghost predicate StillThere<V>(t: Table<V>, slot: Slot<Entry<V>>, p: nat, touched: set<string>) {
    && Distinct(t) && p < |t| && t[p] == slot
    && forall i | p < i < |t| :: t[i].key in touched
  }

  /** Removing another entry leaves the entry where it is, or one place further to the front. */
  lemma RemoveOther<V>(t: Table<V>, slot: Slot<Entry<V>>, p: nat, q: nat, touched: set<string>) returns (p': nat)
    requires StillThere(t, slot, p, touched) && q < |t| && q != p
    ensures StillThere(Delete(t, t[q].key), slot, p', touched)
    ensures Delete(t, t[q].key) == t[..q] + t[q + 1..]
  {
    DeleteAt(t, q);
    DeleteDistinct(t, t[q].key);
    p' := if q < p then p - 1 else p;
  }

  lemma AppendTouched<V>(t: Table<V>, slot: Slot<Entry<V>>, p: nat, more: Slot<Entry<V>>, touched: set<string>)
    requires StillThere(t, slot, p, touched) && !Has(t, more.key)
    ensures StillThere(t + [more], slot, p, touched + {more.key})
  {
    AppendDistinct(t, more);
  }

  /** A full table whose oldest entry is this one holds too many touched keys. */
  lemma OldestMeansFull<V>(t: Table<V>, slot: Slot<Entry<V>>, key: string, touched: set<string>)
    requires StillThere(t, slot, 0, touched) && !Has(t, key)
    ensures |touched + {key}| >= |t|
  {
    var rest := t[1..];
    KeyCount(rest);
    forall i | 0 <= i < |rest| ensures rest[i].key != key {
      assert rest[i] == t[i + 1];
    }
    assert |Keys(rest) + {key}| == |rest| + 1;
    SubsetSize(Keys(rest) + {key}, touched + {key});
  }

  /** The operation leaves this key alone and does not clear the cache. */
  predicate LeavesAlone<V>(op: Op<V>, key: string) {
    !op.ClearOp? && op.key != key
  }

  lemma GetKeeps<V>(t: Table<V>, key: string, now: int, slot: Slot<Entry<V>>, p: nat, touched: set<string>)
    returns (p': nat)
    requires StillThere(t, slot, p, touched) && key != slot.key
    ensures StillThere(AfterGet(t, key, now), slot, p', touched + if HitOf(t, key, now).Some? then {key} else {})
  {
    p' := p;
    assert touched + {} == touched;
    if Has(t, key) {
      var q :| 0 <= q < |t| && t[q].key == key;
      p' := RemoveOther(t, slot, p, q, touched);
      DeleteKeeps(t, key);
      AppendTouched(Delete(t, key), slot, p', Slot(key, Get(t, key).value), touched);
    }
  }

  lemma SetKeeps<V>(maxEntries: int, ttlMs: int, t: Table<V>, key: string, value: V, now: int,
                    slot: Slot<Entry<V>>, p: nat, touched: set<string>) returns (p': nat)
    requires StillThere(t, slot, p, touched) && key != slot.key && |touched + {key}| < maxEntries
    ensures StillThere(AfterSet(maxEntries, ttlMs, t, key, value, now), slot, p', touched + {key})
  {
    p' := p;
    RoomIsFree(maxEntries, t, key);
    if Has(t, key) {
      var q :| 0 <= q < |t| && t[q].key == key;
      p' := RemoveOther(t, slot, p, q, touched);
    } else if |t| >= maxEntries {
      if p == 0 { OldestMeansFull(t, slot, key, touched); }
      p' := RemoveOther(t, slot, p, 0, touched);
    }
    AppendTouched(MakeRoom(maxEntries, t, key), slot, p', Slot(key, Entry(now + ttlMs, value)), touched);
  }

  lemma {:induction false} RunKeeps<V>(maxEntries: int, ttlMs: int, t: Table<V>, ops: seq<Op<V>>, slot: Slot<Entry<V>>)
    returns (p: nat)
    requires Distinct(t) && t != [] && t[|t| - 1] == slot
    requires forall i | 0 <= i < |ops| :: LeavesAlone(ops[i], slot.key)
    requires |Touched(maxEntries, ttlMs, t, ops)| < maxEntries
    ensures StillThere(RunOn(maxEntries, ttlMs, t, ops), slot, p, Touched(maxEntries, ttlMs, t, ops))
  {
    if ops == [] {
      p := |t| - 1;
    } else {
      var before := ops[..|ops| - 1];
      var touched := Touched(maxEntries, ttlMs, t, before);
      SubsetSize(touched, Touched(maxEntries, ttlMs, t, ops));
      p := RunKeeps(maxEntries, ttlMs, t, before, slot);
      var middle, op := RunOn(maxEntries, ttlMs, t, before), ops[|ops| - 1];
      if op.SetOp? {
        p := SetKeeps(maxEntries, ttlMs, middle, op.key, op.value, op.now, slot, p, touched);
      } else {
        p := GetKeeps(middle, op.key, op.now, slot, p, touched);
      }
    }
  }

  /** An entry that was just set or hit still hits, as long as it has not expired, after fewer than
      `maxEntries` distinct other keys have been set or hit. */
  lemma RecentEntryHits<V>(maxEntries: int, ttlMs: int, ops: seq<Op<V>>, more: seq<Op<V>>, now: int)
    requires ops != [] && !ops[|ops| - 1].ClearOp? && maxEntries > 0
    requires var last := ops[|ops| - 1];
             last.GetOp? ==> HitOf(Run(maxEntries, ttlMs, ops[..|ops| - 1]), last.key, last.now).Some?
    requires forall i | 0 <= i < |more| :: LeavesAlone(more[i], ops[|ops| - 1].key)
    requires |Touched(maxEntries, ttlMs, Run(maxEntries, ttlMs, ops), more)| < maxEntries
    ensures var key := ops[|ops| - 1].key;
            var latest := LatestSet(ops, key);
            latest.Some? &&
            HitOf(Run(maxEntries, ttlMs, ops + more), key, now) ==
            if now < latest.value.1 + ttlMs then Some(latest.value.0) else None
  {
    var t := Run(maxEntries, ttlMs, ops);
    var slot := t[|t| - 1];
    RunFits(maxEntries, ttlMs, ops);
    EntriesAreLatest(maxEntries, ttlMs, ops, |t| - 1);
    var p := RunKeeps(maxEntries, ttlMs, t, more, slot);
    RunConcat(maxEntries, ttlMs, ops, more);
    GetIs(Run(maxEntries, ttlMs, ops + more), slot);
  }
}
