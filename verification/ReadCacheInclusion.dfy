/** A larger read cache never does worse: after the same operations its contents are those of
    the smaller one, in the same recency order, plus at most one entry per extra place. */
module ReadCacheInclusion {
  import opened Basics
  import opened OrderedMap
  import opened ReadCache

  /** `small` is `big`, or `big` without one of its entries. */
  ghost predicate Included<V>(small: Table<V>, big: Table<V>) {
    small == big || exists x :: Missing(small, big, x)
  }

  /** `small` is `big` without its entry for `x`. */
  ghost predicate Missing<V>(small: Table<V>, big: Table<V>, x: string) {
    Has(big, x) && small == Delete(big, x)
  }

  lemma AppendBoth<V>(small: Table<V>, big: Table<V>, slot: Slot<Entry<V>>)
    requires Included(small, big) && !Has(big, slot.key)
    ensures Included(small + [slot], big + [slot])
  {
    if small != big {
      var x :| Missing(small, big, x);
      DeleteAppend(big, slot, x);
      HasMore(big, slot, x);
      HasMore(big, slot, slot.key);
      assert x != slot.key;
      assert Missing(small + [slot], big + [slot], x);
    }
  }

  lemma HasMore<V>(m: seq<Slot<V>>, slot: Slot<V>, key: string)
    ensures Has(m + [slot], key) <==> Has(m, key) || slot.key == key
  {
    assert (m + [slot])[|m|] == slot;
    if Has(m, key) {
      var i :| 0 <= i < |m| && m[i].key == key;
      assert (m + [slot])[i].key == key;
    }
  }

  /** A table that only misses an entry of the other has the same other keys and entries. */
  lemma MissingAgrees<V>(big: Table<V>, x: string, key: string)
    requires Distinct(big) && key != x
    ensures Has(Delete(big, x), key) <==> Has(big, key)
    ensures Get(Delete(big, x), key) == Get(big, key)
  {
    GetAfterDelete(big, x, key);
  }

  lemma DeleteBoth<V>(small: Table<V>, big: Table<V>, key: string)
    requires Distinct(big) && Included(small, big)
    ensures Included(Delete(small, key), Delete(big, key))
  {
    if small != big {
      var x :| Missing(small, big, x);
      if x == key {
        DeleteKeeps(big, x);
        DeleteAbsent(small, key);
      } else {
        DeleteCommutes(big, x, key);
        MissingAgrees(big, key, x);
        assert Missing(Delete(small, key), Delete(big, key), x);
      }
    }
  }

  lemma GetIncluded<V>(small: Table<V>, big: Table<V>, key: string, now: int)
    requires Distinct(big) && Included(small, big)
    ensures Included(AfterGet(small, key, now), AfterGet(big, key, now))
    ensures HitOf(small, key, now).Some? ==> HitOf(big, key, now) == HitOf(small, key, now)
  {
    if small != big {
      var x :| Missing(small, big, x);
      if x == key {
        GetTheMissing(big, key, now);
      } else {
        MissingAgrees(big, x, key);
        DeleteBoth(small, big, key);
        if Has(big, key) {
          DeleteKeeps(big, key);
          AppendBoth(Delete(small, key), Delete(big, key), Slot(key, Get(big, key).value));
        }
      }
    }
  }

  /** Asking for the very entry that the smaller table lacks. */
  lemma GetTheMissing<V>(big: Table<V>, key: string, now: int)
    requires Distinct(big) && Has(big, key)
    ensures var small := Delete(big, key);
            HitOf(small, key, now) == None && Included(AfterGet(small, key, now), AfterGet(big, key, now))
  {
    var small, slot := Delete(big, key), Slot(key, Get(big, key).value);
    DeleteKeeps(big, key);
    DeleteAppend(small, slot, key);
    DeleteAbsent(small, key);
    HasMore(small, slot, key);
    assert small + [] == small;
    assert Missing(small, small + [slot], key);
  }

  lemma SetIncluded<V>(n: nat, ttlMs: int, small: Table<V>, big: Table<V>, key: string, value: V, now: int)
    requires Distinct(big) && Included(small, big) && |small| <= n && |big| <= n + 1
    ensures Included(AfterSet(n, ttlMs, small, key, value, now), AfterSet(n + 1, ttlMs, big, key, value, now))
  {
    var slot := Slot(key, Entry(now + ttlMs, value));
    var room := MakeRoom(n + 1, big, key);
    RoomIsFree(n + 1, big, key);
    if n == 0 {
      assert small == [] && room + [slot] == [slot];
      DeleteAppend([], slot, key);
      assert [] + [slot] == [slot] && [slot][0].key == key;
      assert Missing(small, room + [slot], key);
    } else {
      RoomIncluded(n, small, big, key);
      AppendBoth(MakeRoom(n, small, key), room, slot);
    }
  }

  lemma FirstStays<V>(m: seq<Slot<V>>, x: string)
    requires Distinct(m) && Has(m, x) && m[0].key != x
    ensures Delete(m, x) != [] && Delete(m, x)[0] == m[0]
  {
    var q :| 0 <= q < |m| && m[q].key == x;
    DeleteAt(m, q);
  }

  /** Dropping the oldest entry of a table leaves it one entry short of itself. */
  lemma OldestDropped<V>(t: Table<V>)
    requires t != []
    ensures Included(Delete(t, t[0].key), t)
  {
    assert Missing(Delete(t, t[0].key), t, t[0].key);
  }

  lemma RoomIncluded<V>(n: nat, small: Table<V>, big: Table<V>, key: string)
    requires Distinct(big) && Included(small, big) && |small| <= n && |big| <= n + 1 && n > 0
    ensures Included(MakeRoom(n, small, key), MakeRoom(n + 1, big, key))
  {
    if small == big {
      if !Has(small, key) && |small| >= n { OldestDropped(small); }
    } else {
      var x :| Missing(small, big, x);
      DeleteDistinct(big, x);
      if x == key {
        DeleteKeeps(big, x);
        if |small| >= n { OldestDropped(small); }
      } else {
        MissingAgrees(big, x, key);
        if Has(big, key) {
          DeleteBoth(small, big, key);
        } else if |small| >= n {
          if big[0].key == x {
            OldestDropped(small);
          } else {
            FirstStays(big, x);
            DeleteBoth(small, big, big[0].key);
          }
        }
      }
    }
  }

  /** After any operations, a cache with room for one more entry holds the same entries in the
      same order plus at most one. */
  lemma {:induction false} LargerCacheIncludes<V>(n: nat, ttlMs: int, ops: seq<Op<V>>)
    ensures Included(Run(n, ttlMs, ops), Run(n + 1, ttlMs, ops))
  {
    if ops != [] {
      var before, op := ops[..|ops| - 1], ops[|ops| - 1];
      var small, big := Run(n, ttlMs, before), Run(n + 1, ttlMs, before);
      LargerCacheIncludes(n, ttlMs, before);
      RunFits(n, ttlMs, before);
      RunFits(n + 1, ttlMs, before);
      match op
      case GetOp(key, now) => GetIncluded(small, big, key, now);
      case SetOp(key, value, now) => SetIncluded(n, ttlMs, small, big, key, value, now);
      case ClearOp =>
    }
  }

  /** Enlarging a cache never turns a hit into a miss, and never changes what a hit returns. */
  lemma {:induction false} EnlargingKeepsHits<V>(n: nat, m: nat, ttlMs: int, ops: seq<Op<V>>, key: string, now: int)
    requires n <= m && HitOf(Run(n, ttlMs, ops), key, now).Some?
    ensures HitOf(Run(m, ttlMs, ops), key, now) == HitOf(Run(n, ttlMs, ops), key, now)
    decreases m - n
  {
    if n < m {
      LargerCacheIncludes(n, ttlMs, ops);
      RunFits(n + 1, ttlMs, ops);
      GetIncluded(Run(n, ttlMs, ops), Run(n + 1, ttlMs, ops), key, now);
      EnlargingKeepsHits(n + 1, m, ttlMs, ops, key, now);
    }
  }
}
