/** JavaScript's `Map` seen as the sequence of its entries in insertion order. */
module OrderedMap {
  import opened Basics

  datatype Slot<V> = Slot(key: string, value: V)

  predicate Distinct<V>(m: seq<Slot<V>>) {
    forall i, j | 0 <= i < j < |m| :: m[i].key != m[j].key
  }

  predicate Has<V>(m: seq<Slot<V>>, key: string) {
    exists i :: 0 <= i < |m| && m[i].key == key
  }

  function Get<V>(m: seq<Slot<V>>, key: string): (r: Option<V>)
    ensures r.Some? <==> Has(m, key)
    ensures r.Some? ==> Slot(key, r.value) in m
  {
    if m == [] then None
    else if m[0].key == key then Some(m[0].value)
    else
      assert m == [m[0]] + m[1..];
      Get(m[1..], key)
  }

  function Delete<V>(m: seq<Slot<V>>, key: string): seq<Slot<V>> {
    if m == [] then [] else
      Delete(m[..|m| - 1], key) + if m[|m| - 1].key == key then [] else [m[|m| - 1]]
  }

  /** `Map.set`: a present key keeps its place, a new one goes to the end. */
  function Set<V>(m: seq<Slot<V>>, key: string, value: V): seq<Slot<V>> {
    if Has(m, key) then seq(|m|, i requires 0 <= i < |m| => if m[i].key == key then Slot(key, value) else m[i])
    else m + [Slot(key, value)]
  }

  function Keys<V>(m: seq<Slot<V>>): set<string> {
    set i | 0 <= i < |m| :: m[i].key
  }

  lemma AppendDistinct<V>(m: seq<Slot<V>>, slot: Slot<V>)
    requires Distinct(m) && !Has(m, slot.key)
    ensures Distinct(m + [slot])
  {
    assert forall i | 0 <= i < |m| :: m[i].key != slot.key;
  }

  /** What is left was there before, and is not the deleted entry. */
  lemma {:induction false} DeleteKeeps<V>(m: seq<Slot<V>>, key: string)
    ensures var r := Delete(m, key);
            !Has(r, key) && |r| <= |m| && forall i | 0 <= i < |r| :: r[i] in m && r[i].key != key
  {
    if m != [] {
      var front := m[..|m| - 1];
      DeleteKeeps(front, key);
      var kept, r := Delete(front, key), Delete(m, key);
      forall i | 0 <= i < |r| ensures r[i] in m && r[i].key != key {
        if i < |kept| {
          var j :| 0 <= j < |front| && front[j] == kept[i];
          assert m[j] == r[i];
        } else {
          assert r[i] == m[|front|];
        }
      }
    }
  }

  /** Every other entry is still there. */
  lemma {:induction false} DeleteLeaves<V>(m: seq<Slot<V>>, key: string, i: nat)
    requires i < |m| && m[i].key != key
    ensures m[i] in Delete(m, key)
  {
    var front := m[..|m| - 1];
    if i < |front| {
      DeleteLeaves(front, key, i);
      var kept := Delete(front, key);
      var j :| 0 <= j < |kept| && kept[j] == front[i];
      assert Delete(m, key)[j] == m[i];
    } else {
      assert Delete(m, key)[|Delete(front, key)|] == m[i];
    }
  }

  lemma {:induction false} DeleteAbsent<V>(m: seq<Slot<V>>, key: string)
    requires !Has(m, key)
    ensures Delete(m, key) == m
  {
    if m != [] {
      var front, last := m[..|m| - 1], m[|m| - 1];
      forall i | 0 <= i < |front| ensures front[i].key != key {
        assert m[i].key != key;
      }
      DeleteAbsent(front, key);
      assert last.key != key && m == front + [last];
    }
  }

  lemma DeleteAppend<V>(m: seq<Slot<V>>, slot: Slot<V>, key: string)
    ensures Delete(m + [slot], key) == Delete(m, key) + if slot.key == key then [] else [slot]
  {
    assert (m + [slot])[..|m|] == m;
  }

  lemma {:induction false} DeleteCommutes<V>(m: seq<Slot<V>>, a: string, b: string)
    ensures Delete(Delete(m, a), b) == Delete(Delete(m, b), a)
  {
    if m != [] {
      var front, last := m[..|m| - 1], m[|m| - 1];
      DeleteCommutes(front, a, b);
      DeleteAppend(Delete(front, a), last, b);
      DeleteAppend(Delete(front, b), last, a);
      assert Delete(front, a) + [] == Delete(front, a) && Delete(front, b) + [] == Delete(front, b);
    }
  }

  lemma {:induction false} DeleteDistinct<V>(m: seq<Slot<V>>, key: string)
    requires Distinct(m)
    ensures Distinct(Delete(m, key))
    ensures |Delete(m, key)| == |m| - if Has(m, key) then 1 else 0
  {
    if m != [] {
      var front, last := m[..|m| - 1], m[|m| - 1];
      DeleteDistinct(front, key);
      DeleteKeeps(front, key);
      assert forall i | 0 <= i < |front| :: front[i] == m[i];
      forall i | 0 <= i < |Delete(front, key)| ensures Delete(front, key)[i].key != last.key {
        assert Delete(front, key)[i] in Delete(front, key);
        assert Delete(front, key)[i] in front;
      }
      assert Has(m, key) <==> Has(front, key) || last.key == key;
    }
  }

  /** The entry of a present key is the same wherever the map is cut or extended elsewhere. */
  lemma GetIs<V>(m: seq<Slot<V>>, slot: Slot<V>)
    requires Distinct(m) && slot in m
    ensures Get(m, slot.key) == Some(slot.value)
  {
    var r := Get(m, slot.key);
    var i :| 0 <= i < |m| && m[i] == slot;
    assert Has(m, slot.key);
    var j :| 0 <= j < |m| && m[j] == Slot(slot.key, r.value);
  }

  lemma GetAfterDelete<V>(m: seq<Slot<V>>, a: string, b: string)
    requires Distinct(m) && a != b
    ensures Get(Delete(m, a), b) == Get(m, b)
  {
    DeleteKeeps(m, a);
    DeleteDistinct(m, a);
    if Has(m, b) {
      var i :| 0 <= i < |m| && m[i] == Slot(b, Get(m, b).value);
      DeleteLeaves(m, a, i);
      GetIs(Delete(m, a), m[i]);
    } else {
      var r := Delete(m, a);
      forall j | 0 <= j < |r| ensures r[j].key != b {
        assert r[j] in m;
      }
    }
  }

  lemma {:induction false} KeyCount<V>(m: seq<Slot<V>>)
    requires Distinct(m)
    ensures |Keys(m)| == |m|
  {
    if m != [] {
      var front, last := m[..|m| - 1], m[|m| - 1];
      KeyCount(front);
      KeysNext(front, last);
      assert m == front + [last];
    }
  }

  lemma KeysNext<V>(m: seq<Slot<V>>, slot: Slot<V>)
    ensures Keys(m + [slot]) == Keys(m) + {slot.key}
  {
    var more := m + [slot];
    forall key ensures key in Keys(more) <==> key in Keys(m) || key == slot.key {
      if key in Keys(m) {
        var i :| 0 <= i < |m| && m[i].key == key;
        assert more[i].key == key;
      }
      assert more[|m|].key == slot.key;
    }
  }

  /** Deleting a present key closes the gap it leaves. */
  lemma {:induction false} DeleteAt<V>(m: seq<Slot<V>>, q: nat)
    requires Distinct(m) && q < |m|
    ensures Delete(m, m[q].key) == m[..q] + m[q + 1..]
  {
    var front, last := m[..|m| - 1], m[|m| - 1];
    if q == |front| {
      forall i | 0 <= i < |front| ensures front[i].key != last.key {
        assert front[i] == m[i];
      }
      DeleteAbsent(front, last.key);
    } else {
      DeleteAt(front, q);
      assert front[..q] + front[q + 1..] + [last] == m[..q] + m[q + 1..];
    }
  }

  lemma SubsetSize(a: set<string>, b: set<string>)
    requires a <= b
    ensures |a| <= |b|
  {
    assert |b - a| == |b| - |a|;
  }
}
