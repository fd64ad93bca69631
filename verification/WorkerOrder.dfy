/** Who speaks when: the order of a plan's workers, from the plan alone. */
module WorkerOrder {
  import opened Basics
  import opened BlackboardTypes
  import opened Numerals
  import opened WorkerPlan

  // ----- what is left, in order -----

  /** The workers whose roles are not among these, in order. */
  ghost function Rest(all: seq<PlanInput>, roles: set<string>): seq<PlanInput> {
    if all == [] then [] else
      var n := |all| - 1;
      Rest(all[..n], roles) + if all[n].role in roles then [] else [all[n]]
  }

  /** Each of them stands in the list, and those before it are what is left of the list before it. */
  lemma {:induction false} RestAt(all: seq<PlanInput>, roles: set<string>, k: nat) returns (p: nat)
    requires k < |Rest(all, roles)|
    ensures p < |all| && Rest(all, roles)[k] == all[p] && all[p].role !in roles
    ensures Rest(all[..p], roles) == Rest(all, roles)[..k]
  {
    var n := |all| - 1;
    if k < |Rest(all[..n], roles)| {
      p := RestAt(all[..n], roles, k);
      assert all[..n][..p] == all[..p];
    } else {
      p := n;
    }
  }

  lemma {:induction false} RestHas(all: seq<PlanInput>, roles: set<string>, q: nat)
    requires q < |all| && all[q].role !in roles
    ensures all[q] in Rest(all, roles)
  {
    var n := |all| - 1;
    if q < n { RestHas(all[..n], roles, q); }
  }

  lemma {:induction false} RestLacks(all: seq<PlanInput>, roles: set<string>, role: string)
    requires role !in Roles(all)
    ensures Rest(all, roles + {role}) == Rest(all, roles)
  {
    if all != [] {
      var n := |all| - 1;
      RolesNext(all[..n], all[n]);
      assert all == all[..n] + [all[n]];
      RestLacks(all[..n], roles, role);
    }
  }

  lemma {:induction false} RestWithout(all: seq<PlanInput>, roles: set<string>, k: nat)
    requires DistinctRoles(all) && k < |Rest(all, roles)|
    ensures Without(Rest(all, roles), k) == Rest(all, roles + {Rest(all, roles)[k].role})
  {
    var n := |all| - 1;
    var front, rest := all[..n], Rest(all[..n], roles);
    assert all == front + [all[n]];
    DistinctNext(front, all[n]);
    if k < |rest| {
      RestWithout(front, roles, k);
      var p := RestAt(front, roles, k);
      assert all[p].role != all[n].role;
    } else {
      RestLacks(front, roles, all[n].role);
    }
  }

  // ----- who goes next -----

  /** Worker `i` of the order stands at place `p` of the list: it is ready and has not gone before, and every
      worker before it in the list has gone or is not ready. */
  ghost predicate GoesFrom(all: seq<PlanInput>, order: seq<PlanInput>, i: nat, p: nat)
    requires i < |order|
  {
    && p < |all| && order[i] == all[p]
    && all[p].role !in Roles(order[..i]) && Ready(all[p], Roles(order[..i]))
    && forall q | 0 <= q < p :: all[q].role in Roles(order[..i]) || !Ready(all[q], Roles(order[..i]))
  }

  ghost predicate GoesNext(all: seq<PlanInput>, order: seq<PlanInput>, i: nat)
    requires i < |order|
  {
    exists p: nat :: GoesFrom(all, order, i, p)
  }

  lemma FirstGoesNext(all: seq<PlanInput>, order: seq<PlanInput>, more: seq<PlanInput>, k: nat)
    requires k < |Rest(all, Roles(order))| && order + [Rest(all, Roles(order))[k]] <= more
    requires Ready(Rest(all, Roles(order))[k], Roles(order))
    requires forall i | 0 <= i < k :: !Ready(Rest(all, Roles(order))[i], Roles(order))
    ensures GoesNext(all, more, |order|)
  {
    var p := RestAt(all, Roles(order), k);
    assert more[..|order|] == order && more[|order|] == all[p];
    forall q | 0 <= q < p ensures all[q].role in Roles(order) || !Ready(all[q], Roles(order)) {
      if all[q].role !in Roles(order) {
        RestHas(all[..p], Roles(order), q);
        assert all[..p][q] == all[q];
        var i :| 0 <= i < k && Rest(all, Roles(order))[..k][i] == all[q];
      }
    }
    assert GoesFrom(all, more, |order|, p);
  }

  lemma {:induction false} SortTakesFirst(all: seq<PlanInput>, pending: seq<PlanInput>, order: seq<PlanInput>)
    requires DistinctRoles(all) && pending == Rest(all, Roles(order))
    ensures var s := Sort(pending, order);
            order <= s.emitted && s.left == Rest(all, Roles(s.emitted)) && AllGoNext(all, s.emitted, |order|)
    decreases |pending|
  {
    var k := FirstReady(pending, Roles(order));
    if k < |pending| {
      var next := order + [pending[k]];
      RestWithout(all, Roles(order), k);
      RolesNext(order, pending[k]);
      SortTakesFirst(all, Without(pending, k), next);
      var emitted := Sort(Without(pending, k), next).emitted;
      FirstGoesNext(all, order, emitted, k);
      OneMoreGoes(all, emitted, |order|);
    }
  }

  ghost predicate AllGoNext(all: seq<PlanInput>, order: seq<PlanInput>, first: nat) {
    forall i | first <= i < |order| :: GoesNext(all, order, i)
  }

  lemma OneMoreGoes(all: seq<PlanInput>, order: seq<PlanInput>, first: nat)
    requires first < |order| && GoesNext(all, order, first) && AllGoNext(all, order, first + 1)
    ensures AllGoNext(all, order, first)
  {
  }

  lemma {:induction false} RestOfNone(all: seq<PlanInput>)
    ensures Rest(all, {}) == all
  {
    if all != [] {
      RestOfNone(all[..|all| - 1]);
      assert all == all[..|all| - 1] + [all[|all| - 1]];
    }
  }

  /** The next to go is always the first in the list that is ready; the others keep their order, and none
      of them is ready. */
  ghost predicate FirstReadyGoes(all: seq<PlanInput>, order: seq<PlanInput>, left: seq<PlanInput>) {
    AllGoNext(all, order, 0) && left == Rest(all, Roles(order)) && Stuck(left, Roles(order))
  }

  /** So the workers are sorted. */
  lemma EachIsFirstReady(workers: seq<PlanInput>)
    ensures FirstReadyGoes(ByRole(workers), SortOf(workers).emitted, SortOf(workers).left)
  {
    ByRoleDistinct(workers);
    assert Roles([]) == {};
    RestOfNone(ByRole(workers));
    SortTakesFirst(ByRole(workers), ByRole(workers), []);
    SortIsPermutation(workers);
  }

  // ----- there is only one such order -----

  lemma SamePlace(all: seq<PlanInput>, a: seq<PlanInput>, b: seq<PlanInput>, i: nat)
    requires i < |a| && i < |b| && a[..i] == b[..i] && GoesNext(all, a, i) && GoesNext(all, b, i)
    ensures a[i] == b[i]
  {
    var p: nat :| GoesFrom(all, a, i, p);
    var q: nat :| GoesFrom(all, b, i, q);
  }

  lemma {:induction false} SamePrefix(all: seq<PlanInput>, a: seq<PlanInput>, b: seq<PlanInput>, i: nat)
    requires i <= |a| && i <= |b|
    requires AllGoNext(all, a, 0) && AllGoNext(all, b, 0)
    ensures a[..i] == b[..i]
  {
    if i > 0 {
      SamePrefix(all, a, b, i - 1);
      SamePlace(all, a, b, i - 1);
      assert a[..i] == a[..i - 1] + [a[i - 1]] && b[..i] == b[..i - 1] + [b[i - 1]];
    }
  }

  /** One order does not go on where the other stops. */
  lemma NotLonger(all: seq<PlanInput>, a: seq<PlanInput>, b: seq<PlanInput>)
    requires AllGoNext(all, a, 0) && AllGoNext(all, b, 0)
    requires Stuck(Rest(all, Roles(a)), Roles(a))
    ensures |b| <= |a|
  {
    var n := |a|;
    if |b| > n {
      SamePrefix(all, a, b, n);
      assert a[..n] == a;
      assert GoesNext(all, b, n);
      var p: nat :| GoesFrom(all, b, n, p);
      RestHas(all, Roles(a), p);
      assert false;
    }
  }

  lemma SameOrder(all: seq<PlanInput>, a: seq<PlanInput>, b: seq<PlanInput>)
    requires AllGoNext(all, a, 0) && AllGoNext(all, b, 0)
    requires Stuck(Rest(all, Roles(a)), Roles(a)) && Stuck(Rest(all, Roles(b)), Roles(b))
    ensures a == b
  {
    NotLonger(all, a, b);
    NotLonger(all, b, a);
    SamePrefix(all, a, b, |a|);
    assert a[..|a|] == a && b[..|b|] == b;
  }

  /** An order in which the first ready worker of the list always goes next, until none of those left is
      ready, is the one that the sort finds. */
  lemma OrderIsUnique(workers: seq<PlanInput>, order: seq<PlanInput>, left: seq<PlanInput>)
    requires FirstReadyGoes(ByRole(workers), order, left)
    ensures SortOf(workers) == Sorting(order, left)
  {
    EachIsFirstReady(workers);
    SameOrder(ByRole(workers), order, SortOf(workers).emitted);
  }

  // ----- one worker per role -----

  /** The first worker of each role is kept behind those kept of the workers before it. */
  lemma {:induction false} DedupeKeepsOrder(workers: seq<PlanInput>, i: nat)
    requires i < |workers| && workers[i].role !in Roles(workers[..i])
    ensures |FirstPerRole(workers[..i])| < |FirstPerRole(workers)|
    ensures FirstPerRole(workers)[|FirstPerRole(workers[..i])|] == workers[i]
  {
    var n := |workers| - 1;
    if i < n {
      assert workers[..n][..i] == workers[..i];
      DedupeKeepsOrder(workers[..n], i);
    }
  }

  /** In the map by role each role has the place of its first worker, and holds its last one. */
  ghost predicate HoldsLast(workers: seq<PlanInput>, held: seq<PlanInput>) {
    && |held| == |FirstPerRole(workers)|
    && forall k | 0 <= k < |held| :: held[k].role == FirstPerRole(workers)[k].role && IsLast(workers, held[k])
  }

  ghost predicate IsLast(workers: seq<PlanInput>, worker: PlanInput) {
    exists j :: 0 <= j < |workers| && workers[j] == worker && worker.role !in Roles(workers[j + 1..])
  }

  lemma LastNext(workers: seq<PlanInput>, worker: PlanInput, other: PlanInput)
    ensures IsLast(workers + [worker], worker)
    ensures IsLast(workers, other) && other.role != worker.role ==> IsLast(workers + [worker], other)
  {
    var all := workers + [worker];
    assert all[|workers|] == worker && all[|workers| + 1..] == [];
    if IsLast(workers, other) && other.role != worker.role {
      var j :| 0 <= j < |workers| && workers[j] == other && other.role !in Roles(workers[j + 1..]);
      RolesNext(workers[j + 1..], worker);
      assert all[j + 1..] == workers[j + 1..] + [worker] && all[j] == other;
    }
  }

  lemma PutHolds(workers: seq<PlanInput>, held: seq<PlanInput>, worker: PlanInput)
    requires HoldsLast(workers, held) && Roles(held) == Roles(workers)
    ensures HoldsLast(workers + [worker], Put(held, worker))
  {
    var all, after := workers + [worker], Put(held, worker);
    assert all[..|workers|] == workers;
    RoleIsThere(held, worker.role);
    forall k | 0 <= k < |after| ensures after[k].role == FirstPerRole(all)[k].role && IsLast(all, after[k]) {
      LastNext(workers, worker, if k < |held| then held[k] else worker);
    }
  }

  lemma PutRoles(held: seq<PlanInput>, worker: PlanInput)
    ensures Roles(Put(held, worker)) == Roles(held) + {worker.role}
  {
    var after := Put(held, worker);
    if i :| 0 <= i < |held| && held[i].role == worker.role {
      forall r ensures r in Roles(after) <==> r in Roles(held) {
        assert forall k | 0 <= k < |held| :: after[k].role == held[k].role;
      }
    } else {
      RolesNext(held, worker);
    }
  }

  lemma {:induction false} ByRoleHoldsLast(workers: seq<PlanInput>)
    ensures HoldsLast(workers, ByRole(workers)) && Roles(ByRole(workers)) == Roles(workers)
  {
    if workers != [] {
      var front, last := workers[..|workers| - 1], workers[|workers| - 1];
      assert workers == front + [last];
      ByRoleHoldsLast(front);
      PutHolds(front, ByRole(front), last);
      PutRoles(ByRole(front), last);
      RolesNext(front, last);
    }
  }

  // ----- the workers of a turn -----

  /** A list with what it leaves out taken out. */
  lemma {:induction false} KeptConcat(a: seq<string>, b: seq<string>, roles: set<string>, role: string)
    ensures Kept(a + b, roles, role) == Kept(a, roles, role) + Kept(b, roles, role)
  {
    if b == [] {
      assert a + b == a;
    } else {
      var n := |b| - 1;
      KeptConcat(a, b[..n], roles, role);
      assert (a + b)[..|a| + n] == a + b[..n];
    }
  }

  lemma KeptOne(d: string, roles: set<string>, role: string)
    ensures Kept([d], roles, role) == if d in roles && d != role then [d] else []
  {
    assert [d][..0] == [];
  }

  /** A worker of a turn is as the first one of its role in the plan asks for it; what that leaves out is
      filled in; and it depends on what it asks for among the other roles of the plan. */
  lemma WorkersAreAsAsked(workers: seq<PlanInput>, i: nat) returns (w: PlanInput, j: nat)
    requires i < |PlanOf(workers)|
    ensures j < |workers| && workers[j] == w && w.role !in Roles(workers[..j])
    ensures var worker := PlanOf(workers)[i];
            && worker.role == w.role
            && worker.capabilities == (match w.capabilities case Some(c) => c case None => ["general-worker"])
            && worker.handoff == (match w.handoff case Some(h) => h case None => "proposal")
            && worker.name == (match w.name case Some(n) => n case None => w.role)
            && worker.stage == (match w.stage case Some(s) => s case None => "worker-" + Decimal(i + 1))
            && worker.dependsOn == Kept(Deps(w), Roles(workers), w.role)
  {
    var planned, first := Planned(workers), FirstPerRole(workers);
    var s := SortOf(planned);
    PlannedIsKnown(workers);
    SortIsPermutation(planned);
    var p := (s.emitted + s.left)[i];
    assert p in multiset(planned);
    var k :| 0 <= k < |planned| && planned[k] == p;
    w, j := FirstIsThere(workers, k);
  }

  lemma {:induction false} FirstIsThere(workers: seq<PlanInput>, k: nat) returns (w: PlanInput, j: nat)
    requires k < |FirstPerRole(workers)|
    ensures j < |workers| && workers[j] == w == FirstPerRole(workers)[k] && w.role !in Roles(workers[..j])
  {
    var n := |workers| - 1;
    if k < |FirstPerRole(workers[..n])| {
      w, j := FirstIsThere(workers[..n], k);
      assert workers[..n][..j] == workers[..j];
    } else {
      w, j := workers[n], n;
    }
  }
}
