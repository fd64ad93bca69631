/** From a worker plan to the order in which the workers of a round speak. */
module WorkerPlan {
  import opened Basics
  import opened BlackboardTypes
  import opened Numerals

  function Deps(worker: PlanInput): seq<string> {
    if worker.dependsOn.Some? then worker.dependsOn.value else []
  }

  ghost predicate DistinctRoles(workers: seq<PlanInput>) {
    forall i, j | 0 <= i < j < |workers| :: workers[i].role != workers[j].role
  }

  ghost function Roles(workers: seq<PlanInput>): set<string> {
    set i | 0 <= i < |workers| :: workers[i].role
  }

  lemma RolesNext(workers: seq<PlanInput>, worker: PlanInput)
    ensures Roles(workers + [worker]) == Roles(workers) + {worker.role}
  {
    var all := workers + [worker];
    forall i | 0 <= i < |workers| ensures workers[i].role in Roles(all) {
      assert all[i] == workers[i];
    }
    assert all[|workers|] == worker;
  }

  // ----- one worker per role -----

  /** The first worker of every role, in order. */
  ghost function FirstPerRole(workers: seq<PlanInput>): seq<PlanInput> {
    if workers == [] then [] else
      var n := |workers| - 1;
      FirstPerRole(workers[..n]) + if workers[n].role in Roles(workers[..n]) then [] else [workers[n]]
  }

  method DedupeWorkers(workers: seq<PlanInput>) returns (result: seq<PlanInput>)
    ensures result == FirstPerRole(workers)
  {
    var seen: set<string> := {};
    result := [];
    for k := 0 to |workers|
      invariant seen == Roles(workers[..k]) && result == FirstPerRole(workers[..k])
    {
      var worker := workers[k];
      FirstPerRoleNext(workers, k);
      if worker.role in seen { continue; }
      seen := seen + {worker.role};
      result := result + [worker];
    }
    assert workers[..|workers|] == workers;
  }

  lemma FirstPerRoleNext(workers: seq<PlanInput>, k: nat)
    requires k < |workers|
    ensures Roles(workers[..k + 1]) == Roles(workers[..k]) + {workers[k].role}
    ensures FirstPerRole(workers[..k + 1]) ==
            FirstPerRole(workers[..k]) + if workers[k].role in Roles(workers[..k]) then [] else [workers[k]]
  {
    assert workers[..k + 1] == workers[..k] + [workers[k]] && workers[..k + 1][..k] == workers[..k];
    RolesNext(workers[..k], workers[k]);
  }

  lemma RoleIsThere(workers: seq<PlanInput>, role: string)
    ensures role in Roles(workers) <==> exists i :: 0 <= i < |workers| && workers[i].role == role
  {
  }

  lemma DistinctNext(workers: seq<PlanInput>, worker: PlanInput)
    ensures DistinctRoles(workers + [worker]) <==> DistinctRoles(workers) && worker.role !in Roles(workers)
  {
    var all := workers + [worker];
    if DistinctRoles(all) {
      forall i | 0 <= i < |workers| ensures workers[i].role != worker.role {
        assert all[i].role != all[|workers|].role;
      }
      forall i, j | 0 <= i < j < |workers| ensures workers[i].role != workers[j].role {
        assert all[i] == workers[i] && all[j] == workers[j];
      }
      RoleIsThere(workers, worker.role);
    }
    if DistinctRoles(workers) && worker.role !in Roles(workers) {
      forall i | 0 <= i < |workers| ensures workers[i].role != worker.role {
        assert workers[i].role in Roles(workers);
      }
    }
  }

  /** No role is left twice and none is lost; a plan without repetitions stays as it is. */
  lemma {:induction false} DedupeKeepsRoles(workers: seq<PlanInput>)
    ensures DistinctRoles(FirstPerRole(workers)) && Roles(FirstPerRole(workers)) == Roles(workers)
    ensures DistinctRoles(workers) ==> FirstPerRole(workers) == workers
  {
    if workers != [] {
      var n := |workers| - 1;
      var front, worker := workers[..n], workers[n];
      assert workers == front + [worker];
      DedupeKeepsRoles(front);
      DedupeRolesNext(front, FirstPerRole(front), worker);
      assert FirstPerRole(front) + [] == FirstPerRole(front);
    }
  }

  lemma DedupeRolesNext(front: seq<PlanInput>, kept: seq<PlanInput>, worker: PlanInput)
    requires Roles(kept) == Roles(front)
    ensures Roles(front + [worker]) == Roles(kept + [worker])
    ensures worker.role in Roles(front) ==> Roles(front + [worker]) == Roles(kept)
    ensures DistinctRoles(kept + [worker]) <==> DistinctRoles(kept) && worker.role !in Roles(front)
    ensures DistinctRoles(front + [worker]) <==> DistinctRoles(front) && worker.role !in Roles(front)
  {
    RolesNext(front, worker);
    RolesNext(kept, worker);
    DistinctNext(front, worker);
    DistinctNext(kept, worker);
  }

  /** The worker kept for a role is the first one that asks for it. */
  lemma {:induction false} DedupeKeepsFirst(workers: seq<PlanInput>, i: nat)
    requires i < |workers| && workers[i].role !in Roles(workers[..i])
    ensures workers[i] in FirstPerRole(workers)
  {
    var n := |workers| - 1;
    if i < n {
      assert workers[..n][..i] == workers[..i];
      DedupeKeepsFirst(workers[..n], i);
    }
  }

  // ----- sorting -----

  /** `new Map(...)` with the role as key: a repeated role keeps its place and takes the new worker. */
  function Put(pending: seq<PlanInput>, worker: PlanInput): seq<PlanInput> {
    if exists i :: 0 <= i < |pending| && pending[i].role == worker.role
    then seq(|pending|, i requires 0 <= i < |pending| => if pending[i].role == worker.role then worker else pending[i])
    else pending + [worker]
  }

  function ByRole(workers: seq<PlanInput>): seq<PlanInput> {
    if workers == [] then [] else Put(ByRole(workers[..|workers| - 1]), workers[|workers| - 1])
  }

  lemma PutDistinct(pending: seq<PlanInput>, worker: PlanInput)
    requires DistinctRoles(pending)
    ensures DistinctRoles(Put(pending, worker))
    ensures worker.role !in Roles(pending) ==> Put(pending, worker) == pending + [worker]
  {
    RoleIsThere(pending, worker.role);
    if worker.role !in Roles(pending) { DistinctNext(pending, worker); }
  }

  lemma {:induction false} ByRoleDistinct(workers: seq<PlanInput>)
    ensures DistinctRoles(ByRole(workers))
    ensures DistinctRoles(workers) ==> ByRole(workers) == workers
  {
    if workers != [] {
      var n := |workers| - 1;
      var front := workers[..n];
      assert workers == front + [workers[n]];
      ByRoleDistinct(front);
      PutDistinct(ByRole(front), workers[n]);
      DistinctNext(front, workers[n]);
    }
  }

  predicate Ready(worker: PlanInput, emitted: set<string>) {
    forall d | d in Deps(worker) :: d in emitted
  }

  /** The place of the first ready worker, or the length when there is none. */
  function FirstReady(pending: seq<PlanInput>, emitted: set<string>): (k: nat)
    ensures k <= |pending|
    ensures forall i | 0 <= i < k :: !Ready(pending[i], emitted)
    ensures k < |pending| ==> Ready(pending[k], emitted)
  {
    if pending == [] || Ready(pending[0], emitted) then 0 else 1 + FirstReady(pending[1..], emitted)
  }

  function Without(pending: seq<PlanInput>, k: nat): seq<PlanInput>
    requires k < |pending|
  {
    pending[..k] + pending[k + 1..]
  }

  /** The workers emitted one by one, and the ones left over when no worker was ready. */
  datatype Sorting = Sorting(emitted: seq<PlanInput>, left: seq<PlanInput>)

  ghost function Sort(pending: seq<PlanInput>, emitted: seq<PlanInput>): Sorting
    decreases |pending|
  {
    var k := FirstReady(pending, Roles(emitted));
    if k == |pending| then Sorting(emitted, pending)
    else Sort(Without(pending, k), emitted + [pending[k]])
  }

  ghost function SortOf(workers: seq<PlanInput>): Sorting {
    Sort(ByRole(workers), [])
  }

  method SortWorkersByDependencies(workers: seq<PlanInput>) returns (sorted: seq<PlanInput>)
    ensures sorted == SortOf(workers).emitted + SortOf(workers).left
  {
    var pending := ByRole(workers);
    var emitted: set<string> := {};
    sorted := [];
    while |pending| > 0
      invariant emitted == Roles(sorted) && Sort(pending, sorted) == SortOf(workers)
    {
      var ready := FirstReady(pending, emitted);
      if ready == |pending| {
        sorted := sorted + pending;
        return;
      }
      var worker := pending[ready];
      RolesNext(sorted, worker);
      sorted := sorted + [worker];
      emitted := emitted + {worker.role};
      pending := Without(pending, ready);
    }
    assert sorted + [] == sorted;
  }

  /** Every worker stands behind all workers it depends on. */
  ghost predicate Ordered(workers: seq<PlanInput>) {
    forall i | 0 <= i < |workers| :: Ready(workers[i], Roles(workers[..i]))
  }

  /** No worker of the list can follow the emitted ones. */
  ghost predicate Stuck(workers: seq<PlanInput>, emitted: set<string>) {
    forall i | 0 <= i < |workers| :: !Ready(workers[i], emitted)
  }

  lemma OrderedNext(workers: seq<PlanInput>, worker: PlanInput)
    requires Ordered(workers) && Ready(worker, Roles(workers))
    ensures Ordered(workers + [worker])
  {
    var all := workers + [worker];
    forall i | 0 <= i < |all| ensures Ready(all[i], Roles(all[..i])) {
      if i < |workers| {
        assert all[..i] == workers[..i] && all[i] == workers[i];
      } else {
        assert all[..i] == workers;
      }
    }
  }

  /** What comes out is what went in; the emitted workers follow their dependencies, and the others
      cannot follow them. */
  lemma {:induction false} SortSplits(pending: seq<PlanInput>, emitted: seq<PlanInput>)
    requires Ordered(emitted)
    ensures var s := Sort(pending, emitted);
            multiset(s.emitted) + multiset(s.left) == multiset(emitted) + multiset(pending) &&
            Ordered(s.emitted) && Stuck(s.left, Roles(s.emitted))
    decreases |pending|
  {
    var k := FirstReady(pending, Roles(emitted));
    if k < |pending| {
      assert pending == pending[..k] + [pending[k]] + pending[k + 1..];
      OrderedNext(emitted, pending[k]);
      SortSplits(Without(pending, k), emitted + [pending[k]]);
    }
  }

  lemma SortIsPermutation(workers: seq<PlanInput>)
    ensures var s := SortOf(workers);
            multiset(s.emitted + s.left) == multiset(ByRole(workers)) &&
            Ordered(s.emitted) && Stuck(s.left, Roles(s.emitted))
    ensures DistinctRoles(workers) ==> multiset(SortOf(workers).emitted + SortOf(workers).left) == multiset(workers)
  {
    SortSplits(ByRole(workers), []);
    ByRoleDistinct(workers);
  }

  // ----- plans with cycles -----

  /** Workers none of which could be first: each depends on one of them, or on nobody's role. */
  ghost predicate Blocking(workers: seq<PlanInput>, roles: set<string>) {
    roles <= Roles(workers) &&
    forall w | w in workers && w.role in roles :: exists d :: d in Deps(w) && d !in Roles(workers) - roles
  }

  lemma RoleOf(workers: seq<PlanInput>, w: PlanInput)
    requires w in workers
    ensures w.role in Roles(workers)
  {
    var i :| 0 <= i < |workers| && workers[i] == w;
  }

  lemma SameRoleSame(workers: seq<PlanInput>, a: PlanInput, b: PlanInput)
    requires DistinctRoles(workers) && a in workers && b in workers && a.role == b.role
    ensures a == b
  {
    var i :| 0 <= i < |workers| && workers[i] == a;
    var j :| 0 <= j < |workers| && workers[j] == b;
  }

  /** What is emitted and what is left over share no role, and together they are all workers. */
  lemma SortPartitions(workers: seq<PlanInput>)
    requires DistinctRoles(workers)
    ensures var s := SortOf(workers);
            (forall w :: w in workers <==> w in s.emitted || w in s.left) &&
            Roles(s.left) == Roles(workers) - Roles(s.emitted)
  {
    SortIsPermutation(workers);
    var s := SortOf(workers);
    PartsShareNothing(workers, s.emitted, s.left);
  }

  lemma PartsShareNothing(workers: seq<PlanInput>, a: seq<PlanInput>, b: seq<PlanInput>)
    requires DistinctRoles(workers) && multiset(a + b) == multiset(workers)
    ensures forall w :: w in workers <==> w in a || w in b
    ensures Roles(b) == Roles(workers) - Roles(a)
  {
    SameMembers(workers, a + b);
    PermutedDistinct(workers, a + b);
    RolesByMember(workers);
    RolesByMember(a);
    RolesByMember(b);
    forall v, w | v in a && w in b ensures v.role != w.role {
      var i :| 0 <= i < |a| && a[i] == v;
      var j :| 0 <= j < |b| && b[j] == w;
      assert (a + b)[i] == v && (a + b)[|a| + j] == w;
    }
  }

  lemma TwicePresent(a: seq<PlanInput>, b: seq<PlanInput>, w: PlanInput)
    requires w in a && w in b
    ensures multiset(a + b)[w] >= 2
  {
    assert multiset(a + b) == multiset(a) + multiset(b);
    assert w in multiset(a) && w in multiset(b);
  }

  lemma {:induction false} OncePresent(workers: seq<PlanInput>, w: PlanInput)
    requires DistinctRoles(workers)
    ensures multiset(workers)[w] <= 1
  {
    if workers != [] {
      var n := |workers| - 1;
      assert workers == workers[..n] + [workers[n]];
      OncePresent(workers[..n], w);
      var front := workers[..n];
      forall i | 0 <= i < n ensures front[i] != workers[n] {
        assert front[i] == workers[i];
      }
      assert w in front <==> w in multiset(front);
    }
  }

  /** The workers left over are the largest set of workers none of which could be first. */
  lemma LeftIsLargest(workers: seq<PlanInput>)
    requires DistinctRoles(workers)
    ensures var left := Roles(SortOf(workers).left);
            Blocking(workers, left) && forall roles | Blocking(workers, roles) :: roles <= left
  {
    var s := SortOf(workers);
    SortIsPermutation(workers);
    SortPartitions(workers);
    forall w | w in workers && w.role in Roles(s.left)
      ensures exists d :: d in Deps(w) && d !in Roles(workers) - Roles(s.left)
    {
      if w in s.emitted { RoleOf(s.emitted, w); }
      assert w in s.left;
      var i :| 0 <= i < |s.left| && s.left[i] == w;
      assert !Ready(s.left[i], Roles(s.emitted));
      var d :| d in Deps(w) && d !in Roles(s.emitted);
      assert d !in Roles(workers) - Roles(s.left);
    }
    forall roles | Blocking(workers, roles) ensures roles <= Roles(s.left) {
      forall i | 0 <= i < |s.emitted| ensures s.emitted[i].role !in roles {
        EmittedIsFree(workers, s.emitted, roles, i);
      }
    }
  }

  /** An emitted worker is in no such set. */
  lemma {:induction false} EmittedIsFree(workers: seq<PlanInput>, emitted: seq<PlanInput>, roles: set<string>, i: nat)
    requires i < |emitted| && Ordered(emitted) && Blocking(workers, roles)
    requires forall w | w in emitted :: w in workers
    ensures emitted[i].role !in roles
  {
    var w := emitted[i];
    if w.role in roles {
      assert w in workers;
      var d :| d in Deps(w) && d !in Roles(workers) - roles;
      assert Ready(w, Roles(emitted[..i]));
      var j :| 0 <= j < i && emitted[..i][j].role == d;
      EmittedIsFree(workers, emitted, roles, j);
      RoleOf(workers, emitted[j]);
      assert false;
    }
  }

  /** Workers that depend on each other in a circle. */
  ghost predicate Cycle(workers: seq<PlanInput>, path: seq<PlanInput>) {
    |path| >= 2 && path[0] == path[|path| - 1] && Path(workers, path)
  }

  /** Each worker depends on the next one. */
  ghost predicate Path(workers: seq<PlanInput>, path: seq<PlanInput>) {
    (forall i | 0 <= i < |path| :: path[i] in workers) &&
    (forall i | 0 <= i < |path| - 1 :: path[i + 1].role in Deps(path[i]))
  }

  ghost predicate KnownDeps(workers: seq<PlanInput>) {
    forall w | w in workers :: forall d | d in Deps(w) :: d in Roles(workers)
  }

  lemma CycleBlocks(workers: seq<PlanInput>, path: seq<PlanInput>)
    requires DistinctRoles(workers) && Cycle(workers, path)
    ensures Blocking(workers, Roles(path)) && path[0].role in Roles(path)
  {
    forall r | r in Roles(path) ensures r in Roles(workers) {
      var i :| 0 <= i < |path| && path[i].role == r;
      RoleOf(workers, path[i]);
    }
    forall w | w in workers && w.role in Roles(path)
      ensures exists d :: d in Deps(w) && d !in Roles(workers) - Roles(path)
    {
      var i :| 0 <= i < |path| && path[i].role == w.role;
      SameRoleSame(workers, w, path[i]);
      var next := if i == |path| - 1 then 1 else i + 1;
      assert path[next].role in Deps(w) && path[next].role in Roles(path);
    }
  }

  /** In such a set with known roles only, one can walk on for ever. */
  lemma {:induction false} Walk(workers: seq<PlanInput>, left: seq<PlanInput>, n: nat) returns (path: seq<PlanInput>)
    requires left != [] && (forall w | w in left :: w in workers)
    requires forall w | w in left :: exists d :: d in Deps(w) && d in Roles(left)
    ensures |path| == n + 1 && Path(workers, path) && forall i | 0 <= i <= n :: path[i] in left
  {
    if n == 0 {
      path := [left[0]];
    } else {
      var shorter := Walk(workers, left, n - 1);
      var d :| d in Deps(shorter[n - 1]) && d in Roles(left);
      var j :| 0 <= j < |left| && left[j].role == d;
      path := shorter + [left[j]];
    }
  }

  lemma {:induction false} AllDifferent(path: seq<PlanInput>, among: set<PlanInput>)
    requires forall i | 0 <= i < |path| :: path[i] in among
    requires forall i, j | 0 <= i < j < |path| :: path[i] != path[j]
    ensures |path| <= |among|
  {
    if path != [] {
      var n := |path| - 1;
      AllDifferent(path[..n], among - {path[n]});
    }
  }

  /** A path with more stations than there are workers comes back to one. */
  lemma SomeRepeat(path: seq<PlanInput>, among: set<PlanInput>) returns (i: nat, j: nat)
    requires |path| > |among| && forall k | 0 <= k < |path| :: path[k] in among
    ensures i < j < |path| && path[i] == path[j]
  {
    if forall a, b | 0 <= a < b < |path| :: path[a] != path[b] {
      AllDifferent(path, among);
      assert false;
    }
    i, j :| 0 <= i < j < |path| && path[i] == path[j];
  }

  lemma CycleAmong(workers: seq<PlanInput>, left: seq<PlanInput>) returns (path: seq<PlanInput>)
    requires left != [] && (forall w | w in left :: w in workers)
    requires forall w | w in left :: exists d :: d in Deps(w) && d in Roles(left)
    ensures Cycle(workers, path)
  {
    var among := set w | w in left;
    var walk := Walk(workers, left, |among|);
    var i, j := SomeRepeat(walk, among);
    path := PathBetween(workers, walk, i, j);
  }

  lemma PathBetween(workers: seq<PlanInput>, walk: seq<PlanInput>, i: nat, j: nat) returns (path: seq<PlanInput>)
    requires Path(workers, walk) && i < j < |walk| && walk[i] == walk[j]
    ensures Cycle(workers, path)
  {
    path := walk[i..j + 1];
  }

  lemma LeftHasCycle(workers: seq<PlanInput>, left: seq<PlanInput>)
    requires left != [] && (forall w | w in left :: w in workers)
    requires KnownDeps(workers) && Blocking(workers, Roles(left))
    ensures exists path :: Cycle(workers, path)
  {
    forall w | w in left ensures exists d :: d in Deps(w) && d in Roles(left) {
      RoleOf(left, w);
      var d :| d in Deps(w) && d !in Roles(workers) - Roles(left);
      assert w in workers && d in Roles(workers);
    }
    var path := CycleAmong(workers, left);
  }

  /** A plan whose dependencies are all known is emitted as a whole exactly when it has no cycle. */
  lemma LeftIffCycle(workers: seq<PlanInput>)
    requires DistinctRoles(workers) && KnownDeps(workers)
    ensures SortOf(workers).left == [] <==> !exists path :: Cycle(workers, path)
  {
    var left := SortOf(workers).left;
    LeftIsLargest(workers);
    SortPartitions(workers);
    if left != [] {
      LeftHasCycle(workers, left);
    } else {
      forall path ensures !Cycle(workers, path) {
        if Cycle(workers, path) { CycleBlocks(workers, path); }
      }
    }
  }

  // ----- sorting again -----

  /** A sorted list with its leftovers at the end is cut at the same place again. */
  lemma {:induction false} SortKeeps(emitted: seq<PlanInput>, more: seq<PlanInput>, left: seq<PlanInput>)
    requires Ordered(emitted + more) && Stuck(left, Roles(emitted + more))
    ensures Sort(more + left, emitted) == Sorting(emitted + more, left)
    decreases |more|
  {
    var pending := more + left;
    var k := FirstReady(pending, Roles(emitted));
    if more == [] {
      assert emitted + more == emitted && pending == left;
      assert forall i | 0 <= i < |pending| :: !Ready(pending[i], Roles(emitted));
    } else {
      assert (emitted + more)[|emitted|] == more[0] && (emitted + more)[..|emitted|] == emitted;
      assert Ready(pending[0], Roles(emitted)) && k == 0;
      assert emitted + [more[0]] + more[1..] == emitted + more;
      assert Without(pending, 0) == more[1..] + left;
      SortKeeps(emitted + [more[0]], more[1..], left);
    }
  }

  /** A list in dependency order is not changed, and sorting a second time changes nothing. */
  lemma SortIsStable(workers: seq<PlanInput>)
    requires DistinctRoles(workers)
    ensures Ordered(workers) ==> SortOf(workers) == Sorting(workers, [])
    ensures SortOf(SortOf(workers).emitted + SortOf(workers).left) == SortOf(workers)
  {
    SortIsPermutation(workers);
    var s := SortOf(workers);
    PermutedDistinct(workers, s.emitted + s.left);
    SortedStays(s.emitted, s.left);
    if Ordered(workers) {
      assert workers + [] == workers;
      SortedStays(workers, []);
    }
  }

  lemma SortedStays(emitted: seq<PlanInput>, left: seq<PlanInput>)
    requires DistinctRoles(emitted + left) && Ordered(emitted) && Stuck(left, Roles(emitted))
    ensures SortOf(emitted + left) == Sorting(emitted, left)
  {
    ByRoleDistinct(emitted + left);
    assert [] + emitted == emitted;
    SortKeeps([], emitted, left);
  }

  lemma PermutedDistinct(workers: seq<PlanInput>, other: seq<PlanInput>)
    requires DistinctRoles(workers) && multiset(other) == multiset(workers)
    ensures DistinctRoles(other)
  {
    forall i, j | 0 <= i < j < |other| ensures other[i].role != other[j].role {
      if other[i].role == other[j].role {
        assert other[i] in multiset(other) && other[j] in multiset(other);
        assert other[i] in workers && other[j] in workers;
        SameRoleSame(workers, other[i], other[j]);
        assert other == other[..j] + other[j..];
        assert other[i] in other[..j] && other[i] in other[j..];
        TwicePresent(other[..j], other[j..], other[i]);
        OncePresent(workers, other[i]);
        assert false;
      }
    }
  }

  // ----- the workers of a turn -----

  /** The dependencies on other workers of the plan. */
  function Kept(deps: seq<string>, roles: set<string>, role: string): seq<string> {
    if deps == [] then [] else
      var d := deps[|deps| - 1];
      Kept(deps[..|deps| - 1], roles, role) + if d in roles && d != role then [d] else []
  }

  lemma {:induction false} KeptDeps(deps: seq<string>, roles: set<string>, role: string, d: string)
    ensures d in Kept(deps, roles, role) <==> d in deps && d in roles && d != role
  {
    if deps != [] {
      var n := |deps| - 1;
      assert deps == deps[..n] + [deps[n]];
      KeptDeps(deps[..n], roles, role, d);
    }
  }

  function Normalized(workers: seq<PlanInput>, roles: set<string>): seq<PlanInput> {
    seq(|workers|, i requires 0 <= i < |workers| =>
      workers[i].(dependsOn := Some(Kept(Deps(workers[i]), roles, workers[i].role))))
  }

  function State(worker: PlanInput, index: nat): Worker {
    Worker(worker.role, Deps(worker), Or(worker.capabilities, ["general-worker"]), Or(worker.handoff, "proposal"),
           Or(worker.name, worker.role), Or(worker.stage, "worker-" + Decimal(index + 1)))
  }

  function States(workers: seq<PlanInput>): seq<Worker> {
    seq(|workers|, i requires 0 <= i < |workers| => State(workers[i], i))
  }

  ghost function Planned(workers: seq<PlanInput>): seq<PlanInput> {
    Normalized(FirstPerRole(workers), Roles(workers))
  }

  ghost function PlanOf(workers: seq<PlanInput>): seq<Worker> {
    var sorting := SortOf(Planned(workers));
    States(sorting.emitted + sorting.left)
  }

  /** Nothing comes back when the plan is missing or empty, which the program reports as an error. */
  method WorkersFromPlan(workers: Option<seq<PlanInput>>) returns (r: Option<seq<Worker>>)
    ensures r == if workers.None? || workers.value == [] then None else Some(PlanOf(workers.value))
  {
    if workers.None? || |workers.value| == 0 {
      return None;
    }
    var deduped := DedupeWorkers(workers.value);
    DedupeKeepsRoles(workers.value);
    var roles := set w | w in deduped :: w.role;
    assert roles == Roles(deduped) by { RolesByMember(deduped); }
    var sorted := SortWorkersByDependencies(Normalized(deduped, roles));
    return Some(States(sorted));
  }

  lemma RolesByMember(workers: seq<PlanInput>)
    ensures Roles(workers) == set w | w in workers :: w.role
  {
    forall w | w in workers ensures w.role in Roles(workers) {
      RoleOf(workers, w);
    }
  }

  lemma PlannedIsKnown(workers: seq<PlanInput>)
    ensures DistinctRoles(Planned(workers)) && KnownDeps(Planned(workers)) && Roles(Planned(workers)) == Roles(workers)
    ensures forall w | w in Planned(workers) :: w.dependsOn.Some? && w.role !in Deps(w)
  {
    var first, planned := FirstPerRole(workers), Planned(workers);
    DedupeKeepsRoles(workers);
    forall r ensures r in Roles(planned) <==> r in Roles(first) {
      if r in Roles(planned) {
        var i :| 0 <= i < |planned| && planned[i].role == r;
        assert first[i].role == r;
      }
      if r in Roles(first) {
        var i :| 0 <= i < |first| && first[i].role == r;
        assert planned[i].role == r;
      }
    }
    forall w, d | w in planned && d in Deps(w) ensures d in Roles(planned) && d != w.role {
      var i :| 0 <= i < |planned| && planned[i] == w;
      KeptDeps(Deps(first[i]), Roles(workers), first[i].role, d);
    }
  }

  ghost predicate WorkerRole(workers: seq<Worker>, role: string) {
    exists j :: 0 <= j < |workers| && workers[j].role == role
  }

  /** Every worker speaks after all workers it depends on. */
  ghost predicate InOrder(workers: seq<Worker>) {
    forall i, d | 0 <= i < |workers| && d in workers[i].dependsOn :: WorkerRole(workers[..i], d)
  }

  lemma StatesHaveRoles(workers: seq<PlanInput>)
    requires DistinctRoles(workers) && KnownDeps(workers) && forall w | w in workers :: w.role !in Deps(w)
    ensures OwnRoles(States(workers))
    ensures forall r :: WorkerRole(States(workers), r) <==> r in Roles(workers)
  {
    var plan := States(workers);
    forall r ensures WorkerRole(plan, r) <==> r in Roles(workers) {
      if r in Roles(workers) {
        var i :| 0 <= i < |workers| && workers[i].role == r;
        assert plan[i].role == r;
      }
    }
    forall i, d | 0 <= i < |plan| && d in plan[i].dependsOn ensures WorkerRole(plan, d) && d != plan[i].role {
      assert workers[i] in workers && d in Deps(workers[i]);
    }
  }

  /** Each role is there once, and dependencies lead to other workers of the list. */
  ghost predicate OwnRoles(plan: seq<Worker>) {
    (forall i, j | 0 <= i < j < |plan| :: plan[i].role != plan[j].role) &&
    forall i, d | 0 <= i < |plan| && d in plan[i].dependsOn :: WorkerRole(plan, d) && d != plan[i].role
  }

  /** The plan has exactly the requested roles, each once, and depends on no other. */
  lemma PlanHasRoles(workers: seq<PlanInput>)
    ensures OwnRoles(PlanOf(workers)) && forall r :: WorkerRole(PlanOf(workers), r) <==> r in Roles(workers)
  {
    var planned := Planned(workers);
    PlannedIsKnown(workers);
    SortIsPermutation(planned);
    PermutedPlan(planned, SortOf(planned).emitted + SortOf(planned).left);
    StatesHaveRoles(SortOf(planned).emitted + SortOf(planned).left);
  }

  lemma PermutedPlan(workers: seq<PlanInput>, all: seq<PlanInput>)
    requires multiset(all) == multiset(workers) && DistinctRoles(workers) && KnownDeps(workers)
    ensures DistinctRoles(all) && KnownDeps(all) && Roles(all) == Roles(workers) &&
            forall w :: w in all <==> w in workers
  {
    PermutedDistinct(workers, all);
    SameMembers(workers, all);
    RolesByMember(workers);
    RolesByMember(all);
  }

  lemma SameMembers(a: seq<PlanInput>, b: seq<PlanInput>)
    requires multiset(a) == multiset(b)
    ensures forall w :: w in a <==> w in b
  {
    forall w ensures w in a <==> w in b {
      assert (w in a <==> w in multiset(a)) && (w in b <==> w in multiset(b));
    }
  }

  /** The workers can speak in dependency order exactly when no workers depend on each other in a
      circle; for such a plan they do. */
  lemma PlanInOrderIff(workers: seq<PlanInput>)
    ensures InOrder(PlanOf(workers)) <==> !exists path :: Cycle(Planned(workers), path)
  {
    var planned := Planned(workers);
    var s := SortOf(planned);
    PlannedIsKnown(workers);
    SortIsPermutation(planned);
    LeftIffCycle(planned);
    OrderedIffNoneLeft(s.emitted, s.left);
    StatesInOrder(s.emitted + s.left);
  }

  lemma OrderedIffNoneLeft(emitted: seq<PlanInput>, left: seq<PlanInput>)
    requires Ordered(emitted) && Stuck(left, Roles(emitted))
    ensures Ordered(emitted + left) <==> left == []
  {
    var all := emitted + left;
    if left == [] {
      assert all == emitted;
    } else {
      assert all[|emitted|] == left[0] && all[..|emitted|] == emitted;
      assert !Ready(left[0], Roles(emitted));
    }
  }

  lemma StatesInOrder(workers: seq<PlanInput>)
    ensures InOrder(States(workers)) <==> Ordered(workers)
  {
    var plan := States(workers);
    forall i, d | 0 <= i < |workers| ensures WorkerRole(plan[..i], d) <==> d in Roles(workers[..i]) {
      if WorkerRole(plan[..i], d) {
        var j :| 0 <= j < i && plan[..i][j].role == d;
        assert workers[..i][j].role == d;
      }
      if d in Roles(workers[..i]) {
        var j :| 0 <= j < i && workers[..i][j].role == d;
        assert plan[..i][j].role == d;
      }
    }
    if InOrder(plan) {
      forall i | 0 <= i < |workers| ensures Ready(workers[i], Roles(workers[..i])) {
        assert plan[i].dependsOn == Deps(workers[i]);
      }
    }
    if Ordered(workers) {
      forall i, d | 0 <= i < |plan| && d in plan[i].dependsOn ensures WorkerRole(plan[..i], d) {
        assert Ready(workers[i], Roles(workers[..i]));
      }
    }
  }
}
