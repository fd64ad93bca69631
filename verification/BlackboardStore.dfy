/** The tables of the blackboard: turns with their steps and decisions, and leases. */
module BlackboardStore {
  import opened Basics
  import opened BlackboardTypes

  datatype Lease = Lease(scope: string, turnId: string, acquiredAt: int, expiresAt: int)

  datatype LeaseResult = Acquired(lease: Lease) | Conflict(lease: Lease)

  // ----- rows in order -----

  /** `ORDER BY`: the row goes in front of the rows at the end that belong behind it. */
  function Insert<T>(sorted: seq<T>, row: T, behind: (T, T) -> bool): (r: seq<T>)
    ensures |r| == |sorted| + 1
  {
    if sorted != [] && behind(sorted[|sorted| - 1], row)
    then Insert(sorted[..|sorted| - 1], row, behind) + [sorted[|sorted| - 1]]
    else sorted + [row]
  }

  function OrderBy<T>(rows: seq<T>, behind: (T, T) -> bool): (r: seq<T>)
    ensures |r| == |rows|
  {
    if rows == [] then [] else Insert(OrderBy(rows[..|rows| - 1], behind), rows[|rows| - 1], behind)
  }

  lemma LastApart<T>(rows: seq<T>)
    requires rows != []
    ensures multiset(rows) == multiset(rows[..|rows| - 1]) + multiset{rows[|rows| - 1]}
  {
    assert rows == rows[..|rows| - 1] + [rows[|rows| - 1]];
  }

  lemma {:induction false} InsertPermutes<T>(sorted: seq<T>, row: T, behind: (T, T) -> bool)
    ensures multiset(Insert(sorted, row, behind)) == multiset(sorted) + multiset{row}
  {
    if sorted != [] && behind(sorted[|sorted| - 1], row) {
      InsertPermutes(sorted[..|sorted| - 1], row, behind);
      LastApart(sorted);
    }
  }

  /** Ordering keeps the rows. */
  lemma {:induction false} OrderByPermutes<T>(rows: seq<T>, behind: (T, T) -> bool)
    ensures multiset(OrderBy(rows, behind)) == multiset(rows)
  {
    if rows != [] {
      var front, last := rows[..|rows| - 1], rows[|rows| - 1];
      OrderByPermutes(front, behind);
      InsertPermutes(OrderBy(front, behind), last, behind);
      LastApart(rows);
    }
  }

  ghost predicate InOrderBy<T>(rows: seq<T>, behind: (T, T) -> bool) {
    forall i, j | 0 <= i < j < |rows| :: !behind(rows[i], rows[j])
  }

  /** Of rows that are behind each other in turn, and of no others, the first is behind the last. */
  ghost predicate IsOrder<T(!new)>(behind: (T, T) -> bool) {
    (forall a, b, c :: behind(a, b) && !behind(c, b) ==> behind(a, c)) &&
    (forall a, b :: behind(a, b) ==> !behind(b, a))
  }

  lemma {:induction false} InsertInOrder<T(!new)>(sorted: seq<T>, row: T, behind: (T, T) -> bool)
    requires IsOrder(behind) && InOrderBy(sorted, behind)
    ensures InOrderBy(Insert(sorted, row, behind), behind)
  {
    var r := Insert(sorted, row, behind);
    if sorted != [] && behind(sorted[|sorted| - 1], row) {
      var front, last := sorted[..|sorted| - 1], sorted[|sorted| - 1];
      InsertInOrder(front, row, behind);
      InsertPermutes(front, row, behind);
      var inner := Insert(front, row, behind);
      forall i | 0 <= i < |inner| ensures !behind(inner[i], last) {
        assert inner[i] in multiset(inner);
        assert inner[i] in front || inner[i] == row;
      }
    } else {
      forall i | 0 <= i < |sorted| ensures !behind(sorted[i], row) {
        assert i < |sorted| - 1 ==> !behind(sorted[i], sorted[|sorted| - 1]);
      }
    }
  }

  lemma {:induction false} OrderByInOrder<T(!new)>(rows: seq<T>, behind: (T, T) -> bool)
    requires IsOrder(behind)
    ensures InOrderBy(OrderBy(rows, behind), behind)
  {
    if rows != [] {
      OrderByInOrder(rows[..|rows| - 1], behind);
      InsertInOrder(OrderBy(rows[..|rows| - 1], behind), rows[|rows| - 1], behind);
    }
  }

  predicate StepBehind(a: Step, b: Step) {
    a.round > b.round || (a.round == b.round && a.createdAt > b.createdAt)
  }

  predicate DecisionBehind(a: Decision, b: Decision) {
    a.createdAt > b.createdAt
  }

  function OrderedSteps(steps: seq<Step>): seq<Step> {
    OrderBy(steps, StepBehind)
  }

  /** A turn as it is read: its steps by round and time, its decisions by time. */
  function Hydrated(turn: Turn): Turn {
    turn.(steps := OrderedSteps(turn.steps), decisions := OrderBy(turn.decisions, DecisionBehind))
  }

  /** By round, and within a round by time. */
  ghost predicate StepsInOrder(steps: seq<Step>) {
    forall i, j | 0 <= i < j < |steps| ::
      steps[i].round < steps[j].round ||
      (steps[i].round == steps[j].round && steps[i].createdAt <= steps[j].createdAt)
  }

  ghost predicate DecisionsInOrder(decisions: seq<Decision>) {
    forall i, j | 0 <= i < j < |decisions| :: decisions[i].createdAt <= decisions[j].createdAt
  }

  lemma StepsAreOrdered(steps: seq<Step>)
    ensures multiset(OrderedSteps(steps)) == multiset(steps) && StepsInOrder(OrderedSteps(steps))
  {
    OrderByPermutes(steps, StepBehind);
    OrderByInOrder(steps, StepBehind);
    var r := OrderedSteps(steps);
    assert forall i, j | 0 <= i < j < |r| :: !StepBehind(r[i], r[j]);
  }

  lemma DecisionsAreOrdered(decisions: seq<Decision>)
    ensures var r := OrderBy(decisions, DecisionBehind);
            multiset(r) == multiset(decisions) && DecisionsInOrder(r)
  {
    OrderByPermutes(decisions, DecisionBehind);
    OrderByInOrder(decisions, DecisionBehind);
    var r := OrderBy(decisions, DecisionBehind);
    assert forall i, j | 0 <= i < j < |r| :: !DecisionBehind(r[i], r[j]);
  }

  /** Reading shows every step and every decision once, the steps by round and time, the decisions by time. */
  lemma HydratedShowsAll(turn: Turn)
    ensures multiset(Hydrated(turn).steps) == multiset(turn.steps)
    ensures multiset(Hydrated(turn).decisions) == multiset(turn.decisions)
    ensures StepsInOrder(Hydrated(turn).steps) && DecisionsInOrder(Hydrated(turn).decisions)
  {
    StepsAreOrdered(turn.steps);
    DecisionsAreOrdered(turn.decisions);
  }

  /** A step that comes in its round and time behind the others, or with them, is read last. */
  lemma OrderedStepsNext(steps: seq<Step>, step: Step)
    requires forall s | s in steps :: s.round < step.round || (s.round == step.round && s.createdAt <= step.createdAt)
    ensures OrderedSteps(steps + [step]) == OrderedSteps(steps) + [step]
  {
    assert (steps + [step])[..|steps|] == steps;
    OrderByPermutes(steps, StepBehind);
    var sorted := OrderedSteps(steps);
    if sorted != [] {
      assert sorted[|sorted| - 1] in multiset(sorted);
    }
  }

  /** So is a decision that no other is later than. */
  lemma OrderedDecisionsNext(decisions: seq<Decision>, decision: Decision)
    requires forall d | d in decisions :: d.createdAt <= decision.createdAt
    ensures OrderBy(decisions + [decision], DecisionBehind) == OrderBy(decisions, DecisionBehind) + [decision]
  {
    assert (decisions + [decision])[..|decisions|] == decisions;
    OrderByPermutes(decisions, DecisionBehind);
    var sorted := OrderBy(decisions, DecisionBehind);
    if sorted != [] {
      assert sorted[|sorted| - 1] in multiset(sorted);
    }
  }

  // ----- leases -----

  function Unexpired(leases: map<string, Lease>, now: int): map<string, Lease> {
    map scope | scope in leases && leases[scope].expiresAt > now :: leases[scope]
  }

  predicate Holds(leases: map<string, Lease>, scope: string, turnId: string) {
    scope in leases && leases[scope].turnId == turnId
  }

  function Released(leases: map<string, Lease>, scope: string, turnId: string): map<string, Lease> {
    if Holds(leases, scope, turnId) then leases - {scope} else leases
  }

  /** The tables. Every operation is one statement sequence that nothing else interrupts. */
  class BlackboardRepo {
    var turns: map<string, Turn>
    var leases: map<string, Lease>

    /** A turn is stored under its id. */
    ghost predicate Valid() reads this {
      forall id | id in turns :: turns[id].id == id
    }

    constructor ()
      ensures Valid() && turns == map[] && leases == map[]
    {
      turns, leases := map[], map[];
    }

    /** Expired leases go; then the scope is given to the turn unless another lease holds it. */
    method AcquireLease(scope: string, turnId: string, now: int, ttlMs: int) returns (r: LeaseResult)
      modifies this`leases
      ensures var live := Unexpired(old(leases), now);
              if scope in live then r == Conflict(live[scope]) && leases == live
              else r == Acquired(Lease(scope, turnId, now, now + ttlMs)) && leases == live[scope := r.lease]
      ensures r.Conflict? <==> scope in old(leases) && now < old(leases)[scope].expiresAt
      ensures forall other | other != scope || r.Conflict? ::
                && (other in leases <==> other in old(leases) && now < old(leases)[other].expiresAt)
                && (other in leases ==> leases[other] == old(leases)[other])
    {
      leases := Unexpired(leases, now);
      if scope in leases {
        return Conflict(leases[scope]);
      }
      var lease := Lease(scope, turnId, now, now + ttlMs);
      leases := leases[scope := lease];
      return Acquired(lease);
    }

    method ReleaseLease(scope: string, turnId: string) returns (released: Option<Lease>)
      modifies this`leases
      ensures leases == Released(old(leases), scope, turnId)
      ensures released == if Holds(old(leases), scope, turnId) then Some(old(leases)[scope]) else None
    {
      if !Holds(leases, scope, turnId) {
        return None;
      }
      released := Some(leases[scope]);
      leases := leases - {scope};
    }

    /** A second turn with the same id is refused, as the primary key demands. */
    method CreateTurn(turn: Turn) returns (ok: bool)
      requires Valid()
      modifies this`turns
      ensures Valid()
      ensures ok == (turn.id !in old(turns))
      ensures turns == if ok then old(turns)[turn.id := turn] else old(turns)
    {
      ok := turn.id !in turns;
      if ok { turns := turns[turn.id := turn]; }
    }

    method GetTurn(turnId: string) returns (turn: Option<Turn>)
      ensures turn == if turnId in turns then Some(Hydrated(turns[turnId])) else None
    {
      turn := if turnId in turns then Some(Hydrated(turns[turnId])) else None;
    }

    /** The foreign key demands the turn. */
    method AppendStep(turnId: string, step: Step)
      requires Valid() && turnId in turns
      modifies this`turns
      ensures Valid()
      ensures turns == old(turns)[turnId := old(turns)[turnId].(steps := old(turns)[turnId].steps + [step])]
    {
      var turn := turns[turnId];
      turns := turns[turnId := turn.(steps := turn.steps + [step])];
    }

    method AppendDecision(turnId: string, decision: Decision)
      requires Valid() && turnId in turns
      modifies this`turns
      ensures Valid()
      ensures turns == old(turns)[turnId := old(turns)[turnId].(decisions := old(turns)[turnId].decisions + [decision])]
    {
      var turn := turns[turnId];
      turns := turns[turnId := turn.(decisions := turn.decisions + [decision])];
    }

    method UpdateTurnStatus(turnId: string, status: Status) returns (turn: Option<Turn>)
      requires Valid()
      modifies this`turns
      ensures Valid()
      ensures turnId !in old(turns) ==> turns == old(turns) && turn == None
      ensures turnId in old(turns) ==>
                turns == old(turns)[turnId := old(turns)[turnId].(status := status)] &&
                turn == Some(Hydrated(turns[turnId]))
    {
      if turnId in turns { turns := turns[turnId := turns[turnId].(status := status)]; }
      turn := GetTurn(turnId);
    }
  }
}
