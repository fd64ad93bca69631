/** The leases of the blackboard under interleaving: starts, runs and finishes whose store operations
    alternate in any order, while time passes. */
module BlackboardLeases {
  import opened Basics
  import opened BlackboardTypes
  import opened BlackboardStore
  import opened BlackboardModule

  /** A turn, or the start of one, on its scope. */
  datatype Holder = Holder(scope: string, turnId: string)

  /** The tables, the time, the starts that have got a lease and not yet stored their turn, and the
      finishes and failed starts that have not yet given it back. */
  datatype State = State(turns: map<string, Turn>, leases: map<string, Lease>, now: int,
                         starting: set<Holder>, ending: set<Holder>)

  /** One store operation of somebody, or time that passes. */
  datatype Action =
    | Tick(now: int)
    | Acquire(holder: Holder, ttlMs: int)
    | Abandon(holder: Holder)
    | Create(turn: Turn)
    | Write(turnId: string, steps: seq<Step>, decisions: seq<Decision>)
    | Close(turnId: string, status: Status)
    | Release(holder: Holder)

  function HolderOf(turn: Turn): Holder {
    Holder(turn.scope, turn.id)
  }

  /** Time does not go back; a start stores its turn, or fails on its plan, after it has got its
      lease; a turn does not start running again; what is released has ended. */
  predicate Enabled(s: State, a: Action) {
    match a
    case Tick(now) => s.now <= now
    case Acquire(_, _) => true
    case Abandon(holder) => holder in s.starting
    case Create(turn) => HolderOf(turn) in s.starting && turn.status == Running
    case Write(turnId, _, _) => turnId in s.turns
    case Close(turnId, status) => turnId in s.turns && status != Running
    case Release(holder) => holder in s.ending
  }

  predicate Granted(s: State, holder: Holder) {
    holder.scope !in Unexpired(s.leases, s.now)
  }

  function AfterAcquire(s: State, holder: Holder, ttlMs: int): State {
    var live := Unexpired(s.leases, s.now);
    if !Granted(s, holder) then s.(leases := live)
    else s.(leases := live[holder.scope := Lease(holder.scope, holder.turnId, s.now, s.now + ttlMs)],
            starting := s.starting + {holder})
  }

  /** A turn whose id is known already is refused, and its lease will be given back. */
  function AfterCreate(s: State, turn: Turn): State {
    var waiting := s.starting - {HolderOf(turn)};
    if turn.id in s.turns then s.(starting := waiting, ending := s.ending + {HolderOf(turn)})
    else s.(turns := s.turns[turn.id := turn], starting := waiting)
  }

  function AfterClose(s: State, turnId: string, status: Status): State
    requires turnId in s.turns
  {
    s.(turns := s.turns[turnId := s.turns[turnId].(status := status)],
       ending := s.ending + {Holder(s.turns[turnId].scope, turnId)})
  }

  function Next(s: State, a: Action): State
    requires Enabled(s, a)
  {
    match a
    case Tick(now) => s.(now := now)
    case Acquire(holder, ttlMs) => AfterAcquire(s, holder, ttlMs)
    case Abandon(holder) => s.(starting := s.starting - {holder})
    case Create(turn) => AfterCreate(s, turn)
    case Write(turnId, steps, decisions) =>
      s.(turns := s.turns[turnId := s.turns[turnId].(steps := steps, decisions := decisions)])
    case Close(turnId, status) => AfterClose(s, turnId, status)
    case Release(holder) =>
      s.(leases := Released(s.leases, holder.scope, holder.turnId), ending := s.ending - {holder})
  }

  // ----- one turn per scope -----

  predicate Runs(s: State, holder: Holder) {
    holder.turnId in s.turns && s.turns[holder.turnId].status == Running && s.turns[holder.turnId].scope == holder.scope
  }

  /** A running turn, or a start that has got its lease. */
  predicate Active(s: State, holder: Holder) {
    holder in s.starting || Runs(s, holder)
  }

  /** The scope is leased to this turn beyond that time. */
  predicate CoveredAt(s: State, holder: Holder, now: int) {
    Holds(s.leases, holder.scope, holder.turnId) && s.leases[holder.scope].expiresAt > now
  }

  predicate Covered(s: State, holder: Holder) {
    CoveredAt(s, holder, s.now)
  }

  ghost predicate Good(s: State) {
    forall holder :: Active(s, holder) ==> Covered(s, holder)
  }

  /** No scope has two turns running or starting. */
  ghost predicate Exclusive(s: State) {
    forall a, b :: Active(s, a) && Active(s, b) && a.scope == b.scope ==> a == b
  }

  lemma GoodIsExclusive(s: State)
    requires Good(s)
    ensures Exclusive(s)
  {
    forall a, b | Active(s, a) && Active(s, b) && a.scope == b.scope ensures a == b {
      assert Covered(s, a) && Covered(s, b);
    }
  }

  /** Nobody outlives a lease, no lease is granted for no time, and nobody gives back the lease under
      which somebody else goes on. */
  ghost predicate Timely(s: State, a: Action) {
    match a
    case Tick(now) => forall holder :: Active(s, holder) ==> CoveredAt(s, holder, now)
    case Acquire(holder, ttlMs) => Granted(s, holder) ==> ttlMs > 0
    case Release(holder) => !Active(s, holder)
    case _ => true
  }

  /** What is asked for is granted only where nobody is active. */
  lemma GrantedIsFree(s: State, holder: Holder, other: Holder)
    requires Good(s) && Granted(s, holder) && Active(s, other)
    ensures other.scope != holder.scope
  {
    assert Covered(s, other);
  }

  lemma AcquireKeeps(s: State, holder: Holder, ttlMs: int)
    requires Good(s)
    ensures Good(AfterAcquire(s, holder, ttlMs)) <==> (Granted(s, holder) ==> ttlMs > 0)
  {
    var r := AfterAcquire(s, holder, ttlMs);
    if Granted(s, holder) {
      forall other | Active(s, other) ensures Covered(r, other) && other != holder {
        GrantedIsFree(s, holder, other);
        assert Covered(s, other);
      }
      assert Active(r, holder) && forall other :: Active(r, other) ==> other == holder || Active(s, other);
      assert Covered(r, holder) <==> ttlMs > 0;
    } else {
      forall other | Active(s, other) ensures Covered(r, other) {
        assert Covered(s, other);
      }
      assert forall other :: Active(r, other) ==> Active(s, other);
    }
  }

  lemma CreateKeeps(s: State, turn: Turn)
    requires Good(s) && Enabled(s, Create(turn))
    ensures Good(AfterCreate(s, turn))
  {
    var r := AfterCreate(s, turn);
    forall other | Active(r, other) ensures Covered(r, other) {
      assert Active(s, other) || other == HolderOf(turn);
      assert Covered(s, other);
    }
  }

  lemma CloseKeeps(s: State, turnId: string, status: Status)
    requires Good(s) && Enabled(s, Close(turnId, status))
    ensures Good(AfterClose(s, turnId, status))
  {
    var r := AfterClose(s, turnId, status);
    forall other | Active(r, other) ensures Covered(r, other) {
      assert Active(s, other);
      assert Covered(s, other);
    }
  }

  lemma ReleaseKeeps(s: State, holder: Holder)
    requires Good(s) && Enabled(s, Release(holder))
    ensures Good(Next(s, Release(holder))) <==> !Active(s, holder)
  {
    var r := Next(s, Release(holder));
    assert forall other :: Active(r, other) <==> Active(s, other);
    if Active(s, holder) {
      assert Covered(s, holder) && !Covered(r, holder);
    } else {
      forall other | Active(r, other) ensures Covered(r, other) {
        assert Covered(s, other) && other != holder;
      }
    }
  }

  lemma OthersKeep(s: State, a: Action)
    requires Good(s) && Enabled(s, a) && (a.Abandon? || a.Write?)
    ensures Good(Next(s, a))
  {
    var r := Next(s, a);
    forall other | Active(r, other) ensures Covered(r, other) {
      assert Active(s, other);
      assert Covered(s, other);
    }
  }

  lemma TickKeeps(s: State, now: int)
    requires Good(s) && Enabled(s, Tick(now))
    ensures Good(Next(s, Tick(now))) <==> Timely(s, Tick(now))
  {
    var r := Next(s, Tick(now));
    assert forall holder :: Active(r, holder) <==> Active(s, holder);
    assert forall holder :: Covered(r, holder) <==> CoveredAt(s, holder, now);
  }

  /** Exactly the timely steps keep every running turn, and every start, alone on its scope and
      covered by its own lease. */
  lemma StepIsGoodIffTimely(s: State, a: Action)
    requires Good(s) && Enabled(s, a)
    ensures Good(Next(s, a)) <==> Timely(s, a)
  {
    match a
    case Tick(now) => TickKeeps(s, now);
    case Acquire(holder, ttlMs) => AcquireKeeps(s, holder, ttlMs);
    case Create(turn) => CreateKeeps(s, turn);
    case Close(turnId, status) => CloseKeeps(s, turnId, status);
    case Release(holder) => ReleaseKeeps(s, holder);
    case _ => OthersKeep(s, a);
  }

  /** After a step that is not timely somebody is active on a scope that the next start gets. */
  lemma UntimelyAllowsTwo(s: State, a: Action, turnId: string, ttlMs: int) returns (first: Holder)
    requires Good(s) && Enabled(s, a) && !Timely(s, a)
    requires forall holder :: Active(Next(s, a), holder) ==> holder.turnId != turnId
    ensures var r := Next(s, a);
            var second := Holder(first.scope, turnId);
            Active(r, first) && Granted(r, second) && !Exclusive(Next(r, Acquire(second, ttlMs)))
  {
    var r := Next(s, a);
    StepIsGoodIffTimely(s, a);
    first :| Active(r, first) && !Covered(r, first);
    var second := Holder(first.scope, turnId);
    UncoveredIsGranted(s, a, first);
    var two := Next(r, Acquire(second, ttlMs));
    assert Active(two, first) && Active(two, second) && first != second;
  }

  /** A step never leaves somebody active under the live lease of another. */
  lemma UncoveredIsGranted(s: State, a: Action, holder: Holder)
    requires Good(s) && Enabled(s, a) && Active(Next(s, a), holder) && !Covered(Next(s, a), holder)
    ensures holder.scope !in Unexpired(Next(s, a).leases, Next(s, a).now)
  {
    var r := Next(s, a);
    match a
    case Tick(now) => assert Covered(s, holder);
    case Acquire(asking, ttlMs) =>
      if asking != holder || !Granted(s, asking) {
        assert Covered(s, holder);
        if Granted(s, asking) { GrantedIsFree(s, asking, holder); }
      }
    case Create(turn) => CreateKeeps(s, turn);
    case Close(turnId, status) => CloseKeeps(s, turnId, status);
    case Release(ended) => assert Covered(s, holder);
    case _ => OthersKeep(s, a);
  }

  // ----- whole interleavings -----

  /** The actions can be taken one after the other. */
  predicate Possible(s: State, actions: seq<Action>)
    decreases |actions|
  {
    actions == [] || (Enabled(s, actions[0]) && Possible(Next(s, actions[0]), actions[1..]))
  }

  function RunActions(s: State, actions: seq<Action>): State
    requires Possible(s, actions)
    decreases |actions|
  {
    if actions == [] then s else RunActions(Next(s, actions[0]), actions[1..])
  }

  ghost predicate AllTimely(s: State, actions: seq<Action>)
    requires Possible(s, actions)
    decreases |actions|
  {
    actions == [] || (Timely(s, actions[0]) && AllTimely(Next(s, actions[0]), actions[1..]))
  }

  /** In every timely interleaving at most one turn runs or starts on a scope. */
  lemma {:induction false} TimelyRunsAreExclusive(s: State, actions: seq<Action>)
    requires Good(s) && Possible(s, actions) && AllTimely(s, actions)
    ensures Good(RunActions(s, actions)) && Exclusive(RunActions(s, actions))
    decreases |actions|
  {
    if actions == [] {
      GoodIsExclusive(s);
    } else {
      StepIsGoodIffTimely(s, actions[0]);
      TimelyRunsAreExclusive(Next(s, actions[0]), actions[1..]);
    }
  }

  lemma EmptyIsGood(now: int)
    ensures Good(State(map[], map[], now, {}, {}))
  {
  }

  // ----- the operations of the module, uninterrupted, are such steps -----

  lemma FirstStep(s: State, a: Action, rest: seq<Action>)
    ensures Possible(s, [a] + rest) <==> Enabled(s, a) && Possible(Next(s, a), rest)
    ensures Possible(s, [a] + rest) ==> RunActions(s, [a] + rest) == RunActions(Next(s, a), rest)
  {
    assert ([a] + rest)[1..] == rest;
  }

  lemma TwoSteps(s: State, a: Action, b: Action)
    requires Enabled(s, a) && Enabled(Next(s, a), b)
    ensures Possible(s, [a, b]) && RunActions(s, [a, b]) == Next(Next(s, a), b)
  {
    FirstStep(s, a, [b]);
    FirstStep(Next(s, a), b, []);
    assert [a] + [b] == [a, b] && [b] + [] == [b];
  }

  lemma ThreeSteps(s: State, a: Action, b: Action, c: Action)
    requires Enabled(s, a) && Enabled(Next(s, a), b) && Enabled(Next(Next(s, a), b), c)
    ensures Possible(s, [a, b, c]) && RunActions(s, [a, b, c]) == Next(Next(Next(s, a), b), c)
  {
    FirstStep(s, a, [b, c]);
    TwoSteps(Next(s, a), b, c);
    assert [a] + [b, c] == [a, b, c];
  }

  /** The operations of a start: the lease, then the plan, then the turn, then perhaps the release. */
  ghost function StartSteps(s: State, request: StartRequest): seq<Action> {
    var holder := Holder(request.scope, request.turnId);
    var acquire := Acquire(holder, Or(request.leaseTtlMs, DEFAULT_LEASE_TTL_MS));
    if !Granted(s, holder) then [acquire]
    else if !Planned(request) then [acquire, Abandon(holder)]
    else if request.turnId in s.turns then [acquire, Create(NewTurn(request)), Release(holder)]
    else [acquire, Create(NewTurn(request))]
  }

  /** `BlackboardModule.StartTurn` leaves the tables as these steps do. */
  lemma StartIsSteps(s: State, request: StartRequest)
    requires request.now == s.now
    ensures Possible(s, StartSteps(s, request))
    ensures var r := RunActions(s, StartSteps(s, request));
            var live := Unexpired(s.leases, request.now);
            if request.scope in live then r.leases == live && r.turns == s.turns
            else if !Planned(request) then r.leases == live[request.scope := NewLease(request)] && r.turns == s.turns
            else if request.turnId in s.turns then r.leases == live && r.turns == s.turns
            else
              r.leases == live[request.scope := NewLease(request)] &&
                r.turns == s.turns[request.turnId := NewTurn(request)]
  {
    var holder := Holder(request.scope, request.turnId);
    var acquire := Acquire(holder, Or(request.leaseTtlMs, DEFAULT_LEASE_TTL_MS));
    if !Granted(s, holder) {
      FirstStep(s, acquire, []);
      assert [acquire] + [] == [acquire];
    } else if !Planned(request) {
      TwoSteps(s, acquire, Abandon(holder));
    } else if request.turnId in s.turns {
      ThreeSteps(s, acquire, Create(NewTurn(request)), Release(holder));
    } else {
      TwoSteps(s, acquire, Create(NewTurn(request)));
    }
  }

  /** `BlackboardModule.FinishTurn` and `RequestDecision` leave them as these do. */
  lemma FinishIsSteps(s: State, turnId: string, status: Status, decision: Decision)
    requires turnId in s.turns && status != Running
    ensures var turn := s.turns[turnId];
            var steps := [Close(turnId, status), Release(Holder(turn.scope, turnId))];
            && Possible(s, steps)
            && var r := RunActions(s, steps);
               r.turns == s.turns[turnId := turn.(status := status)] &&
                 r.leases == Released(s.leases, turn.scope, turnId)
    ensures var turn := s.turns[turnId];
            var steps := [Write(turnId, turn.steps, turn.decisions + [decision]), Close(turnId, NeedsUser),
                          Release(Holder(turn.scope, turnId))];
            && Possible(s, steps)
            && var r := RunActions(s, steps);
               && r.turns == s.turns[turnId := turn.(status := NeedsUser, decisions := turn.decisions + [decision])]
               && r.leases == Released(s.leases, turn.scope, turnId)
  {
    var turn := s.turns[turnId];
    var release := Release(Holder(turn.scope, turnId));
    TwoSteps(s, Close(turnId, status), release);
    ThreeSteps(s, Write(turnId, turn.steps, turn.decisions + [decision]), Close(turnId, NeedsUser), release);
  }
}
