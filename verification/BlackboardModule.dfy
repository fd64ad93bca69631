/** The blackboard: starting a turn, running its rounds, and handing the turn back. */
module BlackboardModule {
  import opened Basics
  import opened BlackboardTypes
  import opened Convergence
  import opened BlackboardStore
  import opened BlackboardRun
  import opened BlackboardLaws
  import WorkerPlan

  const DEFAULT_LEASE_TTL_MS := 15 * 60 * 1000
  const DEFAULT_MIN_ROUNDS := 1
  const DEFAULT_HARD_MAX_ROUNDS := 5

  datatype StartRequest = StartRequest(
    scope: string,
    turnId: string,
    now: int,
    leaseTtlMs: Option<int>,
    hardMaxRounds: Option<int>,
    minRounds: Option<int>,
    workers: Option<seq<PlanInput>>,
    contract: Option<Contract>)

  /** `Refused` is an error thrown to the caller. */
  datatype StartResult = LeaseConflict(lease: Lease) | Refused | Started(lease: Lease, turn: Turn)

  datatype RunResult = RunError | Returned(turn: Option<Turn>)

  ghost predicate Planned(request: StartRequest) {
    request.workers.Some? && request.workers.value != []
  }

  ghost function NewTurn(request: StartRequest): Turn
    requires Planned(request)
  {
    Turn(request.turnId, request.scope, Running,
         Or(request.hardMaxRounds, DEFAULT_HARD_MAX_ROUNDS), Or(request.minRounds, DEFAULT_MIN_ROUNDS),
         WorkerPlan.PlanOf(request.workers.value),
         Or(request.contract, Contract(false, "default-convergence", [])), [], [])
  }

  function NewLease(request: StartRequest): Lease {
    Lease(request.scope, request.turnId, request.now, request.now + Or(request.leaseTtlMs, DEFAULT_LEASE_TTL_MS))
  }

  /** The turn with what a run has added to its steps. */
  function Grown(base: Turn, turn: Turn): Turn
    requires |base.steps| <= |turn.steps|
  {
    base.(steps := base.steps + turn.steps[|base.steps|..])
  }

  /** The turn as the run leaves it: converged, or with one decision more for the user. */
  ghost function Closed(base: Turn, run: Run, now: int): Turn
    requires |base.steps| <= |run.turn.steps|
  {
    var grown := Grown(base, run.turn);
    match run.ending
    case Threw => grown
    case Finished => grown.(status := Converged)
    case Asked(reason, code) =>
      grown.(status := NeedsUser, decisions := grown.decisions + [DecisionOf(run.turn, reason, code, run.last, now)])
  }

  ghost function DecisionOf(turn: Turn, reason: DecisionReason, code: Reason, round: int, now: int): Decision {
    Decision(reason, UnresolvedOf(turn.steps, turn.contract, code), round, now)
  }

  /** The run from a round on. */
  ghost function RestOf(judge: Judge, s: Setting): (Turn, int) -> Run {
    (turn: Turn, round: int) => PlayWith(turn, round, s, judge)
  }

  /** A round in which nobody fails is followed as it is judged, and no round follows the last. */
  ghost predicate Leads(rest: (Turn, int) -> Run, judge: Judge, s: Setting, turn: Turn, round: int) {
    var run := rest(turn, round);
    if round > s.hardMax then
      run == Run(turn, [], s.hardMax, Asked(Verdict(HardRoundBudgetExhausted), HardRoundBudgetExhausted))
    else AllBelow(turn.steps, round) ==>
      var p := RoundOf(turn, round, s, |s.team|);
      && p.turn.status == turn.status && p.turn.contract == turn.contract && AllBelow(p.turn.steps, round + 1)
      && if !p.ok then run.turn == p.turn && run.ending == Threw && run.last == round else
           match judge(InRound(p.turn.steps, round), round)
           case Finish => run.turn == p.turn && run.last == round && run.ending == Finished
           case Ask(reason, code) => run.turn == p.turn && run.last == round && run.ending == Asked(reason, code)
           case KeepGoing => SameEnd(rest(p.turn, round + 1), run)
  }

  ghost predicate Follows(rest: (Turn, int) -> Run, judge: Judge, s: Setting) {
    forall turn: Turn, round: int :: Leads(rest, judge, s, turn, round)
  }

  ghost predicate Runnable(turns: map<string, Turn>, turnId: string) {
    turnId in turns && turns[turnId].status == Running && turns[turnId].workers != []
  }

  class BlackboardModule {
    const store: BlackboardRepo
    const workers: Workers

    constructor (store: BlackboardRepo, workers: Workers)
      ensures this.store == store && this.workers == workers
    {
      this.store, this.workers := store, workers;
    }

    /** On success the turn holds the scope's lease and starts empty with its planned workers. A
        missing plan is refused with the lease still held; a known turn id is refused with the lease
        given back. */
    method StartTurn(request: StartRequest) returns (r: StartResult)
      requires store.Valid()
      modifies store
      ensures store.Valid()
      ensures var live := Unexpired(old(store.leases), request.now);
              if request.scope in live then
                r == LeaseConflict(live[request.scope]) && store.leases == live && store.turns == old(store.turns)
              else if !Planned(request) then
                r == Refused && store.leases == live[request.scope := NewLease(request)] &&
                  store.turns == old(store.turns)
              else if request.turnId in old(store.turns) then
                r == Refused && store.leases == live && store.turns == old(store.turns)
              else
                r == Started(NewLease(request), NewTurn(request)) &&
                store.leases == live[request.scope := NewLease(request)] &&
                store.turns == old(store.turns)[request.turnId := NewTurn(request)]
      ensures r.Started? ==>
                && r.lease.scope == request.scope && r.lease.turnId == request.turnId
                && r.lease.acquiredAt == request.now
                && r.lease.expiresAt ==
                   request.now + (match request.leaseTtlMs case Some(ttl) => ttl case None => 900000)
      ensures r.Started? ==>
                && r.turn.id == request.turnId && r.turn.scope == request.scope && r.turn.status == Running
                && r.turn.hardMaxRounds == (match request.hardMaxRounds case Some(n) => n case None => 5)
                && r.turn.minRounds == (match request.minRounds case Some(n) => n case None => 1)
                && r.turn.contract ==
                   (match request.contract case Some(c) => c case None => Contract(false, "default-convergence", []))
                && r.turn.steps == [] && r.turn.decisions == []
    {
      var lease := store.AcquireLease(request.scope, request.turnId, request.now,
                                      Or(request.leaseTtlMs, DEFAULT_LEASE_TTL_MS));
      if lease.Conflict? {
        return LeaseConflict(lease.lease);
      }
      var plannedWorkers := WorkerPlan.WorkersFromPlan(request.workers);
      if plannedWorkers.None? {
        return Refused;
      }
      var turn := Turn(
        request.turnId, request.scope, Running,
        Or(request.hardMaxRounds, DEFAULT_HARD_MAX_ROUNDS), Or(request.minRounds, DEFAULT_MIN_ROUNDS),
        plannedWorkers.value, Or(request.contract, Contract(false, "default-convergence", [])), [], []);
      var ok := store.CreateTurn(turn);
      if !ok {
        var released := store.ReleaseLease(request.scope, request.turnId);
        return Refused;
      }
      return Started(lease.lease, turn);
    }

    method FinishTurn(turnId: string, status: Status) returns (updated: Option<Turn>)
      requires store.Valid()
      modifies store
      ensures store.Valid()
      ensures turnId !in old(store.turns) ==>
                updated == None && store.turns == old(store.turns) && store.leases == old(store.leases)
      ensures turnId in old(store.turns) ==>
                var turn := old(store.turns)[turnId];
                store.turns == old(store.turns)[turnId := turn.(status := status)] &&
                store.leases == Released(old(store.leases), turn.scope, turnId) &&
                updated == Some(Hydrated(turn.(status := status)))
    {
      var existing := store.GetTurn(turnId);
      if existing.None? {
        return None;
      }
      updated := store.UpdateTurnStatus(turnId, status);
      var released := store.ReleaseLease(existing.value.scope, turnId);
    }

    /** Only a running turn can be handed to the user. */
    method RequestDecision(turnId: string, decision: Decision) returns (ok: bool)
      requires store.Valid()
      modifies store
      ensures store.Valid()
      ensures ok == (turnId in old(store.turns) && old(store.turns)[turnId].status == Running)
      ensures !ok ==> store.turns == old(store.turns) && store.leases == old(store.leases)
      ensures ok ==>
                var turn := old(store.turns)[turnId];
                store.turns == old(store.turns)[turnId := turn.(status := NeedsUser,
                                                                decisions := turn.decisions + [decision])] &&
                store.leases == Released(old(store.leases), turn.scope, turnId)
    {
      var turn := store.GetTurn(turnId);
      if turn.None? || turn.value.status != Running {
        return false;
      }
      store.AppendDecision(turnId, decision);
      var finished := FinishTurn(turnId, NeedsUser);
      return true;
    }

    method ReturnDecisionToUser(turn: Turn, reason: DecisionReason, code: Reason, round: int, now: int)
      returns (r: RunResult)
      requires store.Valid()
      modifies store
      ensures store.Valid()
      ensures turn.id in old(store.turns) && old(store.turns)[turn.id].status == Running ==>
                var stored := old(store.turns)[turn.id];
                var asked := stored.(status := NeedsUser,
                                     decisions := stored.decisions + [DecisionOf(turn, reason, code, round, now)]);
                store.turns == old(store.turns)[turn.id := asked] &&
                store.leases == Released(old(store.leases), stored.scope, turn.id) &&
                r == Returned(Some(Hydrated(asked)))
      ensures !(turn.id in old(store.turns) && old(store.turns)[turn.id].status == Running) ==>
                store.turns == old(store.turns) && store.leases == old(store.leases) && r == RunError
    {
      var unresolvedIssues := LatestUnresolvedIssues(turn.steps, turn.contract, code);
      var ok := RequestDecision(turn.id, Decision(reason, unresolvedIssues, round, now));
      if !ok {
        return RunError;
      }
      var result := store.GetTurn(turn.id);
      return Returned(result);
    }

    /** Records a step; an unknown turn or one that has ended is an error. */
    method AppendStep(turnId: string, step: Step) returns (ok: bool)
      requires store.Valid()
      modifies store`turns
      ensures store.Valid()
      ensures ok == (turnId in old(store.turns) && old(store.turns)[turnId].status == Running)
      ensures !ok ==> store.turns == old(store.turns)
      ensures ok ==>
                var turn := old(store.turns)[turnId];
                store.turns == old(store.turns)[turnId := turn.(steps := turn.steps + [step])]
    {
      var turn := store.GetTurn(turnId);
      if turn.None? || turn.value.status != Running {
        return false;
      }
      store.AppendStep(turnId, step);
      return true;
    }

    /** Gives a worker its task and records the step; nothing is recorded when anything fails. */
    method RunWorker(turnId: string, round: int, role: string, prompt: Prompt, createdAt: int, turn: Turn)
      returns (step: Option<Step>)
      requires store.Valid()
      modifies store`turns
      ensures store.Valid()
      ensures var output := workers(TaskWith(turn, round, role, prompt));
              if turn.status == Running && turnId in old(store.turns) && old(store.turns)[turnId].status == Running &&
                output.Some?
              then
                var stored := old(store.turns)[turnId];
                step == Some(StepFrom(round, role, output.value, createdAt)) &&
                store.turns == old(store.turns)[turnId := stored.(steps := stored.steps + [step.value])]
              else step == None && store.turns == old(store.turns)
      ensures var output := workers(TaskWith(turn, round, role, prompt));
              step.Some? ==> output.Some? && IsAnswer(step.value, output.value, round, role, createdAt)
    {
      if turn.status != Running {
        return None;
      }
      var task := TaskWith(turn, round, role, prompt);
      var existing := store.GetTurn(turnId);
      if existing.None? {
        return None;
      }
      var output := workers(task);
      if output.None? {
        return None;
      }
      var recorded := StepFrom(round, role, output.value, createdAt);
      var ok := AppendStep(turnId, recorded);
      return if ok then Some(recorded) else None;
    }

    /** The turn in hand is the stored one as it is read, and the rest of the store is as it was. */
    ghost predicate InHand(turns: map<string, Turn>, turnId: string, base: Turn, turn: Turn)
      reads store
    {
      |base.steps| <= |turn.steps| && store.turns == turns[turnId := Grown(base, turn)] &&
      turn == Hydrated(Grown(base, turn))
    }

    /** The next worker of a round: its step is added to the turn in hand. */
    method RunTeamWorker(turnId: string, round: int, k: nat, turn: Turn, s: Setting, ghost turns: map<string, Turn>,
                         ghost base: Turn, ghost start: Turn)
      returns (spoken: bool, next: Turn)
      requires store.Valid() && InHand(turns, turnId, base, turn) && base.status == Running
      requires k < |s.team| && s.workers == workers && SoFar(start, round, s, k, turn) && AllBelow(start.steps, round)
      modifies store`turns
      ensures store.Valid() && InHand(turns, turnId, base, next)
      ensures spoken == workers(TaskFor(turn, round, s.team[k])).Some?
      ensures if spoken then SoFar(start, round, s, k + 1, next) else next == turn
    {
      RoundFacts(start, round, s, k, turn);
      spoken, next := AddAnswer(turnId, round, s.team[k], s.createdAt, turn, turns, base);
      if spoken { SpokenStep(start, round, s, k, turn, next.steps[|turn.steps|]); }
    }

    /** Gives a worker its task; its answer becomes the last step of the turn in hand. */
    method AddAnswer(turnId: string, round: int, worker: Worker, createdAt: int, turn: Turn,
                     ghost turns: map<string, Turn>, ghost base: Turn)
      returns (spoken: bool, next: Turn)
      requires store.Valid() && InHand(turns, turnId, base, turn) && base.status == Running
      requires NoneLater(turn.steps, round, createdAt)
      modifies store`turns
      ensures store.Valid() && InHand(turns, turnId, base, next)
      ensures var output := workers(TaskFor(turn, round, worker));
              && spoken == output.Some?
              && next ==
                 if spoken then turn.(steps := turn.steps + [StepFrom(round, worker.role, output.value, createdAt)])
                         else turn
    {
      ghost var stored := store.turns[turnId];
      assert stored == Grown(base, turn) && stored.status == Running;
      var step := RunWorker(turnId, round, worker.role, WorkerPrompt(turn, worker, round), createdAt, turn);
      if step.None? {
        return false, turn;
      }
      StepStaysInHand(base, turn, step.value);
      return true, turn.(steps := turn.steps + [step.value]);
    }

    /** One round: each worker of the team in turn. */
    method RunRound(turnId: string, round: int, turn: Turn, s: Setting, ghost turns: map<string, Turn>,
                    ghost base: Turn)
      returns (next: Turn, ok: bool)
      requires store.Valid() && InHand(turns, turnId, base, turn) && base.status == Running
      requires AllBelow(turn.steps, round) && s.workers == workers
      modifies store`turns
      ensures store.Valid() && InHand(turns, turnId, base, next)
      ensures ok == RoundOf(turn, round, s, |s.team|).ok && next == RoundOf(turn, round, s, |s.team|).turn
    {
      next := turn;
      for k := 0 to |s.team|
        invariant store.Valid() && InHand(turns, turnId, base, next)
        invariant SoFar(turn, round, s, k, next)
      {
        var spoken;
        spoken, next := RunTeamWorker(turnId, round, k, next, s, turns, base, turn);
        if !spoken {
          FailureEnds(turn, round, s, k, next);
          return next, false;
        }
      }
      ok := true;
    }

    /** The store after a run: the turn is closed and its lease is gone, or the run has thrown, with
        its steps recorded and the leases as they were. */
    ghost predicate LeftBy(turns: map<string, Turn>, leases: map<string, Lease>, turnId: string, base: Turn, run: Run,
                           createdAt: int, r: RunResult)
      reads store
    {
      |base.steps| <= |run.turn.steps| &&
      store.turns == turns[turnId := Closed(base, run, createdAt)] &&
      store.leases == (if run.ending.Threw? then leases else Released(leases, base.scope, turnId)) &&
      r == if run.ending.Threw? then RunError else Returned(Some(Hydrated(Closed(base, run, createdAt))))
    }

    /** Hands the turn to the user after its last round. */
    method AskAfterRound(turnId: string, round: int, turn: Turn, reason: DecisionReason, code: Reason, createdAt: int,
                         ghost turns: map<string, Turn>, ghost base: Turn)
      returns (r: RunResult)
      requires store.Valid() && InHand(turns, turnId, base, turn) && base.status == Running && base.id == turnId
      modifies store
      ensures store.Valid()
      ensures LeftBy(turns, old(store.leases), turnId, base, Run(turn, [], round, Asked(reason, code)), createdAt, r)
    {
      assert store.turns[turnId] == Grown(base, turn);
      AskedIsClosed(base, turn, reason, code, round, createdAt);
      r := ReturnDecisionToUser(turn, reason, code, round, createdAt);
    }

    /** What happens between two rounds: nothing, or the run ends. */
    method AfterRound(turnId: string, round: int, turn: Turn, s: Setting, ghost turns: map<string, Turn>,
                      ghost base: Turn)
      returns (done: bool, r: RunResult)
      requires store.Valid() && InHand(turns, turnId, base, turn) && base.status == Running && base.id == turnId
      modifies store
      ensures store.Valid()
      ensures match MoveAfter(turn.contract, VerdictIn(turn.steps, round, s), round, s.minRounds, s.hardMax)
              case KeepGoing => !done && store.turns == old(store.turns) && store.leases == old(store.leases)
              case Finish =>
                done && LeftBy(turns, old(store.leases), turnId, base, Run(turn, [], round, Finished), s.createdAt, r)
              case Ask(reason, code) =>
                done && LeftBy(turns, old(store.leases), turnId, base, Run(turn, [], round, Asked(reason, code)),
                               s.createdAt, r)
    {
      done, r := false, RunError;
      if turn.contract.nonConvergent && round < s.hardMax {
        return;
      }
      done := true;
      if turn.contract.nonConvergent && round >= s.hardMax {
        r := AskAfterRound(turnId, round, turn, HardCap(turn.contract.policyReason), HardRoundBudgetExhausted,
                           s.createdAt, turns, base);
        return;
      }
      var convergence := EvaluateConvergence(turn.steps, round, |s.team|);
      if convergence.status == Converge {
        var finished := FinishTurn(turnId, Converged);
        r := Returned(finished);
        return;
      }
      if round < s.minRounds {
        if convergence.status == AskUser {
          r := AskAfterRound(turnId, round, turn, Verdict(convergence.reason), convergence.reason, s.createdAt, turns,
                             base);
          return;
        }
        done := false;
        return;
      }
      if convergence.status == AskUser || round >= s.hardMax {
        var reason := if convergence.status == AskUser then Verdict(convergence.reason)
          else RoundCap(convergence.reason);
        r := AskAfterRound(turnId, round, turn, reason, convergence.reason, s.createdAt, turns, base);
        return;
      }
      done := false;
    }

    /** The store and the turn in hand are those at the head of this round of the run. */
    ghost predicate AtRound(turns: map<string, Turn>, turnId: string, base: Turn, turn: Turn, round: int,
                            rest: (Turn, int) -> Run, run: Run)
      reads store
    {
      InHand(turns, turnId, base, turn) && AllBelow(turn.steps, round) && SameEnd(rest(turn, round), run)
    }

    /** One turn of the round loop: the round, the reload, and what follows. */
    method RunAndJudge(turnId: string, round: int, turn: Turn, s: Setting, ghost turns: map<string, Turn>,
                       ghost base: Turn, ghost rest: (Turn, int) -> Run, ghost run: Run)
      returns (next: Turn, done: bool, r: RunResult)
      requires store.Valid() && AtRound(turns, turnId, base, turn, round, rest, run)
      requires base.status == Running && base.id == turnId
      requires round <= s.hardMax && s.workers == workers && Follows(rest, JudgeOf(base.contract, s), s)
      modifies store
      ensures store.Valid()
      ensures done ==> LeftBy(turns, old(store.leases), turnId, base, run, s.createdAt, r)
      ensures !done ==>
                AtRound(turns, turnId, base, next, round + 1, rest, run) && store.leases == old(store.leases)
    {
      assert Leads(rest, JudgeOf(base.contract, s), s, turn, round);
      var ok;
      next, ok := RunRound(turnId, round, turn, s, turns, base);
      if !ok {
        return next, true, RunError;
      }
      var reloaded := store.GetTurn(turnId);
      next := if reloaded.Some? then reloaded.value else next;
      done, r := AfterRound(turnId, round, next, s, turns, base);
    }

    /** What follows when there is no round left. */
    method AskWhenUsedUp(turnId: string, round: int, turn: Turn, s: Setting, ghost turns: map<string, Turn>,
                         ghost base: Turn, ghost rest: (Turn, int) -> Run, ghost run: Run)
      returns (r: RunResult)
      requires store.Valid() && AtRound(turns, turnId, base, turn, round, rest, run) && round > s.hardMax
      requires base.status == Running && base.id == turnId && Follows(rest, JudgeOf(base.contract, s), s)
      modifies store
      ensures store.Valid()
      ensures LeftBy(turns, old(store.leases), turnId, base, run, s.createdAt, r)
    {
      var reloaded := store.GetTurn(turnId);
      assert Leads(rest, JudgeOf(base.contract, s), s, turn, round);
      r := AskAfterRound(turnId, s.hardMax, if reloaded.Some? then reloaded.value else turn,
                         Verdict(HardRoundBudgetExhausted), HardRoundBudgetExhausted, s.createdAt, turns, base);
    }

    /** The loop over the rounds, and what follows when they are used up. */
    method RunRounds(turnId: string, startRound: int, start: Turn, s: Setting, ghost turns: map<string, Turn>,
                     ghost base: Turn, ghost rest: (Turn, int) -> Run, ghost run: Run)
      returns (r: RunResult)
      requires store.Valid() && AtRound(turns, turnId, base, start, startRound, rest, run)
      requires base.status == Running && base.id == turnId && s.workers == workers
      requires Follows(rest, JudgeOf(base.contract, s), s)
      modifies store
      ensures store.Valid()
      ensures LeftBy(turns, old(store.leases), turnId, base, run, s.createdAt, r)
    {
      var turn, round := start, startRound;
      ghost var leases := store.leases;
      while round <= s.hardMax
        invariant store.Valid() && store.leases == leases
        invariant AtRound(turns, turnId, base, turn, round, rest, run)
        decreases s.hardMax - round
      {
        var done;
        turn, done, r := RunAndJudge(turnId, round, turn, s, turns, base, rest, run);
        if done {
          return;
        }
        round := round + 1;
      }
      r := AskWhenUsedUp(turnId, round, turn, s, turns, base, rest, run);
    }

    /** Runs round after round until the workers agree, the user must be asked, or the hard limit is
        reached. The turn ends as the run does and its lease is released; when a worker fails, what
        was recorded stays and so does the lease. */
    method RunUntilConverged(turnId: string, createdAt: int) returns (r: RunResult)
      requires store.Valid()
      modifies store
      ensures store.Valid()
      ensures !Runnable(old(store.turns), turnId) ==>
                r == RunError && store.turns == old(store.turns) && store.leases == old(store.leases)
      ensures Runnable(old(store.turns), turnId) ==>
                LeftBy(old(store.turns), old(store.leases), turnId, old(store.turns)[turnId],
                       RunOf(Hydrated(old(store.turns)[turnId]), workers, createdAt), createdAt, r)
    {
      var found := store.GetTurn(turnId);
      if found.None? || found.value.status != Running || |found.value.workers| == 0 {
        return RunError;
      }
      var turn := found.value;
      var round := NextRound(turn.steps);
      var s := SettingOf(turn, workers, createdAt);
      NextRoundIsAbove(turn.steps);
      GrownByNothing(store.turns[turnId]);
      RestFollows(JudgeOf(turn.contract, s), s);
      r := RunRounds(turnId, round, turn, s, store.turns, store.turns[turnId], RestOf(JudgeOf(turn.contract, s), s),
                     RunOf(turn, workers, createdAt));
    }
  }

  lemma AskedIsClosed(base: Turn, turn: Turn, reason: DecisionReason, code: Reason, round: int, now: int)
    requires |base.steps| <= |turn.steps|
    ensures Closed(base, Run(turn, [], round, Asked(reason, code)), now) ==
            Grown(base, turn).(status := NeedsUser,
                               decisions := Grown(base, turn).decisions + [DecisionOf(turn, reason, code, round, now)])
  {
  }

  lemma GrownByNothing(base: Turn)
    ensures |Hydrated(base).steps| == |base.steps| && Grown(base, Hydrated(base)) == base
  {
    assert base.steps + [] == base.steps;
  }

  lemma RestLeads(judge: Judge, s: Setting, turn: Turn, round: int)
    ensures Leads(RestOf(judge, s), judge, s, turn, round)
  {
    if AllBelow(turn.steps, round) && round <= s.hardMax { var current := RoundEnds(turn, round, s); }
  }

  lemma RestFollows(judge: Judge, s: Setting)
    ensures Follows(RestOf(judge, s), judge, s)
  {
    forall turn: Turn, round: int ensures Leads(RestOf(judge, s), judge, s, turn, round) {
      RestLeads(judge, s, turn, round);
    }
  }

  /** The turn after `k` workers, none of which failed. */
  ghost predicate SoFar(turn: Turn, round: int, s: Setting, k: nat, next: Turn) {
    k <= |s.team| && RoundOf(turn, round, s, k).ok && next == RoundOf(turn, round, s, k).turn
  }

  lemma RoundFacts(turn: Turn, round: int, s: Setting, k: nat, next: Turn)
    requires SoFar(turn, round, s, k, next) && AllBelow(turn.steps, round)
    ensures next.status == turn.status && NoneLater(next.steps, round, s.createdAt)
  {
    var current := RoundHasShape(turn, round, s, k);
  }

  /** A step of this round and time is read behind all of these. */
  ghost predicate NoneLater(steps: seq<Step>, round: int, createdAt: int) {
    forall x | x in steps :: x.round < round || (x.round == round && x.createdAt <= createdAt)
  }

  /** The answer of a worker becomes the round's next step. */
  lemma SpokenStep(turn: Turn, round: int, s: Setting, k: nat, next: Turn, step: Step)
    requires SoFar(turn, round, s, k, next) && k < |s.team|
    requires var output := s.workers(TaskFor(next, round, s.team[k]));
             output.Some? && step == StepFrom(round, s.team[k].role, output.value, s.createdAt)
    ensures SoFar(turn, round, s, k + 1, next.(steps := next.steps + [step]))
  {
  }

  lemma FailureEnds(turn: Turn, round: int, s: Setting, k: nat, next: Turn)
    requires SoFar(turn, round, s, k, next) && k < |s.team|
    requires s.workers(TaskFor(next, round, s.team[k])).None?
    ensures !RoundOf(turn, round, s, |s.team|).ok && RoundOf(turn, round, s, |s.team|).turn == next
  {
    StaysFailed(turn, round, s, k + 1, |s.team|);
  }

  lemma {:induction false} StaysFailed(turn: Turn, round: int, s: Setting, k: nat, n: nat)
    requires k <= n <= |s.team| && !RoundOf(turn, round, s, k).ok
    ensures RoundOf(turn, round, s, n) == RoundOf(turn, round, s, k)
  {
    if k < n { StaysFailed(turn, round, s, k, n - 1); }
  }

  lemma StepStaysInHand(base: Turn, turn: Turn, step: Step)
    requires |base.steps| <= |turn.steps| && turn == Hydrated(Grown(base, turn))
    requires NoneLater(turn.steps, step.round, step.createdAt)
    ensures var next := turn.(steps := turn.steps + [step]);
            Grown(base, next) == Grown(base, turn).(steps := Grown(base, turn).steps + [step]) &&
              next == Hydrated(Grown(base, next))
  {
    var grown := Grown(base, turn);
    var next := turn.(steps := turn.steps + [step]);
    assert next.steps[|base.steps|..] == turn.steps[|base.steps|..] + [step];
    assert base.steps + (turn.steps[|base.steps|..] + [step]) == grown.steps + [step];
    OrderByPermutes(grown.steps, StepBehind);
    forall x | x in grown.steps ensures !StepBehind(x, step) {
      assert x in multiset(grown.steps);
      assert x in turn.steps;
    }
    OrderedStepsNext(grown.steps, step);
  }

  // ----- what the store holds after a run -----

  /** The turn as the run finds it, and the first round. */
  ghost predicate RunFrom(base: Turn, workers: Workers, createdAt: int, turn: Turn, start: int, s: Setting, run: Run) {
    turn == Hydrated(base) && start == NextRound(turn.steps) && s == SettingOf(turn, workers, createdAt) &&
    run == RunOf(turn, workers, createdAt)
  }

  lemma RunAdds(base: Turn, workers: Workers, createdAt: int, turn: Turn, start: int, s: Setting, run: Run)
    returns (added: seq<Step>)
    requires RunFrom(base, workers, createdAt, turn, start, s, run)
    ensures |base.steps| <= |run.turn.steps| && Grown(base, run.turn) == base.(steps := base.steps + added)
    ensures AllBelow(turn.steps, start) && AllBelow(base.steps, start) && Extends(turn, start, s, run, added)
    ensures s.minRounds <= s.hardMax && 1 <= start
  {
    NextRoundIsAbove(turn.steps);
    JudgeIsBounded(turn.contract, s);
    added := PlayExtends(turn, start, s, JudgeOf(turn.contract, s));
    assert run.turn.steps[|base.steps|..] == added;
    OrderByPermutes(base.steps, StepBehind);
    forall x | x in base.steps ensures x.round < start {
      assert x in multiset(turn.steps);
    }
  }

  /** The rounds of the run stand in the store as they were played. */
  lemma RoundsAreStored(base: Turn, workers: Workers, createdAt: int, turn: Turn, start: int, s: Setting, run: Run,
                        r: int)
    requires RunFrom(base, workers, createdAt, turn, start, s, run) && start <= r
    ensures |base.steps| <= |run.turn.steps|
    ensures InRound(Closed(base, run, createdAt).steps, r) == InRound(run.turn.steps, r)
  {
    var added := RunAdds(base, workers, createdAt, turn, start, s, run);
    EarlierDoNotCount(base.steps, added, r);
    EarlierDoNotCount(turn.steps, added, r);
    ClosedSteps(base, run, createdAt);
  }

  lemma ClosedSteps(base: Turn, run: Run, now: int)
    requires |base.steps| <= |run.turn.steps|
    ensures Closed(base, run, now).steps == Grown(base, run.turn).steps
  {
  }

  lemma EarlierDoNotCount(earlier: seq<Step>, added: seq<Step>, r: int)
    requires AllBelow(earlier, r)
    ensures InRound(earlier + added, r) == InRound(added, r)
  {
    InRoundConcat(earlier, added, r);
    FreshRound(earlier, r);
  }

  /** No run goes beyond the hard limit; the rounds it plays are stored with one step of each worker
      in plan order. */
  lemma StoredRoundsAreComplete(base: Turn, workers: Workers, createdAt: int, turn: Turn, start: int, s: Setting,
                                run: Run, r: int)
    requires RunFrom(base, workers, createdAt, turn, start, s, run) && start <= r <= run.last
    ensures |base.steps| <= |run.turn.steps|
    ensures run.last <= (if base.hardMaxRounds > 1 then base.hardMaxRounds else 1)
    ensures var current := InRound(Closed(base, run, createdAt).steps, r);
            ByTeam(current, base.workers) && (r < run.last || run.ending != Threw ==> |current| == |base.workers|)
  {
    var added := RunAdds(base, workers, createdAt, turn, start, s, run);
    RoundsAreStored(base, workers, createdAt, turn, start, s, run, r);
    JudgeIsBounded(turn.contract, s);
    EachWorkerOnce(turn, start, s, JudgeOf(turn.contract, s), r);
  }

  /** Every stored step of a round that a run plays is the answer of the worker in its place to its
      task of that round. */
  lemma StoredStepsAreAnswers(base: Turn, workers: Workers, createdAt: int, turn: Turn, start: int, s: Setting,
                              run: Run, r: int)
    requires RunFrom(base, workers, createdAt, turn, start, s, run) && start <= r <= run.last
    ensures |base.steps| <= |run.turn.steps|
    ensures AnsweredBy(TasksIn(run.tasks, r), InRound(Closed(base, run, createdAt).steps, r), s, r)
  {
    var added := RunAdds(base, workers, createdAt, turn, start, s, run);
    RoundsAreStored(base, workers, createdAt, turn, start, s, run, r);
    JudgeIsBounded(turn.contract, s);
    StepsAreAnswers(turn, start, s, JudgeOf(turn.contract, s), r);
  }

  /** When the plan is in dependency order, a worker is shown a step of its round from every worker
      it depends on. */
  lemma TaskSeesDependencies(base: Turn, workers: Workers, createdAt: int, turn: Turn, start: int, s: Setting,
                             run: Run, task: Task)
    requires RunFrom(base, workers, createdAt, turn, start, s, run)
    requires task in run.tasks && WorkerPlan.InOrder(base.workers)
    ensures exists i :: RoleAt(base.workers, task.role, i) &&
                        forall d | d in base.workers[i].dependsOn ::
                          exists x :: x in task.currentRoundSteps && x.role == d
  {
    var added := RunAdds(base, workers, createdAt, turn, start, s, run);
    JudgeIsBounded(turn.contract, s);
    TasksSeeRecord(turn, start, s, JudgeOf(turn.contract, s), task);
    EachWorkerOnce(turn, start, s, JudgeOf(turn.contract, s), task.round);
    DependenciesAreShown(task, run.turn, s.team);
  }

  /** A turn started from a request without circular dependencies asks every worker once in every
      round it completes, and shows it a step of that round from each worker it depends on. */
  lemma StartedTurnShowsDependencies(request: StartRequest, workers: Workers, createdAt: int, r: int, task: Task)
    requires Planned(request) && !exists path :: WorkerPlan.Cycle(WorkerPlan.Planned(request.workers.value), path)
    requires var run := RunOf(Hydrated(NewTurn(request)), workers, createdAt); 1 <= r <= run.last && task in run.tasks
    ensures var team := NewTurn(request).workers;
            AskedOnce(RunOf(Hydrated(NewTurn(request)), workers, createdAt),
                      SettingOf(NewTurn(request), workers, createdAt), r) &&
            exists i :: RoleAt(team, task.role, i) &&
                        forall d | d in team[i].dependsOn :: exists x :: x in task.currentRoundSteps && x.role == d
  {
    var base := NewTurn(request);
    var turn, s := Hydrated(base), SettingOf(Hydrated(base), workers, createdAt);
    WorkerPlan.PlanInOrderIff(request.workers.value);
    TaskSeesDependencies(base, workers, createdAt, turn, 1, s, RunOf(turn, workers, createdAt), task);
    JudgeIsBounded(turn.contract, s);
    EachWorkerAskedOnce(turn, 1, s, JudgeOf(turn.contract, s), r);
  }

  /** A turn is stored as converged only without a new decision, and only after a round in which
      every worker gave its final answer, none rejected, and nothing was left open. */
  lemma ConvergedTurn(base: Turn, workers: Workers, createdAt: int, turn: Turn, start: int, s: Setting, run: Run)
    requires RunFrom(base, workers, createdAt, turn, start, s, run) && base.status == Running
    requires |base.steps| <= |run.turn.steps| && Closed(base, run, createdAt).status == Converged
    ensures var closed := Closed(base, run, createdAt);
            var current := InRound(closed.steps, run.last);
            closed.decisions == base.decisions && !base.contract.nonConvergent &&
            ByTeam(current, base.workers) && |current| == |base.workers| &&
            (forall x | x in current :: x.outcome == Some(Final) && x.agreement != Some(false)) &&
            (forall x, v | x in current && (v in x.openIssues || v in x.blockers) :: Blank(v))
  {
    var added := RunAdds(base, workers, createdAt, turn, start, s, run);
    ConvergedIsSound(turn, start, s);
    RoundsAreStored(base, workers, createdAt, turn, start, s, run, run.last);
    StoredRoundsAreComplete(base, workers, createdAt, turn, start, s, run, run.last);
  }

  /** In terms of the answers: every worker was asked in the last round and gave its final answer, none
      of them disagreed, and every open issue and blocker that any of them named is blank. */
  lemma ConvergedAnswers(base: Turn, workers: Workers, createdAt: int, turn: Turn, start: int, s: Setting, run: Run,
                         i: nat)
    requires RunFrom(base, workers, createdAt, turn, start, s, run) && base.status == Running
    requires |base.steps| <= |run.turn.steps| && Closed(base, run, createdAt).status == Converged
    requires i < |base.workers|
    ensures var asked := TasksIn(run.tasks, run.last);
            && |asked| == |base.workers| && asked[i].role == base.workers[i].role
            && workers(asked[i]).Some?
            && var output := workers(asked[i]).value;
               && output.outcome == Some(Final) && output.agreement != Some(false)
               && forall v | v in output.openIssues || v in output.blockers :: Blank(v)
  {
    var added := RunAdds(base, workers, createdAt, turn, start, s, run);
    ConvergedTurn(base, workers, createdAt, turn, start, s, run);
    StoredStepsAreAnswers(base, workers, createdAt, turn, start, s, run, run.last);
    JudgeIsBounded(turn.contract, s);
    EachWorkerAskedOnce(turn, start, s, JudgeOf(turn.contract, s), run.last);
    var current := InRound(Closed(base, run, createdAt).steps, run.last);
    assert current[i] in current;
  }

  /** Otherwise, unless a worker failed, the user gets exactly one new decision, with something to
      answer; and a contract that does not converge has used up all rounds before that. */
  lemma AskedTurn(base: Turn, workers: Workers, createdAt: int, turn: Turn, start: int, s: Setting, run: Run)
    requires RunFrom(base, workers, createdAt, turn, start, s, run) && base.status == Running
    requires |base.steps| <= |run.turn.steps| && Closed(base, run, createdAt).status != Converged && run.ending != Threw
    ensures var closed := Closed(base, run, createdAt);
            closed.status == NeedsUser && |closed.decisions| == |base.decisions| + 1 &&
            closed.decisions[..|base.decisions|] == base.decisions &&
            var decision := closed.decisions[|base.decisions|];
            run.ending.Asked? && decision.reason == run.ending.reason && decision.createdAt == createdAt &&
            decision.openQuestions == UnresolvedOf(run.turn.steps, base.contract, run.ending.code) &&
            1 <= |decision.openQuestions| <= MAX_UNRESOLVED_ISSUES && decision.round == run.last &&
            var hardMax := if base.hardMaxRounds > 1 then base.hardMaxRounds else 1;
            (base.contract.nonConvergent && start <= hardMax ==>
               run.last == hardMax && decision.reason == HardCap(base.contract.policyReason))
  {
    var added := RunAdds(base, workers, createdAt, turn, start, s, run);
    UnresolvedIsAskable(run.turn.steps, run.turn.contract, run.ending.code);
    if base.contract.nonConvergent && start <= s.hardMax { NonConvergentIsCapped(turn, start, s); }
  }

  /** No lease of the turn is left, and no other lease is touched. */
  lemma ReleasedIsGone(leases: map<string, Lease>, scope: string, turnId: string)
    ensures !Holds(Released(leases, scope, turnId), scope, turnId)
    ensures forall other | other in leases && !(other == scope && leases[other].turnId == turnId) ::
              other in Released(leases, scope, turnId) && Released(leases, scope, turnId)[other] == leases[other]
  {
  }
}
