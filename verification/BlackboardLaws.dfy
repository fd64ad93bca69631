/** What holds for every blackboard run, whatever the workers answer. */
module BlackboardLaws {
  import opened Basics
  import opened BlackboardTypes
  import opened Convergence
  import opened BlackboardRun
  import WorkerPlan

  ghost predicate AllBelow(steps: seq<Step>, round: int) {
    forall s | s in steps :: s.round < round
  }

  ghost predicate AllFrom(steps: seq<Step>, round: int) {
    forall s | s in steps :: round <= s.round
  }

  // ----- filtering by round -----

  lemma FilterNext(steps: seq<Step>, step: Step, round: int)
    ensures InRound(steps + [step], round) == InRound(steps, round) + if step.round == round then [step] else []
    ensures Below(steps + [step], round) == Below(steps, round) + if step.round < round then [step] else []
  {
    assert (steps + [step])[..|steps|] == steps;
  }

  lemma {:induction false} InRoundConcat(a: seq<Step>, b: seq<Step>, round: int)
    ensures InRound(a + b, round) == InRound(a, round) + InRound(b, round)
  {
    if b == [] {
      assert a + b == a;
    } else {
      var front, last := b[..|b| - 1], b[|b| - 1];
      assert b == front + [last] && a + b == a + front + [last];
      InRoundConcat(a, front, round);
      FilterNext(a + front, last, round);
    }
  }

  lemma {:induction false} BelowConcat(a: seq<Step>, b: seq<Step>, round: int)
    ensures Below(a + b, round) == Below(a, round) + Below(b, round)
  {
    if b == [] {
      assert a + b == a;
    } else {
      var front, last := b[..|b| - 1], b[|b| - 1];
      assert b == front + [last] && a + b == a + front + [last];
      BelowConcat(a, front, round);
      FilterNext(a + front, last, round);
    }
  }

  lemma {:induction false} OnlyThisRound(steps: seq<Step>, round: int)
    requires forall s | s in steps :: s.round == round
    ensures InRound(steps, round) == steps && Below(steps, round) == []
  {
    if steps != [] {
      var n := |steps| - 1;
      assert steps == steps[..n] + [steps[n]];
      OnlyThisRound(steps[..n], round);
    }
  }

  lemma {:induction false} LaterRounds(steps: seq<Step>, round: int)
    requires AllFrom(steps, round + 1)
    ensures InRound(steps, round) == [] && Below(steps, round) == [] && Below(steps, round + 1) == []
  {
    if steps != [] {
      var n := |steps| - 1;
      assert steps == steps[..n] + [steps[n]];
      LaterRounds(steps[..n], round);
    }
  }

  /** Steps of later rounds change neither this round nor the ones before. */
  lemma LaterDoNotCount(steps: seq<Step>, later: seq<Step>, round: int)
    requires AllFrom(later, round + 1)
    ensures InRound(steps + later, round) == InRound(steps, round) && Below(steps + later, round) == Below(steps, round)
  {
    InRoundConcat(steps, later, round);
    BelowConcat(steps, later, round);
    LaterRounds(later, round);
  }

  // ----- one round -----

  ghost predicate RoleAt(team: seq<Worker>, role: string, i: int) {
    0 <= i < |team| && team[i].role == role
  }

  /** The steps of one round are those of the first workers of the team, in its order. */
  ghost predicate ByTeam(current: seq<Step>, team: seq<Worker>) {
    |current| <= |team| && forall i | 0 <= i < |current| :: current[i].role == team[i].role
  }

  /** The view shows what the step holds, apart from its time. */
  ghost predicate IsView(view: TaskStep, step: Step) {
    && view.round == step.round && view.role == step.role && view.outputSummary == step.outputSummary
    && view.blockers == step.blockers && view.openIssues == step.openIssues && view.questions == step.questions
    && view.agreement == step.agreement && view.outcome == step.outcome
  }

  ghost predicate AreViews(views: seq<TaskStep>, steps: seq<Step>) {
    |views| == |steps| && forall i | 0 <= i < |steps| :: IsView(views[i], steps[i])
  }

  /** The phase that a worker is told: to explore below the minimum; in the first round to respond to those
      it depends on or to decompose; then to answer open issues, if any were raised before, or to converge. */
  ghost predicate IsPhase(phase: Phase, worker: Worker, round: int, minRounds: int, before: seq<Step>) {
    match phase
    case ExploreAndQuestion => round < minRounds
    case RespondToUpstream => minRounds <= round == 1 && worker.dependsOn != []
    case Decompose => minRounds <= round == 1 && worker.dependsOn == []
    case AnswerOpenIssues => minRounds <= round != 1 && exists s :: s in before && s.openIssues != []
    case ConvergeOrDefer => minRounds <= round != 1 && forall s | s in before :: s.openIssues == []
  }

  /** The task is of this turn, and its prompt is for this worker. */
  ghost predicate Asks(task: Task, turn: Turn, round: int, worker: Worker, before: seq<Step>) {
    && task.turnId == turn.id && task.scope == turn.scope && task.contract == turn.contract
    && task.round == round && task.role == worker.role && task.prompt.participant == worker.name
    && task.prompt.minRounds == (if turn.minRounds > 1 then turn.minRounds else 1)
    && IsPhase(task.prompt.phase, worker, round, task.prompt.minRounds, before)
  }

  /** The task of worker `i` shows the steps of the workers before it, and all earlier ones. */
  ghost predicate Shows(task: Task, i: nat, turn: Turn, before: seq<Step>, current: seq<Step>, round: int,
                        team: seq<Worker>) {
    RoleAt(team, task.role, i) && i <= |current| && Asks(task, turn, round, team[i], before) &&
    AreViews(task.currentRoundSteps, current[..i]) && AreViews(task.previousSteps, before)
  }

  /** The round so far: `current` was added to `before`, one task for each step, and one more when
      the last worker failed. */
  ghost predicate RoundShape(turn: Turn, round: int, s: Setting, p: Progress, current: seq<Step>) {
    p.turn == turn.(steps := turn.steps + current) &&
    ByTeam(current, s.team) && (forall x | x in current :: x.round == round && x.createdAt == s.createdAt) &&
    |p.tasks| == |current| + (if p.ok then 0 else 1) &&
    forall i | 0 <= i < |p.tasks| :: Shows(p.tasks[i], i, turn, turn.steps, current, round, s.team)
  }

  lemma ViewsAre(steps: seq<Step>)
    ensures AreViews(Views(steps), steps)
  {
  }

  lemma PhaseIs(turn: Turn, worker: Worker, round: int, minRounds: int)
    ensures IsPhase(WorkerPhase(turn, worker, round, minRounds), worker, round, minRounds, Below(turn.steps, round))
  {
    AnyOpenIssues(Below(turn.steps, round));
  }

  lemma TaskAsks(turn: Turn, later: Turn, round: int, worker: Worker)
    requires later.(steps := turn.steps) == turn
    ensures Asks(TaskFor(later, round, worker), turn, round, worker, Below(later.steps, round))
  {
    PhaseIs(later, worker, round, AtLeastOne(turn.minRounds));
  }

  lemma TaskShows(turn: Turn, current: seq<Step>, round: int, team: seq<Worker>)
    requires AllBelow(turn.steps, round) && |current| < |team| && forall x | x in current :: x.round == round
    ensures Shows(TaskFor(turn.(steps := turn.steps + current), round, team[|current|]), |current|, turn, turn.steps,
                  current, round, team)
  {
    var later := turn.(steps := turn.steps + current);
    InRoundConcat(turn.steps, current, round);
    BelowConcat(turn.steps, current, round);
    FreshRound(turn.steps, round);
    OnlyThisRound(current, round);
    assert [] + current == current && current[..|current|] == current && turn.steps + [] == turn.steps;
    TaskAsks(turn, later, round, team[|current|]);
    ViewsAre(current);
    ViewsAre(turn.steps);
  }

  lemma {:induction false} AnyOpenIssues(steps: seq<Step>)
    ensures OpenIssuesOf(steps) != [] <==> exists s :: s in steps && s.openIssues != []
  {
    if steps != [] {
      var n := |steps| - 1;
      assert steps == steps[..n] + [steps[n]];
      AnyOpenIssues(steps[..n]);
    }
  }

  lemma SpeakShape(turn: Turn, round: int, s: Setting, p: Progress, current: seq<Step>) returns (next: seq<Step>)
    requires AllBelow(turn.steps, round) && p.ok && |current| < |s.team| && RoundShape(turn, round, s, p, current)
    ensures var q := Speak(p, round, s.team[|current|], s);
            RoundShape(turn, round, s, q, next) && |next| == |current| + if q.ok then 1 else 0
  {
    var role := s.team[|current|].role;
    var task := TaskFor(p.turn, round, s.team[|current|]);
    TaskShows(turn, current, round, s.team);
    var output := s.workers(task);
    if output.None? {
      next := current;
    } else {
      var step := StepFrom(round, role, output.value, s.createdAt);
      next := current + [step];
      assert turn.steps + current + [step] == turn.steps + next;
      forall i | 0 <= i <= |current| ensures next[..i] == current[..i] {
      }
    }
  }

  lemma {:induction false} RoundHasShape(turn: Turn, round: int, s: Setting, k: nat) returns (current: seq<Step>)
    requires k <= |s.team| && AllBelow(turn.steps, round)
    ensures var p := RoundOf(turn, round, s, k);
            RoundShape(turn, round, s, p, current) && |current| <= k && (p.ok ==> |current| == k)
  {
    if k == 0 {
      current := [];
      assert turn.steps + [] == turn.steps;
    } else {
      current := RoundHasShape(turn, round, s, k - 1);
      var p := RoundOf(turn, round, s, k - 1);
      if p.ok { current := SpeakShape(turn, round, s, p, current); }
    }
  }

  // ----- the whole run -----

  /** The run's turn is the given one with steps added, of this round up to the last one; and no
      round is beyond the hard limit. */
  ghost predicate Extends(turn: Turn, round: int, s: Setting, run: Run, added: seq<Step>) {
    run.turn == turn.(steps := turn.steps + added) && AllFrom(added, round) &&
    (forall x | x in added :: x.round <= run.last && x.createdAt == s.createdAt) &&
    run.last <= s.hardMax && (round <= s.hardMax ==> round <= run.last) &&
    (round > s.hardMax ==> added == [] && run.last == s.hardMax)
  }

  lemma RoundEnds(turn: Turn, round: int, s: Setting) returns (current: seq<Step>)
    requires AllBelow(turn.steps, round)
    ensures var p := RoundOf(turn, round, s, |s.team|);
            RoundShape(turn, round, s, p, current) && (p.ok ==> |current| == |s.team|) &&
              AllBelow(p.turn.steps, round + 1) &&
            InRound(p.turn.steps, round) == current && Below(p.turn.steps, round) == turn.steps
  {
    current := RoundHasShape(turn, round, s, |s.team|);
    InRoundConcat(turn.steps, current, round);
    BelowConcat(turn.steps, current, round);
    FreshRound(turn.steps, round);
    OnlyThisRound(current, round);
    assert [] + current == current && turn.steps + [] == turn.steps;
  }

  /** After this round another one follows, or the rounds are used up without a decision. */
  ghost predicate GoesOn(round: int, p: Progress, judge: Judge) {
    p.ok && judge(InRound(p.turn.steps, round), round) == KeepGoing
  }

  /** Only below the limit does another round follow. */
  ghost predicate Bounded(judge: Judge, s: Setting) {
    forall current, round :: judge(current, round) == KeepGoing ==> round < s.hardMax
  }

  ghost predicate SameEnd(a: Run, b: Run) {
    a.turn == b.turn && a.last == b.last && a.ending == b.ending
  }

  lemma PlayStep(turn: Turn, round: int, s: Setting, judge: Judge)
    requires round <= s.hardMax
    ensures var p := RoundOf(turn, round, s, |s.team|);
            var run := PlayWith(turn, round, s, judge);
            if GoesOn(round, p, judge)
            then
              var rest := PlayWith(p.turn, round + 1, s, judge);
              run == rest.(tasks := p.tasks + rest.tasks)
            else run.turn == p.turn && run.tasks == p.tasks && run.last == round
  {
  }

  lemma ExtendsOne(turn: Turn, round: int, s: Setting, p: Progress, current: seq<Step>, run: Run)
    requires RoundShape(turn, round, s, p, current) && round <= s.hardMax && run.turn == p.turn && run.last == round
    ensures Extends(turn, round, s, run, current)
  {
  }

  lemma ExtendsMore(turn: Turn, round: int, s: Setting, p: Progress, current: seq<Step>, run: Run, later: seq<Step>)
    requires RoundShape(turn, round, s, p, current) && round < s.hardMax && Extends(p.turn, round + 1, s, run, later)
    ensures Extends(turn, round, s, run, current + later)
  {
    assert turn.steps + current + later == turn.steps + (current + later);
  }

  lemma {:induction false} PlayExtends(turn: Turn, round: int, s: Setting, judge: Judge) returns (added: seq<Step>)
    requires AllBelow(turn.steps, round) && Bounded(judge, s)
    ensures Extends(turn, round, s, PlayWith(turn, round, s, judge), added)
    decreases s.hardMax - round
  {
    if round > s.hardMax {
      added := [];
      assert turn.steps + [] == turn.steps;
    } else {
      var p := RoundOf(turn, round, s, |s.team|);
      var current := RoundEnds(turn, round, s);
      added := current;
      PlayStep(turn, round, s, judge);
      if GoesOn(round, p, judge) {
        var later := PlayExtends(p.turn, round + 1, s, judge);
        ExtendsMore(turn, round, s, p, current, PlayWith(p.turn, round + 1, s, judge), later);
        added := current + later;
      } else {
        ExtendsOne(turn, round, s, p, current, PlayWith(turn, round, s, judge));
      }
    }
  }

  /** What later rounds add leaves this round as it was recorded. */
  lemma FirstRoundStays(turn: Turn, round: int, s: Setting, judge: Judge)
    requires AllBelow(turn.steps, round) && Bounded(judge, s) && round <= s.hardMax
    ensures var p := RoundOf(turn, round, s, |s.team|);
            var run := PlayWith(turn, round, s, judge);
            InRound(run.turn.steps, round) == InRound(p.turn.steps, round) && Below(run.turn.steps, round) == turn.steps
  {
    var p := RoundOf(turn, round, s, |s.team|);
    var current := RoundEnds(turn, round, s);
    PlayStep(turn, round, s, judge);
    if GoesOn(round, p, judge) {
      var later := PlayExtends(p.turn, round + 1, s, judge);
      LaterDoNotCount(p.turn.steps, later, round);
    }
  }

  /** The round has one step of each worker, in plan order; only a round that a failing worker
      broke off has fewer. */
  ghost predicate RoundDone(run: Run, s: Setting, r: int) {
    ByTeam(InRound(run.turn.steps, r), s.team) &&
    (r < run.last || run.ending != Threw ==> |InRound(run.turn.steps, r)| == |s.team|)
  }

  lemma ThrownInRound(turn: Turn, round: int, s: Setting, judge: Judge)
    requires round <= s.hardMax && !RoundOf(turn, round, s, |s.team|).ok
    ensures PlayWith(turn, round, s, judge).ending == Threw && PlayWith(turn, round, s, judge).last == round
  {
  }

  lemma FirstRoundDone(turn: Turn, round: int, s: Setting, judge: Judge)
    requires AllBelow(turn.steps, round) && Bounded(judge, s) && round <= PlayWith(turn, round, s, judge).last
    ensures RoundDone(PlayWith(turn, round, s, judge), s, round)
  {
    var added := PlayExtends(turn, round, s, judge);
    var current := RoundEnds(turn, round, s);
    FirstRoundStays(turn, round, s, judge);
    if !RoundOf(turn, round, s, |s.team|).ok { ThrownInRound(turn, round, s, judge); }
  }

  lemma SameRoundDone(a: Run, b: Run, s: Setting, r: int)
    requires SameEnd(a, b) && RoundDone(a, s, r)
    ensures RoundDone(b, s, r)
  {
  }

  /** The task shows the worker all steps of earlier rounds and, of its round, exactly the steps of
      the workers before it. */
  ghost predicate SeesRecord(task: Task, turn: Turn, team: seq<Worker>) {
    exists i: nat ::
      Shows(task, i, turn, Below(turn.steps, task.round), InRound(turn.steps, task.round), task.round, team)
  }

  lemma RoundTaskSeesRecord(turn: Turn, round: int, s: Setting, p: Progress, current: seq<Step>, after: Turn,
                            task: Task)
    requires RoundShape(turn, round, s, p, current) && InRound(after.steps, round) == current &&
             Below(after.steps, round) == turn.steps
    requires task in p.tasks && after.(steps := turn.steps) == turn
    ensures task.round == round && SeesRecord(task, after, s.team)
  {
    var i :| 0 <= i < |p.tasks| && p.tasks[i] == task;
    assert Shows(task, i, turn, turn.steps, current, round, s.team);
    assert Shows(task, i, after, turn.steps, current, round, s.team);
  }

  /** A task of the run. */
  ghost predicate TaskFits(task: Task, run: Run, round: int, s: Setting) {
    round <= task.round <= run.last && SeesRecord(task, run.turn, s.team)
  }

  lemma RoundTasks(turn: Turn, round: int, s: Setting)
    requires AllBelow(turn.steps, round)
    ensures forall t | t in RoundOf(turn, round, s, |s.team|).tasks :: t.round == round
    ensures AllBelow(RoundOf(turn, round, s, |s.team|).turn.steps, round + 1)
  {
    var current := RoundEnds(turn, round, s);
  }

  lemma {:induction false} LaterTasks(turn: Turn, round: int, s: Setting, judge: Judge)
    requires AllBelow(turn.steps, round)
    ensures forall t | t in PlayWith(turn, round, s, judge).tasks :: t.round >= round
    decreases s.hardMax - round
  {
    if round <= s.hardMax {
      RoundTasks(turn, round, s);
      PlayStep(turn, round, s, judge);
      if GoesOn(round, RoundOf(turn, round, s, |s.team|), judge) {
        LaterTasks(RoundOf(turn, round, s, |s.team|).turn, round + 1, s, judge);
      }
    }
  }

  /** A task of this round is one of the first round's; any other is one of the rest. */
  lemma FirstRoundTask(turn: Turn, round: int, s: Setting, judge: Judge, task: Task)
    requires AllBelow(turn.steps, round) && round <= s.hardMax
    requires task in PlayWith(turn, round, s, judge).tasks && task.round == round
    ensures task in RoundOf(turn, round, s, |s.team|).tasks
  {
    var p := RoundOf(turn, round, s, |s.team|);
    RoundTasks(turn, round, s);
    PlayStep(turn, round, s, judge);
    if GoesOn(round, p, judge) { LaterTasks(p.turn, round + 1, s, judge); }
  }

  lemma FirstRoundTaskFits(turn: Turn, round: int, s: Setting, judge: Judge, task: Task)
    requires AllBelow(turn.steps, round) && Bounded(judge, s) && task in PlayWith(turn, round, s, judge).tasks
    requires task.round == round
    ensures TaskFits(task, PlayWith(turn, round, s, judge), round, s)
  {
    var p := RoundOf(turn, round, s, |s.team|);
    var current := RoundEnds(turn, round, s);
    var added := PlayExtends(turn, round, s, judge);
    FirstRoundStays(turn, round, s, judge);
    FirstRoundTask(turn, round, s, judge, task);
    RoundTaskSeesRecord(turn, round, s, p, current, PlayWith(turn, round, s, judge).turn, task);
  }

  lemma TaskInRest(turn: Turn, round: int, s: Setting, judge: Judge, task: Task) returns (next: Turn, rest: Run)
    requires AllBelow(turn.steps, round) && task in PlayWith(turn, round, s, judge).tasks && task.round != round
    ensures round <= s.hardMax && AllBelow(next.steps, round + 1) && rest == PlayWith(next, round + 1, s, judge) &&
            task in rest.tasks
    ensures SameEnd(rest, PlayWith(turn, round, s, judge))
  {
    RoundTasks(turn, round, s);
    PlayStep(turn, round, s, judge);
    next := RoundOf(turn, round, s, |s.team|).turn;
    rest := PlayWith(next, round + 1, s, judge);
  }

  lemma SameTaskFits(a: Run, b: Run, round: int, s: Setting, task: Task)
    requires SameEnd(a, b) && TaskFits(task, a, round + 1, s)
    ensures TaskFits(task, b, round, s)
  {
  }

  /** Every task given out shows the record as it stands at the end, up to the worker's place. */
  lemma {:induction false} TasksSeeRecord(turn: Turn, round: int, s: Setting, judge: Judge, task: Task)
    requires AllBelow(turn.steps, round) && Bounded(judge, s) && task in PlayWith(turn, round, s, judge).tasks
    ensures TaskFits(task, PlayWith(turn, round, s, judge), round, s)
    decreases s.hardMax - round
  {
    if task.round == round {
      FirstRoundTaskFits(turn, round, s, judge, task);
    } else {
      var next, rest := TaskInRest(turn, round, s, judge, task);
      TasksSeeRecord(next, round + 1, s, judge, task);
      SameTaskFits(rest, PlayWith(turn, round, s, judge), round, s, task);
    }
  }

  /** With workers in dependency order, a worker is shown a step of this round from each worker it
      depends on. */
  lemma DependenciesAreShown(task: Task, turn: Turn, team: seq<Worker>)
    requires SeesRecord(task, turn, team) && ByTeam(InRound(turn.steps, task.round), team) && WorkerPlan.InOrder(team)
    ensures exists i :: RoleAt(team, task.role, i) &&
                        forall d | d in team[i].dependsOn :: exists x :: x in task.currentRoundSteps && x.role == d
  {
    var current := InRound(turn.steps, task.round);
    var i: nat :| Shows(task, i, turn, Below(turn.steps, task.round), current, task.round, team);
    forall d | d in team[i].dependsOn ensures exists x :: x in task.currentRoundSteps && x.role == d {
      assert WorkerPlan.WorkerRole(team[..i], d);
      var j :| 0 <= j < i && team[..i][j].role == d;
      assert task.currentRoundSteps[j] in task.currentRoundSteps && IsView(task.currentRoundSteps[j], current[..i][j]);
    }
    assert RoleAt(team, task.role, i);
  }

  // ----- who is asked -----

  ghost function TasksIn(tasks: seq<Task>, round: int): seq<Task> {
    if tasks == [] then [] else
      var n := |tasks| - 1;
      TasksIn(tasks[..n], round) + if tasks[n].round == round then [tasks[n]] else []
  }

  lemma {:induction false} TasksInConcat(a: seq<Task>, b: seq<Task>, round: int)
    ensures TasksIn(a + b, round) == TasksIn(a, round) + TasksIn(b, round)
  {
    if b == [] {
      assert a + b == a;
    } else {
      var n := |b| - 1;
      TasksInConcat(a, b[..n], round);
      assert (a + b)[..|a| + n] == a + b[..n];
    }
  }

  lemma {:induction false} TasksOfRound(tasks: seq<Task>, round: int, r: int)
    requires forall t | t in tasks :: t.round == round
    ensures TasksIn(tasks, r) == if r == round then tasks else []
  {
    if tasks != [] {
      var n := |tasks| - 1;
      assert tasks == tasks[..n] + [tasks[n]];
      TasksOfRound(tasks[..n], round, r);
    }
  }

  lemma {:induction false} NoTasks(tasks: seq<Task>, round: int)
    requires forall t | t in tasks :: t.round != round
    ensures TasksIn(tasks, round) == []
  {
    if tasks != [] {
      var n := |tasks| - 1;
      assert tasks == tasks[..n] + [tasks[n]];
      NoTasks(tasks[..n], round);
    }
  }

  /** In plan order each worker got one task in the round, but for those after a failing one. */
  ghost predicate AskedOnce(run: Run, s: Setting, r: int) {
    var asked := TasksIn(run.tasks, r);
    |asked| <= |s.team| && (forall i | 0 <= i < |asked| :: asked[i].role == s.team[i].role) &&
    (r < run.last || run.ending != Threw ==> |asked| == |s.team|)
  }

  lemma TasksSplit(now: seq<Task>, later: seq<Task>, round: int, r: int)
    requires (forall t | t in now :: t.round == round) && (forall t | t in later :: t.round > round) && round <= r
    ensures TasksIn(now + later, r) == if r == round then now else TasksIn(later, r)
  {
    TasksInConcat(now, later, r);
    TasksOfRound(now, round, r);
    if r == round { NoTasks(later, round); }
    assert now + [] == now && [] + TasksIn(later, r) == TasksIn(later, r);
  }

  /** The tasks of this round, and the tasks of the rounds after it. */
  lemma TasksOfFirstRound(turn: Turn, round: int, s: Setting, judge: Judge, r: int)
    requires AllBelow(turn.steps, round) && Bounded(judge, s) && round <= s.hardMax && round <= r
    ensures var p := RoundOf(turn, round, s, |s.team|);
            TasksIn(PlayWith(turn, round, s, judge).tasks, r) ==
            if r == round then p.tasks
            else if GoesOn(round, p, judge) then TasksIn(PlayWith(p.turn, round + 1, s, judge).tasks, r) else []
  {
    var p := RoundOf(turn, round, s, |s.team|);
    RoundTasks(turn, round, s);
    PlayStep(turn, round, s, judge);
    if GoesOn(round, p, judge) {
      LaterTasks(p.turn, round + 1, s, judge);
      TasksSplit(p.tasks, PlayWith(p.turn, round + 1, s, judge).tasks, round, r);
    } else {
      TasksSplit(p.tasks, [], round, r);
      assert p.tasks + [] == p.tasks;
    }
  }

  lemma FirstRoundAsked(turn: Turn, round: int, s: Setting, judge: Judge)
    requires AllBelow(turn.steps, round) && Bounded(judge, s) && round <= PlayWith(turn, round, s, judge).last
    ensures AskedOnce(PlayWith(turn, round, s, judge), s, round)
  {
    var added := PlayExtends(turn, round, s, judge);
    var p := RoundOf(turn, round, s, |s.team|);
    var current := RoundHasShape(turn, round, s, |s.team|);
    TasksOfFirstRound(turn, round, s, judge, round);
    if !p.ok { ThrownInRound(turn, round, s, judge); }
    if |p.tasks| > 0 { assert Shows(p.tasks[|p.tasks| - 1], |p.tasks| - 1, turn, turn.steps, current, round, s.team); }
  }

  lemma LaterTasksOnly(now: seq<Task>, later: seq<Task>, round: int, r: int)
    requires (forall t | t in now :: t.round == round) && round < r
    ensures TasksIn(now + later, r) == TasksIn(later, r)
  {
    TasksInConcat(now, later, r);
    TasksOfRound(now, round, r);
    assert [] + TasksIn(later, r) == TasksIn(later, r);
  }

  lemma RunsOn(turn: Turn, round: int, s: Setting, judge: Judge, r: int) returns (next: Turn, rest: Run)
    requires AllBelow(turn.steps, round) && Bounded(judge, s) && round < r <= PlayWith(turn, round, s, judge).last
    ensures AllBelow(next.steps, round + 1) && rest == PlayWith(next, round + 1, s, judge)
    ensures SameEnd(rest, PlayWith(turn, round, s, judge)) && round < s.hardMax
    ensures TasksIn(PlayWith(turn, round, s, judge).tasks, r) == TasksIn(rest.tasks, r)
  {
    var added := PlayExtends(turn, round, s, judge);
    RoundTasks(turn, round, s);
    PlayStep(turn, round, s, judge);
    next := RoundOf(turn, round, s, |s.team|).turn;
    rest := PlayWith(next, round + 1, s, judge);
    LaterTasksOnly(RoundOf(turn, round, s, |s.team|).tasks, rest.tasks, round, r);
  }

  /** A run comes to each of its rounds with a turn from which the rest of it is played. */
  lemma {:induction false} RunReaches(turn: Turn, round: int, s: Setting, judge: Judge, r: int)
    returns (next: Turn, rest: Run)
    requires AllBelow(turn.steps, round) && Bounded(judge, s) && round <= r <= PlayWith(turn, round, s, judge).last
    ensures AllBelow(next.steps, r) && rest == PlayWith(next, r, s, judge)
    ensures SameEnd(rest, PlayWith(turn, round, s, judge))
    ensures TasksIn(PlayWith(turn, round, s, judge).tasks, r) == TasksIn(rest.tasks, r)
    decreases r - round, 0
  {
    if r == round {
      next, rest := turn, PlayWith(turn, round, s, judge);
    } else {
      var after, afterwards := RunsOn(turn, round, s, judge, r);
      next, rest := RunReachesOn(after, round + 1, s, judge, afterwards, PlayWith(turn, round, s, judge), r);
    }
  }

  lemma {:induction false} RunReachesOn(turn: Turn, round: int, s: Setting, judge: Judge, later: Run, run: Run, r: int)
    returns (next: Turn, rest: Run)
    requires AllBelow(turn.steps, round) && Bounded(judge, s) && later == PlayWith(turn, round, s, judge)
    requires SameEnd(later, run) && TasksIn(run.tasks, r) == TasksIn(later.tasks, r) && round <= r <= run.last
    ensures AllBelow(next.steps, r) && rest == PlayWith(next, r, s, judge)
    ensures SameEnd(rest, run) && TasksIn(run.tasks, r) == TasksIn(rest.tasks, r)
    decreases r - round, 1
  {
    next, rest := RunReaches(turn, round, s, judge, r);
  }

  /** Every round of a run has exactly one step of each worker. */
  lemma EachWorkerOnce(turn: Turn, round: int, s: Setting, judge: Judge, r: int)
    requires AllBelow(turn.steps, round) && Bounded(judge, s) && round <= r <= PlayWith(turn, round, s, judge).last
    ensures RoundDone(PlayWith(turn, round, s, judge), s, r)
  {
    var next, rest := RunReaches(turn, round, s, judge, r);
    FirstRoundDone(next, r, s, judge);
    SameRoundDone(rest, PlayWith(turn, round, s, judge), s, r);
  }

  lemma SameAsked(a: Run, b: Run, s: Setting, r: int)
    requires SameEnd(a, b) && TasksIn(a.tasks, r) == TasksIn(b.tasks, r) && AskedOnce(a, s, r)
    ensures AskedOnce(b, s, r)
  {
  }

  /** Every worker is asked exactly once in every round. */
  lemma EachWorkerAskedOnce(turn: Turn, round: int, s: Setting, judge: Judge, r: int)
    requires AllBelow(turn.steps, round) && Bounded(judge, s) && round <= r <= PlayWith(turn, round, s, judge).last
    ensures AskedOnce(PlayWith(turn, round, s, judge), s, r)
  {
    var next, rest := RunReaches(turn, round, s, judge, r);
    FirstRoundAsked(next, r, s, judge);
    SameAsked(rest, PlayWith(turn, round, s, judge), s, r);
  }

  // ----- the steps are the answers -----

  /** The step holds what the worker answered, under its role and round and the time of the run. */
  ghost predicate IsAnswer(step: Step, output: Output, round: int, role: string, createdAt: int) {
    && step.round == round && step.role == role && step.createdAt == createdAt
    && step.outputSummary == output.outputSummary && step.blockers == output.blockers
    && step.openIssues == output.openIssues && step.questions == output.questions
    && step.agreement == output.agreement && step.outcome == output.outcome
  }

  /** Each step is the answer of the worker in its place to the task in its place; a task without a
      step, the last one, had no answer. */
  ghost predicate AnsweredBy(tasks: seq<Task>, steps: seq<Step>, s: Setting, round: int) {
    && |steps| <= |tasks| <= |steps| + 1 && |tasks| <= |s.team|
    && (forall i | 0 <= i < |steps| ::
          s.workers(tasks[i]).Some? &&
          IsAnswer(steps[i], s.workers(tasks[i]).value, round, s.team[i].role, s.createdAt))
    && (|steps| < |tasks| ==> s.workers(tasks[|steps|]).None?)
  }

  lemma AnsweredNext(tasks: seq<Task>, steps: seq<Step>, s: Setting, round: int, task: Task)
    requires AnsweredBy(tasks, steps, s, round) && |steps| == |tasks| < |s.team|
    ensures match s.workers(task)
            case None => AnsweredBy(tasks + [task], steps, s, round)
            case Some(output) =>
              AnsweredBy(tasks + [task], steps + [StepFrom(round, s.team[|steps|].role, output, s.createdAt)], s, round)
  {
  }

  /** What the first workers of a round have added to the turn are their answers. */
  lemma {:induction false} RoundIsAnswered(turn: Turn, round: int, s: Setting, k: nat) returns (steps: seq<Step>)
    requires k <= |s.team|
    ensures var p := RoundOf(turn, round, s, k);
            && p.turn == turn.(steps := turn.steps + steps) && AnsweredBy(p.tasks, steps, s, round)
            && (p.ok ==> |p.tasks| == |steps| == k) && (!p.ok ==> |p.tasks| > |steps|)
  {
    if k == 0 {
      steps := [];
      assert turn.steps + [] == turn.steps;
    } else {
      steps := RoundIsAnswered(turn, round, s, k - 1);
      var p := RoundOf(turn, round, s, k - 1);
      if p.ok {
        var task := TaskFor(p.turn, round, s.team[k - 1]);
        var output := s.workers(task);
        AnsweredNext(p.tasks, steps, s, round, task);
        if output.Some? {
          var step := StepFrom(round, s.team[k - 1].role, output.value, s.createdAt);
          assert turn.steps + steps + [step] == turn.steps + (steps + [step]);
          steps := steps + [step];
        }
      }
    }
  }

  /** The steps of the round are the answers to its tasks; only the last round of a run that a
      failing worker ends has a task more. */
  ghost predicate RoundAnswered(run: Run, s: Setting, r: int) {
    var asked, steps := TasksIn(run.tasks, r), InRound(run.turn.steps, r);
    AnsweredBy(asked, steps, s, r) && (|steps| < |asked| ==> r == run.last && run.ending == Threw)
  }

  lemma FirstRoundAnswered(turn: Turn, round: int, s: Setting, judge: Judge)
    requires AllBelow(turn.steps, round) && Bounded(judge, s) && round <= PlayWith(turn, round, s, judge).last
    ensures RoundAnswered(PlayWith(turn, round, s, judge), s, round)
  {
    var added := PlayExtends(turn, round, s, judge);
    var p := RoundOf(turn, round, s, |s.team|);
    var current := RoundEnds(turn, round, s);
    var steps := RoundIsAnswered(turn, round, s, |s.team|);
    assert current == p.turn.steps[|turn.steps|..] == steps;
    FirstRoundStays(turn, round, s, judge);
    TasksOfFirstRound(turn, round, s, judge, round);
    if !p.ok { ThrownInRound(turn, round, s, judge); }
  }

  lemma SameAnswers(a: Run, b: Run, s: Setting, r: int)
    requires SameEnd(a, b) && TasksIn(a.tasks, r) == TasksIn(b.tasks, r) && RoundAnswered(a, s, r)
    ensures RoundAnswered(b, s, r)
  {
  }

  /** In every round each step recorded for a worker is its answer to its task of that round. */
  lemma StepsAreAnswers(turn: Turn, round: int, s: Setting, judge: Judge, r: int)
    requires AllBelow(turn.steps, round) && Bounded(judge, s) && round <= r <= PlayWith(turn, round, s, judge).last
    ensures RoundAnswered(PlayWith(turn, round, s, judge), s, r)
  {
    var next, rest := RunReaches(turn, round, s, judge, r);
    FirstRoundAnswered(next, r, s, judge);
    SameAnswers(rest, PlayWith(turn, round, s, judge), s, r);
  }

  // ----- how runs end -----

  /** The ending is what the judgement on the last round says. Only when the limit is below the first
      round is there none. */
  ghost predicate EndsAsJudged(run: Run, start: int, s: Setting, judge: Judge) {
    match run.ending
    case Threw => start <= run.last
    case Finished => start <= run.last && judge(InRound(run.turn.steps, run.last), run.last) == Finish
    case Asked(reason, code) =>
      if start > s.hardMax then reason == Verdict(HardRoundBudgetExhausted) && code == HardRoundBudgetExhausted
      else judge(InRound(run.turn.steps, run.last), run.last) == Ask(reason, code)
  }

  lemma StopsAsJudged(turn: Turn, round: int, s: Setting, judge: Judge)
    requires AllBelow(turn.steps, round) && Bounded(judge, s) && round <= s.hardMax
    requires !GoesOn(round, RoundOf(turn, round, s, |s.team|), judge)
    ensures EndsAsJudged(PlayWith(turn, round, s, judge), round, s, judge)
  {
  }

  lemma {:induction false} RunEndsAsJudged(turn: Turn, round: int, s: Setting, judge: Judge)
    requires AllBelow(turn.steps, round) && Bounded(judge, s)
    ensures EndsAsJudged(PlayWith(turn, round, s, judge), round, s, judge)
    decreases s.hardMax - round
  {
    if round <= s.hardMax {
      var p := RoundOf(turn, round, s, |s.team|);
      PlayStep(turn, round, s, judge);
      if GoesOn(round, p, judge) {
        RoundTasks(turn, round, s);
        RunEndsAsJudged(p.turn, round + 1, s, judge);
        EndsEarlier(PlayWith(p.turn, round + 1, s, judge), PlayWith(turn, round, s, judge), round, s, judge);
      } else {
        StopsAsJudged(turn, round, s, judge);
      }
    }
  }

  lemma EndsEarlier(rest: Run, run: Run, start: int, s: Setting, judge: Judge)
    requires EndsAsJudged(rest, start + 1, s, judge) && start + 1 <= s.hardMax && SameEnd(rest, run)
    ensures EndsAsJudged(run, start, s, judge)
  {
  }

  lemma FirstJudged(turn: Turn, round: int, s: Setting, judge: Judge)
    requires AllBelow(turn.steps, round) && Bounded(judge, s) && round < PlayWith(turn, round, s, judge).last
    ensures var p := RoundOf(turn, round, s, |s.team|);
            var run := PlayWith(turn, round, s, judge);
            round < s.hardMax && AllBelow(p.turn.steps, round + 1) &&
              SameEnd(PlayWith(p.turn, round + 1, s, judge), run) &&
            judge(InRound(run.turn.steps, round), round) == KeepGoing
  {
    var added := PlayExtends(turn, round, s, judge);
    var current := RoundEnds(turn, round, s);
    PlayStep(turn, round, s, judge);
    FirstRoundStays(turn, round, s, judge);
  }

  /** After every round but the last one the judgement was to go on. */
  lemma {:induction false} EarlierRoundsWentOn(turn: Turn, round: int, s: Setting, judge: Judge, r: int)
    requires AllBelow(turn.steps, round) && Bounded(judge, s) && round <= r < PlayWith(turn, round, s, judge).last
    ensures judge(InRound(PlayWith(turn, round, s, judge).turn.steps, r), r) == KeepGoing
    decreases s.hardMax - round
  {
    FirstJudged(turn, round, s, judge);
    if r > round { EarlierRoundsWentOn(RoundOf(turn, round, s, |s.team|).turn, round + 1, s, judge, r); }
  }

  lemma JudgeIsBounded(contract: Contract, s: Setting)
    requires s.minRounds <= s.hardMax
    ensures Bounded(JudgeOf(contract, s), s)
  {
  }

  /** A run goes on after a round below the limit that has no verdict yet, or whose verdict does not
      count; it ends after the first other one, as the verdict on that round says. */
  ghost predicate EndsRight(contract: Contract, run: Run, start: int, s: Setting) {
    var verdict := VerdictIn(run.turn.steps, run.last, s);
    match run.ending
    case Threw => start <= run.last
    case Finished => start <= run.last && !contract.nonConvergent && verdict.status == Converge
    case Asked(reason, code) =>
      if start > s.hardMax then reason == Verdict(HardRoundBudgetExhausted) && code == HardRoundBudgetExhausted
      else if contract.nonConvergent then
        run.last >= s.hardMax && reason == HardCap(contract.policyReason) && code == HardRoundBudgetExhausted
      else
        code == verdict.reason &&
        ((verdict.status == AskUser && reason == Verdict(code)) ||
         (verdict.status == GoOn && run.last >= s.hardMax && reason == RoundCap(code)))
  }

  lemma RunEndsRight(turn: Turn, round: int, s: Setting, r: int)
    requires AllBelow(turn.steps, round) && s.minRounds <= s.hardMax
    ensures var run := Play(turn, round, s);
            run.last <= s.hardMax && EndsRight(turn.contract, run, round, s) &&
            (round <= r < run.last ==> turn.contract.nonConvergent || VerdictIn(run.turn.steps, r, s).status == GoOn)
  {
    var judge := JudgeOf(turn.contract, s);
    JudgeIsBounded(turn.contract, s);
    var added := PlayExtends(turn, round, s, judge);
    RunEndsAsJudged(turn, round, s, judge);
    JudgedRight(turn.contract, Play(turn, round, s), round, s);
    if round <= r < Play(turn, round, s).last {
      EarlierRoundsWentOn(turn, round, s, judge, r);
      GoOnMeans(turn.contract, VerdictIn(Play(turn, round, s).turn.steps, r, s), r, s);
    }
  }

  lemma GoOnMeans(contract: Contract, verdict: Convergence, r: int, s: Setting)
    requires MoveAfter(contract, verdict, r, s.minRounds, s.hardMax) == KeepGoing
    ensures contract.nonConvergent || verdict.status == GoOn
  {
  }

  lemma JudgedRight(contract: Contract, run: Run, start: int, s: Setting)
    requires EndsAsJudged(run, start, s, JudgeOf(contract, s))
    ensures EndsRight(contract, run, start, s)
  {
  }

  /** A run converges only on a contract that may converge, after a round in which every worker gave
      its final answer, none rejected, and nothing was left open. */
  lemma ConvergedIsSound(turn: Turn, round: int, s: Setting)
    requires AllBelow(turn.steps, round) && s.minRounds <= s.hardMax && Play(turn, round, s).ending == Finished
    ensures var run := Play(turn, round, s);
            var current := InRound(run.turn.steps, run.last);
            round <= run.last <= s.hardMax && !turn.contract.nonConvergent && |current| == |s.team| &&
            (forall x | x in current :: x.outcome == Some(Final) && x.agreement != Some(false)) &&
            (forall x, v | x in current && (v in x.openIssues || v in x.blockers) :: Blank(v))
  {
    RunEndsRight(turn, round, s, round);
  }

  /** A contract that does not converge uses up all rounds, and the user is asked. */
  lemma NonConvergentIsCapped(turn: Turn, round: int, s: Setting)
    requires AllBelow(turn.steps, round) && s.minRounds <= s.hardMax && round <= s.hardMax
    requires turn.contract.nonConvergent && Play(turn, round, s).ending != Threw
    ensures Play(turn, round, s).last == s.hardMax
    ensures Play(turn, round, s).ending == Asked(HardCap(turn.contract.policyReason), HardRoundBudgetExhausted)
  {
    RunEndsRight(turn, round, s, round);
  }

  // ----- the minimum number of rounds -----

  /** The workers answer the same whatever the prompt says about the phase and the minimum. */
  ghost predicate IgnoreMinimum(workers: Workers) {
    forall task: Task, phase, n ::
      workers(task.(prompt := task.prompt.(phase := phase, minRounds := n))) == workers(task)
  }

  /** Two tasks that differ in what the prompt says about the phase and the minimum. */
  ghost predicate SameTask(a: Task, b: Task) {
    b.(prompt := a.prompt) == a && a.prompt.participant == b.prompt.participant
  }

  ghost predicate SameTasks(a: seq<Task>, b: seq<Task>) {
    |a| == |b| && forall i | 0 <= i < |a| :: SameTask(a[i], b[i])
  }

  lemma SameAnswer(workers: Workers, a: Task, b: Task)
    requires IgnoreMinimum(workers) && SameTask(a, b)
    ensures workers(a) == workers(b)
  {
    assert b == a.(prompt := a.prompt.(phase := b.prompt.phase, minRounds := b.prompt.minRounds));
  }

  lemma {:induction false} RoundIgnoresMinimum(turn: Turn, round: int, s: Setting, a: int, b: int, k: nat)
    requires k <= |s.team| && IgnoreMinimum(s.workers)
    ensures var p, q := RoundOf(turn, round, s, k), RoundOf(turn.(minRounds := a), round, s.(minRounds := b), k);
            q.turn == p.turn.(minRounds := a) && q.ok == p.ok && SameTasks(p.tasks, q.tasks)
  {
    if k > 0 {
      RoundIgnoresMinimum(turn, round, s, a, b, k - 1);
      SpeakIgnoresMinimum(RoundOf(turn, round, s, k - 1),
                          RoundOf(turn.(minRounds := a), round, s.(minRounds := b), k - 1),
                          round, s.team[k - 1], s, a, b);
    }
  }

  lemma SpeakIgnoresMinimum(p: Progress, q: Progress, round: int, worker: Worker, s: Setting, a: int, b: int)
    requires q.turn == p.turn.(minRounds := a) && q.ok == p.ok && SameTasks(p.tasks, q.tasks) &&
             IgnoreMinimum(s.workers)
    ensures var r, t := Speak(p, round, worker, s), Speak(q, round, worker, s.(minRounds := b));
            t.turn == r.turn.(minRounds := a) && t.ok == r.ok && SameTasks(r.tasks, t.tasks)
  {
    SameAnswer(s.workers, TaskFor(p.turn, round, worker), TaskFor(q.turn, round, worker));
  }

  /** The runs end alike, with the same steps, after the same tasks but for their prompts. */
  ghost predicate SameButMinimum(one: Run, other: Run, a: int) {
    other.turn == one.turn.(minRounds := a) && other.last == one.last && other.ending == one.ending &&
    SameTasks(one.tasks, other.tasks)
  }

  lemma SameTasksConcat(a: seq<Task>, b: seq<Task>, x: seq<Task>, y: seq<Task>)
    requires SameTasks(a, b) && SameTasks(x, y)
    ensures SameTasks(a + x, b + y)
  {
  }

  lemma {:induction false} PlayIgnoresMinimum(turn: Turn, round: int, s: Setting, a: int, b: int, one: Judge,
                                              other: Judge)
    requires IgnoreMinimum(s.workers) && forall current, r :: one(current, r) == other(current, r)
    ensures SameButMinimum(PlayWith(turn, round, s, one),
                           PlayWith(turn.(minRounds := a), round, s.(minRounds := b), other), a)
    decreases s.hardMax - round
  {
    if round <= s.hardMax {
      var p := RoundOf(turn, round, s, |s.team|);
      var q := RoundOf(turn.(minRounds := a), round, s.(minRounds := b), |s.team|);
      RoundIgnoresMinimum(turn, round, s, a, b, |s.team|);
      if GoesOn(round, p, one) {
        PlayIgnoresMinimum(p.turn, round + 1, s, a, b, one, other);
        SameTasksConcat(p.tasks, q.tasks, PlayWith(p.turn, round + 1, s, one).tasks,
                        PlayWith(q.turn, round + 1, s.(minRounds := b), other).tasks);
      }
    }
  }

  /** A run changes with the minimum number of rounds only through what its workers make of their
      prompts: workers that ignore it there play the same run for every minimum. */
  lemma RunIgnoresMinimum(turn: Turn, workers: Workers, createdAt: int, a: int)
    requires IgnoreMinimum(workers)
    ensures SameButMinimum(RunOf(turn, workers, createdAt), RunOf(turn.(minRounds := a), workers, createdAt), a)
  {
    var other := turn.(minRounds := a);
    var s, t := SettingOf(turn, workers, createdAt), SettingOf(other, workers, createdAt);
    var one, two := JudgeOf(turn.contract, s), JudgeOf(other.contract, t);
    forall current, r ensures one(current, r) == two(current, r) {
      MinRoundsIsIdle(turn.contract, VerdictOf(current, |s.team|), r, s.minRounds, t.minRounds, s.hardMax);
    }
    assert t == s.(minRounds := t.minRounds);
    PlayIgnoresMinimum(turn, NextRound(turn.steps), s, a, t.minRounds, one, two);
  }

  // ----- workers that read the minimum -----

  /** A worker that gives its final answer as soon as its prompt does not ask it to explore. */
  function FinalAfterExploring(): Workers {
    (task: Task) => Some(Output("", [], [], [], None,
                                Some(if task.prompt.phase == ExploreAndQuestion then Continue else Final)))
  }

  function SoloTurn(minRounds: int): Turn {
    Turn("t", "s", Running, 2, minRounds, [Worker("solo", [], [], "proposal", "solo", "worker-1")],
         Contract(false, "", []), [], [])
  }

  lemma SoloRound(minRounds: int, round: int, steps: seq<Step>, s: Setting)
    requires s.team == SoloTurn(minRounds).workers && s.workers == FinalAfterExploring()
    ensures var turn := SoloTurn(minRounds).(steps := steps);
            var p := RoundOf(turn, round, s, 1);
            var final := round >= AtLeastOne(minRounds);
            p.ok && p.turn == turn.(steps := steps +
              [Step(round, "solo", "", [], [], [], None, Some(if final then Final else Continue), s.createdAt)])
  {
    assert RoundOf(SoloTurn(minRounds).(steps := steps), round, s, 0).ok;
  }

  lemma SoloVerdict(steps: seq<Step>, step: Step, s: Setting)
    requires AllBelow(steps, step.round) && |s.team| == 1 && step.openIssues == [] && step.blockers == []
    requires step.agreement == None && (step.outcome == Some(Final) || step.outcome == Some(Continue))
    ensures InRound(steps + [step], step.round) == [step]
    ensures VerdictOf([step], 1).status == if step.outcome == Some(Final) then Converge else GoOn
  {
    FilterNext(steps, step, step.round);
    FreshRound(steps, step.round);
    assert [] + [step] == [step];
    NothingOpen(step);
    if step.outcome == Some(Final) { FinalConverges(step); } else { ContinueGoesOn(step); }
  }

  lemma NothingOpen(step: Step)
    requires step.openIssues == [] && step.blockers == []
    ensures !Open([step])
  {
    assert forall s | s in [step] :: s == step;
  }

  lemma FinalConverges(step: Step)
    requires !Open([step]) && step.agreement == None && step.outcome == Some(Final)
    ensures VerdictOf([step], 1).status == Converge
  {
    assert All([step], 1, Final) && !Rejected([step]);
  }

  lemma ContinueGoesOn(step: Step)
    requires !Open([step]) && step.outcome == Some(Continue)
    ensures VerdictOf([step], 1).status == GoOn
  {
    assert [step][0] in [step];
    assert !All([step], 1, Final) && !All([step], 1, Blocked);
  }

  lemma SoloEnds(minRounds: int, round: int, steps: seq<Step>, s: Setting)
    requires s == SettingOf(SoloTurn(minRounds), FinalAfterExploring(), 0)
    requires AtLeastOne(minRounds) <= round <= 2 && AllBelow(steps, round)
    ensures var turn := SoloTurn(minRounds).(steps := steps);
            PlayWith(turn, round, s, JudgeOf(turn.contract, s)).last == round
  {
    SoloRound(minRounds, round, steps, s);
    SoloVerdict(steps, Step(round, "solo", "", [], [], [], None, Some(Final), 0), s);
  }

  lemma SoloExplores(s: Setting)
    requires s == SettingOf(SoloTurn(2), FinalAfterExploring(), 0)
    ensures PlayWith(SoloTurn(2), 1, s, JudgeOf(SoloTurn(2).contract, s)).last == 2
  {
    var first := Step(1, "solo", "", [], [], [], None, Some(Continue), 0);
    SoloRound(2, 1, [], s);
    SoloVerdict([], first, s);
    assert [] + [first] == [first];
    SoloEnds(2, 2, [first], s);
  }

  /** With such a worker the minimum decides how many rounds are played. */
  lemma MinimumCanMatter()
    ensures RunOf(SoloTurn(1), FinalAfterExploring(), 0).last == 1
    ensures RunOf(SoloTurn(2), FinalAfterExploring(), 0).last == 2
  {
    SoloEnds(1, 1, [], SettingOf(SoloTurn(1), FinalAfterExploring(), 0));
    SoloExplores(SettingOf(SoloTurn(2), FinalAfterExploring(), 0));
  }
}
