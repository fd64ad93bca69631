/** A blackboard run on values: which tasks are given out, what is recorded, and how it ends. */
module BlackboardRun {
  import opened Basics
  import opened BlackboardTypes
  import opened Convergence

  /** A step as the workers are shown it. */
  datatype TaskStep = TaskStep(
    round: int,
    role: string,
    outputSummary: string,
    blockers: seq<string>,
    openIssues: seq<string>,
    questions: seq<string>,
    agreement: Option<bool>,
    outcome: Option<Outcome>)

  function ViewOf(step: Step): TaskStep {
    TaskStep(step.round, step.role, step.outputSummary, step.blockers, step.openIssues, step.questions,
             step.agreement, step.outcome)
  }

  function Views(steps: seq<Step>): seq<TaskStep> {
    seq(|steps|, i requires 0 <= i < |steps| => ViewOf(steps[i]))
  }

  datatype Phase = ExploreAndQuestion | RespondToUpstream | Decompose | AnswerOpenIssues | ConvergeOrDefer

  /** What the rendered prompt tells a worker beside the steps and the contract. */
  datatype Prompt = Prompt(participant: string, phase: Phase, minRounds: int)

  datatype Task = Task(
    turnId: string,
    scope: string,
    contract: Contract,
    round: int,
    role: string,
    prompt: Prompt,
    currentRoundSteps: seq<TaskStep>,
    previousSteps: seq<TaskStep>)

  function AtLeastOne(n: int): int {
    if n > 1 then n else 1
  }

  function WorkerPhase(turn: Turn, worker: Worker, round: int, minRounds: int): Phase {
    if round < minRounds then ExploreAndQuestion
    else if round == 1 then if worker.dependsOn != [] then RespondToUpstream else Decompose
    else if OpenIssuesOf(Below(turn.steps, round)) != [] then AnswerOpenIssues
    else ConvergeOrDefer
  }

  function WorkerPrompt(turn: Turn, worker: Worker, round: int): Prompt {
    var minRounds := AtLeastOne(turn.minRounds);
    Prompt(worker.name, WorkerPhase(turn, worker, round, minRounds), minRounds)
  }

  function TaskWith(turn: Turn, round: int, role: string, prompt: Prompt): Task {
    Task(turn.id, turn.scope, turn.contract, round, role, prompt,
         Views(InRound(turn.steps, round)), Views(Below(turn.steps, round)))
  }

  /** The task of a worker of the team. */
  function TaskFor(turn: Turn, round: int, worker: Worker): Task {
    TaskWith(turn, round, worker.role, WorkerPrompt(turn, worker, round))
  }

  datatype Output = Output(
    outputSummary: string,
    blockers: seq<string>,
    openIssues: seq<string>,
    questions: seq<string>,
    agreement: Option<bool>,
    outcome: Option<Outcome>)

  /** What the workers answer; none when one fails, is not registered, or returns nothing. A run
      never gives out the same task twice, so a function is no restriction. */
  type Workers = Task -> Option<Output>

  function StepFrom(round: int, role: string, output: Output, createdAt: int): Step {
    Step(round, role, output.outputSummary, output.blockers, output.openIssues, output.questions,
         output.agreement, output.outcome, createdAt)
  }

  /** What stays the same during a run. */
  datatype Setting = Setting(team: seq<Worker>, workers: Workers, createdAt: int, hardMax: int, minRounds: int)

  function HardMax(turn: Turn): int {
    AtLeastOne(turn.hardMaxRounds)
  }

  function MinRounds(turn: Turn): int {
    if AtLeastOne(turn.minRounds) < HardMax(turn) then AtLeastOne(turn.minRounds) else HardMax(turn)
  }

  // ----- one round -----

  datatype Progress = Progress(turn: Turn, tasks: seq<Task>, ok: bool)

  function Speak(p: Progress, round: int, worker: Worker, s: Setting): Progress {
    if !p.ok then p else
      var task := TaskFor(p.turn, round, worker);
      var output := s.workers(task);
      if output.None? then Progress(p.turn, p.tasks + [task], false)
      else Progress(p.turn.(steps := p.turn.steps + [StepFrom(round, worker.role, output.value, s.createdAt)]),
                    p.tasks + [task], true)
  }

  /** The round after `k` workers. */
  function RoundOf(turn: Turn, round: int, s: Setting, k: nat): Progress
    requires k <= |s.team|
  {
    if k == 0 then Progress(turn, [], true) else Speak(RoundOf(turn, round, s, k - 1), round, s.team[k - 1], s)
  }

  // ----- between the rounds -----

  datatype After = KeepGoing | Finish | Ask(reason: DecisionReason, code: Reason)

  function MoveAfter(contract: Contract, verdict: Convergence, round: int, minRounds: int, hardMax: int): After {
    if contract.nonConvergent && round < hardMax then KeepGoing
    else if contract.nonConvergent && round >= hardMax then
      Ask(HardCap(contract.policyReason), HardRoundBudgetExhausted)
    else if verdict.status == Converge then Finish
    else if round < minRounds then
      if verdict.status == AskUser then Ask(Verdict(verdict.reason), verdict.reason) else KeepGoing
    else if verdict.status == AskUser || round >= hardMax then
      Ask(if verdict.status == AskUser then Verdict(verdict.reason) else RoundCap(verdict.reason), verdict.reason)
    else KeepGoing
  }

  /** A minimum number of rounds within the hard limit changes nothing, whatever the verdict: a round
      below it ends the run exactly when a later one would. */
  lemma MinRoundsIsIdle(contract: Contract, verdict: Convergence, round: int, a: int, b: int, hardMax: int)
    requires a <= hardMax && b <= hardMax
    ensures MoveAfter(contract, verdict, round, a, hardMax) == MoveAfter(contract, verdict, round, b, hardMax)
  {
  }

  // ----- the run -----

  datatype Ending = Threw | Finished | Asked(reason: DecisionReason, code: Reason)

  /** The turn with all steps, the tasks given out, the last round, and how it ended. */
  datatype Run = Run(turn: Turn, tasks: seq<Task>, last: int, ending: Ending)

  ghost function VerdictIn(steps: seq<Step>, round: int, s: Setting): Convergence {
    VerdictOf(InRound(steps, round), |s.team|)
  }

  /** How the steps of a round are judged. */
  type Judge = (seq<Step>, int) -> After

  ghost function JudgeOf(contract: Contract, s: Setting): Judge {
    (current, round) => MoveAfter(contract, VerdictOf(current, |s.team|), round, s.minRounds, s.hardMax)
  }

  ghost function PlayWith(turn: Turn, round: int, s: Setting, judge: Judge): Run
    decreases s.hardMax - round
  {
    if round > s.hardMax then
      Run(turn, [], s.hardMax, Asked(Verdict(HardRoundBudgetExhausted), HardRoundBudgetExhausted))
    else
      var p := RoundOf(turn, round, s, |s.team|);
      if !p.ok then Run(p.turn, p.tasks, round, Threw) else
        match judge(InRound(p.turn.steps, round), round)
        case Finish => Run(p.turn, p.tasks, round, Finished)
        case Ask(reason, code) => Run(p.turn, p.tasks, round, Asked(reason, code))
        case KeepGoing =>
          var rest := PlayWith(p.turn, round + 1, s, judge);
          rest.(tasks := p.tasks + rest.tasks)
  }

  ghost function Play(turn: Turn, round: int, s: Setting): Run {
    PlayWith(turn, round, s, JudgeOf(turn.contract, s))
  }

  function SettingOf(turn: Turn, workers: Workers, createdAt: int): Setting {
    Setting(turn.workers, workers, createdAt, HardMax(turn), MinRounds(turn))
  }

  /** The run of a turn from where it stands. */
  ghost function RunOf(turn: Turn, workers: Workers, createdAt: int): Run {
    Play(turn, NextRound(turn.steps), SettingOf(turn, workers, createdAt))
  }
}
