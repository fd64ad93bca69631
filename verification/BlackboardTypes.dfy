/** The blackboard's records: worker plans, steps, turns and decisions. */
module BlackboardTypes {
  import opened Basics

  /** A worker as the plan asks for it; what it leaves out is filled in. */
  datatype PlanInput = PlanInput(
    role: string,
    dependsOn: Option<seq<string>>,
    capabilities: Option<seq<string>>,
    handoff: Option<string>,
    name: Option<string>,
    stage: Option<string>)

  datatype Worker = Worker(
    role: string,
    dependsOn: seq<string>,
    capabilities: seq<string>,
    handoff: string,
    name: string,
    stage: string)

  datatype Outcome = Blocked | Continue | Final

  datatype Step = Step(
    round: int,
    role: string,
    outputSummary: string,
    blockers: seq<string>,
    openIssues: seq<string>,
    questions: seq<string>,
    agreement: Option<bool>,
    outcome: Option<Outcome>,
    createdAt: int)

  datatype Contradiction = Contradiction(left: string, right: string, reason: string)

  datatype Contract = Contract(nonConvergent: bool, policyReason: string, contradictions: seq<Contradiction>)

  datatype Status = Running | Converged | Failed | NeedsUser

  datatype Reason =
    | AwaitingWorkerConsensus | AwaitingWorkerFinalOutput | HardRoundBudgetExhausted
    | PeerQaOpenIssues | WaitingForWorkers | WorkersReachedConsensus

  /** What the user is asked about: reported texts, or one of three fixed questions. */
  datatype Issue = Reported(text: string) | ConfirmWithoutFinalOutput | ConfirmDisagreement | ConfirmLimitReached

  /** The reason given for a decision: a verdict's, or that a limit on the rounds was reached. */
  datatype DecisionReason = Verdict(code: Reason) | HardCap(policyReason: string) | RoundCap(code: Reason)

  datatype Decision = Decision(reason: DecisionReason, openQuestions: seq<Issue>, round: int, createdAt: int)

  datatype Turn = Turn(
    id: string,
    scope: string,
    status: Status,
    hardMaxRounds: int,
    minRounds: int,
    workers: seq<Worker>,
    contract: Contract,
    steps: seq<Step>,
    decisions: seq<Decision>)
}
