# Flyflor kernel: a verified model

This project models the small stateful algorithms of Flyflor's kernel in Dafny and proves what they
promise over every input, every run and every interleaving.

- **Executive tool loop.** `LoopGuard` (the class with its three count maps, proved against counts of
  its history), `CallKey` and `CallKeyUnique` (the guard's key, and that it is injective), `ToolCalls`,
  `ToolBudget`, `ToolScheduler` and `ToolRuntime` (the turns of the loop), `ToolLoop` (a bounded loop
  and its course), `ToolFailures` (the guard's failure counts against the executions), `ToolRunSafety`
  (what holds over a whole run), `RunLaws` (what the model is shown and what each turn does) and
  `RunEnds` (how a run ends). `GuardLaws`, `BudgetLaws` and `ScheduleLaws` say what guard, budget and
  scheduler answer without naming their functions.
- **Blackboard.** `WorkerPlan` (deduplication, dependency sort, the workers of a turn), `WorkerOrder`
  (which order that is, and that there is only one), `Convergence` (the verdict on a round, open issues),
  `ConvergenceLaws` (both from the steps alone), `BlackboardStore` (the tables), `BlackboardRun` (a run on
  values), `BlackboardModule` (the class that runs a turn against the store), `BlackboardLaws` (what
  holds for every run), `BlackboardLeases` (starts, runs and finishes as interleaved store operations).
- **Read cache.** `ReadCache` (the LRU cache with expiry, proved against its operation history) and
  `ReadCacheInclusion` (a larger cache includes a smaller one). `OrderedMap` is JavaScript's `Map`.
- **Dedup claims.** `DedupStore` (the class) and `DedupProtocol` (dispatches as interleaved atomic
  steps).
- **Text and schema.** `StructuredBlock` (tagged blocks), `Jsonc`, `JsoncGrammar` and `JsoncLaws` (the
  comment scanner and the trailing-comma replacement), `SchemaValidate` (the JSON-schema walk against a
  declarative predicate), `SchemaTypes` (what the type names stand for), `SchemaIssues` (which messages
  there are), `Json`, `Text`, `TextLaws` and `Numerals`. `Basics` is the optional value they share.

Classes that update fields stay classes, loops stay loops; each is proved equal to a function of its
inputs or of its history, and the theorems are about that function. Checking everything:
`dafny verify dfyconfig.toml`.

## Conventions of the model

- A Dafny `char` stands for a UTF-16 unit; object keys are sorted by code point, and lone surrogates
  do not occur. Numbers are their JavaScript text, so NaN, undefined and -0 do not occur in JSON values.
- Callbacks and workers are functions: the model's `generate` depends on the transcript and the turn,
  the adapter on the batch and on how many batches came before, a worker on its task. No run asks one
  of these three the same question twice, so for them this restricts nothing. It does restrict
  `toolDescriptor`, which is asked once when calls are grouped and again when they are scheduled, and
  `onExecutionAskRequired`, which is asked once per execution: both must answer equal questions
  equally within a run. `onParseFailure`, `onExecutionAskRequired` and the asks of a pause see the
  budget's counters, the guard's counts and the step, as in the program.
- Every operation reads the clock once; times are integers. Errors thrown to the caller are results
  (`Rejected`, `Refused`, `RunError`, `None`).
- Rows with the same round and creation time are read in the order in which they were inserted. The
  verdict on a round is proved not to depend on it (`Convergence.VerdictIgnoresOrder`).

## Findings

- The guard's key is injective for all tool names, with or without a colon in them.
- The scheduler makes nothing of `minRounds`: it is cut to `hardMaxRounds`, and a round below it ends
  the run exactly when a later one with the same verdict would (`BlackboardRun.MinRoundsIsIdle`). It
  acts only through the prompts: with workers that ignore it there the whole run is the same for every
  minimum (`BlackboardLaws.RunIgnoresMinimum`), and with a worker that heeds it two minimums end in
  different rounds (`BlackboardLaws.MinimumCanMatter`). `maxRounds` is stored and never read by the
  scheduler.
- `startTurn` refuses an empty worker plan after it has taken the lease, and keeps it
  (`BlackboardModule.BlackboardModule.StartTurn`).
- At most one turn runs or starts on a scope exactly as long as nobody outlives a lease, no lease is
  granted for no time, and no ended turn gives back the lease of a later start with its id; after the
  first step that breaks this, the next start gets the scope of somebody who is still active
  (`BlackboardLeases.StepIsGoodIffTimely`, `BlackboardLeases.UntimelyAllowsTwo`).
- The dedup store keeps one handler per key exactly as long as no handler outlives its claim and no
  granted claim pushes out an active one; after the first step that breaks this, a second handler can
  start (`DedupProtocol.UntimelyAllowsTwo`).
- The trailing-comma replacement also changes string literals: it keeps them exactly when no literal
  holds a comma that only white space separates from a closing bracket
  (`JsoncLaws.StripKeepsLiteralsIff`). And `strip` is not idempotent: it is exactly on the texts
  without a doubled trailing comma (`JsoncLaws.StripIsIdempotentIff`).
- The dedup key is injective for the channels there are (`DedupStore.DedupKeyInjective`). For arbitrary
  channel names it would not be: two of them collide exactly when one with its separator starts the
  other (`DedupStore.ChannelsCollideIff`), as `a:b` and `a` do (`DedupStore.ShadowedChannelsCollide`).
- When the adapter breaks its result contract, the run throws after batches of that turn were already
  sent: they are charged and the guard has counted them, but no execution of the turn is returned
  (`ToolRuntime.BrokenOff`). The limits hold for these calls as well (`ToolRunSafety.RunIsSafe`).

## Model

| member | source | states |
|---|---|---|
| CallKey.StableJsonIsCanonical | src/executive/loop.guard.ts:119-131 | two JSON values have the same canonical text if and only if they are equal up to object key order |
| CallKey.SortAscending | src/executive/loop.guard.ts:127-128 | the keys of a record are written in strictly ascending order |
| CallKey.Decodes | src/executive/loop.guard.ts:119-131 | the canonical text is self-delimiting: equal texts with anything behind them come from values of the same meaning, and what is behind them is equal |
| CallKey.EscapesAre | src/executive/loop.guard.ts:119-122 | how each character of a text is written, as JSON.stringify does |
| CallKeyUnique.NotBehindColon | src/executive/loop.guard.ts:114-131 | no object's text ends in a colon and another object's text, at any depth or inside a string |
| CallKeyUnique.CallKeyInjective | src/executive/loop.guard.ts:114-116 | two calls have the same key if and only if the tool names are equal and the inputs are equal up to key order, for all tool names |
| JsonValues.ReorderKeepsMeaning | src/executive/loop.guard.ts:126-130 | reordering the fields of a record does not change what it means |
| LoopGuard.ExecutiveLoopGuard.constructor | src/executive/loop.guard.ts:21-28 | missing options take their defaults and all counts are empty |
| LoopGuard.ExecutiveLoopGuard.Inspect | src/executive/loop.guard.ts:30-62 | the answer is the one that the history demands, which `GuardLaws.AnswersExactly` spells out, and the three count maps follow the history |
| LoopGuard.ExecutiveLoopGuard.RecordResult | src/executive/loop.guard.ts:64-78 | a failed result is counted and refused beyond the limit as the history demands; any other changes no count |
| LoopGuard.ExecutiveLoopGuard.Snapshot | src/executive/loop.guard.ts:80-87 | what the guard shows are the counts of its whole history |
| LoopGuard.ExecutiveLoopGuard.Reset | src/executive/loop.guard.ts:89-94 | the history starts anew |
| LoopGuard.UnknownMapCounts | src/executive/loop.guard.ts:96-112 | the map holds for every tool name the number of its inspections as an unknown tool within the cap |
| LoopGuard.RepeatMapCounts | src/executive/loop.guard.ts:42-43 | the map holds for every call key the number of its inspections within the cap |
| LoopGuard.FailureMapCounts | src/executive/loop.guard.ts:51-52 | the map holds for every call key the number of its counted failures |
| LoopGuard.Accounting | src/executive/loop.guard.ts:30-62 | all repeat and unknown-tool counts together are min(inspections, maxCalls) |
| LoopGuard.CapIsFinal | src/executive/loop.guard.ts:31-38 | once the call cap is reached every later inspection is refused, whatever comes between |
| LoopGuard.AllowedTotal | src/executive/loop.guard.ts:31-38 | over any history at most min(inspections, maxCalls) inspections are let through, and exactly that many when no other limit stops one |
| LoopGuard.AllowedRepeats | src/executive/loop.guard.ts:42-50 | over any history a call by a known tool is let through at most maxRepeatedCalls times, and exactly min(inspections within the cap, maxRepeatedCalls) times when none of them reports a failure |
| LoopGuard.AllowedUnknown | src/executive/loop.guard.ts:96-106 | over any history an unknown tool name is let through exactly min(inspections of it within the cap, maxUnknownToolRepeats) times |
| LoopGuard.FailuresWithinLimit | src/executive/loop.guard.ts:64-78 | while no failure was blocked, no call key has more than maxFailedCallRepeats failures |
| GuardLaws.AnswersExactly | src/executive/loop.guard.ts:30-112 | four if-and-only-ifs over the places of a history: an inspection is refused for the cap exactly when maxCalls inspections are before it, else, of an unknown tool, exactly when that name was inspected within the cap as often as allowed, else for repetition exactly when the same call was, and any other entry exactly when it reports a failure of a call that failed as often as allowed |
| ToolCalls.PickPartitions | src/executive/tool.runtime.ts:385-406 | the calls let through and the calls blocked are together exactly the calls |
| ToolCalls.ChunksAreChunking | src/executive/tool.runtime.ts:357-383 | the chunks concatenate to the calls, each is a run of joining calls or one other call, and no two neighbours could be one |
| ToolCalls.ChunkingUnique | src/executive/tool.runtime.ts:357-383 | there is only one such way to cut the calls up |
| ToolCalls.ClosedChunksStay | src/executive/tool.runtime.ts:444-457 | chunks that no further call can join are kept when calls follow, so they can be sent at once |
| ToolBudget.ExecutiveToolBudgetState.constructor | src/executive/tool.runtime.ts:628-635 | the counters start at zero with the given budgets |
| ToolBudget.ExecutiveToolBudgetState.ConsumeModelToolTurn | src/executive/tool.runtime.ts:637-639 | exactly one model turn is charged |
| ToolBudget.ExecutiveToolBudgetState.InspectExecution | src/executive/tool.runtime.ts:641-672 | refused if and only if the operation budget is used up or the operation is of high risk and the quota is, for that reason and with nothing charged; else one operation is charged, and one of the quota for high risk; used and remaining add up to the budgets |
| ToolBudget.GroupBudgetUnits | src/executive/tool.runtime.ts:357-383 | the groups are the unique cut of the calls into runs of unit-sharing calls, each as risky as its riskiest call |
| ToolBudget.ApplyBudget | src/executive/tool.runtime.ts:331-350 | groups are charged in order; admitted calls, refused calls and reasons are those of the groups |
| ToolBudget.BudgetCounts | src/executive/tool.runtime.ts:331-350 | one operation is charged per admitted group and one of the risk quota per admitted group of high risk, every other group gives one reason, and counters within their budgets stay so |
| ToolBudget.BudgetSplits | src/executive/tool.runtime.ts:339-348 | groups are admitted or refused whole and both parts keep the order of the calls |
| ToolBudget.RefusedHasReason | src/executive/tool.runtime.ts:346-347 | a call is refused exactly when some group gave a reason |
| BudgetLaws.BudgetIsExact | src/executive/tool.runtime.ts:331-350 | each group is admitted if and only if the groups admitted before it have not used up the operation budget nor, for a group of high risk, those of high risk the quota; the refused records are those of the other groups in order, each with the right reason |
| BudgetLaws.LastReasonIsLast | src/executive/tool.runtime.ts:241-243 | the last reason is that of the last refused call |
| ToolScheduler.AssertExecutionCoverage | src/executive/tool.runtime.ts:481-494 | accepted exactly when there is one result per call and the i-th is for the i-th call (same key, canonically equal input) |
| ToolScheduler.ExecuteBatch | src/executive/tool.runtime.ts:462-474 | the batch is sent once; the result is the adapter's own list if it covers the calls, nothing if it does not, and one failed record with the message for each call if it throws |
| ToolScheduler.ExecuteScheduled | src/executive/tool.runtime.ts:427-460 | the adapter is sent the chunks of batchable calls in order, all of them or those up to the one whose results break the contract; the results are those of the schedule, which `ScheduleLaws` pins use by use |
| ToolScheduler.SendingStopsFirst | src/executive/tool.runtime.ts:462-474 | no batch before the last one sent breaks the contract |
| ToolScheduler.ThrowIsCovered | src/executive/tool.runtime.ts:469-471 | a throwing adapter yields one failed result for each call of the batch |
| ToolScheduler.ScheduleCovers | src/executive/tool.runtime.ts:427-460 | on normal return the i-th result is for the i-th call over all batches |
| ToolScheduler.SchedulerRefinesCalls | src/executive/tool.runtime.ts:427-494 | whatever the adapter does: the batches concatenate to the calls, a batch of several holds only read-only, concurrency-safe, non-exclusive calls, and results are for their calls |
| ScheduleLaws.AnswersAreResults | src/executive/tool.runtime.ts:427-460 | when every use of the adapter returns a list that covers its batch, or throws, the results are exactly the concatenation of those lists, use by use, with the failed records of a batch that threw |
| ScheduleLaws.ResultsAreAnswers | src/executive/tool.runtime.ts:462-479 | conversely there are results only when every use is answered so |
| ScheduleLaws.ResultAt | src/executive/tool.runtime.ts:462-474 | the result of each call is the adapter's own element where its batch returned, and the failed record of the call where its batch threw |
| ScheduleLaws.CoversIff | src/executive/tool.runtime.ts:481-494 | results cover the calls exactly when there are as many and each has its call's tool and an input with the same canonical text |
| ScheduleLaws.IsForIff | src/executive/tool.runtime.ts:489-493 | for inputs that are JSON values that is the same input up to key order |
| ScheduleLaws.SentTogetherIff | src/executive/tool.runtime.ts:444-457 | two consecutive calls are sent in one batch if and only if both are read-only, concurrency-safe and not exclusive |
| ScheduleLaws.ChargedTogetherIff | src/executive/tool.runtime.ts:357-383 | two consecutive calls are charged as one operation if and only if both declare the batch as their budget unit |
| ScheduleLaws.GroupRiskIff | src/executive/tool.runtime.ts:369-382 | a group is of high risk if and only if one of its calls is declared so, is not read-only, or is exclusive |
| ToolRuntime.ApplyLoopGuard | src/executive/tool.runtime.ts:385-406 | the calls let through and the blocked records are those of the guard's answers to the growing history |
| ToolRuntime.ApplyResultGuard | src/executive/tool.runtime.ts:408-425 | every result is recorded, and exactly the refused ones give a blocked record |
| ToolRuntime.FirstExecutionAskRequired | src/executive/tool.runtime.ts:312-329 | the first execution that asks decides |
| ToolRuntime.ExecutiveToolRuntime.SettleTurn | src/executive/tool.runtime.ts:226-289 | result guard, record of the turn, the choice between pausing and going on, and the messages added, equal to the turn on values; `RunLaws` and `RunEnds` say what these are |
| ToolRuntime.ExecutiveToolRuntime.RunCalls | src/executive/tool.runtime.ts:194-225 | a turn whose calls are all blocked pauses the run; any other goes through the budget and the adapter; guard, budget and adapter are left as the turn on values says, also when it is broken off |
| ToolRuntime.ExecutiveToolRuntime.RunTurn | src/executive/tool.runtime.ts:165-193 | a parse failure is recovered or thrown, a turn without calls ends the run, any other is charged one model turn; the objects are left as the turn on values says, however it ends |
| ToolRuntime.ExecutiveToolRuntime.Run | src/executive/tool.runtime.ts:151-310 | the loop on mutable guard, budget, adapter and lists gives the result of the run on values, the adapter was sent what that run says however it ends, and invalid options are rejected before anything is sent; `RunLaws` and `RunEnds` pin that run turn by turn |
| ToolRunSafety.CallsConserved | src/executive/tool.runtime.ts:194-231 | by call key, blocked, refused and executed calls of a turn are together a permutation of its parsed calls |
| ToolRunSafety.SomethingAllowedOrBlocked | src/executive/tool.runtime.ts:198-201 | the branch for a step with nothing allowed and nothing blocked is never taken |
| ToolRunSafety.TriageDivides | src/executive/tool.runtime.ts:194-225 | each parsed call ends in one of guard-blocked, budget-blocked or admitted, and each class keeps the model's order |
| ToolRunSafety.TriageCharges | src/executive/tool.runtime.ts:192-221 | a turn charges one model turn, one operation per admitted group and one of the risk quota per admitted group of high risk, within sound counters |
| ToolFailures.ResultsCountFailures | src/executive/loop.guard.ts:64-78 | the guard's failure count of a call grows by exactly its executions that failed |
| ToolFailures.ResultsStopped | src/executive/tool.runtime.ts:408-425 | of each call the result guard stops exactly the failures beyond the limit |
| ToolLoop.LoopCourse | src/executive/tool.runtime.ts:164-310 | each turn of the loop leads to the head of the next, and the last one to the result, or there is none left |
| ToolRunSafety.HeadHolds | src/executive/tool.runtime.ts:165-290 | at the head of turn k exactly k model turns are used, the budgets hold, every call so far is accounted for, none was refused by the budget, and no call key has more failed executions than allowed |
| ToolRunSafety.RunIsSafe | src/executive/tool.runtime.ts:165-310 | every run, also one that a broken result contract ends: the adapter was sent the admitted calls in order and in safe batches, of a broken-off turn a non-empty prefix of them; the counters count the turns, the admitted groups and those of high risk, which stay within the operation budget and the risk quota; the guard has counted exactly the failed executions and stopped exactly those beyond the limit; sent calls stay within maxCalls, admitted ones within maxRepeatedCalls per known call and maxUnknownToolRepeats per unknown tool; a run that returns has the executions of its turns, and refused calls end it with an ask |
| ToolRunSafety.RunConserves | src/executive/tool.runtime.ts:165-310 | the recorded turns of a run are exactly its replies with calls, each with the calls parsed from its reply; on return the executions are by call key a permutation of all those calls plus the result-guard records and the record of a last reply that could not be parsed |
| RunLaws.ModelSeesResults | src/executive/tool.runtime.ts:286-289 | at the head of turn k of every run the transcript is the initial messages and, for each earlier turn, the text of its reply (the raw one when that is empty) and the rendering of its blocked, executed and result-blocked records |
| RunLaws.EveryExecutionIsSeen | src/executive/tool.runtime.ts:228-289 | every execution collected when the model is asked again is among the results rendered to it |
| RunLaws.EveryTurnWentOn | src/executive/tool.runtime.ts:165-290 | every turn but the last: its calls are those of the reply, the known tools those of the turn, the guard was told exactly these calls and their results and its answers decide what is let through and stopped, the adapter returned the recorded results, nothing was refused, stopped or asked, and executions, history and transcript grow by this turn |
| RunLaws.PickAt | src/executive/tool.runtime.ts:385-406 | what is let through and what is blocked keep the order of the calls, position by position |
| RunEnds.RunEndsSo | src/executive/tool.runtime.ts:165-310 | how every run ends, and with which text, executions and question: a reply without calls, a failed parse, a guard that blocked every call, the first execution that asks, refused calls with the last refusal's reason, stopped results with the last guard reason, a broken result contract, or no turn left |
| RunEnds.FirstAskIsFirst | src/executive/tool.runtime.ts:312-329 | the first execution that asks decides, and nobody asks exactly when none does |
| RunEnds.LastGuardReasonIsLast | src/executive/tool.runtime.ts:581-603 | the guard reason shown is that of the last record that carries one |
| WorkerPlan.DedupeWorkers | src/agent/blackboard/composition.ts:260-271 | the loop keeps the first worker of each role, in order |
| WorkerPlan.DedupeKeepsRoles | src/agent/blackboard/composition.ts:260-271 | no role is left twice, none is lost, and a plan without repetitions is unchanged |
| WorkerPlan.DedupeKeepsFirst | src/agent/blackboard/composition.ts:263-268 | a worker that is the first to ask for its role is kept |
| WorkerOrder.DedupeKeepsOrder | src/agent/blackboard/composition.ts:260-271 | it stands behind exactly those kept of the workers before it |
| WorkerPlan.SortWorkersByDependencies | src/agent/blackboard/composition.ts:273-292 | the loop over the pending map gives the emitted workers and then the rest of the sort on values, whose result `WorkerOrder` characterises uniquely |
| WorkerPlan.ByRoleDistinct | src/agent/blackboard/composition.ts:274-274 | the map of pending workers has each role once; without repetitions it is the list itself |
| WorkerPlan.SortIsPermutation | src/agent/blackboard/composition.ts:273-292 | the output is a permutation, every emitted worker follows its dependencies, and no worker left over could follow the emitted ones |
| WorkerPlan.LeftIsLargest | src/agent/blackboard/composition.ts:282-285 | the appended rest is exactly the largest set of workers each of which depends on one of the set (or on a role nobody has) |
| WorkerPlan.LeftIffCycle | src/agent/blackboard/composition.ts:282-285 | with known dependencies the rest is empty if and only if no workers depend on each other in a circle |
| WorkerPlan.SortIsStable | src/agent/blackboard/composition.ts:273-292 | a list in dependency order is unchanged, and sorting twice is sorting once, cyclic or not |
| WorkerOrder.EachIsFirstReady | src/agent/blackboard/composition.ts:273-292 | for each place in the order: the worker there is ready after those before it and every worker that stands before it in the plan has gone or is not ready; the rest keeps the order of the plan |
| WorkerOrder.OrderIsUnique | src/agent/blackboard/composition.ts:273-292 | the sort's result is the only order with these properties |
| WorkerOrder.ByRoleHoldsLast | src/agent/blackboard/composition.ts:274-274 | in the map of pending workers each role has the place of its first worker and holds its last one |
| WorkerPlan.KeptDeps | src/agent/blackboard/composition.ts:37-39 | exactly the dependencies on other roles of the plan are kept |
| WorkerPlan.WorkersFromPlan | src/agent/blackboard/composition.ts:29-51 | a missing or empty plan is an error; any other gives the deduplicated, normalised, sorted workers with their defaults |
| WorkerOrder.WorkersAreAsAsked | src/agent/blackboard/composition.ts:35-50 | each worker is the first of its role in the plan with its own fields, the documented default for each missing one, and the dependencies on other roles of the plan |
| WorkerOrder.KeptConcat | src/agent/blackboard/composition.ts:37-39 | dependencies are kept in the order in which they are asked for |
| Numerals.DecimalReads | src/agent/blackboard/composition.ts:47-47 | the number in a default stage is written in decimal: digits that stand for it, without a leading zero |
| WorkerPlan.PlanHasRoles | src/agent/blackboard/composition.ts:33-50 | the workers have exactly the requested roles, each once, and depend only on other workers of the plan |
| WorkerPlan.PlanInOrderIff | src/agent/blackboard/composition.ts:33-50 | the workers stand in dependency order if and only if the normalised plan has no cycle |
| Text.TrimTwice | src/agent/blackboard/composition.ts:356-358 | trimming twice is trimming once |
| Text.BlankTrims | src/agent/blackboard/composition.ts:346-358 | a text trims to nothing exactly when it holds only white space |
| Text.NormalizeBlank | src/agent/blackboard/composition.ts:346-349 | a text has an empty normal form exactly when it is blank, and trimming keeps the normal form |
| TextLaws.NormalizeIs | src/agent/blackboard/composition.ts:356-358 | the normal form is the words of the text in lower case with one blank between each two |
| TextLaws.TrimSplits | src/agent/blackboard/composition.ts:351-351 | a text is white space, its trimmed form and white space, and the trimmed form neither starts nor ends with any |
| TextLaws.SpacesAre | src/agent/blackboard/composition.ts:356-358 | the white-space characters, one by one |
| Convergence.NormalizedUnique | src/agent/blackboard/composition.ts:342-354 | the loop over a seen-set keeps, trimmed, the first text of each normal form |
| Convergence.UniqueRepresents | src/agent/blackboard/composition.ts:342-354 | every text that is not blank is represented exactly once |
| Convergence.UniqueEmptyIff | src/agent/blackboard/composition.ts:346-349 | nothing is left exactly when all texts are blank |
| ConvergenceLaws.UniqueAt | src/agent/blackboard/composition.ts:342-354 | the first text of each normal form is kept, trimmed, behind exactly those kept of the texts before it |
| Convergence.NextRoundIsAbove | src/agent/blackboard/composition.ts:130-133 | the next round is one above the highest recorded one, or 1 |
| Convergence.EvaluateConvergence | src/agent/blackboard/composition.ts:184-225 | the verdict of the round's steps; `ConvergenceLaws.VerdictIff` says which one that is |
| Convergence.VerdictIgnoresOrder | src/agent/blackboard/composition.ts:184-225 | the verdict on a round does not depend on the order of the steps |
| ConvergenceLaws.VerdictIff | src/agent/blackboard/composition.ts:184-225 | converged if and only if there is exactly one step per worker, all Final, none a rejection and nothing open that is not blank; needs-user if and only if as many are all Blocked and something is open; and each reason to go on exactly in its case |
| Convergence.LatestUnresolvedIssues | src/agent/blackboard/composition.ts:227-254 | the issues of the steps on values, from the whole turn when the rounds are used up and from its last round otherwise |
| Convergence.UnresolvedIsAskable | src/agent/blackboard/composition.ts:238-253 | one to eight issues, none blank, no two alike; a fixed question exactly when nothing was reported |
| ConvergenceLaws.AskedIsReported | src/agent/blackboard/composition.ts:227-241 | every text asked about is, trimmed, a blocker, open issue or question of a step that counts or a contradiction of the contract |
| ConvergenceLaws.ReportedIsAsked | src/agent/blackboard/composition.ts:231-240 | every such text that is not blank is asked about, unless eight others that rank as high are |
| ConvergenceLaws.AskedByRank | src/agent/blackboard/composition.ts:232-237 | blockers are asked about before open issues, these before questions, and contradictions last |
| ConvergenceLaws.FixedIff | src/agent/blackboard/composition.ts:238-253 | a fixed question, which one depends on the reason, is asked exactly when nothing that is not blank was reported |
| ConvergenceLaws.CollectedConcat | src/agent/blackboard/composition.ts:232-236 | texts are collected from step to step in order |
| BlackboardStore.BlackboardRepo.AcquireLease | src/entities/blackboard/repo.ts:35-65 | expired leases go; a live lease on the scope is a conflict, otherwise the scope is leased to the turn |
| BlackboardStore.BlackboardRepo.ReleaseLease | src/entities/blackboard/repo.ts:67-82 | only the lease of this turn on this scope is removed |
| BlackboardStore.BlackboardRepo.CreateTurn | src/entities/blackboard/repo.ts:84-97 | a new turn is stored, a known id refused |
| BlackboardStore.BlackboardRepo.AppendStep | src/entities/blackboard/repo.ts:99-126 | the step is added to its turn and nothing else changes |
| BlackboardStore.BlackboardRepo.AppendDecision | src/entities/blackboard/repo.ts:154-177 | the decision is added to its turn and nothing else changes |
| BlackboardStore.BlackboardRepo.UpdateTurnStatus | src/entities/blackboard/repo.ts:179-188 | only the status changes, and the updated turn is read back |
| BlackboardStore.HydratedShowsAll | src/entities/blackboard/repo.ts:237-251 | reading shows every step and decision exactly once, the steps by round and time, the decisions by time |
| BlackboardStore.OrderedStepsNext | src/entities/blackboard/repo.ts:238-241 | a step that comes in round and time behind the others, or with them, is read last |
| BlackboardStore.OrderedDecisionsNext | src/entities/blackboard/repo.ts:246-249 | so is a decision that no other is later than |
| BlackboardRun.MinRoundsIsIdle | src/agent/blackboard/module.ts:187-232 | two minimum numbers of rounds within the hard limit lead to the same move after any round |
| BlackboardModule.BlackboardModule.StartTurn | src/agent/blackboard/module.ts:65-136 | on success the scope is leased to a running turn without steps and with its planned workers, the given limits or 5 rounds at most and 1 at least, and a lease of 15 minutes unless another time is given; conflict, missing plan and known id leave the store as stated |
| BlackboardModule.BlackboardModule.RunWorker | src/agent/blackboard/module.ts:329-450 | a worker is given its prompt and the current and earlier steps of the turn in hand; its answer is recorded field by field (summary, blockers, open issues, questions, agreement, outcome) under its role, round and time; any failure records nothing |
| BlackboardModule.BlackboardModule.AppendStep | src/agent/blackboard/module.ts:247-281 | a step is recorded exactly for a known running turn |
| BlackboardModule.BlackboardModule.RequestDecision | src/agent/blackboard/module.ts:305-327 | exactly a known running turn gets the decision, becomes needs-user and loses its lease |
| BlackboardModule.BlackboardModule.FinishTurn | src/agent/blackboard/module.ts:452-490 | status and lease change, nothing else; an unknown turn changes nothing |
| BlackboardModule.BlackboardModule.ReturnDecisionToUser | src/agent/blackboard/module.ts:504-541 | the decision carries the reason, the round and the unresolved issues |
| BlackboardModule.BlackboardModule.RunRound | src/agent/blackboard/module.ts:156-184 | each worker in turn, on the turn in hand, which stays equal to the stored one |
| BlackboardModule.BlackboardModule.AfterRound | src/agent/blackboard/module.ts:186-232 | what follows a round is what the contract, the verdict and the limits say |
| BlackboardModule.BlackboardModule.RunUntilConverged | src/agent/blackboard/module.ts:138-245 | the nested loops against the store leave the turn as the run on values ends, release its lease on normal return, and touch no other turn or lease; a failing worker leaves its record and the lease |
| BlackboardModule.StoredRoundsAreComplete | src/agent/blackboard/module.ts:155-184 | no run goes beyond the hard limit, and every round it plays is stored with one step of each worker in plan order |
| BlackboardModule.StoredStepsAreAnswers | src/agent/blackboard/module.ts:343-450 | every stored step of a played round holds, field by field, the answer of the worker in its place to its task of that round |
| BlackboardModule.TaskSeesDependencies | src/agent/blackboard/module.ts:343-360 | in a plan in dependency order a worker is shown a step of its round from each worker it depends on |
| BlackboardModule.StartedTurnShowsDependencies | src/agent/blackboard/module.ts:65-184 | a turn started from a plan without cycles asks every worker once in every round it completes and shows it a step of that round from each worker it depends on |
| BlackboardModule.ConvergedTurn | src/agent/blackboard/module.ts:201-204 | a turn is stored as converged only with no new decision, on a contract that may converge, after a round with one Final step per worker, no rejection and nothing open |
| BlackboardModule.ConvergedAnswers | src/agent/blackboard/module.ts:201-204 | in terms of the answers: in the last round every worker was asked and answered Final, none disagreed, and every open issue and blocker they named is blank |
| BlackboardModule.AskedTurn | src/agent/blackboard/module.ts:504-541 | any other normal return stores needs-user with exactly one new decision, with the reason of the ending, its round and time and the unresolved issues, and a non-convergent contract has then used all rounds |
| BlackboardModule.ReleasedIsGone | src/agent/blackboard/module.ts:464-465 | after the release the turn holds no lease on its scope and every other lease is as it was |
| BlackboardLaws.EachWorkerOnce | src/agent/blackboard/module.ts:155-184 | for any judgement between rounds, every round has exactly one step of each worker in plan order, but for one broken off by a failure |
| BlackboardLaws.EachWorkerAskedOnce | src/agent/blackboard/module.ts:156-172 | for any judgement between rounds, every worker gets exactly one task per round |
| BlackboardLaws.TasksSeeRecord | src/agent/blackboard/module.ts:343-360 | every task is of its turn, tells its worker the phase that round, minimum, dependencies and earlier open issues demand, and shows, field by field, exactly the final record's steps of its round by the workers before it and all steps of lower rounds |
| BlackboardLaws.StepsAreAnswers | src/agent/blackboard/module.ts:155-184 | for any judgement between rounds, the steps of every round hold, field by field, the answers to its tasks, worker by worker; only a task that a failing worker got has no step |
| BlackboardLaws.DependenciesAreShown | src/agent/blackboard/module.ts:354-356 | with workers in dependency order those steps include one of each dependency |
| BlackboardLaws.PlayExtends | src/agent/blackboard/module.ts:155-184 | a run only adds steps, of rounds from its first to its last one, at most the hard limit |
| BlackboardLaws.EarlierRoundsWentOn | src/agent/blackboard/module.ts:187-218 | every round but the last was judged to go on |
| BlackboardLaws.RunEndsRight | src/agent/blackboard/module.ts:187-244 | a run ends after the first round whose verdict counts or at the limit, and its ending and reason are those of that round; only when the first round is beyond the limit does the code after the loop decide |
| BlackboardLaws.ConvergedIsSound | src/agent/blackboard/composition.ts:207-209 | a converged run ends with one Final step per worker, no rejection and nothing open |
| BlackboardLaws.NonConvergentIsCapped | src/agent/blackboard/module.ts:187-200 | a non-convergent contract runs to the hard limit and asks the user |
| BlackboardLaws.RunIgnoresMinimum | src/agent/blackboard/module.ts:150-232 | for workers that ignore the minimum and the phase in their prompts the whole run is the same for every minimum number of rounds |
| BlackboardLaws.MinimumCanMatter | src/agent/blackboard/composition.ts:142-161 | a worker that heeds the phase in its prompt ends after one round with one minimum and after two with another |
| BlackboardLeases.StepIsGoodIffTimely | src/agent/blackboard/module.ts:65-136 | a store operation keeps every running or starting turn alone on its scope under its own live lease if and only if nobody outlives a lease, none is granted for no time, and none in use is given back |
| BlackboardLeases.UntimelyAllowsTwo | src/entities/blackboard/repo.ts:35-65 | after any other step the next start gets a scope on which somebody is active |
| BlackboardLeases.TimelyRunsAreExclusive | src/agent/blackboard/module.ts:65-136 | in every timely interleaving of starts, runs and finishes at most one turn runs or starts on a scope |
| BlackboardLeases.EmptyIsGood | src/entities/blackboard/repo.ts:30-34 | the empty store is in such a state |
| BlackboardLeases.StartIsSteps | src/agent/blackboard/module.ts:65-136 | an uninterrupted start leaves turns and leases as its store operations do one by one |
| BlackboardLeases.FinishIsSteps | src/agent/blackboard/module.ts:305-327 | so do an uninterrupted finish and a decision handed to the user |
| OrderedMap.DeleteAt | src/socket/read.cache.ts:38-39 | deleting a key of an insertion-ordered map closes the gap it leaves |
| ReadCache.SocketReadCache.Get | src/socket/read.cache.ts:27-42 | the table and the answer are those of a read on values, which `ReadCache.GetFinds` spells out; hits and misses count it |
| ReadCache.SocketReadCache.Set | src/socket/read.cache.ts:44-53 | the table is that of a write on values, which `ReadCache.SetReplaces` and `ReadCache.SetAdds` spell out; no counter changes |
| ReadCache.GetFinds | src/socket/read.cache.ts:27-42 | a read of the key at place q: an expired entry is cut out and not returned, a live one is returned and moves to the end |
| ReadCache.SetReplaces | src/socket/read.cache.ts:44-53 | a write of the key at place q cuts the old entry out and appends the new one with its expiry |
| ReadCache.SetAdds | src/socket/read.cache.ts:44-53 | a write of another key appends it, after cutting out the oldest entry when the table is full |
| ReadCache.SocketReadCache.Clear | src/socket/read.cache.ts:55-60 | the cache is empty, counted as an invalidation exactly when it was not |
| ReadCache.RunFits | src/socket/read.cache.ts:44-53 | after any operations no key is there twice and there are at most maxEntries entries |
| ReadCache.EntriesAreLatest | src/socket/read.cache.ts:27-60 | every entry is that of the latest set of its key since the last clear |
| ReadCache.HitIsLatestAndFresh | src/socket/read.cache.ts:27-42 | a hit returns the value of the latest set since the last clear, strictly younger than the time to live |
| ReadCache.RecentEntryHits | src/socket/read.cache.ts:38-52 | an unexpired key still hits while fewer than maxEntries distinct other keys were set or hit since |
| ReadCacheInclusion.LargerCacheIncludes | src/socket/read.cache.ts:27-53 | after the same operations a cache of capacity n+1 holds the entries of one of capacity n in the same order plus at most one |
| ReadCacheInclusion.EnlargingKeepsHits | src/socket/read.cache.ts:27-53 | a larger capacity never turns a hit into a miss nor changes what it returns |
| DedupStore.DedupKeyInjective | src/socket/dedup.store.ts:14-16 | for the channels there are (src/protocol/contracts/enums.ts, lines 9-44) two messages share a key if and only if channel name and message id are the same |
| DedupStore.DedupKeyInjectiveIff | src/socket/dedup.store.ts:14-16 | for two arbitrary channel names the key tells all their messages apart if and only if the names are equal or neither with its separator starts the other |
| DedupStore.ChannelsCollideIff | src/socket/dedup.store.ts:14-16 | messages of two arbitrary channel names can share a key if and only if one name with its separator starts the other |
| DedupStore.ShadowedChannelsCollide | src/socket/dedup.store.ts:14-16 | two messages of different channel names with one key |
| DedupStore.InMemoryDedupStore.TryClaim | src/socket/dedup.store.ts:23-35 | the answer and the new table, and at most maxEntries entries after a granted claim |
| DedupStore.ClaimRefused | src/socket/dedup.store.ts:23-31 | a key with an unexpired claim gets its recorded reply or is told in-flight, and only expired entries go |
| DedupStore.ClaimGranted | src/socket/dedup.store.ts:32-35 | any other key is granted for the time to live behind the unexpired entries, of which the newest that fit stay |
| DedupStore.EvictConcat | src/socket/dedup.store.ts:47-54 | eviction keeps the order of the entries and treats each alone |
| DedupStore.InMemoryDedupStore.RecordReply | src/socket/dedup.store.ts:37-41 | the reply is stored with the expiry of its claim |
| DedupStore.ReplyStored | src/socket/dedup.store.ts:37-41 | the reply of a claimed key replaces its entry in place, with the expiry of the claim |
| DedupStore.InMemoryDedupStore.Release | src/socket/dedup.store.ts:43-45 | exactly that key is removed |
| DedupStore.InMemoryDedupStore.Evict | src/socket/dedup.store.ts:47-54 | deleting while walking the map removes exactly the expired entries |
| DedupStore.InMemoryDedupStore.Trim | src/socket/dedup.store.ts:56-64 | exactly the newest entries that fit are kept |
| DedupProtocol.SocketModule.Dispatch | src/socket/module.ts:207-249 | one dispatch alone: duplicate and in-flight answers, or the handler and then its reply recorded or its claim released |
| DedupProtocol.StepIsGoodIffTimely | src/socket/dedup.store.ts:23-64 | a step keeps one handler per key, each with its live claim, if and only if no handler outlives its claim and no granted claim pushes out an active one |
| DedupProtocol.UntimelyAllowsTwo | src/socket/dedup.store.ts:23-64 | after any other step some key with an active handler can be granted again |
| DedupProtocol.StartIsGood | src/socket/dedup.store.ts:18-21 | a new store without dispatches is in such a state |
| DedupProtocol.TimelyRunsAreGood | src/socket/module.ts:207-249 | in every timely interleaving of dispatches at most one handler is active per key |
| DedupProtocol.RepeatWhileActive | src/socket/dedup.store.ts:26-31 | a repeat is told in-flight while the handler runs |
| DedupProtocol.FailureReopens | src/socket/module.ts:239-247 | a failed handler makes its key claimable again |
| DedupProtocol.RepeatAfterFinish | src/socket/dedup.store.ts:26-29 | a repeat inside the window gets exactly the recorded reply |
| Jsonc.TokensAreText | src/config/jsonc.ts:19-61 | the token grammar cuts every input up without loss |
| JsoncGrammar.FirstTokenIs | src/config/jsonc.ts:19-61 | what a token is: a literal ends at the first quote of its kind behind an even number of backslashes, a line comment with the next newline, a block comment with the first closer, each otherwise with the text; anything else is one character that starts none of these |
| JsoncGrammar.ScanTakesFirst | src/config/jsonc.ts:19-61 | a literal and any other character are copied, a line comment leaves one newline, a block comment nothing, and the scan goes on behind the token |
| Jsonc.StripComments | src/config/jsonc.ts:13-61 | the index-jumping loop equals the scan by characters and modes |
| JsoncLaws.ScanStripsTokens | src/config/jsonc.ts:19-61 | literals and other characters stay verbatim, a line comment becomes one newline, a block comment nothing |
| JsoncLaws.UnchangedIffClean | src/config/jsonc.ts:19-61 | exactly the texts without a comment opener outside strings are left unchanged |
| JsoncLaws.ScanIsClean | src/config/jsonc.ts:19-61 | the output has no comment opener outside a string |
| JsoncLaws.ScanIsIdempotent | src/config/jsonc.ts:19-61 | stripping comments twice is stripping them once |
| JsoncLaws.DropLeavesDoubles | src/config/jsonc.ts:63-63 | a trailing comma is left after the replacement exactly when a comma came before one |
| JsoncGrammar.DropIsFilter | src/config/jsonc.ts:63-63 | the replacement leaves exactly the characters that are neither a comma before white space and a closing bracket nor that white space, in order |
| JsoncLaws.StripIsScanIff | src/config/jsonc.ts:63-63 | strip equals the comment scan if and only if the scanned text has no trailing comma, in a string or not |
| JsoncLaws.StripKeepsLiteralsIff | src/config/jsonc.ts:13-64 | strip keeps the string literals of a text if and only if no literal of the scanned text holds a comma that only white space separates from a closing bracket |
| JsoncLaws.ScanKeepsLiterals | src/config/jsonc.ts:19-61 | the comment scan keeps every string literal as it is |
| JsoncLaws.LiteralTextIsTokens | src/config/jsonc.ts:22-34 | what is read inside strings is exactly the literals of the token grammar |
| JsoncLaws.StripIsIdempotentIff | src/config/jsonc.ts:13-64 | strip is idempotent on a text if and only if no comma comes before a trailing comma in the scanned text |
| JsoncLaws.StripCounterexamples | src/config/jsonc.ts:63-63 | a string literal that strip changes, and a text it must strip twice |
| StructuredBlock.IndexOfIsFirst | src/protocol/structured.block.ts:90-97 | the search finds the first occurrence, or there is none |
| StructuredBlock.ExtractStructuredBlocks | src/protocol/structured.block.ts:79-113 | the cursor loop returns the trimmed contents of all blocks in order and the trimmed rest of the text |
| StructuredBlock.PiecesRebuild | src/protocol/structured.block.ts:89-107 | for every input the visible pieces and the blocks with their tags, in order, are the input |
| StructuredBlock.RoundTrip | src/protocol/structured.block.ts:73-113 | payloads rendered between texts come back trimmed and in order with the texts joined, unless a text holds the opening or a payload the closing tag |
| StructuredBlock.TagsStartOnce | src/protocol/structured.block.ts:34-60 | in the tags of every protocol the angle bracket is only at the start and there is no newline |
| Text.TrimIgnoresMargin | src/protocol/structured.block.ts:73-77 | trimming does not see white space put around a text |
| SchemaValidate.DeepEqualIsMeaning | src/agent/mcp/schema.validate.ts:117-131 | deepEqual decides equality of JSON values up to key order, an equivalence |
| SchemaValidate.Walk | src/agent/mcp/schema.validate.ts:28-86 | the walk only extends the error list, by exactly the issues of this value |
| SchemaValidate.ValidateAgainstInputSchema | src/agent/mcp/schema.validate.ts:19-26 | accepted if and only if the schema is no object or the value satisfies it, where each type name stands for its JSON kind |
| SchemaValidate.NoIssuesIffConforms | src/agent/mcp/schema.validate.ts:28-86 | at every depth nothing is reported if and only if the declarative predicate holds, which names the seven types itself |
| SchemaTypes.NamesStandFor | src/agent/mcp/schema.validate.ts:94-101 | a schema that declares one type name and nothing else accepts exactly the values of that JSON kind, for each of the seven names, and nothing for any other |
| SchemaTypes.IntegerTextIff | src/agent/mcp/schema.validate.ts:97-97 | the text of a number, as JavaScript writes it, is taken for an integer if and only if its value is whole |
| SchemaTypes.PrintedIsWellFormed | src/agent/mcp/schema.validate.ts:19-26 | every number as JavaScript writes it, null, truth value and text is a value that the theorems about well-formed JSON cover |
| SchemaIssues.IssuesAre | src/agent/mcp/schema.validate.ts:28-86 | the messages are exactly the faults there are, each with the way into the value that leads to it; inside a value that is wrong itself there are none |
| SchemaValidate.VerdictIgnoresKeyOrder | src/agent/mcp/schema.validate.ts:28-86 | key order in schema or value never changes the verdict |

## Left out

- The rendered text of prompts, and the goal, request and discussion plan in it, which do not change during a run: a prompt is its participant, phase and minimum number of rounds, beside the steps the task shows.
- Decision options and events, the decisions shown to a worker, which a run adds to only as it ends, and the blackboard's messages, step ids, summaries of the input, answers to questions (`qaAnswers`), facts and risk.
- BlackboardStore.BlackboardRepo.AppendStep: does not model the worker's state (status, last step) and the timestamps that are updated with it, which nothing else in the model reads.
- BlackboardModule.BlackboardModule.RunWorker: does not model the messages stored beside a step.
- BlackboardModule.BlackboardModule.RunUntilConverged: runs a turn alone, as its lease intends; other writers of its rows during the run are not modelled, only who may run on a scope (`BlackboardLeases`).
- `buildBlackboardPlan` and `userFacingDiscussionContent`: text for people and models.
- Workers that are not registered are the same as workers that fail.
- ToolBudget.ApplyBudget: custom `onBudgetBlocked` executions are not modelled; a refused call gets the default record, since a custom one may be about any other call.
- ToolRuntime.ApplyLoopGuard: custom `onLoopGuardBlocked` executions are not modelled; a blocked call gets the default record.
- ToolRuntime.ApplyResultGuard: custom `onLoopGuardBlocked` executions are not modelled here either.
- ToolRuntime.FirstExecutionAskRequired: the callback must answer equal executions in equal circumstances equally.
- ToolRuntime.ExecutiveToolRuntime.Run: does not model asynchronous interleaving inside a batch, which is the adapter's affair, nor the `onExecution` event stream and errors thrown by other callbacks than `parse` and `execute`.
- SchemaValidate.Walk: does not model the wording of errors; an issue has a kind and a path of keys and indices.
- SchemaValidate.ValidateAgainstInputSchema: objects have own keys only, so inherited names seen by `in` are not modelled.
- Text.NormalizeBlank: does not model lower case outside ASCII.
- TextLaws.NormalizeIs: does not model lower case outside ASCII either.
- Convergence.NormalizedUnique: does not model lower case outside ASCII, so texts that differ only in the case of other letters count as different.
- Convergence.UniqueRepresents: does not model lower case outside ASCII either.
- DedupStore.InMemoryDedupStore.TryClaim: reads the clock once, where the program may read it up to three times.
- DedupProtocol.SocketModule.Dispatch: a dedup store that throws is not modelled; the in-memory store does not.
- JSON parsing after the comments are stripped, number formatting, and strings with lone surrogates.
- `src/socket/control.ts`, the blackboard's listing queries, registry, planner, trust policy and installers: plumbing and branch tables.
