# Verified model of the adaptive resource optimizer

The repository watches a Windows machine, learns which reversible process actions (lower priority, EcoQoS, lower
memory priority) help, and carries them out under a write-ahead journal so that every one of them can be undone.
This project models the parts of it whose correctness spans many steps, and proves what they promise.

| modules | what they model |
|---|---|
| `RealArithmetic`, `IntegerArithmetic`, `LinearAlgebra`, `Sequences`, `Wrappers` | arithmetic, vectors and matrices, sorting and order-independent sums, and optional values and results that the others build on |
| `MatrixInversion`, `RidgeRegression`, `ContextualImpactModels`, `OfflineEvaluation` | the per-action reward learner (Gauss-Jordan elimination in place, ridge covariance, confidence bounds) and the off-policy evaluator |
| `ProcessWorld`, `ActionJournals`, `ActionProtocol`, `PristineSettings`, `ExclusiveActions`, `ExactSettings`, `ExclusiveRuns`, `ActionRecovery`, `ActionCoordinators`, `OnlinePolicies`, `OnlinePolicyRuns` | processes, the journal, the crash-safe action protocol as a state machine, startup recovery, the coordinator class, the budgeted policy controller, and the clocks on which it keeps its promises |
| `EvaluationMetrics`, `PrecisionAndCalibration`, `ConformalPrediction` | AUROC, average precision, calibration error, split-conformal sets |
| `MetricsPipelines` | the batch writer: producer, worker and stopper interleaved |
| `CriticalityGraphs` | the foreground process family and the protection of its members |
| `EpisodeBuilder`, `AdaptiveSampling`, `AdaptiveBaseline` | stream segmentation, pacing of captures, self-learning baselines |
| `BrowserCommand`, `RuntimeLifecycle` | escaping and extraction of command identifiers, component start and stop |

Code that updates objects or arrays step by step is a class or an array method proved against a specification
function; the promises are lemmas about those functions and about whole runs. In the coordinator a ghost field
records every intermediate state and is kept to be a run of `ActionProtocol`, where a crash, a process exit, a reused
process identifier or a failed journal write may fall between any two steps.

What the proofs say about the code beyond "it works":

- The offline evaluator's reason `insufficient_matched_observed_samples` can never be given: the effective sample size
  never exceeds the number of matched samples (`OfflineEvaluation.Evaluate`).
- Asking the learner for a prediction about the empty action creates a model for it, and from then on the export can no
  longer be imported; that is the only obstacle (`ContextualImpactModels.ExportImports`).
- The lower confidence bound of a prediction has an exact meaning: of all weights whose penalised squared error is within
  the squared exploration scale of the least one, it is the smallest reward that any predict
  (`ContextualImpactModels.LowerBoundIsWorstCase`).
- Two live transactions on one process and action are not prevented. What a capture then records is known exactly. As
  long as every earlier capture found no open transaction on its target and action, where open means in flight, active,
  being rolled back or on record as PLANNED, EXECUTED or ROLLBACK_FAILED, the next capture, whether it keeps to this or
  not, records the process's own setting if and only if the action is not in effect there or would not change it
  (`ExclusiveRuns.NextCaptureRecordsOwn`). Over an active transaction that no rollback has taken up it is right only
  where lowering changes nothing (`CaptureOverActive`). Undoing two overlapping actions in the order in which they began
  leaves the target lowered, in the opposite order restores it (`ActionCoordinators.OverlapInTheCoordinator`).
- Recovery restores every recorded original if and only if the unfinished rows for the same target agree on it
  (`ActionRecovery.RecoveryRestoresAll`), and gives the targets of these rows their own settings if and only if the last
  row about each of them recorded that (`RecoveryRestoresOwn`). A row that a failed rollback has closed as
  ROLLBACK_FAILED is never loaded again. So after a favourable recovery of a run that kept to the check above, every
  setting of every live process is its own, lowered once exactly where the action of a transaction with a
  ROLLBACK_FAILED row is still in effect (`RecoveryAfterExclusiveRun`); where the load stopped early, also where the
  action of a row that it missed is (`ActionCoordinators.ActionCoordinator.RecoverUnfinished`).
- Rolling EcoQoS back leaves the control mask set: the process gets all its settings back if and only if they had been
  in that form before (`ProcessWorld.ApplyThenRollback`).
- The docstring of `build_episodes` says that short episodes stay visible as invalid ones. A run of a single frame
  does not: it raises (`EpisodeBuilder.WellFormedAcceptance`).
- By default the conformal predictor turns an empty set into the full one, which covers more than it promises: exactly the
  points whose strict set is empty are covered in addition (`ConformalPrediction.DefaultCoverage`).
- A tie between the classes lowers AUROC but not average precision (`PrecisionAndCalibration.PerfectAuroc`, `Auprc`).
- Extracting an identifier from the printed command returns it unchanged if and only if it has no carriage return and
  no newline. The scanner reads an escaped newline as the letter n, which is weaker than section 7 of RFC 8259.
- A component whose start throws (instead of returning a failure) leaves the earlier components started although the
  runtime is not running, until the next stop (`RuntimeLifecycle.RuntimeOrchestrator.Start`).
- The policy controller reads the wall clock, and what it promises depends on how that moves. No hour holds more
  executions than the budget, in every run that reads a given sequence of times, if and only if no reading an hour or
  more past an earlier one that an execution can carry is followed by one within an hour of it
  (`OnlinePolicyRuns.ClockCondition`). Otherwise two executions on different targets can share an hour under a budget of
  one: `OnlinePolicyRuns.SetBackAnHour` lets the controller do it (on the same target the cooldown refuses the second).
  The cooldown asks less: every two executions of an action on a target are a cooldown apart as long as a charge reads no
  earlier than its own check, and for given readings if and only if no reading that finds a cooldown over is directly
  followed by one that does not (`OnlinePolicyRuns.CooldownCondition`). A clock that never goes back meets both.

## Model

| member | source | states |
|---|---|---|
| MatrixInversion.Invert | ImpactLearning.cpp:131-162 | success means a square matrix and a left inverse of it; failure means an empty or ragged matrix, or one that sends some vector with a unit component to a vector below the 1e-12 pivot threshold |
| MatrixInversion.FindPivot | ImpactLearning.cpp:141-144 | the chosen row has the largest entry of the pivot column at or below the pivot |
| MatrixInversion.Swap | ImpactLearning.cpp:146 | exactly two rows change places |
| MatrixInversion.Normalize | ImpactLearning.cpp:147-148 | the pivot row, and only it, is divided by the old pivot |
| MatrixInversion.Eliminate | ImpactLearning.cpp:149-155 | every other row loses its multiple of the pivot row, the pivot row stays |
| MatrixInversion.ReduceLeftHalf | ImpactLearning.cpp:140-156 | from the augmented matrix to the identity on the left while "right half times input equals left half" holds throughout, or a nearly singular input |
| MatrixInversion.AugmentedIsEliminated | ImpactLearning.cpp:134-139 | the augmented matrix starts the elimination invariant |
| MatrixInversion.SwapKeeps | ImpactLearning.cpp:146 | swapping rows not yet reduced keeps the elimination invariant |
| MatrixInversion.PassKeeps | ImpactLearning.cpp:147-155 | normalising and eliminating with a non-zero pivot reduces one more column and keeps the invariant |
| MatrixInversion.NoPivot | ImpactLearning.cpp:145 | a column without a usable pivot exhibits a vector that the input nearly annihilates |
| MatrixInversion.ReducedIsInverse | ImpactLearning.cpp:157-160 | the right half of a fully reduced matrix is a left inverse of the input |
| LinearAlgebra.InverseOfSymmetric | ImpactLearning.cpp:131-162 | a left inverse of a symmetric matrix is symmetric and a right inverse too |
| RidgeRegression.CovarianceSymmetric | ImpactLearning.cpp:108-117 | the covariance of every evidence history is symmetric |
| RidgeRegression.FormBound | ImpactLearning.cpp:183-194 | v'Av is at least ridge times the squared length of v, for every history |
| RidgeRegression.CovarianceRegular | ImpactLearning.cpp:131-162 | no reachable covariance is nearly singular at the real threshold, so inversion never fails on it |
| RidgeRegression.UncertaintyNonNegative | ImpactLearning.cpp:176 | the quantity under the square root is a value of the covariance form, hence never negative |
| RidgeRegression.UncertaintyFalls | ImpactLearning.cpp:175-176 | z'(A+more)^-1 z never exceeds z'A^-1 z, whatever evidence is added |
| RidgeRegression.WeightsMinimiseLoss | ImpactLearning.cpp:173-175 | the weights used for prediction beat every other weight vector on ridge-penalised squared error, strictly |
| RidgeRegression.BoundIsWorstCase | ImpactLearning.cpp:173-177 | no weights whose loss is within the squared scale of the least one predict less than the lower confidence bound (Cauchy-Schwarz in the covariance) |
| RidgeRegression.BoundIsAttained | ImpactLearning.cpp:173-177 | and some such weights predict exactly that |
| ContextualImpactModels.ContextualImpactModel.constructor | ImpactLearning.cpp:105-106 | ridge at least 0.001, non-negative exploration, no evidence |
| ContextualImpactModels.ContextualImpactModel.EnsureModel | ImpactLearning.cpp:108-117 | a fresh model stands for the empty history and no existing one changes |
| ContextualImpactModels.ContextualImpactModel.DotProduct | ImpactLearning.cpp:119-123 | the accumulating loop computes the inner product over the common length |
| ContextualImpactModels.ContextualImpactModel.Multiply | ImpactLearning.cpp:125-129 | the row loop computes the matrix-vector product |
| ContextualImpactModels.ContextualImpactModel.Predict | ImpactLearning.cpp:164-181 | for a well-sized context always a real prediction through a true inverse of the covariance of exactly the recorded evidence; the lower bound is the expected reward less the scaled uncertainty, and the action is known from twenty observations on if the uncertainty is at most 0.75; for any other context the fixed answer that knows nothing |
| ContextualImpactModels.ContextualImpactModel.Update | ImpactLearning.cpp:183-196 | accepted exactly for an action other than none with a context of the right size; then that action's history, and no other, grows by the clamped reward |
| ContextualImpactModels.LearnsOne | ImpactLearning.cpp:188-194 | the in-place additions are one more term of the covariance sum and of the reward sum |
| ContextualImpactModels.PredictionUnique | ImpactLearning.cpp:164-181 | the evidence determines the prediction |
| ContextualImpactModels.UncertaintyNeverRises | ImpactLearning.cpp:175-176 | over any further evidence the predicted uncertainty of that action never rises |
| ContextualImpactModels.ConfidenceMargin | ImpactLearning.cpp:176-179 | the bound never exceeds the expected reward, from which it differs by the scaled uncertainty; what makes an action sufficiently known |
| ContextualImpactModels.MarginNeverWidens | ImpactLearning.cpp:175-177 | further evidence never widens that margin |
| ContextualImpactModels.LowerBoundIsWorstCase | ImpactLearning.cpp:173-177 | the lower confidence bound is the least reward that any weights predict which fit the evidence within the squared scale of the best fit |
| ContextualImpactModels.ExpectedRewardIsBestFit | ImpactLearning.cpp:173-175 | the predicted reward is that of the unique ridge-regression fit |
| ContextualImpactModels.ContextualImpactModel.ExportState | ImpactLearning.cpp:198-207 | ridge, scale and one entry for each model |
| ContextualImpactModels.ContextualImpactModel.ImportState | ImpactLearning.cpp:209-228 | accepts exactly well-shaped, nearly symmetric states without an entry for the empty action; rejection changes nothing, acceptance restores the first entry of each action |
| ContextualImpactModels.ImportableMeans | ImpactLearning.cpp:209-218 | which states are accepted, entry by entry |
| ContextualImpactModels.RestoredAt | ImpactLearning.cpp:219 | of several entries for one action the first is restored, with its covariance, rewards and count |
| ContextualImpactModels.ExportImports | ImpactLearning.cpp:198-228 | the export of a reachable model can be imported if and only if it holds no model of the empty action, and then every model is restored |
| OfflineEvaluation.EffectiveSampleSizeBounds | ImpactLearning.cpp:304 | (sum w)^2 / sum w^2 lies between 1 and the number of samples |
| OfflineEvaluation.MatchedFacts | ImpactLearning.cpp:282-294 | weights are at least one, and full causal support is a count equal to the number matched |
| OfflineEvaluation.UsedOutcomes | ImpactLearning.cpp:282-294 | the estimate uses exactly the outcomes with a usable propensity, the candidate's action and an observation, each with its own reward and weight, in order |
| OfflineEvaluation.BaselineOutcomes | ImpactLearning.cpp:287 | the baseline averages every outcome with a usable propensity |
| OfflineEvaluation.WeightingMeans | ImpactLearning.cpp:289-290 | the weight undoes the propensity, and the weighted reward is cut off at ten exactly where it would exceed that |
| OfflineEvaluation.VarianceMeans | ImpactLearning.cpp:299-302 | the loop's variance of the mean is the sum of squares less the squared sum's share, over n times n - 1 |
| OfflineEvaluation.Collect | ImpactLearning.cpp:282-294 | the filtering loop gathers exactly the baselines, weighted rewards, weight sums and causal count of the valid and matched outcomes |
| OfflineEvaluation.Evaluate | ImpactLearning.cpp:269-316 | promotion exactly when all propensities are valid, all matched outcomes have causal support, the effective sample is large enough and the lower-confidence benefit is positive; adequate overlap already implies enough matched samples, so that rejection reason is unreachable |
| ProcessWorld.Capture | ResourceOrchestrator.cpp:184-228 | a successful capture is of the live process with that identifier and holds the true value of the aspect that the action will change |
| ProcessWorld.CaptureRecords | ResourceOrchestrator.cpp:184-228 | exactly when a capture succeeds, and every value and flag that it records |
| ProcessWorld.Apply | ResourceOrchestrator.cpp:230-276 | succeeds exactly when the process is still the captured one and the calls succeed, and otherwise leaves the world unchanged; what it leaves on the target is in the next row |
| ProcessWorld.ApplyTakesEffect | ResourceOrchestrator.cpp:230-276 | exactly when an apply succeeds, and then: a priority is below normal or stays idle, EcoQoS is controlled and on, a memory priority is low; no other setting and no other process changes |
| ProcessWorld.Rollback | ResourceOrchestrator.cpp:278-326 | changes the world only for the same identity; "exited" exactly when the process identifier is gone |
| ProcessWorld.RollbackTakesBack | ResourceOrchestrator.cpp:278-326 | exactly when a rollback succeeds, and then: the captured setting is back, of EcoQoS its execution-speed bit; no other setting and no other process changes |
| ProcessWorld.IdentityMeans | ResourceOrchestrator.cpp:84-88 | two identities are one if and only if pid and creation time agree and the paths agree up to case and direction of slashes |
| ProcessWorld.ExecutorIsSelective | ResourceOrchestrator.cpp:84-88 | apply and rollback touch no process with another identity and no aspect but the action's own |
| ProcessWorld.ApplyThenRollback | ResourceOrchestrator.cpp:184-326 | capture, apply and rollback always bring the action's own setting back, and the whole world if and only if the power masks are ones that a rollback can set |
| ActionProtocol.StepKeepsInv | ResourceOrchestrator.cpp:548-709 | every step (exit, spawn, crash, boot, each write and each call of begin, rollback and recovery) keeps the protocol invariant |
| ActionProtocol.RunKeepsInv | ResourceOrchestrator.cpp:548-709 | the invariant holds in every state of every run |
| ActionProtocol.EffectsAreJournaled | ResourceOrchestrator.cpp:596-628 | in every state of every run, an action in effect on a live target has a row with its first-captured original, in status PLANNED, EXECUTED or ROLLBACK_FAILED |
| ActionProtocol.CapturedForever | ResourceOrchestrator.cpp:447-456 | the first captured original of a transaction is never replaced, in memory or in its row |
| ActionJournals.UnfinishedMeans | ResourceOrchestrator.cpp:499 | recovery looks at every status but BLOCKED, FAILED, ROLLED_BACK, ROLLBACK_FAILED and TARGET_EXITED |
| ActionProtocol.OnlyTheCapturedProcess | ResourceOrchestrator.cpp:230-326 | no step of the program changes a process other than the captured identity of the transaction it works on, or another aspect of it |
| PristineSettings.UncontendedRunIsPristine | ResourceOrchestrator.cpp:184-228 | if no capture overlaps an effect on the same target and action, every recorded original is the setting the process started with, and every deviation from that is an action in effect |
| PristineSettings.ContendedCapture | ResourceOrchestrator.cpp:548-629 | with overlapping transactions some run records a setting that is not the original |
| PristineSettings.OverlappingRollbacks | ResourceOrchestrator.cpp:184-326 | two actions on one target: undoing the second last leaves the target lowered, undoing the first last restores it |
| ExclusiveActions.LiveEffectIsOpen | ResourceOrchestrator.cpp:596-628 | an action in effect on a live process belongs to a transaction that is in flight, active, in a rollback, in recovery, or on record in PLANNED, EXECUTED or ROLLBACK_FAILED |
| ExclusiveActions.OpenShrinks | ResourceOrchestrator.cpp:548-709 | no step but a capture opens a transaction |
| ExclusiveActions.StepKeepsAtMostOne | ResourceOrchestrator.cpp:548-709 | if captures find no open transaction on their target and action, there is never more than one |
| ExclusiveRuns.ExclusiveRunIsExact | ResourceOrchestrator.cpp:548-709 | then, at every point of the run, each setting is the process's own, lowered once exactly where the action is in effect |
| ExclusiveRuns.NextCaptureRecordsOwn | ResourceOrchestrator.cpp:581-587 | after any such run the next capture, exclusive or not, records the process's own setting if and only if the action is not in effect on it or would not change it |
| ExclusiveRuns.RunIsSettled | ResourceOrchestrator.cpp:605-628 | in every run an active transaction is in effect or being rolled back, if recovery only ran with nothing active |
| ExclusiveRuns.CaptureOverActive | ResourceOrchestrator.cpp:548-629 | on a target that already carries the action for an active transaction, a capture is right exactly where lowering changes nothing |
| ActionRecovery.RecoveryResult | ResourceOrchestrator.cpp:684-709 | after a favourable recovery each aspect of each process is the original of the last row for it, or unchanged if there is none |
| ActionRecovery.RecoveryRestoresAll | ResourceOrchestrator.cpp:684-709 | recovery leaves every surviving target at its recorded original if and only if rows for the same target and action agree |
| ActionRecovery.RecoveryRestoresOwn | ResourceOrchestrator.cpp:684-709 | on any run at all, crashed anywhere, recovery gives the surviving targets of the loaded rows the settings they started with if and only if the last rows about them recorded those |
| ActionRecovery.RecoveryRestoresPristine | ResourceOrchestrator.cpp:684-709 | the rows do so on every run in which no capture overlaps an effect on the same target and action, and then any other setting of any process is its own too unless an action is left in effect on it |
| ActionRecovery.RecoveryAfterExclusiveRun | ResourceOrchestrator.cpp:684-709 | on every run in which no capture finds an open transaction on its target and action, every setting of every process ends as its own, lowered once exactly where an action that recovery did not load is in effect; with all unfinished rows loaded, exactly where one with a ROLLBACK_FAILED row is |
| ActionRecovery.RecoveryFinishesRows | ResourceOrchestrator.cpp:684-709 | recovery closes every row that it loaded and reopens none |
| ActionRecovery.SecondRecoveryFindsNothing | ResourceOrchestrator.cpp:488-534 | after a favourable recovery a second load returns no row |
| ActionCoordinators.BeginIsWriteAhead | ResourceOrchestrator.cpp:548-629 | a begin changes the world only under an unfinished row with the original of the aspect changed; it is active exactly when every step succeeded, leaves other rows alone, and restores the aspect it changed when the second write fails and the undo succeeds; and everything in the next row |
| ActionCoordinators.BeginIsTold | ResourceOrchestrator.cpp:548-629 | the first answer that is not favourable decides the status; the target carries the effect of the action exactly after EXECUTED and ROLLBACK_FAILED, and nothing else changes; which row is left, with what status; it runs out after the requested duration, cut to a millisecond at least and the limit at most |
| ActionCoordinators.OverlapInTheCoordinator | ResourceOrchestrator.cpp:548-709 | two successful begins on one target: rolled back in the order in which they began, both rows are closed and the target stays lowered; in the opposite order it is restored |
| ActionCoordinators.ClearIsExclusive | ResourceOrchestrator.cpp:548-629 | what the active set and the journal show is enough to keep the discipline |
| ActionCoordinators.FavourableRecoveryIsWell | ResourceOrchestrator.cpp:684-709 | with favourable answers recovery of any part of the unfinished rows restores recorded originals exactly when the rows agree, own settings of their targets exactly when the last rows recorded them and always after an exclusive run, when the rest of the world is known too; a full load leaves nothing to load |
| ActionCoordinators.FavourableRecovery | ResourceOrchestrator.cpp:684-709 | with favourable answers the recovery loop is the one whose result is characterised |
| ActionCoordinators.ActionCoordinator.constructor | ResourceOrchestrator.cpp:536 | a process start continues the run that produced the journal, with nothing active |
| ActionCoordinators.ActionCoordinator.Configure | ResourceOrchestrator.cpp:538-542 | the action limit ends up between 1 and 300 seconds |
| ActionCoordinators.ActionCoordinator.Begin | ResourceOrchestrator.cpp:548-629 | status, world, journal and active set are those of the specified begin, through states that form a protocol run; the run stays exclusive if neither active set nor journal shows an open transaction on the target and action |
| ActionCoordinators.ActionCoordinator.Rollback | ResourceOrchestrator.cpp:631-667 | one executor rollback, one status write, removal from the active set; success exactly when restored or exited and persisted |
| ActionCoordinators.ActionCoordinator.Tick | ResourceOrchestrator.cpp:669-682 | afterwards exactly the unexpired transactions are active, and world and journal are those of rolling back the expired ones |
| ActionCoordinators.ActionCoordinator.LoadUnfinished | ResourceOrchestrator.cpp:488-534 | unfinished rows only, each once, as many as the load delivers before it stops; all of them if it delivers enough |
| ActionCoordinators.ActionCoordinator.RecoverRows | ResourceOrchestrator.cpp:689-708 | the loop undoes and closes the rows in turn |
| ActionCoordinators.ActionCoordinator.RecoverUnfinished | ResourceOrchestrator.cpp:684-709 | world, journal and the recovered count are those of undoing the loaded rows in turn, for all answers of executor and journal and wherever the load stops; if every write succeeds the count is that of the loaded rows which the journal has as rolled back or exited; with favourable answers the world is known under the exact conditions above, and after a full load a second one finds nothing |
| ActionCoordinators.UndoneCount | ResourceOrchestrator.cpp:689-708 | undoing rows in turn counts those that end as rolled back or exited |
| OnlinePolicies.PruningComposes | SafeOnlinePolicy.cpp:54-56 | pruning at one time and then at another is pruning at the second alone, for every history, if and only if the second is not earlier |
| OnlinePolicies.RecentIsSuffix | SafeOnlinePolicy.cpp:54-56 | a tail of the log that holds what is less than an hour old, and no more, counts the executions of the last hour |
| OnlinePolicies.HistoryIsRecent | SafeOnlinePolicy.cpp:54-56 | on a steady clock the pruned history is that tail |
| OnlinePolicies.ChargeKeepsLedger | SafeOnlinePolicy.cpp:147-151 | on any clock the history stays the tail of the log, and what was dropped from it was an hour old at a later reading |
| OnlinePolicies.WindowIsInHistory | SafeOnlinePolicy.cpp:107-111 | as long as nothing that counts was forgotten, no hour around a new execution holds more than the history shows |
| OnlinePolicies.ChargeKeepsBudget | SafeOnlinePolicy.cpp:107-150 | then an execution that found room in the history keeps every half-open hour of the whole log within the budget |
| OnlinePolicies.ChargeKeepsSpacing | SafeOnlinePolicy.cpp:112-151 | an execution whose target had cooled down at its check, and that is charged no earlier than the check, keeps all distances of the whole log, whatever the clock did before |
| OnlinePolicies.SafeOnlinePolicyController.constructor | SafeOnlinePolicy.cpp:8-36 | no history, no cooldowns, no execution yet, and clamped limits |
| OnlinePolicies.SafeOnlinePolicyController.Configure | SafeOnlinePolicy.cpp:22-36 | each limit ends up in its range and a configuration within the ranges is taken as it is; the promise holds on at the loosest limits used so far |
| OnlinePolicies.SafeOnlinePolicyController.PruneBudget | SafeOnlinePolicy.cpp:54-56 | drops leading entries only, each an hour old or older, up to the first that is not |
| OnlinePolicies.SafeOnlinePolicyController.CheckGates | SafeOnlinePolicy.cpp:69-104 | the gates before budget and cooldown, in their order |
| OnlinePolicies.SafeOnlinePolicyController.LookAndPrune | SafeOnlinePolicy.cpp:60-66 | the first locked section: one reading of the clock, and the pruning at it |
| OnlinePolicies.SafeOnlinePolicyController.CheckRoom | SafeOnlinePolicy.cpp:105-117 | the second one: exhausted exactly when the history is full, cooling down exactly when the target's time is not over |
| OnlinePolicies.SafeOnlinePolicyController.Evaluate | SafeOnlinePolicy.cpp:58-136 | each refusal names its own cause with all earlier ones absent, field by field, and eligible means that there is none: no kill switch, no protected or foreground target, no missing promotion or approval, room in the pruned history, and an expired cooldown; on a steady clock the room is that of the last hour |
| OnlinePolicies.SafeOnlinePolicyController.Execute | SafeOnlinePolicy.cpp:138-161 | nothing is executed or charged unless every gate is passed, field by field; else the exact new history, cooldowns and log on any clock, as one step of a run; the log stays within the budget unless the clock forgets, and spaced out as long as no charge reads earlier than its check, although check and charge read the clock at different moments |
| OnlinePolicies.SafeOnlinePolicyController.Charge | SafeOnlinePolicy.cpp:147-151 | a charge extends history, cooldowns and log by the execution and keeps the promise |
| OnlinePolicyRuns.ExecutionsArePermitted | SafeOnlinePolicy.cpp:58-161 | in every run each execution in the log is that of a call of its own which no gate stood against, in the order of the calls |
| OnlinePolicyRuns.RunKeepsBudget | SafeOnlinePolicy.cpp:58-161 | in every run whose clock forgets nothing, every hour of the log is within the budget |
| OnlinePolicyRuns.ForgettingBreaksBudget | SafeOnlinePolicy.cpp:58-161 | for every clock that forgets there is a run with exactly its readings that breaks a budget of one |
| OnlinePolicyRuns.ClockCondition | SafeOnlinePolicy.cpp:58-161 | all runs with given readings keep the budget if and only if the readings forget nothing, as those of a steady clock do |
| OnlinePolicyRuns.RunKeepsSpacing | SafeOnlinePolicy.cpp:112-151 | every run whose clock does not hurry keeps the executions on a target a cooldown apart |
| OnlinePolicyRuns.CooldownCondition | SafeOnlinePolicy.cpp:112-151 | all runs with given readings do so, for a given cooldown, if and only if the readings do not hurry, as those of a steady clock never do |
| OnlinePolicyRuns.SetBackAnHour | SafeOnlinePolicy.cpp:54-161 | execute, evaluate an hour later, set the clock back and execute again: on the same target the cooldown refuses, on another one the log has two executions in an hour with a budget of one |
| EvaluationMetrics.Auroc | python/evaluation_metrics.py:42-57 | the tie-grouped rank sum equals the share of positive-negative pairs in the right order plus half the ties, and 0 without both classes |
| EvaluationMetrics.RankSumMeaning | python/evaluation_metrics.py:48-57 | the rank sum of the positives is their wins over negatives plus P(P+1)/2 |
| EvaluationMetrics.GroupRank | python/evaluation_metrics.py:51-54 | the average rank of a maximal tie group is the same for each member and equals the entries below plus half the ties |
| EvaluationMetrics.PairWinsPermutes | python/evaluation_metrics.py:47 | the pair count does not depend on the order of the data |
| PrecisionAndCalibration.PerfectAuroc | python/evaluation_metrics.py:42-57 | AUROC is within 0 and 1, and 1 exactly when every positive strictly outscores every negative |
| PrecisionAndCalibration.Auprc | python/evaluation_metrics.py:60-74 | the precision-recall sum is the mean precision at the positives, within 0 and 1, and 1 exactly when no negative outscores a positive |
| PrecisionAndCalibration.PrecisionSumBound | python/evaluation_metrics.py:68-73 | positives contribute at most one each, and all of them do exactly when no negative precedes one |
| PrecisionAndCalibration.Calibration | python/evaluation_metrics.py:77-93 | overall bias <= expected error <= maximum error <= 1; what the buckets and the maximum are is in the next rows |
| PrecisionAndCalibration.BucketMeans | python/evaluation_metrics.py:82 | a prediction is in the bucket whose equal share of the unit interval holds it, one at the top in the last |
| PrecisionAndCalibration.LargestGapMeans | python/evaluation_metrics.py:87-92 | the maximum error is the gap of some bucket that holds predictions, and none has a larger one |
| PrecisionAndCalibration.BucketsPartition | python/evaluation_metrics.py:81-85 | the buckets together hold every prediction exactly once |
| PrecisionAndCalibration.FillBuckets | python/evaluation_metrics.py:78-85 | the three bucket arrays are filled in place with the tally of each bucket |
| ConformalPrediction.ThresholdMeaning | python/conformal_runtime.py:23-28 | a score is within the fitted threshold exactly when at most index calibration scores lie below it |
| ConformalPrediction.CoversIffLowRank | python/conformal_runtime.py:30-36 | leaving a point out covers its label exactly when its score has low rank among all scores |
| ConformalPrediction.FitMeans | python/conformal_runtime.py:22-28 | exactly which calibration data are accepted; the threshold is the score of one of the points |
| ConformalPrediction.PredictMeans | python/conformal_runtime.py:30-36 | in both modes: a label is offered exactly when its score is within the threshold or, by default, when neither score is; abstention means that not exactly one label passes |
| ConformalPrediction.ModesAgree | python/conformal_runtime.py:34-36 | the default answer is the strict one unless that is empty |
| ConformalPrediction.DefaultCovers | python/conformal_runtime.py:23-36 | by default a point is missed if and only if its own label is out and the other one is in, both as rank conditions |
| ConformalPrediction.CoveredByRank | python/conformal_runtime.py:23-36 | the number of covered leave-one-out choices is the number of low-ranked scores |
| ConformalPrediction.Coverage | python/conformal_runtime.py:23-36 | at least min(k, n) of the n+1 leave-one-out choices are covered, exactly that many when scores are distinct |
| ConformalPrediction.DefaultCoverage | python/conformal_runtime.py:23-36 | exact coverage in the default mode: what the strict mode covers plus every point that it leaves without a label |
| ConformalPrediction.CoverageRate | python/conformal_runtime.py:23-36 | hence at least the share 1 - alpha whenever (n+1) alpha >= 1, with or without empty sets, and with distinct scores and empty sets allowed only then |
| MetricsPipelines.StepKeepsInv | MetricsPipeline.cpp:12-86 | every locked section keeps "delivered + in hand + queue = accepted" and the batch bounds |
| MetricsPipelines.RunKeepsInv | MetricsPipeline.cpp:12-86 | so does every interleaving |
| MetricsPipelines.StoppedMeansDelivered | MetricsPipeline.cpp:29-43 | when the worker has finished, the batches are exactly the accepted snapshots in order, each batch non-empty and within the batch size |
| MetricsPipelines.RunAccepts | MetricsPipeline.cpp:45-52 | accepted are exactly the snapshots enqueued before the stop signal, in order |
| MetricsPipelines.WorkerProgress | MetricsPipeline.cpp:64-85 | after the stop signal each worker step shrinks the remaining work and no other step adds to it |
| MetricsPipelines.WorkerNeverStuck | MetricsPipeline.cpp:64-85 | until it has finished, the worker always has a step to take |
| MetricsPipelines.StopTerminates | MetricsPipeline.cpp:29-43 | hence a bounded number of worker steps after any stop, in every interleaving |
| MetricsPipelines.MetricsPipeline.EnqueueSnapshot | MetricsPipeline.cpp:45-52 | the producer's locked section is its protocol step, possible at any time: while running the snapshot is queued and accepted, afterwards it is turned away |
| MetricsPipelines.MetricsPipeline.Drain | MetricsPipeline.cpp:73-76 | the drain loop takes the longest prefix that fits a batch |
| MetricsPipelines.MetricsPipeline.WorkerWake | MetricsPipeline.cpp:64-79 | waking either goes round again or moves the longest prefix of the queue that fits a batch out of it, as the protocol step says |
| MetricsPipelines.MetricsPipeline.WorkerWrite | MetricsPipeline.cpp:80-83 | the batch in hand always reaches storage |
| MetricsPipelines.MetricsPipeline.WorkerRelock | MetricsPipeline.cpp:83-85 | the batch is emptied and the loop goes round exactly while running or something is queued |
| MetricsPipelines.MetricsPipeline.SignalStopped | MetricsPipeline.cpp:29-34 | the stop signal ends acceptance and touches neither queue nor batches |
| MetricsPipelines.MetricsPipeline.JoinWorker | MetricsPipeline.cpp:36-42 | clearing the queue after the join discards nothing |
| CriticalityGraphs.ForegroundClosure | PerformanceIntelligence.cpp:256-264 | the fixpoint loop terminates with exactly the processes reachable over parent links from a non-zero foreground, cycles included, which is the least set that holds the foreground and every child of a member |
| CriticalityGraphs.ClosedHoldsPath | PerformanceIntelligence.cpp:259-264 | a closed family contains every process on a path from one of its members |
| CriticalityGraphs.CriticalMeansDependent | PerformanceIntelligence.cpp:266-292 | a criticality of at least 70 means exactly that some dependency applies |
| CriticalityGraphs.BuildNode | PerformanceIntelligence.cpp:266-294 | a node lists exactly the dependencies that apply, scores the largest of them, and is protected exactly when there is one |
| CriticalityGraphs.CriticalityMeans | PerformanceIntelligence.cpp:266-294 | the criticality is that of the first reason in descending order that applies to the fields of the process, and it is protected exactly when one does |
| CriticalityGraphs.BuildGraph | PerformanceIntelligence.cpp:248-296 | every process gets its node, every family member is protected, and edges are the known parent links, weighted by family membership |
| EpisodeBuilder.BuildEpisodes | python/episode_builder.py:133-182 | success exactly on acceptable sorted streams; then the episodes together are the input in increasing time, each with one session, phase, behaviour and application and no gap over the limit, and each as long as possible: between neighbours one of these differs or the gap is larger, and the reasons name the first difference |
| EpisodeBuilder.BuildRecord | python/episode_builder.py:91-130 | a record is built exactly when time passes within the run and its first frame and every other baseline frame have usable resources; valid exactly when long enough with all collectors available |
| EpisodeBuilder.RunsPartition | python/episode_builder.py:159-181 | runs concatenate to the stream, have no boundary inside and one between neighbours |
| EpisodeBuilder.EpisodesPartitionTheStream | python/episode_builder.py:144-182 | so do the episodes, and each end reason is the next start reason and names the boundary between them |
| EpisodeBuilder.EpisodesAreSegmented | python/episode_builder.py:161-182 | the same in the fields of the frames: homogeneous episodes, a difference or a gap between neighbours, each reason exactly for its own difference with the earlier ones absent |
| EpisodeBuilder.WellFormedAcceptance | python/episode_builder.py:99-103 | for well-formed frames success means strictly increasing timestamps and at least two frames in every run |
| EpisodeBuilder.Flush | python/episode_builder.py:153-157 | a boundary turns the frames collected so far into the next episode, or shows the stream to be unacceptable |
| EpisodeBuilder.RuledOut | python/episode_builder.py:161-176 | an error raised on a prefix is justified by the whole stream |
| AdaptiveSampling.AdaptiveSamplingController.constructor | AdaptiveSampling.cpp:7-14 | each setting is raised to its least value, and a sane configuration is taken as it is |
| AdaptiveSampling.AdaptiveSamplingController.Next | AdaptiveSampling.cpp:16-62 | for every input the reason, the tier, the interval and whether to capture, by the first condition that applies, and the burst start it leaves behind |
| AdaptiveSampling.AdaptiveSamplingController.EffectiveIntervalMs | AdaptiveSampling.cpp:78-86 | the stable interval for quiet inputs, the elevated one otherwise; its overload multiplier, which urgent inputs suspend |
| AdaptiveSampling.AdaptiveSamplingController.RecordCollectorFailure | AdaptiveSampling.cpp:70-72 | starts a backoff of a stable interval times the multiplier |
| AdaptiveSampling.AdaptiveSamplingController.ClearFailureBackoff | AdaptiveSampling.cpp:74-76 | ends the backoff and nothing else |
| AdaptiveSampling.AdaptiveSamplingController.SampleOnce | main.cpp:935-974 | asking and recording at one clock reading is one step of the run |
| AdaptiveSampling.CaptureRate | AdaptiveSampling.cpp:35-68 | in every run two captures are at least (j - i) shortest gaps apart, bounding the count in any time span, on any clock |
| AdaptiveSampling.RemembersCaptures | AdaptiveSampling.cpp:64-68 | the state holds the last capture time and the number of captures of the run |
| AdaptiveSampling.BurstPersists | AdaptiveSampling.cpp:43-58 | while risk stays merely elevated a burst keeps its start |
| AdaptiveSampling.BurstStarts | AdaptiveSampling.cpp:43-45 | the first merely elevated sample past the initial one and any backoff fixes the start of the burst |
| AdaptiveSampling.BurstIsCapped | AdaptiveSampling.cpp:45-52 | once the burst limit is over, a capture is asked for exactly when the stable interval (with multiplier) has passed and no backoff is on |
| AdaptiveSampling.OverdueSampleCaptures | AdaptiveSampling.cpp:24-62 | past the longest interval only a failed collector can hold a capture back |
| AdaptiveBaseline.EvaluateMetric | AdaptiveBaseline.cpp:38-71 | updates one metric in place to the learned mean, variance and count, and returns its deviation and pressure |
| AdaptiveBaseline.LearnMeans | AdaptiveBaseline.cpp:45-68 | mean and variance close the same share of their gaps to the reading and its squared distance: 0.6%, 1.2%, 8% or 2.5%, and when which; the first reading is taken over |
| AdaptiveBaseline.DeviationLevel | AdaptiveBaseline.cpp:52-55 | a deviation reaches t percent if and only if the reading lies t/35 sensitivity-scaled spreads beyond the mean on the risky side |
| AdaptiveBaseline.LearnedIsPlausible | AdaptiveBaseline.cpp:45-68 | over any stream the mean stays within the smallest and largest reading, and the variance between the minimum and the squared range |
| AdaptiveBaseline.BlendedMean | AdaptiveBaseline.cpp:64-65 | each reading closes its gap to the mean by exactly the learning rate, without overshooting |
| AdaptiveBaseline.OutliersBarelyMove | AdaptiveBaseline.cpp:57-65 | a reading moves the mean by at most 8% of its gap, an anomalous one by exactly 0.6% |
| AdaptiveBaseline.MeanFollows | AdaptiveBaseline.cpp:57-65 | every reading closes at least 0.6% of its gap |
| AdaptiveBaseline.DeviationMeansRisk | AdaptiveBaseline.cpp:52-55 | a deviation is a percentage, positive exactly for a move to the risky side |
| AdaptiveBaseline.ScoreIsWeightedAverage | AdaptiveBaseline.cpp:150-160 | the anomaly score never leaves an interval that holds all deviations |
| AdaptiveBaseline.ScoreMoves | AdaptiveBaseline.cpp:150-160 | changing one deviation moves the score by that metric's weight |
| AdaptiveBaseline.Dominant | AdaptiveBaseline.cpp:145-149 | the first of the largest deviations |
| AdaptiveBaseline.AdaptiveBaselineEngine.EvaluateAndUpdate | AdaptiveBaseline.cpp:73-172 | all seven metrics learn their reading, the first one as it is with each metric's least spread; a metric deviates exactly when it is on its risky side (free disk space below its mean, all others above); the score never exceeds the dominant deviation, and 35% of it while warming up; ready exactly after enough snapshots; the confidence |
| AdaptiveBaseline.ConfidenceLevel | AdaptiveBaseline.cpp:104-114 | while warming up the confidence is the share of 45 percent that has been sampled, afterwards the share of three times the samples asked for, from 45 to 100 percent |
| AdaptiveBaseline.DeviationsShowRisks | AdaptiveBaseline.cpp:86-92 | which side of its mean is risky for each of the seven metrics |
| BrowserCommand.EscapeJson | BrowserIntegrationBridge.cpp:50-59 | the character loop produces the escaped text |
| BrowserCommand.ExtractJsonString | BrowserIntegrationBridge.cpp:61-79 | the value after the first occurrence of the key, read up to the first unescaped quote; empty without one |
| BrowserCommand.ValueAfterSpace | BrowserIntegrationBridge.cpp:66-67 | a quoted value is read through any white space before it, and anything else in its place gives an empty one |
| BrowserCommand.ExtractsWhatWasPrinted | BrowserIntegrationBridge.cpp:122-124 | extraction from the printed command gives the identifier without carriage returns and with n for newlines, and the identifier itself exactly when it has neither |
| BrowserCommand.FaithfulExactlyOnSingleLines | BrowserIntegrationBridge.cpp:50-79 | the round trip is the identity exactly on single lines |
| BrowserCommand.EscapeLosesOnlyReturns | BrowserIntegrationBridge.cpp:50-59 | two texts escape alike exactly when they differ in carriage returns only |
| RuntimeLifecycle.RuntimeStateStore.Snapshot | RuntimeStateStore.cpp:5-8 | the snapshot lists each component of the health table exactly once, with its entry, and nothing else |
| RuntimeLifecycle.TableEntries | RuntimeStateStore.cpp:22-33 | a list with one entry per component holds exactly the entries of its table |
| RuntimeLifecycle.RuntimeStateStore.SetComponentHealth | RuntimeStateStore.cpp:22-33 | one entry per component, that component's replaced or added, the others kept, and the revision up by one |
| RuntimeLifecycle.RuntimeStateStore.SetRuntimeStarted | RuntimeStateStore.cpp:16-20 | sets the flag and raises the revision |
| RuntimeLifecycle.RuntimeStateStore.SetMode | RuntimeStateStore.cpp:10-14 | sets the mode and raises the revision |
| RuntimeLifecycle.RuntimeOrchestrator.Start | RuntimeOrchestrator.cpp:24-44 | all components started, healthy and flagged running; or, at the first refusal, everything stopped again in reverse; or, at a throw, the earlier ones left started; with the exact log, health table and revision in each case; from a fresh store on, the store's flag equals the running flag |
| RuntimeLifecycle.RuntimeOrchestrator.Stop | RuntimeOrchestrator.cpp:46-58 | every started component stopped exactly once, the latest first, reported as stopped, flags cleared |
| RuntimeLifecycle.StartsBalanceStops | RuntimeOrchestrator.cpp:20-58 | in a well-nested log each component has been started as often as stopped, plus once for each time it is still open |
| RuntimeLifecycle.NothingLeftStarted | RuntimeOrchestrator.cpp:20-22 | once nothing is open, starts and stops balance for every component |
| RuntimeLifecycle.ReplaceUpdates | RuntimeStateStore.cpp:24-31 | overwriting an entry in place updates the table of components at that component only |
| RuntimeLifecycle.RefusalIsPublished | RuntimeOrchestrator.cpp:32-36 | after a refused start the refusing component shows its status and the others show as stopped |

## Left out

- Floating point: rounding, NaN, infinities and integer overflow; numbers are reals and unbounded integers, and `isfinite` checks therefore pass.
- Square roots are a parameter `root` that is required to be the non-negative square root.
- Win32, PDH, COM and SQLite calls: their answers are parameters, so every combination of success and failure is covered; a call that fails leaves the world unchanged.
- ContextualImpactModels.ContextualImpactModel.ImportState: a covariance with rows of unequal length is rejected; the code compares an element with its transpose before it has looked at the length of later rows, so for such input its behaviour is undefined. Nothing is claimed about predictions from states that no sequence of updates produces.
- `ShadowContextualPolicy`, feature encoding, hashing and differential privacy in `ImpactLearning.cpp`.
- ProcessWorld.Rollback: reports "exited" exactly when the process identifier is free; other failures to open the process are the flag `openOk`.
- ProcessWorld.Rollback: restores only the execution-speed bit of the power state, as the code does, and sets the control mask to it; `ProcessWorld.ApplyThenRollback` says when that is the original.
- ProcessWorld.NormalizePath: lower-cases ASCII letters only, as `tolower` does in the C locale.
- The safety shield (`ActionSafetyShield::Evaluate`) and `IsSupported` are one answer, `shieldPassed`, with the identity that the shield saw.
- ActionCoordinators.ActionCoordinator.Begin: the class runs one call at a time; concurrent calls and crashes between statements are covered by `ActionProtocol`, whose runs allow any interleaving of begins, rollbacks and ticks.
- ActionCoordinators.ActionCoordinator.RecoverUnfinished: is not called while a begin is in flight (the program calls it at startup only); it could then close the row of an action that is about to be applied.
- PristineSettings.UncontendedRunIsPristine: like every statement about a process's own settings, it assumes that nothing but the executor changes the settings of a live process; users, other programs and the process itself do not.
- Journal statuses VERIFIED_HELPFUL, VERIFIED_NEUTRAL and VERIFIED_HARMFUL are loaded by recovery but written by code that is not modelled.
- OnlinePolicies.SafeOnlinePolicyController.Execute: calls are sequential; two concurrent calls could both pass the check before either is charged. The measured session, its journal, `Tick` and `EmergencyStop` are not modelled; whether the action began is a parameter.
- OnlinePolicyRuns.ClockCondition: a run has one configuration; a reconfigured controller keeps the promise at the loosest limits used so far (`OnlinePolicies.SafeOnlinePolicyController.Configure`).
- MetricsPipelines.MetricsPipeline.WorkerWake: the wait may end at any time, so timing and the flush interval do not matter; the result of `LogBatch` is ignored, as in the code, so "handed over" is not "stored".
- Several starts of one pipeline: a run covers one start and one stop.
- CriticalityGraphs.BuildNode: whether a name is that of a media player or a compiler is a flag of the process.
- Missing keys and wrongly typed fields of telemetry frames other than the foreground object and the resources; the baseline statistics and the text fields of an episode record.
- EpisodeBuilder.BuildEpisodes: equal sort keys keep their order in the original; the model's order among them is irrelevant because such a stream is rejected.
- AdaptiveSampling.AdaptiveSamplingController.Next: reasons are an enumeration; the cost registry and its percentiles are left out.
- AdaptiveBaseline.AdaptiveBaselineEngine.EvaluateAndUpdate: status text, summary and risk adjustment are left out; they are read off the score by branches.
- BrowserCommand.ExtractJsonString: the tab number is given as text; queues, pipes and journal rows around the command are left out.
- RuntimeLifecycle.RuntimeOrchestrator.Stop: a component's stop cannot throw, because its interface declares it so; the branch that records a degraded component could only be reached by a failed allocation and is left out, as are detail texts and timestamps.
- RuntimeLifecycle.RuntimeStateStore.SetComponentHealth: the lock, the error costs in the snapshot and their setter are left out; the store belongs to one orchestrator.
- PrecisionAndCalibration.Calibration: needs at least one bucket; the Brier score, log loss, confusion counts, Wilson bound and risk-coverage curve are left out as plain formulas.
