# AgentPipeline operator: a verified model

The AgentPipeline operator runs a list of AI agents one after another. A custom resource
names the stages; the controller reconciles it one pass at a time, invokes the agent of the
current stage, keeps each stage's full output in a ConfigMap and its progress in the status
of the resource. Storing an output and writing the status are two separate writes, and either
may be lost. The design claims that the ConfigMap makes the pair recoverable without running
an agent twice. This project states that claim, and what else the operator promises, over
all runs, and proves it.

## How the model is built

| part | modules |
|---|---|
| values and stage handler | `Wrappers`, `PipelineTypes`, `StageHandler`, `Naming` |
| one reconcile pass: as a function of snapshot, store and environment, and as the methods that update the resource in place | `Reconcile`, `Controller` |
| the guarantees on those objects | `Operation` |
| runs under faults and stale reads, and the invariant they keep | `Protocol`, `Legality`, `Attempts`, `Invariants`, `Runs` |
| what all runs guarantee | `Safety`, `Termination`, `Deadlock`, `Deletion`, `Replies`, `Records` |
| what runs with fresh reads guarantee as well | `FreshReads`, `Refinement` |
| why the hypotheses are there | `Duplicates`, `Witnesses` |
| the agent's event stream | `SseStream`, `SseTexts`, `SseLaws`, `SseConformance` |

`Controller` holds the reconciler as it is: classes whose methods change fields of an
in-memory copy and then submit it. Each handler is proved to realise the pass that `Reconcile`
specifies, `Controller.Reconciler.Reconcile` to be one `Protocol.Step`, and
`Controller.Reconciler.Drive` to be `Protocol.Exec`. The whole-run theorems are about
`Protocol.Exec`; `Operation` builds the objects, drives them and states such theorems of the
API server and the runner.

A `World` holds every persisted version of the resource, the stored outputs, the agent calls
made, and per stage the number of attempts begun past the duplicate-execution guard and of
attempts whose result was lost. A run is any sequence of choices: a reconcile pass that reads a
version of any age, a deletion request, a foreign write. Within a pass the environment decides
whether reads fail, how the agent ends, and for each of the two writes whether it lands, lands
but reports an error, or is lost; a crash is a pass whose remaining writes are lost. A status
write lands only on the version it was read from.

Hypotheses, because the code does not enforce them, each asked for only where it is needed:

- The spec is frozen, which is why a `Resource` does not contain it. Nothing else is assumed for
  the legality of every persisted version, coherence of the status, range of the retry count,
  absorbing terminal phases, termination and wake-ups.
- Benign choices (`Protocol.Benign`): the guard's read fails only when the ConfigMap is absent,
  and nobody else writes this pipeline's outputs. This is what no re-execution, agreement of
  references with stored texts and the fixed point of a blocked pipeline need.
  `Safety.ReexecutionIff` shows that the first half is exact;
  `Safety.OtherPipelinesBenign` derives the second from stage names that are safe in the sense
  of `Naming.SafeStageName`.
- A `Safety.Run`: in addition, stage names are distinct (the API comment says "unique") and no
  outputs exist at the start. Conservation, data flow and refinement need this.
  `Duplicates.CompletedAreCalledIff` shows what exactly depends on distinct names.
- Where a lemma asks for fresh reads, every pass reads the latest version.
  `Safety.FailedStepTriesIff` says exactly when a stale read runs an agent after failure, and
  `Witnesses.StaleReadAfterFailure` is a run in which it does. Reads of outputs are fresh
  throughout, and passes on one pipeline do not overlap.

A negative `maxRetries` is allowed and behaves like zero, as the comparison in the code does.

In the controller part a `char` is one byte, in the event stream part one code point.
On output priority the operator's README (lines 16-19) prefers artifacts, while the code prefers
the message of the completed event and falls back to artifacts; the model follows the code.

## Model

| member | source | states |
|---|---|---|
| `Refinement.FaultTolerantRefinement` | agentpipeline-operator/internal/controller/agentpipeline_controller.go:171-408 | with fresh reads, whatever writes are lost or misreported, a run is after every step where a sequential interpreter (stages in list order, retries up to the limit, stop on exhaustion) is after a trace of events, at most one per step; a `Succeed` comes from an attempt and a completed call, in that very pass, of the stage the interpreter is at, and carries that call's output; a `Fail` comes from an attempt of that stage in that pass whose preparation or agent failed |
| `Refinement.StepRefines` | agentpipeline-operator/internal/controller/agentpipeline_controller.go:171-408 | every single step is one interpreter event, justified by an attempt of the interpreter's own stage where it succeeds or fails, or a stutter; a stage counts as done once its output is stored |
| `Refinement.DoneCountUnique` | agentpipeline-operator/internal/controller/agentpipeline_controller.go:219-228 | which stages are done is determined by the stored outputs alone, whatever sound status goes with them |
| `Safety.NoReexecution` | agentpipeline-operator/README.md:21-26 | of any pipeline: once an output is stored, no benign continuation of the run invokes that stage's agent, counts an attempt of it or changes the stored text, even with stale reads |
| `Safety.StoredStageUntouched` | agentpipeline-operator/internal/controller/agentpipeline_controller.go:219-228 | the one-step form of it, from every state with a legal history |
| `Safety.ReexecutionIff` | agentpipeline-operator/internal/controller/agentpipeline_controller.go:222-228 | a pass on a startable stage whose output is stored runs it again if and only if the guard's read fails |
| `Witnesses.GuardErrorOverwrites` | agentpipeline-operator/internal/controller/agentpipeline_controller.go:222-228 | a complete run: an output is stored and its status write lost, then a failing guard read invokes the agent again and replaces the text |
| `FreshReads.LostWriteRecovered` | agentpipeline-operator/internal/controller/agentpipeline_controller.go:287-348 | an attempt stores its output and loses its status write; after any number of passes that cannot write, the first that can persists the same phases, output, reference, error and retry count and the same store as the undisturbed attempt, with no further call |
| `FreshReads.NextPassRecovers` | agentpipeline-operator/internal/controller/agentpipeline_controller.go:219-228 | in every reachable state with fresh reads, a stored output's stage is completed with it after the next pass that can write, without another attempt |
| `FreshReads.StoredAwaitsRecovery` | agentpipeline-operator/internal/controller/agentpipeline_controller.go:219-228 | a stored output belongs to a completed stage or to the current one, which is then pending, has its dependencies met and awaits recovery |
| `FreshReads.NothingMovesMeanwhile` | agentpipeline-operator/internal/controller/agentpipeline_controller.go:327-348 | while status writes keep failing, a stage that awaits recovery leaves the whole world unchanged |
| `FreshReads.Recovery` | agentpipeline-operator/internal/controller/agentpipeline_controller.go:327-348 | the recovering pass persists the stage completed from the stored text and touches nothing else |
| `Safety.AttemptsConserved` | agentpipeline-operator/internal/controller/agentpipeline_controller.go:211-408 | in every reachable state attempts = retryCount + [Failed] + [output stored] + lost results, hence at most limit + 2 + lost even with stale reads |
| `FreshReads.AttemptBudget` | agentpipeline-operator/internal/controller/agentpipeline_controller.go:188-199 | with fresh reads attempts are at most limit + 1 + lost |
| `Safety.RetryCountInRange` | agentpipeline-operator/internal/controller/agentpipeline_controller.go:194-195 | in every version ever persisted, stale reads included, 0 <= retryCount <= effective limit, and below the limit the int32 increment does not wrap |
| `Runs.ConservedStep` | agentpipeline-operator/internal/controller/agentpipeline_controller.go:211-408 | every pass keeps the balance of attempts, stage by stage |
| `Runs.StepInv` | agentpipeline-operator/internal/controller/agentpipeline_controller.go:64-463 | every step, reconcile or not, keeps the whole invariant: legal history, agreement of status and store, conservation, faithful calls |
| `Runs.ExecInv` | agentpipeline-operator/internal/controller/agentpipeline_controller.go:64-463 | so does every run |
| `Runs.ExecLawful` | agentpipeline-operator/internal/controller/agentpipeline_controller.go:64-463 | every run of every pipeline, with no hypothesis on the environment, keeps a legal history and only moves it forward |
| `Runs.ExecStored` | agentpipeline-operator/internal/controller/agentpipeline_controller.go:287-348 | every benign run of every pipeline keeps the completed stages in agreement with the store |
| `Safety.PersistedHistoryLegal` | agentpipeline-operator/internal/controller/agentpipeline_controller.go:188-206 | of any pipeline and in any run: every version ever persisted is Completed*, then at most one Pending or Failed stage within its limit, then untouched Pending stages; Running and Skipped are never persisted |
| `Legality.PassMoves` | agentpipeline-operator/internal/controller/agentpipeline_controller.go:64-463 | from any legal status, a pass submits only legal statuses that keep completed stages frozen and the cursor moving forward, and indexes nothing out of range |
| `Safety.NoUnexpectedState` | agentpipeline-operator/internal/controller/agentpipeline_controller.go:200-206 | a pass on any persisted version never reaches the unexpected-state branch and never indexes out of range |
| `Termination.Terminates` | agentpipeline-operator/internal/controller/agentpipeline_controller.go:88-100 | with dependencies in list order, a run of any pipeline of 3 + sum of (2 * limit + 1) passes plus the number of faulty steps has reached Completed or Failed |
| `Termination.WritesBounded` | agentpipeline-operator/internal/controller/agentpipeline_controller.go:122-207 | however long a run without deletion, it persists at most 4 + sum of (2 * limit + 1) versions |
| `Termination.RankFalls` | agentpipeline-operator/internal/controller/agentpipeline_controller.go:376-408 | every version a pass submits ranks strictly lower, and with dependencies in order every pass that can store its output submits one |
| `Deadlock.MetIffEarlierInRuns` | agentpipeline-operator/internal/controller/stage_handler.go:179-207 | in every running version ever persisted the current stage's dependencies are met iff each names a stage earlier in the list |
| `Deadlock.CompletionIff` | agentpipeline-operator/internal/controller/stage_handler.go:188-207 | some run completes iff there are stages, every dependency names an earlier stage, and there are answers on which every template can be executed |
| `Deadlock.BlockedForever` | agentpipeline-operator/internal/controller/agentpipeline_controller.go:180-186 | a stage waiting for one that is not earlier waits for ever: no run changes status, calls or attempts |
| `Deadlock.BlockedStep` | agentpipeline-operator/internal/controller/agentpipeline_controller.go:180-186 | such waiting is a fixed point: a pass, stale or fresh, leaves the world as it is |
| `Deadlock.NeverInvoked` | agentpipeline-operator/internal/controller/agentpipeline_controller.go:180-186 | the agent of a stage with a dependency out of order is never invoked and its output never stored |
| `Safety.DataFlow` | agentpipeline-operator/internal/controller/stage_handler.go:101-131 | every agent call ever made is for a stage whose predecessors are all Completed; its context maps exactly their names to their full stored outputs, the previous output is that of the stage just before, agent, namespace and timeout are those of the stage, and the prompt is its template executed on that context, or without a template what `DefaultPrompt` says |
| `Safety.TemplatedPrompt` | agentpipeline-operator/internal/controller/stage_handler.go:86-96 | every call for a stage with a template is sent that template executed on the context of the full outputs of exactly the stages before it |
| `Safety.DefaultPrompt` | agentpipeline-operator/internal/controller/stage_handler.go:76-85 | without a template the agent is sent the full output of the stage before it, or the default sentence if that is empty or there is none |
| `Safety.OutputsAreAnswers` | agentpipeline-operator/internal/controller/agentpipeline_controller.go:287-298 | every stored output is the complete answer of one of the recorded calls to its stage |
| `Safety.PointersAgree` | agentpipeline-operator/internal/controller/stage_handler.go:135-176 | in every persisted version a Completed stage refers to its deterministic ConfigMap, which exists, and shows the truncation of its content |
| `Safety.PreparationFailsIff` | agentpipeline-operator/internal/controller/agentpipeline_controller.go:238-248 | preparing a reachable stage fails iff an earlier output cannot be read or the stage has a template that cannot be executed on the ideal context; a reference never dangles |
| `Safety.FailureIsolated` | agentpipeline-operator/internal/controller/agentpipeline_controller.go:191-199 | a failed pipeline with stages has one Failed stage with retryCount equal to its limit, attempted more often than the limit, all earlier stages Completed, no later one ever attempted or called |
| `Safety.StatusCoherent` | agentpipeline-operator/internal/controller/agentpipeline_controller.go:411-463 | in every persisted version: Ready is True iff Completed, and then all stages are; completedAt iff terminal; per stage completedAt iff Completed or Failed and no error unless Failed; a failed pipeline names the failed stage, its retries and its error |
| `Safety.TerminalAbsorbing` | agentpipeline-operator/internal/controller/agentpipeline_controller.go:93-96 | no continuation of a run changes a terminal status |
| `Safety.QuietOnceCompleted` | agentpipeline-operator/internal/controller/agentpipeline_controller.go:219-228 | after completion no agent is invoked, not even by passes that read old versions |
| `Safety.QuietOnceTerminal` | agentpipeline-operator/internal/controller/agentpipeline_controller.go:93-96 | with fresh reads no agent is invoked after either terminal phase |
| `Safety.FailedStepTriesIff` | agentpipeline-operator/internal/controller/agentpipeline_controller.go:93-96 | exactly when a benign pass on a failed pipeline begins an attempt: the version it reads is not deleted, is running, has its cursor at the failed stage and shows it pending with its dependencies in order, and nothing is stored for that stage |
| `Witnesses.StaleReadAfterFailure` | agentpipeline-operator/internal/controller/agentpipeline_controller.go:211-284 | a complete run in which a stale read invokes the agent of a failed pipeline once more and stores its output |
| `Witnesses.DuplicateNamesSkipAgent` | agentpipeline-operator/api/v1alpha1/agentpipeline_types.go:120-123 | a complete run of a pipeline with two stages of one name, everything going well, that ends with the second one completed and never called |
| `Duplicates.CompletedAreCalledIff` | agentpipeline-operator/api/v1alpha1/agentpipeline_types.go:120-123 | where dependencies are in order and the prompts can be rendered: every completed stage of every benign run that starts without outputs of the pipeline has had its agent called iff the stage names are distinct |
| `Duplicates.SharedNameNeverCalled` | agentpipeline-operator/internal/controller/agentpipeline_controller.go:219-228 | in no benign run of any pipeline is the agent of a stage called whose name an earlier stage bears |
| `Duplicates.SharedNameCompletes` | agentpipeline-operator/internal/controller/agentpipeline_controller.go:219-228 | for any snapshot whose current pending stage has its dependencies met and shares its name with an earlier stored one: the pass completes it from that output, without attempt or call |
| `Duplicates.SkipsAgent` | agentpipeline-operator/internal/controller/agentpipeline_controller.go:219-228 | for every pipeline with a first shared name, dependencies in order and renderable prompts: a run from the start, without any fault, that completes that stage uncalled |
| `Safety.NoLostWakeup` | agentpipeline-operator/internal/controller/agentpipeline_controller.go:64-101 | for a pass reading any version: if it asks for no further pass, it found no resource, or read a deleted one, or leaves a terminal pipeline behind |
| `Replies.DoneIff` | agentpipeline-operator/internal/controller/agentpipeline_controller.go:64-101 | in any run a pass asks for no further pass iff it found no resource, or read a terminal one that is not deleted, or persisted a terminal status and was told so, or read a deleted one whose finalizer was absent or whose removal was acknowledged |
| `Replies.DelayIff` | agentpipeline-operator/internal/controller/agentpipeline_controller.go:180-207 | a pass asks for a delay iff the current stage waits, then 10 seconds, or its retry has been recorded, then the backoff of its own policy or else of the pipeline's, by default 30 seconds |
| `Replies.FailedIff` | agentpipeline-operator/internal/controller/agentpipeline_controller.go:64-101 | a pass reports an error iff the fetch failed or it had something to write and was not told that it was written; it never panics, and in all remaining cases asks to be run again at once |
| `Replies.MarkedRunningWaits` | agentpipeline-operator/internal/controller/agentpipeline_controller.go:200-206 | a snapshot, of no run, whose current stage is marked running is left alone and looked at again after 10 seconds |
| `Records.PersistedFields` | agentpipeline-operator/internal/controller/agentpipeline_controller.go:145-162 | every version a pass persists, field by field: clock readings where something started or ended in that pass, the agent's task id where a try completed a stage, the current stage, retry count and error as what happened says, fresh stage statuses at the start, and every other value as it was |
| `Records.RecordedError` | agentpipeline-operator/internal/controller/agentpipeline_controller.go:238-283 | the error a pass persists a stage as failed with is that of the outcome of its call, per outcome, or without a call that of the first earlier output it could not read, or of its template |
| `Deletion.FinalizerRemoved` | agentpipeline-operator/internal/controller/agentpipeline_controller.go:104-119 | after a deletion request and anything in the meantime, the first pass that reads the latest version and can write removes the finalizer and changes nothing else; after that the resource never changes again |
| `Deletion.FrozenOnceDeleted` | agentpipeline-operator/internal/controller/agentpipeline_controller.go:104-119 | from a deletion request on no run changes the status or puts the finalizer back |
| `Deletion.QuietOnceDeleted` | agentpipeline-operator/internal/controller/agentpipeline_controller.go:83-85 | with fresh reads a deleted pipeline runs no agent |
| `Deletion.DoneMeansReleased` | agentpipeline-operator/internal/controller/agentpipeline_controller.go:104-119 | a pass that reads a deleted version asks for no further pass only if the finalizer is gone afterwards |
| `Deletion.FinalizerHeld` | agentpipeline-operator/internal/controller/agentpipeline_controller.go:122-130 | no pipeline gets past pending without its finalizer, nor loses it before it is deleted |
| `Safety.OtherPipelinesBenign` | agentpipeline-operator/internal/controller/stage_handler.go:242-244 | with safe stage names, outputs of another pipeline never touch those of this one |
| `Controller.Reconciler.Reconcile` | agentpipeline-operator/internal/controller/agentpipeline_controller.go:64-101 | the pass over the in-memory copy is exactly one step of the protocol, in what it persists, stores, calls and replies, including the replies to a missing resource and to a failed fetch |
| `Controller.Reconciler.Drive` | agentpipeline-operator/internal/controller/agentpipeline_controller.go:64-101 | driving the reconciler and the cluster through any sequence of choices is the run of the protocol |
| `Operation.OperateOn` | agentpipeline-operator/README.md:21-26 | on the objects: what the API server has stored for a stage after the first part of a run it still has after the second, and the runner has seen no call of that stage in between |
| `Operation.OperateToTheEnd` | agentpipeline-operator/internal/controller/agentpipeline_controller.go:64-101 | on the objects: after the bounded number of passes the last version the API server holds is terminal |
| `Controller.Reconciler.HandleDeletion` | agentpipeline-operator/internal/controller/agentpipeline_controller.go:104-119 | removes the finalizer with one write, or does nothing |
| `Controller.Reconciler.HandlePending` | agentpipeline-operator/internal/controller/agentpipeline_controller.go:122-168 | adds the finalizer, fails an empty pipeline, or starts it with fresh stage statuses |
| `Controller.Reconciler.HandleRunning` | agentpipeline-operator/internal/controller/agentpipeline_controller.go:171-207 | completes, waits, starts, retries or gives up as the specified pass does |
| `Controller.Reconciler.StartStage` | agentpipeline-operator/internal/controller/agentpipeline_controller.go:211-233 | recovers the stage when the guard finds its output, and otherwise makes the attempt |
| `Controller.Reconciler.AttemptStage` | agentpipeline-operator/internal/controller/agentpipeline_controller.go:238-283 | builds context and prompt, records one attempt and at most one call, and turns every outcome into at most one status write |
| `Controller.Reconciler.CompleteStage` | agentpipeline-operator/internal/controller/agentpipeline_controller.go:287-323 | stores the output first, and submits the completed stage only if that reported success |
| `Controller.Reconciler.CompleteStageFromOutput` | agentpipeline-operator/internal/controller/agentpipeline_controller.go:327-348 | submits the stage completed from the stored text, leaving startedAt, taskID and currentStage alone |
| `Controller.Reconciler.FailStage` | agentpipeline-operator/internal/controller/agentpipeline_controller.go:351-373 | submits the stage as failed with its error |
| `Controller.Reconciler.RetryStage` | agentpipeline-operator/internal/controller/agentpipeline_controller.go:376-408 | counts the retry on an int32, clears error and completion, replies with the backoff |
| `Controller.Reconciler.CompletePipeline` | agentpipeline-operator/internal/controller/agentpipeline_controller.go:411-438 | submits the terminal status with Ready true and no current stage |
| `Controller.Reconciler.FailPipeline` | agentpipeline-operator/internal/controller/agentpipeline_controller.go:441-463 | submits the terminal status with Ready false and the reason |
| `StageHandler.FindCurrentStage` | agentpipeline-operator/internal/controller/stage_handler.go:179-186 | finds the first stage that is neither Completed nor Skipped, or says that there is none |
| `StageHandler.AreDependenciesMet` | agentpipeline-operator/internal/controller/stage_handler.go:189-207 | true iff every dependency is the name of some Completed stage |
| `StageHandler.InitStageStatuses` | agentpipeline-operator/internal/controller/stage_handler.go:210-218 | one fresh Pending status per stage, in order |
| `StageHandler.BuildPipelineContext` | agentpipeline-operator/internal/controller/stage_handler.go:101-131 | the loop computes the recursive context, including the early exit on an unreadable output |
| `Invariants.PreparedIsIdeal` | agentpipeline-operator/internal/controller/stage_handler.go:101-131 | for a startable stage with its predecessors' outputs stored, context building succeeds iff all of them are readable, and then yields exactly the full outputs of the stages before it |
| `StageHandler.TruncateOutput` | agentpipeline-operator/internal/controller/stage_handler.go:247-252 | at most 1024 long; unchanged iff it fits, otherwise three dots and the last 1021 |
| `Naming.OutputNameInjective` | agentpipeline-operator/internal/controller/stage_handler.go:242-244 | within a pipeline the ConfigMap name determines the stage |
| `Naming.CollisionIff` | agentpipeline-operator/internal/controller/stage_handler.go:242-244 | names of two pipelines' outputs coincide exactly in the identical case and in two shapes, one per self-overlap and per inner occurrence of the separator |
| `Naming.SafeIff` | agentpipeline-operator/internal/controller/stage_handler.go:242-244 | a stage name neither starts with "stage-" nor contains "-stage-" iff no pipeline with a name at least as long can claim its output |
| `Naming.SafeNamesInjective` | agentpipeline-operator/internal/controller/stage_handler.go:242-244 | with two safe stage names the ConfigMap name determines pipeline and stage |
| `Naming.UnsafeWitnesses` | agentpipeline-operator/internal/controller/stage_handler.go:242-244 | each of the two conditions is needed on its own |
| `SseStream.ParseSSEStream` | agentpipeline-operator/internal/runner/a2a_runner.go:202-254 | the line loop with its early return and its check for cancellation before every line computes the fold over the events dispatched by then |
| `SseStream.Collector.ProcessEvent` | agentpipeline-operator/internal/runner/a2a_runner.go:257-303 | updating result and artifact list in place is the specified step |
| `SseStream.ExtractText` | agentpipeline-operator/internal/runner/a2a_runner.go:306-317 | joins the non-empty parts of the message, if there is one |
| `SseLaws.MessageTextIs` | agentpipeline-operator/internal/runner/a2a_runner.go:306-317 | the message text is its non-empty parts in order with one newline between neighbours |
| `SseTexts.SplitJoin` | agentpipeline-operator/internal/runner/a2a_runner.go:316-317 | splitting a joined text at its newlines gives back the parts, if none contains one |
| `SseTexts.JoinIsGlued` | agentpipeline-operator/internal/runner/a2a_runner.go:226-228 | a joined text is the texts with one newline between any two neighbours |
| `SseTexts.NonEmptyIsKept` | agentpipeline-operator/internal/runner/a2a_runner.go:284-290 | exactly the non-empty texts are kept, in their order |
| `SseTexts.RpcErrorTextIs` | agentpipeline-operator/internal/runner/a2a_runner.go:267-271 | the text of an RPC error has its code, as a numeral without leading zeros, before its message |
| `SseTexts.DecimalReadBack` | agentpipeline-operator/internal/runner/a2a_runner.go:269-269 | the decimal of an integer is a numeral and is read back as that integer |
| `SseTexts.NumeralIsDecimal` | agentpipeline-operator/internal/runner/a2a_runner.go:269-269 | every numeral is the decimal of its value |
| `SseTexts.TrimSpaceSplits` | agentpipeline-operator/internal/runner/a2a_runner.go:236-240 | trimming removes exactly a prefix and a suffix of white space |
| `SseTexts.TrimSpaceIs` | agentpipeline-operator/internal/runner/a2a_runner.go:236-240 | a trimmed text is given back from any white space around it |
| `SseLaws.ResultLaw` | agentpipeline-operator/internal/runner/a2a_runner.go:219-253 | closed form of the result: without a terminal event Failed; with one, status, error, output and task id are those of the first one: the non-empty message parts one per line, before the artifacts in arrival order one per line; the RPC error's code as a numeral and its message; the last non-empty id, taskId before id |
| `SseLaws.SuffixIrrelevant` | agentpipeline-operator/internal/runner/a2a_runner.go:219-231 | once complete lines have dispatched a terminal event, no suffix and no read error changes the result |
| `SseLaws.CancellationLaw` | agentpipeline-operator/internal/runner/a2a_runner.go:211-214 | cancellation is reported iff it comes before the end of the stream and before an event that ends the run; otherwise it makes no difference |
| `SseLaws.CompletedNeedsEvent` | agentpipeline-operator/internal/runner/a2a_runner.go:292-296 | a Completed result comes from a decoded event whose state is "completed" |
| `SseLaws.RoundTrip` | agentpipeline-operator/internal/runner/a2a_runner.go:211-241 | any list of events with one-line, trimmed, non-empty data is read back exactly from its rendering |
| `SseLaws.ParseRendered` | agentpipeline-operator/internal/runner/a2a_runner.go:202-254 | parsing a rendered list of events is folding over its data |
| `SseConformance.ConformsIff` | agentpipeline-operator/internal/runner/a2a_runner.go:211-241 | on LF or CRLF streams without a byte order mark, the data dispatched are the non-empty data of section 9.2.6 of the WHATWG HTML Living Standard iff every dispatched event has at most one data field, free of surrounding white space |
| `SseConformance.ConformingResult` | agentpipeline-operator/internal/runner/a2a_runner.go:202-254 | there the result is the fold over the standard's data |
| `SseConformance.LoneCRDiffers` | agentpipeline-operator/internal/runner/a2a_runner.go:211-216 | a stream with lone CRs is one on which the two disagree |
| `SseConformance.ByteOrderMarkDiffers` | agentpipeline-operator/internal/runner/a2a_runner.go:236-240 | so is one with a byte order mark |

## Left out

- HTTP transport, request building and health checks of the runner: network I/O; an agent call has an arbitrary outcome.
- Deadlines and durations: they depend on the clock. Cancellation of the stream loop is a parameter, the number of lines read before it.
- Backoff and requeue timing: the delay a pass replies with is modelled, the time between passes is not, since a landed status write re-triggers reconciliation anyway; attempts are not claimed to be separated by the backoff.
- Go's text/template and JSON decoding: arbitrary deterministic functions that may fail.
- Quoting by `%q` and wrapped causes in error texts, and the formatting of the Ready message; the stage, retries and error it is made of are kept.
- UTF-8 boundaries cut by truncation, and the scanner's 1 MB line limit, which appears only as a read error.
- Naming.SafeIff: speaks of pipelines whose name is at least as long; the shorter ones are covered by the other stage's name, as SafeNamesInjective does.
- FreshReads.LostWriteRecovered: does not compare timestamps, taskID and currentStage, because the recovery path leaves taskID, startedAt and currentStage as they are.
- Owner references and garbage collection, delete-and-recreate under one name, leader election: cluster behaviour. A deleted resource stays in the model; a pass that does not find it may happen at any time.
- Spec edits while a pipeline runs: the spec is frozen.
- Values of phase outside the API's enumeration, and the trigger type, which the controller only logs.
- Labels, events, logging, program start-up, generated code, mocks: no logic of their own.
- Terraform, Ansible, Helm, ArgoCD and Kyverno configuration, load tests and shell scripts: configuration without algorithmic content.
