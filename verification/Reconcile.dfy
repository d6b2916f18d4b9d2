/**
 What one reconcile pass does, as a function of the snapshot it fetched, the stored
 outputs it can read, and everything the outside world decides during the pass.
 */
module Reconcile {
  import opened Wrappers
  import opened PipelineTypes
  import opened StageHandler

  datatype Fetch = Found | NotFound | FetchFails

  /** A write may take effect or not, independently of what the caller is told. */
  datatype WriteFault = Lands | LandsButReportsError | Lost

  /**
   The choices of the outside world in one pass, beginning with what fetching the resource
   came to. A crash before the agent is called is a
   pass whose read fails, a crash after it one whose remaining writes are `Lost`.
   `guardReadFails` is an error of the duplicate-execution guard's read, `unreadable` the
   outputs that cannot be read while the context is built.
   */
  datatype Env = Env(
    now: nat,
    fetch: Fetch,
    guardReadFails: bool,
    unreadable: set<string>,
    agent: AgentOutcome,
    storeFault: WriteFault,
    writeFault: WriteFault)

  /** Nothing goes wrong, and the agent ends as told. */
  function GoodEnv(agent: AgentOutcome): Env {
    Env(0, Found, false, {}, agent, Lands, Lands)
  }

  /** What a pass returns to the work queue. `Panicked` is an index out of range. */
  datatype Reply = Done | RequeueNow | RequeueAfter(delay: nat) | Failed | Panicked

  /**
   Effects of a pass: the outputs after it, the version it submits to the API server,
   the stage whose execution it began past the guard, the agent call it made, and its
   reply provided that the submitted write succeeds.
   */
  datatype Pass = Pass(
    outputs: map<string, string>,
    submitted: Option<Resource>,
    attempt: Option<nat>,
    call: Option<Call>,
    reply: Reply)

  const REQUEUE_DELAY: nat := 10
  const DEFAULT_BACKOFF: nat := 30
  const DEFAULT_TIMEOUT: nat := 300

  function Quiet(outputs: map<string, string>, reply: Reply): Pass {
    Pass(outputs, None, None, None, reply)
  }

  function WithStage(cr: Resource, i: nat, s: StageStatus): Resource
    requires i < |cr.status.stages|
  {
    cr.(status := cr.status.(stages := cr.status.stages[i := s]))
  }

  function ReconcilePass(p: Pipeline, cr: Resource, outputs: map<string, string>, env: Env): Pass {
    if cr.deleting then DeletionPass(cr, outputs)
    else
      match cr.status.phase
      case PhaseUnset => PendingPass(p, cr, outputs, env)
      case PhasePending => PendingPass(p, cr, outputs, env)
      case PhaseRunning => RunningPass(p, cr, outputs, env)
      case PhaseCompleted => Quiet(outputs, Done)
      case PhaseFailed => Quiet(outputs, Done)
  }

  function DeletionPass(cr: Resource, outputs: map<string, string>): Pass {
    if !cr.finalizer then Quiet(outputs, Done)
    else Pass(outputs, Some(cr.(finalizer := false)), None, None, Done)
  }

  function PendingPass(p: Pipeline, cr: Resource, outputs: map<string, string>, env: Env): Pass {
    if !cr.finalizer then
      Pass(outputs, Some(cr.(finalizer := true)), None, None, RequeueNow)
    else if |p.spec.stages| == 0 then
      Pass(outputs, Some(FailedPipeline(cr, NoStagesDefined, env.now)), None, None, Done)
    else
      Pass(outputs, Some(StartedPipeline(p, cr, env.now)), None, None, RequeueNow)
  }

  function StartedPipeline(p: Pipeline, cr: Resource, now: nat): Resource
    requires |p.spec.stages| > 0
  {
    cr.(status := cr.status.(phase := PhaseRunning,
                             startedAt := Some(now),
                             currentStage := p.spec.stages[0].name,
                             stages := FreshStages(p.spec.stages),
                             ready := Some(Condition(false, PipelineStarted))))
  }

  function CompletedPipeline(cr: Resource, now: nat): Resource {
    cr.(status := cr.status.(phase := PhaseCompleted,
                             completedAt := Some(now),
                             currentStage := "",
                             ready := Some(Condition(true, PipelineCompleted))))
  }

  function FailedPipeline(cr: Resource, reason: ReadyReason, now: nat): Resource {
    cr.(status := cr.status.(phase := PhaseFailed,
                             completedAt := Some(now),
                             ready := Some(Condition(false, reason))))
  }

  function RunningPass(p: Pipeline, cr: Resource, outputs: map<string, string>, env: Env): Pass {
    var c := FirstOpen(cr.status.stages);
    if c == |cr.status.stages| then
      Pass(outputs, Some(CompletedPipeline(cr, env.now)), None, None, Done)
    else if c >= |p.spec.stages| then
      Quiet(outputs, Panicked)
    else if !DependenciesMet(cr.status.stages, p.spec.stages[c].dependsOn) then
      Quiet(outputs, RequeueAfter(REQUEUE_DELAY))
    else
      var s := cr.status.stages[c];
      match s.phase
      case StagePending => StartPass(p, cr, c, outputs, env)
      case StageFailed =>
        var policy := EffectiveRetryPolicy(p.spec, p.spec.stages[c]);
        if s.retryCount < policy.maxRetries then
          Pass(outputs, Some(WithStage(cr, c, RetriedStage(s))), None, None, RequeueAfter(Backoff(policy)))
        else
          Pass(outputs, Some(FailedPipeline(cr, StageExhausted(p.spec.stages[c].name, s.retryCount, s.error), env.now)),
               None, None, Done)
      case _ => Quiet(outputs, RequeueAfter(REQUEUE_DELAY))
  }

  function Backoff(policy: RetryPolicy): nat {
    match policy.backoff case Some(b) => b case None => DEFAULT_BACKOFF
  }

  function RetriedStage(s: StageStatus): StageStatus {
    s.(retryCount := Increment32(s.retryCount), phase := StagePending, error := "", completedAt := None)
  }

  function FailedStage(s: StageStatus, message: string, now: nat): StageStatus {
    s.(phase := StageFailed, completedAt := Some(now), error := message)
  }

  function CompletedStage(s: StageStatus, output: string, ref: string, now: nat): StageStatus {
    s.(phase := StageCompleted, completedAt := Some(now), output := TruncateOutput(output), outputRef := ref)
  }

  function MarkedRunning(p: Pipeline, cr: Resource, i: nat, now: nat): Resource
    requires i < |cr.status.stages| && i < |p.spec.stages|
  {
    var marked := WithStage(cr, i, cr.status.stages[i].(phase := StageRunning, startedAt := Some(now)));
    marked.(status := marked.status.(currentStage := p.spec.stages[i].name))
  }

  function RequestFor(p: Pipeline, stage: StageSpec, prompt: string): RunRequest {
    RunRequest(stage.agentRef.name,
               if stage.agentRef.namespace == "" then p.namespace else stage.agentRef.namespace,
               prompt,
               match stage.timeout case Some(t) => t case None => DEFAULT_TIMEOUT)
  }

  /** Starts stage `i`, or recovers it when the guard finds its output already stored. */
  function StartPass(p: Pipeline, cr: Resource, i: nat, outputs: map<string, string>, env: Env): Pass
    requires i < |cr.status.stages| && i < |p.spec.stages|
  {
    var stage := p.spec.stages[i];
    var name := OutputName(p.name, stage.name);
    if !env.guardReadFails && name in outputs then
      Pass(outputs, Some(WithStage(cr, i, CompletedStage(cr.status.stages[i], outputs[name], name, env.now))),
           None, None, RequeueNow)
    else
      AttemptPass(p, MarkedRunning(p, cr, i, env.now), i, outputs, env)
  }

  /** What an agent is invoked with. */
  datatype Prepared = Prepared(context: PipelineContext, prompt: string)

  /** Builds the context of stage `i` from the outputs that can be read and renders its prompt, or says why not. */
  function Prepare(p: Pipeline, stages: seq<StageStatus>, i: nat, outputs: map<string, string>): Result<Prepared>
    requires i < |p.spec.stages|
  {
    match ContextUpTo(p, stages, outputs, p.spec.stages[i], |stages|)
    case Failure(e) => Failure("building pipeline context: " + e)
    case Success(context) =>
      match RenderPrompt(p, p.spec.stages[i], context)
      case Failure(e) => Failure("rendering prompt: " + e)
      case Success(prompt) => Success(Prepared(context, prompt))
  }

  /** The error recorded for an outcome other than completion. */
  function FailureMessage(outcome: AgentOutcome): string
    requires !outcome.RunCompleted?
  {
    match outcome
    case InvocationError(m) => "invoking agent: " + m
    case RunFailed(m) => m
    case RunTimedOut => "agent execution timed out"
    case RunUnexpected(s) => "unexpected run status: " + s
  }

  function CallFor(p: Pipeline, i: nat, prepared: Prepared, outcome: AgentOutcome): Call
    requires i < |p.spec.stages|
  {
    Call(i, RequestFor(p, p.spec.stages[i], prepared.prompt), prepared.context, outcome)
  }

  /** The part past the guard: context, prompt, agent. */
  function AttemptPass(p: Pipeline, marked: Resource, i: nat, outputs: map<string, string>, env: Env): Pass
    requires i < |marked.status.stages| && i < |p.spec.stages|
  {
    match Prepare(p, marked.status.stages, i, outputs - env.unreadable)
    case Failure(e) => FailPass(marked, i, e, None, outputs, env.now)
    case Success(prepared) =>
      var name := OutputName(p.name, p.spec.stages[i].name);
      OutcomePass(marked, i, name, CallFor(p, i, prepared, env.agent), outputs, env)
  }

  function OutcomePass(marked: Resource, i: nat, name: string, call: Call, outputs: map<string, string>, env: Env): Pass
    requires i < |marked.status.stages|
  {
    if env.agent.RunCompleted? then CompletePass(marked, i, name, call, outputs, env)
    else FailPass(marked, i, FailureMessage(env.agent), Some(call), outputs, env.now)
  }

  function FailPass(marked: Resource, i: nat, message: string, call: Option<Call>,
                    outputs: map<string, string>, now: nat): Pass
    requires i < |marked.status.stages|
  {
    var s := FailedStage(marked.status.stages[i], message, now);
    Pass(outputs, Some(WithStage(marked, i, s)), Some(i), call, RequeueNow)
  }

  function CompletePass(marked: Resource, i: nat, name: string, call: Call, outputs: map<string, string>, env: Env)
    : Pass
    requires i < |marked.status.stages|
    requires env.agent.RunCompleted?
  {
    var output := env.agent.output;
    match env.storeFault
    case Lost => Pass(outputs, None, Some(i), Some(call), Failed)
    case LandsButReportsError => Pass(outputs[name := output], None, Some(i), Some(call), Failed)
    case Lands =>
      var s := CompletedStage(marked.status.stages[i], output, name, env.now).(taskID := env.agent.taskID);
      Pass(outputs[name := output], Some(WithStage(marked, i, s)), Some(i), Some(call), RequeueNow)
  }

  /** Optimistic concurrency: a submitted version lands only on top of the version it was read from. */
  predicate WriteLands(latest: nat, read: nat, submitted: Option<Resource>, fault: WriteFault) {
    submitted.Some? && read == latest && fault != Lost
  }

  function Persist(versions: seq<Resource>, read: nat, submitted: Option<Resource>, fault: WriteFault): seq<Resource>
    requires versions != []
  {
    if WriteLands(|versions| - 1, read, submitted, fault) then versions + [submitted.value] else versions
  }

  function ReplyOf(pass: Pass, latest: nat, read: nat, fault: WriteFault): Reply {
    if pass.submitted.None? || (read == latest && fault == Lands) then pass.reply else Failed
  }
}
