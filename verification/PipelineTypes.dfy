/**
 The AgentPipeline custom resource as the operator sees it: the frozen spec, the
 status sub-resource the controller rewrites, and the values that cross the
 boundary to the agent. Go strings are byte strings; a `char` here is one byte.
 */
module PipelineTypes {
  import opened Wrappers

  type int32 = x: int | -0x8000_0000 <= x < 0x8000_0000

  const MAX_INT32: int32 := 0x7fff_ffff

  /** Go's `x++` on an int32, with its wrap-around. */
  function Increment32(x: int32): (r: int32)
    ensures x < MAX_INT32 <==> r == x + 1
  {
    if x == MAX_INT32 then -0x8000_0000 else x + 1
  }

  datatype RetryPolicy = RetryPolicy(maxRetries: int32, backoff: Option<nat>)

  datatype AgentReference = AgentReference(name: string, namespace: string)

  datatype StageSpec = StageSpec(
    name: string,
    agentRef: AgentReference,
    timeout: Option<nat>,
    dependsOn: seq<string>,
    prompt: string,
    inputs: map<string, string>,
    retryPolicy: Option<RetryPolicy>)

  datatype PipelineSpec = PipelineSpec(stages: seq<StageSpec>, retryPolicy: Option<RetryPolicy>)

  datatype StagePhase = StagePending | StageRunning | StageCompleted | StageFailed | StageSkipped

  /** Timestamps are the readings of an arbitrary clock. */
  datatype StageStatus = StageStatus(
    name: string,
    phase: StagePhase,
    startedAt: Option<nat>,
    completedAt: Option<nat>,
    retryCount: int32,
    output: string,
    outputRef: string,
    error: string,
    taskID: string)

  /** `PhaseUnset` is the empty string a new resource carries. */
  datatype PipelinePhase = PhaseUnset | PhasePending | PhaseRunning | PhaseCompleted | PhaseFailed

  /** Reason and message of the Ready condition; the message's formatting is not modelled. */
  datatype ReadyReason =
    | PipelineStarted
    | PipelineCompleted
    | NoStagesDefined
    | StageExhausted(stage: string, retries: int32, error: string)

  datatype Condition = Condition(isTrue: bool, reason: ReadyReason)

  datatype PipelineStatus = PipelineStatus(
    phase: PipelinePhase,
    currentStage: string,
    startedAt: Option<nat>,
    completedAt: Option<nat>,
    stages: seq<StageStatus>,
    ready: Option<Condition>)

  /** One persisted version of the resource, its spec left out because it is frozen. */
  datatype Resource = Resource(finalizer: bool, deleting: bool, status: PipelineStatus)

  /** The data object handed to prompt templates. */
  datatype PipelineContext = PipelineContext(
    previousOutput: string,
    inputs: map<string, string>,
    stageOutputs: map<string, string>)

  /**
   What stays fixed while a pipeline runs. `template` stands for Go's text/template
   library: some deterministic function of template text and context that may fail.
   */
  datatype Pipeline = Pipeline(
    name: string,
    namespace: string,
    spec: PipelineSpec,
    template: (string, PipelineContext) -> Option<string>)

  datatype RunRequest = RunRequest(agentName: string, namespace: string, prompt: string, timeout: nat)

  /** What an agent invocation may come back with. */
  datatype AgentOutcome =
    | InvocationError(message: string)
    | RunCompleted(output: string, taskID: string)
    | RunFailed(message: string)
    | RunTimedOut
    | RunUnexpected(status: string)

  /** One agent invocation: who asked, with what context, and how it ended. */
  datatype Call = Call(stage: nat, request: RunRequest, context: PipelineContext, outcome: AgentOutcome)
}
