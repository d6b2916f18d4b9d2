/** The stage handler: stage selection, dependencies, context building, output naming and truncation. */
module StageHandler {
  import opened Wrappers
  import opened PipelineTypes

  const MAX_STATUS_OUTPUT_LEN := 1024

  const SEPARATOR := "-stage-"

  function OutputName(pipeline: string, stage: string): (name: string)
    ensures |name| == |pipeline| + |SEPARATOR| + |stage|
  {
    pipeline + SEPARATOR + stage
  }

  /** The preview kept in the status: never over the limit, and always ending as the full output ends. */
  function TruncateOutput(output: string): (preview: string)
    ensures |preview| <= MAX_STATUS_OUTPUT_LEN
    ensures preview == output <==> |output| <= MAX_STATUS_OUTPUT_LEN
    ensures |output| > MAX_STATUS_OUTPUT_LEN ==>
              |preview| == MAX_STATUS_OUTPUT_LEN && preview[..3] == "..." && preview[3..] == output[|output| - 1021..]
  {
    if |output| <= MAX_STATUS_OUTPUT_LEN then output
    else "..." + output[|output| - MAX_STATUS_OUTPUT_LEN + 3..]
  }

  /** A stage's own policy overrides the pipeline's; without either there are no retries. */
  function EffectiveRetryPolicy(spec: PipelineSpec, stage: StageSpec): (policy: RetryPolicy)
    ensures Some(policy) == stage.retryPolicy || (stage.retryPolicy.None? && Some(policy) == spec.retryPolicy) ||
            (stage.retryPolicy.None? && spec.retryPolicy.None? && policy.maxRetries == 0)
  {
    match stage.retryPolicy
    case Some(own) => own
    case None =>
      match spec.retryPolicy
      case Some(shared) => shared
      case None => RetryPolicy(0, None)
  }

  /** Renders the prompt of a stage; without a template the previous output is passed on as it is. */
  function RenderPrompt(p: Pipeline, stage: StageSpec, context: PipelineContext): Result<string> {
    if stage.prompt == "" then
      Success(if context.previousOutput != "" then context.previousOutput
              else "Execute agent " + stage.agentRef.name)
    else
      match p.template(stage.prompt, context)
      case Some(text) => Success(text)
      case None => Failure("prompt template for stage " + stage.name)
  }

  function FreshStage(name: string): StageStatus {
    StageStatus(name, StagePending, None, None, 0, "", "", "", "")
  }

  function FreshStages(stages: seq<StageSpec>): (statuses: seq<StageStatus>)
    ensures |statuses| == |stages|
    ensures forall i :: 0 <= i < |stages| ==> statuses[i] == FreshStage(stages[i].name)
  {
    seq(|stages|, i requires 0 <= i < |stages| => FreshStage(stages[i].name))
  }

  predicate IsOpen(s: StageStatus) {
    s.phase != StageCompleted && s.phase != StageSkipped
  }

  /** Index of the first stage that is neither completed nor skipped, or the length if there is none. */
  function FirstOpen(stages: seq<StageStatus>): (c: nat)
    ensures c <= |stages|
    ensures forall i :: 0 <= i < c ==> !IsOpen(stages[i])
    ensures c < |stages| ==> IsOpen(stages[c])
  {
    if stages == [] || IsOpen(stages[0]) then 0 else 1 + FirstOpen(stages[1..])
  }

  lemma FirstOpenIs(stages: seq<StageStatus>, c: nat)
    requires c <= |stages|
    requires forall i :: 0 <= i < c ==> !IsOpen(stages[i])
    requires c < |stages| ==> IsOpen(stages[c])
    ensures FirstOpen(stages) == c
  {
    var r := FirstOpen(stages);
    if r != c {
      assert false;
    }
  }

  predicate DependenciesMet(stages: seq<StageStatus>, dependsOn: seq<string>) {
    forall d :: d in dependsOn ==>
                  exists j :: 0 <= j < |stages| && stages[j].phase == StageCompleted && stages[j].name == d
  }

  /**
   The context seen after the first `k` stage statuses: outputs of completed stages are
   read through their references, and the first unreadable one aborts the construction.
   */
  function ContextUpTo(p: Pipeline, stages: seq<StageStatus>, outputs: map<string, string>, current: StageSpec, k: nat)
    : Result<PipelineContext>
    requires k <= |stages|
  {
    if k == 0 then Success(PipelineContext("", current.inputs, map[]))
    else
      match ContextUpTo(p, stages, outputs, current, k - 1)
      case Failure(e) => Failure(e)
      case Success(pc) =>
        var s := stages[k - 1];
        if s.phase != StageCompleted || s.outputRef == "" then Success(pc)
        else if s.outputRef !in outputs then Failure("reading output for stage " + s.name)
        else
          var output := outputs[s.outputRef];
          var isPrevious := k < |p.spec.stages| && p.spec.stages[k].name == current.name;
          Success(PipelineContext(if isPrevious then output else pc.previousOutput,
                                  pc.inputs, pc.stageOutputs[s.name := output]))
  }

  lemma {:induction false} ContextFailureSticks(p: Pipeline, stages: seq<StageStatus>, outputs: map<string, string>,
                                                current: StageSpec, k: nat, m: nat)
    requires k <= m <= |stages|
    requires ContextUpTo(p, stages, outputs, current, k).Failure?
    ensures ContextUpTo(p, stages, outputs, current, m) == ContextUpTo(p, stages, outputs, current, k)
  {
    if k < m {
      ContextFailureSticks(p, stages, outputs, current, k, m - 1);
    }
  }

  method FindCurrentStage(stages: seq<StageStatus>) returns (c: Option<nat>)
    ensures c.None? ==> forall i :: 0 <= i < |stages| ==> !IsOpen(stages[i])
    ensures c.Some? ==> c.value < |stages| && IsOpen(stages[c.value])
    ensures c.Some? ==> forall i :: 0 <= i < c.value ==> !IsOpen(stages[i])
    ensures FirstOpen(stages) == if c.Some? then c.value else |stages|
  {
    for i := 0 to |stages|
      invariant forall j :: 0 <= j < i ==> !IsOpen(stages[j])
    {
      if stages[i].phase != StageCompleted && stages[i].phase != StageSkipped {
        FirstOpenIs(stages, i);
        return Some(i);
      }
    }
    FirstOpenIs(stages, |stages|);
    c := None;
  }

  method AreDependenciesMet(stages: seq<StageStatus>, dependsOn: seq<string>) returns (met: bool)
    ensures met == DependenciesMet(stages, dependsOn)
  {
    if |dependsOn| == 0 {
      return true;
    }
    var completed: set<string> := {};
    for i := 0 to |stages|
      invariant forall d :: d in completed <==>
                  exists j :: 0 <= j < i && stages[j].phase == StageCompleted && stages[j].name == d
    {
      if stages[i].phase == StageCompleted {
        completed := completed + {stages[i].name};
      }
    }
    for k := 0 to |dependsOn|
      invariant forall j :: 0 <= j < k ==> dependsOn[j] in completed
    {
      if dependsOn[k] !in completed {
        assert dependsOn[k] in dependsOn;
        return false;
      }
    }
    met := true;
  }

  method InitStageStatuses(specs: seq<StageSpec>) returns (statuses: seq<StageStatus>)
    ensures statuses == FreshStages(specs)
  {
    statuses := [];
    for i := 0 to |specs|
      invariant |statuses| == i
      invariant forall j :: 0 <= j < i ==> statuses[j] == FreshStage(specs[j].name)
    {
      statuses := statuses + [StageStatus(specs[i].name, StagePending, None, None, 0, "", "", "", "")];
    }
  }

  method BuildPipelineContext(p: Pipeline, stages: seq<StageStatus>, outputs: map<string, string>, current: StageSpec)
    returns (r: Result<PipelineContext>)
    ensures r == ContextUpTo(p, stages, outputs, current, |stages|)
  {
    var previousOutput := "";
    var stageOutputs: map<string, string> := map[];
    for i := 0 to |stages|
      invariant ContextUpTo(p, stages, outputs, current, i)
             == Success(PipelineContext(previousOutput, current.inputs, stageOutputs))
    {
      if stages[i].phase != StageCompleted || stages[i].outputRef == "" {
        continue;
      }
      if stages[i].outputRef !in outputs {
        ContextFailureSticks(p, stages, outputs, current, i + 1, |stages|);
        return Failure("reading output for stage " + stages[i].name);
      }
      var output := outputs[stages[i].outputRef];
      stageOutputs := stageOutputs[stages[i].name := output];
      if i < |p.spec.stages| - 1 && p.spec.stages[i + 1].name == current.name {
        previousOutput := output;
      }
    }
    r := Success(PipelineContext(previousOutput, current.inputs, stageOutputs));
  }
}
