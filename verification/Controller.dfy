/**
 The reconciler in the form it has: handlers that update an in-memory copy of the
 resource field by field and then submit it. Every handler is proved to do what the
 corresponding pass prescribes, and `Reconcile` to be one step of the protocol.
 */
module Controller {
  import opened Wrappers
  import opened PipelineTypes
  import opened StageHandler
  import opened Reconcile
  import opened Protocol

  /** The copy of the resource a pass works on. */
  class AgentPipeline {
    const resourceVersion: nat
    const deleting: bool
    var finalizer: bool
    var phase: PipelinePhase
    var currentStage: string
    var startedAt: Option<nat>
    var completedAt: Option<nat>
    var stages: seq<StageStatus>
    var ready: Option<Condition>

    constructor (resourceVersion: nat, cr: Resource)
      ensures this.resourceVersion == resourceVersion && Image() == cr
    {
      this.resourceVersion := resourceVersion;
      deleting := cr.deleting;
      finalizer := cr.finalizer;
      phase := cr.status.phase;
      currentStage := cr.status.currentStage;
      startedAt := cr.status.startedAt;
      completedAt := cr.status.completedAt;
      stages := cr.status.stages;
      ready := cr.status.ready;
    }

    function Image(): Resource
      reads this
    {
      Resource(finalizer, deleting, PipelineStatus(phase, currentStage, startedAt, completedAt, stages, ready))
    }
  }

  /** The API server: every version it has persisted, and the output ConfigMaps. */
  class ApiServer {
    var versions: seq<Resource>
    var outputs: map<string, string>

    constructor (outputs: map<string, string>)
      ensures versions == [CREATED] && this.outputs == outputs
    {
      versions := [CREATED];
      this.outputs := outputs;
    }

    method Get(k: nat) returns (obj: AgentPipeline)
      requires k < |versions|
      ensures fresh(obj) && obj.resourceVersion == k && obj.Image() == versions[k]
    {
      obj := new AgentPipeline(k, versions[k]);
    }

    /** An update conflicts unless the object was read from the latest version. */
    method Update(obj: AgentPipeline, fault: WriteFault) returns (ok: bool)
      requires versions != []
      modifies this`versions
      ensures versions == Persist(old(versions), obj.resourceVersion, Some(obj.Image()), fault)
      ensures ok <==> obj.resourceVersion == |old(versions)| - 1 && fault == Lands
    {
      ok := false;
      if obj.resourceVersion == |versions| - 1 && fault != Lost {
        versions := versions + [obj.Image()];
        ok := fault == Lands;
      }
    }

    /** Somebody asks for the resource to be deleted. */
    method Delete()
      requires versions != []
      modifies this`versions
      ensures versions == old(versions) + [old(versions[|versions| - 1]).(deleting := true)]
    {
      versions := versions + [versions[|versions| - 1].(deleting := true)];
    }

    method CreateOrUpdateOutput(name: string, text: string, fault: WriteFault) returns (ok: bool)
      modifies this`outputs
      ensures outputs == if fault == Lost then old(outputs) else old(outputs)[name := text]
      ensures ok <==> fault == Lands
    {
      if fault != Lost {
        outputs := outputs[name := text];
      }
      ok := fault == Lands;
    }
  }

  /** The agent runner keeps the invocations made through it. */
  class AgentRunner {
    var calls: seq<Call>

    constructor ()
      ensures calls == []
    {
      calls := [];
    }

    method RunAgent(stage: nat, request: RunRequest, context: PipelineContext, outcome: AgentOutcome)
      modifies this
      ensures calls == old(calls) + [Call(stage, request, context, outcome)]
    {
      calls := calls + [Call(stage, request, context, outcome)];
    }
  }

  class Reconciler {
    const p: Pipeline
    const api: ApiServer
    const runner: AgentRunner
    ghost var attempts: seq<nat>
    ghost var lost: seq<nat>

    constructor (p: Pipeline, api: ApiServer, runner: AgentRunner)
      ensures this.p == p && this.api == api && this.runner == runner
      ensures var n := |p.spec.stages|;
              Seen() == World(api.versions, api.outputs, runner.calls, seq(n, _ => 0), seq(n, _ => 0))
    {
      this.p := p;
      this.api := api;
      this.runner := runner;
      attempts := seq(|p.spec.stages|, _ => 0);
      lost := seq(|p.spec.stages|, _ => 0);
    }

    ghost function Seen(): World
      reads this, api, runner
    {
      World(api.versions, api.outputs, runner.calls, attempts, lost)
    }

    /** The world has changed by exactly the effects of `pass`, submitted from version `read`. */
    twostate predicate Realises(pass: Pass, read: nat, env: Env, reply: Reply)
      reads this, api, runner
    {
      && old(api.versions) != []
      && api.outputs == pass.outputs
      && api.versions == Persist(old(api.versions), read, pass.submitted, env.writeFault)
      && runner.calls == (if pass.call.Some? then old(runner.calls) + [pass.call.value] else old(runner.calls))
      && attempts == Bump(old(attempts), pass.attempt)
      && lost == old(lost)
      && reply == ReplyOf(pass, |old(api.versions)| - 1, read, env.writeFault)
    }

    method Reconcile(staleness: nat, env: Env) returns (reply: Reply)
      requires WellFormed(p, Seen())
      modifies this, api, runner
      ensures Seen() == Step(p, old(Seen()), Reconciles(staleness, env))
      ensures reply == StepReply(p, old(Seen()), staleness, env)
    {
      if env.fetch == NotFound {
        return Done;
      }
      if env.fetch == FetchFails {
        return Failed;
      }
      ghost var before := Seen();
      var latest := |api.versions| - 1;
      var read := if staleness <= latest then latest - staleness else 0;
      var pipeline := api.Get(read);
      ghost var pass := ReconcilePass(p, pipeline.Image(), api.outputs, env);
      StepByPass(p, before, staleness, env, pass);
      reply := Dispatch(pipeline, env);
      if ResultLost(p, pass, WriteLands(latest, read, pass.submitted, env.writeFault)) {
        lost := Bump(lost, pass.attempt);
      }
    }

    /** One step of a run, be it a pass or something that happens to the cluster. */
    method Act(c: Choice)
      requires WellFormed(p, Seen())
      modifies this, api, runner
      ensures Seen() == Step(p, old(Seen()), c)
    {
      match c
      case Reconciles(staleness, env) => var _ := Reconcile(staleness, env);
      case RequestsDeletion => api.Delete();
      case WritesElsewhere(name, text) => var _ := api.CreateOrUpdateOutput(name, text, Lands);
    }

    /** A whole run. */
    method Drive(choices: seq<Choice>)
      requires WellFormed(p, Seen())
      modifies this, api, runner
      ensures Seen() == Exec(p, old(Seen()), choices)
    {
      for i := 0 to |choices|
        invariant WellFormed(p, Seen())
        invariant Exec(p, Seen(), choices[i..]) == Exec(p, old(Seen()), choices)
      {
        Act(choices[i]);
      }
    }

    /** The state machine on the deletion mark and the phase. */
    method Dispatch(pipeline: AgentPipeline, env: Env) returns (reply: Reply)
      requires api.versions != []
      modifies this`attempts, api, runner, pipeline
      ensures Realises(ReconcilePass(p, old(pipeline.Image()), old(api.outputs), env),
                       pipeline.resourceVersion, env, reply)
    {
      if pipeline.deleting {
        reply := HandleDeletion(pipeline, env);
        return;
      }
      match pipeline.phase
      case PhaseUnset => reply := HandlePending(pipeline, env);
      case PhasePending => reply := HandlePending(pipeline, env);
      case PhaseRunning => reply := HandleRunning(pipeline, env);
      case PhaseCompleted => reply := Done;
      case PhaseFailed => reply := Done;
    }

    method HandleDeletion(pipeline: AgentPipeline, env: Env) returns (reply: Reply)
      requires api.versions != []
      modifies api, pipeline
      ensures Realises(DeletionPass(old(pipeline.Image()), old(api.outputs)), pipeline.resourceVersion, env, reply)
    {
      if !pipeline.finalizer {
        return Done;
      }
      pipeline.finalizer := false;
      var ok := api.Update(pipeline, env.writeFault);
      reply := if ok then Done else Failed;
    }

    method HandlePending(pipeline: AgentPipeline, env: Env) returns (reply: Reply)
      requires api.versions != []
      modifies api, pipeline
      ensures Realises(PendingPass(p, old(pipeline.Image()), old(api.outputs), env),
                       pipeline.resourceVersion, env, reply)
    {
      if !pipeline.finalizer {
        pipeline.finalizer := true;
        var added := api.Update(pipeline, env.writeFault);
        return if added then RequeueNow else Failed;
      }
      if |p.spec.stages| == 0 {
        reply := FailPipeline(pipeline, NoStagesDefined, env);
        return;
      }
      pipeline.phase := PhaseRunning;
      pipeline.startedAt := Some(env.now);
      pipeline.currentStage := p.spec.stages[0].name;
      pipeline.stages := InitStageStatuses(p.spec.stages);
      pipeline.ready := Some(Condition(false, PipelineStarted));
      var ok := api.Update(pipeline, env.writeFault);
      reply := if ok then RequeueNow else Failed;
    }

    method HandleRunning(pipeline: AgentPipeline, env: Env) returns (reply: Reply)
      requires api.versions != []
      modifies this`attempts, api, runner, pipeline
      ensures Realises(RunningPass(p, old(pipeline.Image()), old(api.outputs), env),
                       pipeline.resourceVersion, env, reply)
    {
      var c := FindCurrentStage(pipeline.stages);
      if c.None? {
        reply := CompletePipeline(pipeline, env);
        return;
      }
      var i := c.value;
      if i >= |p.spec.stages| {
        return Panicked;
      }
      var stage := p.spec.stages[i];
      var met := AreDependenciesMet(pipeline.stages, stage.dependsOn);
      if !met {
        return RequeueAfter(REQUEUE_DELAY);
      }
      match pipeline.stages[i].phase
      case StagePending => reply := StartStage(pipeline, i, env);
      case StageFailed =>
        var policy := EffectiveRetryPolicy(p.spec, stage);
        var s := pipeline.stages[i];
        if s.retryCount < policy.maxRetries {
          reply := RetryStage(pipeline, i, policy, env);
        } else {
          reply := FailPipeline(pipeline, StageExhausted(stage.name, s.retryCount, s.error), env);
        }
      case _ => reply := RequeueAfter(REQUEUE_DELAY);
    }

    method StartStage(pipeline: AgentPipeline, i: nat, env: Env) returns (reply: Reply)
      requires api.versions != []
      requires i < |pipeline.stages| && i < |p.spec.stages|
      modifies this`attempts, api, runner, pipeline
      ensures Realises(StartPass(p, old(pipeline.Image()), i, old(api.outputs), env),
                       pipeline.resourceVersion, env, reply)
    {
      var stage := p.spec.stages[i];
      var name := OutputName(p.name, stage.name);
      if !env.guardReadFails && name in api.outputs {
        reply := CompleteStageFromOutput(pipeline, i, name, api.outputs[name], env);
        return;
      }
      MarkRunning(pipeline, i, env.now);
      reply := AttemptStage(pipeline, i, env);
    }

    method MarkRunning(pipeline: AgentPipeline, i: nat, now: nat)
      requires i < |pipeline.stages| && i < |p.spec.stages|
      modifies pipeline`stages, pipeline`currentStage
      ensures pipeline.Image() == MarkedRunning(p, old(pipeline.Image()), i, now)
    {
      pipeline.stages := pipeline.stages[i := pipeline.stages[i].(phase := StageRunning, startedAt := Some(now))];
      pipeline.currentStage := p.spec.stages[i].name;
    }

    /** Builds the context and the prompt, then invokes the agent. */
    method AttemptStage(pipeline: AgentPipeline, i: nat, env: Env) returns (reply: Reply)
      requires api.versions != []
      requires i < |pipeline.stages| && i < |p.spec.stages|
      modifies this`attempts, api, runner, pipeline
      ensures Realises(AttemptPass(p, old(pipeline.Image()), i, old(api.outputs), env),
                       pipeline.resourceVersion, env, reply)
    {
      attempts := Bump(attempts, Some(i));
      var stage := p.spec.stages[i];
      var prepared := PrepareStage(pipeline.stages, i, api.outputs - env.unreadable);
      if prepared.Failure? {
        reply := FailStage(pipeline, i, prepared.error, env);
        return;
      }
      var Prepared(context, prompt) := prepared.value;
      var request := BuildRequest(stage, prompt);
      runner.RunAgent(i, request, context, env.agent);
      reply := ConcludeStage(pipeline, i, OutputName(p.name, stage.name), Call(i, request, context, env.agent), env);
    }

    /** Resolves the agent's namespace and the timeout. */
    method BuildRequest(stage: StageSpec, prompt: string) returns (request: RunRequest)
      ensures request == RequestFor(p, stage, prompt)
    {
      var namespace := stage.agentRef.namespace;
      if namespace == "" {
        namespace := p.namespace;
      }
      var timeout := DEFAULT_TIMEOUT;
      if stage.timeout.Some? {
        timeout := stage.timeout.value;
      }
      request := RunRequest(stage.agentRef.name, namespace, prompt, timeout);
    }

    method PrepareStage(stages: seq<StageStatus>, i: nat, outputs: map<string, string>) returns (r: Result<Prepared>)
      requires i < |p.spec.stages|
      ensures r == Prepare(p, stages, i, outputs)
    {
      var context := BuildPipelineContext(p, stages, outputs, p.spec.stages[i]);
      if context.Failure? {
        return Failure("building pipeline context: " + context.error);
      }
      var prompt := RenderPrompt(p, p.spec.stages[i], context.value);
      if prompt.Failure? {
        return Failure("rendering prompt: " + prompt.error);
      }
      r := Success(Prepared(context.value, prompt.value));
    }

    /** Turns the agent's outcome into a status write. */
    method ConcludeStage(pipeline: AgentPipeline, i: nat, name: string, ghost call: Call, env: Env)
      returns (reply: Reply)
      requires api.versions != []
      requires i < |pipeline.stages|
      modifies api, pipeline
      ensures Realises(OutcomePass(old(pipeline.Image()), i, name, call, old(api.outputs), env)
                         .(attempt := None, call := None),
                       pipeline.resourceVersion, env, reply)
    {
      match env.agent
      case InvocationError(m) => reply := FailStage(pipeline, i, "invoking agent: " + m, env);
      case RunCompleted(output, taskID) => reply := CompleteStage(pipeline, i, name, output, taskID, env);
      case RunFailed(m) => reply := FailStage(pipeline, i, m, env);
      case RunTimedOut => reply := FailStage(pipeline, i, "agent execution timed out", env);
      case RunUnexpected(s) => reply := FailStage(pipeline, i, "unexpected run status: " + s, env);
    }

    method CompleteStage(pipeline: AgentPipeline, i: nat, name: string, output: string, taskID: string, env: Env)
      returns (reply: Reply)
      requires api.versions != []
      requires i < |pipeline.stages|
      modifies api, pipeline
      ensures api.outputs == if env.storeFault == Lost then old(api.outputs) else old(api.outputs)[name := output]
      ensures env.storeFault != Lands ==> api.versions == old(api.versions) && reply == Failed
      ensures env.storeFault == Lands ==>
                var s := CompletedStage(old(pipeline.stages[i]), output, name, env.now).(taskID := taskID);
                && api.versions == Persist(old(api.versions), pipeline.resourceVersion,
                                           Some(WithStage(old(pipeline.Image()), i, s)), env.writeFault)
                && reply == if pipeline.resourceVersion == |old(api.versions)| - 1 && env.writeFault == Lands
                            then RequeueNow else Failed
    {
      var stored := api.CreateOrUpdateOutput(name, output, env.storeFault);
      if !stored {
        return Failed;
      }
      var s := pipeline.stages[i];
      pipeline.stages := pipeline.stages[i := s.(phase := StageCompleted, completedAt := Some(env.now),
                                                 output := TruncateOutput(output), outputRef := name,
                                                 taskID := taskID)];
      var ok := api.Update(pipeline, env.writeFault);
      reply := if ok then RequeueNow else Failed;
    }

    method CompleteStageFromOutput(pipeline: AgentPipeline, i: nat, name: string, output: string, env: Env)
      returns (reply: Reply)
      requires api.versions != []
      requires i < |pipeline.stages|
      modifies api`versions, pipeline
      ensures Realises(Pass(old(api.outputs),
                            Some(WithStage(old(pipeline.Image()), i,
                                           CompletedStage(old(pipeline.stages[i]), output, name, env.now))),
                            None, None, RequeueNow),
                       pipeline.resourceVersion, env, reply)
    {
      var s := pipeline.stages[i];
      pipeline.stages := pipeline.stages[i := s.(phase := StageCompleted, completedAt := Some(env.now),
                                                 output := TruncateOutput(output), outputRef := name)];
      var ok := api.Update(pipeline, env.writeFault);
      reply := if ok then RequeueNow else Failed;
    }

    method FailStage(pipeline: AgentPipeline, i: nat, message: string, env: Env) returns (reply: Reply)
      requires api.versions != []
      requires i < |pipeline.stages|
      modifies api`versions, pipeline
      ensures Realises(Pass(old(api.outputs),
                            Some(WithStage(old(pipeline.Image()), i,
                                           FailedStage(old(pipeline.stages[i]), message, env.now))),
                            None, None, RequeueNow),
                       pipeline.resourceVersion, env, reply)
    {
      var s := pipeline.stages[i];
      pipeline.stages := pipeline.stages[i := s.(phase := StageFailed, completedAt := Some(env.now), error := message)];
      var ok := api.Update(pipeline, env.writeFault);
      reply := if ok then RequeueNow else Failed;
    }

    method RetryStage(pipeline: AgentPipeline, i: nat, policy: RetryPolicy, env: Env) returns (reply: Reply)
      requires api.versions != []
      requires i < |pipeline.stages|
      modifies api`versions, pipeline
      ensures Realises(Pass(old(api.outputs),
                            Some(WithStage(old(pipeline.Image()), i, RetriedStage(old(pipeline.stages[i])))),
                            None, None, RequeueAfter(Backoff(policy))),
                       pipeline.resourceVersion, env, reply)
    {
      var s := pipeline.stages[i];
      pipeline.stages := pipeline.stages[i := s.(retryCount := Increment32(s.retryCount), phase := StagePending,
                                                 error := "", completedAt := None)];
      var ok := api.Update(pipeline, env.writeFault);
      var backoff := DEFAULT_BACKOFF;
      if policy.backoff.Some? {
        backoff := policy.backoff.value;
      }
      reply := if ok then RequeueAfter(backoff) else Failed;
    }

    method CompletePipeline(pipeline: AgentPipeline, env: Env) returns (reply: Reply)
      requires api.versions != []
      modifies api`versions, pipeline
      ensures Realises(Pass(old(api.outputs), Some(CompletedPipeline(old(pipeline.Image()), env.now)),
                            None, None, Done),
                       pipeline.resourceVersion, env, reply)
    {
      pipeline.phase := PhaseCompleted;
      pipeline.completedAt := Some(env.now);
      pipeline.currentStage := "";
      pipeline.ready := Some(Condition(true, PipelineCompleted));
      var ok := api.Update(pipeline, env.writeFault);
      reply := if ok then Done else Failed;
    }

    method FailPipeline(pipeline: AgentPipeline, reason: ReadyReason, env: Env) returns (reply: Reply)
      requires api.versions != []
      modifies api`versions, pipeline
      ensures Realises(Pass(old(api.outputs), Some(FailedPipeline(old(pipeline.Image()), reason, env.now)),
                            None, None, Done),
                       pipeline.resourceVersion, env, reply)
    {
      pipeline.phase := PhaseFailed;
      pipeline.completedAt := Some(env.now);
      pipeline.ready := Some(Condition(false, reason));
      var ok := api.Update(pipeline, env.writeFault);
      reply := if ok then Done else Failed;
    }
  }
}
