/**
 What a pass writes into the status, field by field: every value a new version holds is the
 one of the version before it, unless what happened in the pass says otherwise.
 */
module Records {
  import opened Wrappers
  import opened PipelineTypes
  import opened StageHandler
  import opened Reconcile
  import opened Protocol
  import opened Legality
  import opened Attempts
  import opened Invariants
  import opened Runs
  import opened Safety

  /** One stage before and after a pass, which may have tried it. */
  ghost predicate StageWritten(s: StageStatus, s': StageStatus, env: Env, tried: bool) {
    if s'.phase == s.phase then !tried && s' == s
    else
      && s'.name == s.name
      && s'.startedAt == (if tried then Some(env.now) else s.startedAt)
      && s'.completedAt == (if s'.phase == StagePending then None else Some(env.now))
      && s'.retryCount == s.retryCount + (if s'.phase == StagePending then 1 else 0)
      && match s'.phase
         case StagePending => s.phase == StageFailed && !tried && s'.error == "" && KeepsResult(s, s')
         case StageFailed => s.phase == StagePending && tried && KeepsResult(s, s')
         case StageCompleted =>
           && s.phase == StagePending && s'.error == s.error
           && (!tried ==> s'.taskID == s.taskID)
           && (tried ==> env.agent.RunCompleted? && s'.taskID == env.agent.taskID)
         case _ => false
  }

  predicate KeepsResult(s: StageStatus, s': StageStatus) {
    s'.output == s.output && s'.outputRef == s.outputRef && s'.taskID == s.taskID
  }

  /** The resource before and after a write by a pass that tried the given stage, or none. */
  ghost predicate Written(p: Pipeline, v: Resource, v': Resource, env: Env, tried: Option<nat>) {
    var a, b := v.status, v'.status;
    var starts := a.stages == [] && b.stages != [];
    && v'.deleting == v.deleting
    && b.completedAt == (if Terminal(b) && !Terminal(a) then Some(env.now) else a.completedAt)
    && b.startedAt == (if starts then Some(env.now) else a.startedAt)
    && (tried.Some? ==> tried.value < |p.spec.stages| && b.currentStage == p.spec.stages[tried.value].name)
    && (starts ==> |b.stages| == |p.spec.stages| && b.currentStage == p.spec.stages[0].name)
    && (b.phase == PhaseCompleted ==> b.currentStage == "")
    && (tried.None? && !starts && b.phase != PhaseCompleted ==> b.currentStage == a.currentStage)
    && (starts ==> forall i :: 0 <= i < |b.stages| ==>
                                 b.stages[i] == StageStatus(p.spec.stages[i].name, StagePending, None, None, 0,
                                                            "", "", "", ""))
    && (!starts ==>
          && |b.stages| == |a.stages|
          && forall i :: 0 <= i < |a.stages| ==> StageWritten(a.stages[i], b.stages[i], env, tried == Some(i)))
  }

  /** Replacing one stage of a running version. */
  lemma StageReplaced(p: Pipeline, v: Resource, v': Resource, env: Env, i: nat, s: StageStatus, tried: bool)
    requires v.status.phase == PhaseRunning && i < |v.status.stages| && i < |p.spec.stages|
    requires StageWritten(v.status.stages[i], s, env, tried)
    requires v'.deleting == v.deleting && v'.status == v.status.(stages := v'.status.stages,
                                                                 currentStage := v'.status.currentStage)
    requires v'.status.stages == v.status.stages[i := s]
    requires v'.status.currentStage == if tried then p.spec.stages[i].name else v.status.currentStage
    ensures Written(p, v, v', env, if tried then Some(i) else None)
  {
  }

  /** Leaving all stages as they are. */
  lemma StagesKept(p: Pipeline, v: Resource, v': Resource, env: Env)
    requires v'.deleting == v.deleting && v'.status.stages == v.status.stages
    requires v'.status.startedAt == v.status.startedAt
    requires v'.status.completedAt ==
             if Terminal(v'.status) && !Terminal(v.status) then Some(env.now) else v.status.completedAt
    requires v'.status.currentStage == if v'.status.phase == PhaseCompleted then "" else v.status.currentStage
    ensures Written(p, v, v', env, None)
  {
  }

  lemma FailureWritten(p: Pipeline, cr: Resource, i: nat, message: string, call: Option<Call>,
                       outputs: map<string, string>, env: Env)
    requires Startable(p, cr, i)
    ensures var pass := FailPass(MarkedRunning(p, cr, i, env.now), i, message, call, outputs, env.now);
            pass.submitted.Some? && Written(p, cr, pass.submitted.value, env, Some(i))
  {
    var v' := FailPass(MarkedRunning(p, cr, i, env.now), i, message, call, outputs, env.now).submitted.value;
    StageReplaced(p, cr, v', env, i, v'.status.stages[i], true);
  }

  lemma CompletionWritten(p: Pipeline, cr: Resource, i: nat, call: Call, outputs: map<string, string>, env: Env)
    requires Startable(p, cr, i) && env.agent.RunCompleted? && env.storeFault == Lands
    ensures var pass := CompletePass(MarkedRunning(p, cr, i, env.now), i, OutName(p, i), call, outputs, env);
            pass.submitted.Some? && Written(p, cr, pass.submitted.value, env, Some(i))
  {
    var v' := CompletePass(MarkedRunning(p, cr, i, env.now), i, OutName(p, i), call, outputs, env).submitted.value;
    StageReplaced(p, cr, v', env, i, v'.status.stages[i], true);
  }

  lemma AttemptWritten(p: Pipeline, cr: Resource, i: nat, outputs: map<string, string>, env: Env)
    requires Startable(p, cr, i)
    ensures var pass := AttemptPass(p, MarkedRunning(p, cr, i, env.now), i, outputs, env);
            pass.attempt == Some(i) && (pass.submitted.Some? ==> Written(p, cr, pass.submitted.value, env, Some(i)))
  {
    match PreparedFor(p, cr, i, outputs, env)
    case Failure(e) => FailureWritten(p, cr, i, e, None, outputs, env);
    case Success(prepared) =>
      var call := CallFor(p, i, prepared, env.agent);
      if !env.agent.RunCompleted? {
        FailureWritten(p, cr, i, FailureMessage(env.agent), Some(call), outputs, env);
      } else if env.storeFault == Lands {
        CompletionWritten(p, cr, i, call, outputs, env);
      }
  }

  lemma RetryWritten(p: Pipeline, cr: Resource, env: Env)
    requires LegalStatus(p, cr.status) && cr.status.phase == PhaseRunning
    requires var c := Cursor(cr.status);
             && c < |cr.status.stages| && cr.status.stages[c].phase == StageFailed
             && cr.status.stages[c].retryCount < EffectiveRetryPolicy(p.spec, p.spec.stages[c]).maxRetries
    ensures var c := Cursor(cr.status);
            Written(p, cr, WithStage(cr, c, RetriedStage(cr.status.stages[c])), env, None)
  {
    var c := Cursor(cr.status);
    var s := RetriedStage(cr.status.stages[c]);
    StageReplaced(p, cr, WithStage(cr, c, s), env, c, s, false);
  }

  lemma RecoveryWritten(p: Pipeline, cr: Resource, i: nat, output: string, env: Env)
    requires Startable(p, cr, i)
    ensures var s := CompletedStage(cr.status.stages[i], output, OutName(p, i), env.now);
            Written(p, cr, WithStage(cr, i, s), env, None)
  {
    var s := CompletedStage(cr.status.stages[i], output, OutName(p, i), env.now);
    StageReplaced(p, cr, WithStage(cr, i, s), env, i, s, false);
  }

  lemma StartWritten(p: Pipeline, cr: Resource, i: nat, outputs: map<string, string>, env: Env)
    requires Startable(p, cr, i)
    ensures var pass := StartPass(p, cr, i, outputs, env);
            pass.submitted.Some? ==> Written(p, cr, pass.submitted.value, env, pass.attempt)
  {
    if !env.guardReadFails && OutName(p, i) in outputs {
      RecoveryWritten(p, cr, i, outputs[OutName(p, i)], env);
    } else {
      AttemptWritten(p, cr, i, outputs, env);
    }
  }

  lemma RunningWritten(p: Pipeline, cr: Resource, outputs: map<string, string>, env: Env)
    requires LegalStatus(p, cr.status) && cr.status.phase == PhaseRunning
    ensures var pass := RunningPass(p, cr, outputs, env);
            pass.submitted.Some? ==> Written(p, cr, pass.submitted.value, env, pass.attempt)
  {
    var c := Cursor(cr.status);
    if c == |cr.status.stages| {
      StagesKept(p, cr, CompletedPipeline(cr, env.now), env);
    } else {
      var s := cr.status.stages[c];
      if s.phase == StagePending {
        StartWritten(p, cr, c, outputs, env);
      } else if s.retryCount < EffectiveRetryPolicy(p.spec, p.spec.stages[c]).maxRetries {
        RetryWritten(p, cr, env);
      } else {
        var reason := StageExhausted(p.spec.stages[c].name, s.retryCount, s.error);
        StagesKept(p, cr, FailedPipeline(cr, reason, env.now), env);
      }
    }
  }

  lemma PassWritten(p: Pipeline, cr: Resource, outputs: map<string, string>, env: Env)
    requires LegalStatus(p, cr.status)
    ensures var pass := ReconcilePass(p, cr, outputs, env);
            pass.submitted.Some? ==> Written(p, cr, pass.submitted.value, env, pass.attempt)
  {
    if !cr.deleting && cr.status.phase == PhaseRunning {
      RunningWritten(p, cr, outputs, env);
    }
  }

  /** Every version a pass of any run persists is written as described, over the version before it. */
  lemma PersistedFields(p: Pipeline, outputs: map<string, string>, choices: seq<Choice>, staleness: nat, env: Env)
    returns (tried: Option<nat>)
    requires var w := End(p, outputs, choices); |Step(p, w, Reconciles(staleness, env)).versions| > |w.versions|
    ensures var w := End(p, outputs, choices);
            var w' := Step(p, w, Reconciles(staleness, env));
            && w'.attempts == Bump(w.attempts, tried)
            && w'.versions == w.versions + [Current(w')]
            && Written(p, Current(w), Current(w'), env, tried)
  {
    var w := End(p, outputs, choices);
    EndLawful(p, outputs, choices);
    var pass := ReconcilePass(p, Current(w), w.outputs, env);
    PassWritten(p, Current(w), w.outputs, env);
    StepByPass(p, w, staleness, env, ReconcilePass(p, w.versions[ReadVersion(w, staleness)], w.outputs, env));
    tried := pass.attempt;
  }

  // The error a failed stage carries.

  /** Stage j is the first before stage i whose output cannot be read. */
  ghost predicate FirstUnreadable(p: Pipeline, readable: map<string, string>, i: nat, j: nat)
    requires i <= |p.spec.stages|
  {
    j < i && OutName(p, j) !in readable && StoredBefore(p, readable, j)
  }

  /** The error of a try that got as far as its agent. */
  predicate IsOutcomeError(outcome: AgentOutcome, error: string) {
    match outcome
    case InvocationError(m) => error == "invoking agent: " + m
    case RunCompleted(_, _) => false
    case RunFailed(m) => error == m
    case RunTimedOut => error == "agent execution timed out"
    case RunUnexpected(s) => error == "unexpected run status: " + s
  }

  function UnreadableText(p: Pipeline, j: nat): string
    requires j < |p.spec.stages|
  {
    "reading output for stage " + p.spec.stages[j].name
  }

  /** The error of a try of stage i that did not: the first output it could not read, or its template. */
  ghost predicate IsPreparationError(p: Pipeline, readable: map<string, string>, i: nat, error: string)
    requires i < |p.spec.stages|
  {
    || (exists j: nat :: FirstUnreadable(p, readable, i, j)
                         && error == "building pipeline context: " + UnreadableText(p, j))
    || (StoredBefore(p, readable, i)
        && error == "rendering prompt: " + ("prompt template for stage " + p.spec.stages[i].name))
  }

  lemma {:induction false} ContextError(p: Pipeline, stages: seq<StageStatus>, readable: map<string, string>,
                                        current: StageSpec, c: nat, k: nat)
    requires k <= c <= |p.spec.stages| && c <= |stages| && forall i :: 0 <= i < c ==> StageDone(p, i, stages[i])
    ensures match ContextUpTo(p, stages, readable, current, k)
            case Success(_) => StoredBefore(p, readable, k)
            case Failure(e) =>
              exists j: nat :: FirstUnreadable(p, readable, k, j) && e == UnreadableText(p, j)
  {
    if k > 0 {
      ContextError(p, stages, readable, current, c, k - 1);
      assert StageDone(p, k - 1, stages[k - 1]);
      match ContextUpTo(p, stages, readable, current, k - 1) {
        case Failure(e) =>
          var j: nat :| FirstUnreadable(p, readable, k - 1, j) && e == UnreadableText(p, j);
          assert FirstUnreadable(p, readable, k, j);
        case Success(_) =>
          if OutName(p, k - 1) !in readable {
            assert FirstUnreadable(p, readable, k, k - 1);
          }
      }
    }
  }

  lemma PrepareError(p: Pipeline, stages: seq<StageStatus>, c: nat, readable: map<string, string>)
    requires c < |p.spec.stages| == |stages| && forall i :: 0 <= i < c ==> StageDone(p, i, stages[i])
    requires forall i :: c <= i < |stages| ==> stages[i].phase != StageCompleted
    requires Prepare(p, stages, c, readable).Failure?
    ensures IsPreparationError(p, readable, c, Prepare(p, stages, c, readable).error)
  {
    ContextError(p, stages, readable, p.spec.stages[c], c, c);
    ContextRest(p, stages, readable, p.spec.stages[c], c, |stages|);
  }

  lemma PreparationError(p: Pipeline, cr: Resource, outputs: map<string, string>, env: Env)
    requires Startable(p, cr, Cursor(cr.status)) && PreparedFor(p, cr, Cursor(cr.status), outputs, env).Failure?
    ensures var c := Cursor(cr.status);
            IsPreparationError(p, outputs - env.unreadable, c, PreparedFor(p, cr, c, outputs, env).error)
  {
    var c := Cursor(cr.status);
    var stages := MarkedRunning(p, cr, c, env.now).status.stages;
    forall i | 0 <= i < c
      ensures StageDone(p, i, stages[i])
    {
      assert stages[i] == cr.status.stages[i];
    }
    PrepareError(p, stages, c, outputs - env.unreadable);
  }

  /** The error of stage i in the version a pass submits as failed. */
  ghost predicate Blames(p: Pipeline, i: nat, outputs: map<string, string>, env: Env, pass: Pass)
    requires i < |p.spec.stages|
  {
    pass.submitted.Some? && i < |pass.submitted.value.status.stages| &&
    pass.submitted.value.status.stages[i].phase == StageFailed ==>
      var error := pass.submitted.value.status.stages[i].error;
      if pass.call.Some? then IsOutcomeError(env.agent, error)
      else IsPreparationError(p, outputs - env.unreadable, i, error)
  }

  lemma OutcomeBlames(p: Pipeline, marked: Resource, i: nat, call: Call, outputs: map<string, string>, env: Env)
    requires i < |marked.status.stages| && i < |p.spec.stages|
    ensures Blames(p, i, outputs, env, OutcomePass(marked, i, OutName(p, i), call, outputs, env))
  {
  }

  /** A failed try and the error it records. */
  lemma AttemptBlames(p: Pipeline, cr: Resource, outputs: map<string, string>, env: Env)
    requires Startable(p, cr, Cursor(cr.status))
    ensures var c := Cursor(cr.status);
            Blames(p, c, outputs, env, AttemptPass(p, MarkedRunning(p, cr, c, env.now), c, outputs, env))
  {
    var c := Cursor(cr.status);
    match PreparedFor(p, cr, c, outputs, env)
    case Failure(e) => PreparationError(p, cr, outputs, env);
    case Success(prepared) =>
      OutcomeBlames(p, MarkedRunning(p, cr, c, env.now), c, CallFor(p, c, prepared, env.agent), outputs, env);
  }

  /** In any run: the error with which a pass persists stage i as failed says what happened in that pass. */
  lemma RecordedError(p: Pipeline, outputs: map<string, string>, choices: seq<Choice>, staleness: nat, env: Env, i: nat)
    requires var w := End(p, outputs, choices);
             var w' := Step(p, w, Reconciles(staleness, env));
             && |w'.versions| > |w.versions|
             && i < |Current(w').status.stages| && i < |Current(w).status.stages|
             && Current(w').status.stages[i].phase == StageFailed != Current(w).status.stages[i].phase
    ensures var w := End(p, outputs, choices);
            var w' := Step(p, w, Reconciles(staleness, env));
            var error := Current(w').status.stages[i].error;
            && i < |p.spec.stages|
            && if |w'.calls| > |w.calls| then IsOutcomeError(env.agent, error)
               else IsPreparationError(p, w.outputs - env.unreadable, i, error)
  {
    EndLawful(p, outputs, choices);
    RecordedErrorIn(p, End(p, outputs, choices), staleness, env, i);
  }

  lemma RecordedErrorIn(p: Pipeline, w: World, staleness: nat, env: Env, i: nat)
    requires Lawful(p, w)
    requires var w' := Step(p, w, Reconciles(staleness, env));
             && |w'.versions| > |w.versions|
             && i < |Current(w').status.stages| && i < |Current(w).status.stages|
             && Current(w').status.stages[i].phase == StageFailed != Current(w).status.stages[i].phase
    ensures var w' := Step(p, w, Reconciles(staleness, env));
            var error := Current(w').status.stages[i].error;
            && i < |p.spec.stages|
            && if |w'.calls| > |w.calls| then IsOutcomeError(env.agent, error)
               else IsPreparationError(p, w.outputs - env.unreadable, i, error)
  {
    var cr := Current(w);
    var pass := ReconcilePass(p, cr, w.outputs, env);
    StepByPass(p, w, staleness, env, ReconcilePass(p, w.versions[ReadVersion(w, staleness)], w.outputs, env));
    PassWritten(p, cr, w.outputs, env);
    PassSummarised(p, cr, w.outputs, env);
    AttemptIff(p, cr, w.outputs, env);
    assert LegalStatus(p, cr.status);
    assert pass.attempt.Some? && i == Cursor(cr.status);
    AttemptBlames(p, cr, w.outputs, env);
  }
}
