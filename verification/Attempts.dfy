/**
 The accounting of one pass: when it begins an attempt, which output it stores, which
 call it makes, and how the retry counters move.
 */
module Attempts {
  import opened Wrappers
  import opened PipelineTypes
  import opened StageHandler
  import opened Reconcile
  import opened Protocol
  import opened Legality

  /** Everything a pass checks before it executes a stage; `DependenciesMet` is over the snapshot. */
  predicate BeginsAttempt(p: Pipeline, cr: Resource, outputs: map<string, string>, env: Env)
    requires LegalStatus(p, cr.status)
  {
    && !cr.deleting
    && cr.status.phase == PhaseRunning
    && var c := Cursor(cr.status);
    && c < |cr.status.stages|
    && cr.status.stages[c].phase == StagePending
    && DependenciesMet(cr.status.stages, p.spec.stages[c].dependsOn)
    && (env.guardReadFails || OutName(p, c) !in outputs)
  }

  /** What the agent of stage i would be invoked with, unless preparing it fails. */
  function PreparedFor(p: Pipeline, cr: Resource, i: nat, outputs: map<string, string>, env: Env): Result<Prepared>
    requires i < |cr.status.stages| && i < |p.spec.stages|
  {
    Prepare(p, MarkedRunning(p, cr, i, env.now).status.stages, i, outputs - env.unreadable)
  }

  predicate Completes(p: Pipeline, cr: Resource, i: nat, outputs: map<string, string>, env: Env)
    requires i < |cr.status.stages| && i < |p.spec.stages|
  {
    PreparedFor(p, cr, i, outputs, env).Success? && env.agent.RunCompleted?
  }

  /** What the attempted stage looks like in the version submitted by its attempt. */
  ghost predicate Concluded(p: Pipeline, cr: Resource, i: nat, completes: bool, output: string, st: PipelineStatus)
    requires i < |cr.status.stages| && i < |p.spec.stages|
  {
    && |st.stages| == |cr.status.stages|
    && st.stages == cr.status.stages[i := st.stages[i]]
    && st.stages[i].retryCount == cr.status.stages[i].retryCount
    && st.phase == PhaseRunning
    && Cursor(st) == (if completes then i + 1 else i)
    && if completes then StageDone(p, i, st.stages[i]) && st.stages[i].output == TruncateOutput(output)
       else StageActive(p, i, st.stages[i]) && st.stages[i].phase == StageFailed
  }

  lemma FailConcluded(p: Pipeline, cr: Resource, i: nat, message: string, call: Option<Call>,
                      outputs: map<string, string>, now: nat)
    requires Startable(p, cr, i)
    ensures var pass := FailPass(MarkedRunning(p, cr, i, now), i, message, call, outputs, now);
            pass.submitted.Some? && Concluded(p, cr, i, false, "", pass.submitted.value.status)
  {
    FailMoves(p, cr, i, message, call, outputs, now);
    var st := FailPass(MarkedRunning(p, cr, i, now), i, message, call, outputs, now).submitted.value.status;
    ShapeAfterUpdate(p, cr.status.stages, st.stages[i]);
  }

  lemma CompleteConcluded(p: Pipeline, cr: Resource, i: nat, call: Call, outputs: map<string, string>, env: Env)
    requires Startable(p, cr, i) && env.agent.RunCompleted?
    ensures var pass := CompletePass(MarkedRunning(p, cr, i, env.now), i, OutName(p, i), call, outputs, env);
            && (pass.submitted.Some? <==> env.storeFault == Lands)
            && (pass.submitted.Some? ==> Concluded(p, cr, i, true, env.agent.output, pass.submitted.value.status))
  {
    CompleteMoves(p, cr, i, call, outputs, env);
    if env.storeFault == Lands {
      var pass := CompletePass(MarkedRunning(p, cr, i, env.now), i, OutName(p, i), call, outputs, env);
      ShapeAfterCompletion(p, cr.status.stages, pass.submitted.value.status.stages[i]);
    }
  }

  /** The ways an attempt can go: completed, its output kept or not, or failed. */
  lemma AttemptEffects(p: Pipeline, cr: Resource, i: nat, outputs: map<string, string>, env: Env)
    requires Startable(p, cr, i)
    ensures var pass := AttemptPass(p, MarkedRunning(p, cr, i, env.now), i, outputs, env);
            var prepared := PreparedFor(p, cr, i, outputs, env);
            var completes := Completes(p, cr, i, outputs, env);
            var output := if completes then env.agent.output else "";
            && pass.attempt == Some(i)
            && pass.call == (if prepared.Success? then Some(CallFor(p, i, prepared.value, env.agent)) else None)
            && pass.outputs == (if completes && env.storeFault != Lost then outputs[OutName(p, i) := output]
                                else outputs)
            && (pass.submitted.None? <==> completes && env.storeFault != Lands)
            && (pass.submitted.Some? ==> Concluded(p, cr, i, completes, output, pass.submitted.value.status))
  {
    match PreparedFor(p, cr, i, outputs, env)
    case Failure(e) => FailConcluded(p, cr, i, e, None, outputs, env.now);
    case Success(prepared) =>
      var call := CallFor(p, i, prepared, env.agent);
      if env.agent.RunCompleted? {
        CompleteConcluded(p, cr, i, call, outputs, env);
      } else {
        FailConcluded(p, cr, i, FailureMessage(env.agent), Some(call), outputs, env.now);
      }
  }

  /** Exactly when a pass begins an attempt; without one it neither stores nor calls anything. */
  lemma AttemptIff(p: Pipeline, cr: Resource, outputs: map<string, string>, env: Env)
    requires LegalStatus(p, cr.status)
    ensures var pass := ReconcilePass(p, cr, outputs, env);
            && (pass.attempt.Some? <==> BeginsAttempt(p, cr, outputs, env))
            && (pass.attempt.Some? ==>
                  var c := Cursor(cr.status);
                  Startable(p, cr, c) && pass == AttemptPass(p, MarkedRunning(p, cr, c, env.now), c, outputs, env))
            && (pass.attempt.None? ==> pass.outputs == outputs && pass.call.None?)
  {
    if BeginsAttempt(p, cr, outputs, env) {
      AttemptEffects(p, cr, Cursor(cr.status), outputs, env);
    }
  }

  /** Failures of stage i on record in a status: one per retry, and the one it may be failed with now. */
  function FailuresOf(st: PipelineStatus, i: nat): int {
    if i < |st.stages| then st.stages[i].retryCount + (if st.stages[i].phase == StageFailed then 1 else 0) else 0
  }

  /**
   A version submitted without an attempt keeps the failures on record and completes a stage
   only from its stored output.
   */
  ghost predicate KeepsRecords(p: Pipeline, a: PipelineStatus, outputs: map<string, string>, b: PipelineStatus) {
    forall i :: 0 <= i < |p.spec.stages| ==>
                  && FailuresOf(b, i) == FailuresOf(a, i)
                  && (i < |b.stages| && b.stages[i].phase == StageFailed ==>
                        i < |a.stages| && a.stages[i].phase == StageFailed)
                  && (Cursor(a) <= i < Cursor(b) ==>
                        && OutName(p, i) in outputs
                        && b.stages[i].output == TruncateOutput(outputs[OutName(p, i)]))
  }

  lemma RecoveryKeepsRecords(p: Pipeline, cr: Resource, i: nat, outputs: map<string, string>, now: nat)
    requires Startable(p, cr, i) && OutName(p, i) in outputs
    ensures var s := CompletedStage(cr.status.stages[i], outputs[OutName(p, i)], OutName(p, i), now);
            KeepsRecords(p, cr.status, outputs, WithStage(cr, i, s).status)
  {
    var s := CompletedStage(cr.status.stages[i], outputs[OutName(p, i)], OutName(p, i), now);
    ShapeAfterCompletion(p, cr.status.stages, s);
  }

  lemma RetryKeepsRecords(p: Pipeline, cr: Resource, outputs: map<string, string>)
    requires LegalStatus(p, cr.status) && cr.status.phase == PhaseRunning
    requires var c := Cursor(cr.status);
             && c < |cr.status.stages| && cr.status.stages[c].phase == StageFailed
             && cr.status.stages[c].retryCount < EffectiveRetryPolicy(p.spec, p.spec.stages[c]).maxRetries
    ensures var c := Cursor(cr.status);
            KeepsRecords(p, cr.status, outputs, WithStage(cr, c, RetriedStage(cr.status.stages[c])).status)
  {
    ShapeAfterUpdate(p, cr.status.stages, RetriedStage(cr.status.stages[Cursor(cr.status)]));
  }

  lemma RunningKeepsRecords(p: Pipeline, cr: Resource, outputs: map<string, string>, env: Env)
    requires LegalStatus(p, cr.status) && cr.status.phase == PhaseRunning
    requires RunningPass(p, cr, outputs, env).attempt.None? && RunningPass(p, cr, outputs, env).submitted.Some?
    ensures KeepsRecords(p, cr.status, outputs, RunningPass(p, cr, outputs, env).submitted.value.status)
  {
    var c := Cursor(cr.status);
    if c < |cr.status.stages| && cr.status.stages[c].phase == StagePending {
      if !env.guardReadFails && OutName(p, c) in outputs {
        RecoveryKeepsRecords(p, cr, c, outputs, env.now);
      } else {
        AttemptEffects(p, cr, c, outputs, env);
      }
    } else if c < |cr.status.stages| &&
              cr.status.stages[c].retryCount < EffectiveRetryPolicy(p.spec, p.spec.stages[c]).maxRetries {
      RetryKeepsRecords(p, cr, outputs);
    }
  }

  lemma PassKeepsRecords(p: Pipeline, cr: Resource, outputs: map<string, string>, env: Env)
    requires LegalStatus(p, cr.status)
    requires ReconcilePass(p, cr, outputs, env).attempt.None? && ReconcilePass(p, cr, outputs, env).submitted.Some?
    ensures KeepsRecords(p, cr.status, outputs, ReconcilePass(p, cr, outputs, env).submitted.value.status)
  {
    if !cr.deleting {
      match cr.status.phase
      case PhaseRunning => RunningKeepsRecords(p, cr, outputs, env);
      case _ => ShapeAtStart(p);
    }
  }

  /** Everything later arguments use about a pass from a legal snapshot. */
  ghost predicate PassSummary(p: Pipeline, cr: Resource, outputs: map<string, string>, env: Env, pass: Pass)
    requires LegalStatus(p, cr.status)
  {
    && LegalMove(p, cr.status, pass.submitted)
    && (pass.attempt.Some? <==> BeginsAttempt(p, cr, outputs, env))
    && match pass.attempt
       case None =>
         && pass.outputs == outputs && pass.call.None?
         && (pass.submitted.Some? ==> KeepsRecords(p, cr.status, outputs, pass.submitted.value.status))
       case Some(i) => AttemptSummary(p, cr, i, outputs, env, pass)
  }

  ghost predicate AttemptSummary(p: Pipeline, cr: Resource, i: nat, outputs: map<string, string>, env: Env, pass: Pass)
    requires LegalStatus(p, cr.status)
  {
    var completes := pass.call.Some? && env.agent.RunCompleted?;
    var output := if completes then env.agent.output else "";
    && Startable(p, cr, i)
    && pass.outputs == (if completes && env.storeFault != Lost then outputs[OutName(p, i) := output] else outputs)
    && (pass.submitted.None? <==> completes && env.storeFault != Lands)
    && (pass.submitted.Some? ==> Concluded(p, cr, i, completes, output, pass.submitted.value.status))
  }

  lemma AttemptSummarised(p: Pipeline, cr: Resource, i: nat, outputs: map<string, string>, env: Env)
    requires Startable(p, cr, i)
    ensures AttemptSummary(p, cr, i, outputs, env, AttemptPass(p, MarkedRunning(p, cr, i, env.now), i, outputs, env))
  {
    AttemptEffects(p, cr, i, outputs, env);
  }

  lemma PassSummarised(p: Pipeline, cr: Resource, outputs: map<string, string>, env: Env)
    requires LegalStatus(p, cr.status)
    ensures PassSummary(p, cr, outputs, env, ReconcilePass(p, cr, outputs, env))
  {
    var pass := ReconcilePass(p, cr, outputs, env);
    assert LegalMove(p, cr.status, pass.submitted) by {
      PassMoves(p, cr, outputs, env);
    }
    AttemptIff(p, cr, outputs, env);
    if pass.attempt.Some? {
      var c := Cursor(cr.status);
      AttemptSummarised(p, cr, c, outputs, env);
      assert pass.attempt == Some(c) by {
        AttemptEffects(p, cr, c, outputs, env);
      }
    } else if pass.submitted.Some? {
      PassKeepsRecords(p, cr, outputs, env);
    }
  }

  /** The call an attempt makes is the one its preparation asks for. */
  lemma CallOfAttempt(p: Pipeline, cr: Resource, outputs: map<string, string>, env: Env)
    requires LegalStatus(p, cr.status) && ReconcilePass(p, cr, outputs, env).call.Some?
    ensures var call := ReconcilePass(p, cr, outputs, env).call.value;
            var c := Cursor(cr.status);
            && Startable(p, cr, c) && PreparedFor(p, cr, c, outputs, env).Success?
            && call == CallFor(p, c, PreparedFor(p, cr, c, outputs, env).value, env.agent)
  {
    AttemptIff(p, cr, outputs, env);
    AttemptEffects(p, cr, Cursor(cr.status), outputs, env);
  }
}
