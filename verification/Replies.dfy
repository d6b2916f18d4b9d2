/**
 The replies to the work queue, exactly. Together the laws determine the reply of every pass
 of every run from what was fetched, what the version read says and how the writes went: it is
 `Done`, a delay, or `Failed` exactly as stated, and an immediate requeue in all other cases.
 */
module Replies {
  import opened Wrappers
  import opened PipelineTypes
  import opened StageHandler
  import opened Reconcile
  import opened Protocol
  import opened Legality
  import opened Attempts
  import opened Invariants
  import opened Runs
  import opened Safety

  /** A version with nothing left to do. */
  predicate Over(cr: Resource) {
    !cr.deleting && Terminal(cr.status)
  }

  /** A deleted version that no longer holds back its deletion. */
  predicate Released(cr: Resource) {
    cr.deleting && !cr.finalizer
  }

  /** A running version with a current stage. */
  predicate AtWork(p: Pipeline, cr: Resource) {
    && !cr.deleting && cr.status.phase == PhaseRunning
    && Cursor(cr.status) < |cr.status.stages| && Cursor(cr.status) < |p.spec.stages|
  }

  /** The current stage waits for one that does not come before it. */
  predicate Waits(p: Pipeline, cr: Resource) {
    AtWork(p, cr) && !DependsOnEarlier(p, Cursor(cr.status))
  }

  /** The current stage has failed and has tries left. */
  predicate Retries(p: Pipeline, cr: Resource) {
    && AtWork(p, cr) && DependsOnEarlier(p, Cursor(cr.status))
    && var s := cr.status.stages[Cursor(cr.status)];
       s.phase == StageFailed && s.retryCount < Limit(p, Cursor(cr.status))
  }

  /** The delay before a retry of stage i: the backoff of its own policy, or else of the pipeline's, by default 30. */
  predicate IsRetryDelay(p: Pipeline, i: nat, delay: nat)
    requires i < |p.spec.stages|
  {
    var own := p.spec.stages[i].retryPolicy;
    var policy := if own.Some? then own else p.spec.retryPolicy;
    policy.Some? && delay == if policy.value.backoff.Some? then policy.value.backoff.value else 30
  }

  predicate IsDelay(p: Pipeline, cr: Resource, delay: nat) {
    (Waits(p, cr) && delay == 10) || (Retries(p, cr) && IsRetryDelay(p, Cursor(cr.status), delay))
  }

  /** The agent has answered and the answer could not be stored, or not for sure. */
  predicate Unstored(called: bool, env: Env) {
    called && env.agent.RunCompleted? && env.storeFault != Lands
  }

  /** What a pass submits and replies, provided that its write succeeds. */
  ghost predicate Answers(p: Pipeline, cr: Resource, env: Env, pass: Pass) {
    && (pass.submitted.None? <==> Over(cr) || Released(cr) || Waits(p, cr) || Unstored(pass.call.Some?, env))
    && (pass.reply == Done <==> Over(cr) || cr.deleting ||
                                (pass.submitted.Some? && Terminal(pass.submitted.value.status)))
    && (pass.reply == Failed <==> Unstored(pass.call.Some?, env))
    && (forall d :: pass.reply == RequeueAfter(d) <==> IsDelay(p, cr, d))
    && (pass.call.Some? ==> AtWork(p, cr) && !Waits(p, cr) && !Retries(p, cr))
    && pass.reply != Panicked
  }

  /** What any pass that starts a stage submits and replies. */
  ghost predicate StartsWell(env: Env, pass: Pass) {
    && (pass.submitted.None? <==> Unstored(pass.call.Some?, env))
    && (pass.submitted.Some? ==> pass.reply == RequeueNow && pass.submitted.value.status.phase == PhaseRunning)
    && (pass.submitted.None? ==> pass.reply == Failed)
  }

  lemma AttemptAnswers(p: Pipeline, marked: Resource, i: nat, outputs: map<string, string>, env: Env)
    requires i < |marked.status.stages| && i < |p.spec.stages| && marked.status.phase == PhaseRunning
    ensures StartsWell(env, AttemptPass(p, marked, i, outputs, env))
  {
  }

  lemma StartAnswers(p: Pipeline, cr: Resource, outputs: map<string, string>, env: Env)
    requires Startable(p, cr, Cursor(cr.status))
    ensures StartsWell(env, StartPass(p, cr, Cursor(cr.status), outputs, env))
  {
    AttemptAnswers(p, MarkedRunning(p, cr, Cursor(cr.status), env.now), Cursor(cr.status), outputs, env);
  }

  lemma RunningAnswers(p: Pipeline, cr: Resource, outputs: map<string, string>, env: Env)
    requires LegalStatus(p, cr.status) && !cr.deleting && cr.status.phase == PhaseRunning
    ensures Answers(p, cr, env, RunningPass(p, cr, outputs, env))
  {
    var c := Cursor(cr.status);
    if c < |cr.status.stages| {
      MetIffEarlier(p, cr.status);
      if cr.status.stages[c].phase == StagePending {
        StartAnswers(p, cr, outputs, env);
      } else {
        RetryDelayIs(p, c);
      }
    }
  }

  lemma RetryDelayIs(p: Pipeline, i: nat)
    requires i < |p.spec.stages|
    ensures Limit(p, i) > 0 ==>
              forall d :: IsRetryDelay(p, i, d) <==> d == Backoff(EffectiveRetryPolicy(p.spec, p.spec.stages[i]))
  {
  }

  lemma PassAnswers(p: Pipeline, cr: Resource, outputs: map<string, string>, env: Env)
    requires LegalStatus(p, cr.status)
    ensures Answers(p, cr, env, ReconcilePass(p, cr, outputs, env))
  {
    if !cr.deleting && cr.status.phase == PhaseRunning {
      RunningAnswers(p, cr, outputs, env);
    }
  }

  /** A stage that somebody else left marked as running, which no run does, is waited for and left alone. */
  lemma MarkedRunningWaits(p: Pipeline, cr: Resource, outputs: map<string, string>, env: Env)
    requires AtWork(p, cr) && cr.status.stages[Cursor(cr.status)].phase == StageRunning
    ensures ReconcilePass(p, cr, outputs, env) == Pass(outputs, None, None, None, RequeueAfter(10))
  {
  }

  /** The write of a pass, if it makes one, takes effect and is acknowledged. */
  predicate Acknowledged(w: World, staleness: nat, env: Env)
    requires w.versions != []
  {
    ReadVersion(w, staleness) == Latest(w) && env.writeFault == Lands
  }

  lemma ReplyOfFound(p: Pipeline, w: World, staleness: nat, env: Env) returns (cr: Resource, pass: Pass)
    requires Lawful(p, w) && env.fetch == Found
    ensures cr == w.versions[ReadVersion(w, staleness)] && Answers(p, cr, env, pass)
    ensures StepReply(p, w, staleness, env) ==
            if pass.submitted.None? || Acknowledged(w, staleness, env) then pass.reply else Failed
    ensures var w' := Step(p, w, Reconciles(staleness, env));
            && (|w'.calls| > |w.calls| <==> pass.call.Some?)
            && (|w'.versions| > |w.versions| <==>
                  pass.submitted.Some? && ReadVersion(w, staleness) == Latest(w) && env.writeFault != Lost)
            && (|w'.versions| > |w.versions| ==> Current(w') == pass.submitted.value)
  {
    cr := w.versions[ReadVersion(w, staleness)];
    pass := ReconcilePass(p, cr, w.outputs, env);
    PassAnswers(p, cr, w.outputs, env);
    StepByPass(p, w, staleness, env, pass);
  }

  /**
   A pass asks for no further pass if and only if it found no resource, or read a pipeline that
   is over, or was told that a terminal status has been persisted, or read a deleted pipeline
   that is released or was told that it is now.
   */
  lemma DoneIff(p: Pipeline, outputs: map<string, string>, choices: seq<Choice>, staleness: nat, env: Env)
    ensures var w := End(p, outputs, choices);
            var cr := w.versions[ReadVersion(w, staleness)];
            var w' := Step(p, w, Reconciles(staleness, env));
            StepReply(p, w, staleness, env) == Done <==>
            || env.fetch == NotFound
            || (env.fetch == Found && Over(cr))
            || (env.fetch == Found && !cr.deleting && |w'.versions| > |w.versions|
                && Terminal(Current(w').status) && env.writeFault == Lands)
            || (env.fetch == Found && cr.deleting && (!cr.finalizer || Acknowledged(w, staleness, env)))
  {
    EndLawful(p, outputs, choices);
    if env.fetch == Found {
      var cr, pass := ReplyOfFound(p, End(p, outputs, choices), staleness, env);
    }
  }

  /** A pass asks for a delay if and only if a stage waits, for 10, or a retry has been recorded, for its backoff. */
  lemma DelayIff(p: Pipeline, outputs: map<string, string>, choices: seq<Choice>, staleness: nat, env: Env, delay: nat)
    ensures var w := End(p, outputs, choices);
            var cr := w.versions[ReadVersion(w, staleness)];
            StepReply(p, w, staleness, env) == RequeueAfter(delay) <==>
            && env.fetch == Found
            && (|| (Waits(p, cr) && delay == 10)
                || (Retries(p, cr) && Acknowledged(w, staleness, env) && IsRetryDelay(p, Cursor(cr.status), delay)))
  {
    EndLawful(p, outputs, choices);
    if env.fetch == Found {
      var cr, pass := ReplyOfFound(p, End(p, outputs, choices), staleness, env);
    }
  }

  /**
   A pass reports an error, and is so repeated, if and only if the fetch failed, or it had
   something to write and was not told that it was written, be it status, finalizer or output.
   */
  lemma FailedIff(p: Pipeline, outputs: map<string, string>, choices: seq<Choice>, staleness: nat, env: Env)
    ensures var w := End(p, outputs, choices);
            var cr := w.versions[ReadVersion(w, staleness)];
            var w' := Step(p, w, Reconciles(staleness, env));
            StepReply(p, w, staleness, env) == Failed <==>
            || env.fetch == FetchFails
            || (&& env.fetch == Found && !Over(cr) && !Released(cr) && !Waits(p, cr)
                && (!Acknowledged(w, staleness, env) || Unstored(|w'.calls| > |w.calls|, env)))
    ensures StepReply(p, End(p, outputs, choices), staleness, env) != Panicked
  {
    EndLawful(p, outputs, choices);
    if env.fetch == Found {
      var cr, pass := ReplyOfFound(p, End(p, outputs, choices), staleness, env);
    }
  }
}
