/**
 The statuses a pipeline may legally persist: completed stages, then at most one stage
 in progress, then stages nobody has touched. Every pass that starts from a legal
 status submits a legal status that goes further.
 */
module Legality {
  import opened Wrappers
  import opened PipelineTypes
  import opened StageHandler
  import opened Reconcile
  import opened Protocol

  /** How often stage i may be retried; a negative limit behaves like zero. */
  function Limit(p: Pipeline, i: nat): nat
    requires i < |p.spec.stages|
  {
    var max := EffectiveRetryPolicy(p.spec, p.spec.stages[i]).maxRetries;
    if max < 0 then 0 else max
  }

  predicate StageDone(p: Pipeline, i: nat, s: StageStatus)
    requires i < |p.spec.stages|
  {
    && s.name == p.spec.stages[i].name
    && s.phase == StageCompleted
    && s.completedAt.Some?
    && s.error == ""
    && s.outputRef == OutName(p, i)
    && 0 <= s.retryCount <= Limit(p, i)
  }

  predicate StageActive(p: Pipeline, i: nat, s: StageStatus)
    requires i < |p.spec.stages|
  {
    && s.name == p.spec.stages[i].name
    && s.output == "" && s.outputRef == ""
    && 0 <= s.retryCount <= Limit(p, i)
    && (|| (s.phase == StagePending && s.completedAt.None? && s.error == "")
        || (s.phase == StageFailed && s.completedAt.Some? && s.startedAt.Some?))
  }

  function Cursor(st: PipelineStatus): (c: nat)
    ensures c <= |st.stages|
  {
    FirstOpen(st.stages)
  }

  predicate Shape(p: Pipeline, stages: seq<StageStatus>) {
    var c := FirstOpen(stages);
    && |stages| == |p.spec.stages|
    && (forall i :: 0 <= i < c ==> StageDone(p, i, stages[i]))
    && (c < |stages| ==> StageActive(p, c, stages[c]))
    && (forall i :: c < i < |stages| ==> stages[i] == FreshStage(p.spec.stages[i].name))
  }

  predicate Exhausted(p: Pipeline, stages: seq<StageStatus>) {
    var c := FirstOpen(stages);
    c < |stages| && c < |p.spec.stages| && stages[c].phase == StageFailed && stages[c].retryCount == Limit(p, c)
  }

  predicate Terminal(st: PipelineStatus) {
    st.phase == PhaseCompleted || st.phase == PhaseFailed
  }

  function NamesUpTo(p: Pipeline, c: nat): set<string> {
    set j | 0 <= j <= c && j < |p.spec.stages| :: p.spec.stages[j].name
  }

  /** The stage reported as current has been reached, and it is the failed one if there is one. */
  predicate CurrentNamed(p: Pipeline, st: PipelineStatus) {
    var c := Cursor(st);
    && st.currentStage in NamesUpTo(p, c)
    && (c < |st.stages| && c < |p.spec.stages| && st.stages[c].phase == StageFailed ==>
          st.currentStage == p.spec.stages[c].name)
  }

  predicate NotStarted(st: PipelineStatus) {
    st.stages == [] && st.startedAt.None? && st.currentStage == ""
  }

  predicate LegalStatus(p: Pipeline, st: PipelineStatus) {
    match st.phase
    case PhaseUnset => NotStarted(st) && st.ready.None? && st.completedAt.None?
    case PhasePending => NotStarted(st) && st.ready.None? && st.completedAt.None?
    case PhaseRunning =>
      && st.stages != [] && Shape(p, st.stages) && st.startedAt.Some? && CurrentNamed(p, st)
      && st.ready == Some(Condition(false, PipelineStarted)) && st.completedAt.None?
    case PhaseCompleted =>
      && st.stages != [] && Shape(p, st.stages) && st.startedAt.Some? && Cursor(st) == |st.stages|
      && st.currentStage == ""
      && st.ready == Some(Condition(true, PipelineCompleted)) && st.completedAt.Some?
    case PhaseFailed =>
      && st.completedAt.Some?
      && if |p.spec.stages| == 0 then NotStarted(st) && st.ready == Some(Condition(false, NoStagesDefined))
         else
           && Shape(p, st.stages) && st.startedAt.Some? && Exhausted(p, st.stages) && CurrentNamed(p, st)
           && var s := st.stages[Cursor(st)];
              st.ready == Some(Condition(false, StageExhausted(s.name, s.retryCount, s.error)))
  }

  /** From one status to a later one: completed stages are frozen, and a terminal status never changes. */
  ghost predicate Advances(a: PipelineStatus, b: PipelineStatus) {
    && (a.stages != [] ==>
          && |b.stages| == |a.stages|
          && Cursor(a) <= Cursor(b)
          && forall i :: 0 <= i < Cursor(a) ==> b.stages[i] == a.stages[i])
    && (Terminal(a) ==> b == a)
  }

  lemma AdvancesTransitive(a: PipelineStatus, b: PipelineStatus, c: PipelineStatus)
    requires Advances(a, b) && Advances(b, c)
    ensures Advances(a, c)
  {
    if a.stages != [] {
      assert b.stages != [];
      forall i | 0 <= i < Cursor(a)
        ensures c.stages[i] == a.stages[i]
      {
        assert i < Cursor(b);
      }
    }
  }

  lemma ShapeAfterUpdate(p: Pipeline, stages: seq<StageStatus>, s: StageStatus)
    requires Shape(p, stages) && FirstOpen(stages) < |stages|
    requires StageActive(p, FirstOpen(stages), s)
    ensures var c := FirstOpen(stages); Shape(p, stages[c := s]) && FirstOpen(stages[c := s]) == c
  {
    var c := FirstOpen(stages);
    FirstOpenIs(stages[c := s], c);
  }

  lemma ShapeAfterCompletion(p: Pipeline, stages: seq<StageStatus>, s: StageStatus)
    requires Shape(p, stages) && FirstOpen(stages) < |stages|
    requires StageDone(p, FirstOpen(stages), s)
    ensures var c := FirstOpen(stages); Shape(p, stages[c := s]) && FirstOpen(stages[c := s]) == c + 1
  {
    var c := FirstOpen(stages);
    var stages' := stages[c := s];
    forall i | 0 <= i < c + 1
      ensures StageDone(p, i, stages'[i])
    {
      assert i < c ==> stages'[i] == stages[i];
    }
    FirstOpenIs(stages', c + 1);
  }

  lemma ShapeAtStart(p: Pipeline)
    ensures Shape(p, FreshStages(p.spec.stages)) && FirstOpen(FreshStages(p.spec.stages)) == 0
  {
    FirstOpenIs(FreshStages(p.spec.stages), 0);
  }

  /** What is legal to submit from a legal snapshot. */
  ghost predicate LegalMove(p: Pipeline, a: PipelineStatus, submitted: Option<Resource>) {
    submitted.Some? ==> LegalStatus(p, submitted.value.status) && Advances(a, submitted.value.status)
  }

  /** Replacing the stage under the cursor of a running pipeline is a legal move. */
  lemma StageMove(p: Pipeline, cr: Resource, s: StageStatus, cr': Resource)
    requires LegalStatus(p, cr.status) && cr.status.phase == PhaseRunning && Cursor(cr.status) < |cr.status.stages|
    requires cr'.status.stages == cr.status.stages[Cursor(cr.status) := s]
    requires cr'.status.phase == PhaseRunning && cr'.status.ready == cr.status.ready
    requires cr'.status.completedAt == cr.status.completedAt && cr'.status.startedAt == cr.status.startedAt
    requires || cr'.status.currentStage == p.spec.stages[Cursor(cr.status)].name
             || (cr'.status.currentStage == cr.status.currentStage && s.phase != StageFailed)
    requires StageActive(p, Cursor(cr.status), s) || StageDone(p, Cursor(cr.status), s)
    ensures LegalMove(p, cr.status, Some(cr'))
  {
    if StageActive(p, Cursor(cr.status), s) {
      ShapeAfterUpdate(p, cr.status.stages, s);
    } else {
      ShapeAfterCompletion(p, cr.status.stages, s);
    }
  }

  /** A running snapshot whose current stage i is about to be started. */
  predicate Startable(p: Pipeline, cr: Resource, i: nat) {
    && LegalStatus(p, cr.status) && cr.status.phase == PhaseRunning
    && i == Cursor(cr.status) < |cr.status.stages| && cr.status.stages[i].phase == StagePending
  }

  lemma FailMoves(p: Pipeline, cr: Resource, i: nat, message: string, call: Option<Call>,
                  outputs: map<string, string>, now: nat)
    requires Startable(p, cr, i)
    ensures var pass := FailPass(MarkedRunning(p, cr, i, now), i, message, call, outputs, now);
            && pass.submitted.Some? && pass.reply != Panicked
            && pass.submitted.value.status.stages ==
               cr.status.stages[i := FailedStage(cr.status.stages[i].(startedAt := Some(now)), message, now)]
            && LegalMove(p, cr.status, pass.submitted)
  {
    var cr' := FailPass(MarkedRunning(p, cr, i, now), i, message, call, outputs, now).submitted.value;
    var s := FailedStage(cr.status.stages[i].(startedAt := Some(now)), message, now);
    assert cr'.status.stages == cr.status.stages[i := s];
    StageMove(p, cr, s, cr');
  }

  lemma CompleteMoves(p: Pipeline, cr: Resource, i: nat, call: Call, outputs: map<string, string>, env: Env)
    requires Startable(p, cr, i) && env.agent.RunCompleted?
    ensures var pass := CompletePass(MarkedRunning(p, cr, i, env.now), i, OutName(p, i), call, outputs, env);
            && pass.reply != Panicked
            && (pass.submitted.Some? <==> env.storeFault == Lands)
            && (pass.submitted.Some? ==>
                  pass.submitted.value.status.stages ==
                  cr.status.stages[i := CompletedStage(cr.status.stages[i].(startedAt := Some(env.now)),
                                                       env.agent.output, OutName(p, i), env.now)
                                        .(taskID := env.agent.taskID)])
            && LegalMove(p, cr.status, pass.submitted)
  {
    if env.storeFault == Lands {
      var cr' := CompletePass(MarkedRunning(p, cr, i, env.now), i, OutName(p, i), call, outputs, env).submitted.value;
      var s := CompletedStage(cr.status.stages[i].(startedAt := Some(env.now)), env.agent.output,
                              OutName(p, i), env.now).(taskID := env.agent.taskID);
      assert cr'.status.stages == cr.status.stages[i := s];
      StageMove(p, cr, s, cr');
    }
  }

  lemma OutcomeMoves(p: Pipeline, cr: Resource, i: nat, call: Call, outputs: map<string, string>, env: Env)
    requires Startable(p, cr, i)
    ensures var pass := OutcomePass(MarkedRunning(p, cr, i, env.now), i, OutName(p, i), call, outputs, env);
            LegalMove(p, cr.status, pass.submitted) && pass.reply != Panicked
  {
    if env.agent.RunCompleted? {
      CompleteMoves(p, cr, i, call, outputs, env);
    } else {
      FailMoves(p, cr, i, FailureMessage(env.agent), Some(call), outputs, env.now);
    }
  }

  lemma StartMoves(p: Pipeline, cr: Resource, i: nat, outputs: map<string, string>, env: Env)
    requires Startable(p, cr, i)
    ensures var pass := StartPass(p, cr, i, outputs, env);
            LegalMove(p, cr.status, pass.submitted) && pass.reply != Panicked
  {
    var name := OutName(p, i);
    if !env.guardReadFails && name in outputs {
      var s := CompletedStage(cr.status.stages[i], outputs[name], name, env.now);
      StageMove(p, cr, s, WithStage(cr, i, s));
    } else {
      var marked := MarkedRunning(p, cr, i, env.now);
      match Prepare(p, marked.status.stages, i, outputs - env.unreadable)
      case Failure(e) => FailMoves(p, cr, i, e, None, outputs, env.now);
      case Success(prepared) => OutcomeMoves(p, cr, i, CallFor(p, i, prepared, env.agent), outputs, env);
    }
  }

  lemma RetryMoves(p: Pipeline, cr: Resource)
    requires LegalStatus(p, cr.status) && cr.status.phase == PhaseRunning
    requires var c := Cursor(cr.status);
             && c < |cr.status.stages| && cr.status.stages[c].phase == StageFailed
             && cr.status.stages[c].retryCount < EffectiveRetryPolicy(p.spec, p.spec.stages[c]).maxRetries
    ensures var c := Cursor(cr.status);
            LegalMove(p, cr.status, Some(WithStage(cr, c, RetriedStage(cr.status.stages[c]))))
  {
    var c := Cursor(cr.status);
    var s := RetriedStage(cr.status.stages[c]);
    StageMove(p, cr, s, WithStage(cr, c, s));
  }

  lemma RunningMoves(p: Pipeline, cr: Resource, outputs: map<string, string>, env: Env)
    requires LegalStatus(p, cr.status) && cr.status.phase == PhaseRunning
    ensures var pass := RunningPass(p, cr, outputs, env);
            LegalMove(p, cr.status, pass.submitted) && pass.reply != Panicked
  {
    var c := Cursor(cr.status);
    if c < |cr.status.stages| && DependenciesMet(cr.status.stages, p.spec.stages[c].dependsOn) {
      var s := cr.status.stages[c];
      if s.phase == StagePending {
        StartMoves(p, cr, c, outputs, env);
      } else if s.retryCount < EffectiveRetryPolicy(p.spec, p.spec.stages[c]).maxRetries {
        RetryMoves(p, cr);
      }
    }
  }

  /** Every pass from a legal snapshot submits a legal status, and no index is ever out of range. */
  lemma PassMoves(p: Pipeline, cr: Resource, outputs: map<string, string>, env: Env)
    requires LegalStatus(p, cr.status)
    ensures var pass := ReconcilePass(p, cr, outputs, env);
            LegalMove(p, cr.status, pass.submitted) && pass.reply != Panicked
  {
    if !cr.deleting {
      match cr.status.phase
      case PhaseRunning => RunningMoves(p, cr, outputs, env);
      case _ => ShapeAtStart(p);
    }
  }
}
