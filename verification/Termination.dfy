/**
 Progress. A rank on the persisted resource falls with every write that lands, which
 bounds both the number of writes and the number of passes to a terminal phase.
 */
module Termination {
  import opened Wrappers
  import opened PipelineTypes
  import opened StageHandler
  import opened Reconcile
  import opened Protocol
  import opened Legality
  import opened Attempts
  import opened Invariants
  import opened Runs
  import opened Safety

  /** Writes it may take to get through the stages from i on. */
  function Budget(p: Pipeline, i: nat): nat
    decreases |p.spec.stages| - i
  {
    if i >= |p.spec.stages| then 0 else 2 * Limit(p, i) + 1 + Budget(p, i + 1)
  }

  function StageRank(p: Pipeline, i: nat, s: StageStatus): int
    requires i < |p.spec.stages|
  {
    2 * (Limit(p, i) - s.retryCount) + (if s.phase == StagePending then 1 else 0)
  }

  function StagesRank(p: Pipeline, stages: seq<StageStatus>): int {
    var c := FirstOpen(stages);
    if c < |stages| && c < |p.spec.stages| then 1 + StageRank(p, c, stages[c]) + Budget(p, c + 1) else 1
  }

  /** An upper bound on the writes still to come. */
  function Rank(p: Pipeline, cr: Resource): int {
    match cr.status.phase
    case PhaseUnset => (if cr.finalizer then 2 else 3) + Budget(p, 0)
    case PhasePending => (if cr.finalizer then 2 else 3) + Budget(p, 0)
    case PhaseRunning => StagesRank(p, cr.status.stages)
    case PhaseCompleted => 0
    case PhaseFailed => 0
  }

  lemma RankPositive(p: Pipeline, cr: Resource)
    requires LegalStatus(p, cr.status)
    ensures Rank(p, cr) >= 0
    ensures Rank(p, cr) == 0 <==> Terminal(cr.status)
  {
  }

  lemma RankAfterUpdate(p: Pipeline, stages: seq<StageStatus>, s: StageStatus)
    requires Shape(p, stages) && FirstOpen(stages) < |stages| && StageActive(p, FirstOpen(stages), s)
    requires StageRank(p, FirstOpen(stages), s) < StageRank(p, FirstOpen(stages), stages[FirstOpen(stages)])
    ensures StagesRank(p, stages[FirstOpen(stages) := s]) < StagesRank(p, stages)
  {
    ShapeAfterUpdate(p, stages, s);
  }

  lemma RankAfterCompletion(p: Pipeline, stages: seq<StageStatus>, s: StageStatus)
    requires Shape(p, stages) && FirstOpen(stages) < |stages| && StageDone(p, FirstOpen(stages), s)
    requires stages[FirstOpen(stages)].phase == StagePending
    ensures StagesRank(p, stages[FirstOpen(stages) := s]) < StagesRank(p, stages)
  {
    ShapeAfterCompletion(p, stages, s);
  }

  lemma RankAfterAttempt(p: Pipeline, cr: Resource, i: nat, completes: bool, output: string, cr': Resource)
    requires Startable(p, cr, i) && Concluded(p, cr, i, completes, output, cr'.status)
    ensures Rank(p, cr') < Rank(p, cr)
  {
    var s := cr'.status.stages[i];
    if completes {
      RankAfterCompletion(p, cr.status.stages, s);
    } else {
      RankAfterUpdate(p, cr.status.stages, s);
    }
  }

  lemma RankAfterStart(p: Pipeline, cr: Resource, i: nat, outputs: map<string, string>, env: Env)
    requires Startable(p, cr, i)
    ensures var pass := StartPass(p, cr, i, outputs, env);
            && (pass.submitted.Some? ==> Rank(p, pass.submitted.value) < Rank(p, cr))
            && (env.storeFault == Lands ==> pass.submitted.Some?)
  {
    var pass := StartPass(p, cr, i, outputs, env);
    if !env.guardReadFails && OutName(p, i) in outputs {
      var s := CompletedStage(cr.status.stages[i], outputs[OutName(p, i)], OutName(p, i), env.now);
      RankAfterCompletion(p, cr.status.stages, s);
    } else {
      AttemptSummarised(p, cr, i, outputs, env);
      if pass.submitted.Some? {
        var completes := pass.call.Some? && env.agent.RunCompleted?;
        RankAfterAttempt(p, cr, i, completes, if completes then env.agent.output else "", pass.submitted.value);
      }
    }
  }

  lemma RankAfterRetry(p: Pipeline, cr: Resource)
    requires LegalStatus(p, cr.status) && cr.status.phase == PhaseRunning
    requires var c := Cursor(cr.status);
             && c < |cr.status.stages| && cr.status.stages[c].phase == StageFailed
             && cr.status.stages[c].retryCount < EffectiveRetryPolicy(p.spec, p.spec.stages[c]).maxRetries
    ensures var c := Cursor(cr.status); Rank(p, WithStage(cr, c, RetriedStage(cr.status.stages[c]))) < Rank(p, cr)
  {
    RankAfterUpdate(p, cr.status.stages, RetriedStage(cr.status.stages[Cursor(cr.status)]));
  }

  lemma RunningRankFalls(p: Pipeline, cr: Resource, outputs: map<string, string>, env: Env)
    requires LegalStatus(p, cr.status) && cr.status.phase == PhaseRunning
    ensures var pass := RunningPass(p, cr, outputs, env);
            && (pass.submitted.Some? ==> Rank(p, pass.submitted.value) < Rank(p, cr))
            && (env.storeFault == Lands &&
                (Cursor(cr.status) < |p.spec.stages| ==> DependsOnEarlier(p, Cursor(cr.status)))
                ==> pass.submitted.Some?)
  {
    var c := Cursor(cr.status);
    RankPositive(p, cr);
    if c < |cr.status.stages| {
      MetIffEarlier(p, cr.status);
      var s := cr.status.stages[c];
      if s.phase == StagePending {
        RankAfterStart(p, cr, c, outputs, env);
      } else if s.retryCount < EffectiveRetryPolicy(p.spec, p.spec.stages[c]).maxRetries {
        RankAfterRetry(p, cr);
      }
    }
  }

  ghost predicate AllDependEarlier(p: Pipeline) {
    forall i :: 0 <= i < |p.spec.stages| ==> DependsOnEarlier(p, i)
  }

  /**
   Every submitted version ranks lower, and with dependencies in order every pass that can
   store its output submits one.
   */
  lemma RankFalls(p: Pipeline, cr: Resource, outputs: map<string, string>, env: Env)
    requires LegalStatus(p, cr.status) && !cr.deleting
    ensures var pass := ReconcilePass(p, cr, outputs, env);
            && (pass.submitted.Some? ==> Rank(p, pass.submitted.value) < Rank(p, cr) && !pass.submitted.value.deleting)
            && (AllDependEarlier(p) && env.storeFault == Lands && !Terminal(cr.status) ==> pass.submitted.Some?)
  {
    NeverMarksDeletion(p, cr, outputs, env);
    match cr.status.phase
    case PhaseRunning => RunningRankFalls(p, cr, outputs, env);
    case _ => ShapeAtStart(p);
  }

  lemma StartKeepsMark(p: Pipeline, cr: Resource, i: nat, outputs: map<string, string>, env: Env)
    requires i < |cr.status.stages| && i < |p.spec.stages|
    ensures var pass := StartPass(p, cr, i, outputs, env);
            pass.submitted.Some? ==> pass.submitted.value.deleting == cr.deleting
  {
  }

  lemma RunningKeepsMark(p: Pipeline, cr: Resource, outputs: map<string, string>, env: Env)
    ensures var pass := RunningPass(p, cr, outputs, env);
            pass.submitted.Some? ==> pass.submitted.value.deleting == cr.deleting
  {
    var c := FirstOpen(cr.status.stages);
    if c < |cr.status.stages| && c < |p.spec.stages| && cr.status.stages[c].phase == StagePending {
      StartKeepsMark(p, cr, c, outputs, env);
    }
  }

  lemma NeverMarksDeletion(p: Pipeline, cr: Resource, outputs: map<string, string>, env: Env)
    requires !cr.deleting
    ensures var pass := ReconcilePass(p, cr, outputs, env);
            pass.submitted.Some? ==> !pass.submitted.value.deleting
  {
    match cr.status.phase
    case PhaseRunning => RunningKeepsMark(p, cr, outputs, env);
    case _ =>
  }

  /** A pass nothing goes wrong in: it reads the latest version and its writes land. */
  predicate Productive(c: Choice) {
    && c.Reconciles? && c.staleness == 0
    && c.env.fetch == Found && c.env.storeFault == Lands && c.env.writeFault != Lost
  }

  function CountFaulty(choices: seq<Choice>): nat {
    if choices == [] then 0 else (if Productive(choices[0]) then 0 else 1) + CountFaulty(choices[1..])
  }

  ghost predicate NoDeletion(choices: seq<Choice>) {
    forall k :: 0 <= k < |choices| ==> !choices[k].RequestsDeletion?
  }

  /** What one step does to rank and history. */
  lemma RankStep(p: Pipeline, w: World, c: Choice)
    requires Lawful(p, w) && !Current(w).deleting && !c.RequestsDeletion?
    ensures var w' := Step(p, w, c);
            && !Current(w').deleting
            && Rank(p, Current(w')) + |w'.versions| <= Rank(p, Current(w)) + |w.versions|
            && |w.versions| <= |w'.versions|
            && (AllDependEarlier(p) && Productive(c) && !Terminal(Current(w).status) ==> |w'.versions| > |w.versions|)
  {
    if c.Reconciles? && c.env.fetch == Found {
      var cr, pass, landed := ReconcileIsPassStep(p, w, c);
      if cr == Current(w) {
        RankFalls(p, cr, w.outputs, c.env);
      }
    }
  }

  /** Each productive step of a run that is not over costs rank; nothing ever gives rank back. */
  lemma {:induction false} RankRuns(p: Pipeline, w: World, choices: seq<Choice>)
    requires Lawful(p, w) && NoDeletion(choices) && !Current(w).deleting
    ensures var w' := Exec(p, w, choices);
            && Rank(p, Current(w')) + |w'.versions| <= Rank(p, Current(w)) + |w.versions|
            && (AllDependEarlier(p) ==>
                  || Terminal(Current(w').status)
                  || Rank(p, Current(w')) + |choices| <= Rank(p, Current(w)) + CountFaulty(choices))
    decreases |choices|
  {
    if choices != [] {
      var c := choices[0];
      var w1 := Step(p, w, c);
      RankStep(p, w, c);
      StepLawful(p, w, c);
      RankRuns(p, w1, choices[1..]);
      if Terminal(Current(w).status) {
        ExecLawful(p, w, choices);
      }
    }
  }

  lemma LastRank(p: Pipeline, outputs: map<string, string>, choices: seq<Choice>)
    ensures var cr := Current(End(p, outputs, choices)); Rank(p, cr) >= 0 && (Rank(p, cr) == 0 <==> Terminal(cr.status))
  {
    var w := End(p, outputs, choices);
    VersionLegal(p, outputs, choices, Latest(w));
    RankPositive(p, Current(w));
  }

  /** However many passes there are and whatever happens in them, only so many versions are ever persisted. */
  lemma WritesBounded(p: Pipeline, outputs: map<string, string>, choices: seq<Choice>)
    requires NoDeletion(choices)
    ensures |End(p, outputs, choices).versions| <= 4 + Budget(p, 0)
  {
    InitLawful(p, outputs);
    RankRuns(p, Init(p, outputs), choices);
    LastRank(p, outputs, choices);
  }

  /**
   Termination: with dependencies in order, a pipeline has reached Completed or Failed after
   3 passes and 2 * limit + 1 per stage, plus one for every step in which something went wrong.
   */
  lemma Terminates(p: Pipeline, outputs: map<string, string>, choices: seq<Choice>)
    requires NoDeletion(choices) && AllDependEarlier(p)
    requires |choices| >= 3 + Budget(p, 0) + CountFaulty(choices)
    ensures Terminal(Current(End(p, outputs, choices)).status)
  {
    InitLawful(p, outputs);
    RankRuns(p, Init(p, outputs), choices);
    LastRank(p, outputs, choices);
  }
}
