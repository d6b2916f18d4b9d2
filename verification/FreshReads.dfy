/**
 Runs in which every pass reads the latest version. Writes may still be lost or
 misreported, and the process may crash anywhere.
 */
module FreshReads {
  import opened Wrappers
  import opened PipelineTypes
  import opened StageHandler
  import opened Reconcile
  import opened Protocol
  import opened Legality
  import opened Attempts
  import opened Invariants
  import opened Runs
  import opened Safety

  predicate Fresh(c: Choice) {
    c.Reconciles? ==> c.staleness == 0
  }

  /** A stage recorded as failed has no output stored. */
  ghost predicate FailedUnstored(p: Pipeline, st: PipelineStatus, outputs: map<string, string>)
    requires LegalStatus(p, st)
  {
    forall i :: 0 <= i < |st.stages| && st.stages[i].phase == StageFailed ==> OutName(p, i) !in outputs
  }

  ghost predicate FreshInv(p: Pipeline, w: World) {
    Inv(p, w) && LegalStatus(p, Current(w).status) && FailedUnstored(p, Current(w).status, w.outputs)
  }

  lemma FailedUnstoredAttempt(p: Pipeline, w: World, w': World, cr: Resource, env: Env, pass: Pass,
                              landed: bool, i: nat)
    requires WellFormed(p, w) && LegalStatus(p, Current(w).status) && DistinctNames(p) && !env.guardReadFails
    requires FailedUnstored(p, Current(w).status, w.outputs)
    requires PassStep(p, w, w', cr, env, pass, landed) && cr == Current(w) && pass.attempt.Some?
    requires w'.versions != [] && i < |Current(w').status.stages| && i < |p.spec.stages|
    requires Current(w').status.stages[i].phase == StageFailed
    ensures OutName(p, i) !in w'.outputs
  {
    OutNamesDistinct(p, i, pass.attempt.value);
    if i != pass.attempt.value {
      assert Current(w').status.stages[i] == Current(w).status.stages[i];
    }
  }

  lemma FailedUnstoredStep(p: Pipeline, w: World, w': World, cr: Resource, env: Env, pass: Pass, landed: bool)
    requires WellFormed(p, w) && LegalStatus(p, Current(w).status) && DistinctNames(p)
    requires FailedUnstored(p, Current(w).status, w.outputs)
    requires PassStep(p, w, w', cr, env, pass, landed) && cr == Current(w) && !env.guardReadFails
    requires w'.versions != [] && LegalStatus(p, Current(w').status)
    ensures FailedUnstored(p, Current(w').status, w'.outputs)
  {
    var st' := Current(w').status;
    forall i | 0 <= i < |st'.stages| && st'.stages[i].phase == StageFailed
      ensures OutName(p, i) !in w'.outputs
    {
      if pass.attempt.Some? {
        FailedUnstoredAttempt(p, w, w', cr, env, pass, landed, i);
      }
    }
  }

  lemma FreshStep(p: Pipeline, w: World, c: Choice)
    requires FreshInv(p, w) && DistinctNames(p) && Benign(p, c) && Fresh(c)
    ensures FreshInv(p, Step(p, w, c))
  {
    StepInv(p, w, c);
    var w' := Step(p, w, c);
    assert LegalStatus(p, Current(w').status);
    if c.Reconciles? && c.env.fetch == Found {
      var cr, pass, landed := ReconcileIsPassStep(p, w, c);
      FailedUnstoredStep(p, w, w', cr, c.env, pass, landed);
    }
  }

  lemma {:induction false} FreshExec(p: Pipeline, w: World, choices: seq<Choice>)
    requires FreshInv(p, w) && DistinctNames(p) && AllBenign(p, choices) && AllFresh(choices)
    ensures FreshInv(p, Exec(p, w, choices))
    decreases |choices|
  {
    if choices != [] {
      FreshStep(p, w, choices[0]);
      FreshExec(p, Step(p, w, choices[0]), choices[1..]);
    }
  }

  lemma FreshRun(p: Pipeline, outputs: map<string, string>, choices: seq<Choice>)
    requires Run(p, outputs, choices) && AllFresh(choices)
    ensures FreshInv(p, End(p, outputs, choices))
  {
    InitInv(p, outputs);
    FreshExec(p, Init(p, outputs), choices);
  }

  /** With fresh reads a stage is executed at most once per allowed try, plus once per lost result. */
  lemma AttemptBudget(p: Pipeline, outputs: map<string, string>, choices: seq<Choice>, i: nat)
    requires Run(p, outputs, choices) && AllFresh(choices) && i < |p.spec.stages|
    ensures var w := End(p, outputs, choices); w.attempts[i] <= Limit(p, i) + 1 + w.lost[i]
  {
    FreshRun(p, outputs, choices);
    var w := End(p, outputs, choices);
    FailuresBounded(p, w, i);
    assert Balanced(p, w, i);
    if i < |Current(w).status.stages| {
      RetriesBounded(p, Current(w).status, i);
    }
  }

  /** The output of the stage about to start is already stored: its status write was lost. */
  ghost predicate AwaitsRecovery(p: Pipeline, w: World)
    requires w.versions != []
  {
    var cr := Current(w);
    && LegalStatus(p, cr.status)
    && !cr.deleting
    && Startable(p, cr, Cursor(cr.status))
    && DependenciesMet(cr.status.stages, p.spec.stages[Cursor(cr.status)].dependsOn)
    && OutName(p, Cursor(cr.status)) in w.outputs
  }

  /** A pass that cannot write. */
  predicate Fruitless(c: Choice) {
    c.Reconciles? && c.staleness == 0 && !c.env.guardReadFails && (c.env.fetch != Found || c.env.writeFault == Lost)
  }

  /** While writes keep failing, a stage awaiting recovery is not run again: nothing changes at all. */
  lemma {:induction false} NothingMovesMeanwhile(p: Pipeline, w: World, choices: seq<Choice>)
    requires WellFormed(p, w) && AwaitsRecovery(p, w)
    requires forall k :: 0 <= k < |choices| ==> Fruitless(choices[k])
    ensures Exec(p, w, choices) == w
    decreases |choices|
  {
    if choices != [] {
      var c := choices[0];
      if c.env.fetch == Found {
        AttemptIff(p, Current(w), w.outputs, c.env);
      }
      assert Step(p, w, c) == w;
      NothingMovesMeanwhile(p, w, choices[1..]);
    }
  }

  /** The version a pass would persist by completing the attempt, up to its timestamps and task id. */
  ghost predicate SameCompletion(a: PipelineStatus, b: PipelineStatus, i: nat) {
    && i < |a.stages| == |b.stages|
    && a.phase == b.phase
    && (forall j :: 0 <= j < |a.stages| && j != i ==> a.stages[j] == b.stages[j])
    && a.stages[i].phase == b.stages[i].phase == StageCompleted
    && a.stages[i].output == b.stages[i].output
    && a.stages[i].outputRef == b.stages[i].outputRef
    && a.stages[i].error == b.stages[i].error
    && a.stages[i].retryCount == b.stages[i].retryCount
  }

  /** A pass that can write recovers the stage from its stored output, without calling the agent. */
  lemma Recovery(p: Pipeline, w: World, env: Env)
    requires WellFormed(p, w) && AwaitsRecovery(p, w)
    requires env.fetch == Found && !env.guardReadFails && env.writeFault != Lost
    ensures var w' := Step(p, w, Reconciles(0, env));
            var cr := Current(w);
            var i := Cursor(cr.status);
            && w'.outputs == w.outputs && w'.calls == w.calls && w'.attempts == w.attempts && w'.lost == w.lost
            && Current(w') == WithStage(cr, i, CompletedStage(cr.status.stages[i], w.outputs[OutName(p, i)],
                                                              OutName(p, i), env.now))
  {
  }

  /** A stored output belongs to a completed stage, or to the current one, which then awaits recovery. */
  lemma StoredAwaitsRecovery(p: Pipeline, w: World, i: nat)
    requires FreshInv(p, w) && !Current(w).deleting
    requires i < |p.spec.stages| && OutName(p, i) in w.outputs
    ensures var st := Current(w).status;
            && |st.stages| == |p.spec.stages|
            && (i < Cursor(st) || (i == Cursor(st) && AwaitsRecovery(p, w)))
  {
    var st := Current(w).status;
    assert i <= StartedUpTo(st);
    if i == Cursor(st) {
      var k: nat :| ProducedBy(p, w, i, k);
      assert CallFaithful(p, w.outputs, w.calls[k]);
      MetIffEarlier(p, st);
    }
  }

  /** Stage i is completed with the given output. */
  ghost predicate CompletedWith(p: Pipeline, st: PipelineStatus, i: nat, output: string) {
    && i < |st.stages| == |p.spec.stages|
    && st.stages[i].phase == StageCompleted
    && st.stages[i].outputRef == OutName(p, i)
    && st.stages[i].output == TruncateOutput(output)
  }

  /** After the next pass that can write, the stage of a stored output is completed with it, and was not run again. */
  lemma NextPassRecovers(p: Pipeline, outputs: map<string, string>, choices: seq<Choice>, env: Env, i: nat)
    requires Run(p, outputs, choices) && AllFresh(choices) && !Current(End(p, outputs, choices)).deleting
    requires i < |p.spec.stages| && OutName(p, i) in End(p, outputs, choices).outputs
    requires env.fetch == Found && !env.guardReadFails && env.writeFault != Lost
    ensures var w := End(p, outputs, choices);
            var w' := Step(p, w, Reconciles(0, env));
            && CompletedWith(p, Current(w').status, i, w.outputs[OutName(p, i)])
            && w'.attempts[i] == w.attempts[i]
  {
    FreshRun(p, outputs, choices);
    var w := End(p, outputs, choices);
    StoredAwaitsRecovery(p, w, i);
    StoredStageUntouched(p, w, Reconciles(0, env), i);
    if i == Cursor(Current(w).status) {
      RecoveredWith(p, w, env);
    } else {
      AlreadyCompleted(p, w, i);
      CompletedStaysPut(p, w, Reconciles(0, env), i);
    }
  }

  lemma RecoveredWith(p: Pipeline, w: World, env: Env)
    requires WellFormed(p, w) && AwaitsRecovery(p, w)
    requires env.fetch == Found && !env.guardReadFails && env.writeFault != Lost
    ensures var i := Cursor(Current(w).status);
            CompletedWith(p, Current(Step(p, w, Reconciles(0, env))).status, i, w.outputs[OutName(p, i)])
  {
    Recovery(p, w, env);
  }

  lemma AlreadyCompleted(p: Pipeline, w: World, i: nat)
    requires WellFormed(p, w) && LegalStatus(p, Current(w).status) && StoreAgrees(p, w)
    requires i < Cursor(Current(w).status)
    ensures OutName(p, i) in w.outputs && CompletedWith(p, Current(w).status, i, w.outputs[OutName(p, i)])
  {
    assert StageDone(p, i, Current(w).status.stages[i]) && Previewed(p, w, i);
  }

  lemma CompletedStaysPut(p: Pipeline, w: World, c: Choice, i: nat)
    requires Lawful(p, w) && i < Cursor(Current(w).status)
    ensures var st, st' := Current(w).status, Current(Step(p, w, c)).status;
            |st'.stages| == |st.stages| && st'.stages[i] == st.stages[i]
  {
    StepLawful(p, w, c);
  }

  /** An attempt whose output gets stored while its status write fails. */
  ghost predicate LosesStatusWrite(p: Pipeline, w: World, env: Env)
    requires w.versions != []
  {
    var cr := Current(w);
    && LegalStatus(p, cr.status)
    && env.fetch == Found && !env.guardReadFails
    && BeginsAttempt(p, cr, w.outputs, env)
    && Completes(p, cr, Cursor(cr.status), w.outputs, env)
    && env.storeFault != Lost
    && (env.storeFault == LandsButReportsError || env.writeFault == Lost)
  }

  lemma LostWriteAwaits(p: Pipeline, w: World, env: Env)
    requires WellFormed(p, w) && LosesStatusWrite(p, w, env)
    ensures var w' := Step(p, w, Reconciles(0, env));
            var i := Cursor(Current(w).status);
            && AwaitsRecovery(p, w')
            && w'.versions == w.versions
            && w'.outputs == w.outputs[OutName(p, i) := env.agent.output]
  {
    AttemptIff(p, Current(w), w.outputs, env);
    AttemptEffects(p, Current(w), Cursor(Current(w).status), w.outputs, env);
  }

  lemma GoodAttempt(p: Pipeline, w: World, env: Env)
    requires WellFormed(p, w) && LosesStatusWrite(p, w, env)
    ensures var good := env.(storeFault := Lands, writeFault := Lands);
            var w' := Step(p, w, Reconciles(0, good));
            var i := Cursor(Current(w).status);
            && w'.outputs == w.outputs[OutName(p, i) := env.agent.output]
            && Concluded(p, Current(w), i, true, env.agent.output, Current(w').status)
  {
    var good := env.(storeFault := Lands, writeFault := Lands);
    AttemptIff(p, Current(w), w.outputs, good);
    AttemptEffects(p, Current(w), Cursor(Current(w).status), w.outputs, good);
  }

  lemma SameCompletionIntro(p: Pipeline, cr: Resource, i: nat, output: string, now: nat, good: PipelineStatus)
    requires Startable(p, cr, i) && Concluded(p, cr, i, true, output, good)
    ensures var s := CompletedStage(cr.status.stages[i], output, OutName(p, i), now);
            SameCompletion(WithStage(cr, i, s).status, good, i)
  {
  }

  /** The world after a lost status write, any number of fruitless passes, and one pass that can write. */
  function Recovered(p: Pipeline, w: World, lossy: Env, fruitless: seq<Choice>, next: Env): World
    requires WellFormed(p, w)
  {
    Step(p, Exec(p, Step(p, w, Reconciles(0, lossy)), fruitless), Reconciles(0, next))
  }

  lemma RecoveredState(p: Pipeline, w: World, lossy: Env, fruitless: seq<Choice>, next: Env)
    requires WellFormed(p, w) && LosesStatusWrite(p, w, lossy)
    requires forall k :: 0 <= k < |fruitless| ==> Fruitless(fruitless[k])
    requires next.fetch == Found && !next.guardReadFails && next.writeFault != Lost
    ensures var cr := Current(w);
            var i := Cursor(cr.status);
            var w' := Recovered(p, w, lossy, fruitless, next);
            var w1 := Step(p, w, Reconciles(0, lossy));
            && w'.outputs == w.outputs[OutName(p, i) := lossy.agent.output]
            && Current(w') == WithStage(cr, i, CompletedStage(cr.status.stages[i], lossy.agent.output,
                                                              OutName(p, i), next.now))
            && w'.attempts == w1.attempts && w'.calls == w1.calls
  {
    var w1 := Step(p, w, Reconciles(0, lossy));
    LostWriteAwaits(p, w, lossy);
    NothingMovesMeanwhile(p, w1, fruitless);
    Recovery(p, w1, next);
  }

  /**
   A lost status write costs nothing: after any number of passes that cannot write, the first
   pass that can persists the completion the lost write would have persisted, and neither it
   nor the passes between call the agent again.
   */
  lemma LostWriteRecovered(p: Pipeline, w: World, lossy: Env, fruitless: seq<Choice>, next: Env)
    requires WellFormed(p, w) && LosesStatusWrite(p, w, lossy)
    requires forall k :: 0 <= k < |fruitless| ==> Fruitless(fruitless[k])
    requires next.fetch == Found && !next.guardReadFails && next.writeFault != Lost
    ensures var good := Step(p, w, Reconciles(0, lossy.(storeFault := Lands, writeFault := Lands)));
            var recovered := Recovered(p, w, lossy, fruitless, next);
            && recovered.outputs == good.outputs
            && SameCompletion(Current(recovered).status, Current(good).status, Cursor(Current(w).status))
    ensures var recovered := Recovered(p, w, lossy, fruitless, next);
            var lost := Step(p, w, Reconciles(0, lossy));
            recovered.attempts == lost.attempts && recovered.calls == lost.calls
  {
    var i := Cursor(Current(w).status);
    var good := Step(p, w, Reconciles(0, lossy.(storeFault := Lands, writeFault := Lands)));
    GoodAttempt(p, w, lossy);
    RecoveredState(p, w, lossy, fruitless, next);
    SameCompletionIntro(p, Current(w), i, lossy.agent.output, next.now, Current(good).status);
  }
}
