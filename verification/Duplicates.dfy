/**
 Stage names that are not distinct. The output of a stage is stored under its name, so a
 stage that shares its name with an earlier one is taken for done as soon as that one is: its
 agent is never called. This is what makes distinct names necessary and not just convenient.
 */
module Duplicates {
  import opened Wrappers
  import opened PipelineTypes
  import opened StageHandler
  import opened Reconcile
  import opened Protocol
  import opened Legality
  import opened Attempts
  import opened Invariants
  import opened Runs
  import opened Safety
  import opened Termination
  import opened Deadlock

  /** An earlier stage bears the name of stage i. */
  predicate SharesName(p: Pipeline, i: nat)
    requires i < |p.spec.stages|
  {
    exists j :: 0 <= j < i && p.spec.stages[j].name == p.spec.stages[i].name
  }

  /** For any snapshot: a pending stage that shares its name with a stored one is completed without a call. */
  lemma SharedNameCompletes(p: Pipeline, cr: Resource, outputs: map<string, string>, env: Env, j: nat)
    requires LegalStatus(p, cr.status) && !cr.deleting && !env.guardReadFails
    requires Startable(p, cr, Cursor(cr.status)) && DependsOnEarlier(p, Cursor(cr.status))
    requires j < Cursor(cr.status) && p.spec.stages[j].name == p.spec.stages[Cursor(cr.status)].name
    requires OutName(p, j) in outputs
    ensures var c := Cursor(cr.status);
            var pass := ReconcilePass(p, cr, outputs, env);
            && pass.call.None? && pass.attempt.None? && pass.outputs == outputs
            && pass.submitted == Some(WithStage(cr, c, CompletedStage(cr.status.stages[c], outputs[OutName(p, j)],
                                                                      OutName(p, j), env.now)))
  {
    MetIffEarlier(p, cr.status);
  }

  /** No stage that shares its name with an earlier one has been called. */
  ghost predicate OnlyNewNamesCalled(p: Pipeline, w: World) {
    forall k :: 0 <= k < |w.calls| ==> w.calls[k].stage < |p.spec.stages| && !SharesName(p, w.calls[k].stage)
  }

  lemma UnstoredIsNew(p: Pipeline, outputs: map<string, string>, c: nat)
    requires c < |p.spec.stages| && StoredBefore(p, outputs, c) && OutName(p, c) !in outputs
    ensures !SharesName(p, c)
  {
    forall j | 0 <= j < c
      ensures p.spec.stages[j].name != p.spec.stages[c].name
    {
      assert OutName(p, j) in outputs;
    }
  }

  lemma CallHasNewName(p: Pipeline, w: World, cr: Resource, env: Env)
    requires Lawful(p, w) && StoreAgrees(p, w) && Snapshot(p, w, cr) && !env.guardReadFails
    requires ReconcilePass(p, cr, w.outputs, env).call.Some?
    ensures var call := ReconcilePass(p, cr, w.outputs, env).call.value;
            call.stage < |p.spec.stages| && !SharesName(p, call.stage)
  {
    AttemptIff(p, cr, w.outputs, env);
    CallOfAttempt(p, cr, w.outputs, env);
    SnapshotStored(p, w, cr);
    UnstoredIsNew(p, w.outputs, Cursor(cr.status));
  }

  lemma StepCallsNewNames(p: Pipeline, w: World, c: Choice)
    requires Lawful(p, w) && StoreAgrees(p, w) && Benign(p, c) && OnlyNewNamesCalled(p, w)
    ensures OnlyNewNamesCalled(p, Step(p, w, c))
  {
    if c.Reconciles? && c.env.fetch == Found {
      var cr, pass, landed := ReconcileIsPassStep(p, w, c);
      if pass.call.Some? {
        CallHasNewName(p, w, cr, c.env);
      }
    }
  }

  lemma {:induction false} ExecCallsNewNames(p: Pipeline, w: World, choices: seq<Choice>)
    requires Lawful(p, w) && StoreAgrees(p, w) && AllBenign(p, choices) && OnlyNewNamesCalled(p, w)
    ensures OnlyNewNamesCalled(p, Exec(p, w, choices))
    decreases |choices|
  {
    if choices != [] {
      StepCallsNewNames(p, w, choices[0]);
      StepStored(p, w, choices[0]);
      ExecCallsNewNames(p, Step(p, w, choices[0]), choices[1..]);
    }
  }

  ghost predicate Called(w: World, i: nat) {
    exists k :: 0 <= k < |w.calls| && w.calls[k].stage == i
  }

  /** In no run of any pipeline is the agent of a stage called whose name an earlier stage bears. */
  lemma SharedNameNeverCalled(p: Pipeline, outputs: map<string, string>, choices: seq<Choice>, i: nat)
    requires AllBenign(p, choices) && i < |p.spec.stages| && SharesName(p, i)
    ensures !Called(End(p, outputs, choices), i)
  {
    InitLawful(p, outputs);
    ExecCallsNewNames(p, Init(p, outputs), choices);
  }

  /** Every stage the current version shows as completed has had its agent called. */
  ghost predicate CompletedAreCalled(w: World)
    requires w.versions != []
  {
    forall i :: 0 <= i && ShownCompleted(w, i) ==> Called(w, i)
  }

  ghost predicate ShownCompleted(w: World, b: nat)
    requires w.versions != []
  {
    b < |Current(w).status.stages| && Current(w).status.stages[b].phase == StageCompleted
  }

  lemma CalledIn(p: Pipeline, w: World, i: nat)
    requires Lawful(p, w) && StoreAgrees(p, w) && CallsFaithful(p, w)
    requires ShownCompleted(w, i)
    ensures Called(w, i)
  {
    CompletedIsDone(p, Current(w).status, i);
    assert Previewed(p, w, i);
    var k: nat :| ProducedBy(p, w, i, k);
    assert w.calls[k].stage == i;
  }

  lemma DistinctAreCalled(p: Pipeline, outputs: map<string, string>, choices: seq<Choice>)
    requires Run(p, outputs, choices)
    ensures CompletedAreCalled(End(p, outputs, choices))
  {
    RunKeepsInv(p, outputs, choices);
    var w := End(p, outputs, choices);
    forall i | 0 <= i && ShownCompleted(w, i)
      ensures Called(w, i)
    {
      CalledIn(p, w, i);
    }
  }

  lemma {:induction false} FirstShared(p: Pipeline, n: nat) returns (b: nat)
    requires n < |p.spec.stages| && !DistinctUpTo(p, n)
    ensures 0 < b <= n && SharesName(p, b) && DistinctUpTo(p, b - 1)
  {
    if n > 0 && !DistinctUpTo(p, n - 1) {
      b := FirstShared(p, n - 1);
    } else {
      b := n;
    }
  }

  /** Up to the first shared name, and one pass more. */
  function SkippingRun(p: Pipeline, answers: map<string, string>, b: nat): seq<Choice>
    requires b < |p.spec.stages|
  {
    GoodRun(p, answers, b) + [GoodChoice(answers, "")]
  }

  lemma SkippingRunIsBenign(p: Pipeline, answers: map<string, string>, b: nat)
    requires b < |p.spec.stages|
    ensures AllBenign(p, SkippingRun(p, answers, b)) && AllFresh(SkippingRun(p, answers, b))
  {
    GoodRunIsBenign(p, answers, b);
  }

  lemma SkippingStep(p: Pipeline, w: World, answers: map<string, string>, b: nat)
    requires WellFormed(p, w) && b < |p.spec.stages| && SharesName(p, b) && DependsOnEarlier(p, b)
    requires OnCourse(p, w, answers, b)
    ensures ShownCompleted(Step(p, w, GoodChoice(answers, "")), b)
  {
    var j :| 0 <= j < b && p.spec.stages[j].name == p.spec.stages[b].name;
    var c := GoodChoice(answers, "");
    SharedNameCompletes(p, Current(w), w.outputs, c.env, j);
    StepByPass(p, w, 0, c.env, ReconcilePass(p, Current(w), w.outputs, c.env));
  }

  lemma SkippingRunCompletes(p: Pipeline, answers: map<string, string>, b: nat)
    requires AllDependEarlier(p) && Renderable(p, answers)
    requires 0 < b < |p.spec.stages| && SharesName(p, b) && DistinctUpTo(p, b - 1)
    ensures ShownCompleted(End(p, map[], SkippingRun(p, answers, b)), b)
  {
    var w := End(p, map[], GoodRun(p, answers, b));
    assert OnCourse(p, w, answers, b) by {
      GoodRunOnCourse(p, answers, b);
    }
    SkippingStep(p, w, answers, b);
    ExecSnoc(p, Init(p, map[]), GoodRun(p, answers, b), GoodChoice(answers, ""));
  }

  /** A run from the start, with every answer given and every write landing, that completes stage b uncalled. */
  lemma SkipsAgent(p: Pipeline, answers: map<string, string>, b: nat)
    requires AllDependEarlier(p) && Renderable(p, answers)
    requires 0 < b < |p.spec.stages| && SharesName(p, b) && DistinctUpTo(p, b - 1)
    ensures AllBenign(p, SkippingRun(p, answers, b)) && AllFresh(SkippingRun(p, answers, b))
    ensures var w := End(p, map[], SkippingRun(p, answers, b)); ShownCompleted(w, b) && !Called(w, b)
  {
    SkippingRunIsBenign(p, answers, b);
    SkippingRunCompletes(p, answers, b);
    SharedNameNeverCalled(p, map[], SkippingRun(p, answers, b), b);
  }

  /**
   What distinct names are for, exactly. Where dependencies are in order and the prompts can
   be rendered, every completed stage of every run has had its agent called if and only if
   the stage names are distinct.
   */
  lemma CompletedAreCalledIff(p: Pipeline, answers: map<string, string>)
    requires AllDependEarlier(p) && Renderable(p, answers)
    ensures DistinctNames(p) <==>
            forall outputs, choices :: NoOutputs(p, outputs) && AllBenign(p, choices) ==>
                                         CompletedAreCalled(End(p, outputs, choices))
  {
    if DistinctNames(p) {
      forall outputs, choices | NoOutputs(p, outputs) && AllBenign(p, choices)
        ensures CompletedAreCalled(End(p, outputs, choices))
      {
        DistinctAreCalled(p, outputs, choices);
      }
    } else {
      var b := FirstShared(p, |p.spec.stages| - 1);
      SkipsAgent(p, answers, b);
      assert NoOutputs(p, map[]);
      assert !CompletedAreCalled(End(p, map[], SkippingRun(p, answers, b)));
    }
  }
}
