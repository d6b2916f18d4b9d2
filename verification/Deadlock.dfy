/**
 Dependencies. They are met exactly when they point backwards in the stage list; a stage
 with any other dependency blocks its pipeline for ever, and completion is possible
 exactly when there is no such stage and the prompts can be rendered.
 */
module Deadlock {
  import opened Wrappers
  import opened PipelineTypes
  import opened StageHandler
  import opened Reconcile
  import opened Protocol
  import opened Legality
  import opened Attempts
  import opened Invariants
  import opened Runs
  import opened Safety
  import opened Naming
  import opened Termination

  /**
   In every running version ever persisted, the current stage's dependencies are met iff each
   names an earlier stage.
   */
  lemma MetIffEarlierInRuns(p: Pipeline, outputs: map<string, string>, choices: seq<Choice>, k: nat)
    requires k < |End(p, outputs, choices).versions|
    requires var st := End(p, outputs, choices).versions[k].status;
             st.phase == PhaseRunning && Cursor(st) < |st.stages|
    ensures var st := End(p, outputs, choices).versions[k].status;
            && Cursor(st) < |p.spec.stages|
            && (DependenciesMet(st.stages, p.spec.stages[Cursor(st)].dependsOn) <==> DependsOnEarlier(p, Cursor(st)))
  {
    VersionLegal(p, outputs, choices, k);
    MetIffEarlier(p, End(p, outputs, choices).versions[k].status);
  }

  /** The current stage waits for one that does not come before it. */
  ghost predicate Blocked(p: Pipeline, w: World)
    requires w.versions != []
  {
    var st := Current(w).status;
    && st.phase == PhaseRunning
    && Cursor(st) < |st.stages| && Cursor(st) < |p.spec.stages|
    && !DependsOnEarlier(p, Cursor(st))
  }

  /** No version can begin an attempt: up to the blocked stage all outputs are stored, and that stage waits. */
  lemma BlockedBegins(p: Pipeline, w: World, cr: Resource, env: Env)
    requires WellFormed(p, w) && Blocked(p, w) && LegalStatus(p, cr.status) && !env.guardReadFails
    requires StoredBefore(p, w.outputs, Cursor(Current(w).status))
    requires cr.status.stages != [] ==> Cursor(cr.status) <= Cursor(Current(w).status)
    ensures !BeginsAttempt(p, cr, w.outputs, env)
  {
    if BeginsAttempt(p, cr, w.outputs, env) {
      MetIffEarlier(p, cr.status);
      assert false;
    }
  }

  /** One step of a blocked pipeline changes neither its status nor its outputs nor the calls. */
  lemma BlockedStep(p: Pipeline, w: World, c: Choice)
    requires Lawful(p, w) && StoreAgrees(p, w) && Benign(p, c) && Blocked(p, w)
    ensures var w' := Step(p, w, c);
            && Current(w').status == Current(w).status
            && w'.calls == w.calls && w'.attempts == w.attempts && w'.lost == w.lost
            && (c.Reconciles? ==> w'.outputs == w.outputs)
            && (c.Reconciles? && !Current(w).deleting ==> w' == w)
  {
    if c.Reconciles? && c.env.fetch == Found {
      VersionIsSnapshot(p, w, Latest(w));
      SnapshotStored(p, w, Current(w));
      var cr, pass, landed := ReconcileIsPassStep(p, w, c);
      BlockedBegins(p, w, cr, c.env);
      MetIffEarlier(p, Current(w).status);
    }
  }

  /** Waiting is for ever, whatever the environment does. */
  lemma {:induction false} BlockedForever(p: Pipeline, w: World, choices: seq<Choice>)
    requires Lawful(p, w) && StoreAgrees(p, w) && AllBenign(p, choices) && Blocked(p, w)
    ensures var w' := Exec(p, w, choices);
            Current(w').status == Current(w).status && w'.calls == w.calls && w'.attempts == w.attempts
    decreases |choices|
  {
    if choices != [] {
      BlockedStep(p, w, choices[0]);
      StepStored(p, w, choices[0]);
      BlockedForever(p, Step(p, w, choices[0]), choices[1..]);
    }
  }

  /** The agent of a stage with a dependency out of order is never invoked. */
  lemma NeverInvoked(p: Pipeline, outputs: map<string, string>, choices: seq<Choice>, i: nat)
    requires Run(p, outputs, choices) && i < |p.spec.stages| && !DependsOnEarlier(p, i)
    ensures var w := End(p, outputs, choices);
            && (forall k :: 0 <= k < |w.calls| ==> w.calls[k].stage != i)
            && OutName(p, i) !in w.outputs
  {
    RunKeepsInv(p, outputs, choices);
    var w := End(p, outputs, choices);
    assert forall k :: 0 <= k < |w.calls| ==> CallFaithful(p, w.outputs, w.calls[k]);
  }

  /** Answers, one per stage, that let every prompt be rendered from the answers before it. */
  ghost predicate Renderable(p: Pipeline, answers: map<string, string>) {
    && StoredBefore(p, answers, |p.spec.stages|)
    && forall i :: 0 <= i < |p.spec.stages| ==> CanRender(p, i, IdealContext(p, answers, i))
  }

  lemma CompletedNeeds(p: Pipeline, w: World)
    requires Inv(p, w) && Current(w).status.phase == PhaseCompleted
    ensures |p.spec.stages| > 0 && AllDependEarlier(p) && Renderable(p, w.outputs)
  {
    CompletedIsStored(p, w);
    assert LegalStatus(p, Current(w).status);
    forall i | 0 <= i < |p.spec.stages|
      ensures DependsOnEarlier(p, i) && CanRender(p, i, IdealContext(p, w.outputs, i))
    {
      assert OutName(p, i) in w.outputs;
      assert exists k: nat :: ProducedBy(p, w, i, k);
      var k: nat :| ProducedBy(p, w, i, k);
      assert CallFaithful(p, w.outputs, w.calls[k]);
    }
  }

  function GoodChoice(answers: map<string, string>, name: string): Choice {
    Reconciles(0, GoodEnv(RunCompleted(if name in answers then answers[name] else "", "")))
  }

  /** Finalizer, start, and then one attempt for each of the first m stages. */
  function GoodRun(p: Pipeline, answers: map<string, string>, m: nat): seq<Choice>
    requires m <= |p.spec.stages|
  {
    if m == 0 then [GoodChoice(answers, ""), GoodChoice(answers, "")]
    else GoodRun(p, answers, m - 1) + [GoodChoice(answers, OutName(p, m - 1))]
  }

  lemma {:induction false} GoodRunIsBenign(p: Pipeline, answers: map<string, string>, m: nat)
    requires m <= |p.spec.stages|
    ensures AllBenign(p, GoodRun(p, answers, m)) && AllFresh(GoodRun(p, answers, m))
  {
    if m > 0 {
      GoodRunIsBenign(p, answers, m - 1);
    }
  }

  /** Running, with the first m stages completed and the next one pending. */
  ghost predicate AtStage(p: Pipeline, cr: Resource, m: nat) {
    && LegalStatus(p, cr.status)
    && !cr.deleting && cr.status.phase == PhaseRunning && Cursor(cr.status) == m
    && (m < |cr.status.stages| ==> cr.status.stages[m].phase == StagePending)
  }

  /** The first m stages' answers are stored, and nothing but under their names. */
  ghost predicate Answered(p: Pipeline, outputs: map<string, string>, answers: map<string, string>, m: nat)
    requires m <= |p.spec.stages|
  {
    && (forall i :: 0 <= i < |p.spec.stages| ==>
                      (OutName(p, i) in outputs <==> p.spec.stages[i].name in NamesBefore(p, m)))
    && (forall i :: 0 <= i < m ==> OutName(p, i) in answers && outputs[OutName(p, i)] == answers[OutName(p, i)])
  }

  /** The first m stages have been called and have completed as answered, and no other has been called. */
  ghost predicate OnCourse(p: Pipeline, w: World, answers: map<string, string>, m: nat)
    requires m <= |p.spec.stages| && w.versions != []
  {
    && AtStage(p, Current(w), m)
    && Answered(p, w.outputs, answers, m)
    && (forall k :: 0 <= k < |w.calls| ==> w.calls[k].stage < m)
  }

  lemma FirstPass(p: Pipeline, c: Choice)
    requires Productive(c)
    ensures var w := Step(p, Init(p, map[]), c);
            && Current(w) == Current(Init(p, map[])).(finalizer := true)
            && w.outputs == map[] && w.calls == []
  {
  }

  lemma SecondPass(p: Pipeline, w: World, c: Choice)
    requires WellFormed(p, w) && Productive(c) && |p.spec.stages| > 0
    requires Current(w) == Current(Init(p, map[])).(finalizer := true)
    ensures Current(Step(p, w, c)) == StartedPipeline(p, Current(w), c.env.now)
    ensures Step(p, w, c).outputs == w.outputs && Step(p, w, c).calls == w.calls
  {
  }

  lemma GoodStart(p: Pipeline, answers: map<string, string>)
    requires |p.spec.stages| > 0
    ensures OnCourse(p, End(p, map[], GoodRun(p, answers, 0)), answers, 0)
  {
    var c := GoodChoice(answers, "");
    var w0 := Init(p, map[]);
    ExecSnoc(p, w0, [c], c);
    ExecSnoc(p, w0, [], c);
    assert GoodRun(p, answers, 0) == [c] + [c] && [] + [c] == [c];
    FirstPass(p, c);
    SecondPass(p, Step(p, w0, c), c);
    ShapeAtStart(p);
  }

  lemma SameIdeal(p: Pipeline, a: map<string, string>, b: map<string, string>, i: nat)
    requires i < |p.spec.stages| && StoredBefore(p, a, i) && StoredBefore(p, b, i)
    requires forall j :: 0 <= j < i ==> a[OutName(p, j)] == b[OutName(p, j)]
    ensures IdealContext(p, a, i) == IdealContext(p, b, i)
  {
    assert OutputsBefore(p, a, i) == OutputsBefore(p, b, i);
  }

  lemma PreparesFrom(p: Pipeline, cr: Resource, outputs: map<string, string>, answers: map<string, string>, env: Env)
    requires Startable(p, cr, Cursor(cr.status)) && DistinctUpTo(p, Cursor(cr.status)) && env.unreadable == {}
    requires StoredBefore(p, outputs, Cursor(cr.status)) && StoredBefore(p, answers, Cursor(cr.status))
    requires forall j :: 0 <= j < Cursor(cr.status) ==> outputs[OutName(p, j)] == answers[OutName(p, j)]
    requires CanRender(p, Cursor(cr.status), IdealContext(p, answers, Cursor(cr.status)))
    ensures PreparedFor(p, cr, Cursor(cr.status), outputs, env).Success?
  {
    PreparedIsIdeal(p, cr, outputs, env);
    assert outputs - env.unreadable == outputs;
    SameIdeal(p, outputs, answers, Cursor(cr.status));
  }

  /** On course, the next stage's attempt completes with its answer, if its name is new. */
  lemma GoodAttemptCompletes(p: Pipeline, w: World, answers: map<string, string>, m: nat)
    requires m < |p.spec.stages| && DistinctUpTo(p, m) && AllDependEarlier(p) && Renderable(p, answers)
    requires w.versions != [] && OnCourse(p, w, answers, m)
    ensures var env := GoodChoice(answers, OutName(p, m)).env;
            && Startable(p, Current(w), m)
            && BeginsAttempt(p, Current(w), w.outputs, env)
            && Completes(p, Current(w), m, w.outputs, env)
            && env.agent.output == answers[OutName(p, m)]
  {
    assert OutName(p, m) in answers;
    MetIffEarlier(p, Current(w).status);
    PreparesFrom(p, Current(w), w.outputs, answers, GoodChoice(answers, OutName(p, m)).env);
  }

  lemma GoodPass(p: Pipeline, cr: Resource, m: nat, outputs: map<string, string>, env: Env)
    requires Startable(p, cr, m) && BeginsAttempt(p, cr, outputs, env) && Completes(p, cr, m, outputs, env)
    requires env.storeFault == Lands
    ensures var pass := ReconcilePass(p, cr, outputs, env);
            && pass.outputs == outputs[OutName(p, m) := env.agent.output]
            && pass.call.Some? && pass.call.value.stage == m
            && pass.submitted.Some? && !pass.submitted.value.deleting
            && LegalStatus(p, pass.submitted.value.status)
            && Concluded(p, cr, m, true, env.agent.output, pass.submitted.value.status)
  {
    AttemptIff(p, cr, outputs, env);
    AttemptEffects(p, cr, m, outputs, env);
    NeverMarksDeletion(p, cr, outputs, env);
    PassMoves(p, cr, outputs, env);
  }

  /** Stage m has been called and has completed with the given output. */
  ghost predicate Delivered(p: Pipeline, w: World, w': World, m: nat, output: string)
    requires w.versions != [] && w'.versions != [] && m < |Current(w).status.stages| && m < |p.spec.stages|
  {
    && w'.outputs == w.outputs[OutName(p, m) := output]
    && |w'.calls| == |w.calls| + 1 && w'.calls[..|w.calls|] == w.calls && w'.calls[|w.calls|].stage == m
    && !Current(w').deleting && LegalStatus(p, Current(w').status)
    && Concluded(p, Current(w), m, true, output, Current(w').status)
  }

  lemma GoodDelivery(p: Pipeline, w: World, m: nat, env: Env)
    requires WellFormed(p, w) && env == GoodEnv(env.agent) && Startable(p, Current(w), m)
    requires BeginsAttempt(p, Current(w), w.outputs, env) && Completes(p, Current(w), m, w.outputs, env)
    ensures Delivered(p, w, Step(p, w, Reconciles(0, env)), m, env.agent.output)
  {
    GoodPass(p, Current(w), m, w.outputs, env);
    StepByPass(p, w, 0, env, ReconcilePass(p, Current(w), w.outputs, env));
  }

  lemma AtNextStage(p: Pipeline, cr: Resource, cr': Resource, m: nat, output: string)
    requires AtStage(p, cr, m) && m < |cr.status.stages|
    requires LegalStatus(p, cr'.status) && !cr'.deleting && Concluded(p, cr, m, true, output, cr'.status)
    ensures AtStage(p, cr', m + 1)
  {
  }

  lemma AnsweredNext(p: Pipeline, outputs: map<string, string>, answers: map<string, string>, m: nat)
    requires m < |p.spec.stages| && Answered(p, outputs, answers, m) && OutName(p, m) in answers
    ensures Answered(p, outputs[OutName(p, m) := answers[OutName(p, m)]], answers, m + 1)
  {
    forall i | 0 <= i < |p.spec.stages|
      ensures OutName(p, i) == OutName(p, m) <==> p.spec.stages[i].name == p.spec.stages[m].name
    {
      OutputNameInjective(p.name, p.spec.stages[i].name, p.spec.stages[m].name);
    }
    assert NamesBefore(p, m + 1) == NamesBefore(p, m) + {p.spec.stages[m].name};
  }

  lemma GoodStep(p: Pipeline, w: World, answers: map<string, string>, m: nat)
    requires m < |p.spec.stages| && DistinctUpTo(p, m) && AllDependEarlier(p) && Renderable(p, answers)
    requires WellFormed(p, w) && OnCourse(p, w, answers, m)
    ensures OnCourse(p, Step(p, w, GoodChoice(answers, OutName(p, m))), answers, m + 1)
  {
    var c := GoodChoice(answers, OutName(p, m));
    GoodAttemptCompletes(p, w, answers, m);
    GoodDelivery(p, w, m, c.env);
    CourseNext(p, w, Step(p, w, c), answers, m);
  }

  lemma CourseNext(p: Pipeline, w: World, w': World, answers: map<string, string>, m: nat)
    requires m < |p.spec.stages| && w.versions != [] && w'.versions != [] && OnCourse(p, w, answers, m)
    requires m < |Current(w).status.stages|
    requires OutName(p, m) in answers && Delivered(p, w, w', m, answers[OutName(p, m)])
    ensures OnCourse(p, w', answers, m + 1)
  {
    AtNextStage(p, Current(w), Current(w'), m, answers[OutName(p, m)]);
    AnsweredNext(p, w.outputs, answers, m);
    forall k | 0 <= k < |w'.calls|
      ensures w'.calls[k].stage < m + 1
    {
      assert k < |w.calls| ==> w'.calls[k] == w.calls[k];
    }
  }

  /** The good run stays on course for as long as the names are new. */
  lemma {:induction false} GoodRunOnCourse(p: Pipeline, answers: map<string, string>, m: nat)
    requires AllDependEarlier(p) && Renderable(p, answers)
    requires 0 < |p.spec.stages| && m <= |p.spec.stages| && (m > 0 ==> DistinctUpTo(p, m - 1))
    ensures OnCourse(p, End(p, map[], GoodRun(p, answers, m)), answers, m)
  {
    if m == 0 {
      GoodStart(p, answers);
    } else {
      GoodRunOnCourse(p, answers, m - 1);
      GoodStep(p, End(p, map[], GoodRun(p, answers, m - 1)), answers, m - 1);
      ExecSnoc(p, Init(p, map[]), GoodRun(p, answers, m - 1), GoodChoice(answers, OutName(p, m - 1)));
    }
  }

  lemma Finish(p: Pipeline, w: World, answers: map<string, string>)
    requires WellFormed(p, w) && OnCourse(p, w, answers, |p.spec.stages|)
    ensures Current(Step(p, w, GoodChoice(answers, ""))).status.phase == PhaseCompleted
  {
  }

  lemma GoodRunCompletes(p: Pipeline, answers: map<string, string>)
    requires DistinctNames(p) && AllDependEarlier(p) && Renderable(p, answers) && 0 < |p.spec.stages|
    ensures Completed(p, map[], GoodRun(p, answers, |p.spec.stages|) + [GoodChoice(answers, "")])
  {
    var run := GoodRun(p, answers, |p.spec.stages|);
    GoodRunOnCourse(p, answers, |p.spec.stages|);
    Finish(p, End(p, map[], run), answers);
    ExecSnoc(p, Init(p, map[]), run, GoodChoice(answers, ""));
  }

  lemma FinalRunIsBenign(p: Pipeline, answers: map<string, string>)
    ensures AllBenign(p, GoodRun(p, answers, |p.spec.stages|) + [GoodChoice(answers, "")])
  {
    GoodRunIsBenign(p, answers, |p.spec.stages|);
  }

  lemma CompletionPossible(p: Pipeline, answers: map<string, string>)
    requires DistinctNames(p) && AllDependEarlier(p) && Renderable(p, answers) && 0 < |p.spec.stages|
    ensures exists outputs, choices :: Run(p, outputs, choices) && Completed(p, outputs, choices)
  {
    FinalRunIsBenign(p, answers);
    GoodRunCompletes(p, answers);
    CompletionWitness(p, map[], GoodRun(p, answers, |p.spec.stages|) + [GoodChoice(answers, "")]);
  }

  lemma CompletionWitness(p: Pipeline, outputs: map<string, string>, choices: seq<Choice>)
    requires Run(p, outputs, choices) && Completed(p, outputs, choices)
    ensures exists outputs, choices :: Run(p, outputs, choices) && Completed(p, outputs, choices)
  {
  }

  predicate Completed(p: Pipeline, outputs: map<string, string>, choices: seq<Choice>) {
    Current(End(p, outputs, choices)).status.phase == PhaseCompleted
  }

  /**
   Exactly when a pipeline can complete: it has stages, every dependency names an earlier one,
   and there are answers from which every prompt can be rendered.
   */
  lemma CompletionIff(p: Pipeline)
    requires DistinctNames(p)
    ensures (exists outputs, choices :: Run(p, outputs, choices) && Completed(p, outputs, choices)) <==>
            |p.spec.stages| > 0 && AllDependEarlier(p) && exists answers :: Renderable(p, answers)
  {
    if outputs, choices :| Run(p, outputs, choices) && Completed(p, outputs, choices) {
      RunKeepsInv(p, outputs, choices);
      CompletedNeeds(p, End(p, outputs, choices));
    }
    if |p.spec.stages| > 0 && AllDependEarlier(p) {
      if answers :| Renderable(p, answers) {
        CompletionPossible(p, answers);
      }
    }
  }
}
