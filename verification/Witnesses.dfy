/** Complete runs, from the creation of a pipeline on, showing that the hypotheses of the guarantees are needed. */
module Witnesses {
  import opened Wrappers
  import opened PipelineTypes
  import opened StageHandler
  import opened Reconcile
  import opened Protocol
  import opened Invariants
  import opened Safety
  import opened Termination
  import opened Deadlock
  import opened Duplicates

  function Stage(name: string): StageSpec {
    StageSpec(name, AgentReference("agent", ""), None, [], "", map[], None)
  }

  function PipelineOf(stages: seq<StageSpec>): Pipeline {
    Pipeline("p", "ns", PipelineSpec(stages, None), (t, c) => None)
  }

  /** A pipeline with one stage and no retries. */
  function Demo(): Pipeline {
    PipelineOf([Stage("s")])
  }

  const NAME := OutputName("p", "s")

  const FAILING: Env := GoodEnv(RunFailed("no"))
  const ANSWERING: Env := GoodEnv(RunCompleted("yes", "t"))

  // The versions persisted while the only attempt fails.

  function Guarded(): Resource {
    CREATED.(finalizer := true)
  }

  function Started(): Resource {
    StartedPipeline(Demo(), Guarded(), 0)
  }

  function Tried(): Resource {
    var marked := MarkedRunning(Demo(), Started(), 0, 0);
    WithStage(marked, 0, FailedStage(marked.status.stages[0], "no", 0))
  }

  function GivenUp(): Resource {
    FailedPipeline(Tried(), StageExhausted("s", 0, "no"), 0)
  }

  lemma EarlyPasses(outputs: map<string, string>, env: Env)
    ensures ReconcilePass(Demo(), CREATED, outputs, env) == Pass(outputs, Some(Guarded()), None, None, RequeueNow)
    ensures env.now == 0 ==>
              ReconcilePass(Demo(), Guarded(), outputs, env) == Pass(outputs, Some(Started()), None, None, RequeueNow)
  {
  }

  /** An attempt of the only stage of the started pipeline. */
  lemma AttemptPasses(outputs: map<string, string>, env: Env)
    requires env.now == 0 && env.unreadable == {} && (env.guardReadFails || NAME !in outputs)
    ensures var pass := ReconcilePass(Demo(), Started(), outputs, env);
            && pass.attempt == Some(0) && pass.call.Some? && pass.call.value.stage == 0
            && (env.agent == RunFailed("no") ==> pass.outputs == outputs && pass.submitted == Some(Tried()))
            && (env.agent.RunCompleted? && env.storeFault == Lands ==>
                  pass.outputs == outputs[NAME := env.agent.output])
  {
    assert FirstOpen(Started().status.stages) == 0;
    var stages := MarkedRunning(Demo(), Started(), 0, 0).status.stages;
    assert outputs - {} == outputs;
    assert ContextUpTo(Demo(), stages, outputs, Stage("s"), 0) == Success(PipelineContext("", map[], map[]));
    assert ContextUpTo(Demo(), stages, outputs, Stage("s"), 1) == Success(PipelineContext("", map[], map[]));
  }

  lemma LastPass(outputs: map<string, string>, env: Env)
    requires env.now == 0
    ensures ReconcilePass(Demo(), Tried(), outputs, env) == Pass(outputs, Some(GivenUp()), None, None, Done)
  {
    assert FirstOpen(Tried().status.stages) == 0;
  }

  function History(n: nat): seq<Resource>
    requires 1 <= n <= 5
  {
    [CREATED, Guarded(), Started(), Tried(), GivenUp()][..n]
  }

  /** Finalizer, start, failed attempt, conclusion. */
  function FailingRun(n: nat): seq<Choice> {
    if n == 0 then [] else FailingRun(n - 1) + [Reconciles(0, FAILING)]
  }

  lemma FailingStep(w: World, n: nat)
    requires 1 <= n <= 4 && WellFormed(Demo(), w) && w.versions == History(n) && w.outputs == map[]
    ensures var w' := Step(Demo(), w, Reconciles(0, FAILING));
            && w'.versions == History(n + 1) && w'.outputs == map[]
            && |w'.calls| == |w.calls| + (if n == 3 then 1 else 0)
  {
    var cr := Current(w);
    assert cr == History(5)[n - 1];
    var pass := ReconcilePass(Demo(), cr, map[], FAILING);
    assert pass.submitted == Some(History(5)[n]) && pass.outputs == map[] && (pass.call.Some? <==> n == 3) by {
      EarlyPasses(map[], FAILING);
      AttemptPasses(map[], FAILING);
      LastPass(map[], FAILING);
    }
    assert History(n + 1) == History(n) + [History(5)[n]];
  }

  lemma {:induction false} FailingRunBenign(n: nat)
    ensures AllBenign(Demo(), FailingRun(n))
  {
    if n > 0 {
      FailingRunBenign(n - 1);
    }
  }

  lemma {:induction false} FailingRunEnds(n: nat) returns (w: World)
    requires n <= 4
    ensures w == End(Demo(), map[], FailingRun(n))
    ensures w.versions == History(n + 1) && w.outputs == map[] && |w.calls| == (if n >= 3 then 1 else 0)
  {
    if n == 0 {
      w := Init(Demo(), map[]);
    } else {
      var v := FailingRunEnds(n - 1);
      ExecSnoc(Demo(), Init(Demo(), map[]), FailingRun(n - 1), Reconciles(0, FAILING));
      FailingStep(v, n);
      w := Step(Demo(), v, Reconciles(0, FAILING));
    }
  }

  /** A pass that sees the started pipeline, answers, and whose status write does not land. */
  lemma AnsweringStep(w: World, staleness: nat, env: Env)
    requires WellFormed(Demo(), w) && w.versions[ReadVersion(w, staleness)] == Started()
    requires env.fetch == Found && env.now == 0 && env.unreadable == {} && env.agent.RunCompleted?
    requires env.storeFault == Lands && (env.guardReadFails || NAME !in w.outputs)
    requires ReadVersion(w, staleness) != Latest(w) || env.writeFault == Lost
    ensures var w' := Step(Demo(), w, Reconciles(staleness, env));
            && w'.versions == w.versions && w'.outputs == w.outputs[NAME := env.agent.output]
            && |w'.calls| == |w.calls| + 1
  {
    AttemptPasses(w.outputs, env);
    StepByPass(Demo(), w, staleness, env, ReconcilePass(Demo(), Started(), w.outputs, env));
  }

  /**
   Fresh reads are needed for quiescence after failure: a pass that still sees the started
   pipeline invokes the agent of the failed one again, and leaves an output stored under a
   stage that stays failed.
   */
  lemma StaleReadAfterFailure() returns (before: World, after: World)
    ensures before == End(Demo(), map[], FailingRun(4))
    ensures after == End(Demo(), map[], FailingRun(4) + [Reconciles(2, ANSWERING)])
    ensures Run(Demo(), map[], FailingRun(4) + [Reconciles(2, ANSWERING)])
    ensures Current(before) == Current(after) == GivenUp() && GivenUp().status.phase == PhaseFailed
    ensures GivenUp().status.stages[0].phase == StageFailed && NAME in after.outputs
    ensures |before.calls| == 1 && |after.calls| == 2
  {
    before := FailingRunEnds(4);
    FailingRunBenign(4);
    ExecSnoc(Demo(), Init(Demo(), map[]), FailingRun(4), Reconciles(2, ANSWERING));
    assert before.versions[2] == Started();
    AnsweringStep(before, 2, ANSWERING);
    after := Step(Demo(), before, Reconciles(2, ANSWERING));
  }

  const LOSSY: Env := GoodEnv(RunCompleted("first", "t")).(writeFault := Lost)
  const BLIND: Env := ANSWERING.(guardReadFails := true, writeFault := Lost)

  /**
   An honest guard read is needed for write-once outputs. The only stage answers and its
   status write is lost; the next pass cannot read what is stored, and so invokes the agent
   again and replaces the stored text.
   */
  lemma GuardErrorOverwrites() returns (before: World, after: World)
    ensures before == End(Demo(), map[], FailingRun(2) + [Reconciles(0, LOSSY)])
    ensures after == End(Demo(), map[], FailingRun(2) + [Reconciles(0, LOSSY)] + [Reconciles(0, BLIND)])
    ensures Run(Demo(), map[], FailingRun(2) + [Reconciles(0, LOSSY)])
    ensures before.outputs == map[NAME := "first"] && |before.calls| == 1
    ensures after.outputs == map[NAME := "yes"] && |after.calls| == 2
  {
    var w := FailingRunEnds(2);
    FailingRunBenign(2);
    assert w.versions[2] == Started();
    ExecSnoc(Demo(), Init(Demo(), map[]), FailingRun(2), Reconciles(0, LOSSY));
    AnsweringStep(w, 0, LOSSY);
    before := Step(Demo(), w, Reconciles(0, LOSSY));
    assert before.outputs == map[NAME := "first"];
    ExecSnoc(Demo(), Init(Demo(), map[]), FailingRun(2) + [Reconciles(0, LOSSY)], Reconciles(0, BLIND));
    AnsweringStep(before, 0, BLIND);
    after := Step(Demo(), before, Reconciles(0, BLIND));
    assert after.outputs == map[NAME := "yes"];
  }

  /** Two stages of the same name. */
  function Twins(): Pipeline {
    PipelineOf([Stage("s"), Stage("s")])
  }

  /** A run in which everything goes well, and the second twin is completed without its agent ever being called. */
  lemma DuplicateNamesSkipAgent()
    ensures var answers := map[NAME := "yes"];
            var w := End(Twins(), map[], SkippingRun(Twins(), answers, 1));
            && AllBenign(Twins(), SkippingRun(Twins(), answers, 1))
            && |Current(w).status.stages| == 2 && Current(w).status.stages[1].phase == StageCompleted
            && forall k :: 0 <= k < |w.calls| ==> w.calls[k].stage != 1
  {
    var p, answers := Twins(), map[NAME := "yes"];
    assert p.spec.stages[0].name == p.spec.stages[1].name;
    SkipsAgent(p, answers, 1);
    VersionLegal(p, map[], SkippingRun(p, answers, 1), Latest(End(p, map[], SkippingRun(p, answers, 1))));
  }
}
