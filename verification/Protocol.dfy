/**
 The operator as a crash-prone protocol. A world is everything that outlives a pass:
 the persisted versions of the resource, the stored outputs, and the record of what
 was asked of the agents. A run is a sequence of choices of the environment.
 */
module Protocol {
  import opened Wrappers
  import opened PipelineTypes
  import opened StageHandler
  import opened Reconcile

  /**
   `attempts[i]` counts executions of stage i begun past the guard, `lost[i]` those
   whose result reached neither the output store nor the status.
   */
  datatype World = World(
    versions: seq<Resource>,
    outputs: map<string, string>,
    calls: seq<Call>,
    attempts: seq<nat>,
    lost: seq<nat>)

  /**
   One step of a run: a reconcile pass reading a version `staleness` versions old, a
   deletion request, or a write to an output by someone else.
   */
  datatype Choice =
    | Reconciles(staleness: nat, env: Env)
    | RequestsDeletion
    | WritesElsewhere(name: string, text: string)

  /** The resource as its user created it. */
  const CREATED := Resource(false, false, PipelineStatus(PhaseUnset, "", None, None, [], None))

  function Init(p: Pipeline, outputs: map<string, string>): World {
    var n := |p.spec.stages|;
    World([CREATED], outputs, [], seq(n, _ => 0), seq(n, _ => 0))
  }

  predicate WellFormed(p: Pipeline, w: World) {
    w.versions != [] && |w.attempts| == |p.spec.stages| && |w.lost| == |p.spec.stages|
  }

  function Latest(w: World): nat
    requires w.versions != []
  {
    |w.versions| - 1
  }

  function Current(w: World): Resource
    requires w.versions != []
  {
    w.versions[Latest(w)]
  }

  /** The version a pass reads; nothing is older than the first one. */
  function ReadVersion(w: World, staleness: nat): (k: nat)
    requires w.versions != []
    ensures k <= Latest(w)
    ensures staleness == 0 ==> k == Latest(w)
  {
    if staleness <= Latest(w) then Latest(w) - staleness else 0
  }

  function OutName(p: Pipeline, i: nat): string
    requires i < |p.spec.stages|
  {
    OutputName(p.name, p.spec.stages[i].name)
  }

  function Bump(counts: seq<nat>, i: Option<nat>): (r: seq<nat>)
    ensures |r| == |counts|
  {
    if i.Some? && i.value < |counts| then counts[i.value := counts[i.value] + 1] else counts
  }

  /** Whether the result of an attempt is gone once the pass is over. */
  predicate ResultLost(p: Pipeline, pass: Pass, landed: bool) {
    pass.attempt.Some? && pass.attempt.value < |p.spec.stages| &&
    !landed && OutName(p, pass.attempt.value) !in pass.outputs
  }

  function AfterPass(p: Pipeline, w: World, k: nat, env: Env): (w': World)
    requires WellFormed(p, w) && k < |w.versions|
    ensures WellFormed(p, w')
  {
    var pass := ReconcilePass(p, w.versions[k], w.outputs, env);
    var landed := WriteLands(Latest(w), k, pass.submitted, env.writeFault);
    World(Persist(w.versions, k, pass.submitted, env.writeFault),
          pass.outputs,
          if pass.call.Some? then w.calls + [pass.call.value] else w.calls,
          Bump(w.attempts, pass.attempt),
          if ResultLost(p, pass, landed) then Bump(w.lost, pass.attempt) else w.lost)
  }

  function Step(p: Pipeline, w: World, c: Choice): (w': World)
    requires WellFormed(p, w)
    ensures WellFormed(p, w')
  {
    match c
    case Reconciles(staleness, env) =>
      if env.fetch != Found then w else AfterPass(p, w, ReadVersion(w, staleness), env)
    case RequestsDeletion =>
      w.(versions := w.versions + [Current(w).(deleting := true)])
    case WritesElsewhere(name, text) =>
      w.(outputs := w.outputs[name := text])
  }

  /** A step told by the pass it takes. */
  lemma StepByPass(p: Pipeline, w: World, staleness: nat, env: Env, pass: Pass)
    requires WellFormed(p, w) && env.fetch == Found
    requires pass == ReconcilePass(p, w.versions[ReadVersion(w, staleness)], w.outputs, env)
    ensures var k := ReadVersion(w, staleness);
            var landed := WriteLands(Latest(w), k, pass.submitted, env.writeFault);
            && Step(p, w, Reconciles(staleness, env)) ==
               World(Persist(w.versions, k, pass.submitted, env.writeFault),
                     pass.outputs,
                     if pass.call.Some? then w.calls + [pass.call.value] else w.calls,
                     Bump(w.attempts, pass.attempt),
                     if ResultLost(p, pass, landed) then Bump(w.lost, pass.attempt) else w.lost)
            && StepReply(p, w, staleness, env) == ReplyOf(pass, Latest(w), k, env.writeFault)
  {
  }

  /** What the pass of a step answers to the work queue. */
  function StepReply(p: Pipeline, w: World, staleness: nat, env: Env): Reply
    requires w.versions != []
  {
    if env.fetch == NotFound then Done
    else if env.fetch == FetchFails then Failed
    else
      var k := ReadVersion(w, staleness);
      ReplyOf(ReconcilePass(p, w.versions[k], w.outputs, env), Latest(w), k, env.writeFault)
  }

  function Exec(p: Pipeline, w: World, choices: seq<Choice>): (w': World)
    requires WellFormed(p, w)
    ensures WellFormed(p, w')
    decreases |choices|
  {
    if choices == [] then w else Exec(p, Step(p, w, choices[0]), choices[1..])
  }

  lemma {:induction false} ExecConcat(p: Pipeline, w: World, a: seq<Choice>, b: seq<Choice>)
    requires WellFormed(p, w)
    ensures Exec(p, w, a + b) == Exec(p, Exec(p, w, a), b)
    decreases |a|
  {
    if a == [] {
      assert a + b == b;
    } else {
      assert (a + b)[1..] == a[1..] + b;
      ExecConcat(p, Step(p, w, a[0]), a[1..], b);
    }
  }

  lemma ExecSnoc(p: Pipeline, w: World, choices: seq<Choice>, c: Choice)
    requires WellFormed(p, w)
    ensures Exec(p, w, choices + [c]) == Step(p, Exec(p, w, choices), c)
  {
    ExecConcat(p, w, choices, [c]);
    assert Exec(p, Exec(p, w, choices), [c]) == Exec(p, Step(p, Exec(p, w, choices), c), []);
  }

  // Hypotheses about the environment and the spec.

  ghost predicate DistinctNames(p: Pipeline) {
    forall i, j :: 0 <= i < j < |p.spec.stages| ==> p.spec.stages[i].name != p.spec.stages[j].name
  }

  /** Stage c and all before it bear different names. */
  ghost predicate DistinctUpTo(p: Pipeline, c: nat) {
    forall i, j :: 0 <= i < j <= c && j < |p.spec.stages| ==> p.spec.stages[i].name != p.spec.stages[j].name
  }

  /** None of the outputs is named as an output of this pipeline. */
  ghost predicate NoOutputs(p: Pipeline, outputs: map<string, string>) {
    forall i :: 0 <= i < |p.spec.stages| ==> OutName(p, i) !in outputs
  }

  /** The guard's read fails only when there is nothing to read, and nobody else writes this pipeline's outputs. */
  ghost predicate Benign(p: Pipeline, c: Choice) {
    match c
    case Reconciles(_, env) => !env.guardReadFails
    case RequestsDeletion => true
    case WritesElsewhere(name, _) => forall i :: 0 <= i < |p.spec.stages| ==> OutName(p, i) != name
  }

  ghost predicate AllBenign(p: Pipeline, choices: seq<Choice>) {
    forall k :: 0 <= k < |choices| ==> Benign(p, choices[k])
  }

  /** Every pass reads the latest version. */
  predicate AllFresh(choices: seq<Choice>) {
    forall k :: 0 <= k < |choices| && choices[k].Reconciles? ==> choices[k].staleness == 0
  }
}
