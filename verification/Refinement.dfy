/**
 With fresh reads the operator, whatever faults it meets, refines a simple sequential
 interpreter that runs the stages in list order, retries each up to its limit and stops
 when one is exhausted. A stage counts as done as soon as its output is stored.
 */
module Refinement {
  import opened Wrappers
  import opened PipelineTypes
  import opened StageHandler
  import opened Reconcile
  import opened Protocol
  import opened Legality
  import opened Attempts
  import opened Invariants
  import opened Runs
  import opened Safety
  import opened FreshReads

  datatype Mode = Idle | Active | Succeeded | Stopped

  /** The interpreter's state: the results so far and how often the next stage has failed. */
  datatype Progress = Progress(mode: Mode, results: seq<string>, failures: int)

  datatype Event = Begin | Succeed(output: string) | Fail | Conclude

  /** The next stage may be tried. */
  predicate MayTry(p: Pipeline, s: Progress) {
    && s.mode == Active
    && |s.results| < |p.spec.stages|
    && s.failures <= Limit(p, |s.results|)
    && DependsOnEarlier(p, |s.results|)
  }

  function Apply(p: Pipeline, s: Progress, e: Event): Option<Progress> {
    match e
    case Begin =>
      if s.mode != Idle then None
      else Some(Progress(if |p.spec.stages| == 0 then Stopped else Active, [], 0))
    case Succeed(output) =>
      if !MayTry(p, s) then None else Some(Progress(Active, s.results + [output], 0))
    case Fail =>
      if !MayTry(p, s) then None else Some(s.(failures := s.failures + 1))
    case Conclude =>
      if s.mode != Active then None
      else if |s.results| == |p.spec.stages| then Some(s.(mode := Succeeded))
      else if |s.results| < |p.spec.stages| && s.failures > Limit(p, |s.results|) then Some(s.(mode := Stopped))
      else None
  }

  /** A step of the operator shows as one event of the interpreter or as none. */
  function ApplyOrStutter(p: Pipeline, s: Progress, e: Option<Event>): Option<Progress> {
    if e.None? then Some(s) else Apply(p, s, e.value)
  }

  function Replay(p: Pipeline, s: Progress, trace: seq<Option<Event>>): Option<Progress> {
    if trace == [] then Some(s)
    else
      var s' := Replay(p, s, trace[..|trace| - 1]);
      if s'.None? then None else ApplyOrStutter(p, s'.value, trace[|trace| - 1])
  }

  function ModeOf(phase: PipelinePhase): Mode {
    match phase
    case PhaseUnset => Idle
    case PhasePending => Idle
    case PhaseRunning => Active
    case PhaseCompleted => Succeeded
    case PhaseFailed => Stopped
  }

  /** Number of stages that are done: those before the cursor, and the one under it if its output is stored. */
  function DoneCount(p: Pipeline, st: PipelineStatus, outputs: map<string, string>): nat {
    var c := Cursor(st);
    if c < |st.stages| && c < |p.spec.stages| && OutName(p, c) in outputs then c + 1 else c
  }

  function ResultsOf(p: Pipeline, outputs: map<string, string>, m: nat): seq<string> {
    seq(m, i requires 0 <= i < m =>
          if i < |p.spec.stages| && OutName(p, i) in outputs then outputs[OutName(p, i)] else "")
  }

  /** The abstraction of a persisted status and the stored outputs. */
  function ProgressOf(p: Pipeline, st: PipelineStatus, outputs: map<string, string>): Progress {
    var m := DoneCount(p, st, outputs);
    Progress(ModeOf(st.phase), ResultsOf(p, outputs, m), FailuresOf(st, m))
  }

  /** What the refinement uses of the invariant. */
  ghost predicate Sound(p: Pipeline, st: PipelineStatus, outputs: map<string, string>) {
    && LegalStatus(p, st)
    && FailedUnstored(p, st, outputs)
    && Cursor(st) <= |p.spec.stages|
    && StoredBefore(p, outputs, Cursor(st))
    && (forall i :: 0 <= i < |p.spec.stages| && OutName(p, i) in outputs ==> i <= StartedUpTo(st))
  }

  lemma InvIsSound(p: Pipeline, w: World)
    requires FreshInv(p, w)
    ensures Sound(p, Current(w).status, w.outputs)
  {
    VersionIsSnapshot(p, w, Latest(w));
    SnapshotStored(p, w, Current(w));
  }

  lemma DoneAreStored(p: Pipeline, st: PipelineStatus, outputs: map<string, string>)
    requires Sound(p, st, outputs)
    ensures var m := DoneCount(p, st, outputs);
            && m <= |p.spec.stages| && StoredBefore(p, outputs, m)
            && forall i :: m <= i < |p.spec.stages| ==> OutName(p, i) !in outputs
  {
  }

  lemma ResultsKept(p: Pipeline, a: map<string, string>, b: map<string, string>, m: nat)
    requires m <= |p.spec.stages| && StoredBefore(p, a, m) && OwnOutputsGrow(p, a, b)
    ensures ResultsOf(p, a, m) == ResultsOf(p, b, m)
  {
  }

  lemma StoredAt(p: Pipeline, outputs: map<string, string>, m: nat, i: nat)
    requires m <= |p.spec.stages| && StoredBefore(p, outputs, m) && i < m
    ensures OutName(p, i) in outputs
  {
  }

  /** The stages that are done are determined by the store alone. */
  lemma DoneCountUnique(p: Pipeline, a: PipelineStatus, b: PipelineStatus, outputs: map<string, string>)
    requires Sound(p, a, outputs) && Sound(p, b, outputs)
    ensures DoneCount(p, a, outputs) == DoneCount(p, b, outputs)
  {
    DoneAreStored(p, a, outputs);
    DoneAreStored(p, b, outputs);
    var m, m' := DoneCount(p, a, outputs), DoneCount(p, b, outputs);
    if m < m' {
      StoredAt(p, outputs, m', m);
      assert false;
    } else if m' < m {
      StoredAt(p, outputs, m, m');
      assert false;
    }
  }

  ghost predicate Refines(p: Pipeline, st: PipelineStatus, outputs: map<string, string>,
                          st': PipelineStatus, outputs': map<string, string>, e: Option<Event>) {
    ApplyOrStutter(p, ProgressOf(p, st, outputs), e) == Some(ProgressOf(p, st', outputs'))
  }

  function QuietEvent(st: PipelineStatus, st': PipelineStatus): Option<Event> {
    if ModeOf(st'.phase) == ModeOf(st.phase) then None
    else if ModeOf(st.phase) == Idle then Some(Begin)
    else Some(Conclude)
  }

  /** A submission without an attempt: start, retry, recovery, conclusion, or nothing of interest. */
  lemma QuietRefines(p: Pipeline, st: PipelineStatus, st': PipelineStatus, outputs: map<string, string>)
    requires Sound(p, st, outputs) && Sound(p, st', outputs)
    requires Advances(st, st') && KeepsRecords(p, st, outputs, st')
    ensures Refines(p, st, outputs, st', outputs, QuietEvent(st, st'))
  {
    DoneCountUnique(p, st, st', outputs);
    DoneAreStored(p, st, outputs);
    var m := DoneCount(p, st, outputs);
    if m == |p.spec.stages| {
      FailuresPastEnd(p, st, m);
      FailuresPastEnd(p, st', m);
    }
    if st.phase == PhaseRunning && st'.phase == PhaseFailed {
      assert Exhausted(p, st'.stages);
      assert OutName(p, Cursor(st')) !in outputs;
      assert m == Cursor(st');
    }
  }

  lemma FailuresPastEnd(p: Pipeline, st: PipelineStatus, m: nat)
    requires LegalStatus(p, st) && m >= |p.spec.stages|
    ensures FailuresOf(st, m) == 0
  {
  }

  /**
   What an event of the interpreter in state `s` owes to the pass that shows it: success and
   failure come from an attempt, in that very pass, of the stage the interpreter is at.
   */
  ghost predicate Justified(s: Progress, e: Event, env: Env, pass: Pass) {
    match e
    case Begin => pass.attempt.None?
    case Succeed(output) =>
      && pass.attempt == Some(|s.results|)
      && pass.call.Some? && pass.call.value.stage == |s.results|
      && pass.call.value.outcome == env.agent && env.agent.RunCompleted? && env.agent.output == output
    case Fail => pass.attempt == Some(|s.results|) && (pass.call.Some? ==> !env.agent.RunCompleted?)
    case Conclude => pass.attempt.None?
  }

  /** The event of an attempt: its output reached the store, its failure reached the status, or neither. */
  function AttemptEvent(env: Env, pass: Pass, landed: bool): Option<Event> {
    if pass.call.Some? && env.agent.RunCompleted? then
      if env.storeFault != Lost then Some(Succeed(env.agent.output)) else None
    else if landed then Some(Fail) else None
  }

  lemma AttemptStart(p: Pipeline, cr: Resource, outputs: map<string, string>, env: Env)
    requires Sound(p, cr.status, outputs) && BeginsAttempt(p, cr, outputs, env) && !env.guardReadFails
    ensures DoneCount(p, cr.status, outputs) == Cursor(cr.status)
    ensures MayTry(p, ProgressOf(p, cr.status, outputs))
  {
    MetIffEarlier(p, cr.status);
  }

  lemma SuccessRefines(p: Pipeline, cr: Resource, outputs: map<string, string>, env: Env,
                       st': PipelineStatus, outputs': map<string, string>, output: string)
    requires DistinctNames(p)
    requires Sound(p, cr.status, outputs) && BeginsAttempt(p, cr, outputs, env) && !env.guardReadFails
    requires Sound(p, st', outputs') && outputs' == outputs[OutName(p, Cursor(cr.status)) := output]
    requires st' == cr.status || Concluded(p, cr, Cursor(cr.status), true, output, st')
    ensures Refines(p, cr.status, outputs, st', outputs', Some(Succeed(output)))
  {
    var i := Cursor(cr.status);
    AttemptStart(p, cr, outputs, env);
    DoneAreStored(p, cr.status, outputs);
    DoneAreStored(p, st', outputs');
    if i + 1 < |p.spec.stages| {
      OutNamesDistinct(p, i, i + 1);
    }
    assert DoneCount(p, st', outputs') == i + 1;
    forall j | 0 <= j < i
      ensures OutName(p, j) != OutName(p, i)
    {
      OutNamesDistinct(p, i, j);
    }
    assert ResultsOf(p, outputs', i + 1) == ResultsOf(p, outputs, i) + [output];
  }

  lemma FailureRefines(p: Pipeline, cr: Resource, outputs: map<string, string>, env: Env, st': PipelineStatus)
    requires Sound(p, cr.status, outputs) && BeginsAttempt(p, cr, outputs, env) && !env.guardReadFails
    requires Sound(p, st', outputs) && Concluded(p, cr, Cursor(cr.status), false, "", st')
    ensures Refines(p, cr.status, outputs, st', outputs, Some(Fail))
  {
    AttemptStart(p, cr, outputs, env);
    DoneCountUnique(p, cr.status, st', outputs);
  }

  lemma AttemptRefines(p: Pipeline, w: World, w': World, cr: Resource, env: Env, pass: Pass, landed: bool)
    requires DistinctNames(p) && WellFormed(p, w) && !env.guardReadFails && w'.versions != []
    requires Sound(p, Current(w).status, w.outputs) && Sound(p, Current(w').status, w'.outputs)
    requires PassStep(p, w, w', cr, env, pass, landed) && cr == Current(w) && pass.attempt.Some?
    ensures Refines(p, Current(w).status, w.outputs, Current(w').status, w'.outputs, AttemptEvent(env, pass, landed))
  {
    var e := AttemptEvent(env, pass, landed);
    if e.Some? && e.value.Succeed? {
      SuccessRefines(p, cr, w.outputs, env, Current(w').status, w'.outputs, env.agent.output);
    } else if e.Some? {
      FailureRefines(p, cr, w.outputs, env, Current(w').status);
    }
  }

  lemma PassRefines(p: Pipeline, w: World, w': World, cr: Resource, env: Env, pass: Pass, landed: bool)
    returns (e: Option<Event>)
    requires DistinctNames(p) && WellFormed(p, w) && !env.guardReadFails && w'.versions != []
    requires Sound(p, Current(w).status, w.outputs) && Sound(p, Current(w').status, w'.outputs)
    requires PassStep(p, w, w', cr, env, pass, landed) && cr == Current(w)
    ensures Refines(p, Current(w).status, w.outputs, Current(w').status, w'.outputs, e)
    requires pass.call.Some? ==> pass.attempt == Some(pass.call.value.stage) && pass.call.value.outcome == env.agent
    ensures e.Some? ==> Justified(ProgressIn(p, w), e.value, env, pass)
  {
    if pass.attempt.Some? {
      AttemptStart(p, cr, w.outputs, env);
      AttemptRefines(p, w, w', cr, env, pass, landed);
      e := AttemptEvent(env, pass, landed);
    } else if landed {
      QuietRefines(p, Current(w).status, Current(w').status, w.outputs);
      e := QuietEvent(Current(w).status, Current(w').status);
    } else {
      e := None;
    }
  }

  ghost function ProgressIn(p: Pipeline, w: World): Progress
    requires w.versions != []
  {
    ProgressOf(p, Current(w).status, w.outputs)
  }

  /** Without a pass there is nothing to show. */
  lemma OtherStepRefines(p: Pipeline, w: World, w': World)
    requires w.versions != [] && w'.versions != [] && Current(w').status == Current(w).status
    requires Sound(p, Current(w).status, w.outputs) && Sound(p, Current(w').status, w'.outputs)
    requires OwnOutputsGrow(p, w.outputs, w'.outputs)
    requires forall i :: 0 <= i < |p.spec.stages| && OutName(p, i) in w'.outputs ==> OutName(p, i) in w.outputs
    ensures ProgressIn(p, w) == ProgressIn(p, w')
  {
    DoneAreStored(p, Current(w).status, w.outputs);
    ResultsKept(p, w.outputs, w'.outputs, DoneCount(p, Current(w).status, w.outputs));
  }

  /** Every step shows as an event of the interpreter that its pass justifies, or as nothing. */
  lemma StepRefines(p: Pipeline, w: World, c: Choice) returns (e: Option<Event>)
    requires FreshInv(p, w) && DistinctNames(p) && Benign(p, c) && Fresh(c)
    ensures ApplyOrStutter(p, ProgressIn(p, w), e) == Some(ProgressIn(p, Step(p, w, c)))
    ensures e.Some? ==>
              && c.Reconciles?
              && Justified(ProgressIn(p, w), e.value, c.env, ReconcilePass(p, Current(w), w.outputs, c.env))
  {
    var w' := Step(p, w, c);
    assert Sound(p, Current(w').status, w'.outputs) by {
      FreshStep(p, w, c);
      InvIsSound(p, w');
    }
    InvIsSound(p, w);
    if c.Reconciles? && c.env.fetch == Found {
      var cr, pass, landed := ReconcileIsPassStep(p, w, c);
      if pass.call.Some? {
        CallOfAttempt(p, cr, w.outputs, c.env);
      }
      e := PassRefines(p, w, w', cr, c.env, pass, landed);
    } else {
      OtherStepRefines(p, w, w');
      e := None;
    }
  }

  /** The event shown by step j of a run is justified by its pass. */
  ghost predicate JustifiedAt(p: Pipeline, w: World, choices: seq<Choice>, j: nat, e: Event)
    requires WellFormed(p, w) && j < |choices|
  {
    var before := Exec(p, w, choices[..j]);
    && choices[j].Reconciles?
    && Justified(ProgressIn(p, before), e, choices[j].env,
                 ReconcilePass(p, Current(before), before.outputs, choices[j].env))
  }

  /** After j steps the interpreter, fed with the trace so far, is where the run is. */
  ghost predicate InStep(p: Pipeline, w: World, choices: seq<Choice>, trace: seq<Option<Event>>, j: nat)
    requires WellFormed(p, w) && j <= |choices| == |trace|
  {
    Replay(p, ProgressIn(p, w), trace[..j]) == Some(ProgressIn(p, Exec(p, w, choices[..j])))
  }

  /** A trace of the interpreter that follows a run step by step. */
  ghost predicate Follows(p: Pipeline, w: World, choices: seq<Choice>, trace: seq<Option<Event>>)
    requires WellFormed(p, w)
  {
    && |trace| == |choices|
    && (forall j :: 0 <= j <= |choices| ==> InStep(p, w, choices, trace, j))
    && (forall j :: 0 <= j < |choices| && trace[j].Some? ==> JustifiedAt(p, w, choices, j, trace[j].value))
  }

  lemma FollowsSnoc(p: Pipeline, w: World, choices: seq<Choice>, trace: seq<Option<Event>>, c: Choice, e: Option<Event>)
    requires WellFormed(p, w) && Follows(p, w, choices, trace)
    requires ApplyOrStutter(p, ProgressIn(p, Exec(p, w, choices)), e) == Some(ProgressIn(p, Exec(p, w, choices + [c])))
    requires e.Some? ==> JustifiedAt(p, w, choices + [c], |choices|, e.value)
    ensures Follows(p, w, choices + [c], trace + [e])
  {
    var choices', trace', n := choices + [c], trace + [e], |choices|;
    forall j | 0 <= j <= n + 1
      ensures InStep(p, w, choices', trace', j)
    {
      assert InStep(p, w, choices, trace, if j <= n then j else n);
      if j <= n {
        assert trace'[..j] == trace[..j] && choices'[..j] == choices[..j];
      } else {
        assert trace'[..j] == trace' && trace'[..n] == trace[..n];
        assert choices[..n] == choices && choices'[..j] == choices';
      }
    }
    forall j | 0 <= j < n + 1 && trace'[j].Some?
      ensures JustifiedAt(p, w, choices', j, trace'[j].value)
    {
      if j < n {
        assert choices'[..j] == choices[..j];
        assert JustifiedAt(p, w, choices, j, trace[j].value);
      }
    }
  }

  /** The step that extends a run, as the trace wants it. */
  lemma LastStepRefines(p: Pipeline, w: World, init: seq<Choice>, c: Choice) returns (e: Option<Event>)
    requires FreshInv(p, w) && DistinctNames(p) && AllBenign(p, init) && AllFresh(init) && Benign(p, c) && Fresh(c)
    ensures ApplyOrStutter(p, ProgressIn(p, Exec(p, w, init)), e) == Some(ProgressIn(p, Exec(p, w, init + [c])))
    ensures e.Some? ==> JustifiedAt(p, w, init + [c], |init|, e.value)
  {
    FreshExec(p, w, init);
    ExecSnoc(p, w, init, c);
    e := StepRefines(p, Exec(p, w, init), c);
    assert (init + [c])[..|init|] == init;
  }

  lemma {:induction false} RunRefines(p: Pipeline, w: World, choices: seq<Choice>) returns (trace: seq<Option<Event>>)
    requires FreshInv(p, w) && DistinctNames(p) && AllBenign(p, choices) && AllFresh(choices)
    ensures Follows(p, w, choices, trace)
    decreases |choices|
  {
    if choices == [] {
      trace := [];
    } else {
      var n := |choices| - 1;
      var init, c := choices[..n], choices[n];
      var first := RunRefines(p, w, init);
      var e := LastStepRefines(p, w, init, c);
      FollowsSnoc(p, w, init, first, c, e);
      assert choices == init + [c];
      trace := first + [e];
    }
  }

  /**
   Fault-tolerant refinement: whatever is lost, misreported or cut short, a run with fresh
   reads is at every point where the sequential interpreter is after a trace of events, each
   of them justified by the pass in its place.
   */
  lemma FaultTolerantRefinement(p: Pipeline, outputs: map<string, string>, choices: seq<Choice>)
    returns (trace: seq<Option<Event>>)
    requires Run(p, outputs, choices) && AllFresh(choices)
    ensures ProgressIn(p, Init(p, outputs)) == Progress(Idle, [], 0)
    ensures Follows(p, Init(p, outputs), choices, trace)
  {
    InitInv(p, outputs);
    trace := RunRefines(p, Init(p, outputs), choices);
  }
}
