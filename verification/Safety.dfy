/**
 What runs guarantee. Passes may read any earlier version of the resource unless a lemma asks
 for fresh reads, and writes may be lost or misreported at any point. What a lemma needs of the
 pipeline and of the environment it says: nothing at all, benign choices, or a `Run`.
 */
module Safety {
  import opened Wrappers
  import opened PipelineTypes
  import opened StageHandler
  import opened Reconcile
  import opened Protocol
  import opened Legality
  import opened Attempts
  import opened Invariants
  import opened Runs
  import opened Naming

  /** A run of a pipeline with distinct stage names from a namespace without its outputs. */
  ghost predicate Run(p: Pipeline, outputs: map<string, string>, choices: seq<Choice>) {
    DistinctNames(p) && NoOutputs(p, outputs) && AllBenign(p, choices)
  }

  function End(p: Pipeline, outputs: map<string, string>, choices: seq<Choice>): (w: World)
    ensures WellFormed(p, w)
  {
    Exec(p, Init(p, outputs), choices)
  }

  lemma RunKeepsInv(p: Pipeline, outputs: map<string, string>, choices: seq<Choice>)
    requires Run(p, outputs, choices)
    ensures Inv(p, End(p, outputs, choices))
  {
    InitInv(p, outputs);
    ExecInv(p, Init(p, outputs), choices);
  }

  /** Whatever the pipeline, the store and the choices, the persisted history is legal. */
  lemma EndLawful(p: Pipeline, outputs: map<string, string>, choices: seq<Choice>)
    ensures Lawful(p, End(p, outputs, choices))
  {
    InitLawful(p, outputs);
    ExecLawful(p, Init(p, outputs), choices);
  }

  /** With benign choices, status and store agree. */
  lemma EndStored(p: Pipeline, outputs: map<string, string>, choices: seq<Choice>)
    requires AllBenign(p, choices)
    ensures Lawful(p, End(p, outputs, choices)) && StoreAgrees(p, End(p, outputs, choices))
  {
    InitLawful(p, outputs);
    ExecStored(p, Init(p, outputs), choices);
  }

  lemma VersionLegal(p: Pipeline, outputs: map<string, string>, choices: seq<Choice>, k: nat)
    requires k < |End(p, outputs, choices).versions|
    ensures LegalStatus(p, End(p, outputs, choices).versions[k].status)
  {
    EndLawful(p, outputs, choices);
  }

  /** Stage c is the only one in progress: all before it are completed, all after it untouched. */
  ghost predicate InProgressAt(p: Pipeline, st: PipelineStatus, c: nat) {
    && c <= |st.stages| == |p.spec.stages|
    && (forall i :: 0 <= i < c ==> st.stages[i].phase == StageCompleted)
    && (c < |st.stages| ==> && st.stages[c].phase in {StagePending, StageFailed}
                            && 0 <= st.stages[c].retryCount <= Limit(p, c))
    && (forall i :: c < i < |st.stages| ==> st.stages[i] == FreshStage(p.spec.stages[i].name))
  }

  lemma LegalShape(p: Pipeline, st: PipelineStatus)
    requires LegalStatus(p, st) && st.stages != []
    ensures InProgressAt(p, st, Cursor(st))
  {
    assert forall i :: 0 <= i < Cursor(st) ==> StageDone(p, i, st.stages[i]);
  }

  /**
   Legal persisted history: completed stages, then at most one stage that is pending or failed
   within its limit, then untouched stages. Running and Skipped are never persisted.
   */
  lemma PersistedHistoryLegal(p: Pipeline, outputs: map<string, string>, choices: seq<Choice>, k: nat)
    requires k < |End(p, outputs, choices).versions|
    ensures var st := End(p, outputs, choices).versions[k].status;
            st.stages == [] || exists c: nat :: InProgressAt(p, st, c)
  {
    VersionLegal(p, outputs, choices, k);
    var st := End(p, outputs, choices).versions[k].status;
    if st.stages != [] {
      LegalShape(p, st);
    }
  }

  /** A pass on any persisted version stays within bounds and never meets a stage in an unexpected state. */
  lemma NoUnexpectedState(p: Pipeline, outputs: map<string, string>, choices: seq<Choice>, k: nat, env: Env)
    requires k < |End(p, outputs, choices).versions|
    ensures var w := End(p, outputs, choices);
            var cr := w.versions[k];
            && ReconcilePass(p, cr, w.outputs, env).reply != Panicked
            && (cr.status.phase == PhaseRunning && Cursor(cr.status) < |cr.status.stages| ==>
                  cr.status.stages[Cursor(cr.status)].phase in {StagePending, StageFailed})
  {
    VersionLegal(p, outputs, choices, k);
    var w := End(p, outputs, choices);
    PassMoves(p, w.versions[k], w.outputs, env);
  }

  lemma RetriesBounded(p: Pipeline, st: PipelineStatus, i: nat)
    requires LegalStatus(p, st) && i < |st.stages|
    ensures |st.stages| == |p.spec.stages| && 0 <= st.stages[i].retryCount <= Limit(p, i)
  {
    if i < Cursor(st) {
      assert StageDone(p, i, st.stages[i]);
    }
  }

  /** In every version ever persisted the retry count is within its limit, and counting one more retry never wraps. */
  lemma RetryCountInRange(p: Pipeline, outputs: map<string, string>, choices: seq<Choice>, k: nat, i: nat)
    requires k < |End(p, outputs, choices).versions|
    requires i < |End(p, outputs, choices).versions[k].status.stages|
    ensures var s := End(p, outputs, choices).versions[k].status.stages[i];
            && i < |p.spec.stages| && 0 <= s.retryCount <= Limit(p, i)
            && (s.retryCount < Limit(p, i) ==> RetriedStage(s).retryCount == s.retryCount + 1)
  {
    VersionLegal(p, outputs, choices, k);
    RetriesBounded(p, End(p, outputs, choices).versions[k].status, i);
  }

  /** Attempt conservation, and the bound that follows from it. */
  lemma AttemptsConserved(p: Pipeline, outputs: map<string, string>, choices: seq<Choice>, i: nat)
    requires Run(p, outputs, choices) && i < |p.spec.stages|
    ensures var w := End(p, outputs, choices);
            && Balanced(p, w, i)
            && w.attempts[i] <= Limit(p, i) + 2 + w.lost[i]
  {
    RunKeepsInv(p, outputs, choices);
    FailuresBounded(p, End(p, outputs, choices), i);
    assert Balanced(p, End(p, outputs, choices), i);
  }

  lemma FailuresBounded(p: Pipeline, w: World, i: nat)
    requires Lawful(p, w) && i < |p.spec.stages|
    ensures 0 <= FailuresOf(Current(w).status, i) <= Limit(p, i) + 1
  {
    var st := Current(w).status;
    assert LegalStatus(p, st);
    if i < |st.stages| && i < Cursor(st) {
      assert StageDone(p, i, st.stages[i]);
    }
  }

  lemma PassLeavesStored(p: Pipeline, w: World, w': World, cr: Resource, env: Env, pass: Pass, landed: bool, i: nat)
    requires WellFormed(p, w) && PassStep(p, w, w', cr, env, pass, landed) && !env.guardReadFails
    requires i < |p.spec.stages| && OutName(p, i) in w.outputs
    requires pass.call.Some? ==> pass.attempt == Some(pass.call.value.stage)
    ensures OutName(p, i) in w'.outputs && w'.outputs[OutName(p, i)] == w.outputs[OutName(p, i)]
    ensures w'.attempts[i] == w.attempts[i]
    ensures forall k :: |w.calls| <= k < |w'.calls| ==> w'.calls[k].stage != i
  {
    PassStepGrows(p, w, w', cr, env, pass, landed);
  }

  /** One step leaves a stage whose output is stored alone: no attempt, no call, no change of text. */
  lemma StoredStageUntouched(p: Pipeline, w: World, c: Choice, i: nat)
    requires Lawful(p, w) && Benign(p, c)
    requires i < |p.spec.stages| && OutName(p, i) in w.outputs
    ensures var w' := Step(p, w, c);
            && OutName(p, i) in w'.outputs && w'.outputs[OutName(p, i)] == w.outputs[OutName(p, i)]
            && w'.attempts[i] == w.attempts[i]
            && w.calls <= w'.calls
            && forall k :: |w.calls| <= k < |w'.calls| ==> w'.calls[k].stage != i
  {
    if c.Reconciles? && c.env.fetch == Found {
      var cr, pass, landed := ReconcileIsPassStep(p, w, c);
      if pass.call.Some? {
        CallOfAttempt(p, cr, w.outputs, c.env);
      }
      PassLeavesStored(p, w, Step(p, w, c), cr, c.env, pass, landed, i);
    }
  }

  /** No re-execution, write-once output: whatever happens after an output is stored. */
  lemma {:induction false} NoReexecutionFrom(p: Pipeline, w: World, choices: seq<Choice>, i: nat)
    requires Lawful(p, w) && AllBenign(p, choices)
    requires i < |p.spec.stages| && OutName(p, i) in w.outputs
    ensures var w' := Exec(p, w, choices);
            && OutName(p, i) in w'.outputs && w'.outputs[OutName(p, i)] == w.outputs[OutName(p, i)]
            && w'.attempts[i] == w.attempts[i]
            && w.calls <= w'.calls
            && forall k :: |w.calls| <= k < |w'.calls| ==> w'.calls[k].stage != i
    decreases |choices|
  {
    if choices != [] {
      StoredStageUntouched(p, w, choices[0], i);
      StepLawful(p, w, choices[0]);
      NoReexecutionFrom(p, Step(p, w, choices[0]), choices[1..], i);
    }
  }

  lemma NoReexecution(p: Pipeline, outputs: map<string, string>, before: seq<Choice>, after: seq<Choice>, i: nat)
    requires AllBenign(p, after)
    requires i < |p.spec.stages| && OutName(p, i) in End(p, outputs, before).outputs
    ensures var w, w' := End(p, outputs, before), End(p, outputs, before + after);
            && OutName(p, i) in w'.outputs && w'.outputs[OutName(p, i)] == w.outputs[OutName(p, i)]
            && w'.attempts[i] == w.attempts[i]
            && w.calls <= w'.calls
            && forall k :: |w.calls| <= k < |w'.calls| ==> w'.calls[k].stage != i
  {
    EndLawful(p, outputs, before);
    ExecConcat(p, Init(p, outputs), before, after);
    NoReexecutionFrom(p, End(p, outputs, before), after, i);
  }

  /** The hypothesis on the guard is exact: a stored stage is run again if and only if the guard's read failed. */
  lemma ReexecutionIff(p: Pipeline, w: World, c: Choice)
    requires Lawful(p, w) && c.Reconciles? && c.env.fetch == Found
    requires var cr := w.versions[ReadVersion(w, c.staleness)];
             && !cr.deleting && Startable(p, cr, Cursor(cr.status)) && DependsOnEarlier(p, Cursor(cr.status))
             && OutName(p, Cursor(cr.status)) in w.outputs
    ensures var i := Cursor(w.versions[ReadVersion(w, c.staleness)].status);
            Step(p, w, c).attempts[i] == w.attempts[i] + 1 <==> c.env.guardReadFails
  {
    var cr, pass, landed := ReconcileIsPassStep(p, w, c);
    MetIffEarlier(p, cr.status);
  }

  /**
   Data flow: call k got the full outputs of exactly the stages before its own, all of them
   completed by now, and its prompt is made from them.
   */
  ghost predicate CallFlow(p: Pipeline, w: World, call: Call)
    requires w.versions != []
  {
    var i := call.stage;
    && i < |p.spec.stages|
    && call.context.stageOutputs.Keys == NamesBefore(p, i)
    && (forall j :: 0 <= j < i ==>
                      && OutName(p, j) in w.outputs && p.spec.stages[j].name in call.context.stageOutputs
                      && call.context.stageOutputs[p.spec.stages[j].name] == w.outputs[OutName(p, j)])
    && (i == 0 ==> call.context.previousOutput == "")
    && (i > 0 ==> call.context.previousOutput == w.outputs[OutName(p, i - 1)])
    && call.context.inputs == p.spec.stages[i].inputs
    && call.request.agentName == p.spec.stages[i].agentRef.name
    && call.request.namespace in {p.spec.stages[i].agentRef.namespace, p.namespace}
    && (call.request.namespace == "" ==> p.namespace == "")
    && (p.spec.stages[i].agentRef.namespace != "" ==>
          call.request.namespace == p.spec.stages[i].agentRef.namespace)
    && call.request.timeout == (if p.spec.stages[i].timeout.Some? then p.spec.stages[i].timeout.value else 300)
    && IsPrompt(p, i, call.context, call.request.prompt)
    && i <= StartedUpTo(Current(w).status)
    && (forall j :: 0 <= j < i ==> Current(w).status.stages[j].phase == StageCompleted)
  }

  lemma FaithfulContext(p: Pipeline, outputs: map<string, string>, call: Call)
    requires CallFaithful(p, outputs, call)
    ensures var i := call.stage;
            && call.context.stageOutputs.Keys == NamesBefore(p, i)
            && (forall j :: 0 <= j < i ==>
                              && p.spec.stages[j].name in call.context.stageOutputs
                              && call.context.stageOutputs[p.spec.stages[j].name] == outputs[OutName(p, j)])
  {
    assert forall s :: s in NamesBefore(p, call.stage) ==>
                         exists j :: 0 <= j < call.stage && p.spec.stages[j].name == s;
    assert forall j :: 0 <= j < call.stage ==> OutName(p, j) in outputs;
  }

  lemma CompletedBefore(p: Pipeline, st: PipelineStatus, i: nat)
    requires LegalStatus(p, st) && i <= StartedUpTo(st)
    ensures forall j :: 0 <= j < i ==> st.stages[j].phase == StageCompleted
  {
    forall j | 0 <= j < i
      ensures st.stages[j].phase == StageCompleted
    {
      assert StageDone(p, j, st.stages[j]);
    }
  }

  lemma CallFlowAt(p: Pipeline, w: World, k: nat)
    requires w.versions != [] && LegalStatus(p, Current(w).status)
    requires k < |w.calls| && CallFaithful(p, w.outputs, w.calls[k]) && CallsReached(w)
    ensures CallFlow(p, w, w.calls[k])
  {
    FaithfulContext(p, w.outputs, w.calls[k]);
    CompletedBefore(p, Current(w).status, w.calls[k].stage);
  }

  lemma DataFlow(p: Pipeline, outputs: map<string, string>, choices: seq<Choice>, k: nat)
    requires Run(p, outputs, choices) && k < |End(p, outputs, choices).calls|
    ensures CallFlow(p, End(p, outputs, choices), End(p, outputs, choices).calls[k])
  {
    RunKeepsInv(p, outputs, choices);
    InitInv(p, outputs);
    ExecCallsReached(p, Init(p, outputs), choices);
    CallFlowAt(p, End(p, outputs, choices), k);
  }

  /** With a template an agent is sent the template executed on its context, which holds the full earlier outputs. */
  lemma TemplatedPrompt(p: Pipeline, outputs: map<string, string>, choices: seq<Choice>, k: nat)
    requires Run(p, outputs, choices) && k < |End(p, outputs, choices).calls|
    ensures var w := End(p, outputs, choices);
            var call := w.calls[k];
            && call.stage < |p.spec.stages| && StoredBefore(p, w.outputs, call.stage)
            && call.context == IdealContext(p, w.outputs, call.stage)
            && (p.spec.stages[call.stage].prompt != "" ==>
                  p.template(p.spec.stages[call.stage].prompt, call.context) == Some(call.request.prompt))
  {
    RunKeepsInv(p, outputs, choices);
    assert CallFaithful(p, End(p, outputs, choices).outputs, End(p, outputs, choices).calls[k]);
  }

  /** Without a template an agent is sent the full output of the stage before it, if there is one. */
  lemma DefaultPrompt(p: Pipeline, outputs: map<string, string>, choices: seq<Choice>, k: nat)
    requires Run(p, outputs, choices) && k < |End(p, outputs, choices).calls|
    ensures var w := End(p, outputs, choices);
            var call := w.calls[k];
            && call.stage < |p.spec.stages|
            && (p.spec.stages[call.stage].prompt == "" ==>
                  && (call.stage > 0 ==> OutName(p, call.stage - 1) in w.outputs)
                  && call.request.prompt ==
                     if call.stage > 0 && w.outputs[OutName(p, call.stage - 1)] != ""
                     then w.outputs[OutName(p, call.stage - 1)]
                     else "Execute agent " + p.spec.stages[call.stage].agentRef.name)
  {
    DataFlow(p, outputs, choices, k);
  }

  /** No call is ever for a stage beyond the cursor. */
  ghost predicate CallsReached(w: World)
    requires w.versions != []
  {
    forall k :: 0 <= k < |w.calls| ==> w.calls[k].stage <= StartedUpTo(Current(w).status)
  }

  lemma StepCallsReached(p: Pipeline, w: World, c: Choice)
    requires Lawful(p, w) && CallsReached(w)
    ensures CallsReached(Step(p, w, c))
  {
    if c.Reconciles? && c.env.fetch == Found {
      var cr, pass, landed := ReconcileIsPassStep(p, w, c);
      if pass.call.Some? {
        CallOfAttempt(p, cr, w.outputs, c.env);
      }
      PassCallsReached(p, w, Step(p, w, c), cr, c.env, pass, landed);
    }
  }

  lemma PassCallsReached(p: Pipeline, w: World, w': World, cr: Resource, env: Env, pass: Pass, landed: bool)
    requires WellFormed(p, w) && LegalHistory(p, w) && CallsReached(w) && PassStep(p, w, w', cr, env, pass, landed)
    requires pass.call.Some? ==> pass.call.value.stage == StartedUpTo(cr.status)
    ensures w'.versions != [] && CallsReached(w')
  {
    HistoryStep(p, w, w', cr, pass, landed);
    AdvancesStarted(Current(w).status, Current(w').status);
  }

  lemma {:induction false} ExecCallsReached(p: Pipeline, w: World, choices: seq<Choice>)
    requires Lawful(p, w) && CallsReached(w)
    ensures CallsReached(Exec(p, w, choices))
    decreases |choices|
  {
    if choices != [] {
      StepCallsReached(p, w, choices[0]);
      StepLawful(p, w, choices[0]);
      ExecCallsReached(p, Step(p, w, choices[0]), choices[1..]);
    }
  }

  /** Every stored output is the complete answer of one of the calls to its stage. */
  lemma OutputsAreAnswers(p: Pipeline, outputs: map<string, string>, choices: seq<Choice>, i: nat)
    requires Run(p, outputs, choices) && i < |p.spec.stages|
    requires OutName(p, i) in End(p, outputs, choices).outputs
    ensures exists k: nat :: ProducedBy(p, End(p, outputs, choices), i, k)
  {
    RunKeepsInv(p, outputs, choices);
  }

  /** Pointer and content agreement; hence preparing a stage fails only on an unreadable output or on its template. */
  lemma PointersAgree(p: Pipeline, outputs: map<string, string>, choices: seq<Choice>, k: nat, i: nat)
    requires AllBenign(p, choices) && k < |End(p, outputs, choices).versions|
    requires i < |End(p, outputs, choices).versions[k].status.stages|
    requires End(p, outputs, choices).versions[k].status.stages[i].phase == StageCompleted
    ensures var w := End(p, outputs, choices);
            var s := w.versions[k].status.stages[i];
            && i < |p.spec.stages|
            && s.outputRef == OutName(p, i)
            && s.outputRef in w.outputs
            && s.output == TruncateOutput(w.outputs[s.outputRef])
  {
    EndStored(p, outputs, choices);
    PointersAgreeIn(p, End(p, outputs, choices), k, i);
  }

  lemma CompletedIsDone(p: Pipeline, st: PipelineStatus, i: nat)
    requires LegalStatus(p, st) && i < |st.stages| && st.stages[i].phase == StageCompleted
    ensures i < Cursor(st) && i < |p.spec.stages| && StageDone(p, i, st.stages[i])
  {
    assert Shape(p, st.stages);
  }

  lemma PointersAgreeIn(p: Pipeline, w: World, k: nat, i: nat)
    requires Lawful(p, w) && StoreAgrees(p, w) && k < |w.versions|
    requires i < |w.versions[k].status.stages| && w.versions[k].status.stages[i].phase == StageCompleted
    ensures var s := w.versions[k].status.stages[i];
            && i < |p.spec.stages|
            && s.outputRef == OutName(p, i)
            && s.outputRef in w.outputs
            && s.output == TruncateOutput(w.outputs[s.outputRef])
  {
    var st := w.versions[k].status;
    CompletedIsDone(p, st, i);
    assert Advances(st, Current(w).status);
    assert Previewed(p, w, i);
  }

  lemma PreparationFailsIff(p: Pipeline, outputs: map<string, string>, choices: seq<Choice>, k: nat, env: Env)
    requires Run(p, outputs, choices) && k < |End(p, outputs, choices).versions|
    requires var cr := End(p, outputs, choices).versions[k]; Startable(p, cr, Cursor(cr.status))
    ensures var w := End(p, outputs, choices);
            var cr := w.versions[k];
            var c := Cursor(cr.status);
            && StoredBefore(p, w.outputs, c)
            && (PreparedFor(p, cr, c, w.outputs, env).Failure? <==>
                  || (exists j :: 0 <= j < c && OutName(p, j) in env.unreadable)
                  || !CanRender(p, c, IdealContext(p, w.outputs, c)))
  {
    RunKeepsInv(p, outputs, choices);
    var w := End(p, outputs, choices);
    VersionIsSnapshot(p, w, k);
    SnapshotStored(p, w, w.versions[k]);
    PreparedIsIdeal(p, w.versions[k], w.outputs, env);
  }

  ghost predicate StagesCoherent(stages: seq<StageStatus>) {
    forall s :: s in stages ==>
                  && (s.completedAt.Some? <==> s.phase == StageCompleted || s.phase == StageFailed)
                  && (s.phase != StageFailed ==> s.error == "")
  }

  /** What a status says about itself: phase, condition, timestamps and current stage agree with the stages. */
  ghost predicate Coherent(p: Pipeline, st: PipelineStatus) {
    && (st.phase == PhaseCompleted <==> st.ready.Some? && st.ready.value.isTrue)
    && (st.phase == PhaseCompleted ==> st.stages != [] && forall s :: s in st.stages ==> s.phase == StageCompleted)
    && (Terminal(st) <==> st.completedAt.Some?)
    && (st.phase == PhaseRunning ==> |st.stages| == |p.spec.stages|)
    && (st.startedAt.Some? <==> st.stages != [])
    && (st.phase == PhaseCompleted ==> st.currentStage == "")
    && (st.phase == PhaseFailed && st.stages != [] ==>
          exists s :: s in st.stages && s.phase == StageFailed && st.currentStage == s.name
                      && st.ready == Some(Condition(false, StageExhausted(s.name, s.retryCount, s.error))))
  }

  lemma LegalStagesCoherent(p: Pipeline, st: PipelineStatus)
    requires LegalStatus(p, st)
    ensures StagesCoherent(st.stages)
  {
    forall i | 0 <= i < |st.stages|
      ensures st.stages[i].completedAt.Some? <==>
              st.stages[i].phase == StageCompleted || st.stages[i].phase == StageFailed
      ensures st.stages[i].phase != StageFailed ==> st.stages[i].error == ""
    {
      assert i < Cursor(st) ==> StageDone(p, i, st.stages[i]);
    }
  }

  lemma LegalCoherent(p: Pipeline, st: PipelineStatus)
    requires LegalStatus(p, st)
    ensures Coherent(p, st)
  {
    if st.phase == PhaseCompleted {
      assert forall i :: 0 <= i < |st.stages| ==> StageDone(p, i, st.stages[i]);
    }
    if st.phase == PhaseFailed && st.stages != [] {
      assert st.stages[Cursor(st)] in st.stages;
    }
  }

  /** Status coherence of every persisted version. */
  lemma StatusCoherent(p: Pipeline, outputs: map<string, string>, choices: seq<Choice>, k: nat)
    requires k < |End(p, outputs, choices).versions|
    ensures var st := End(p, outputs, choices).versions[k].status; Coherent(p, st) && StagesCoherent(st.stages)
  {
    VersionLegal(p, outputs, choices, k);
    LegalCoherent(p, End(p, outputs, choices).versions[k].status);
    LegalStagesCoherent(p, End(p, outputs, choices).versions[k].status);
  }

  /** A terminal status is absorbing: no continuation of the run changes it. */
  lemma TerminalAbsorbing(p: Pipeline, outputs: map<string, string>, before: seq<Choice>, after: seq<Choice>)
    requires Terminal(Current(End(p, outputs, before)).status)
    ensures Current(End(p, outputs, before + after)).status == Current(End(p, outputs, before)).status
  {
    EndLawful(p, outputs, before);
    ExecConcat(p, Init(p, outputs), before, after);
    ExecLawful(p, End(p, outputs, before), after);
  }

  /**
   Failure isolation: one stage really tried until exhaustion, everything before it completed,
   nothing after it ever tried.
   */
  ghost predicate FailedAt(p: Pipeline, w: World, c: nat)
    requires WellFormed(p, w)
  {
    var st := Current(w).status;
    && c < |st.stages| == |p.spec.stages|
    && st.stages[c].phase == StageFailed && st.stages[c].retryCount == Limit(p, c)
    && w.attempts[c] > Limit(p, c)
    && (forall i :: 0 <= i < c ==> st.stages[i].phase == StageCompleted)
    && (forall i :: c < i < |st.stages| ==> w.attempts[i] == 0 && st.stages[i].phase == StagePending)
    && (forall k :: 0 <= k < |w.calls| ==> w.calls[k].stage <= c)
  }

  lemma FailedAtCursor(p: Pipeline, w: World)
    requires Lawful(p, w) && NothingBeyond(p, w) && Conserved(p, w) && CallsReached(w)
    requires |p.spec.stages| > 0 && Current(w).status.phase == PhaseFailed
    ensures FailedAt(p, w, Cursor(Current(w).status))
  {
    var st := Current(w).status;
    assert LegalStatus(p, st);
    assert Balanced(p, w, Cursor(st));
    assert forall i :: 0 <= i < Cursor(st) ==> StageDone(p, i, st.stages[i]);
  }

  lemma FailureIsolated(p: Pipeline, outputs: map<string, string>, choices: seq<Choice>)
    requires Run(p, outputs, choices) && |p.spec.stages| > 0
    requires Current(End(p, outputs, choices)).status.phase == PhaseFailed
    ensures exists c: nat :: FailedAt(p, End(p, outputs, choices), c)
  {
    RunKeepsInv(p, outputs, choices);
    InitInv(p, outputs);
    ExecCallsReached(p, Init(p, outputs), choices);
    FailedAtCursor(p, End(p, outputs, choices));
  }

  lemma CompletedIsStored(p: Pipeline, w: World)
    requires Lawful(p, w) && StoreAgrees(p, w) && Current(w).status.phase == PhaseCompleted
    ensures StoredBefore(p, w.outputs, |p.spec.stages|)
  {
    assert LegalStatus(p, Current(w).status);
    forall i | 0 <= i < |p.spec.stages|
      ensures OutName(p, i) in w.outputs
    {
      assert Previewed(p, w, i);
    }
  }

  /** No pass on a completed pipeline begins an attempt, whatever version it reads. */
  lemma CompletedStepQuiet(p: Pipeline, w: World, c: Choice)
    requires Lawful(p, w) && StoreAgrees(p, w) && Benign(p, c) && Current(w).status.phase == PhaseCompleted
    ensures Step(p, w, c).calls == w.calls && Step(p, w, c).attempts == w.attempts
  {
    if c.Reconciles? && c.env.fetch == Found {
      var cr, pass, landed := ReconcileIsPassStep(p, w, c);
      CompletedIsStored(p, w);
      assert pass.attempt.None?;
    }
  }

  /** Once the pipeline is completed no stale pass runs an agent, because every output is stored. */
  lemma {:induction false} QuietOnceCompleted(p: Pipeline, w: World, choices: seq<Choice>)
    requires Lawful(p, w) && StoreAgrees(p, w) && AllBenign(p, choices) && Current(w).status.phase == PhaseCompleted
    ensures var w' := Exec(p, w, choices); w'.calls == w.calls && w'.attempts == w.attempts
    decreases |choices|
  {
    if choices != [] {
      CompletedStepQuiet(p, w, choices[0]);
      StepLawful(p, w, choices[0]);
      StepStored(p, w, choices[0]);
      QuietOnceCompleted(p, Step(p, w, choices[0]), choices[1..]);
    }
  }

  /** With fresh reads no agent is invoked after either terminal phase. */
  lemma {:induction false} QuietOnceTerminal(p: Pipeline, w: World, choices: seq<Choice>)
    requires Lawful(p, w) && AllFresh(choices) && Terminal(Current(w).status)
    ensures var w' := Exec(p, w, choices); w'.calls == w.calls && w'.attempts == w.attempts
    decreases |choices|
  {
    if choices != [] {
      var w1 := Step(p, w, choices[0]);
      assert w1.calls == w.calls && w1.attempts == w.attempts;
      StepLawful(p, w, choices[0]);
      QuietOnceTerminal(p, w1, choices[1..]);
    }
  }

  /** A version in which the stage that later exhausted its tries is still to be tried. */
  ghost predicate TriesAgain(p: Pipeline, cr: Resource, f: nat, outputs: map<string, string>) {
    && !cr.deleting && cr.status.phase == PhaseRunning
    && Cursor(cr.status) == f < |cr.status.stages| && f < |p.spec.stages|
    && cr.status.stages[f].phase == StagePending
    && DependsOnEarlier(p, f)
    && OutName(p, f) !in outputs
  }

  /**
   Exactly when a pass runs an agent although the pipeline has failed: the version it reads
   is from before the failed stage's last try, and nothing is stored for that stage.
   */
  lemma FailedStepTriesIff(p: Pipeline, w: World, c: Choice)
    requires Lawful(p, w) && StoreAgrees(p, w) && Benign(p, c) && Current(w).status.phase == PhaseFailed
    requires c.Reconciles? && c.env.fetch == Found
    ensures var cr := w.versions[ReadVersion(w, c.staleness)];
            Step(p, w, c).attempts != w.attempts <==> TriesAgain(p, cr, Cursor(Current(w).status), w.outputs)
  {
    var cr, pass, landed := ReconcileIsPassStep(p, w, c);
    SnapshotStored(p, w, cr);
    FailedBeginsIff(p, w, cr, c.env);
  }

  lemma FailedBeginsIff(p: Pipeline, w: World, cr: Resource, env: Env)
    requires Lawful(p, w) && Current(w).status.phase == PhaseFailed && !env.guardReadFails
    requires StoreAgrees(p, w) && Snapshot(p, w, cr)
    ensures BeginsAttempt(p, cr, w.outputs, env) <==> TriesAgain(p, cr, Cursor(Current(w).status), w.outputs)
  {
    if cr.status.phase == PhaseRunning && Cursor(cr.status) < |cr.status.stages| {
      MetIffEarlier(p, cr.status);
      if Cursor(cr.status) < Cursor(Current(w).status) {
        assert Previewed(p, w, Cursor(cr.status));
      }
    }
  }

  lemma DoneMeansOver(p: Pipeline, cr: Resource, outputs: map<string, string>, env: Env)
    requires LegalStatus(p, cr.status) && ReconcilePass(p, cr, outputs, env).reply == Done
    ensures var submitted := ReconcilePass(p, cr, outputs, env).submitted;
            cr.deleting || Terminal(if submitted.Some? then submitted.value.status else cr.status)
  {
    if !cr.deleting && cr.status.phase == PhaseRunning {
      RunningDoneMeansOver(p, cr, outputs, env);
    }
  }

  lemma StartNotDone(p: Pipeline, cr: Resource, i: nat, outputs: map<string, string>, env: Env)
    requires i < |cr.status.stages| && i < |p.spec.stages|
    ensures StartPass(p, cr, i, outputs, env).reply in {RequeueNow, Failed}
  {
  }

  lemma RunningDoneMeansOver(p: Pipeline, cr: Resource, outputs: map<string, string>, env: Env)
    requires LegalStatus(p, cr.status) && cr.status.phase == PhaseRunning
    requires RunningPass(p, cr, outputs, env).reply == Done
    ensures var submitted := RunningPass(p, cr, outputs, env).submitted;
            submitted.Some? && Terminal(submitted.value.status)
  {
    var c := Cursor(cr.status);
    if c < |cr.status.stages| {
      StartNotDone(p, cr, c, outputs, env);
      assert StageActive(p, c, cr.status.stages[c]);
    }
  }

  /**
   No lost wake-up: a pass that asks for no further pass found no resource, or read a deleted
   one, or leaves a terminal pipeline behind.
   */
  lemma NoLostWakeup(p: Pipeline, outputs: map<string, string>, choices: seq<Choice>, staleness: nat, env: Env)
    requires StepReply(p, End(p, outputs, choices), staleness, env) == Done
    ensures var w := End(p, outputs, choices);
            || env.fetch == NotFound
            || w.versions[ReadVersion(w, staleness)].deleting
            || Terminal(Current(Step(p, w, Reconciles(staleness, env))).status)
  {
    EndLawful(p, outputs, choices);
    if env.fetch == Found {
      WakeupKept(p, End(p, outputs, choices), staleness, env);
    }
  }

  lemma WakeupKept(p: Pipeline, w: World, staleness: nat, env: Env)
    requires Lawful(p, w) && env.fetch == Found && StepReply(p, w, staleness, env) == Done
    ensures || w.versions[ReadVersion(w, staleness)].deleting
            || Terminal(Current(Step(p, w, Reconciles(staleness, env))).status)
  {
    var cr, pass, landed := ReconcileIsPassStep(p, w, Reconciles(staleness, env));
    DoneMeansOver(p, cr, w.outputs, env);
    StepByPass(p, w, staleness, env, pass);
  }

  /** With safe stage names the outputs another pipeline writes are no threat: its writes are benign. */
  lemma OtherPipelinesBenign(p: Pipeline, q: Pipeline, j: nat, text: string)
    requires p.name != q.name && j < |q.spec.stages| && SafeStageName(q.spec.stages[j].name)
    requires forall i :: 0 <= i < |p.spec.stages| ==> SafeStageName(p.spec.stages[i].name)
    ensures Benign(p, WritesElsewhere(OutName(q, j), text))
  {
    forall i | 0 <= i < |p.spec.stages|
      ensures OutName(p, i) != OutName(q, j)
    {
      SafeNamesInjective(p.name, p.spec.stages[i].name, q.name, q.spec.stages[j].name);
    }
  }
}
