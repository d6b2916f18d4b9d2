/**
 The invariants of runs with stale reads, lost and misreported writes and crashes. A legal
 history is kept by every run of every pipeline; agreement of status and store by every run
 in which the guard can read and nobody else writes the outputs; conservation of attempts and
 faithfulness of every agent call where, in addition, the stage names are distinct.
 */
module Invariants {
  import opened Wrappers
  import opened PipelineTypes
  import opened StageHandler
  import opened Reconcile
  import opened Protocol
  import opened Legality
  import opened Attempts
  import opened Naming

  /** Every persisted version is legal and leads to the current one. */
  ghost predicate LegalHistory(p: Pipeline, w: World) {
    && w.versions != []
    && forall k :: 0 <= k < |w.versions| ==>
                     LegalStatus(p, w.versions[k].status) && Advances(w.versions[k].status, Current(w).status)
  }

  ghost predicate Lawful(p: Pipeline, w: World) {
    WellFormed(p, w) && LegalHistory(p, w)
  }

  function StartedUpTo(st: PipelineStatus): int {
    if st.stages == [] then -1 else Cursor(st)
  }

  /** Stage i of the current version shows the output stored for it. */
  ghost predicate Previewed(p: Pipeline, w: World, i: nat)
    requires w.versions != [] && i < |p.spec.stages| && i < |Current(w).status.stages|
  {
    OutName(p, i) in w.outputs && Current(w).status.stages[i].output == TruncateOutput(w.outputs[OutName(p, i)])
  }

  /** Completed stages have their output stored and previewed. */
  ghost predicate StoreAgrees(p: Pipeline, w: World)
    requires WellFormed(p, w) && LegalStatus(p, Current(w).status)
  {
    forall i :: 0 <= i < Cursor(Current(w).status) ==> Previewed(p, w, i)
  }

  /** Nothing beyond the cursor was ever touched. */
  ghost predicate NothingBeyond(p: Pipeline, w: World)
    requires WellFormed(p, w)
  {
    var st := Current(w).status;
    && (forall i :: 0 <= i < |p.spec.stages| && OutName(p, i) in w.outputs ==> i <= StartedUpTo(st))
    && (forall i :: 0 <= i < |p.spec.stages| && w.attempts[i] > 0 ==> i <= StartedUpTo(st))
  }

  function StoredCount(p: Pipeline, outputs: map<string, string>, i: nat): nat
    requires i < |p.spec.stages|
  {
    if OutName(p, i) in outputs then 1 else 0
  }

  /** Every attempt of stage i is accounted for: a recorded failure, the stored output, or a lost result. */
  ghost predicate Balanced(p: Pipeline, w: World, i: nat)
    requires WellFormed(p, w) && i < |p.spec.stages|
  {
    w.attempts[i] == FailuresOf(Current(w).status, i) + StoredCount(p, w.outputs, i) + w.lost[i]
  }

  ghost predicate Conserved(p: Pipeline, w: World)
    requires WellFormed(p, w)
  {
    forall i :: 0 <= i < |p.spec.stages| ==> Balanced(p, w, i)
  }

  function NamesBefore(p: Pipeline, i: nat): set<string>
    requires i <= |p.spec.stages|
  {
    set j | 0 <= j < i :: p.spec.stages[j].name
  }

  ghost predicate StoredBefore(p: Pipeline, outputs: map<string, string>, i: nat)
    requires i <= |p.spec.stages|
  {
    forall j :: 0 <= j < i ==> OutName(p, j) in outputs
  }

  /** The full outputs of the stages before i, by stage name. */
  function OutputsBefore(p: Pipeline, outputs: map<string, string>, i: nat): (m: map<string, string>)
    requires i <= |p.spec.stages|
    ensures forall j :: 0 <= j < i && OutName(p, j) in outputs ==>
                          p.spec.stages[j].name in m && m[p.spec.stages[j].name] == outputs[OutName(p, j)]
  {
    map s | s in NamesBefore(p, i) && OutputName(p.name, s) in outputs :: outputs[OutputName(p.name, s)]
  }

  /** The context stage i should get: the full outputs of exactly the stages before it. */
  ghost function IdealContext(p: Pipeline, outputs: map<string, string>, i: nat): PipelineContext
    requires i < |p.spec.stages| && StoredBefore(p, outputs, i)
  {
    PipelineContext(if i == 0 then "" else outputs[OutName(p, i - 1)],
                    p.spec.stages[i].inputs,
                    OutputsBefore(p, outputs, i))
  }

  predicate DependsOnEarlier(p: Pipeline, i: nat)
    requires i < |p.spec.stages|
  {
    forall d :: d in p.spec.stages[i].dependsOn ==> d in NamesBefore(p, i)
  }

  /** The prompt of stage i can be made: it has no template, or the template can be executed on the context. */
  predicate CanRender(p: Pipeline, i: nat, context: PipelineContext)
    requires i < |p.spec.stages|
  {
    p.spec.stages[i].prompt == "" || p.template(p.spec.stages[i].prompt, context).Some?
  }

  /**
   What the agent of stage i is to be sent: its template executed on the context, or without
   a template the previous output, or without that a sentence naming the agent.
   */
  predicate IsPrompt(p: Pipeline, i: nat, context: PipelineContext, text: string)
    requires i < |p.spec.stages|
  {
    var stage := p.spec.stages[i];
    if stage.prompt != "" then p.template(stage.prompt, context) == Some(text)
    else if context.previousOutput != "" then text == context.previousOutput
    else text == "Execute agent " + stage.agentRef.name
  }

  /** A call was made with the ideal context and its prompt, for a stage whose dependencies come earlier. */
  ghost predicate CallFaithful(p: Pipeline, outputs: map<string, string>, call: Call) {
    && call.stage < |p.spec.stages|
    && StoredBefore(p, outputs, call.stage)
    && call.context == IdealContext(p, outputs, call.stage)
    && DependsOnEarlier(p, call.stage)
    && IsPrompt(p, call.stage, call.context, call.request.prompt)
    && call.request == RequestFor(p, p.spec.stages[call.stage], call.request.prompt)
  }

  ghost predicate ProducedBy(p: Pipeline, w: World, i: nat, k: nat)
    requires i < |p.spec.stages| && OutName(p, i) in w.outputs
  {
    k < |w.calls| && w.calls[k].stage == i &&
    w.calls[k].outcome.RunCompleted? && w.calls[k].outcome.output == w.outputs[OutName(p, i)]
  }

  /** Every call is faithful, and every stored output is the full answer of some call. */
  ghost predicate CallsFaithful(p: Pipeline, w: World) {
    && (forall k :: 0 <= k < |w.calls| ==> CallFaithful(p, w.outputs, w.calls[k]))
    && (forall i :: 0 <= i < |p.spec.stages| && OutName(p, i) in w.outputs ==> exists k :: ProducedBy(p, w, i, k))
  }

  ghost predicate Inv(p: Pipeline, w: World) {
    && Lawful(p, w)
    && StoreAgrees(p, w)
    && NothingBeyond(p, w)
    && Conserved(p, w)
    && CallsFaithful(p, w)
  }

  lemma InitLawful(p: Pipeline, outputs: map<string, string>)
    ensures Lawful(p, Init(p, outputs)) && StoreAgrees(p, Init(p, outputs))
  {
  }

  lemma InitInv(p: Pipeline, outputs: map<string, string>)
    requires NoOutputs(p, outputs)
    ensures Inv(p, Init(p, outputs))
  {
  }

  lemma OutNamesDistinct(p: Pipeline, i: nat, j: nat)
    requires DistinctNames(p) && i < |p.spec.stages| && j < |p.spec.stages|
    ensures OutName(p, i) == OutName(p, j) <==> i == j
  {
    OutputNameInjective(p.name, p.spec.stages[i].name, p.spec.stages[j].name);
  }

  /** In a legal status exactly the stages before the cursor are completed. */
  lemma MetIffEarlier(p: Pipeline, st: PipelineStatus)
    requires LegalStatus(p, st) && st.stages != [] && Cursor(st) < |st.stages|
    ensures DependenciesMet(st.stages, p.spec.stages[Cursor(st)].dependsOn) <==> DependsOnEarlier(p, Cursor(st))
  {
    var c := Cursor(st);
    var names := NamesBefore(p, c);
    forall d | d in p.spec.stages[c].dependsOn
      ensures d in names <==>
              exists j :: 0 <= j < |st.stages| && st.stages[j].phase == StageCompleted && st.stages[j].name == d
    {
      if d in names {
        var j :| 0 <= j < c && p.spec.stages[j].name == d;
        assert StageDone(p, j, st.stages[j]);
      }
      if j :| 0 <= j < |st.stages| && st.stages[j].phase == StageCompleted && st.stages[j].name == d {
        assert j < c;
        assert StageDone(p, j, st.stages[j]);
      }
    }
  }

  lemma OutputsBeforeSnoc(p: Pipeline, outputs: map<string, string>, k: nat)
    requires k < |p.spec.stages| && OutName(p, k) in outputs
    ensures OutputsBefore(p, outputs, k + 1) ==
            OutputsBefore(p, outputs, k)[p.spec.stages[k].name := outputs[OutName(p, k)]]
  {
    assert NamesBefore(p, k + 1) == NamesBefore(p, k) + {p.spec.stages[k].name};
  }

  /** The context once the first k stages, all completed, have been read on behalf of stage c. */
  ghost function PartialContext(p: Pipeline, outputs: map<string, string>, c: nat, k: nat): PipelineContext
    requires k <= c < |p.spec.stages| && StoredBefore(p, outputs, c)
  {
    PipelineContext(if k == c && 0 < k then outputs[OutName(p, k - 1)] else "",
                    p.spec.stages[c].inputs, OutputsBefore(p, outputs, k))
  }

  lemma PartialContextGrows(p: Pipeline, outputs: map<string, string>, c: nat, k: nat)
    requires k < c < |p.spec.stages| && DistinctUpTo(p, c) && StoredBefore(p, outputs, c)
    ensures var output := outputs[OutName(p, k)];
            var isPrevious := p.spec.stages[k + 1].name == p.spec.stages[c].name;
            var pc := PartialContext(p, outputs, c, k);
            PartialContext(p, outputs, c, k + 1) ==
            PipelineContext(if isPrevious then output else pc.previousOutput,
                            pc.inputs, pc.stageOutputs[p.spec.stages[k].name := output])
  {
    OutputsBeforeSnoc(p, outputs, k);
    if k + 1 < c {
      assert p.spec.stages[k + 1].name != p.spec.stages[c].name;
    }
  }

  /** What one completed stage adds to the context. */
  lemma ContextOfDone(p: Pipeline, stages: seq<StageStatus>, readable: map<string, string>, current: StageSpec, k: nat)
    requires k < |stages| && k + 1 < |p.spec.stages| && StageDone(p, k, stages[k])
    requires ContextUpTo(p, stages, readable, current, k).Success?
    ensures var pc := ContextUpTo(p, stages, readable, current, k).value;
            var r := ContextUpTo(p, stages, readable, current, k + 1);
            && (r.Success? <==> OutName(p, k) in readable)
            && (r.Success? ==>
                  var output := readable[OutName(p, k)];
                  var isPrevious := p.spec.stages[k + 1].name == current.name;
                  r.value == PipelineContext(if isPrevious then output else pc.previousOutput,
                                             pc.inputs, pc.stageOutputs[p.spec.stages[k].name := output]))
  {
  }

  lemma {:induction false} ContextPrefix(p: Pipeline, stages: seq<StageStatus>, outputs: map<string, string>,
                                         readable: map<string, string>, c: nat, k: nat)
    requires k <= c < |p.spec.stages| == |stages| && DistinctUpTo(p, c) && StoredBefore(p, outputs, c)
    requires forall i :: 0 <= i < c ==> StageDone(p, i, stages[i])
    requires forall name :: name in readable ==> name in outputs && readable[name] == outputs[name]
    ensures var r := ContextUpTo(p, stages, readable, p.spec.stages[c], k);
            && (r.Success? <==> StoredBefore(p, readable, k))
            && (r.Success? ==> r.value == PartialContext(p, outputs, c, k))
  {
    if k == 0 {
      assert OutputsBefore(p, outputs, 0) == map[];
    } else {
      ContextPrefix(p, stages, outputs, readable, c, k - 1);
      assert StoredBefore(p, readable, k) <==> StoredBefore(p, readable, k - 1) && OutName(p, k - 1) in readable;
      if ContextUpTo(p, stages, readable, p.spec.stages[c], k - 1).Success? {
        ContextOfDone(p, stages, readable, p.spec.stages[c], k - 1);
        PartialContextGrows(p, outputs, c, k - 1);
      }
    }
  }

  lemma {:induction false} ContextRest(p: Pipeline, stages: seq<StageStatus>, readable: map<string, string>,
                                       current: StageSpec, c: nat, k: nat)
    requires c <= k <= |stages|
    requires forall i :: c <= i < |stages| ==> stages[i].phase != StageCompleted
    ensures ContextUpTo(p, stages, readable, current, k) == ContextUpTo(p, stages, readable, current, c)
  {
    if c < k {
      ContextRest(p, stages, readable, current, c, k - 1);
    }
  }

  /**
   Preparing the current stage of a legal snapshot yields the ideal context; it fails only on
   an unreadable output or on the template.
   */
  lemma PreparedIsIdeal(p: Pipeline, cr: Resource, outputs: map<string, string>, env: Env)
    requires Startable(p, cr, Cursor(cr.status)) && DistinctUpTo(p, Cursor(cr.status))
    requires StoredBefore(p, outputs, Cursor(cr.status))
    ensures var c := Cursor(cr.status);
            var prepared := PreparedFor(p, cr, c, outputs, env);
            var ideal := IdealContext(p, outputs, c);
            && (prepared.Success? <==> StoredBefore(p, outputs - env.unreadable, c)
                                       && CanRender(p, c, ideal))
            && (prepared.Success? ==>
                  prepared.value.context == ideal && IsPrompt(p, c, ideal, prepared.value.prompt))
  {
    var c := Cursor(cr.status);
    var stages := MarkedRunning(p, cr, c, env.now).status.stages;
    var readable := outputs - env.unreadable;
    forall i | 0 <= i < c
      ensures StageDone(p, i, stages[i])
    {
      assert stages[i] == cr.status.stages[i];
    }
    ContextPrefix(p, stages, outputs, readable, c, c);
    ContextRest(p, stages, readable, p.spec.stages[c], c, |stages|);
  }
}
