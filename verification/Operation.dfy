/**
 The guarantees carried over to the objects of the controller: what is true of a run of the
 protocol is true of the API server and the runner once the reconciler has been driven
 through it.
 */
module Operation {
  import opened PipelineTypes
  import opened Protocol
  import opened Legality
  import opened Safety
  import opened Termination
  import opened Controller

  /** A new pipeline with a reconciler of its own, driven through a run. */
  method Operate(p: Pipeline, outputs: map<string, string>, choices: seq<Choice>) returns (r: Reconciler)
    ensures fresh(r) && fresh(r.api) && fresh(r.runner) && r.p == p
    ensures r.Seen() == End(p, outputs, choices)
  {
    var api := new ApiServer(outputs);
    var runner := new AgentRunner();
    r := new Reconciler(p, api, runner);
    assert r.Seen() == Init(p, outputs);
    r.Drive(choices);
  }

  /**
   No re-execution, on the objects: what the API server has stored for a stage when the first
   part of the run is over it still has after the second, and the runner has seen no call of
   that stage in between.
   */
  method OperateOn(p: Pipeline, outputs: map<string, string>, before: seq<Choice>, after: seq<Choice>)
    returns (r: Reconciler, stored: map<string, string>, called: nat)
    requires AllBenign(p, after)
    ensures fresh(r) && fresh(r.api) && fresh(r.runner)
    ensures stored == End(p, outputs, before).outputs && called == |End(p, outputs, before).calls|
    ensures called <= |r.runner.calls|
    ensures forall i :: 0 <= i < |p.spec.stages| && OutName(p, i) in stored ==>
                          && OutName(p, i) in r.api.outputs && r.api.outputs[OutName(p, i)] == stored[OutName(p, i)]
                          && forall k :: called <= k < |r.runner.calls| ==> r.runner.calls[k].stage != i
  {
    r := Operate(p, outputs, before);
    stored, called := r.api.outputs, |r.runner.calls|;
    r.Drive(after);
    ExecConcat(p, Init(p, outputs), before, after);
    CallsOnlyGrow(p, End(p, outputs, before), after);
    forall i | 0 <= i < |p.spec.stages| && OutName(p, i) in stored
      ensures OutName(p, i) in r.api.outputs && r.api.outputs[OutName(p, i)] == stored[OutName(p, i)]
      ensures forall k :: called <= k < |r.runner.calls| ==> r.runner.calls[k].stage != i
    {
      NoReexecution(p, outputs, before, after, i);
    }
  }

  lemma {:induction false} CallsOnlyGrow(p: Pipeline, w: World, choices: seq<Choice>)
    requires WellFormed(p, w)
    ensures |w.calls| <= |Exec(p, w, choices).calls|
    decreases |choices|
  {
    if choices != [] {
      CallsOnlyGrow(p, Step(p, w, choices[0]), choices[1..]);
    }
  }

  /** Termination, on the objects: after enough passes the last version the API server holds is terminal. */
  method OperateToTheEnd(p: Pipeline, outputs: map<string, string>, choices: seq<Choice>) returns (r: Reconciler)
    requires NoDeletion(choices) && AllDependEarlier(p)
    requires |choices| >= 3 + Budget(p, 0) + CountFaulty(choices)
    ensures fresh(r) && fresh(r.api) && fresh(r.runner)
    ensures r.api.versions != [] && Terminal(r.api.versions[|r.api.versions| - 1].status)
  {
    r := Operate(p, outputs, choices);
    Terminates(p, outputs, choices);
  }
}
