/** Every step of every run keeps the invariant. */
module Runs {
  import opened Wrappers
  import opened PipelineTypes
  import opened StageHandler
  import opened Reconcile
  import opened Protocol
  import opened Legality
  import opened Attempts
  import opened Invariants

  /** This pipeline's outputs are only added, never changed. */
  ghost predicate OwnOutputsGrow(p: Pipeline, a: map<string, string>, b: map<string, string>) {
    forall i :: 0 <= i < |p.spec.stages| && OutName(p, i) in a ==>
                  OutName(p, i) in b && b[OutName(p, i)] == a[OutName(p, i)]
  }

  /** A version some pass may read: legal, and leading to the present. */
  ghost predicate Snapshot(p: Pipeline, w: World, cr: Resource)
    requires w.versions != []
  {
    && LegalStatus(p, cr.status)
    && Cursor(cr.status) <= |p.spec.stages|
    && Advances(cr.status, Current(w).status)
    && StartedUpTo(cr.status) <= StartedUpTo(Current(w).status)
  }

  /** How a pass takes the world from `w` to `w'`. */
  ghost predicate Delivers(p: Pipeline, w: World, w': World, cr: Resource, pass: Pass, landed: bool)
    requires WellFormed(p, w)
  {
    && (landed ==> pass.submitted.Some? && cr == Current(w))
    && w'.versions == (if landed then w.versions + [pass.submitted.value] else w.versions)
    && w'.outputs == pass.outputs
    && w'.calls == (if pass.call.Some? then w.calls + [pass.call.value] else w.calls)
    && w'.attempts == Bump(w.attempts, pass.attempt)
    && w'.lost == (if ResultLost(p, pass, landed) then Bump(w.lost, pass.attempt) else w.lost)
  }

  /** One reconcile step: a pass of a version, summarised and delivered. */
  ghost predicate PassStep(p: Pipeline, w: World, w': World, cr: Resource, env: Env, pass: Pass, landed: bool)
    requires WellFormed(p, w)
  {
    && Snapshot(p, w, cr)
    && PassSummary(p, cr, w.outputs, env, pass)
    && Delivers(p, w, w', cr, pass, landed)
  }

  lemma VersionIsSnapshot(p: Pipeline, w: World, k: nat)
    requires Lawful(p, w) && k < |w.versions|
    ensures Snapshot(p, w, w.versions[k])
  {
    var st := w.versions[k].status;
    assert LegalStatus(p, st) && Advances(st, Current(w).status);
    if st.stages != [] {
      assert Cursor(st) <= Cursor(Current(w).status);
    }
  }

  /** All that a snapshot says is completed is stored. */
  lemma SnapshotStored(p: Pipeline, w: World, cr: Resource)
    requires Lawful(p, w) && StoreAgrees(p, w) && Snapshot(p, w, cr)
    ensures StoredBefore(p, w.outputs, Cursor(cr.status))
  {
    forall i | 0 <= i < Cursor(cr.status)
      ensures OutName(p, i) in w.outputs
    {
      assert Previewed(p, w, i);
    }
  }

  lemma ReconcileIsPassStep(p: Pipeline, w: World, c: Choice) returns (cr: Resource, pass: Pass, landed: bool)
    requires Lawful(p, w)
    requires c.Reconciles? && c.env.fetch == Found
    ensures PassStep(p, w, Step(p, w, c), cr, c.env, pass, landed)
    ensures cr == w.versions[ReadVersion(w, c.staleness)]
    ensures pass == ReconcilePass(p, cr, w.outputs, c.env)
    ensures landed == WriteLands(Latest(w), ReadVersion(w, c.staleness), pass.submitted, c.env.writeFault)
  {
    var k := ReadVersion(w, c.staleness);
    cr := w.versions[k];
    pass := ReconcilePass(p, cr, w.outputs, c.env);
    landed := WriteLands(Latest(w), k, pass.submitted, c.env.writeFault);
    VersionIsSnapshot(p, w, k);
    PassSummarised(p, cr, w.outputs, c.env);
  }

  lemma PassStepGrows(p: Pipeline, w: World, w': World, cr: Resource, env: Env, pass: Pass, landed: bool)
    requires WellFormed(p, w) && PassStep(p, w, w', cr, env, pass, landed) && !env.guardReadFails
    ensures OwnOutputsGrow(p, w.outputs, w'.outputs)
  {
  }

  lemma HistoryAppend(p: Pipeline, w: World, w': World, cr: Resource)
    requires WellFormed(p, w) && LegalHistory(p, w)
    requires w'.versions == w.versions + [cr]
    requires LegalStatus(p, cr.status) && Advances(Current(w).status, cr.status)
    ensures LegalHistory(p, w')
  {
    forall k | 0 <= k < |w'.versions|
      ensures LegalStatus(p, w'.versions[k].status) && Advances(w'.versions[k].status, cr.status)
    {
      if k < |w.versions| {
        AdvancesTransitive(w.versions[k].status, Current(w).status, cr.status);
      }
    }
  }

  lemma HistoryStep(p: Pipeline, w: World, w': World, cr: Resource, pass: Pass, landed: bool)
    requires WellFormed(p, w) && LegalHistory(p, w)
    requires LegalMove(p, cr.status, pass.submitted) && Delivers(p, w, w', cr, pass, landed)
    ensures LegalHistory(p, w') && Advances(Current(w).status, Current(w').status)
  {
    if landed {
      HistoryAppend(p, w, w', pass.submitted.value);
    } else {
      assert Current(w') == Current(w);
      assert Advances(Current(w).status, Current(w).status);
    }
  }

  /** After an attempt the status and the store still agree on the completed stages. */
  lemma StoreAfterAttempt(p: Pipeline, w: World, w': World, cr: Resource, env: Env, pass: Pass, landed: bool, i: nat)
    requires Lawful(p, w) && StoreAgrees(p, w) && !env.guardReadFails && Lawful(p, w')
    requires PassStep(p, w, w', cr, env, pass, landed) && pass.attempt.Some? && i < Cursor(Current(w').status)
    ensures Previewed(p, w', i)
  {
    PassStepGrows(p, w, w', cr, env, pass, landed);
    if landed && i >= pass.attempt.value {
      assert i == pass.attempt.value;
    } else {
      assert Current(w').status.stages[i] == Current(w).status.stages[i];
      assert Previewed(p, w, i);
    }
  }

  lemma StoreAfterQuietPass(p: Pipeline, w: World, w': World, cr: Resource, env: Env, pass: Pass, landed: bool, i: nat)
    requires Lawful(p, w) && StoreAgrees(p, w) && Lawful(p, w')
    requires PassStep(p, w, w', cr, env, pass, landed) && pass.attempt.None? && i < Cursor(Current(w').status)
    ensures Previewed(p, w', i)
  {
    if i < Cursor(Current(w).status) {
      assert Previewed(p, w, i);
      assert Current(w').status.stages[i] == Current(w).status.stages[i];
    }
  }

  lemma StoreStep(p: Pipeline, w: World, w': World, cr: Resource, env: Env, pass: Pass, landed: bool)
    requires Lawful(p, w) && StoreAgrees(p, w) && !env.guardReadFails && Lawful(p, w')
    requires PassStep(p, w, w', cr, env, pass, landed)
    ensures StoreAgrees(p, w')
  {
    forall i | 0 <= i < Cursor(Current(w').status)
      ensures Previewed(p, w', i)
    {
      if pass.attempt.Some? {
        StoreAfterAttempt(p, w, w', cr, env, pass, landed, i);
      } else {
        StoreAfterQuietPass(p, w, w', cr, env, pass, landed, i);
      }
    }
  }

  lemma AdvancesStarted(a: PipelineStatus, b: PipelineStatus)
    requires Advances(a, b)
    ensures StartedUpTo(a) <= StartedUpTo(b)
  {
  }

  /** A pass touches nothing beyond the cursor it found. */
  lemma ReachStep(p: Pipeline, w: World, w': World, cr: Resource, env: Env, pass: Pass, landed: bool, i: nat)
    requires Lawful(p, w) && NothingBeyond(p, w) && DistinctNames(p)
    requires PassStep(p, w, w', cr, env, pass, landed) && WellFormed(p, w') && i < |p.spec.stages|
    ensures OutName(p, i) in w'.outputs || w'.attempts[i] > 0 ==> i <= StartedUpTo(Current(w).status)
  {
    if pass.attempt.Some? {
      OutNamesDistinct(p, i, pass.attempt.value);
    }
  }

  lemma BeyondStep(p: Pipeline, w: World, w': World, cr: Resource, env: Env, pass: Pass, landed: bool)
    requires Lawful(p, w) && NothingBeyond(p, w) && DistinctNames(p)
    requires PassStep(p, w, w', cr, env, pass, landed)
    requires WellFormed(p, w') && Advances(Current(w).status, Current(w').status)
    ensures NothingBeyond(p, w')
  {
    AdvancesStarted(Current(w).status, Current(w').status);
    forall i | 0 <= i < |p.spec.stages|
      ensures OutName(p, i) in w'.outputs || w'.attempts[i] > 0 ==> i <= StartedUpTo(Current(w).status)
    {
      ReachStep(p, w, w', cr, env, pass, landed, i);
    }
  }

  /** The stage that is tried: its failure is recorded, its output stored, or its result lost. */
  lemma BalanceOfAttempt(p: Pipeline, w: World, w': World, cr: Resource, env: Env, pass: Pass, landed: bool)
    requires WellFormed(p, w) && WellFormed(p, w') && !env.guardReadFails
    requires PassStep(p, w, w', cr, env, pass, landed) && pass.attempt.Some? && Balanced(p, w, pass.attempt.value)
    ensures Balanced(p, w', pass.attempt.value)
  {
    var i := pass.attempt.value;
    assert OutName(p, i) !in w.outputs;
    if landed {
      assert Concluded(p, cr, i, pass.call.Some? && env.agent.RunCompleted?,
                       if pass.call.Some? && env.agent.RunCompleted? then env.agent.output else "",
                       Current(w').status);
    }
  }

  /** Any other stage: its accounts stay as they are. */
  lemma BalanceElsewhere(p: Pipeline, w: World, w': World, cr: Resource, env: Env, pass: Pass, landed: bool, i: nat)
    requires WellFormed(p, w) && WellFormed(p, w') && PassStep(p, w, w', cr, env, pass, landed)
    requires i < |p.spec.stages| && Balanced(p, w, i)
    requires pass.attempt.Some? ==> i != pass.attempt.value && OutName(p, i) != OutName(p, pass.attempt.value)
    ensures Balanced(p, w', i)
  {
    assert FailuresOf(Current(w').status, i) == FailuresOf(Current(w).status, i);
  }

  lemma ConservedStep(p: Pipeline, w: World, w': World, cr: Resource, env: Env, pass: Pass, landed: bool, i: nat)
    requires WellFormed(p, w) && WellFormed(p, w') && Conserved(p, w) && DistinctNames(p) && !env.guardReadFails
    requires PassStep(p, w, w', cr, env, pass, landed) && i < |p.spec.stages|
    ensures Balanced(p, w', i)
  {
    if pass.attempt == Some(i) {
      BalanceOfAttempt(p, w, w', cr, env, pass, landed);
    } else {
      if pass.attempt.Some? {
        OutNamesDistinct(p, i, pass.attempt.value);
      }
      BalanceElsewhere(p, w, w', cr, env, pass, landed, i);
    }
  }

  lemma FaithfulGrows(p: Pipeline, a: map<string, string>, b: map<string, string>, call: Call)
    requires CallFaithful(p, a, call) && OwnOutputsGrow(p, a, b)
    ensures CallFaithful(p, b, call)
  {
    assert OutputsBefore(p, a, call.stage) == OutputsBefore(p, b, call.stage);
  }

  /** Calls and producers carry over to a world with more outputs of this pipeline, all of them produced. */
  lemma CallsGrow(p: Pipeline, w: World, w': World)
    requires CallsFaithful(p, w) && OwnOutputsGrow(p, w.outputs, w'.outputs) && w.calls <= w'.calls
    ensures forall k :: 0 <= k < |w.calls| ==> CallFaithful(p, w'.outputs, w'.calls[k])
    ensures forall i :: 0 <= i < |p.spec.stages| && OutName(p, i) in w.outputs ==> exists k :: ProducedBy(p, w', i, k)
  {
    forall k | 0 <= k < |w.calls|
      ensures CallFaithful(p, w'.outputs, w'.calls[k])
    {
      FaithfulGrows(p, w.outputs, w'.outputs, w.calls[k]);
    }
    forall i | 0 <= i < |p.spec.stages| && OutName(p, i) in w.outputs
      ensures exists k :: ProducedBy(p, w', i, k)
    {
      var k :| ProducedBy(p, w, i, k);
      assert ProducedBy(p, w', i, k);
    }
  }

  lemma NewCallFaithful(p: Pipeline, w: World, cr: Resource, env: Env)
    requires DistinctNames(p) && Lawful(p, w) && StoreAgrees(p, w) && Snapshot(p, w, cr)
    requires ReconcilePass(p, cr, w.outputs, env).call.Some?
    ensures CallFaithful(p, w.outputs, ReconcilePass(p, cr, w.outputs, env).call.value)
  {
    CallOfAttempt(p, cr, w.outputs, env);
    AttemptIff(p, cr, w.outputs, env);
    SnapshotStored(p, w, cr);
    PreparedIsIdeal(p, cr, w.outputs, env);
    MetIffEarlier(p, cr.status);
  }

  lemma CallsStep(p: Pipeline, w: World, w': World, cr: Resource, env: Env, pass: Pass, landed: bool)
    requires WellFormed(p, w) && CallsFaithful(p, w) && DistinctNames(p) && !env.guardReadFails
    requires PassStep(p, w, w', cr, env, pass, landed)
    requires pass.call.Some? ==> CallFaithful(p, w.outputs, pass.call.value) && pass.call.value.outcome == env.agent
    requires pass.call.Some? ==> pass.attempt == Some(pass.call.value.stage)
    ensures CallsFaithful(p, w')
  {
    PassStepGrows(p, w, w', cr, env, pass, landed);
    CallsGrow(p, w, w');
    if pass.call.Some? {
      FaithfulGrows(p, w.outputs, w'.outputs, pass.call.value);
    }
    forall i | 0 <= i < |p.spec.stages| && OutName(p, i) in w'.outputs
      ensures exists k :: ProducedBy(p, w', i, k)
    {
      if OutName(p, i) !in w.outputs {
        OutNamesDistinct(p, i, pass.attempt.value);
        assert ProducedBy(p, w', i, |w.calls|);
      }
    }
  }

  lemma HistoryKept(p: Pipeline, w: World, w': World)
    requires Lawful(p, w) && w'.versions == w.versions
    ensures LegalHistory(p, w') && Advances(Current(w).status, Current(w').status)
  {
    assert Current(w') == Current(w);
    forall k | 0 <= k < |w'.versions|
      ensures LegalStatus(p, w'.versions[k].status) && Advances(w'.versions[k].status, Current(w').status)
    {
      assert w'.versions[k] == w.versions[k];
    }
    assert Advances(w'.versions[Latest(w)].status, Current(w').status);
  }

  lemma PassLawful(p: Pipeline, w: World, c: Choice)
    requires Lawful(p, w) && c.Reconciles? && c.env.fetch == Found
    ensures Lawful(p, Step(p, w, c)) && Advances(Current(w).status, Current(Step(p, w, c)).status)
  {
    var cr, pass, landed := ReconcileIsPassStep(p, w, c);
    HistoryStep(p, w, Step(p, w, c), cr, pass, landed);
  }

  /** Any step of any run keeps a legal history and moves it forward. */
  lemma StepLawful(p: Pipeline, w: World, c: Choice)
    requires Lawful(p, w)
    ensures Lawful(p, Step(p, w, c)) && Advances(Current(w).status, Current(Step(p, w, c)).status)
  {
    if c.Reconciles? && c.env.fetch == Found {
      PassLawful(p, w, c);
    } else if c.RequestsDeletion? {
      HistoryAppend(p, w, Step(p, w, c), Current(w).(deleting := true));
    } else {
      HistoryKept(p, w, Step(p, w, c));
    }
  }

  lemma {:induction false} ExecLawful(p: Pipeline, w: World, choices: seq<Choice>)
    requires Lawful(p, w)
    ensures Lawful(p, Exec(p, w, choices)) && Advances(Current(w).status, Current(Exec(p, w, choices)).status)
    decreases |choices|
  {
    if choices != [] {
      var w1 := Step(p, w, choices[0]);
      StepLawful(p, w, choices[0]);
      ExecLawful(p, w1, choices[1..]);
      AdvancesTransitive(Current(w).status, Current(w1).status, Current(Exec(p, w, choices)).status);
    }
  }

  /** Every benign step keeps the agreement of status and store, whatever the stage names. */
  lemma StepStored(p: Pipeline, w: World, c: Choice)
    requires Lawful(p, w) && StoreAgrees(p, w) && Benign(p, c)
    ensures Lawful(p, Step(p, w, c)) && StoreAgrees(p, Step(p, w, c))
  {
    var w' := Step(p, w, c);
    StepLawful(p, w, c);
    if c.Reconciles? && c.env.fetch == Found {
      var cr, pass, landed := ReconcileIsPassStep(p, w, c);
      StoreStep(p, w, w', cr, c.env, pass, landed);
    } else {
      forall i | 0 <= i < Cursor(Current(w').status)
        ensures Previewed(p, w', i)
      {
        assert Previewed(p, w, i);
      }
    }
  }

  lemma {:induction false} ExecStored(p: Pipeline, w: World, choices: seq<Choice>)
    requires Lawful(p, w) && StoreAgrees(p, w) && AllBenign(p, choices)
    ensures Lawful(p, Exec(p, w, choices)) && StoreAgrees(p, Exec(p, w, choices))
    decreases |choices|
  {
    if choices != [] {
      StepStored(p, w, choices[0]);
      ExecStored(p, Step(p, w, choices[0]), choices[1..]);
    }
  }

  /** A world with the same attempts and the same own outputs keeps the accounts. */
  lemma ForeignOutputs(p: Pipeline, w: World, w': World)
    requires Lawful(p, w) && NothingBeyond(p, w) && Conserved(p, w)
    requires w' == w.(versions := w'.versions, outputs := w'.outputs)
    requires w'.versions != [] && Current(w').status == Current(w).status
    requires forall i :: 0 <= i < |p.spec.stages| ==> (OutName(p, i) in w'.outputs <==> OutName(p, i) in w.outputs)
    ensures NothingBeyond(p, w') && Conserved(p, w')
  {
    forall i | 0 <= i < |p.spec.stages|
      ensures Balanced(p, w', i)
    {
      assert Balanced(p, w, i);
    }
  }

  lemma OtherStepInv(p: Pipeline, w: World, c: Choice)
    requires Inv(p, w) && Benign(p, c) && !c.Reconciles?
    ensures Inv(p, Step(p, w, c))
  {
    var w' := Step(p, w, c);
    StepStored(p, w, c);
    ForeignOutputs(p, w, w');
    CallsGrow(p, w, w');
  }

  lemma ConservedAfter(p: Pipeline, w: World, w': World, cr: Resource, env: Env, pass: Pass, landed: bool)
    requires WellFormed(p, w) && WellFormed(p, w') && Conserved(p, w) && DistinctNames(p) && !env.guardReadFails
    requires PassStep(p, w, w', cr, env, pass, landed)
    ensures Conserved(p, w')
  {
    forall i | 0 <= i < |p.spec.stages|
      ensures Balanced(p, w', i)
    {
      ConservedStep(p, w, w', cr, env, pass, landed, i);
    }
  }

  lemma PassStepInv(p: Pipeline, w: World, c: Choice)
    requires Inv(p, w) && DistinctNames(p) && Benign(p, c) && c.Reconciles? && c.env.fetch == Found
    ensures Inv(p, Step(p, w, c))
  {
    var w' := Step(p, w, c);
    var cr, pass, landed := ReconcileIsPassStep(p, w, c);
    StepLawful(p, w, c);
    StoreStep(p, w, w', cr, c.env, pass, landed);
    BeyondStep(p, w, w', cr, c.env, pass, landed);
    ConservedAfter(p, w, w', cr, c.env, pass, landed);
    if pass.call.Some? {
      CallOfAttempt(p, cr, w.outputs, c.env);
      NewCallFaithful(p, w, cr, c.env);
    }
    CallsStep(p, w, w', cr, c.env, pass, landed);
  }

  lemma StepInv(p: Pipeline, w: World, c: Choice)
    requires Inv(p, w) && DistinctNames(p) && Benign(p, c)
    ensures Inv(p, Step(p, w, c))
  {
    if !c.Reconciles? {
      OtherStepInv(p, w, c);
    } else if c.env.fetch == Found {
      PassStepInv(p, w, c);
    }
  }

  lemma {:induction false} ExecInv(p: Pipeline, w: World, choices: seq<Choice>)
    requires Inv(p, w) && DistinctNames(p) && AllBenign(p, choices)
    ensures Inv(p, Exec(p, w, choices))
    decreases |choices|
  {
    if choices != [] {
      StepInv(p, w, choices[0]);
      ExecInv(p, Step(p, w, choices[0]), choices[1..]);
    }
  }
}
