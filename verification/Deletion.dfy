/**
 Deletion. A deleted pipeline is frozen as it is; the first pass that can write releases it by
 removing the finalizer, and from then on nothing is written any more.
 */
module Deletion {
  import opened Wrappers
  import opened PipelineTypes
  import opened StageHandler
  import opened Reconcile
  import opened Protocol
  import opened Safety
  import opened Termination

  /** A later version of a deleted resource: only the finalizer may have gone. */
  predicate Winds(a: Resource, b: Resource) {
    a.deleting ==> b.deleting && b.status == a.status && (b.finalizer ==> a.finalizer)
  }

  /** Every deleted version has led to the current one. */
  ghost predicate WindsDown(w: World) {
    w.versions != [] && forall k :: 0 <= k < |w.versions| ==> Winds(w.versions[k], Current(w))
  }

  /** A pass on a deleted version neither runs nor stores anything, and at most removes the finalizer. */
  lemma DeletedPass(p: Pipeline, cr: Resource, outputs: map<string, string>, env: Env)
    requires cr.deleting
    ensures var pass := ReconcilePass(p, cr, outputs, env);
            && pass.outputs == outputs && pass.call.None? && pass.attempt.None? && pass.reply == Done
            && (pass.submitted.Some? <==> cr.finalizer)
            && (pass.submitted.Some? ==> pass.submitted.value == Resource(false, true, cr.status))
  {
  }

  lemma StepWinds(p: Pipeline, w: World, c: Choice)
    requires WellFormed(p, w) && WindsDown(w)
    ensures WindsDown(Step(p, w, c)) && Winds(Current(w), Current(Step(p, w, c)))
  {
    var w' := Step(p, w, c);
    if c.Reconciles? && c.env.fetch == Found && Current(w).deleting {
      DeletedPass(p, Current(w), w.outputs, c.env);
    }
    assert Winds(Current(w), Current(w'));
    forall k | 0 <= k < |w'.versions|
      ensures Winds(w'.versions[k], Current(w'))
    {
      if k < |w.versions| {
        assert w'.versions[k] == w.versions[k];
      }
    }
  }

  lemma {:induction false} ExecWinds(p: Pipeline, w: World, choices: seq<Choice>)
    requires WellFormed(p, w) && WindsDown(w)
    ensures WindsDown(Exec(p, w, choices)) && Winds(Current(w), Current(Exec(p, w, choices)))
    decreases |choices|
  {
    if choices != [] {
      StepWinds(p, w, choices[0]);
      ExecWinds(p, Step(p, w, choices[0]), choices[1..]);
    }
  }

  lemma EndWinds(p: Pipeline, outputs: map<string, string>, choices: seq<Choice>)
    ensures WindsDown(End(p, outputs, choices))
  {
    ExecWinds(p, Init(p, outputs), choices);
  }

  /** A pass that reads the latest version of a deleted pipeline and can write releases it, and does nothing else. */
  lemma Releases(p: Pipeline, w: World, env: Env)
    requires WellFormed(p, w) && Current(w).deleting && env.fetch == Found && env.writeFault != Lost
    ensures var w' := Step(p, w, Reconciles(0, env));
            && Current(w') == Resource(false, true, Current(w).status)
            && w'.outputs == w.outputs && w'.calls == w.calls && w'.attempts == w.attempts && w'.lost == w.lost
  {
    DeletedPass(p, Current(w), w.outputs, env);
    StepByPass(p, w, 0, env, ReconcilePass(p, Current(w), w.outputs, env));
  }

  lemma NothingWrittenNow(p: Pipeline, w: World, c: Choice)
    requires WellFormed(p, w) && Current(w).deleting && !Current(w).finalizer && !c.RequestsDeletion?
    ensures Step(p, w, c).versions == w.versions
  {
    if c.Reconciles? && c.env.fetch == Found {
      var k := ReadVersion(w, c.staleness);
      if k == Latest(w) {
        DeletedPass(p, Current(w), w.outputs, c.env);
      }
      StepByPass(p, w, c.staleness, c.env, ReconcilePass(p, w.versions[k], w.outputs, c.env));
    }
  }

  /** Nothing is written to a released resource. */
  lemma {:induction false} NothingWritten(p: Pipeline, w: World, choices: seq<Choice>)
    requires WellFormed(p, w) && Current(w).deleting && !Current(w).finalizer
    requires NoDeletion(choices)
    ensures Exec(p, w, choices).versions == w.versions
    decreases |choices|
  {
    if choices != [] {
      NothingWrittenNow(p, w, choices[0]);
      NothingWritten(p, Step(p, w, choices[0]), choices[1..]);
    }
  }

  /** With fresh reads a deleted pipeline runs and stores nothing. */
  lemma {:induction false} QuietOnceDeleted(p: Pipeline, w: World, choices: seq<Choice>)
    requires WellFormed(p, w) && WindsDown(w) && Current(w).deleting && AllFresh(choices)
    ensures var w' := Exec(p, w, choices); w'.calls == w.calls && w'.attempts == w.attempts && w'.lost == w.lost
    decreases |choices|
  {
    if choices != [] {
      var c := choices[0];
      if c.Reconciles? && c.env.fetch == Found {
        DeletedPass(p, Current(w), w.outputs, c.env);
        StepByPass(p, w, 0, c.env, ReconcilePass(p, Current(w), w.outputs, c.env));
      }
      StepWinds(p, w, c);
      QuietOnceDeleted(p, Step(p, w, c), choices[1..]);
    }
  }

  /** The resource after a deletion request and whatever happens next. */
  lemma FrozenOnceDeleted(p: Pipeline, outputs: map<string, string>, before: seq<Choice>, after: seq<Choice>)
    ensures var was := Current(End(p, outputs, before));
            var now := Current(End(p, outputs, before + [RequestsDeletion] + after));
            now.deleting && now.status == was.status && (now.finalizer ==> was.finalizer)
  {
    var w := End(p, outputs, before);
    EndWinds(p, outputs, before + [RequestsDeletion]);
    ExecSnoc(p, Init(p, outputs), before, RequestsDeletion);
    ExecConcat(p, Init(p, outputs), before + [RequestsDeletion], after);
    ExecWinds(p, End(p, outputs, before + [RequestsDeletion]), after);
  }

  /**
   Deletion over runs. After a deletion request and anything that happens in the meantime, the
   first pass that reads the latest version and can write leaves the resource without its
   finalizer and otherwise everything as it is; after that the resource never changes again.
   */
  lemma FinalizerRemoved(p: Pipeline, outputs: map<string, string>, before: seq<Choice>, meanwhile: seq<Choice>,
                         env: Env, after: seq<Choice>)
    requires env.fetch == Found && env.writeFault != Lost
    ensures var requested := before + [RequestsDeletion] + meanwhile;
            var w := End(p, outputs, requested);
            var w' := Step(p, w, Reconciles(0, env));
            && Current(w') == Resource(false, true, Current(End(p, outputs, before)).status)
            && w'.outputs == w.outputs && w'.calls == w.calls && w'.attempts == w.attempts && w'.lost == w.lost
            && Current(Exec(p, w', after)) == Current(w')
            && (NoDeletion(after) ==> Exec(p, w', after).versions == w'.versions)
  {
    var requested := before + [RequestsDeletion] + meanwhile;
    var w := End(p, outputs, requested);
    var w' := Step(p, w, Reconciles(0, env));
    FrozenOnceDeleted(p, outputs, before, meanwhile);
    Releases(p, w, env);
    EndWinds(p, outputs, requested);
    StepWinds(p, w, Reconciles(0, env));
    ExecWinds(p, w', after);
    if NoDeletion(after) {
      NothingWritten(p, w', after);
    }
  }

  /** The version is past pending and not deleted, and lacks the finalizer. */
  predicate Unguarded(cr: Resource) {
    !cr.deleting && !cr.finalizer && cr.status.phase != PhaseUnset && cr.status.phase != PhasePending
  }

  lemma {:induction false} ExecGuarded(p: Pipeline, w: World, choices: seq<Choice>)
    requires WellFormed(p, w) && forall k :: 0 <= k < |w.versions| ==> !Unguarded(w.versions[k])
    ensures forall k :: 0 <= k < |Exec(p, w, choices).versions| ==> !Unguarded(Exec(p, w, choices).versions[k])
    decreases |choices|
  {
    if choices != [] {
      StepGuarded(p, w, choices[0]);
      ExecGuarded(p, Step(p, w, choices[0]), choices[1..]);
    }
  }

  lemma StepGuarded(p: Pipeline, w: World, c: Choice)
    requires WellFormed(p, w) && forall k :: 0 <= k < |w.versions| ==> !Unguarded(w.versions[k])
    ensures forall k :: 0 <= k < |Step(p, w, c).versions| ==> !Unguarded(Step(p, w, c).versions[k])
  {
    if c.Reconciles? && c.env.fetch == Found {
      var cr := w.versions[ReadVersion(w, c.staleness)];
      PassGuarded(p, cr, w.outputs, c.env);
      StepByPass(p, w, c.staleness, c.env, ReconcilePass(p, cr, w.outputs, c.env));
    }
  }

  lemma PassGuarded(p: Pipeline, cr: Resource, outputs: map<string, string>, env: Env)
    requires !Unguarded(cr)
    ensures var pass := ReconcilePass(p, cr, outputs, env);
            pass.submitted.Some? ==> !Unguarded(pass.submitted.value)
  {
    if cr.deleting {
      DeletedPass(p, cr, outputs, env);
    } else if cr.status.phase == PhaseRunning {
      RunningKeepsFinalizer(p, cr, outputs, env);
    }
  }

  lemma StartKeepsFinalizer(p: Pipeline, cr: Resource, i: nat, outputs: map<string, string>, env: Env)
    requires i < |cr.status.stages| && i < |p.spec.stages|
    ensures var pass := StartPass(p, cr, i, outputs, env);
            pass.submitted.Some? ==> pass.submitted.value.finalizer == cr.finalizer
  {
  }

  lemma RunningKeepsFinalizer(p: Pipeline, cr: Resource, outputs: map<string, string>, env: Env)
    ensures var pass := RunningPass(p, cr, outputs, env);
            pass.submitted.Some? ==> pass.submitted.value.finalizer == cr.finalizer
  {
    var c := FirstOpen(cr.status.stages);
    if c < |cr.status.stages| && c < |p.spec.stages| && cr.status.stages[c].phase == StagePending {
      StartKeepsFinalizer(p, cr, c, outputs, env);
    }
  }

  /** No pipeline gets past pending without its finalizer, nor loses it before it is deleted. */
  lemma FinalizerHeld(p: Pipeline, outputs: map<string, string>, choices: seq<Choice>, k: nat)
    requires k < |End(p, outputs, choices).versions|
    ensures var cr := End(p, outputs, choices).versions[k];
            cr.deleting || cr.finalizer || cr.status.phase == PhaseUnset || cr.status.phase == PhasePending
  {
    ExecGuarded(p, Init(p, outputs), choices);
  }

  /** A pass that reads a deleted version asks for no further pass only if the finalizer is gone afterwards. */
  lemma DoneMeansReleased(p: Pipeline, outputs: map<string, string>, choices: seq<Choice>, staleness: nat, env: Env)
    requires var w := End(p, outputs, choices);
             && env.fetch == Found && w.versions[ReadVersion(w, staleness)].deleting
             && StepReply(p, w, staleness, env) == Done
    ensures var cr := Current(Step(p, End(p, outputs, choices), Reconciles(staleness, env)));
            cr.deleting && !cr.finalizer
  {
    var w := End(p, outputs, choices);
    var k := ReadVersion(w, staleness);
    EndWinds(p, outputs, choices);
    assert Winds(w.versions[k], Current(w));
    DeletedPass(p, w.versions[k], w.outputs, env);
    StepByPass(p, w, staleness, env, ReconcilePass(p, w.versions[k], w.outputs, env));
  }
}
