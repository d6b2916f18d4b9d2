/**
 Output ConfigMap names. Within a pipeline they are injective; across the pipelines of a
 namespace they collide exactly when one stage name carries a separator inside it, which
 follows from the only self-overlap of the separator, its dash.
 */
module Naming {
  import opened StageHandler

  lemma OutputNameInjective(pipeline: string, s: string, t: string)
    ensures OutputName(pipeline, s) == OutputName(pipeline, t) <==> s == t
  {
    var prefix := pipeline + SEPARATOR;
    assert OutputName(pipeline, s)[|prefix|..] == s;
    assert OutputName(pipeline, t)[|prefix|..] == t;
  }

  predicate OccursAt(s: string, t: string, k: nat) {
    k + |t| <= |s| && s[k..k + |t|] == t
  }

  predicate Contains(s: string, t: string) {
    exists k :: 0 <= k <= |s| && OccursAt(s, t, k)
  }

  /** A stage name no other pipeline's outputs can be confused with. */
  predicate SafeStageName(s: string) {
    !("stage-" <= s) && !Contains(s, SEPARATOR)
  }

  /** The separator overlaps a shifted copy of itself only when shifted by all but its last dash. */
  lemma SeparatorOverlap(d: nat)
    requires 0 < d < |SEPARATOR| && SEPARATOR[d..] == SEPARATOR[..|SEPARATOR| - d]
    ensures d == 6
  {
    assert SEPARATOR[d] == SEPARATOR[d..][0] == SEPARATOR[..|SEPARATOR| - d][0] == '-';
  }

  /** The two ways the outputs of a pipeline and of another, with a longer name, coincide. */
  ghost predicate Confusable(p: string, s: string, q: string, t: string) {
    || (q == p + "-stage" && s == "stage-" + t)
    || exists u :: q == p + SEPARATOR + u && s == u + SEPARATOR + t
  }

  /** Exactly when outputs of two pipelines share a name, the first pipeline's name being no longer. */
  lemma CollisionIff(p: string, s: string, q: string, t: string)
    requires |p| <= |q|
    ensures OutputName(p, s) == OutputName(q, t) <==> (p == q && s == t) || Confusable(p, s, q, t)
  {
    if q == p + "-stage" && s == "stage-" + t {
      assert OutputName(p, s) == p + "-stage-stage-" + t == OutputName(q, t);
    }
    if u :| q == p + SEPARATOR + u && s == u + SEPARATOR + t {
      assert OutputName(p, s) == p + SEPARATOR + u + SEPARATOR + t == OutputName(q, t);
    }
    if OutputName(p, s) == OutputName(q, t) {
      CollisionShape(p, s, q, t);
    }
  }

  lemma CollisionShape(p: string, s: string, q: string, t: string)
    requires |p| <= |q| && OutputName(p, s) == OutputName(q, t)
    ensures (p == q && s == t) || Confusable(p, s, q, t)
  {
    var name := OutputName(p, s);
    var d := |q| - |p|;
    assert name[..|p|] == p && name[|p|..|p| + 7] == SEPARATOR && name[|p| + 7..] == s;
    assert name[..|q|] == q && name[|q|..|q| + 7] == SEPARATOR && name[|q| + 7..] == t;
    if d == 0 {
      assert p == q && s == t;
    } else if d < 7 {
      OverlappingCollision(p, s, q, t);
    } else {
      var u := name[|p| + 7..|q|];
      assert q == p + SEPARATOR + u;
      assert s == name[|p| + 7..] == u + SEPARATOR + t;
    }
  }

  lemma OverlappingCollision(p: string, s: string, q: string, t: string)
    requires |p| < |q| < |p| + 7 && OutputName(p, s) == OutputName(q, t)
    ensures q == p + "-stage" && s == "stage-" + t
  {
    var name := OutputName(p, s);
    var d := |q| - |p|;
    assert name[|p|..|p| + 7] == SEPARATOR && name[|q|..|q| + 7] == SEPARATOR;
    assert SEPARATOR[d..] == name[|q|..|p| + 7] == SEPARATOR[..7 - d];
    SeparatorOverlap(d);
    assert q == name[..|q|] == p + name[|p|..|p| + 7][..6];
    assert SEPARATOR[..6] == "-stage";
    assert s == name[|p| + 7..] == name[|q|..|q| + 7][1..] + t;
    assert SEPARATOR[1..] == "stage-";
  }

  /** A stage name is safe if and only if no pipeline with a name at least as long can claim its output as well. */
  lemma SafeIff(s: string)
    ensures SafeStageName(s) <==>
            forall p, q, t :: |p| <= |q| && OutputName(p, s) == OutputName(q, t) ==> p == q && s == t
  {
    if SafeStageName(s) {
      forall p, q, t | |p| <= |q| && OutputName(p, s) == OutputName(q, t)
        ensures p == q && s == t
      {
        CollisionIff(p, s, q, t);
        if Confusable(p, s, q, t) {
          ConfusableIsUnsafe(p, s, q, t);
        }
      }
    } else if "stage-" <= s {
      var t := s[6..];
      assert s == "stage-" + t;
      CollisionIff("a", s, "a-stage", t);
    } else {
      var k :| 0 <= k <= |s| && OccursAt(s, SEPARATOR, k);
      var u, t := s[..k], s[k + |SEPARATOR|..];
      assert s == u + SEPARATOR + t;
      CollisionIff("a", s, "a" + SEPARATOR + u, t);
    }
  }

  lemma ConfusableIsUnsafe(p: string, s: string, q: string, t: string)
    requires Confusable(p, s, q, t)
    ensures !SafeStageName(s)
  {
    if q == p + "-stage" && s == "stage-" + t {
      assert "stage-" <= s;
    } else {
      var u :| q == p + SEPARATOR + u && s == u + SEPARATOR + t;
      assert OccursAt(s, SEPARATOR, |u|);
    }
  }

  /** With safe stage names, outputs identify both pipeline and stage. */
  lemma SafeNamesInjective(p: string, s: string, q: string, t: string)
    requires SafeStageName(s) && SafeStageName(t)
    ensures OutputName(p, s) == OutputName(q, t) <==> p == q && s == t
  {
    SafeIff(s);
    SafeIff(t);
  }

  /** Both conditions matter: valid stage names of two pipelines that share one ConfigMap. */
  lemma UnsafeWitnesses()
    ensures OutputName("a", "stage-b") == OutputName("a-stage", "b")
    ensures !Contains("stage-b", SEPARATOR)
    ensures OutputName("a", "u-stage-b") == OutputName("a-stage-u", "b")
    ensures !("stage-" <= "u-stage-b")
  {
    assert "stage-b" == "stage-" + "b";
    CollisionIff("a", "stage-b", "a-stage", "b");
    assert !OccursAt("stage-b", SEPARATOR, 0) by {
      assert "stage-b"[0..7][0] == 's';
    }
    assert "a-stage-u" == "a" + SEPARATOR + "u" && "u-stage-b" == "u" + SEPARATOR + "b";
    CollisionIff("a", "u-stage-b", "a-stage-u", "b");
    assert "u-stage-b"[0] == 'u' && "stage-"[0] == 's';
  }
}
