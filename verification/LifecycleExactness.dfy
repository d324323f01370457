/** Which runs keep a cluster sound, and which keep all of them. */
module LifecycleExactness {
  import opened Lifecycle
  import opened LifecycleGround
  import opened LifecycleSafety

  // ---------- one cluster ----------

  ghost predicate CleanAt(s: System, run: seq<Step>, c: ClusterId)
    requires Legal(s, run)
    decreases |run|
  {
    run == [] || (!HazardAt(s, run[0], c) && CleanAt(Next(s, run[0]), run[1..], c))
  }

  ghost predicate AlwaysSoundAt(s: System, run: seq<Step>, c: ClusterId)
    requires Legal(s, run)
    decreases |run|
  {
    SoundAt(s, c) && (run == [] || AlwaysSoundAt(Next(s, run[0]), run[1..], c))
  }

  lemma {:induction false} ExactSafetyFrom(s: System, run: seq<Step>, c: ClusterId)
    requires Grounded(s) && SoundAt(s, c) && Legal(s, run)
    ensures AlwaysSoundAt(s, run, c) <==> CleanAt(s, run, c)
    decreases |run|
  {
    if run != [] {
      StepGrounds(s, run[0]);
      StepSoundIff(s, run[0], c);
      if !HazardAt(s, run[0], c) {
        ExactSafetyFrom(Next(s, run[0]), run[1..], c);
      }
    }
  }

  lemma {:induction false} CleanPastIsSound(s: System, run: seq<Step>, c: ClusterId)
    requires Grounded(s) && SoundAt(s, c) && Legal(s, run) && CleanAt(s, run, c)
    ensures Grounded(After(s, run)) && SoundAt(After(s, run), c)
    decreases |run|
  {
    if run != [] {
      StepGrounds(s, run[0]);
      StepSoundIff(s, run[0], c);
      CleanPastIsSound(Next(s, run[0]), run[1..], c);
    }
  }

  lemma EmptyIsSound(c: ClusterId)
    ensures Grounded(EMPTY) && SoundAt(EMPTY, c)
  {
    EmptyGrounded();
    RestIsSound(EMPTY, c);
  }

  /** From the empty store, a cluster is sound in every state of a legal run if and only if no step of the run is a
      hazard of a job on that cluster, whatever happens to other clusters. */
  lemma ExactSafetyAt(run: seq<Step>, c: ClusterId)
    requires Legal(EMPTY, run)
    ensures AlwaysSoundAt(EMPTY, run, c) <==> CleanAt(EMPTY, run, c)
  {
    EmptyIsSound(c);
    ExactSafetyFrom(EMPTY, run, c);
  }

  // ---------- all clusters ----------

  ghost predicate Sound(s: System) { forall c :: SoundAt(s, c) }

  ghost predicate Clean(s: System, run: seq<Step>)
    requires Legal(s, run)
    decreases |run|
  {
    run == [] || (!Hazard(s, run[0]) && Clean(Next(s, run[0]), run[1..]))
  }

  ghost predicate AlwaysSound(s: System, run: seq<Step>)
    requires Legal(s, run)
    decreases |run|
  {
    Sound(s) && (run == [] || AlwaysSound(Next(s, run[0]), run[1..]))
  }

  lemma {:induction false} SoundEverywhere(s: System, run: seq<Step>)
    requires Legal(s, run)
    ensures AlwaysSound(s, run) ==> forall c: ClusterId :: AlwaysSoundAt(s, run, c)
    ensures (forall c: ClusterId :: AlwaysSoundAt(s, run, c)) ==> AlwaysSound(s, run)
    decreases |run|
  {
    if run != [] {
      SoundEverywhere(Next(s, run[0]), run[1..]);
    }
    if forall c: ClusterId :: AlwaysSoundAt(s, run, c) {
      forall c: ClusterId ensures SoundAt(s, c) { assert AlwaysSoundAt(s, run, c); }
      if run != [] {
        forall c: ClusterId ensures AlwaysSoundAt(Next(s, run[0]), run[1..], c) { assert AlwaysSoundAt(s, run, c); }
      }
    }
  }

  lemma {:induction false} CleanEverywhere(s: System, run: seq<Step>)
    requires Legal(s, run)
    ensures Clean(s, run) ==> forall c: ClusterId :: CleanAt(s, run, c)
    ensures (forall c: ClusterId :: CleanAt(s, run, c)) ==> Clean(s, run)
    decreases |run|
  {
    if run != [] {
      CleanEverywhere(Next(s, run[0]), run[1..]);
      if forall c: ClusterId :: CleanAt(s, run, c) {
        forall c: ClusterId ensures !HazardAt(s, run[0], c) && CleanAt(Next(s, run[0]), run[1..], c) {
          assert CleanAt(s, run, c);
        }
        if Hazard(s, run[0]) { HazardHasTarget(s, run[0]); }
      }
    }
  }

  lemma HazardHasTarget(s: System, step: Step)
    requires Enabled(s, step) && Hazard(s, step)
    ensures exists c: ClusterId :: HazardAt(s, step, c)
  {
    assert Target(s, step).Some? by {
      if IsFront(step) { FrontIsPrefix(s, step); }
    }
    assert HazardAt(s, step, Target(s, step).value);
  }

  /** From the empty store, every state of a legal run is sound if and only if no step of it is a hazard. */
  lemma ExactSafety(run: seq<Step>)
    requires Legal(EMPTY, run)
    ensures AlwaysSound(EMPTY, run) <==> Clean(EMPTY, run)
  {
    SoundEverywhere(EMPTY, run);
    CleanEverywhere(EMPTY, run);
    forall c: ClusterId ensures AlwaysSoundAt(EMPTY, run, c) <==> CleanAt(EMPTY, run, c) { ExactSafetyAt(run, c); }
    if Clean(EMPTY, run) {
      forall c: ClusterId ensures AlwaysSoundAt(EMPTY, run, c) { assert CleanAt(EMPTY, run, c); }
    }
    if AlwaysSound(EMPTY, run) {
      forall c: ClusterId ensures CleanAt(EMPTY, run, c) { assert AlwaysSoundAt(EMPTY, run, c); }
    }
  }
}
