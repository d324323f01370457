/**
  The events a worker publishes on its stream.
  Sources: run, runDestroy and runUpgrade (api/internal/deployments), the finish closures of api/internal/apps.
 */
module Streams {
  import opened Events

  // ---------- worker scripts ----------

  // Quiet: may fail without a word. Step: bracketed, its failure is fatal. BestEffort: bracketed, never fatal.
  // Remark: log lines only.
  datatype Stage = Quiet | Step(name: string) | BestEffort(name: string) | Remark

  const DEPLOY: seq<Stage> := [
    Quiet, Quiet, Quiet, Quiet, Step("terraform.init"), Step("terraform.apply"), Quiet, Step("wait_for_ssh"),
    Step("ansible"), Remark, BestEffort("join_token"), Step("dns.write_wildcard"), Step("tls.issue_wildcard"),
    Step("helm.install_traefik")]

  const DESTROY: seq<Stage> := [
    Quiet, Quiet, Quiet, Quiet, Quiet, Step("terraform.init"), Step("terraform.destroy"), Remark, Remark]

  const UPGRADE: seq<Stage> := [Quiet, Quiet, Quiet, Step("ansible.upgrade")]

  // What the environment decides for one stage: the output it streams and whether it succeeds.
  datatype Result = Result(noise: seq<Event>, ok: bool, message: string)

  predicate IsNoise(es: seq<Event>) {
    forall i {:trigger es[i]} :: 0 <= i < |es| ==>
      es[i].kind.LogLine? || es[i].kind.AnsibleEvent? || es[i].kind.StepProgress?
  }

  predicate NamedSteps(script: seq<Stage>) {
    forall i {:trigger script[i]} :: 0 <= i < |script| ==>
      (script[i].Step? || script[i].BestEffort? ==> script[i].name != "")
  }

  predicate Feasible(script: seq<Stage>, results: seq<Result>) {
    && |results| == |script| && NamedSteps(script)
    && forall i {:trigger results[i]} :: 0 <= i < |results| ==> IsNoise(results[i].noise)
  }

  function FailStatus(cancelled: bool): string { if cancelled then "cancelled" else "failed" }

  // The stream of a worker that runs script; cancelled tells whether its context was by the time it failed.
  function Trace(script: seq<Stage>, results: seq<Result>, cancelled: bool): seq<Event>
    requires |results| == |script|
  {
    if script == [] then [Completed("succeeded", "")]
    else
      var r := results[0];
      var rest := Trace(script[1..], results[1..], cancelled);
      var failure := [Completed(FailStatus(cancelled), r.message)];
      match script[0]
      case Quiet => if r.ok then rest else failure
      case Step(name) =>
        [Started(name)] + r.noise + [Ended(name, if r.ok then 0 else 1)] + if r.ok then rest else failure
      case BestEffort(name) => [Started(name)] + r.noise + [Ended(name, if r.ok then 0 else 1)] + rest
      case Remark => r.noise + rest
  }

  // ---------- helm and bundle workers ----------

  // Attempt: may fail, which ends the worker. Begin: publishes the step start. Note: output only.
  datatype HelmStage = Attempt | Begin | Note

  // helm factory, repository, values file, step start, the helm command, ingress probe
  const INSTALL: seq<HelmStage> := [Attempt, Note, Attempt, Begin, Attempt, Note]

  const UNINSTALL: seq<HelmStage> := [Attempt, Begin, Attempt]

  // helm factory, step start, then each chart in turn: a skipped one leaves a remark, any other is an attempt.
  function BundleScript(skips: seq<bool>): seq<HelmStage> {
    [Attempt, Begin] + seq(|skips|, i requires 0 <= i < |skips| => if skips[i] then Note else Attempt)
  }

  // What the finish closure publishes: the step end, started or not, and the completion.
  function Finish(op: string, ok: bool, cancelled: bool, message: string): seq<Event> {
    [Ended(op, if ok then 0 else 1),
     Completed(if cancelled then "cancelled" else if ok then "succeeded" else "failed", message)]
  }

  // The stream of a helm or bundle worker; its output may hold progress events, cancelled is its context at the end.
  function HelmTrace(op: string, script: seq<HelmStage>, results: seq<Result>, cancelled: bool): seq<Event>
    requires |results| == |script|
  {
    if script == [] then Finish(op, true, cancelled, "")
    else
      var r := results[0];
      var rest := HelmTrace(op, script[1..], results[1..], cancelled);
      match script[0]
      case Begin => [Started(op)] + r.noise + rest
      case Note => r.noise + rest
      case Attempt => r.noise + if r.ok then rest else Finish(op, false, cancelled, r.message)
  }

  // ---------- exactly one completion, at the end ----------

  predicate NoCompletion(es: seq<Event>) {
    forall i {:trigger es[i]} :: 0 <= i < |es| ==> !es[i].kind.DeploymentComplete?
  }

  predicate EndsOnce(es: seq<Event>) {
    |es| > 0 && es[|es| - 1].kind.DeploymentComplete? && NoCompletion(es[..|es| - 1])
  }

  lemma EndsOncePrepend(a: seq<Event>, b: seq<Event>)
    requires NoCompletion(a) && EndsOnce(b)
    ensures EndsOnce(a + b)
  {
    assert (a + b)[..|a + b| - 1] == a + b[..|b| - 1];
  }

  /** Whatever its stages do, a deploy, destroy or upgrade worker publishes one completion, as its last event. */
  lemma {:induction false} TraceEndsOnce(script: seq<Stage>, results: seq<Result>, cancelled: bool)
    requires Feasible(script, results)
    ensures EndsOnce(Trace(script, results, cancelled))
  {
    if script != [] {
      var r := results[0];
      var rest := Trace(script[1..], results[1..], cancelled);
      var failure := [Completed(FailStatus(cancelled), r.message)];
      assert IsNoise(r.noise);
      TraceEndsOnce(script[1..], results[1..], cancelled);
      EndsOncePrepend(r.noise, rest);
      if script[0].Step? || script[0].BestEffort? {
        var head := [Started(script[0].name)] + r.noise + [Ended(script[0].name, if r.ok then 0 else 1)];
        EndsOncePrepend(head, rest);
        EndsOncePrepend(head, failure);
      }
    }
  }

  lemma FinishEndsOnce(op: string, ok: bool, cancelled: bool, message: string)
    ensures EndsOnce(Finish(op, ok, cancelled, message))
  {
    assert Finish(op, ok, cancelled, message)[..1] == [Ended(op, if ok then 0 else 1)];
  }

  /** So does every helm and bundle worker, wherever its stages stop it, before its step is started or after. */
  lemma {:induction false} HelmEndsOnce(op: string, script: seq<HelmStage>, results: seq<Result>, cancelled: bool)
    requires |results| == |script| && forall i {:trigger results[i]} :: 0 <= i < |results| ==> IsNoise(results[i].noise)
    ensures EndsOnce(HelmTrace(op, script, results, cancelled))
  {
    if script == [] {
      FinishEndsOnce(op, true, cancelled, "");
    } else {
      var r := results[0];
      var rest := HelmTrace(op, script[1..], results[1..], cancelled);
      assert IsNoise(r.noise);
      HelmEndsOnce(op, script[1..], results[1..], cancelled);
      FinishEndsOnce(op, false, cancelled, r.message);
      EndsOncePrepend([Started(op)] + r.noise, rest);
      EndsOncePrepend(r.noise, rest);
      EndsOncePrepend(r.noise, Finish(op, false, cancelled, r.message));
    }
  }

  // t is a stream a helm or bundle worker can publish from start to end.
  ghost predicate HelmStream(t: seq<Event>) {
    exists op: string, script: seq<HelmStage>, results: seq<Result>, cancelled: bool ::
      && (script == INSTALL || script == UNINSTALL || exists skips :: script == BundleScript(skips))
      && |results| == |script|
      && (forall i {:trigger results[i]} :: 0 <= i < |results| ==> IsNoise(results[i].noise))
      && t == HelmTrace(op, script, results, cancelled)
  }

  lemma HelmStreamsEndOnce(t: seq<Event>)
    requires HelmStream(t)
    ensures EndsOnce(t)
  {
    var op: string, script: seq<HelmStage>, results: seq<Result>, cancelled: bool :|
      && (script == INSTALL || script == UNINSTALL || exists skips :: script == BundleScript(skips))
      && |results| == |script|
      && (forall i {:trigger results[i]} :: 0 <= i < |results| ==> IsNoise(results[i].noise))
      && t == HelmTrace(op, script, results, cancelled);
    HelmEndsOnce(op, script, results, cancelled);
  }

  predicate AllAttempted(script: seq<HelmStage>, results: seq<Result>)
    requires |results| == |script|
  {
    forall i {:trigger script[i]} :: 0 <= i < |script| ==> (script[i].Attempt? ==> results[i].ok)
  }

  lemma AllAttemptedCons(script: seq<HelmStage>, results: seq<Result>)
    requires |results| == |script| && script != []
    ensures AllAttempted(script, results) <==>
              (script[0].Attempt? ==> results[0].ok) && AllAttempted(script[1..], results[1..])
  {
    assert forall i {:trigger script[i]} :: 1 <= i < |script| ==>
        script[i] == script[1..][i - 1] && results[i] == results[1..][i - 1];
  }

  /** Such a worker reports cancelled exactly when its context is, and otherwise success exactly when nothing it
      attempted failed. */
  lemma {:induction false} HelmVerdict(op: string, script: seq<HelmStage>, results: seq<Result>, cancelled: bool)
    requires |results| == |script|
    ensures HelmTrace(op, script, results, cancelled) != []
    ensures LastStatus(HelmTrace(op, script, results, cancelled))
            == if cancelled then "cancelled" else if AllAttempted(script, results) then "succeeded" else "failed"
  {
    if script != [] {
      var r := results[0];
      var rest := HelmTrace(op, script[1..], results[1..], cancelled);
      HelmVerdict(op, script[1..], results[1..], cancelled);
      AllAttemptedCons(script, results);
      LastOfConcat([Started(op)] + r.noise, rest);
      LastOfConcat(r.noise, rest);
      LastOfConcat(r.noise, Finish(op, false, cancelled, r.message));
    }
  }

  // Every stage that can fail did not.
  predicate AllPassed(script: seq<Stage>, results: seq<Result>)
    requires |results| == |script|
  {
    forall i {:trigger script[i]} :: 0 <= i < |script| ==> (script[i].Quiet? || script[i].Step? ==> results[i].ok)
  }

  function LastStatus(es: seq<Event>): string
    requires es != []
  {
    es[|es| - 1].status
  }

  lemma LastOfConcat(a: seq<Event>, b: seq<Event>)
    requires b != []
    ensures LastStatus(a + b) == LastStatus(b)
  {}

  /** A worker reports success exactly when no fatal stage failed, and otherwise whether it was cancelled. */
  lemma {:induction false} TraceVerdict(script: seq<Stage>, results: seq<Result>, cancelled: bool)
    requires |results| == |script|
    ensures Trace(script, results, cancelled) != []
    ensures LastStatus(Trace(script, results, cancelled))
            == if AllPassed(script, results) then "succeeded" else if cancelled then "cancelled" else "failed"
  {
    if script != [] {
      var r := results[0];
      var rest := Trace(script[1..], results[1..], cancelled);
      TraceVerdict(script[1..], results[1..], cancelled);
      AllPassedCons(script, results);
      match script[0]
      case Quiet =>
      case Remark => LastOfConcat(r.noise, rest);
      case Step(name) =>
        var tail := if r.ok then rest else [Completed(FailStatus(cancelled), r.message)];
        LastOfConcat([Started(name)] + r.noise + [Ended(name, if r.ok then 0 else 1)], tail);
      case BestEffort(name) =>
        LastOfConcat([Started(name)] + r.noise + [Ended(name, if r.ok then 0 else 1)], rest);
    }
  }

  lemma AllPassedCons(script: seq<Stage>, results: seq<Result>)
    requires |results| == |script| && script != []
    ensures AllPassed(script, results) <==>
              (script[0].Quiet? || script[0].Step? ==> results[0].ok) && AllPassed(script[1..], results[1..])
  {
    assert forall i {:trigger script[i]} :: 1 <= i < |script| ==>
        script[i] == script[1..][i - 1] && results[i] == results[1..][i - 1];
  }

  // ---------- step starts and ends pair up ----------

  // Broken: an end without its start, or a start inside an open step.
  datatype Nest = Broken | Idle | Inside(step: string)

  function Feed(n: Nest, e: Event): Nest {
    match e.kind
    case StepStart => if n.Idle? && e.step != "" then Inside(e.step) else Broken
    case StepEnd => if e.step != "" && n == Inside(e.step) then Idle else Broken
    case _ => n
  }

  function Scan(n: Nest, es: seq<Event>): Nest {
    if es == [] then n else Feed(Scan(n, es[..|es| - 1]), es[|es| - 1])
  }

  lemma {:induction false} ScanConcat(n: Nest, a: seq<Event>, b: seq<Event>)
    ensures Scan(n, a + b) == Scan(Scan(n, a), b)
  {
    if b == [] {
      assert a + b == a;
    } else {
      ScanConcat(n, a, b[..|b| - 1]);
      assert (a + b)[..|a + b| - 1] == a + b[..|b| - 1];
    }
  }

  lemma {:induction false} NoiseIsNeutral(n: Nest, es: seq<Event>)
    requires IsNoise(es)
    ensures Scan(n, es) == n
  {
    if es != [] {
      NoiseIsNeutral(n, es[..|es| - 1]);
    }
  }

  lemma BracketNests(name: string, noise: seq<Event>, exit: int, rest: seq<Event>)
    requires name != "" && IsNoise(noise)
    ensures Scan(Idle, [Started(name)] + noise + [Ended(name, exit)] + rest) == Scan(Idle, rest)
  {
    var head := [Started(name)] + noise;
    assert Scan(Idle, [Started(name)]) == Inside(name) by { assert [Started(name)][..0] == []; }
    ScanConcat(Idle, [Started(name)], noise);
    NoiseIsNeutral(Inside(name), noise);
    assert (head + [Ended(name, exit)])[..|head|] == head;
    ScanConcat(Idle, head + [Ended(name, exit)], rest);
  }

  /** Deploy, destroy and upgrade streams pair every step start with its end, one step open at a time. */
  lemma {:induction false} TraceNests(script: seq<Stage>, results: seq<Result>, cancelled: bool)
    requires Feasible(script, results)
    ensures Scan(Idle, Trace(script, results, cancelled)) == Idle
  {
    if script == [] {
      assert [Completed("succeeded", "")][..0] == [];
    } else {
      var r := results[0];
      var rest := Trace(script[1..], results[1..], cancelled);
      var failure := [Completed(FailStatus(cancelled), r.message)];
      assert IsNoise(r.noise);
      TraceNests(script[1..], results[1..], cancelled);
      assert Scan(Idle, failure) == Idle by { assert failure[..0] == []; }
      if script[0].Remark? {
        ScanConcat(Idle, r.noise, rest);
        NoiseIsNeutral(Idle, r.noise);
      } else if !script[0].Quiet? {
        BracketNests(script[0].name, r.noise, if r.ok then 0 else 1, rest);
        BracketNests(script[0].name, r.noise, if r.ok then 0 else 1, failure);
      }
    }
  }

  lemma ScriptsAreNamed()
    ensures NamedSteps(DEPLOY) && NamedSteps(DESTROY) && NamedSteps(UPGRADE)
  {}

  // t is a stream a deploy, destroy or upgrade worker can publish from start to end.
  ghost predicate WorkerStream(t: seq<Event>) {
    exists script: seq<Stage>, results: seq<Result>, cancelled: bool ::
      && (script == DEPLOY || script == DESTROY || script == UPGRADE)
      && |results| == |script|
      && (forall i {:trigger results[i]} :: 0 <= i < |results| ==> IsNoise(results[i].noise))
      && t == Trace(script, results, cancelled)
  }

  /** Every deploy, destroy or upgrade stream ends in its only completion, with every started step ended. */
  lemma WorkerStreamsAreWhole(t: seq<Event>)
    requires WorkerStream(t)
    ensures EndsOnce(t) && Scan(Idle, t) == Idle
  {
    ScriptsAreNamed();
    var script: seq<Stage>, results: seq<Result>, cancelled: bool :|
      && (script == DEPLOY || script == DESTROY || script == UPGRADE)
      && |results| == |script|
      && (forall i {:trigger results[i]} :: 0 <= i < |results| ==> IsNoise(results[i].noise))
      && t == Trace(script, results, cancelled);
    TraceEndsOnce(script, results, cancelled);
    TraceNests(script, results, cancelled);
  }
}
