/**
  Bundle install with reverse-order rollback over a release map.
  Source: runBundleInstall, countInstallable, rollbackInstalled and markRolledBack in api/internal/apps/bundle.go.
  The helm CLI is its effect on the cluster's releases; whether a call fails is decided by the environment.
 */
module Bundle {
  import Hostname

  datatype Key = Key(namespace: string, release: string)

  // Installed releases and the chart each came from.
  type Releases = map<Key, string>

  datatype Choice = Choice(chart: string, version: string, release: string, namespace: string, hostname: string,
                           values: string, skip: bool)
  {
    function At(): Key { Key(namespace, release) }
  }

  datatype Request = Request(choices: seq<Choice>, atomic: bool, fqdn: string)

  // What goes wrong around one choice: writing its values file, or its install; debris tells whether a failed
  // install that is not atomic leaves its release behind.
  datatype Fault = Fault(values: bool, install: bool, debris: bool)

  // factory: helm could be set up; stuck: the releases whose uninstall fails (all of them after a cancel).
  datatype Env = Env(factory: bool, faults: seq<Fault>, stuck: set<Key>)

  datatype Outcome = Succeeded | Failed | Skipped | RolledBack | NotAttempted

  datatype ChartOutcome = ChartOutcome(chart: string, version: string, release: string, outcome: Outcome)

  datatype Call = DoInstall(chart: string, at: Key, hostname: string) | DoUninstall(at: Key)

  datatype Progress =
    | BundleStart(total: nat)
    | ChartInstall(chart: string, at: Key, index: nat, total: nat)
    | Rollback(failed: string, count: nat)

  // ---------- the helm CLI ----------

  class Helm {
    var releases: Releases
    var calls: seq<Call>

    constructor (releases: Releases)
      ensures this.releases == releases && calls == []
    {
      this.releases, calls := releases, [];
    }

    // A name in use is refused; a failed install leaves nothing if it was atomic.
    method Install(c: Choice, atomic: bool, f: Fault) returns (ok: bool)
      modifies this
      ensures calls == old(calls) + [DoInstall(c.chart, c.At(), c.hostname)]
      ensures ok <==> c.At() !in old(releases) && !f.install
      ensures releases == if ok || (c.At() !in old(releases) && !atomic && f.debris)
                          then old(releases)[c.At() := c.chart] else old(releases)
    {
      calls := calls + [DoInstall(c.chart, c.At(), c.hostname)];
      ok := c.At() !in releases && !f.install;
      if ok || (c.At() !in releases && !atomic && f.debris) {
        releases := releases[c.At() := c.chart];
      }
    }

    method Uninstall(at: Key, stuck: set<Key>)
      modifies this
      ensures calls == old(calls) + [DoUninstall(at)]
      ensures releases == if at in stuck then old(releases) else old(releases) - {at}
    {
      calls := calls + [DoUninstall(at)];
      if at !in stuck {
        releases := releases - {at};
      }
    }
  }

  // ---------- closed form ----------

  // A choice with its hostname template filled in.
  function Resolved(req: Request, c: Choice): Choice {
    c.(hostname := Hostname.Substitute(c.hostname, c.release, req.fqdn))
  }

  // The choices among the first n that are not skipped, in order.
  function Picked(req: Request, n: nat): seq<Choice>
    requires n <= |req.choices|
  {
    if n == 0 then []
    else if req.choices[n - 1].skip then Picked(req, n - 1)
    else Picked(req, n - 1) + [Resolved(req, req.choices[n - 1])]
  }

  // m with the releases of the first n choices that are not skipped.
  function Added(req: Request, m: Releases, n: nat): Releases
    requires n <= |req.choices|
  {
    if n == 0 then m
    else if req.choices[n - 1].skip then Added(req, m, n - 1)
    else Added(req, m, n - 1)[req.choices[n - 1].At() := req.choices[n - 1].chart]
  }

  predicate Valid(req: Request, env: Env) { |env.faults| == |req.choices| }

  predicate ValuesFail(c: Choice, f: Fault) { c.values != "" && f.values }

  // Choice i stops the bundle, all before it having been installed or skipped.
  predicate Stops(req: Request, env: Env, m: Releases, i: nat)
    requires Valid(req, env) && i < |req.choices|
  {
    var c := req.choices[i];
    !c.skip && (ValuesFail(c, env.faults[i]) || c.At() in Added(req, m, i) || env.faults[i].install)
  }

  // From i on, how far the bundle gets: to the first choice that stops it, or through all of them.
  function StopFrom(req: Request, env: Env, m: Releases, i: nat): (k: nat)
    requires Valid(req, env) && i <= |req.choices|
    ensures i <= k <= |req.choices|
    ensures forall j {:trigger Stops(req, env, m, j)} :: i <= j < k ==> !Stops(req, env, m, j)
    ensures k < |req.choices| ==> Stops(req, env, m, k)
    decreases |req.choices| - i
  {
    if i == |req.choices| || Stops(req, env, m, i) then i else StopFrom(req, env, m, i + 1)
  }

  function Stop(req: Request, env: Env, m: Releases): (k: nat)
    requires Valid(req, env)
    ensures k <= |req.choices|
    ensures forall j {:trigger Stops(req, env, m, j)} :: 0 <= j < k ==> !Stops(req, env, m, j)
    ensures k < |req.choices| ==> Stops(req, env, m, k)
  {
    StopFrom(req, env, m, 0)
  }

  // The install at k failed and left its release behind.
  predicate Debris(req: Request, env: Env, m: Releases, k: nat)
    requires Valid(req, env) && k < |req.choices|
  {
    var c, f := req.choices[k], env.faults[k];
    !ValuesFail(c, f) && c.At() !in Added(req, m, k) && !req.atomic && f.debris
  }

  function AtFailure(req: Request, env: Env, m: Releases, k: nat): Releases
    requires Valid(req, env) && k < |req.choices|
  {
    var c := req.choices[k];
    if Debris(req, env, m, k) then Added(req, m, k)[c.At() := c.chart] else Added(req, m, k)
  }

  // The releases after uninstalling the given choices, last first.
  function Undone(m: Releases, installed: seq<Choice>, stuck: set<Key>): Releases {
    if installed == [] then m
    else
      var at := installed[|installed| - 1].At();
      Undone(if at in stuck then m else m - {at}, installed[..|installed| - 1], stuck)
  }

  function Final(req: Request, env: Env, m: Releases): Releases
    requires Valid(req, env)
  {
    var k := Stop(req, env, m);
    if !env.factory then m
    else if k == |req.choices| then Added(req, m, k)
    else Undone(AtFailure(req, env, m, k), Picked(req, k), env.stuck)
  }

  function Installs(cs: seq<Choice>): seq<Call> {
    seq(|cs|, j requires 0 <= j < |cs| => DoInstall(cs[j].chart, cs[j].At(), cs[j].hostname))
  }

  // One uninstall each, in reverse order.
  function Uninstalls(cs: seq<Choice>): seq<Call> {
    seq(|cs|, j requires 0 <= j < |cs| => DoUninstall(cs[|cs| - 1 - j].At()))
  }

  // The choices whose install was called before the bundle stopped at k.
  function Called(req: Request, env: Env, k: nat): seq<Choice>
    requires Valid(req, env) && k < |req.choices|
  {
    if ValuesFail(req.choices[k], env.faults[k]) then Picked(req, k)
    else Picked(req, k) + [Resolved(req, req.choices[k])]
  }

  function Calls(req: Request, env: Env, m: Releases): seq<Call>
    requires Valid(req, env)
  {
    var k := Stop(req, env, m);
    if !env.factory then []
    else if k == |req.choices| then Installs(Picked(req, k))
    else Installs(Called(req, env, k)) + Uninstalls(Picked(req, k))
  }

  // Indices count from 1 over the choices that are not skipped.
  function Banner(cs: seq<Choice>, total: nat): seq<Progress> {
    seq(|cs|, j requires 0 <= j < |cs| => ChartInstall(cs[j].chart, cs[j].At(), j + 1, total))
  }

  function Total(req: Request): nat { |Picked(req, |req.choices|)| }

  function Shown(req: Request, env: Env, m: Releases): seq<Progress>
    requires Valid(req, env)
  {
    var k := Stop(req, env, m);
    if !env.factory then []
    else if k == |req.choices| then [BundleStart(Total(req))] + Banner(Picked(req, k), Total(req))
    else
      [BundleStart(Total(req))] + Banner(Picked(req, k) + [Resolved(req, req.choices[k])], Total(req))
      + if ValuesFail(req.choices[k], env.faults[k]) || Picked(req, k) == [] then []
        else [Rollback(req.choices[k].chart, |Picked(req, k)|)]
  }

  function Verdict(req: Request, env: Env, m: Releases, i: nat): Outcome
    requires Valid(req, env) && i < |req.choices|
  {
    var k := Stop(req, env, m);
    if req.choices[i].skip then Skipped
    else if !env.factory then NotAttempted
    else if k == |req.choices| then Succeeded
    else Aborted(req, k, i)
  }

  // After a failure at choice k.
  function Aborted(req: Request, k: nat, i: nat): Outcome
    requires i < |req.choices|
  {
    if req.choices[i].skip then Skipped
    else if i < k then RolledBack
    else if i == k then Failed
    else NotAttempted
  }

  function Report(c: Choice, o: Outcome): ChartOutcome { ChartOutcome(c.chart, c.version, c.release, o) }

  // ---------- what a bundle reports ----------

  predicate Wanted(req: Request, i: int) { 0 <= i < |req.choices| && !req.choices[i].skip }

  // How many of the first i choices are wanted.
  function Rank(req: Request, i: nat): nat
    requires i <= |req.choices|
  {
    if i == 0 then 0 else Rank(req, i - 1) + if req.choices[i - 1].skip then 0 else 1
  }

  // The name of choice i is taken when its turn comes, all wanted ones before it having been installed.
  ghost predicate Taken(req: Request, m: Releases, i: nat)
    requires i < |req.choices|
  {
    req.choices[i].At() in m || exists j :: j < i && Wanted(req, j) && req.choices[j].At() == req.choices[i].At()
  }

  // A wanted choice whose values file cannot be written, whose name is taken, or whose install goes wrong.
  ghost predicate Fails(req: Request, env: Env, m: Releases, i: nat)
    requires Valid(req, env) && i < |req.choices|
  {
    && Wanted(req, i)
    && ((req.choices[i].values != "" && env.faults[i].values) || Taken(req, m, i) || env.faults[i].install)
  }

  // The first n wanted choices were installed in order, each under its own hostname.
  ghost predicate InstalledInOrder(req: Request, calls: seq<Call>, n: nat)
    requires n <= |req.choices|
  {
    forall j {:trigger Wanted(req, j)} :: j < n && Wanted(req, j) ==>
      var c := req.choices[j];
      Rank(req, j) < |calls|
      && calls[Rank(req, j)] == DoInstall(c.chart, c.At(), Hostname.Substitute(c.hostname, c.release, req.fqdn))
  }

  // Choice k alone is Failed, what came before is rolled back, what comes after was not attempted.
  ghost predicate FailedEntries(req: Request, outcomes: seq<ChartOutcome>, k: nat)
    requires |outcomes| == |req.choices|
  {
    && k < |req.choices| && outcomes[k].outcome == Failed
    && (forall j {:trigger Wanted(req, j)} :: j < k && Wanted(req, j) ==> outcomes[j].outcome == RolledBack)
    && (forall j {:trigger Wanted(req, j)} :: k < j && Wanted(req, j) ==> outcomes[j].outcome == NotAttempted)
  }

  // Each wanted choice before k was installed in order and then uninstalled in reverse, k was tried if its values file
  // could be written, and helm was called for nothing else.
  ghost predicate FailedCalls(req: Request, env: Env, calls: seq<Call>, k: nat)
    requires Valid(req, env) && k < |req.choices|
  {
    var tried := if req.choices[k].values != "" && env.faults[k].values then 0 else 1;
    && |calls| == 2 * Rank(req, k) + tried && InstalledInOrder(req, calls, k + tried)
    && (forall j {:trigger Wanted(req, j)} :: j < k && Wanted(req, j) ==>
          Rank(req, j) < |calls| && calls[|calls| - 1 - Rank(req, j)] == DoUninstall(req.choices[j].At()))
  }

  // Choice k is the first to fail.
  ghost predicate FailedAt(req: Request, env: Env, m: Releases, outcomes: seq<ChartOutcome>, calls: seq<Call>, k: nat)
    requires Valid(req, env) && |outcomes| == |req.choices|
  {
    && k < |req.choices| && Fails(req, env, m, k) && (forall j :: 0 <= j < k ==> !Fails(req, env, m, j))
    && FailedEntries(req, outcomes, k) && FailedCalls(req, env, calls, k)
  }

  // What the entries, the calls and the verdict say of the bundle, from the choices and the faults alone.
  ghost predicate Classified(req: Request, env: Env, m: Releases, outcomes: seq<ChartOutcome>, calls: seq<Call>,
                             ok: bool)
    requires Valid(req, env)
  {
    && |outcomes| == |req.choices|
    && (forall j {:trigger outcomes[j]} :: 0 <= j < |outcomes| ==>
          var c := req.choices[j];
          && outcomes[j].chart == c.chart && outcomes[j].version == c.version && outcomes[j].release == c.release
          && (c.skip ==> outcomes[j].outcome == Skipped))
    && (ok <==> env.factory && forall j :: 0 <= j < |req.choices| ==> !Fails(req, env, m, j))
    && (ok ==> (forall j {:trigger Wanted(req, j)} :: Wanted(req, j) ==> outcomes[j].outcome == Succeeded)
               && |calls| == Rank(req, |req.choices|) && InstalledInOrder(req, calls, |req.choices|))
    && (!env.factory ==> calls == [] && forall j {:trigger Wanted(req, j)} :: Wanted(req, j) ==>
                                            outcomes[j].outcome == NotAttempted)
    && (env.factory && !ok ==> exists k :: FailedAt(req, env, m, outcomes, calls, k))
  }

  lemma {:induction false} AddedHolds(req: Request, m: Releases, i: nat, at: Key)
    requires i <= |req.choices|
    ensures at in Added(req, m, i) <==>
              at in m || exists j :: j < i && Wanted(req, j) && req.choices[j].At() == at
  {
    if i > 0 {
      AddedHolds(req, m, i - 1, at);
      assert Wanted(req, i - 1) <==> !req.choices[i - 1].skip;
    }
  }

  lemma StopsIsFails(req: Request, env: Env, m: Releases, i: nat)
    requires Valid(req, env) && i < |req.choices|
    ensures Stops(req, env, m, i) <==> Fails(req, env, m, i)
  {
    AddedHolds(req, m, i, req.choices[i].At());
  }

  lemma {:induction false} PickedAt(req: Request, n: nat, j: nat)
    requires j < n <= |req.choices| && Wanted(req, j)
    ensures Rank(req, j) < Rank(req, n) == |Picked(req, n)|
    ensures Picked(req, n)[Rank(req, j)] == Resolved(req, req.choices[j])
  {
    RankIsCount(req, n - 1);
    if j < n - 1 {
      PickedAt(req, n - 1, j);
      assert Picked(req, n - 1) <= Picked(req, n);
    }
  }

  lemma {:induction false} RankIsCount(req: Request, n: nat)
    requires n <= |req.choices|
    ensures Rank(req, n) == |Picked(req, n)|
  {
    if n > 0 { RankIsCount(req, n - 1); }
  }

  lemma InstallsInOrder(req: Request, n: nat, calls: seq<Call>)
    requires n <= |req.choices| && Installs(Picked(req, n)) <= calls
    ensures InstalledInOrder(req, calls, n)
  {
    forall j {:trigger Wanted(req, j)} | j < n && Wanted(req, j)
      ensures Rank(req, j) < |calls|
      ensures var c := req.choices[j];
              calls[Rank(req, j)] == DoInstall(c.chart, c.At(), Hostname.Substitute(c.hostname, c.release, req.fqdn))
    {
      PickedAt(req, n, j);
      assert calls[Rank(req, j)] == Installs(Picked(req, n))[Rank(req, j)];
    }
  }

  function Reported(req: Request, env: Env, m: Releases): seq<ChartOutcome>
    requires Valid(req, env)
  {
    seq(|req.choices|, j requires 0 <= j < |req.choices| => Report(req.choices[j], Verdict(req, env, m, j)))
  }

  lemma UninstallAt(cs: seq<Choice>, r: nat)
    requires r < |cs|
    ensures Uninstalls(cs)[|cs| - 1 - r] == DoUninstall(cs[r].At())
  {}

  // Calls that end with the roll-back of the choices picked before k hold an uninstall of each, last first.
  lemma UninstalledAt(req: Request, k: nat, calls: seq<Call>, j: nat)
    requires j < k <= |req.choices| && Wanted(req, j) && |calls| >= Rank(req, k)
    requires calls[|calls| - Rank(req, k)..] == Uninstalls(Picked(req, k))
    ensures Rank(req, j) < |calls| && calls[|calls| - 1 - Rank(req, j)] == DoUninstall(req.choices[j].At())
  {
    PickedAt(req, k, j);
    UninstallAt(Picked(req, k), Rank(req, j));
    var n, r := Rank(req, k), Rank(req, j);
    assert calls[|calls| - n..][n - 1 - r] == calls[|calls| - 1 - r];
  }

  lemma CallsUpTo(req: Request, env: Env, m: Releases, k: nat)
    requires Valid(req, env) && env.factory && k == Stop(req, env, m) < |req.choices|
    ensures var tried := if req.choices[k].values != "" && env.faults[k].values then 0 else 1;
            var calls := Calls(req, env, m);
            && |calls| == 2 * Rank(req, k) + tried && Installs(Picked(req, k + tried)) <= calls
            && calls[|calls| - Rank(req, k)..] == Uninstalls(Picked(req, k))
  {
    RankIsCount(req, k);
    var tried := if req.choices[k].values != "" && env.faults[k].values then 0 else 1;
    assert Called(req, env, k) == Picked(req, k + tried);
  }

  lemma FirstFailure(req: Request, env: Env, m: Releases)
    requires Valid(req, env) && Stop(req, env, m) < |req.choices|
    ensures var k := Stop(req, env, m); Fails(req, env, m, k) && forall j :: 0 <= j < k ==> !Fails(req, env, m, j)
  {
    forall j | 0 <= j <= Stop(req, env, m) ensures Stops(req, env, m, j) <==> Fails(req, env, m, j) {
      StopsIsFails(req, env, m, j);
    }
  }

  lemma FailureEntries(req: Request, env: Env, m: Releases)
    requires Valid(req, env) && env.factory && Stop(req, env, m) < |req.choices|
    ensures FailedEntries(req, Reported(req, env, m), Stop(req, env, m))
  {}

  lemma FailureCalls(req: Request, env: Env, m: Releases)
    requires Valid(req, env) && env.factory && Stop(req, env, m) < |req.choices|
    ensures FailedCalls(req, env, Calls(req, env, m), Stop(req, env, m))
  {
    var k, calls := Stop(req, env, m), Calls(req, env, m);
    CallsUpTo(req, env, m, k);
    var tried := if req.choices[k].values != "" && env.faults[k].values then 0 else 1;
    InstallsInOrder(req, k + tried, calls);
    forall j {:trigger Wanted(req, j)} | j < k && Wanted(req, j)
      ensures Rank(req, j) < |calls| && calls[|calls| - 1 - Rank(req, j)] == DoUninstall(req.choices[j].At())
    {
      UninstalledAt(req, k, calls, j);
    }
  }

  lemma FailureIsClassified(req: Request, env: Env, m: Releases)
    requires Valid(req, env) && env.factory && Stop(req, env, m) < |req.choices|
    ensures FailedAt(req, env, m, Reported(req, env, m), Calls(req, env, m), Stop(req, env, m))
  {
    FirstFailure(req, env, m);
    FailureEntries(req, env, m);
    FailureCalls(req, env, m);
  }

  /** What a bundle reports, told from the choices and the faults: on success every wanted chart succeeded; otherwise
      exactly the first one whose values file, name or install was bad is failed, every wanted one before it was rolled
      back and has its own uninstall, every wanted one after it was not attempted and has no call. */
  lemma OutcomesAreClassified(req: Request, env: Env, m: Releases)
    requires Valid(req, env)
    ensures Classified(req, env, m, Reported(req, env, m), Calls(req, env, m),
                       env.factory && Stop(req, env, m) == |req.choices|)
  {
    var n := |req.choices|;
    forall j | 0 <= j < n ensures Stops(req, env, m, j) <==> Fails(req, env, m, j) { StopsIsFails(req, env, m, j); }
    RankIsCount(req, n);
    if env.factory && Stop(req, env, m) < n {
      FailureIsClassified(req, env, m);
    } else if env.factory {
      InstallsInOrder(req, n, Calls(req, env, m));
    }
  }

  /** Helm is given the hostname the operator chose: no accepted one is changed on the way. */
  lemma InstallsUseTheHostname(req: Request, calls: seq<Call>, n: nat, j: nat)
    requires n <= |req.choices| && InstalledInOrder(req, calls, n) && j < n && Wanted(req, j)
    requires Hostname.Accepted(req.choices[j].hostname)
    ensures Rank(req, j) < |calls| && calls[Rank(req, j)].DoInstall?
    ensures calls[Rank(req, j)].hostname == req.choices[j].hostname
  {
    Hostname.SubstituteIsIdentity(req.choices[j].hostname, req.choices[j].release, req.fqdn);
  }

  // ---------- the worker ----------

  // While choice i is handled, the earlier ones have succeeded.
  function SoFar(req: Request, i: nat, j: nat): Outcome
    requires j < |req.choices|
  {
    if req.choices[j].skip then Skipped else if j < i then Succeeded else NotAttempted
  }

  ghost predicate Reports(outcomes: array<ChartOutcome>, req: Request, i: nat)
    reads outcomes
  {
    outcomes.Length == |req.choices|
    && forall j {:trigger outcomes[j]} :: 0 <= j < |req.choices| ==>
        outcomes[j] == Report(req.choices[j], SoFar(req, i, j))
  }

  method Preseed(req: Request) returns (outcomes: array<ChartOutcome>)
    ensures fresh(outcomes) && Reports(outcomes, req, 0)
  {
    outcomes := new ChartOutcome[|req.choices|](_ => ChartOutcome("", "", "", NotAttempted));
    for i := 0 to |req.choices|
      invariant outcomes.Length == |req.choices|
      invariant forall j {:trigger outcomes[j]} :: 0 <= j < i ==>
                  outcomes[j] == Report(req.choices[j], SoFar(req, 0, j))
    {
      var c := req.choices[i];
      outcomes[i] := ChartOutcome(c.chart, c.version, c.release, if c.skip then Skipped else NotAttempted);
    }
  }

  method CountInstallable(req: Request) returns (n: nat)
    ensures n == Total(req)
  {
    n := 0;
    for i := 0 to |req.choices|
      invariant n == |Picked(req, i)|
    {
      if !req.choices[i].skip {
        n := n + 1;
      }
    }
  }

  method RollbackInstalled(helm: Helm, installed: seq<Choice>, stuck: set<Key>)
    modifies helm
    ensures helm.releases == Undone(old(helm.releases), installed, stuck)
    ensures helm.calls == old(helm.calls) + Uninstalls(installed)
  {
    var i := |installed|;
    assert installed[..i] == installed;
    while i > 0
      invariant 0 <= i <= |installed|
      invariant Undone(helm.releases, installed[..i], stuck) == Undone(old(helm.releases), installed, stuck)
      invariant helm.calls == old(helm.calls) + Uninstalls(installed)[..|installed| - i]
    {
      i := i - 1;
      assert installed[..i + 1][..i] == installed[..i];
      helm.Uninstall(installed[i].At(), stuck);
    }
  }

  predicate Named(installed: seq<Choice>, release: string) {
    exists j :: 0 <= j < |installed| && installed[j].release == release
  }

  lemma NamedSnoc(cs: seq<Choice>, c: Choice, release: string)
    ensures Named(cs + [c], release) <==> Named(cs, release) || c.release == release
  {
    var t := cs + [c];
    assert t[|cs|] == c;
    if Named(cs, release) {
      var j :| 0 <= j < |cs| && cs[j].release == release;
      assert t[j] == cs[j];
    }
  }

  lemma NamesSnoc(cs: seq<Choice>, c: Choice)
    ensures forall r :: Named(cs + [c], r) <==> Named(cs, r) || c.release == r
  {
    forall r ensures Named(cs + [c], r) <==> Named(cs, r) || c.release == r { NamedSnoc(cs, c, r); }
  }

  // By release name only.
  method MarkRolledBack(outcomes: array<ChartOutcome>, installed: seq<Choice>)
    modifies outcomes
    ensures forall j {:trigger outcomes[j]} :: 0 <= j < outcomes.Length ==>
              outcomes[j] == if Named(installed, old(outcomes[j]).release) && old(outcomes[j]).outcome == Succeeded
                             then old(outcomes[j]).(outcome := RolledBack) else old(outcomes[j])
  {
    var rb: set<string> := {};
    for i := 0 to |installed|
      invariant forall r :: r in rb <==> Named(installed[..i], r)
      invariant outcomes[..] == old(outcomes[..])
    {
      assert installed[..i + 1] == installed[..i] + [installed[i]];
      NamesSnoc(installed[..i], installed[i]);
      rb := rb + {installed[i].release};
    }
    assert installed[..|installed|] == installed;
    assert forall j {:trigger outcomes[j]} :: 0 <= j < outcomes.Length ==> outcomes[j] == outcomes[..][j];
    for i := 0 to outcomes.Length
      invariant forall j {:trigger outcomes[j]} :: i <= j < outcomes.Length ==> outcomes[j] == old(outcomes[j])
      invariant forall j {:trigger outcomes[j]} :: 0 <= j < i ==>
                  outcomes[j] == if Named(installed, old(outcomes[j]).release) && old(outcomes[j]).outcome == Succeeded
                                 then old(outcomes[j]).(outcome := RolledBack) else old(outcomes[j])
    {
      if outcomes[i].release in rb && outcomes[i].outcome == Succeeded {
        outcomes[i] := outcomes[i].(outcome := RolledBack);
      }
    }
  }

  lemma {:induction false} PickedNames(req: Request, n: nat, j: nat)
    requires j < n <= |req.choices| && !req.choices[j].skip
    ensures Named(Picked(req, n), req.choices[j].release)
  {
    var p := Picked(req, n);
    if j == n - 1 {
      assert p[|p| - 1].release == req.choices[j].release;
    } else {
      PickedNames(req, n - 1, j);
      var i :| 0 <= i < |Picked(req, n - 1)| && Picked(req, n - 1)[i].release == req.choices[j].release;
      assert p[i].release == req.choices[j].release;
    }
  }

  // Write the values file, if there is one, then call helm.
  method TryInstall(helm: Helm, req: Request, env: Env, i: nat, choice: Choice, ghost m: Releases)
    returns (called: bool, ok: bool)
    requires Valid(req, env) && i < |req.choices| && !req.choices[i].skip && choice == Resolved(req, req.choices[i])
    requires helm.releases == Added(req, m, i)
    modifies helm
    ensures called <==> !ValuesFail(req.choices[i], env.faults[i])
    ensures ok <==> !Stops(req, env, m, i)
    ensures helm.calls == old(helm.calls) + if called then Installs([choice]) else []
    ensures helm.releases == if ok then Added(req, m, i + 1) else AtFailure(req, env, m, i)
  {
    called, ok := true, false;
    if choice.values != "" && env.faults[i].values {
      called := false;
      return;
    }
    ok := helm.Install(choice, req.atomic, env.faults[i]);
  }

  // Choice i failed: mark it, uninstall what was installed, mark that too.
  method Abort(helm: Helm, req: Request, i: nat, outcomes: array<ChartOutcome>, installed: seq<Choice>,
               stuck: set<Key>)
    requires i < |req.choices| && !req.choices[i].skip && installed == Picked(req, i) && Reports(outcomes, req, i)
    modifies helm, outcomes
    ensures helm.releases == Undone(old(helm.releases), installed, stuck)
    ensures helm.calls == old(helm.calls) + Uninstalls(installed)
    ensures forall j {:trigger outcomes[j]} :: 0 <= j < |req.choices| ==>
              outcomes[j] == Report(req.choices[j], Aborted(req, i, j))
  {
    outcomes[i] := outcomes[i].(outcome := Failed);
    RollbackInstalled(helm, installed, stuck);
    MarkRolledBack(outcomes, installed);
    forall j | 0 <= j < i && !req.choices[j].skip
      ensures Named(installed, req.choices[j].release)
    {
      PickedNames(req, i, j);
    }
  }

  // What holds before choice i is handled; m and calls are helm's releases and calls at the start.
  ghost predicate Underway(helm: Helm, m: Releases, calls: seq<Call>, req: Request, env: Env,
                           outcomes: array<ChartOutcome>, installed: seq<Choice>, progress: seq<Progress>, i: nat)
    requires Valid(req, env)
    reads helm, outcomes
  {
    && i <= Stop(req, env, m)
    && installed == Picked(req, i)
    && helm.releases == Added(req, m, i)
    && helm.calls == calls + Installs(installed)
    && progress == [BundleStart(Total(req))] + Banner(installed, Total(req))
    && Reports(outcomes, req, i)
  }

  lemma PassesOrStops(req: Request, env: Env, m: Releases, i: nat)
    requires Valid(req, env) && i < |req.choices| && i <= Stop(req, env, m)
    ensures if Stops(req, env, m, i) then Stop(req, env, m) == i else i < Stop(req, env, m)
  {}

  method InstallNext(helm: Helm, req: Request, env: Env, i: nat, outcomes: array<ChartOutcome>,
                     installed: seq<Choice>, shown: seq<Progress>, total: nat,
                     ghost m: Releases, ghost calls: seq<Call>)
    returns (ok: bool, progress: seq<Progress>)
    requires Valid(req, env) && i < |req.choices| && !req.choices[i].skip && total == Total(req)
    requires env.factory && Underway(helm, m, calls, req, env, outcomes, installed, shown, i)
    modifies helm, outcomes
    ensures ok ==> Underway(helm, m, calls, req, env, outcomes, installed + [Resolved(req, req.choices[i])], progress,
                            i + 1)
    ensures !ok ==>
              && Stop(req, env, m) == i
              && helm.releases == Undone(AtFailure(req, env, m, i), installed, env.stuck)
              && helm.calls == calls + Installs(Called(req, env, i)) + Uninstalls(installed)
              && progress == Shown(req, env, m)
              && forall j {:trigger outcomes[j]} :: 0 <= j < |req.choices| ==>
                  outcomes[j] == Report(req.choices[j], Aborted(req, i, j))
  {
    var choice := Resolved(req, req.choices[i]);
    progress := shown + [ChartInstall(choice.chart, choice.At(), |installed| + 1, total)];
    assert progress == [BundleStart(total)] + Banner(installed + [choice], total);
    PassesOrStops(req, env, m, i);
    var called;
    called, ok := TryInstall(helm, req, env, i, choice, m);
    assert Installs(installed) + Installs([choice]) == Installs(installed + [choice]);
    if ok {
      outcomes[i] := outcomes[i].(outcome := Succeeded);
    } else {
      if called && |installed| > 0 {
        progress := progress + [Rollback(choice.chart, |installed|)];
      }
      Abort(helm, req, i, outcomes, installed, env.stuck);
    }
  }

  method RunCharts(helm: Helm, req: Request, env: Env)
    returns (outcomes: array<ChartOutcome>, progress: seq<Progress>, ok: bool)
    requires Valid(req, env)
    modifies helm
    ensures helm.releases == Final(req, env, old(helm.releases))
    ensures helm.calls == old(helm.calls) + Calls(req, env, old(helm.releases))
    ensures progress == Shown(req, env, old(helm.releases))
    ensures ok <==> env.factory && Stop(req, env, old(helm.releases)) == |req.choices|
    ensures fresh(outcomes) && outcomes.Length == |req.choices|
    ensures forall j {:trigger outcomes[j]} :: 0 <= j < |req.choices| ==>
              outcomes[j] == Report(req.choices[j], Verdict(req, env, old(helm.releases), j))
  {
    ghost var m, calls := helm.releases, helm.calls;
    outcomes := Preseed(req);
    progress, ok := [], false;
    if !env.factory {
      return;
    }
    var total := CountInstallable(req);
    progress := [BundleStart(total)];
    var installed: seq<Choice> := [];
    var i := 0;
    while i < |req.choices|
      invariant 0 <= i <= |req.choices| && fresh(outcomes)
      invariant Underway(helm, m, calls, req, env, outcomes, installed, progress, i)
    {
      if req.choices[i].skip {
        i := i + 1;
        continue;
      }
      ok, progress := InstallNext(helm, req, env, i, outcomes, installed, progress, total, m, calls);
      if !ok {
        return;
      }
      installed := installed + [Resolved(req, req.choices[i])];
      i := i + 1;
    }
    ok := true;
  }

  method RunBundleInstall(helm: Helm, req: Request, env: Env)
    returns (outcomes: array<ChartOutcome>, progress: seq<Progress>, ok: bool)
    requires Valid(req, env)
    modifies helm
    ensures helm.releases == Final(req, env, old(helm.releases))
    ensures helm.calls == old(helm.calls) + Calls(req, env, old(helm.releases))
    ensures progress == Shown(req, env, old(helm.releases))
    ensures ok <==> env.factory && Stop(req, env, old(helm.releases)) == |req.choices|
    ensures fresh(outcomes) && outcomes.Length == |req.choices|
    ensures forall j {:trigger outcomes[j]} :: 0 <= j < |req.choices| ==>
              outcomes[j] == Report(req.choices[j], Verdict(req, env, old(helm.releases), j))
    ensures Classified(req, env, old(helm.releases), outcomes[..], helm.calls[|old(helm.calls)|..], ok)
  {
    outcomes, progress, ok := RunCharts(helm, req, env);
    OutcomesAreClassified(req, env, old(helm.releases));
    assert outcomes[..] == Reported(req, env, old(helm.releases));
    assert helm.calls[|old(helm.calls)|..] == Calls(req, env, old(helm.releases));
  }

  // ---------- what a bundle leaves ----------

  lemma {:induction false} AddedGrows(req: Request, m: Releases, i: nat, n: nat, at: Key)
    requires i <= n <= |req.choices| && at in Added(req, m, i)
    ensures at in Added(req, m, n)
    decreases n
  {
    if i < n {
      AddedGrows(req, m, i, n - 1, at);
    }
  }

  // Up to where the bundle stops, every wanted choice found its name free.
  lemma WasFree(req: Request, env: Env, m: Releases, i: nat)
    requires Valid(req, env) && i < Stop(req, env, m) && Wanted(req, i)
    ensures req.choices[i].At() !in Added(req, m, i)
  {
    assert !Stops(req, env, m, i);
  }

  lemma NamesDiffer(req: Request, env: Env, m: Releases, i: nat, j: nat)
    requires Valid(req, env) && i < j < Stop(req, env, m) && Wanted(req, i) && Wanted(req, j)
    ensures req.choices[i].At() != req.choices[j].At()
  {
    WasFree(req, env, m, j);
    AddedGrows(req, m, i + 1, j, req.choices[i].At());
  }

  // n passed choices have left m alone and added one release each.
  ghost predicate AddsExactly(req: Request, m: Releases, n: nat, r: Releases)
    requires n <= |req.choices|
  {
    && (forall at :: at in m ==> at in r && r[at] == m[at])
    && (forall i {:trigger Wanted(req, i)} :: i < n && Wanted(req, i) ==>
          var c := req.choices[i]; c.At() !in m && c.At() in r && r[c.At()] == c.chart)
    && (forall at :: at in r && at !in m ==> exists i :: i < n && Wanted(req, i) && req.choices[i].At() == at)
  }

  lemma {:induction false} AddedAddsExactly(req: Request, env: Env, m: Releases, n: nat)
    requires Valid(req, env) && n <= Stop(req, env, m)
    ensures AddsExactly(req, m, n, Added(req, m, n))
  {
    if n > 0 {
      AddedAddsExactly(req, env, m, n - 1);
      if Wanted(req, n - 1) {
        WasFree(req, env, m, n - 1);
        assert req.choices[n - 1].At() == req.choices[n - 1].At();
      }
    }
  }

  /** A bundle that succeeds leaves the releases that were there and exactly the wanted ones more, each under its own
      name; it installs them in order and uninstalls nothing. */
  lemma SuccessAddsExactly(req: Request, env: Env, m: Releases)
    requires Valid(req, env) && env.factory && Stop(req, env, m) == |req.choices|
    ensures AddsExactly(req, m, |req.choices|, Final(req, env, m))
    ensures forall i, j {:trigger Wanted(req, i), Wanted(req, j)} :: i < j && Wanted(req, i) && Wanted(req, j) ==>
              req.choices[i].At() != req.choices[j].At()
    ensures Calls(req, env, m) == Installs(Picked(req, |req.choices|))
  {
    AddedAddsExactly(req, env, m, |req.choices|);
    forall i, j | i < j && Wanted(req, i) && Wanted(req, j)
      ensures req.choices[i].At() != req.choices[j].At()
    {
      NamesDiffer(req, env, m, i, j);
    }
  }

  // m and those of the first n wanted releases whose uninstall fails.
  function Kept(req: Request, m: Releases, stuck: set<Key>, n: nat): Releases
    requires n <= |req.choices|
  {
    if n == 0 then m
    else
      var c := req.choices[n - 1];
      if c.skip || c.At() !in stuck then Kept(req, m, stuck, n - 1)
      else Kept(req, m, stuck, n - 1)[c.At() := c.chart]
  }

  lemma UndoLast(req: Request, r: Releases, stuck: set<Key>, n: nat)
    requires 0 < n <= |req.choices| && !req.choices[n - 1].skip
    ensures var at := req.choices[n - 1].At();
            Undone(r, Picked(req, n), stuck) == Undone(if at in stuck then r else r - {at}, Picked(req, n - 1), stuck)
  {
    var p := Picked(req, n);
    assert p[..|p| - 1] == Picked(req, n - 1);
  }

  lemma {:induction false} UndoneIsKept(req: Request, env: Env, m: Releases, n: nat, extra: Releases)
    requires Valid(req, env) && n <= Stop(req, env, m) && extra.Keys !! Added(req, m, n).Keys
    ensures Undone(Added(req, m, n) + extra, Picked(req, n), env.stuck) == Kept(req, m, env.stuck, n) + extra
  {
    if n > 0 {
      var c := req.choices[n - 1];
      if c.skip {
        UndoneIsKept(req, env, m, n - 1, extra);
      } else if c.At() in env.stuck {
        StuckStays(req, env, m, n, extra);
        UndoneIsKept(req, env, m, n - 1, extra[c.At() := c.chart]);
      } else {
        WasFree(req, env, m, n - 1);
        UndoLast(req, Added(req, m, n) + extra, env.stuck, n);
        assert (Added(req, m, n) + extra) - {c.At()} == Added(req, m, n - 1) + extra;
        UndoneIsKept(req, env, m, n - 1, extra);
      }
    }
  }

  // A release whose uninstall fails joins what was there besides.
  lemma StuckStays(req: Request, env: Env, m: Releases, n: nat, extra: Releases)
    requires Valid(req, env) && 0 < n <= Stop(req, env, m) && extra.Keys !! Added(req, m, n).Keys
    requires !req.choices[n - 1].skip && req.choices[n - 1].At() in env.stuck
    ensures var c := req.choices[n - 1];
            && extra[c.At() := c.chart].Keys !! Added(req, m, n - 1).Keys
            && Undone(Added(req, m, n) + extra, Picked(req, n), env.stuck)
               == Undone(Added(req, m, n - 1) + extra[c.At() := c.chart], Picked(req, n - 1), env.stuck)
            && Kept(req, m, env.stuck, n) + extra == Kept(req, m, env.stuck, n - 1) + extra[c.At() := c.chart]
  {
    var c := req.choices[n - 1];
    WasFree(req, env, m, n - 1);
    UndoLast(req, Added(req, m, n) + extra, env.stuck, n);
    MoveOver(Added(req, m, n - 1), Kept(req, m, env.stuck, n - 1), extra, c.At(), c.chart);
  }

  lemma MoveOver(a: Releases, b: Releases, extra: Releases, at: Key, chart: string)
    requires at !in extra
    ensures a[at := chart] + extra == a + extra[at := chart]
    ensures b[at := chart] + extra == b + extra[at := chart]
  {}

  lemma {:induction false} KeptWithin(req: Request, m: Releases, stuck: set<Key>, n: nat)
    requires n <= |req.choices|
    ensures Kept(req, m, stuck, n).Keys <= Added(req, m, n).Keys
  {
    if n > 0 { KeptWithin(req, m, stuck, n - 1); }
  }

  // The releases a failed bundle leaves beyond those it found.
  function Extra(req: Request, env: Env, m: Releases, k: nat): Releases
    requires Valid(req, env) && k < |req.choices|
  {
    if Debris(req, env, m, k) then map[req.choices[k].At() := req.choices[k].chart] else map[]
  }

  lemma FailureLeaves(req: Request, env: Env, m: Releases)
    requires Valid(req, env) && env.factory && Stop(req, env, m) < |req.choices|
    ensures var k := Stop(req, env, m);
            Final(req, env, m) == Kept(req, m, env.stuck, k) + Extra(req, env, m, k)
  {
    var k := Stop(req, env, m);
    var extra := Extra(req, env, m, k);
    assert AtFailure(req, env, m, k) == Added(req, m, k) + extra;
    UndoneIsKept(req, env, m, k, extra);
  }

  lemma {:induction false} KeptIsSame(req: Request, env: Env, m: Releases, n: nat)
    requires Valid(req, env) && n <= Stop(req, env, m)
    ensures m.Keys <= Kept(req, m, env.stuck, n).Keys
    ensures (forall i {:trigger Wanted(req, i)} :: i < n && Wanted(req, i) ==> req.choices[i].At() !in env.stuck) ==>
              Kept(req, m, env.stuck, n) == m
    ensures forall i {:trigger Wanted(req, i)} :: i < n && Wanted(req, i) && req.choices[i].At() in env.stuck ==>
              req.choices[i].At() in Kept(req, m, env.stuck, n) && req.choices[i].At() !in m
  {
    if n > 0 {
      KeptIsSame(req, env, m, n - 1);
      AddedAddsExactly(req, env, m, n);
      assert Wanted(req, n - 1) || req.choices[n - 1].skip;
    }
  }

  /** A bundle that fails at choice k restores exactly the releases it found if and only if the failing install left
      nothing behind (always so when atomic) and no uninstall of an installed choice failed. */
  lemma FailureRestoresExactly(req: Request, env: Env, m: Releases)
    requires Valid(req, env) && env.factory && Stop(req, env, m) < |req.choices|
    ensures var k := Stop(req, env, m);
            Final(req, env, m) == m <==>
              !Debris(req, env, m, k)
              && forall i {:trigger Wanted(req, i)} :: i < k && Wanted(req, i) ==> req.choices[i].At() !in env.stuck
    ensures req.atomic ==> !Debris(req, env, m, Stop(req, env, m))
  {
    var k := Stop(req, env, m);
    FailureLeaves(req, env, m);
    KeptIsSame(req, env, m, k);
    if Debris(req, env, m, k) {
      var at := req.choices[k].At();
      assert at in Final(req, env, m);
      if at in m { AddedGrows(req, m, 0, k, at); }
    }
  }

  /** After a failure the uninstalls mirror the installs that succeeded: the last of them first, each release once. */
  lemma RollbackMirrorsInstalls(req: Request, env: Env, m: Releases)
    requires Valid(req, env) && env.factory && Stop(req, env, m) < |req.choices|
    ensures var n := |Picked(req, Stop(req, env, m))|;
            var calls := Calls(req, env, m);
            && 2 * n <= |calls| <= 2 * n + 1
            && (forall j {:trigger calls[j]} :: 0 <= j < |calls| - n ==> calls[j].DoInstall?)
            && (forall j {:trigger calls[|calls| - 1 - j]} :: 0 <= j < n ==>
                  calls[|calls| - 1 - j] == DoUninstall(calls[j].at))
            && (forall i, j {:trigger calls[i], calls[j]} :: 0 <= i < j < n ==> calls[i].at != calls[j].at)
  {
    var k := Stop(req, env, m);
    var p := Picked(req, k);
    PickedDiffer(req, env, m, k);
    var calls := Calls(req, env, m);
    assert forall j {:trigger calls[j]} :: 0 <= j < |p| ==> calls[j] == DoInstall(p[j].chart, p[j].At(), p[j].hostname);
  }

  predicate AllIn(p: seq<Choice>, r: Releases) {
    forall j {:trigger p[j]} :: 0 <= j < |p| ==> p[j].At() in r
  }

  predicate Distinct(p: seq<Choice>) {
    forall i, j {:trigger p[i], p[j]} :: 0 <= i < j < |p| ==> p[i].At() != p[j].At()
  }

  lemma {:induction false} PickedDiffer(req: Request, env: Env, m: Releases, n: nat)
    requires Valid(req, env) && n <= Stop(req, env, m)
    ensures AllIn(Picked(req, n), Added(req, m, n)) && Distinct(Picked(req, n))
  {
    if n > 0 {
      PickedDiffer(req, env, m, n - 1);
      if !req.choices[n - 1].skip {
        WasFree(req, env, m, n - 1);
        DistinctSnoc(Picked(req, n - 1), Resolved(req, req.choices[n - 1]), Added(req, m, n - 1));
      }
    }
  }

  lemma DistinctSnoc(p: seq<Choice>, c: Choice, r: Releases)
    requires AllIn(p, r) && Distinct(p) && c.At() !in r
    ensures AllIn(p + [c], r[c.At() := c.chart]) && Distinct(p + [c])
  {}

  lemma {:induction false} PickedGrows(req: Request, n: nat, n': nat)
    requires n <= n' <= |req.choices|
    ensures |Picked(req, n)| <= |Picked(req, n')|
    ensures n < n' && !req.choices[n].skip ==> |Picked(req, n)| < |Picked(req, n')|
    decreases n'
  {
    if n < n' { PickedGrows(req, n, n' - 1); }
  }

  /** The banner counts 1, 2, ... without a gap, never past the announced total, and reaches it on success. */
  lemma ProgressCounts(req: Request, env: Env, m: Releases)
    requires Valid(req, env) && env.factory
    ensures var shown := Shown(req, env, m);
            && |shown| > 0 && shown[0] == BundleStart(Total(req))
            && (forall i {:trigger shown[i]} :: 0 <= i < |shown| && shown[i].ChartInstall? ==>
                  shown[i].index == i <= Total(req) && shown[i].total == Total(req))
            && (Stop(req, env, m) == |req.choices| ==>
                  |shown| == Total(req) + 1 && (Total(req) > 0 ==> shown[|shown| - 1].ChartInstall?))
  {
    var k := Stop(req, env, m);
    PickedGrows(req, k, |req.choices|);
  }

  // How far choices are announced: through the one that failed, or all of them.
  function Through(req: Request, env: Env, m: Releases): (e: nat)
    requires Valid(req, env)
    ensures e <= |req.choices|
  {
    var k := Stop(req, env, m);
    if k < |req.choices| then k + 1 else k
  }

  lemma ShownBegins(req: Request, env: Env, m: Releases)
    requires Valid(req, env) && env.factory
    ensures [BundleStart(Total(req))] + Banner(Picked(req, Through(req, env, m)), Total(req)) <= Shown(req, env, m)
  {
    var k := Stop(req, env, m);
    if k < |req.choices| { assert Picked(req, k + 1) == Picked(req, k) + [Resolved(req, req.choices[k])]; }
  }

  lemma BannerAt(shown: seq<Progress>, cs: seq<Choice>, total: nat, r: nat)
    requires [BundleStart(total)] + Banner(cs, total) <= shown && r < |cs|
    ensures r + 1 < |shown| && shown[r + 1] == ChartInstall(cs[r].chart, cs[r].At(), r + 1, total)
  {
    var head := [BundleStart(total)] + Banner(cs, total);
    assert shown[r + 1] == head[r + 1] == Banner(cs, total)[r];
  }

  lemma BannerAtRank(req: Request, shown: seq<Progress>, e: nat, j: nat)
    requires j < e <= |req.choices| && Wanted(req, j)
    requires [BundleStart(Total(req))] + Banner(Picked(req, e), Total(req)) <= shown
    ensures var c := req.choices[j];
            && Rank(req, j) + 1 < |shown|
            && shown[Rank(req, j) + 1] == ChartInstall(c.chart, c.At(), Rank(req, j) + 1, Rank(req, |req.choices|))
  {
    PickedAt(req, e, j);
    RankIsCount(req, |req.choices|);
    BannerAt(shown, Picked(req, e), Total(req), Rank(req, j));
  }

  /** Each wanted choice that is reached is announced under its own chart and name, with its number and the total. */
  lemma AnnouncementMeans(req: Request, env: Env, m: Releases, j: nat)
    requires Valid(req, env) && env.factory && Wanted(req, j) && j <= Stop(req, env, m)
    ensures var shown, c := Shown(req, env, m), req.choices[j];
            && Rank(req, j) + 1 < |shown|
            && shown[Rank(req, j) + 1] == ChartInstall(c.chart, c.At(), Rank(req, j) + 1, Rank(req, |req.choices|))
  {
    ShownBegins(req, env, m);
    BannerAtRank(req, Shown(req, env, m), Through(req, env, m), j);
  }

  /** Nothing is announced after the chart that fails, except a roll-back with that chart and the number of charts to
      undo, exactly if helm was called for it and there are any. */
  lemma RollbackAnnounced(req: Request, env: Env, m: Releases)
    requires Valid(req, env) && env.factory && Stop(req, env, m) < |req.choices|
    ensures var shown, k := Shown(req, env, m), Stop(req, env, m);
            if (req.choices[k].values != "" && env.faults[k].values) || Rank(req, k) == 0
            then |shown| == Rank(req, k) + 2
            else |shown| == Rank(req, k) + 3
                 && shown[Rank(req, k) + 2] == Rollback(req.choices[k].chart, Rank(req, k))
  {
    RankIsCount(req, Stop(req, env, m));
  }
}
