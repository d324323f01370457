/**
  The step list of the deployment page: events folded into one state per step.
  Source: reduce in ui/src/components/StepList.tsx.
 */
module StepList {
  import opened Common
  import opened Events
  import opened Streams
  import Hub

  datatype StepState = Running | Done | Failed

  // The state an event gives the step it names, if it is a step event with a name.
  function Effect(e: Event): Option<StepState> {
    if e.step == "" then None
    else if e.kind.StepStart? then Some(Running)
    else if e.kind.StepEnd? then Some(if e.status == "failed" || e.exit != 0 then Failed else Done)
    else None
  }

  predicate Touches(e: Event, name: string) { e.step == name && Effect(e).Some? }

  // The state the last event touching name gave it.
  function StateOf(es: seq<Event>, name: string): Option<StepState> {
    if es == [] then None
    else if Touches(es[|es| - 1], name) then Effect(es[|es| - 1])
    else StateOf(es[..|es| - 1], name)
  }

  // Position of the first event touching name; |es| if there is none.
  function FirstTouch(es: seq<Event>, name: string): (i: nat)
    ensures i <= |es|
    ensures forall j {:trigger es[j]} :: 0 <= j < i ==> !Touches(es[j], name)
    ensures i < |es| ==> Touches(es[i], name)
  {
    if es == [] then 0
    else
      var i := FirstTouch(es[..|es| - 1], name);
      assert forall j {:trigger es[j]} :: 0 <= j < |es| - 1 ==> es[j] == es[..|es| - 1][j];
      if i < |es| - 1 || Touches(es[|es| - 1], name) then i else |es|
  }

  // A map that keeps its keys in insertion order.
  predicate Ordered(es: seq<Event>, order: seq<string>) {
    forall i, j {:trigger order[i], order[j]} :: 0 <= i < j < |order| ==>
      FirstTouch(es, order[i]) < FirstTouch(es, order[j])
  }

  ghost predicate OrderMatches(es: seq<Event>, order: seq<string>) {
    (forall name :: name in order <==> FirstTouch(es, name) < |es|) && Ordered(es, order)
  }

  ghost predicate StateAt(es: seq<Event>, states: map<string, StepState>, name: string) {
    StateOf(es, name) == if name in states then Some(states[name]) else None
  }

  // One entry per step that occurs, in order of first occurrence, holding the state its last event gave it.
  ghost predicate Shows(es: seq<Event>, order: seq<string>, states: map<string, StepState>) {
    OrderMatches(es, order) && forall name :: StateAt(es, states, name)
  }

  method Reduce(es: seq<Event>) returns (order: seq<string>, states: map<string, StepState>)
    ensures Shows(es, order, states)
  {
    order, states := [], map[];
    var i := 0;
    while i < |es|
      invariant 0 <= i <= |es|
      invariant Shows(es[..i], order, states)
    {
      ShowsStep(es, i, order, states);
      var e := es[i];
      if e.kind.StepStart? && e.step != "" {
        order, states := Set(order, states, e.step, Running);
      } else if e.kind.StepEnd? && e.step != "" {
        var failed := e.status == "failed" || e.exit != 0;
        order, states := Set(order, states, e.step, if failed then Failed else Done);
      }
      i := i + 1;
    }
    assert es[..i] == es;
  }

  // Map.set: a known key keeps its place.
  method Set(order: seq<string>, states: map<string, StepState>, name: string, state: StepState)
    returns (order': seq<string>, states': map<string, StepState>)
    ensures order' == Insert(order, name, name in states) && states' == states[name := state]
  {
    order', states' := order, states[name := state];
    if name !in states {
      order' := order + [name];
    }
  }

  function Insert(order: seq<string>, name: string, known: bool): seq<string> {
    if known then order else order + [name]
  }

  lemma TouchGrows(es: seq<Event>, e: Event, name: string)
    ensures StateOf(es + [e], name) == if Touches(e, name) then Effect(e) else StateOf(es, name)
    ensures FirstTouch(es, name) < |es| ==> FirstTouch(es + [e], name) == FirstTouch(es, name)
    ensures FirstTouch(es, name) == |es| ==>
              FirstTouch(es + [e], name) == if Touches(e, name) then |es| else |es| + 1
  {
    assert (es + [e])[..|es|] == es;
  }

  lemma {:induction false} TouchedIffShown(es: seq<Event>, name: string)
    ensures StateOf(es, name).Some? <==> FirstTouch(es, name) < |es|
  {
    if es != [] {
      TouchedIffShown(es[..|es| - 1], name);
    }
  }

  lemma OrderStep(es: seq<Event>, e: Event, order: seq<string>)
    requires OrderMatches(es, order)
    ensures OrderMatches(es + [e], if Effect(e).None? then order else Insert(order, e.step, e.step in order))
  {
    var next := if Effect(e).None? then order else Insert(order, e.step, e.step in order);
    forall name ensures name in next <==> FirstTouch(es + [e], name) < |es + [e]| {
      TouchGrows(es, e, name);
    }
    OrderedStep(es, e, order, next);
  }

  lemma OrderedStep(es: seq<Event>, e: Event, order: seq<string>, next: seq<string>)
    requires OrderMatches(es, order)
    requires next == order || (e.step !in order && Effect(e).Some? && next == order + [e.step])
    ensures Ordered(es + [e], next)
  {
    forall i, j | 0 <= i < j < |next|
      ensures FirstTouch(es + [e], next[i]) < FirstTouch(es + [e], next[j])
    {
      assert next[i] == order[i] && order[i] in order;
      TouchGrows(es, e, next[i]);
      TouchGrows(es, e, next[j]);
      if j < |order| { assert next[j] == order[j] && order[j] in order; }
    }
  }

  lemma ShowsStep(all: seq<Event>, i: nat, order: seq<string>, states: map<string, StepState>)
    requires i < |all| && Shows(all[..i], order, states)
    ensures var e := all[i];
            if Effect(e).None? then Shows(all[..i + 1], order, states)
            else Shows(all[..i + 1], Insert(order, e.step, e.step in states), states[e.step := Effect(e).value])
  {
    var es, e := all[..i], all[i];
    assert all[..i + 1] == es + [e];
    assert e.step in order <==> e.step in states by {
      TouchedIffShown(es, e.step);
      assert StateAt(es, states, e.step);
    }
    OrderStep(es, e, order);
    var states' := if Effect(e).None? then states else states[e.step := Effect(e).value];
    forall name ensures StateAt(es + [e], states', name) {
      TouchGrows(es, e, name);
      assert StateAt(es, states, name);
    }
  }

  // ---------- eviction keeps what it shows ----------

  /** A step that still occurs in the retained suffix is shown as the full stream would show it. */
  lemma {:induction false} SuffixKeepsState(es: seq<Event>, n: nat, name: string)
    ensures StateOf(Hub.Suffix(es, n), name).Some? ==> StateOf(Hub.Suffix(es, n), name) == StateOf(es, name)
    decreases |es|
  {
    if 0 < n < |es| {
      var kept := Hub.Suffix(es, n);
      assert kept[..|kept| - 1] == Hub.Suffix(es[..|es| - 1], n - 1);
      SuffixKeepsState(es[..|es| - 1], n - 1, name);
    }
  }

  /** On a stream whose brackets match so far, the step shown running is the one that is open. */
  lemma {:induction false} RunningIsOpen(es: seq<Event>, name: string)
    requires Scan(Idle, es) != Broken
    ensures StateOf(es, name) == Some(Running) <==> Scan(Idle, es) == Inside(name)
  {
    if es != [] {
      RunningIsOpen(es[..|es| - 1], name);
    }
  }

  lemma {:induction false} BrokenStays(es: seq<Event>)
    ensures Scan(Broken, es) == Broken
  {
    if es != [] {
      BrokenStays(es[..|es| - 1]);
    }
  }

  // So far into a stream whose brackets match, a running step is the open one.
  lemma OpenInPrefix(es: seq<Event>, full: seq<Event>, name: string)
    requires es <= full && Scan(Idle, full) == Idle
    ensures StateOf(es, name) == Some(Running) ==> Scan(Idle, es) == Inside(name)
  {
    assert full == es + full[|es|..];
    ScanConcat(Idle, es, full[|es|..]);
    BrokenStays(full[|es|..]);
    RunningIsOpen(es, name);
  }

  /** While a deploy, destroy or upgrade publishes, a page that replays the retained history shows as running at
      most the step that is open; once the worker has published everything it shows none. */
  lemma ShownRunningIsOpen(run: seq<Hub.Step>, st: Hub.StreamId, full: seq<Event>, name: string)
    requires Hub.Legal(Hub.EMPTY, run) && WorkerStream(full) && Hub.Published(run, st) <= full
    ensures StateOf(Hub.HistoryOf(Hub.After(Hub.EMPTY, run), st), name) == Some(Running) ==>
              Scan(Idle, Hub.Published(run, st)) == Inside(name) && Hub.Published(run, st) != full
  {
    Hub.HistoryIsSuffix(run, st);
    SuffixKeepsState(Hub.Published(run, st), Hub.HISTORY_CAP, name);
    assert Scan(Idle, full) == Idle by { WorkerStreamsAreWhole(full); }
    OpenInPrefix(Hub.Published(run, st), full, name);
  }

  // ---------- how a finished stage is shown ----------

  lemma {:induction false} StateOfConcat(a: seq<Event>, b: seq<Event>, name: string)
    ensures StateOf(a + b, name) == if StateOf(b, name).Some? then StateOf(b, name) else StateOf(a, name)
  {
    if b == [] {
      assert a + b == a;
    } else {
      assert (a + b)[..|a + b| - 1] == a + b[..|b| - 1];
      StateOfConcat(a, b[..|b| - 1], name);
    }
  }

  lemma {:induction false} NoiseShowsNothing(es: seq<Event>, name: string)
    requires IsNoise(es)
    ensures StateOf(es, name) == None
  {
    if es != [] {
      NoiseShowsNothing(es[..|es| - 1], name);
    }
  }

  // What one bracketed stage and the rest of the stream leave of a step.
  lemma BracketShows(step: string, noise: seq<Event>, exit: int, rest: seq<Event>, name: string)
    requires step != "" && IsNoise(noise)
    ensures StateOf([Started(step)] + noise + [Ended(step, exit)] + rest, name)
            == if StateOf(rest, name).Some? then StateOf(rest, name)
               else if step == name then Some(if exit == 0 then Done else Failed) else None
  {
    var head := [Started(step)] + noise;
    assert StateOf([Started(step)], name) == if step == name then Some(Running) else None by {
      assert [Started(step)][..0] == [];
    }
    NoiseShowsNothing(noise, name);
    StateOfConcat([Started(step)], noise, name);
    assert (head + [Ended(step, exit)])[..|head|] == head;
    StateOfConcat(head + [Ended(step, exit)], rest, name);
  }

  // Every fatal stage before i passed.
  predicate Reached(script: seq<Stage>, results: seq<Result>, i: nat)
    requires |results| == |script| && i <= |script|
  {
    forall k {:trigger script[k]} :: 0 <= k < i ==> (script[k].Quiet? || script[k].Step? ==> results[k].ok)
  }

  predicate IsNamed(stage: Stage, name: string) { (stage.Step? || stage.BestEffort?) && stage.name == name }

  predicate OnlyAt(script: seq<Stage>, i: int, name: string) {
    forall k {:trigger script[k]} :: 0 <= k < |script| && IsNamed(script[k], name) ==> k == i
  }

  // What the whole stream shows of the step of stage i, which no other stage shares.
  lemma {:induction false} StageShown(script: seq<Stage>, results: seq<Result>, cancelled: bool, i: int, name: string)
    requires Feasible(script, results) && i < |script| && name != "" && OnlyAt(script, i, name)
    requires i >= 0 ==> IsNamed(script[i], name)
    ensures StateOf(Trace(script, results, cancelled), name)
            == if i >= 0 && Reached(script, results, i) then Some(if results[i].ok then Done else Failed) else None
  {
    if script == [] {
      assert [Completed("succeeded", "")][..0] == [];
    } else {
      var r := results[0];
      var rest := Trace(script[1..], results[1..], cancelled);
      var failure := [Completed(FailStatus(cancelled), r.message)];
      assert IsNoise(r.noise);
      assert StateOf(failure, name) == None by { assert failure[..0] == []; }
      StageShown(script[1..], results[1..], cancelled, i - 1, name);
      if i > 0 { ReachedCons(script, results, i); }
      match script[0]
      case Quiet =>
      case Remark =>
        StateOfConcat(r.noise, rest, name);
        NoiseShowsNothing(r.noise, name);
      case Step(step) => BracketShows(step, r.noise, if r.ok then 0 else 1, if r.ok then rest else failure, name);
      case BestEffort(step) => BracketShows(step, r.noise, if r.ok then 0 else 1, rest, name);
    }
  }

  lemma ReachedCons(script: seq<Stage>, results: seq<Result>, i: nat)
    requires |results| == |script| && 0 < i <= |script|
    ensures Reached(script, results, i) <==>
              (script[0].Quiet? || script[0].Step? ==> results[0].ok) && Reached(script[1..], results[1..], i - 1)
  {
    assert forall k {:trigger script[k]} :: 1 <= k < i ==>
        script[k] == script[1..][k - 1] && results[k] == results[1..][k - 1];
  }

  // es holds the start or the end of the step.
  predicate Mentions(es: seq<Event>, name: string) {
    exists j :: 0 <= j < |es| && es[j].step == name && (es[j].kind.StepStart? || es[j].kind.StepEnd?)
  }

  lemma {:induction false} MentionedIsShown(es: seq<Event>, name: string)
    requires name != ""
    ensures Mentions(es, name) <==> StateOf(es, name).Some?
  {
    if es != [] {
      var init := es[..|es| - 1];
      MentionedIsShown(init, name);
      if Mentions(init, name) {
        var j :| 0 <= j < |init| && init[j].step == name && (init[j].kind.StepStart? || init[j].kind.StepEnd?);
        assert es[j] == init[j];
      }
      if Mentions(es, name) && !Touches(es[|es| - 1], name) {
        var j :| 0 <= j < |es| && es[j].step == name && (es[j].kind.StepStart? || es[j].kind.StepEnd?);
        assert init[j] == es[j];
      }
    }
  }

  lemma ScriptsHaveOwnNames(script: seq<Stage>, i: nat)
    requires script == DEPLOY || script == DESTROY || script == UPGRADE
    requires i < |script| && (script[i].Step? || script[i].BestEffort?)
    ensures OnlyAt(script, i, script[i].name) && script[i].name != ""
  {}

  /** Replaying the retained history of a deploy, destroy or upgrade that has finished: a step is shown exactly if it
      still occurs there, only if its stage was reached, and then as done if the stage succeeded, failed if not. */
  lemma FinishedStepsShown(run: seq<Hub.Step>, st: Hub.StreamId, script: seq<Stage>, results: seq<Result>,
                           cancelled: bool, i: nat, order: seq<string>, states: map<string, StepState>)
    requires Hub.Legal(Hub.EMPTY, run) && (script == DEPLOY || script == DESTROY || script == UPGRADE)
    requires |results| == |script| && forall k {:trigger results[k]} :: 0 <= k < |results| ==> IsNoise(results[k].noise)
    requires Hub.Published(run, st) == Trace(script, results, cancelled)
    requires i < |script| && (script[i].Step? || script[i].BestEffort?)
    requires Shows(Hub.HistoryOf(Hub.After(Hub.EMPTY, run), st), order, states)
    ensures var name := script[i].name;
            && (name in states <==> Mentions(Hub.HistoryOf(Hub.After(Hub.EMPTY, run), st), name))
            && (name in states ==> Reached(script, results, i)
                                   && (states[name] == Done <==> results[i].ok)
                                   && (states[name] == Failed <==> !results[i].ok))
  {
    var history, name := Hub.HistoryOf(Hub.After(Hub.EMPTY, run), st), script[i].name;
    ScriptsAreNamed();
    ScriptsHaveOwnNames(script, i);
    MentionedIsShown(history, name);
    Hub.HistoryIsSuffix(run, st);
    SuffixKeepsState(Hub.Published(run, st), Hub.HISTORY_CAP, name);
    StageShown(script, results, cancelled, i, name);
    assert StateAt(history, states, name);
  }

  // A helm or bundle stream ends in the end of its one step and the completion.
  lemma {:induction false} HelmTail(op: string, script: seq<HelmStage>, results: seq<Result>, cancelled: bool)
    requires |results| == |script|
    ensures var t := HelmTrace(op, script, results, cancelled);
            && |t| >= 2 && t[|t| - 1].kind.DeploymentComplete?
            && t[|t| - 2] == Ended(op, if AllAttempted(script, results) then 0 else 1)
  {
    if script != [] {
      HelmTail(op, script[1..], results[1..], cancelled);
      AllAttemptedCons(script, results);
    }
  }

  lemma EndIsShown(es: seq<Event>, op: string, exit: int)
    requires |es| >= 2 && es[|es| - 1].kind.DeploymentComplete? && es[|es| - 2] == Ended(op, exit) && op != ""
    ensures StateOf(es, op) == Some(if exit == 0 then Done else Failed)
  {
    var init := es[..|es| - 1];
    assert init[|init| - 1] == es[|es| - 2];
    assert StateOf(es, op) == StateOf(init, op);
  }

  /** After any helm operation or bundle its step is shown, as done exactly if nothing it attempted failed. */
  lemma FinishedHelmShown(run: seq<Hub.Step>, st: Hub.StreamId, op: string, script: seq<HelmStage>,
                          results: seq<Result>, cancelled: bool, order: seq<string>, states: map<string, StepState>)
    requires Hub.Legal(Hub.EMPTY, run) && |results| == |script| && op != ""
    requires Hub.Published(run, st) == HelmTrace(op, script, results, cancelled)
    requires Shows(Hub.HistoryOf(Hub.After(Hub.EMPTY, run), st), order, states)
    ensures op in states && states[op] == if AllAttempted(script, results) then Done else Failed
  {
    var history, t := Hub.HistoryOf(Hub.After(Hub.EMPTY, run), st), HelmTrace(op, script, results, cancelled);
    Hub.HistoryIsSuffix(run, st);
    HelmTail(op, script, results, cancelled);
    assert history[|history| - 1] == t[|t| - 1] && history[|history| - 2] == t[|t| - 2];
    EndIsShown(history, op, if AllAttempted(script, results) then 0 else 1);
    assert StateAt(history, states, op);
  }
}
