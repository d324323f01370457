/**
  The log socket: replay of the hub's snapshot, then the live channel, until the completion event.
  Source: Logs in api/internal/deployments/handlers.go.
 */
module LogSocket {
  import opened Common
  import opened Events
  import opened Streams
  import Hub

  // Done: closed normally after the completion was written.
  datatype Exit = Done | WriteFailed | ChannelClosed | TimedOut

  // How many events go out: through the first completion, or all of them.
  function ThroughCompletion(es: seq<Event>): (n: nat)
    ensures n <= |es|
  {
    if es == [] then 0
    else if es[0].kind.DeploymentComplete? then 1
    else 1 + ThroughCompletion(es[1..])
  }

  lemma {:induction false} CutMeans(es: seq<Event>)
    ensures var n := ThroughCompletion(es);
            if NoCompletion(es) then n == |es|
            else n > 0 && es[n - 1].kind.DeploymentComplete? && NoCompletion(es[..n - 1])
  {
    if es != [] && !es[0].kind.DeploymentComplete? {
      CutMeans(es[1..]);
      var n := ThroughCompletion(es);
      assert es == [es[0]] + es[1..];
      assert es[..n - 1] == if n == 1 then [] else [es[0]] + es[1..][..n - 2];
    }
  }

  // What must be written: through the first completion, but not from the failing write on.
  function Written(all: seq<Event>, failAt: Option<nat>): (n: nat)
    ensures n <= |all|
  {
    var n := ThroughCompletion(all);
    if failAt.Some? && failAt.value < n then failAt.value else n
  }

  function Ending(all: seq<Event>, failAt: Option<nat>, quit: Exit): Exit {
    if failAt.Some? && failAt.value < ThroughCompletion(all) then WriteFailed
    else if NoCompletion(all) then quit
    else Done
  }

  /** What was written stops at the first completion, at the failing write or at the end of all there is, and the exit
      says which: Done right after a completion, WriteFailed before a write that was due and failed, else quit. */
  lemma EndingMeans(all: seq<Event>, failAt: Option<nat>, quit: Exit)
    requires quit.ChannelClosed? || quit.TimedOut?
    ensures var n, exit := Written(all, failAt), Ending(all, failAt, quit);
            && NoCompletion(if n == 0 then [] else all[..n - 1])
            && (exit == Done <==> n > 0 && all[n - 1].kind.DeploymentComplete?)
            && (exit == WriteFailed <==> failAt == Some(n) && n < |all| && NoCompletion(all[..n]))
            && (exit == quit <==> n == |all| && NoCompletion(all))
  {
    var cut, n := ThroughCompletion(all), Written(all, failAt);
    CutMeans(all);
    assert forall i {:trigger all[i]} :: 0 <= i < n ==> all[..n][i] == all[i];
    if n < cut && !NoCompletion(all) {
      assert forall i {:trigger all[i]} :: 0 <= i < cut - 1 ==> all[..cut - 1][i] == all[i];
    }
  }

  // The loop over the snapshot; live is only there to say what the whole session will send.
  method Replay(snapshot: seq<Event>, ghost live: seq<Event>, failAt: Option<nat>, ghost quit: Exit)
    returns (sent: seq<Event>, over: Option<Exit>)
    ensures var all := snapshot + live;
            if over.None? then sent == snapshot && Going(all, |snapshot|, failAt)
            else
              && sent == all[..Written(all, failAt)] && over.value == Ending(all, failAt, quit)
              && |sent| + (if over.value.WriteFailed? then 1 else 0) <= |snapshot|
  {
    ghost var all := snapshot + live;
    sent, over := [], None;
    for i := 0 to |snapshot|
      invariant sent == all[..i] && over == None
      invariant Going(all, i, failAt)
    {
      GoOn(all, i, failAt, quit);
      assert all[i] == snapshot[i] && all[..i + 1] == all[..i] + [all[i]];
      if failAt == Some(|sent|) {
        over := Some(WriteFailed);
        return;
      }
      sent := sent + [snapshot[i]];
      if snapshot[i].kind.DeploymentComplete? {
        over := Some(Done);
        return;
      }
    }
  }

  /**
    live is what the channel delivers before quit (closed channel or expired context) is selected; the write
    numbered failAt, if any, is the first to fail. What was sent is a prefix of snapshot then live, cut after
    the first completion and before the failing write; an event is received only when it is to be written.
   */
  method Logs(snapshot: seq<Event>, live: seq<Event>, failAt: Option<nat>, quit: Exit)
    returns (sent: seq<Event>, exit: Exit, received: nat)
    requires quit.ChannelClosed? || quit.TimedOut?
    ensures sent == (snapshot + live)[..Written(snapshot + live, failAt)]
    ensures exit == Ending(snapshot + live, failAt, quit)
    ensures var tried := |sent| + if exit.WriteFailed? then 1 else 0;
            received == if tried <= |snapshot| then 0 else tried - |snapshot|
  {
    ghost var all := snapshot + live;
    var over: Option<Exit>;
    received := 0;
    sent, over := Replay(snapshot, live, failAt, quit);
    if over.Some? {
      exit := over.value;
      return;
    }
    exit := quit;
    while received < |live|
      invariant received <= |live| && sent == all[..|snapshot| + received] && exit == quit
      invariant Going(all, |snapshot| + received, failAt)
    {
      GoOn(all, |snapshot| + received, failAt, quit);
      var e := live[received];
      assert all[|sent|] == e && all[..|sent| + 1] == sent + [e];
      received := received + 1;
      if failAt == Some(|sent|) {
        exit := WriteFailed;
        return;
      }
      sent := sent + [e];
      if e.kind.DeploymentComplete? {
        exit := Done;
        return;
      }
    }
    assert sent == all && all[..|all|] == all;
    CutMeans(all);
  }

  // The first i events went out and the socket is still open.
  ghost predicate Going(all: seq<Event>, i: nat, failAt: Option<nat>) {
    && i <= |all| && NoCompletion(all[..i])
    && (failAt.Some? ==> i <= failAt.value)
  }

  lemma GoOn(all: seq<Event>, i: nat, failAt: Option<nat>, quit: Exit)
    requires i < |all| && Going(all, i, failAt)
    ensures failAt == Some(i) ==> Written(all, failAt) == i && Ending(all, failAt, quit) == WriteFailed
    ensures failAt != Some(i) && all[i].kind.DeploymentComplete? ==>
              Written(all, failAt) == i + 1 && Ending(all, failAt, quit) == Done
    ensures failAt != Some(i) && !all[i].kind.DeploymentComplete? ==> Going(all, i + 1, failAt)
  {
    CutIsPast(all, i);
  }

  // Nothing before position i completes, so the cut is past i, exactly there if i completes.
  lemma CutIsPast(es: seq<Event>, i: nat)
    requires i < |es| && NoCompletion(es[..i])
    ensures ThroughCompletion(es) > i
    ensures es[i].kind.DeploymentComplete? ==> ThroughCompletion(es) == i + 1 && !NoCompletion(es)
    ensures !es[i].kind.DeploymentComplete? ==> NoCompletion(es[..i + 1])
  {
    assert ThroughCompletion(es) > i by { CutAfter(es, i); }
    if es[i].kind.DeploymentComplete? {
      CutAt(es, i);
    } else {
      assert es[..i + 1] == es[..i] + [es[i]];
    }
  }

  lemma {:induction false} CutAfter(es: seq<Event>, i: nat)
    requires i < |es| && NoCompletion(es[..i])
    ensures ThroughCompletion(es) > i
  {
    if i > 0 {
      assert es[0] == es[..i][0] && es[1..][..i - 1] == es[..i][1..];
      CutAfter(es[1..], i - 1);
    }
  }

  lemma {:induction false} CutAt(es: seq<Event>, i: nat)
    requires i < |es| && es[i].kind.DeploymentComplete?
    ensures ThroughCompletion(es) <= i + 1 && !NoCompletion(es)
  {
    if i > 0 {
      CutAt(es[1..], i - 1);
    }
  }

  /** A subscriber that arrives after the worker has published its completion, however long the stream: its
      snapshot ends in the completion, and the socket sends the whole snapshot and closes without reading the
      channel. */
  lemma LateSubscriberIsDone(run: seq<Hub.Step>, st: Hub.StreamId, live: seq<Event>)
    requires Hub.Legal(Hub.EMPTY, run) && EndsOnce(Hub.Published(run, st))
    ensures var snapshot := Hub.HistoryOf(Hub.After(Hub.EMPTY, run), st);
            && EndsOnce(snapshot)
            && ThroughCompletion(snapshot + live) == |snapshot|
            && !NoCompletion(snapshot + live)
  {
    Hub.HistoryIsSuffix(run, st);
    var t := Hub.Published(run, st);
    var snapshot := Hub.Suffix(t, Hub.HISTORY_CAP);
    assert snapshot[..|snapshot| - 1] == t[|t| - |snapshot|..|t| - 1];
    assert (snapshot + live)[..|snapshot| - 1] == snapshot[..|snapshot| - 1];
    CutIsPast(snapshot + live, |snapshot| - 1);
  }

  /** In particular after any deploy, destroy or upgrade: the socket writes all that is retained, as long as the
      writes succeed, and closes normally. */
  lemma FinishedWorkerReplays(run: seq<Hub.Step>, st: Hub.StreamId, live: seq<Event>, quit: Exit)
    requires Hub.Legal(Hub.EMPTY, run) && WorkerStream(Hub.Published(run, st))
    ensures var snapshot := Hub.HistoryOf(Hub.After(Hub.EMPTY, run), st);
            && (snapshot + live)[..Written(snapshot + live, None)] == snapshot
            && Ending(snapshot + live, None, quit) == Done
  {
    WorkerStreamsAreWhole(Hub.Published(run, st));
    LateSubscriberIsDone(run, st, live);
  }

  /** And after any helm operation or bundle: the install log socket replays it all and closes normally too. */
  lemma FinishedHelmReplays(run: seq<Hub.Step>, st: Hub.StreamId, live: seq<Event>, quit: Exit)
    requires Hub.Legal(Hub.EMPTY, run) && HelmStream(Hub.Published(run, st))
    ensures var snapshot := Hub.HistoryOf(Hub.After(Hub.EMPTY, run), st);
            && (snapshot + live)[..Written(snapshot + live, None)] == snapshot
            && Ending(snapshot + live, None, quit) == Done
  {
    HelmStreamsEndOnce(Hub.Published(run, st));
    LateSubscriberIsDone(run, st, live);
  }

  // Throughout the run c stays subscribed and every publish on st finds room in its buffer.
  ghost predicate KeepsUp(h: Hub.HubState, run: seq<Hub.Step>, st: Hub.StreamId, c: Hub.ChanId)
    requires Hub.Legal(h, run)
    decreases |run|
  {
    && c in Hub.SubsOf(h, st) && c in h.chans
    && (run != [] ==>
          && (run[0].DoPublish? && run[0].st == st ==> |h.chans[c].queue| < h.chans[c].cap)
          && KeepsUp(Hub.Next(h, run[0]), run[1..], st, c))
  }

  // No other stream sends to c.
  lemma OneStream(h: Hub.HubState, a: Hub.LogState, st: Hub.StreamId, other: Hub.StreamId, c: Hub.ChanId)
    requires Hub.Refines(h, a) && c in Hub.SubsOf(h, st) && other != st
    ensures c !in Hub.SubsOf(h, other)
  {
    assert Hub.SubsAt(h, a, st, c) && Hub.SubsAt(h, a, other, c);
  }

  lemma QueueStep(h: Hub.HubState, a: Hub.LogState, step: Hub.Step, st: Hub.StreamId, c: Hub.ChanId)
    requires Hub.Refines(h, a) && Hub.Enabled(h, step)
    requires c in Hub.SubsOf(h, st) && c in h.chans
    requires step.DoPublish? && step.st == st ==> |h.chans[c].queue| < h.chans[c].cap
    requires c in Hub.Next(h, step).chans
    ensures (if step == Hub.DoReceive(c) then [h.chans[c].queue[0]] else []) + Hub.Next(h, step).chans[c].queue
            == h.chans[c].queue + Hub.Appended(step, st)
  {
    if step.DoPublish? && step.st != st {
      OneStream(h, a, st, step.st, c);
    }
  }

  lemma {:induction false} NothingMissed(h: Hub.HubState, a: Hub.LogState, run: seq<Hub.Step>, st: Hub.StreamId,
                                         c: Hub.ChanId)
    requires Hub.Refines(h, a) && Hub.Legal(h, run) && KeepsUp(h, run, st, c)
    ensures c in Hub.After(h, run).chans
    ensures Hub.Received(h, run, c) + Hub.After(h, run).chans[c].queue == h.chans[c].queue + Hub.Published(run, st)
    decreases |run|
  {
    if run != [] {
      var h' := Hub.Next(h, run[0]);
      Hub.StepRefines(h, a, run[0]);
      NothingMissed(h', Hub.LogNext(h, a, run[0]), run[1..], st, c);
      QueueStep(h, a, run[0], st, c);
      var read := if run[0] == Hub.DoReceive(c) then [h.chans[c].queue[0]] else [];
      Hub.Assoc(read, Hub.Received(h', run[1..], c), Hub.After(h, run).chans[c].queue);
      Hub.Assoc(read, h'.chans[c].queue, Hub.Published(run[1..], st));
      Hub.Assoc(h.chans[c].queue, Hub.Appended(run[0], st), Hub.Published(run[1..], st));
    }
  }

  lemma EvictionKeepsEnd(past: seq<Event>, future: seq<Event>, n: nat)
    requires EndsOnce(past + future) && future != []
    ensures var all := Hub.Suffix(past, n) + future; ThroughCompletion(all) == |all| && !NoCompletion(all)
  {
    var snapshot := Hub.Suffix(past, n);
    var all := snapshot + future;
    assert (past + future)[|past| - |snapshot|..] == all;
    assert all[..|all| - 1] == (past + future)[|past| - |snapshot|..|past + future| - 1];
    CutIsPast(all, |all| - 1);
  }

  /** A subscriber that keeps up loses nothing: if the worker finishes while it listens, its snapshot, what it read
      and what is buffered are together the retained past followed by all of the future, ending in the completion,
      so the socket sends all of it and closes normally. */
  lemma KeepingUpDeliversAll(before: seq<Hub.Step>, st: Hub.StreamId, buf: nat, c: Hub.ChanId, later: seq<Hub.Step>)
    requires Hub.Legal(Hub.EMPTY, before) && c !in Hub.After(Hub.EMPTY, before).chans
    requires Hub.Legal(Hub.AfterSubscribe(Hub.After(Hub.EMPTY, before), st, buf, c), later)
    requires KeepsUp(Hub.AfterSubscribe(Hub.After(Hub.EMPTY, before), st, buf, c), later, st, c)
    requires EndsOnce(Hub.Published(before, st) + Hub.Published(later, st)) && Hub.Published(later, st) != []
    ensures var h := Hub.AfterSubscribe(Hub.After(Hub.EMPTY, before), st, buf, c);
            c in Hub.After(h, later).chans
            && var all := Hub.HistoryOf(Hub.After(Hub.EMPTY, before), st)
                          + (Hub.Received(h, later, c) + Hub.After(h, later).chans[c].queue);
            && all == Hub.Suffix(Hub.Published(before, st), Hub.HISTORY_CAP) + Hub.Published(later, st)
            && ThroughCompletion(all) == |all| && !NoCompletion(all)
  {
    var h := Hub.AfterSubscribe(Hub.After(Hub.EMPTY, before), st, buf, c);
    Hub.HistoryIsSuffix(before, st);
    Hub.JoinRefines(before, st, buf, c);
    NothingMissed(h, Hub.JoinLog(before, st, buf, c), later, st, c);
    assert h.chans[c].queue + Hub.Published(later, st) == Hub.Published(later, st);
    EvictionKeepsEnd(Hub.Published(before, st), Hub.Published(later, st), Hub.HISTORY_CAP);
  }
}
