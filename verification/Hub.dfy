/**
  The event hub: bounded per-stream history plus lossy fan-out, refined against the full publish log.
  Source: api/internal/deployments/stream.go.
 */
module Hub {
  import opened Events

  type StreamId = nat
  type ChanId = nat

  const HISTORY_CAP: nat := 5000

  // ---------- the hub's own state ----------

  datatype Chan = Chan(cap: nat, queue: seq<Event>, closed: bool)

  datatype HubState = HubState(
    history: map<StreamId, seq<Event>>,
    subs: map<StreamId, set<ChanId>>,
    chans: map<ChanId, Chan>)

  const EMPTY := HubState(map[], map[], map[])

  function HistoryOf(h: HubState, st: StreamId): seq<Event> { if st in h.history then h.history[st] else [] }

  function SubsOf(h: HubState, st: StreamId): set<ChanId> { if st in h.subs then h.subs[st] else {} }

  // FIFO eviction, then append.
  function Append(hist: seq<Event>, e: Event): seq<Event> {
    (if |hist| >= HISTORY_CAP then hist[|hist| - HISTORY_CAP + 1..] else hist) + [e]
  }

  // A send that gives up when the buffer is full.
  function Offer(ch: Chan, e: Event): Chan {
    if |ch.queue| < ch.cap then ch.(queue := ch.queue + [e]) else ch
  }

  function AfterPublish(h: HubState, st: StreamId, e: Event): HubState {
    h.(history := h.history[st := Append(HistoryOf(h, st), e)],
       chans := map c | c in h.chans :: if c in SubsOf(h, st) then Offer(h.chans[c], e) else h.chans[c])
  }

  function AfterSubscribe(h: HubState, st: StreamId, buf: nat, c: ChanId): HubState {
    h.(subs := h.subs[st := SubsOf(h, st) + {c}], chans := h.chans[c := Chan(buf, [], false)])
  }

  function AfterUnsubscribe(h: HubState, st: StreamId, c: ChanId): HubState
    requires c in h.chans
  {
    h.(subs := if st in h.subs then h.subs[st := h.subs[st] - {c}] else h.subs,
       chans := h.chans[c := h.chans[c].(closed := true)])
  }

  function AfterReceive(h: HubState, c: ChanId): HubState
    requires c in h.chans && h.chans[c].queue != []
  {
    h.(chans := h.chans[c := h.chans[c].(queue := h.chans[c].queue[1..])])
  }

  // ---------- the full log ----------

  // A subscription seen against its stream's full log: start is the log length when it was made, picks the
  // log positions that were sent, drops those that found the buffer full, taken how many sent ones were read.
  datatype Sub = Sub(stream: StreamId, cap: nat, start: nat, picks: seq<nat>, drops: seq<nat>, taken: nat, open: bool)

  datatype LogState = LogState(log: map<StreamId, seq<Event>>, subs: map<ChanId, Sub>)

  const EMPTY_LOG := LogState(map[], map[])

  function LogOf(a: LogState, st: StreamId): seq<Event> { if st in a.log then a.log[st] else [] }

  // The subscription after log position n is published on its stream.
  function Note(s: Sub, n: nat): Sub {
    if |s.picks| - s.taken < s.cap then s.(picks := s.picks + [n]) else s.(drops := s.drops + [n])
  }

  function LogPublish(a: LogState, st: StreamId, e: Event): LogState {
    LogState(a.log[st := LogOf(a, st) + [e]],
             map c | c in a.subs ::
               if a.subs[c].stream == st && a.subs[c].open then Note(a.subs[c], |LogOf(a, st)|) else a.subs[c])
  }

  function LogSubscribe(a: LogState, st: StreamId, buf: nat, c: ChanId): LogState {
    a.(subs := a.subs[c := Sub(st, buf, |LogOf(a, st)|, [], [], 0, true)])
  }

  function LogUnsubscribe(a: LogState, c: ChanId): LogState
    requires c in a.subs
  {
    a.(subs := a.subs[c := a.subs[c].(open := false)])
  }

  function LogReceive(a: LogState, c: ChanId): LogState
    requires c in a.subs
  {
    a.(subs := a.subs[c := a.subs[c].(taken := a.subs[c].taken + 1)])
  }

  // ---------- the refinement ----------

  function Suffix(s: seq<Event>, n: nat): seq<Event> {
    if |s| <= n then s else s[|s| - n..]
  }

  predicate InLog(idx: seq<nat>, n: nat) { forall i {:trigger idx[i]} :: 0 <= i < |idx| ==> idx[i] < n }

  // The log events at the given positions.
  function Pick(log: seq<Event>, idx: seq<nat>): seq<Event>
    requires InLog(idx, |log|)
  {
    seq(|idx|, i requires 0 <= i < |idx| => log[idx[i]])
  }

  predicate Increasing(idx: seq<nat>) {
    forall i, j {:trigger idx[i], idx[j]} :: 0 <= i < j < |idx| ==> idx[i] < idx[j]
  }

  // Sent and dropped positions together are the stream's log from start on, each position once.
  ghost predicate SubInv(s: Sub, n: nat) {
    && s.start <= n && s.taken <= |s.picks|
    && InLog(s.picks, n) && InLog(s.drops, n)
    && Increasing(s.picks) && Increasing(s.drops)
    && (forall p :: p in s.picks ==> s.start <= p && p !in s.drops)
    && (forall p :: p in s.drops ==> s.start <= p)
    && (s.open ==> forall p :: s.start <= p < n ==> p in s.picks || p in s.drops)
  }

  // A channel is its subscription's unread picks.
  ghost predicate ChanMatches(ch: Chan, s: Sub, log: seq<Event>) {
    && SubInv(s, |log|)
    && ch.cap == s.cap && ch.closed == !s.open
    && ch.queue == Pick(log, s.picks)[s.taken..]
  }

  ghost predicate HistoryAt(h: HubState, a: LogState, st: StreamId) {
    HistoryOf(h, st) == Suffix(LogOf(a, st), HISTORY_CAP)
  }

  ghost predicate ChanAt(h: HubState, a: LogState, c: ChanId) {
    c in h.chans ==> c in a.subs && ChanMatches(h.chans[c], a.subs[c], LogOf(a, a.subs[c].stream))
  }

  // c is subscribed to st exactly while its subscription is open.
  ghost predicate SubsAt(h: HubState, a: LogState, st: StreamId, c: ChanId) {
    c in SubsOf(h, st) <==> c in a.subs && a.subs[c].stream == st && a.subs[c].open
  }

  ghost predicate Refines(h: HubState, a: LogState) {
    && h.chans.Keys == a.subs.Keys
    && (forall st :: HistoryAt(h, a, st))
    && (forall c :: ChanAt(h, a, c))
    && (forall st, c :: SubsAt(h, a, st, c))
  }

  // ---------- steps ----------

  datatype Step =
    | DoPublish(st: StreamId, e: Event)
    | DoSubscribe(st: StreamId, buf: nat, c: ChanId)
    | DoUnsubscribe(st: StreamId, c: ChanId)
    | DoReceive(c: ChanId)

  // A subscriber's handle unsubscribes its own channel, once.
  predicate Enabled(h: HubState, step: Step) {
    match step
    case DoPublish(_, _) => true
    case DoSubscribe(_, _, c) => c !in h.chans
    case DoUnsubscribe(st, c) => c in h.chans && c in SubsOf(h, st)
    case DoReceive(c) => c in h.chans && h.chans[c].queue != []
  }

  function Next(h: HubState, step: Step): HubState
    requires Enabled(h, step)
  {
    match step
    case DoPublish(st, e) => AfterPublish(h, st, e)
    case DoSubscribe(st, buf, c) => AfterSubscribe(h, st, buf, c)
    case DoUnsubscribe(st, c) => AfterUnsubscribe(h, st, c)
    case DoReceive(c) => AfterReceive(h, c)
  }

  function LogNext(h: HubState, a: LogState, step: Step): LogState
    requires Enabled(h, step) && h.chans.Keys == a.subs.Keys
  {
    match step
    case DoPublish(st, e) => LogPublish(a, st, e)
    case DoSubscribe(st, buf, c) => LogSubscribe(a, st, buf, c)
    case DoUnsubscribe(_, c) => LogUnsubscribe(a, c)
    case DoReceive(c) => LogReceive(a, c)
  }

  lemma AppendIsSuffix(log: seq<Event>, e: Event)
    ensures Append(Suffix(log, HISTORY_CAP), e) == Suffix(log + [e], HISTORY_CAP)
  {}

  lemma PickGrows(log: seq<Event>, e: Event, idx: seq<nat>)
    requires InLog(idx, |log|)
    ensures Pick(log + [e], idx) == Pick(log, idx)
  {}

  lemma PickSnoc(log: seq<Event>, idx: seq<nat>, n: nat)
    requires InLog(idx, |log|) && n < |log|
    ensures Pick(log, idx + [n]) == Pick(log, idx) + [log[n]]
  {}

  // One more event on the log, seen by an open subscription of its stream.
  lemma NoteMatches(ch: Chan, s: Sub, log: seq<Event>, e: Event)
    requires ChanMatches(ch, s, log) && s.open
    ensures ChanMatches(Offer(ch, e), Note(s, |log|), log + [e])
  {
    PickGrows(log, e, s.picks);
    if |s.picks| - s.taken < s.cap {
      PickSnoc(log + [e], s.picks, |log|);
    }
  }

  lemma QuietMatches(ch: Chan, s: Sub, log: seq<Event>, e: Event)
    requires ChanMatches(ch, s, log) && !s.open
    ensures ChanMatches(ch, s, log + [e])
  {
    PickGrows(log, e, s.picks);
  }

  lemma PublishRefines(h: HubState, a: LogState, st: StreamId, e: Event)
    requires Refines(h, a)
    ensures Refines(AfterPublish(h, st, e), LogPublish(a, st, e))
  {
    var h' := AfterPublish(h, st, e);
    var a' := LogPublish(a, st, e);
    forall t ensures HistoryAt(h', a', t) {
      assert HistoryAt(h, a, t);
      AppendIsSuffix(LogOf(a, st), e);
    }
    forall c ensures ChanAt(h', a', c) {
      assert ChanAt(h, a, c) && SubsAt(h, a, st, c);
      if c in h.chans && a.subs[c].stream == st {
        if a.subs[c].open {
          NoteMatches(h.chans[c], a.subs[c], LogOf(a, st), e);
        } else {
          QuietMatches(h.chans[c], a.subs[c], LogOf(a, st), e);
        }
      }
    }
    forall t, c ensures SubsAt(h', a', t, c) { assert SubsAt(h, a, t, c); }
  }

  lemma SubscribeRefines(h: HubState, a: LogState, st: StreamId, buf: nat, c: ChanId)
    requires Refines(h, a) && c !in h.chans
    ensures Refines(AfterSubscribe(h, st, buf, c), LogSubscribe(a, st, buf, c))
  {
    var h' := AfterSubscribe(h, st, buf, c);
    var a' := LogSubscribe(a, st, buf, c);
    forall t ensures HistoryAt(h', a', t) { assert HistoryAt(h, a, t); }
    forall d ensures ChanAt(h', a', d) { assert ChanAt(h, a, d); }
    forall t, d ensures SubsAt(h', a', t, d) { assert SubsAt(h, a, t, d); }
  }

  lemma UnsubscribeRefines(h: HubState, a: LogState, st: StreamId, c: ChanId)
    requires Refines(h, a) && c in h.chans && c in SubsOf(h, st)
    ensures Refines(AfterUnsubscribe(h, st, c), LogUnsubscribe(a, c))
  {
    var h' := AfterUnsubscribe(h, st, c);
    var a' := LogUnsubscribe(a, c);
    forall t ensures HistoryAt(h', a', t) { assert HistoryAt(h, a, t); }
    forall d ensures ChanAt(h', a', d) { assert ChanAt(h, a, d); }
    forall t, d ensures SubsAt(h', a', t, d) { assert SubsAt(h, a, t, d) && SubsAt(h, a, st, c); }
  }

  lemma ReceiveRefines(h: HubState, a: LogState, c: ChanId)
    requires Refines(h, a) && c in h.chans && h.chans[c].queue != []
    ensures Refines(AfterReceive(h, c), LogReceive(a, c))
  {
    var h' := AfterReceive(h, c);
    var a' := LogReceive(a, c);
    forall t ensures HistoryAt(h', a', t) { assert HistoryAt(h, a, t); }
    forall d ensures ChanAt(h', a', d) { assert ChanAt(h, a, d); }
    forall t, d ensures SubsAt(h', a', t, d) { assert SubsAt(h, a, t, d); }
  }

  /** Each hub operation is its log counterpart, seen through the bounded history and the channels. */
  lemma StepRefines(h: HubState, a: LogState, step: Step)
    requires Refines(h, a) && Enabled(h, step)
    ensures Refines(Next(h, step), LogNext(h, a, step))
  {
    match step
    case DoPublish(st, e) => PublishRefines(h, a, st, e);
    case DoSubscribe(st, buf, c) => SubscribeRefines(h, a, st, buf, c);
    case DoUnsubscribe(st, c) => UnsubscribeRefines(h, a, st, c);
    case DoReceive(c) => ReceiveRefines(h, a, c);
  }

  // ---------- runs ----------

  ghost predicate Legal(h: HubState, run: seq<Step>)
    decreases |run|
  {
    run == [] || (Enabled(h, run[0]) && Legal(Next(h, run[0]), run[1..]))
  }

  ghost function After(h: HubState, run: seq<Step>): HubState
    requires Legal(h, run)
    decreases |run|
  {
    if run == [] then h else After(Next(h, run[0]), run[1..])
  }

  ghost function LogAfter(h: HubState, a: LogState, run: seq<Step>): LogState
    requires Legal(h, run) && Refines(h, a)
    decreases |run|
  {
    if run == [] then a
    else
      StepRefines(h, a, run[0]);
      LogAfter(Next(h, run[0]), LogNext(h, a, run[0]), run[1..])
  }

  // The events published on st, all of them, in order.
  function Published(run: seq<Step>, st: StreamId): seq<Event> {
    if run == [] then []
    else Appended(run[0], st) + Published(run[1..], st)
  }

  // The events read from channel c, in order.
  ghost function Received(h: HubState, run: seq<Step>, c: ChanId): seq<Event>
    requires Legal(h, run)
    decreases |run|
  {
    if run == [] then []
    else (if run[0] == DoReceive(c) then [h.chans[c].queue[0]] else []) + Received(Next(h, run[0]), run[1..], c)
  }

  // What one step appends to stream st's log.
  function Appended(step: Step, st: StreamId): seq<Event> {
    if step.DoPublish? && step.st == st then [step.e] else []
  }

  lemma StepAppends(h: HubState, a: LogState, step: Step, st: StreamId)
    requires Enabled(h, step) && h.chans.Keys == a.subs.Keys
    ensures LogOf(LogNext(h, a, step), st) == LogOf(a, st) + Appended(step, st)
  {}

  lemma {:induction false} RunRefines(h: HubState, a: LogState, run: seq<Step>)
    requires Legal(h, run) && Refines(h, a)
    ensures Refines(After(h, run), LogAfter(h, a, run))
    decreases |run|
  {
    if run != [] {
      StepRefines(h, a, run[0]);
      RunRefines(Next(h, run[0]), LogNext(h, a, run[0]), run[1..]);
    }
  }

  lemma Assoc(x: seq<Event>, y: seq<Event>, z: seq<Event>)
    ensures (x + y) + z == x + (y + z)
  {}

  lemma {:induction false} LogIsPublished(h: HubState, a: LogState, run: seq<Step>, st: StreamId)
    requires Legal(h, run) && Refines(h, a)
    ensures LogOf(LogAfter(h, a, run), st) == LogOf(a, st) + Published(run, st)
    decreases |run|
  {
    if run == [] {
      assert Published(run, st) == [];
    } else {
      StepRefines(h, a, run[0]);
      var h', a' := Next(h, run[0]), LogNext(h, a, run[0]);
      assert LogOf(a', st) == LogOf(a, st) + Appended(run[0], st) by { StepAppends(h, a, run[0], st); }
      LogIsPublished(h', a', run[1..], st);
      Assoc(LogOf(a, st), Appended(run[0], st), Published(run[1..], st));
    }
  }

  lemma EmptyRefines()
    ensures Refines(EMPTY, EMPTY_LOG)
  {
    forall st ensures HistoryAt(EMPTY, EMPTY_LOG, st) {}
    forall c ensures ChanAt(EMPTY, EMPTY_LOG, c) {}
    forall st, c ensures SubsAt(EMPTY, EMPTY_LOG, st, c) {}
  }

  /** In any run, a stream's history is the last min(n, HISTORY_CAP) of the n events published on it, in order. */
  lemma HistoryIsSuffix(run: seq<Step>, st: StreamId)
    requires Legal(EMPTY, run)
    ensures HistoryOf(After(EMPTY, run), st) == Suffix(Published(run, st), HISTORY_CAP)
    ensures var history, all := HistoryOf(After(EMPTY, run), st), Published(run, st);
            history == if |all| <= 5000 then all else all[|all| - 5000..]
  {
    EmptyRefines();
    RunRefines(EMPTY, EMPTY_LOG, run);
    LogIsPublished(EMPTY, EMPTY_LOG, run, st);
    assert HistoryAt(After(EMPTY, run), LogAfter(EMPTY, EMPTY_LOG, run), st);
  }

  /** No run ever leaves a closed channel among a stream's subscribers, so no publish sends on one. */
  lemma NoSendOnClosed(run: seq<Step>, st: StreamId, c: ChanId)
    requires Legal(EMPTY, run) && c in SubsOf(After(EMPTY, run), st)
    ensures c in After(EMPTY, run).chans && !After(EMPTY, run).chans[c].closed
  {
    EmptyRefines();
    RunRefines(EMPTY, EMPTY_LOG, run);
    var a := LogAfter(EMPTY, EMPTY_LOG, run);
    assert SubsAt(After(EMPTY, run), a, st, c) && ChanAt(After(EMPTY, run), a, c);
  }

  /** A publish touches no other stream's history and no channel of another stream's subscribers. */
  lemma StreamsAreIndependent(run: seq<Step>, st: StreamId, e: Event, other: StreamId, c: ChanId)
    requires Legal(EMPTY, run) && st != other
    ensures var h := After(EMPTY, run);
            && HistoryOf(AfterPublish(h, st, e), other) == HistoryOf(h, other)
            && SubsOf(AfterPublish(h, st, e), other) == SubsOf(h, other)
            && (c in SubsOf(h, other) ==> c in h.chans && AfterPublish(h, st, e).chans[c] == h.chans[c])
  {
    EmptyRefines();
    RunRefines(EMPTY, EMPTY_LOG, run);
    var h := After(EMPTY, run);
    var a := LogAfter(EMPTY, EMPTY_LOG, run);
    assert SubsAt(h, a, st, c) && SubsAt(h, a, other, c) && ChanAt(h, a, c);
  }

  // A subscription's identity is fixed and its picks only grow.
  predicate SubGrows(s: Sub, t: Sub) {
    t.stream == s.stream && t.start == s.start && t.cap == s.cap && s.picks <= t.picks && s.taken <= t.taken
  }

  lemma StepGrows(h: HubState, a: LogState, step: Step, c: ChanId)
    requires Enabled(h, step) && h.chans.Keys == a.subs.Keys && c in a.subs
    ensures c in LogNext(h, a, step).subs && SubGrows(a.subs[c], LogNext(h, a, step).subs[c])
    ensures LogNext(h, a, step).subs[c].taken == a.subs[c].taken + if step == DoReceive(c) then 1 else 0
  {}

  /** A position is dropped exactly by a publish on the stream of an open subscriber whose buffer is full. */
  lemma DropsOnlyWhenFull(h: HubState, a: LogState, step: Step, c: ChanId)
    requires Refines(h, a) && Enabled(h, step) && c in h.chans && c in a.subs
    ensures c in LogNext(h, a, step).subs
    ensures LogNext(h, a, step).subs[c].drops != a.subs[c].drops <==>
              && step.DoPublish? && step.st == a.subs[c].stream && a.subs[c].open
              && |h.chans[c].queue| >= h.chans[c].cap
  {
    assert ChanAt(h, a, c);
  }

  predicate Bounded(h: HubState) { forall c :: c in h.chans ==> |h.chans[c].queue| <= h.chans[c].cap }

  lemma {:induction false} StaysBounded(h: HubState, run: seq<Step>)
    requires Legal(h, run) && Bounded(h)
    ensures Bounded(After(h, run))
    decreases |run|
  {
    if run != [] {
      StaysBounded(Next(h, run[0]), run[1..]);
    }
  }

  /** No buffer ever holds more than its capacity. */
  lemma BuffersAreBounded(run: seq<Step>, c: ChanId)
    requires Legal(EMPTY, run) && c in After(EMPTY, run).chans
    ensures |After(EMPTY, run).chans[c].queue| <= After(EMPTY, run).chans[c].cap
  {
    StaysBounded(EMPTY, run);
  }

  lemma {:induction false} SubOnlyGrows(h: HubState, a: LogState, run: seq<Step>, c: ChanId)
    requires Legal(h, run) && Refines(h, a) && c in h.chans
    ensures c in LogAfter(h, a, run).subs && SubGrows(a.subs[c], LogAfter(h, a, run).subs[c])
    decreases |run|
  {
    if run != [] {
      StepRefines(h, a, run[0]);
      StepGrows(h, a, run[0], c);
      SubOnlyGrows(Next(h, run[0]), LogNext(h, a, run[0]), run[1..], c);
    }
  }

  lemma PickAt(log: seq<Event>, idx: seq<nat>, log': seq<Event>, idx': seq<nat>, i: nat)
    requires InLog(idx, |log|) && InLog(idx', |log'|) && log <= log' && idx <= idx' && i < |idx|
    ensures Pick(log, idx)[i] == Pick(log', idx')[i]
  {}

  // The unread picks of c's subscription, as events.
  ghost function Unread(a: LogState, c: ChanId, from: nat): seq<Event>
    requires c in a.subs && InLog(a.subs[c].picks, |LogOf(a, a.subs[c].stream)|) && from <= |a.subs[c].picks|
  {
    Pick(LogOf(a, a.subs[c].stream), a.subs[c].picks)[from..]
  }

  lemma MatchesFacts(h: HubState, a: LogState, c: ChanId)
    requires Refines(h, a) && c in h.chans
    ensures c in a.subs && SubInv(a.subs[c], |LogOf(a, a.subs[c].stream)|)
    ensures h.chans[c].queue == Unread(a, c, a.subs[c].taken)
  {
    assert ChanAt(h, a, c);
  }

  ghost predicate ReadsMatch(h: HubState, a: LogState, run: seq<Step>, c: ChanId)
    requires Legal(h, run) && Refines(h, a)
  {
    var b := LogAfter(h, a, run);
    && c in b.subs && c in After(h, run).chans && c in a.subs && a.subs[c].taken <= |b.subs[c].picks|
    && SubInv(b.subs[c], |LogOf(b, b.subs[c].stream)|)
    && Received(h, run, c) + After(h, run).chans[c].queue == Unread(b, c, a.subs[c].taken)
  }

  // What was read plus what is buffered is what was picked from here on.
  lemma {:induction false} ReadsArePicks(h: HubState, a: LogState, run: seq<Step>, c: ChanId)
    requires Legal(h, run) && Refines(h, a) && c in h.chans
    ensures ReadsMatch(h, a, run, c)
    decreases |run|
  {
    if run == [] {
      MatchesFacts(h, a, c);
      assert [] + h.chans[c].queue == h.chans[c].queue;
    } else {
      StepRefines(h, a, run[0]);
      ReadsArePicks(Next(h, run[0]), LogNext(h, a, run[0]), run[1..], c);
      ReadsExtend(h, a, run, c);
    }
  }

  lemma ReadsExtend(h: HubState, a: LogState, run: seq<Step>, c: ChanId)
    requires Legal(h, run) && Refines(h, a) && c in h.chans && run != []
    requires Refines(Next(h, run[0]), LogNext(h, a, run[0]))
    requires ReadsMatch(Next(h, run[0]), LogNext(h, a, run[0]), run[1..], c)
    ensures ReadsMatch(h, a, run, c)
  {
    MatchesFacts(h, a, c);
    StepGrows(h, a, run[0], c);
    if run[0] == DoReceive(c) {
      FirstRead(h, a, run, c);
      Assoc([h.chans[c].queue[0]], Received(Next(h, run[0]), run[1..], c), After(h, run).chans[c].queue);
    } else {
      assert [] + Received(Next(h, run[0]), run[1..], c) == Received(Next(h, run[0]), run[1..], c);
    }
  }

  lemma FirstRead(h: HubState, a: LogState, run: seq<Step>, c: ChanId)
    requires Legal(h, run) && Refines(h, a) && c in h.chans && h.chans[c].queue != []
    requires c in a.subs && SubInv(a.subs[c], |LogOf(a, a.subs[c].stream)|)
    requires var b := LogAfter(h, a, run);
             c in b.subs && SubInv(b.subs[c], |LogOf(b, b.subs[c].stream)|) && a.subs[c].taken < |b.subs[c].picks|
    ensures var b := LogAfter(h, a, run);
            Unread(b, c, a.subs[c].taken) == [h.chans[c].queue[0]] + Unread(b, c, a.subs[c].taken + 1)
  {
    var b := LogAfter(h, a, run);
    var st := a.subs[c].stream;
    MatchesFacts(h, a, c);
    LogIsPublished(h, a, run, st);
    SubOnlyGrows(h, a, run, c);
    PickAt(LogOf(a, st), a.subs[c].picks, LogOf(b, st), b.subs[c].picks, a.subs[c].taken);
  }

  /**
    A subscriber that joins after `before` and lives through `later`: its snapshot is the history at the join;
    what it has read plus what is buffered are the full log's events at increasing positions from the join on;
    while it is subscribed every later position is either among those or among the ones dropped, never both,
    and a position is dropped only by Note, that is when the buffer was full at that publish.
   */
  lemma SubscriberView(before: seq<Step>, st: StreamId, buf: nat, c: ChanId, later: seq<Step>)
    requires Legal(EMPTY, before) && c !in After(EMPTY, before).chans
    requires Legal(AfterSubscribe(After(EMPTY, before), st, buf, c), later)
    ensures var h := AfterSubscribe(After(EMPTY, before), st, buf, c);
            var log := Published(before, st) + Published(later, st);
            && HistoryOf(After(EMPTY, before), st) == Suffix(Published(before, st), HISTORY_CAP)
            && Refines(h, JoinLog(before, st, buf, c))
            && c in LogAfter(h, JoinLog(before, st, buf, c), later).subs
            && var s := LogAfter(h, JoinLog(before, st, buf, c), later).subs[c];
            && s.start == |Published(before, st)| && s.stream == st && s.cap == buf
            && SubInv(s, |log|)
            && c in After(h, later).chans
            && Received(h, later, c) + After(h, later).chans[c].queue == Pick(log, s.picks)
  {
    HistoryIsSuffix(before, st);
    JoinRefines(before, st, buf, c);
    ViewFrom(AfterSubscribe(After(EMPTY, before), st, buf, c), JoinLog(before, st, buf, c), st, c, later);
  }

  lemma JoinRefines(before: seq<Step>, st: StreamId, buf: nat, c: ChanId)
    requires Legal(EMPTY, before) && c !in After(EMPTY, before).chans
    ensures var a := JoinLog(before, st, buf, c);
            && Refines(AfterSubscribe(After(EMPTY, before), st, buf, c), a)
            && LogOf(a, st) == Published(before, st)
            && c in a.subs && a.subs[c] == Sub(st, buf, |Published(before, st)|, [], [], 0, true)
  {
    EmptyRefines();
    RunRefines(EMPTY, EMPTY_LOG, before);
    LogIsPublished(EMPTY, EMPTY_LOG, before, st);
    SubscribeRefines(After(EMPTY, before), LogAfter(EMPTY, EMPTY_LOG, before), st, buf, c);
  }

  lemma ViewFrom(h: HubState, a: LogState, st: StreamId, c: ChanId, later: seq<Step>)
    requires Legal(h, later) && Refines(h, a) && c in h.chans
    requires c in a.subs && a.subs[c].stream == st && a.subs[c].taken == 0
    ensures var log := LogOf(a, st) + Published(later, st);
            && c in LogAfter(h, a, later).subs
            && var s := LogAfter(h, a, later).subs[c];
            && SubGrows(a.subs[c], s) && SubInv(s, |log|)
            && c in After(h, later).chans
            && Received(h, later, c) + After(h, later).chans[c].queue == Pick(log, s.picks)
  {
    LogIsPublished(h, a, later, st);
    ReadsArePicks(h, a, later, c);
    SubOnlyGrows(h, a, later, c);
    var b := LogAfter(h, a, later);
    assert Unread(b, c, 0) == Pick(LogOf(b, st), b.subs[c].picks);
  }

  // The full-log view at the moment c joins st.
  ghost function JoinLog(before: seq<Step>, st: StreamId, buf: nat, c: ChanId): LogState
    requires Legal(EMPTY, before)
  {
    EmptyRefines();
    LogSubscribe(LogAfter(EMPTY, EMPTY_LOG, before), st, buf, c)
  }

  // ---------- the hub as the source writes it ----------

  class Hub {
    var subs: map<StreamId, set<ChanId>>
    var history: map<StreamId, seq<Event>>
    var chans: map<ChanId, Chan>

    ghost function View(): HubState
      reads this
    {
      HubState(history, subs, chans)
    }

    constructor ()
      ensures View() == EMPTY
    {
      subs, history, chans := map[], map[], map[];
    }

    // Appends with FIFO eviction, then offers the event to each subscriber in turn, in any order.
    method Publish(st: StreamId, e: Event)
      requires forall c :: c in SubsOf(View(), st) ==> c in chans && !chans[c].closed
      modifies this
      ensures View() == AfterPublish(old(View()), st, e)
    {
      var hist := if st in history then history[st] else [];
      if |hist| >= HISTORY_CAP {
        hist := hist[|hist| - HISTORY_CAP + 1..];
      }
      history := history[st := hist + [e]];
      var todo := if st in subs then subs[st] else {};
      ghost var done: set<ChanId> := {};
      while todo != {}
        invariant done + todo == SubsOf(old(View()), st) && done !! todo
        invariant subs == old(subs) && history == old(history)[st := Append(HistoryOf(old(View()), st), e)]
        invariant chans == map c | c in old(chans) :: if c in done then Offer(old(chans)[c], e) else old(chans)[c]
        decreases todo
      {
        var c :| c in todo;
        if |chans[c].queue| < chans[c].cap {
          chans := chans[c := chans[c].(queue := chans[c].queue + [e])];
        }
        todo := todo - {c};
        done := done + {c};
      }
    }

    // The snapshot is a copy of the history at the moment the channel is registered.
    method Subscribe(st: StreamId, buf: nat, c: ChanId) returns (snapshot: seq<Event>)
      requires c !in chans
      modifies this
      ensures View() == AfterSubscribe(old(View()), st, buf, c)
      ensures snapshot == HistoryOf(old(View()), st)
    {
      if st !in subs {
        subs := subs[st := {}];
      }
      subs := subs[st := subs[st] + {c}];
      chans := chans[c := Chan(buf, [], false)];
      snapshot := if st in history then history[st] else [];
    }

    // Closing a closed channel panics, so a handle is used once.
    method Unsubscribe(st: StreamId, c: ChanId)
      requires c in chans && !chans[c].closed
      modifies this
      ensures View() == AfterUnsubscribe(old(View()), st, c)
    {
      if st in subs {
        subs := subs[st := subs[st] - {c}];
      }
      chans := chans[c := chans[c].(closed := true)];
    }
  }
}
