/**
  The writer that splits ansible-runner's output into newline-terminated JSON events as it arrives.
  Source: eventTeeWriter in api/internal/ansible/runner.go. JSON decoding is a parameter.
 */
module Ndjson {
  import opened Common

  type Byte = b: int | 0 <= b < 256

  const NEWLINE: Byte := 10

  datatype AnsibleEvent = AnsibleEvent(event: string, payload: seq<Byte>)

  // How a line decodes; None is a decoding error.
  type Decoder = seq<Byte> -> Option<AnsibleEvent>

  // ---------- the whole stream ----------

  // Index of the first b, or -1.
  function IndexOf(s: seq<Byte>, b: Byte): (i: int)
    ensures -1 <= i < |s|
  {
    if s == [] then -1
    else if s[0] == b then 0
    else
      var i := IndexOf(s[1..], b);
      if i < 0 then -1 else i + 1
  }

  // The complete lines, without their newlines.
  function Lines(s: seq<Byte>): seq<seq<Byte>> {
    var i := IndexOf(s, NEWLINE);
    if i < 0 then [] else [s[..i]] + Lines(s[i + 1..])
  }

  // What follows the last newline.
  function Tail(s: seq<Byte>): seq<Byte> {
    var i := IndexOf(s, NEWLINE);
    if i < 0 then s else Tail(s[i + 1..])
  }

  function Unlines(lines: seq<seq<Byte>>): seq<Byte> {
    if lines == [] then [] else lines[0] + [NEWLINE] + Unlines(lines[1..])
  }

  function EmitLine(decode: Decoder, line: seq<Byte>): seq<AnsibleEvent> {
    var e := decode(line);
    if e.Some? && e.value.event != "" then [e.value] else []
  }

  function Emit(decode: Decoder, lines: seq<seq<Byte>>): seq<AnsibleEvent> {
    if lines == [] then [] else EmitLine(decode, lines[0]) + Emit(decode, lines[1..])
  }

  lemma {:induction false} IndexMeans(s: seq<Byte>, b: Byte)
    ensures var i := IndexOf(s, b); if i < 0 then b !in s else s[i] == b && b !in s[..i]
  {
    if s != [] && s[0] != b {
      IndexMeans(s[1..], b);
      var i := IndexOf(s, b);
      assert s == [s[0]] + s[1..];
      if i >= 0 {
        assert s[..i] == [s[0]] + s[1..][..i - 1];
      }
    }
  }

  lemma {:induction false} FirstIs(s: seq<Byte>, b: Byte, i: nat)
    requires i < |s| && s[i] == b && b !in s[..i]
    ensures IndexOf(s, b) == i
  {
    if i > 0 {
      assert s[..i] == [s[0]] + s[1..][..i - 1];
      FirstIs(s[1..], b, i - 1);
    }
  }

  lemma {:induction false} NoNewline(s: seq<Byte>)
    requires NEWLINE !in s
    ensures Lines(s) == [] && Tail(s) == s
  {
    IndexMeans(s, NEWLINE);
  }

  lemma LinesCons(line: seq<Byte>, rest: seq<Byte>)
    requires NEWLINE !in line
    ensures Lines(line + [NEWLINE] + rest) == [line] + Lines(rest)
    ensures Tail(line + [NEWLINE] + rest) == Tail(rest)
  {
    var s := line + [NEWLINE] + rest;
    assert s[..|line|] == line && s[|line| + 1..] == rest;
    FirstIs(s, NEWLINE, |line|);
  }

  // A stream either has no newline or starts with a line.
  lemma FirstLine(s: seq<Byte>) returns (line: seq<Byte>, rest: seq<Byte>)
    requires NEWLINE in s
    ensures s == line + [NEWLINE] + rest && NEWLINE !in line
    ensures Lines(s) == [line] + Lines(rest) && Tail(s) == Tail(rest)
  {
    IndexMeans(s, NEWLINE);
    var i := IndexOf(s, NEWLINE);
    line, rest := s[..i], s[i + 1..];
  }

  predicate NoneInside(lines: seq<seq<Byte>>) {
    forall j {:trigger lines[j]} :: 0 <= j < |lines| ==> NEWLINE !in lines[j]
  }

  /** Lines and tail are the stream cut at every newline: nothing is lost and no newline is left inside a piece. */
  lemma {:induction false} LinesRoundTrip(s: seq<Byte>)
    ensures Unlines(Lines(s)) + Tail(s) == s
    ensures NEWLINE !in Tail(s) && NoneInside(Lines(s))
    decreases |s|
  {
    if NEWLINE in s {
      var line, rest := FirstLine(s);
      LinesRoundTrip(rest);
      UnlinesCons(line, Lines(rest), Tail(rest));
    } else {
      NoNewline(s);
    }
  }

  lemma UnlinesCons(line: seq<Byte>, lines: seq<seq<Byte>>, tail: seq<Byte>)
    ensures Unlines([line] + lines) + tail == line + [NEWLINE] + (Unlines(lines) + tail)
  {
    assert ([line] + lines)[1..] == lines;
  }

  // ---------- the writer ----------

  // Position of the first c in b, or -1.
  method IndexByte(b: seq<Byte>, c: Byte) returns (idx: int)
    ensures idx == IndexOf(b, c)
  {
    for i := 0 to |b|
      invariant c !in b[..i]
    {
      if b[i] == c {
        FirstIs(b, c, i);
        return i;
      }
      assert b[..i + 1] == b[..i] + [b[i]];
    }
    assert b[..|b|] == b;
    IndexMeans(b, c);
    return -1;
  }

  class EventTeeWriter {
    const decode: Decoder
    var buf: seq<Byte>
    var emitted: seq<AnsibleEvent>

    constructor (decode: Decoder)
      ensures this.decode == decode && buf == [] && emitted == []
    {
      this.decode := decode;
      buf, emitted := [], [];
    }

    method Write(p: seq<Byte>) returns (n: nat)
      modifies this
      ensures n == |p|
      ensures buf == Tail(old(buf) + p)
      ensures emitted == old(emitted) + Emit(decode, Lines(old(buf) + p))
    {
      buf := buf + p;
      ghost var all := buf;
      while true
        invariant Tail(buf) == Tail(all)
        invariant emitted + Emit(decode, Lines(buf)) == old(emitted) + Emit(decode, Lines(all))
        decreases |buf|
      {
        var idx := IndexByte(buf, NEWLINE);
        if idx < 0 {
          break;
        }
        var line := buf[..idx];
        assert Lines(buf) == [line] + Lines(buf[idx + 1..]);
        buf := buf[idx + 1..];
        var e := decode(line);
        ghost var before := emitted;
        if e.Some? && e.value.event != "" {
          emitted := emitted + [e.value];
        }
        assert emitted == before + EmitLine(decode, line);
      }
      n := |p|;
    }
  }

  // ---------- any split of the stream ----------

  datatype WriterState = WriterState(buf: seq<Byte>, emitted: seq<AnsibleEvent>)

  // What one Write does, as its contract says.
  function AfterWrite(decode: Decoder, w: WriterState, p: seq<Byte>): WriterState {
    WriterState(Tail(w.buf + p), w.emitted + Emit(decode, Lines(w.buf + p)))
  }

  function AfterWrites(decode: Decoder, w: WriterState, chunks: seq<seq<Byte>>): WriterState
    decreases |chunks|
  {
    if chunks == [] then w else AfterWrites(decode, AfterWrite(decode, w, chunks[0]), chunks[1..])
  }

  function Concat(chunks: seq<seq<Byte>>): seq<Byte> {
    if chunks == [] then [] else chunks[0] + Concat(chunks[1..])
  }

  lemma {:induction false} SplitAnywhere(s: seq<Byte>, t: seq<Byte>)
    ensures Lines(s + t) == Lines(s) + Lines(Tail(s) + t)
    ensures Tail(s + t) == Tail(Tail(s) + t)
    decreases |s|
  {
    if NEWLINE in s {
      var line, rest := FirstLine(s);
      SplitAnywhere(rest, t);
      assert Lines(s + t) == [line] + Lines(rest + t) && Tail(s + t) == Tail(rest + t) by {
        Regroup(line, rest, t);
        LinesCons(line, rest + t);
      }
    } else {
      NoNewline(s);
    }
  }

  lemma Regroup(line: seq<Byte>, rest: seq<Byte>, t: seq<Byte>)
    ensures (line + [NEWLINE] + rest) + t == line + [NEWLINE] + (rest + t)
  {}

  lemma {:induction false} EmitConcat(decode: Decoder, a: seq<seq<Byte>>, b: seq<seq<Byte>>)
    ensures Emit(decode, a + b) == Emit(decode, a) + Emit(decode, b)
  {
    if a == [] {
      assert a + b == b;
    } else {
      assert (a + b)[1..] == a[1..] + b;
      EmitConcat(decode, a[1..], b);
    }
  }

  // Writing p and then q is writing p + q.
  lemma TwoWrites(decode: Decoder, w: WriterState, p: seq<Byte>, q: seq<Byte>)
    ensures AfterWrite(decode, AfterWrite(decode, w, p), q) == AfterWrite(decode, w, p + q)
  {
    var s := w.buf + p;
    assert w.buf + (p + q) == s + q;
    SplitAnywhere(s, q);
    var first, second := Emit(decode, Lines(s)), Emit(decode, Lines(Tail(s) + q));
    assert Emit(decode, Lines(s + q)) == first + second by { EmitConcat(decode, Lines(s), Lines(Tail(s) + q)); }
    assert (w.emitted + first) + second == w.emitted + (first + second);
  }

  /** However the stream is cut into writes, the writer ends as after one write of the whole. */
  lemma {:induction false} ChunkInvariance(decode: Decoder, w: WriterState, chunks: seq<seq<Byte>>)
    requires NEWLINE !in w.buf
    ensures AfterWrites(decode, w, chunks) == AfterWrite(decode, w, Concat(chunks))
    decreases |chunks|
  {
    if chunks == [] {
      NoNewline(w.buf);
      assert w.buf + [] == w.buf;
    } else {
      LinesRoundTrip(w.buf + chunks[0]);
      ChunkInvariance(decode, AfterWrite(decode, w, chunks[0]), chunks[1..]);
      TwoWrites(decode, w, chunks[0], Concat(chunks[1..]));
    }
  }

  // Where the lines are that decode to an event with a name.
  function Telling(decode: Decoder, lines: seq<seq<Byte>>): seq<nat> {
    if lines == [] then []
    else
      var last := decode(lines[|lines| - 1]);
      Telling(decode, lines[..|lines| - 1]) + if last.Some? && last.value.event != "" then [|lines| - 1] else []
  }

  // events are what the lines at the positions pos decode to, in order.
  predicate Tells(decode: Decoder, lines: seq<seq<Byte>>, pos: seq<nat>, events: seq<AnsibleEvent>) {
    && |events| == |pos|
    && (forall i, j {:trigger pos[i], pos[j]} :: 0 <= i < j < |pos| ==> pos[i] < pos[j])
    && (forall i {:trigger pos[i]} :: 0 <= i < |pos| ==> pos[i] < |lines| && decode(lines[pos[i]]) == Some(events[i]))
  }

  lemma EmitSnoc(decode: Decoder, lines: seq<seq<Byte>>, line: seq<Byte>)
    ensures Emit(decode, lines + [line]) == Emit(decode, lines) + EmitLine(decode, line)
  {
    var one: seq<seq<Byte>> := [line];
    EmitConcat(decode, lines, one);
    assert one[1..] == [];
    assert Emit(decode, one) == EmitLine(decode, line) + [];
  }

  lemma TellsSnoc(decode: Decoder, lines: seq<seq<Byte>>, line: seq<Byte>, pos: seq<nat>, events: seq<AnsibleEvent>)
    requires Tells(decode, lines, pos, events)
    ensures Tells(decode, lines + [line], pos, events)
    ensures decode(line).Some? ==> Tells(decode, lines + [line], pos + [|lines|], events + [decode(line).value])
  {}

  /** The events emitted are what the lines decode to, in the order of the lines: exactly those that decode, and to an
      event that has a name. */
  lemma {:induction false} EmitMeans(decode: Decoder, lines: seq<seq<Byte>>)
    ensures Tells(decode, lines, Telling(decode, lines), Emit(decode, lines))
    ensures forall i :: i in Telling(decode, lines) <==>
              0 <= i < |lines| && decode(lines[i]).Some? && decode(lines[i]).value.event != ""
    decreases |lines|
  {
    if lines != [] {
      var init, line := lines[..|lines| - 1], lines[|lines| - 1];
      EmitMeans(decode, init);
      assert lines == init + [line];
      EmitSnoc(decode, init, line);
      TellsSnoc(decode, init, line, Telling(decode, init), Emit(decode, init));
    }
  }

  /** From a fresh writer: the events are those of the stream's complete lines in order, and what is held back is
      the newline-free rest after the last newline. */
  lemma StreamMeans(decode: Decoder, chunks: seq<seq<Byte>>)
    ensures var s := Concat(chunks);
            var w := AfterWrites(decode, WriterState([], []), chunks);
            && w.emitted == Emit(decode, Lines(s)) && Tells(decode, Lines(s), Telling(decode, Lines(s)), w.emitted)
            && Unlines(Lines(s)) + w.buf == s && NEWLINE !in w.buf
  {
    var s := Concat(chunks);
    ChunkInvariance(decode, WriterState([], []), chunks);
    assert [] + s == s;
    EmitMeans(decode, Lines(s));
    LinesRoundTrip(s);
  }
}
