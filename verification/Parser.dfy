/** Byte stream to messages. `Step` is the reference transducer, one byte at a
    time; `Parser.Parse` is the zero-copy parser that accumulates runs. */
module ByteParser {
  import opened Midi

  datatype State = State(
    running: Byte,
    status: Byte,
    expected: nat,
    count: nat,
    d0: Byte,
    d1: Byte,
    inSysEx: bool,
    pendingStart: bool)
  {
    /** What every state reached from INITIAL satisfies. */
    ghost predicate Ok() {
      && (running == 0 || IsChannelVoice(running))
      && (status == 0 ==> count == 0)
      && (status != 0 ==> expected == MessageDataLength(status) && count < expected <= 2)
      && (inSysEx ==> status == 0 && running == 0)
      && (pendingStart ==> inSysEx)
      && d0 < 0x80 && d1 < 0x80
    }

    /** A stream whose start has been reported downstream. */
    predicate Opened() { inSysEx && !pendingStart }
  }

  const INITIAL := State(0, 0, 0, 0, 0, 0, false, false)

  datatype Result = Result(state: State, events: seq<Event>)

  function Cancel(s: State): State { s.(running := 0, status := 0, count := 0) }

  /** A byte outside a stream, System Real-Time excluded. */
  function Handle(s: State, b: Byte): Result {
    if b == SYSEX_START then Result(Cancel(s).(inSysEx := true, pendingStart := true), [])
    else if IsStatus(b) then
      var n := MessageDataLength(b);
      if n < 0 then Result(Cancel(s), [])
      else
        var s1 := s.(expected := n, count := 0, running := if IsChannelVoice(b) then b else 0);
        if n == 0 then Result(s1.(status := 0), [Short(b, 0, 0)]) else Result(s1.(status := b), [])
    else if s.status == 0 && s.running == 0 then Result(s, [])
    else
      var s1 := if s.status == 0
                then s.(status := s.running, count := 0,
                        expected := if MessageDataLength(s.running) < 0 then 0 else MessageDataLength(s.running))
                else s;
      var s2 := if s1.count == 0 then s1.(d0 := b) else if s1.count == 1 then s1.(d1 := b) else s1;
      if s2.count + 1 >= s2.expected
      then Result(s2.(status := 0, count := 0),
                  [Short(s2.status, if s2.expected >= 1 then s2.d0 else 0, if s2.expected >= 2 then s2.d1 else 0)])
      else Result(s2.(count := s2.count + 1), [])
  }

  function Step(s: State, b: Byte): Result {
    if IsRealTime(b) then Result(s, [Short(b, 0, 0)])
    else if !s.inSysEx then Handle(s, b)
    else if !IsStatus(b) then Result(s.(pendingStart := false), StartIf(s.pendingStart) + [Data(b)])
    else
      var closed := s.(inSysEx := false, pendingStart := false);
      var closing := StartIf(s.pendingStart) + [End];
      if b == SYSEX_END then Result(Cancel(closed), closing)
      else
        var r := Handle(closed, b);
        Result(r.state, closing + r.events)
  }

  function Run(s: State, bytes: seq<Byte>): Result {
    if bytes == [] then Result(s, [])
    else
      var r := Run(s, bytes[..|bytes| - 1]);
      var next := Step(r.state, bytes[|bytes| - 1]);
      Result(next.state, r.events + next.events)
  }

  lemma RunSnoc(s: State, bytes: seq<Byte>, b: Byte)
    ensures Run(s, bytes + [b]).state == Step(Run(s, bytes).state, b).state
    ensures Run(s, bytes + [b]).events == Run(s, bytes).events + Step(Run(s, bytes).state, b).events
  {
    assert (bytes + [b])[..|bytes|] == bytes;
  }

  lemma {:induction false} RunConcat(s: State, a: seq<Byte>, b: seq<Byte>)
    ensures Run(s, a + b).state == Run(Run(s, a).state, b).state
    ensures Run(s, a + b).events == Run(s, a).events + Run(Run(s, a).state, b).events
  {
    if b == [] {
      assert a + b == a;
    } else {
      assert (a + b)[..|a + b| - 1] == a + b[..|b| - 1];
      RunConcat(s, a, b[..|b| - 1]);
    }
  }

  lemma StepOk(s: State, b: Byte)
    requires s.Ok()
    ensures Step(s, b).state.Ok()
  {
  }

  lemma {:induction false} RunOk(s: State, bytes: seq<Byte>)
    requires s.Ok()
    ensures Run(s, bytes).state.Ok()
  {
    if bytes != [] {
      RunOk(s, bytes[..|bytes| - 1]);
      StepOk(Run(s, bytes[..|bytes| - 1]).state, bytes[|bytes| - 1]);
      hide Step;
    }
  }

  // --- The buffers a transport delivers ---

  function Joined(buffers: seq<seq<Byte>>): seq<Byte> {
    FlatMap((buffer: seq<Byte>) => buffer, buffers)
  }

  function RunBuffers(s: State, buffers: seq<seq<Byte>>): Result {
    if buffers == [] then Result(s, [])
    else
      var r := RunBuffers(s, buffers[..|buffers| - 1]);
      var next := Run(r.state, buffers[|buffers| - 1]);
      Result(next.state, r.events + next.events)
  }

  /** How the bytes are cut into buffers is invisible in the events. */
  lemma {:induction false} CuttingIsInvisible(s: State, buffers: seq<seq<Byte>>)
    ensures RunBuffers(s, buffers) == Run(s, Joined(buffers))
  {
    if buffers != [] {
      var front := buffers[..|buffers| - 1];
      CuttingIsInvisible(s, front);
      RunConcat(s, Joined(front), buffers[|buffers| - 1]);
    }
  }

  // --- What the events look like ---

  /** Streams are bracketed, with nothing but System Real-Time inside one. */
  lemma {:induction false} EventsBracketed(s: State, bytes: seq<Byte>)
    requires s.Ok()
    ensures Track(s.Opened(), Run(s, bytes).events) == Some(Run(s, bytes).state.Opened())
  {
    if bytes != [] {
      var front, b := bytes[..|bytes| - 1], bytes[|bytes| - 1];
      EventsBracketed(s, front);
      RunOk(s, front);
      var r := Run(s, front);
      TrackConcat(s.Opened(), r.events, Step(r.state, b).events);
      StepBracketed(r.state, b);
    }
  }

  lemma StepBracketed(s: State, b: Byte)
    requires s.Ok()
    ensures Track(s.Opened(), Step(s, b).events) == Some(Step(s, b).state.Opened())
  {
    TrackFew(s.Opened(), Step(s, b).events);
    hide Track;
  }

  // --- System Real-Time ---

  function QuietByte(b: Byte): seq<Byte> { if IsRealTime(b) then [] else [b] }

  function QuietEvent(e: Event): seq<Event> { if e.RealTime() then [] else [e] }

  function RealTimeOfByte(b: Byte): seq<Event> { if IsRealTime(b) then [Short(b, 0, 0)] else [] }

  function RealTimeOnly(e: Event): seq<Event> { if e.RealTime() then [e] else [] }

  lemma {:induction false} AllQuiet(es: seq<Event>)
    requires forall i :: 0 <= i < |es| ==> !es[i].RealTime()
    ensures FlatMap(QuietEvent, es) == es && FlatMap(RealTimeOnly, es) == []
  {
    if es != [] {
      AllQuiet(es[..|es| - 1]);
    }
  }

  lemma StepQuiet(s: State, b: Byte)
    requires s.Ok() && !IsRealTime(b)
    ensures forall e :: e in Step(s, b).events ==> !e.RealTime()
  {
  }

  /** Deleting every 0xF8..0xFF byte deletes exactly the real-time messages: the
      state and every other event are untouched, wherever the byte fell. */
  lemma {:induction false} RealTimeTransparent(s: State, bytes: seq<Byte>)
    requires s.Ok()
    ensures Run(s, FlatMap(QuietByte, bytes)).state == Run(s, bytes).state
    ensures Run(s, FlatMap(QuietByte, bytes)).events == FlatMap(QuietEvent, Run(s, bytes).events)
    ensures FlatMap(RealTimeOnly, Run(s, bytes).events) == FlatMap(RealTimeOfByte, bytes)
  {
    if bytes != [] {
      var front, b := bytes[..|bytes| - 1], bytes[|bytes| - 1];
      RealTimeTransparent(s, front);
      RunOk(s, front);
      var r := Run(s, front);
      FlatMapConcat(QuietEvent, r.events, Step(r.state, b).events);
      FlatMapConcat(RealTimeOnly, r.events, Step(r.state, b).events);
      StepRealTime(r.state, b);
      hide Step;
      assert FlatMap(QuietByte, bytes) == FlatMap(QuietByte, front) + QuietByte(b);
      if IsRealTime(b) {
        assert FlatMap(QuietByte, bytes) == FlatMap(QuietByte, front);
      } else {
        RunSnoc(s, FlatMap(QuietByte, front), b);
      }
    }
  }

  lemma StepRealTime(s: State, b: Byte)
    requires s.Ok()
    ensures FlatMap(RealTimeOnly, Step(s, b).events) == RealTimeOfByte(b)
    ensures FlatMap(QuietEvent, Step(s, b).events) == if IsRealTime(b) then [] else Step(s, b).events
    ensures IsRealTime(b) ==> Step(s, b).state == s
  {
    var es := Step(s, b).events;
    if IsRealTime(b) {
      FlatMapOne(QuietEvent, es[0]);
      FlatMapOne(RealTimeOnly, es[0]);
    } else {
      StepQuiet(s, b);
      AllQuiet(es);
    }
  }

  // --- The parser itself ---

  /** A message as the parser builds them: resolved status, 7-bit data, and a
      chunk that carries a byte or an end. */
  ghost predicate Proper(m: Message) {
    if m.chunk then
      m.status == SYSEX_START && SevenBit(m.payload) && (m.chunkEnd || m.payload != [])
    else
      && 0 <= MessageDataLength(m.status) == m.dataLength
      && m.data1 < 0x80 && m.data2 < 0x80
      && (m.dataLength < 1 ==> m.data1 == 0) && (m.dataLength < 2 ==> m.data2 == 0)
      && !m.chunkStart && !m.chunkEnd && m.payload == []
  }

  ghost predicate AllProper(ms: seq<Message>, port: Port) {
    forall i :: 0 <= i < |ms| ==> ms[i].port == port && Proper(ms[i])
  }

  lemma CloseStep(s: State, b: Byte)
    requires s.inSysEx && IsStatus(b) && !IsRealTime(b)
    ensures var closed := s.(inSysEx := false, pendingStart := false);
            var closing := StartIf(s.pendingStart) + [End];
            Step(s, b) == if b == SYSEX_END then Result(Cancel(closed), closing)
                          else Result(Handle(closed, b).state, closing + Handle(closed, b).events)
  {
  }

  lemma ProperConcat(a: seq<Message>, b: seq<Message>, port: Port)
    requires AllProper(a, port) && AllProper(b, port)
    ensures AllProper(a + b, port)
  {
  }

  /** The events of a run that has been seen but not handed over yet. */
  function InFlight(runActive: bool, start: bool, run: seq<Byte>): seq<Event> {
    if runActive then StartIf(start) + DataEvents(run) else []
  }

  /** The state once the run in flight, if any, has been handed over. */
  function SettledState(now: State, runActive: bool): State {
    if runActive then now.(pendingStart := false) else now
  }

  /** The parser, having read `read` from state `s0`, stands in `now` with `out`
      emitted and `run` seen but not handed over. */
  ghost predicate Rendered(s0: State, read: seq<Byte>, now: State, port: Port, out: seq<Message>,
                           runActive: bool, run: seq<Byte>) {
    && now.Ok() && AllProper(out, port)
    && (runActive ==> now.inSysEx && run != [] && SevenBit(run))
    && Run(s0, read).state == SettledState(now, runActive)
    && Run(s0, read).events == FlattenAll(out) + InFlight(runActive, now.pendingStart, run)
  }

  lemma RenderedStart(s0: State, port: Port)
    requires s0.Ok()
    ensures Rendered(s0, [], s0, port, [], false, [])
  {
  }

  lemma RenderedMeans(s0: State, read: seq<Byte>, now: State, port: Port, out: seq<Message>,
                      runActive: bool, run: seq<Byte>)
    requires Rendered(s0, read, now, port, out, runActive, run)
    ensures now.Ok() && (runActive ==> now.inSysEx && run != [] && SevenBit(run))
  {
  }

  /** A payload byte grows the run in flight, or begins one. */
  lemma RenderedInStream(s0: State, read: seq<Byte>, now: State, port: Port, out: seq<Message>,
                         runActive: bool, run: seq<Byte>, b: Byte)
    requires Rendered(s0, read, now, port, out, runActive, run)
    requires now.inSysEx && !IsStatus(b)
    ensures Rendered(s0, read + [b], now, port, out, true, if runActive then run + [b] else [b])
  {
    RunSnoc(s0, read, b);
    InStream(SettledState(now, runActive), b);
    GrowRun(runActive, now.pendingStart, run, b);
    Associative(FlattenAll(out), InFlight(runActive, now.pendingStart, run),
                Step(SettledState(now, runActive), b).events);
    hide Step, Run, InFlight, FlatMap;
  }

  lemma GrowRun(runActive: bool, start: bool, run: seq<Byte>, b: Byte)
    requires runActive ==> SevenBit(run)
    requires b < 0x80
    ensures var grown := if runActive then run + [b] else [b];
            && SevenBit(grown)
            && InFlight(true, start, grown) ==
               InFlight(runActive, start, run) + (StartIf(start && !runActive) + [Data(b)])
  {
    var grown := if runActive then run + [b] else [b];
    assert DataEvents(grown) == (if runActive then DataEvents(run) else []) + [Data(b)];
  }

  /** Any other byte, once `Interrupt` has emitted for it. */
  lemma RenderedInterrupt(s0: State, read: seq<Byte>, now: State, port: Port, out: seq<Message>,
                          runActive: bool, run: seq<Byte>, b: Byte,
                          next: State, emitted: seq<Message>, rest: seq<Byte>)
    requires Rendered(s0, read, now, port, out, runActive, run)
    requires next == Step(SettledState(now, runActive), b).state && next.Ok() && AllProper(emitted, port)
    requires FlattenAll(emitted) ==
             InFlight(runActive, now.pendingStart, run) + Step(SettledState(now, runActive), b).events
    ensures Rendered(s0, read + [b], next, port, out + emitted, false, rest)
  {
    RunSnoc(s0, read, b);
    FlatMapConcat(Flatten, out, emitted);
    ProperConcat(out, emitted, port);
    Associative(FlattenAll(out), InFlight(runActive, now.pendingStart, run),
                Step(SettledState(now, runActive), b).events);
    hide Step, Flatten, InFlight;
  }

  lemma InStream(s: State, b: Byte)
    requires s.inSysEx && !IsStatus(b)
    ensures Step(s, b) == Result(s.(pendingStart := false), StartIf(s.pendingStart) + [Data(b)])
  {
  }

  /** The end of the buffer hands over the run in flight. */
  lemma RenderedEnd(s0: State, read: seq<Byte>, now: State, port: Port, out: seq<Message>,
                    runActive: bool, run: seq<Byte>, last: seq<Message>)
    requires Rendered(s0, read, now, port, out, runActive, run)
    requires FlattenAll(last) == InFlight(runActive, now.pendingStart, run) && AllProper(last, port)
    ensures SettledState(now, runActive).Ok() && AllProper(out + last, port)
    ensures Run(s0, read) == Result(SettledState(now, runActive), FlattenAll(out + last))
  {
    FlatMapConcat(Flatten, out, last);
    ProperConcat(out, last, port);
  }

  class Parser {
    var port: Port
    var runningStatus: Byte
    var status: Byte
    var expected: nat
    var dataCount: nat
    var data0: Byte
    var data1: Byte
    var inSysEx: bool
    var pendingChunkStart: bool

    constructor (port: Port)
      ensures this.port == port && Value() == INITIAL
    {
      this.port := port;
      runningStatus, status, expected, dataCount := 0, 0, 0, 0;
      data0, data1, inSysEx, pendingChunkStart := 0, 0, false, false;
    }

    function Value(): State
      reads this
    {
      State(runningStatus, status, expected, dataCount, data0, data1, inSysEx, pendingChunkStart)
    }

    /** Drops a partial message and closes a stream without emitting anything. */
    method Reset()
      modifies this
      ensures Value() == INITIAL.(d0 := old(data0), d1 := old(data1)) && port == old(port)
      ensures old(Value().Ok()) ==> Value().Ok()
    {
      runningStatus, status, expected, dataCount := 0, 0, 0, 0;
      inSysEx, pendingChunkStart := false, false;
    }

    /** Feeds one buffer. The emitted messages stand for exactly the events the
        one-byte transducer produces, and leave the parser in its state. */
    method Parse(data: seq<Byte>) returns (out: seq<Message>)
      requires Value().Ok()
      modifies this
      ensures Value() == Run(old(Value()), data).state && Value().Ok()
      ensures FlattenAll(out) == Run(old(Value()), data).events
      ensures port == old(port) && AllProper(out, port)
    {
      var runActive, runStart;
      ghost var s0 := Value();
      out, runActive, runStart := Scan(data);
      ghost var run := data[runStart..];
      ghost var now := Value();
      RenderedMeans(s0, data, now, port, out, runActive, run);
      hide Rendered, Run;
      var last := Flush(runActive, data[runStart..]);
      RenderedEnd(s0, data, now, port, out, runActive, run, last);
      out := out + last;
    }

    /** The byte loop. A run still in flight at the end of the buffer begins at
        `runStart`. */
    method Scan(data: seq<Byte>) returns (out: seq<Message>, runActive: bool, runStart: nat)
      requires Value().Ok()
      modifies this
      ensures runStart <= |data| && port == old(port)
      ensures Rendered(old(Value()), data, Value(), port, out, runActive, data[runStart..])
    {
      hide Rendered, Run, Step, Handle;
      ghost var s0 := Value();
      out, runActive, runStart := [], false, 0;
      var i := 0;
      assert data[..0] == [];
      RenderedStart(s0, port);
      while i < |data|
        invariant 0 <= runStart <= i <= |data| && port == old(port)
        invariant Rendered(s0, data[..i], Value(), port, out, runActive, data[runStart..i])
      {
        var b := data[i];
        ghost var now := Value();
        assert data[..i + 1] == data[..i] + [b];
        if inSysEx && !IsStatus(b) {
          RenderedInStream(s0, data[..i], now, port, out, runActive, data[runStart..i], b);
          if runActive {
            assert data[runStart..i + 1] == data[runStart..i] + [b];
          } else {
            runStart, runActive := i, true;
            assert data[runStart..i + 1] == [b];
          }
        } else {
          RenderedMeans(s0, data[..i], now, port, out, runActive, data[runStart..i]);
          var emitted := Interrupt(b, runActive, data[runStart..i]);
          RenderedInterrupt(s0, data[..i], now, port, out, runActive, data[runStart..i], b, Value(), emitted,
                            data[runStart..i + 1]);
          out := out + emitted;
          runActive := false;
        }
        i := i + 1;
      }
      assert data[..i] == data && data[runStart..i] == data[runStart..];
    }

    /** The state once the run in flight, if any, has been handed over. */
    function Settled(runActive: bool): State
      reads this
    {
      SettledState(Value(), runActive)
    }

    /** A byte that is not stream payload: flushes the run it interrupts, and
        closes the stream unless it is System Real-Time. */
    method Interrupt(b: Byte, runActive: bool, run: seq<Byte>) returns (out: seq<Message>)
      requires Value().Ok() && !(inSysEx && !IsStatus(b))
      requires runActive ==> inSysEx && run != [] && SevenBit(run)
      modifies this
      ensures Value() == Step(old(Settled(runActive)), b).state && Value().Ok()
      ensures FlattenAll(out) ==
              InFlight(runActive, old(pendingChunkStart), run) + Step(old(Settled(runActive)), b).events
      ensures port == old(port) && AllProper(out, port)
    {
      if IsRealTime(b) {
        out := RealTime(b, runActive, run);
      } else if inSysEx {
        out := Close(b, runActive, run);
      } else {
        out := HandleByte(b);
      }
      hide Step, Handle, FlatMap, Flatten;
    }

    /** A real-time byte flushes the run and touches nothing else. */
    method RealTime(b: Byte, runActive: bool, run: seq<Byte>) returns (out: seq<Message>)
      requires Value().Ok() && IsRealTime(b)
      requires runActive ==> inSysEx && run != [] && SevenBit(run)
      modifies this`pendingChunkStart
      ensures Value() == Step(old(Settled(runActive)), b).state && Value().Ok()
      ensures FlattenAll(out) ==
              InFlight(runActive, old(pendingChunkStart), run) + Step(old(Settled(runActive)), b).events
      ensures port == old(port) && AllProper(out, port)
    {
      out := Flush(runActive, run);
      assert Step(old(Settled(runActive)), b) == Result(old(Settled(runActive)), [Short(b, 0, 0)]);
      hide Step, Handle;
      var m := ShortMessage(port, b, 0, 0, 0);
      FlatMapSnoc(Flatten, out, m);
      out := out + [m];
    }

    method Flush(runActive: bool, run: seq<Byte>) returns (out: seq<Message>)
      requires runActive ==> run != [] && SevenBit(run)
      modifies this`pendingChunkStart
      ensures Value() == old(Settled(runActive))
      ensures FlattenAll(out) == InFlight(runActive, old(pendingChunkStart), run) && AllProper(out, port)
    {
      out := [];
      if runActive {
        var m := EmitChunk(run, false);
        FlatMapOne(Flatten, m);
        out := [m];
      } else {
        assert FlattenAll([]) == [];
      }
      hide FlatMap;
    }

    /** Any status byte ends the stream; all but 0xF7 are then handled. */
    method Close(b: Byte, runActive: bool, run: seq<Byte>) returns (out: seq<Message>)
      requires Value().Ok() && inSysEx && IsStatus(b) && !IsRealTime(b)
      requires runActive ==> run != [] && SevenBit(run)
      modifies this
      ensures Value() == Step(old(Settled(runActive)), b).state && Value().Ok()
      ensures FlattenAll(out) ==
              InFlight(runActive, old(pendingChunkStart), run) + Step(old(Settled(runActive)), b).events
      ensures port == old(port) && AllProper(out, port)
    {
      hide Step, Handle, AllProper, FlatMap;
      ghost var s, flying := Settled(runActive), InFlight(runActive, pendingChunkStart, run);
      CloseStep(s, b);
      var m := EmitClose(runActive, run);
      inSysEx := false;
      out := [m];
      if b == SYSEX_END {
        runningStatus, status, dataCount := 0, 0, 0;
      } else {
        var handled := HandleByte(b);
        FlatMapConcat(Flatten, [m], handled);
        Associative(flying, StartIf(s.pendingStart) + [End], FlattenAll(handled));
        ProperConcat([m], handled, port);
        out := [m] + handled;
      }
    }

    method EmitClose(runActive: bool, run: seq<Byte>) returns (m: Message)
      requires runActive ==> run != [] && SevenBit(run)
      modifies this`pendingChunkStart
      ensures !pendingChunkStart && AllProper([m], port)
      ensures FlattenAll([m]) == InFlight(runActive, old(pendingChunkStart), run)
                                 + (StartIf(old(Settled(runActive)).pendingStart) + [End])
    {
      m := EmitChunk(if runActive then run else [], true);
      FlatMapOne(Flatten, m);
    }

    method HandleByte(b: Byte) returns (out: seq<Message>)
      requires Value().Ok() && !inSysEx && !IsRealTime(b)
      modifies this
      ensures Value() == Handle(old(Value()), b).state && Value().Ok()
      ensures FlattenAll(out) == Handle(old(Value()), b).events
      ensures port == old(port) && AllProper(out, port)
    {
      if IsStatus(b) {
        out := HandleStatus(b);
      } else {
        out := HandleData(b);
      }
    }

    method HandleStatus(b: Byte) returns (out: seq<Message>)
      requires Value().Ok() && !inSysEx && IsStatus(b) && !IsRealTime(b)
      modifies this
      ensures Value() == Handle(old(Value()), b).state && Value().Ok()
      ensures FlattenAll(out) == Handle(old(Value()), b).events
      ensures port == old(port) && AllProper(out, port)
    {
      out := [];
      if b == SYSEX_START {
        inSysEx, pendingChunkStart := true, true;
        runningStatus, status, dataCount := 0, 0, 0;
        return;
      }
      var length := MessageDataLength(b);
      if length < 0 {
        runningStatus, status, dataCount := 0, 0, 0;
        return;
      }
      status, expected, dataCount := b, length, 0;
      runningStatus := if IsChannelVoice(b) then b else 0;
      if expected == 0 {
        out := EmitShort(0, 0, 0);
        status := 0;
      }
    }

    method HandleData(b: Byte) returns (out: seq<Message>)
      requires Value().Ok() && !inSysEx && !IsStatus(b)
      modifies this
      ensures Value() == Handle(old(Value()), b).state && Value().Ok()
      ensures FlattenAll(out) == Handle(old(Value()), b).events
      ensures port == old(port) && AllProper(out, port)
    {
      out := [];
      if status == 0 {
        if runningStatus == 0 {
          return;
        }
        status, expected, dataCount := runningStatus, MessageDataLength(runningStatus), 0;
      }
      if dataCount == 0 {
        data0 := b;
      } else if dataCount == 1 {
        data1 := b;
      }
      dataCount := dataCount + 1;
      if dataCount >= expected {
        out := EmitShort(data0, data1, expected);
        status, dataCount := 0, 0;
      }
    }

    method EmitShort(d1: Byte, d2: Byte, length: nat) returns (out: seq<Message>)
      ensures out == [ShortMessage(port, status, if length >= 1 then d1 else 0, if length >= 2 then d2 else 0, length)]
      ensures FlattenAll(out) == Flatten(out[0])
    {
      var m := ShortMessage(port, status, if length >= 1 then d1 else 0, if length >= 2 then d2 else 0, length);
      FlatMapOne(Flatten, m);
      out := [m];
    }

    method EmitChunk(run: seq<Byte>, end: bool) returns (m: Message)
      modifies this`pendingChunkStart
      ensures !pendingChunkStart
      ensures m == ChunkMessage(port, old(pendingChunkStart), end, run)
    {
      m := ChunkMessage(port, pendingChunkStart, end, run);
      pendingChunkStart := false;
    }
  }

}
