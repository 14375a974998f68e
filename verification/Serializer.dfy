/** Messages to bytes, and what a receiver makes of those bytes. */
module ByteSerializer {
  import opened Midi
  import opened ByteParser

  /** The wire bytes an event stands for. */
  function Encode(e: Event): seq<Byte> {
    match e
    case Short(s, d1, d2) =>
      var n := MessageDataLength(s);
      [s] + (if n >= 1 then [d1] else []) + (if n >= 2 then [d2] else [])
    case Start => [SYSEX_START]
    case Data(b) => [b]
    case End => [SYSEX_END]
  }

  /** 7-bit data, a status of fixed length, and no data beyond that length. */
  ghost predicate Sound(e: Event) {
    match e
    case Short(s, d1, d2) =>
      var n := MessageDataLength(s);
      n >= 0 && d1 < 0x80 && d2 < 0x80 && (n < 1 ==> d1 == 0) && (n < 2 ==> d2 == 0)
    case Data(b) => b < 0x80
    case _ => true
  }

  ghost predicate AllSound(es: seq<Event>) {
    forall i :: 0 <= i < |es| ==> Sound(es[i])
  }

  // --- The order a receiver reports events in ---

  datatype Canon = Canon(pending: bool, events: seq<Event>)

  function Settle(pending: bool, e: Event): Canon {
    match e
    case Start => Canon(true, [])
    case Short(_, _, _) => Canon(pending, [e])
    case _ => Canon(false, StartIf(pending) + [e])
  }

  /** Every Start moved behind the real-time messages that precede its first
      byte: a receiver cannot report a stream before it has a byte of it. */
  function Canonical(pending: bool, es: seq<Event>): Canon {
    if es == [] then Canon(pending, [])
    else
      var front := Canonical(pending, es[..|es| - 1]);
      var last := Settle(front.pending, es[|es| - 1]);
      Canon(last.pending, front.events + last.events)
  }

  lemma {:induction false} CanonicalConcat(pending: bool, a: seq<Event>, b: seq<Event>)
    ensures Canonical(pending, a + b).pending == Canonical(Canonical(pending, a).pending, b).pending
    ensures Canonical(pending, a + b).events ==
            Canonical(pending, a).events + Canonical(Canonical(pending, a).pending, b).events
  {
    hide Settle;
    if b == [] {
      assert a + b == a;
    } else {
      assert (a + b)[..|a + b| - 1] == a + b[..|b| - 1];
      CanonicalConcat(pending, a, b[..|b| - 1]);
    }
  }

  // --- Round trip: events to bytes to events ---

  lemma RunOne(s: State, b: Byte)
    ensures Run(s, [b]) == Step(s, b)
  {
    assert [b] == [] + [b];
    RunSnoc(s, [], b);
  }

  /** Outside a stream, a status byte and its data bytes are one message. */
  lemma EncodedShort(s: State, e: Event)
    requires s.Ok() && e.Short? && Sound(e) && !e.RealTime() && !s.inSysEx
    ensures var r := Run(s, Encode(e));
            && r.state.Ok() && !r.state.inSysEx && r.events == [e]
            && r.state.status == 0 && r.state.running == if IsChannelVoice(e.status) then e.status else 0
  {
    var n := MessageDataLength(e.status);
    RunOne(s, e.status);
    StepOk(s, e.status);
    var s1 := Step(s, e.status).state;
    if n >= 1 {
      assert s1.status == e.status && s1.expected == n && s1.count == 0;
      RunSnoc(s, [e.status], e.d1);
      StepOk(s1, e.d1);
      assert [e.status] + [e.d1] == Encode(e)[..2];
    }
    if n >= 2 {
      var s2 := Step(s1, e.d1).state;
      assert s2.status == e.status && s2.d0 == e.d1 && s2.count == 1 && s2.expected == 2;
      RunSnoc(s, [e.status] + [e.d1], e.d2);
      StepOk(s2, e.d2);
    }
  }

  /** What one encoded event does to a parser whose stream state agrees. */
  lemma EncodedEvent(s: State, e: Event)
    requires s.Ok() && Sound(e) && After(s.inSysEx, e).Some?
    ensures var r := Run(s, Encode(e));
            && r.state.Ok() && Some(r.state.inSysEx) == After(s.inSysEx, e)
            && r.state.pendingStart == Settle(s.pendingStart, e).pending
            && r.events == Settle(s.pendingStart, e).events
  {
    if e.Short? && !e.RealTime() {
      EncodedShort(s, e);
    } else {
      EncodedByte(s, e);
    }
    hide Run, Step;
  }

  lemma EncodedByte(s: State, e: Event)
    requires s.Ok() && Sound(e) && After(s.inSysEx, e).Some? && (e.Short? ==> e.RealTime())
    ensures var r := Run(s, Encode(e));
            && r.state.Ok() && Some(r.state.inSysEx) == After(s.inSysEx, e)
            && r.state.pendingStart == Settle(s.pendingStart, e).pending
            && r.events == Settle(s.pendingStart, e).events
  {
    hide Run;
    var b := if e.Short? then e.status else if e.Start? then SYSEX_START else if e.Data? then e.b else SYSEX_END;
    assert Encode(e) == [b];
    RunOne(s, b);
    StepOk(s, b);
  }

  /** Serialized events parse back to themselves, up to where a Start is
      reported, from any reachable parser state that agrees on being in a
      stream: a message cut short before them does no harm. */
  lemma {:induction false} Reparse(s: State, es: seq<Event>)
    requires s.Ok() && AllSound(es) && Track(s.inSysEx, es).Some?
    ensures var r := Run(s, FlatMap(Encode, es));
            && r.state.Ok() && Some(r.state.inSysEx) == Track(s.inSysEx, es)
            && r.state.pendingStart == Canonical(s.pendingStart, es).pending
            && r.events == Canonical(s.pendingStart, es).events
  {
    if es != [] {
      var front, e := es[..|es| - 1], es[|es| - 1];
      Reparse(s, front);
      var r := Run(s, FlatMap(Encode, front));
      RunConcat(s, FlatMap(Encode, front), Encode(e));
      EncodedEvent(r.state, e);
      hide Encode, Settle, After, Sound, Run;
    }
  }

  /** Every Start is directly followed by its first byte, or by its end. */
  ghost predicate Prompt(es: seq<Event>) {
    forall i :: 0 <= i < |es| && es[i].Start? ==> i + 1 < |es| && (es[i + 1].Data? || es[i + 1].End?)
  }

  /** `Prompt`, except that the last event may be a Start. */
  ghost predicate PromptSoFar(es: seq<Event>) {
    forall i :: 0 <= i < |es| - 1 && es[i].Start? ==> es[i + 1].Data? || es[i + 1].End?
  }

  lemma {:induction false} PromptIsCanonical(es: seq<Event>)
    requires PromptSoFar(es)
    ensures var c := Canonical(false, es);
            && c.pending == (es != [] && es[|es| - 1].Start?)
            && c.events == if c.pending then es[..|es| - 1] else es
  {
    if es != [] {
      var front, e := es[..|es| - 1], es[|es| - 1];
      PromptIsCanonical(front);
      if front != [] && front[|front| - 1].Start? {
        assert es[|es| - 2].Start?;
        assert front == front[..|front| - 1] + [Start];
        assert es == front[..|front| - 1] + [Start, e];
      }
    }
  }

  lemma {:induction false} CanonicalLength(es: seq<Event>)
    requires Track(false, es).Some?
    ensures var c := Canonical(false, es);
            && |c.events| + (if c.pending then 1 else 0) == |es|
            && (c.pending ==> Track(false, es) == Some(true))
  {
    if es != [] {
      CanonicalLength(es[..|es| - 1]);
    }
  }

  lemma {:induction false} TrackPrefix(open: bool, es: seq<Event>, n: nat)
    requires n <= |es| && Track(open, es).Some?
    ensures Track(open, es[..n]).Some?
  {
    assert es == es[..n] + es[n..];
    TrackConcat(open, es[..n], es[n..]);
  }

  /** A Start that is not prompt comes back late, or not at all. */
  lemma LateStart(es: seq<Event>, i: nat)
    requires Track(false, es).Some? && i < |es| && es[i].Start?
    requires i + 1 < |es| ==> es[i + 1].Short? || es[i + 1].Start?
    ensures Canonical(false, es).events != es
  {
    if i + 1 == |es| {
      CanonicalLength(es);
    } else {
      OvertakenStart(es, i);
    }
  }

  lemma OvertakenStart(es: seq<Event>, i: nat)
    requires Track(false, es).Some? && i + 1 < |es| && es[i].Start?
    requires es[i + 1].Short? || es[i + 1].Start?
    ensures Canonical(false, es).events != es
  {
    hide Canonical, Track;
    var before, pair, after := es[..i], [es[i], es[i + 1]], es[i + 2..];
    ClosedBefore(es, i);
    StartThenShort(es[i], es[i + 1]);
    TrackPrefix(false, es, i + 2);
    assert es[..i + 2] == before + pair;
    TrackConcat(false, before, pair);
    assert es == before + (pair + after);
    CanonicalConcat(false, before, pair + after);
    CanonicalConcat(false, pair, after);
    ShiftedAt(es, Canonical(false, es).events, Canonical(false, before).events, es[i + 1],
              Canonical(true, after).events);
  }

  lemma ShiftedAt(es: seq<Event>, got: seq<Event>, a: seq<Event>, x: Event, b: seq<Event>)
    requires got == a + ([x] + b) && |a| < |es| && es[|a|] != x
    ensures got != es
  {
    assert got[|a|] == x;
  }

  lemma ClosedBefore(es: seq<Event>, i: nat)
    requires Track(false, es).Some? && i < |es| && es[i].Start?
    ensures Track(false, es[..i]) == Some(false)
    ensures !Canonical(false, es[..i]).pending && |Canonical(false, es[..i]).events| == i
  {
    TrackPrefix(false, es, i + 1);
    assert es[..i + 1][..i] == es[..i];
    CanonicalLength(es[..i]);
  }

  lemma StartThenShort(start: Event, next: Event)
    requires start.Start? && (next.Short? || next.Start?)
    ensures next.Short? ==> Canonical(false, [start, next]) == Canon(true, [next])
    ensures next.Start? ==> Track(false, [start, next]) == None
  {
    assert [start, next][..1] == [start] && [start][..0] == [];
    assert Canonical(false, [start]) == Canon(true, []);
    assert Track(false, [start]) == Some(true);
  }

  /** The bytes of a well-bracketed sequence parse back to exactly that sequence
      if and only if no stream start waits for its first byte. */
  lemma RoundTrip(s: State, es: seq<Event>)
    requires s.Ok() && !s.inSysEx && AllSound(es) && Track(false, es).Some?
    ensures Run(s, FlatMap(Encode, es)).events == es <==> Prompt(es)
  {
    Reparse(s, es);
    if Prompt(es) {
      PromptIsCanonical(es);
    } else {
      var i :| 0 <= i < |es| && es[i].Start? && !(i + 1 < |es| && (es[i + 1].Data? || es[i + 1].End?));
      LateStart(es, i);
    }
  }

  /** A stream whose start is followed by a clock before its first byte comes back
      with the clock first. */
  lemma AnOvertakenStart()
    ensures exists es: seq<Event> ::
              && AllSound(es) && Track(false, es).Some?
              && Run(INITIAL, FlatMap(Encode, es)).events != es
  {
    var es := [Start, Short(0xf8, 0, 0), Data(1)];
    TrackFew(false, es);
    RoundTrip(INITIAL, es);
    assert !Prompt(es) by { assert es[0].Start? && es[1].Short?; }
  }

  // --- Round trip: bytes to events to bytes ---

  lemma StepSound(s: State, b: Byte)
    requires s.Ok()
    ensures AllSound(Step(s, b).events) && Prompt(Step(s, b).events)
  {
  }

  lemma {:induction false} ParsedIsCanonical(s: State, bytes: seq<Byte>)
    requires s.Ok()
    ensures AllSound(Run(s, bytes).events)
    ensures Canonical(false, Run(s, bytes).events) == Canon(false, Run(s, bytes).events)
  {
    if bytes != [] {
      var front, b := bytes[..|bytes| - 1], bytes[|bytes| - 1];
      ParsedIsCanonical(s, front);
      RunOk(s, front);
      var r := Run(s, front);
      StepSound(r.state, b);
      PromptIsCanonical(Step(r.state, b).events);
      CanonicalConcat(false, r.events, Step(r.state, b).events);
      hide Step, Sound, Canonical;
    }
  }

  /** Whatever bytes came in, what was parsed from them serializes to bytes that
      parse to the same events: nothing is lost in running status, orphaned data
      or truncated streams that the first parse had not already resolved. */
  lemma ReparseParsed(bytes: seq<Byte>, s: State)
    requires s.Ok() && !s.inSysEx
    ensures Run(s, FlatMap(Encode, Run(INITIAL, bytes).events)).events == Run(INITIAL, bytes).events
  {
    EventsBracketed(INITIAL, bytes);
    ParsedIsCanonical(INITIAL, bytes);
    Reparse(s, Run(INITIAL, bytes).events);
  }

  // --- The serializer itself ---

  /** What one `Serialize` call did: the bytes the transport took, and whether
      the whole message got through. */
  datatype Outcome = Outcome(open: bool, ok: bool, wire: seq<Byte>)

  /** Which of a call's writes the transport takes, by position. */
  type Transport = nat -> bool

  const TAKES_ALL: Transport := _ => true

  function Written(open: bool, m: Message, takes: Transport): Outcome {
    if !m.chunk then
      var n := MessageDataLength(m.status);
      if n < 0 then Outcome(open, false, [])
      else if !takes(0) then Outcome(open, false, [])
      else Outcome(open, true, Encode(Short(m.status, m.data1 % 0x80, m.data2 % 0x80)))
    else if m.chunkStart && !takes(0) then Outcome(open, false, [])
    else if !m.chunkStart && !open then Outcome(open, false, [])
    else
      var framed := if m.chunkStart then [SYSEX_START] else [];
      var next := if m.chunkStart then 1 else 0;
      if m.payload != [] && !takes(next) then Outcome(false, false, framed)
      else
        var end := if m.payload != [] then next + 1 else next;
        if !m.chunkEnd then Outcome(true, true, framed + m.payload)
        else if takes(end) then Outcome(false, true, framed + m.payload + [SYSEX_END])
        else Outcome(false, false, framed + m.payload)
  }

  class Serializer {
    var open: bool

    constructor ()
      ensures !open
    {
      open := false;
    }

    method Serialize(m: Message, takes: Transport) returns (ok: bool, wire: seq<Byte>)
      modifies this
      ensures Outcome(open, ok, wire) == Written(old(open), m, takes)
    {
      wire := [];
      if !m.chunk {
        var n := MessageDataLength(m.status);
        if n < 0 || !takes(0) {
          return false, wire;
        }
        wire := [m.status];
        if n > 0 {
          wire := wire + [m.data1 % 0x80];
        }
        if n > 1 {
          wire := wire + [m.data2 % 0x80];
        }
        return true, wire;
      }
      var writes := 0;
      if m.chunkStart {
        if !takes(writes) {
          return false, wire;
        }
        wire, writes, open := [SYSEX_START], 1, true;
      } else if !open {
        return false, wire;
      }
      if |m.payload| > 0 {
        if !takes(writes) {
          open := false;
          return false, wire;
        }
        wire, writes := wire + m.payload, writes + 1;
      }
      if m.chunkEnd {
        open := false;
        if !takes(writes) {
          return false, wire;
        }
        wire := wire + [SYSEX_END];
      }
      return true, wire;
    }

    /** Ends an open stream with an 0xF7. */
    method CloseStream(takes: Transport) returns (ok: bool, wire: seq<Byte>)
      modifies this
      ensures !open
      ensures ok == (!old(open) || takes(0))
      ensures wire == if old(open) && takes(0) then [SYSEX_END] else []
    {
      if !open {
        return true, [];
      }
      open := false;
      ok := takes(0);
      wire := if ok then [SYSEX_END] else [];
    }
  }

  /** The 7-bit messages a serializer in this state can express. */
  ghost predicate Expressible(open: bool, m: Message) {
    if m.chunk then (m.chunkStart || open) && SevenBit(m.payload)
    else MessageDataLength(m.status) >= 0 && m.data1 < 0x80 && m.data2 < 0x80
  }

  /** A transport that takes everything gets exactly the message's events. */
  lemma WrittenIsEncoded(open: bool, m: Message)
    requires Expressible(open, m)
    ensures Written(open, m, TAKES_ALL) ==
            Outcome(if m.chunk then !m.chunkEnd else open, true, FlatMap(Encode, Flatten(m)))
  {
    hide Encode, FlatMap, Written;
    if m.chunk {
      WrittenChunk(open, m);
      EncodedChunk(m.chunkStart, m.payload, m.chunkEnd);
    } else {
      WrittenShort(open, m);
    }
  }

  lemma WrittenShort(open: bool, m: Message)
    requires Expressible(open, m) && !m.chunk
    ensures Written(open, m, TAKES_ALL) == Outcome(open, true, FlatMap(Encode, Flatten(m)))
  {
    hide Encode, FlatMap;
    EncodedMessage(m);
    FlatMapOne(Encode, Flatten(m)[0]);
    assert Flatten(m) == [Flatten(m)[0]];
  }

  lemma EncodedChunk(start: bool, payload: seq<Byte>, end: bool)
    ensures FlatMap(Encode, StartIf(start) + DataEvents(payload) + EndIf(end)) ==
            (if start then [SYSEX_START] else []) + payload + (if end then [SYSEX_END] else [])
  {
    hide FlatMap, Encode, StartIf, EndIf;
    EncodedData(payload);
    EncodedFrame(start, end);
    FlatMapConcat(Encode, StartIf(start), DataEvents(payload));
    FlatMapConcat(Encode, StartIf(start) + DataEvents(payload), EndIf(end));
  }

  lemma WrittenChunk(open: bool, m: Message)
    requires m.chunk && (m.chunkStart || open)
    ensures Written(open, m, TAKES_ALL) ==
            Outcome(!m.chunkEnd, true,
              (if m.chunkStart then [SYSEX_START] else []) + m.payload + (if m.chunkEnd then [SYSEX_END] else []))
  {
  }

  lemma EncodedMessage(m: Message)
    requires Expressible(false, m) && !m.chunk
    ensures Encode(Short(m.status, m.data1 % 0x80, m.data2 % 0x80)) == Encode(Flatten(m)[0])
  {
  }

  lemma EncodedFrame(start: bool, end: bool)
    ensures FlatMap(Encode, StartIf(start)) == if start then [SYSEX_START] else []
    ensures FlatMap(Encode, EndIf(end)) == if end then [SYSEX_END] else []
  {
    FlatMapOne(Encode, Start);
    FlatMapOne(Encode, End);
  }

  lemma {:induction false} EncodedData(bytes: seq<Byte>)
    ensures FlatMap(Encode, DataEvents(bytes)) == bytes
  {
    if bytes != [] {
      var front, b := bytes[..|bytes| - 1], bytes[|bytes| - 1];
      EncodedData(front);
      assert DataEvents(bytes) == DataEvents(front) + [Data(b)];
      FlatMapSnoc(Encode, DataEvents(front), Data(b));
    }
  }

  // --- A transport that refuses writes ---

  function ShortOnly(e: Event): seq<Event> { if e.Short? then [e] else [] }

  /** What each write of a message stands for, in order. */
  function Writes(m: Message): seq<seq<Event>> {
    if !m.chunk then [Flatten(m)]
    else
      (if m.chunkStart then [[Start]] else []) + (if m.payload != [] then [DataEvents(m.payload)] else [])
      + (if m.chunkEnd then [[End]] else [])
  }

  /** The events of the writes from i on, up to the first one refused. */
  function TakenFrom(writes: seq<seq<Event>>, takes: Transport, i: nat): seq<Event>
    decreases |writes| - i
  {
    if i >= |writes| || !takes(i) then [] else writes[i] + TakenFrom(writes, takes, i + 1)
  }

  /** What the transport took of a call; a stray continuation is not written. */
  function Taken(open: bool, m: Message, takes: Transport): seq<Event> {
    if m.Continuation() && !open then [] else TakenFrom(Writes(m), takes, 0)
  }

  /** What routing hands a serializer: 7-bit messages, and nothing but System
      Real-Time while its stream is open. */
  ghost predicate Handable(open: bool, m: Message) {
    if m.chunk then SevenBit(m.payload)
    else Sound(Flatten(m)[0]) && m.data1 < 0x80 && m.data2 < 0x80 && (open ==> IsRealTime(m.status))
  }

  // --- What a receiver makes of truncated streams ---

  /** Any status but System Real-Time ends the stream a receiver is in. */
  function MendOne(open: bool, e: Event): seq<Event> {
    if open && (e.Start? || (e.Short? && !e.RealTime())) then [End, e] else [e]
  }

  function OpenAfter(open: bool, e: Event): bool {
    e.Start? || (open && (e.Data? || e.RealTime()))
  }

  /** `fits`: no byte of a stream comes while the receiver is in none. */
  datatype Mend = Mend(open: bool, fits: bool, events: seq<Event>)

  /** Events as a receiver brackets them: an End where each cut-off stream ends. */
  function Mended(open: bool, es: seq<Event>): Mend {
    if es == [] then Mend(open, true, [])
    else
      var front, e := Mended(open, es[..|es| - 1]), es[|es| - 1];
      Mend(OpenAfter(front.open, e), front.fits && (e.Data? || e.End? ==> front.open),
           front.events + MendOne(front.open, e))
  }

  lemma {:induction false} MendedConcat(open: bool, a: seq<Event>, b: seq<Event>)
    ensures var front := Mended(open, a);
            var back := Mended(front.open, b);
            Mended(open, a + b) == Mend(back.open, front.fits && back.fits, front.events + back.events)
  {
    hide MendOne, OpenAfter;
    if b == [] {
      assert a + b == a;
    } else {
      assert (a + b)[..|a + b| - 1] == a + b[..|b| - 1];
      MendedConcat(open, a, b[..|b| - 1]);
    }
  }

  lemma MendedOne(open: bool, e: Event)
    ensures Mended(open, [e]) == Mend(OpenAfter(open, e), e.Data? || e.End? ==> open, MendOne(open, e))
  {
    assert [e][..0] == [];
  }

  lemma CanonicalFew(pending: bool, e: Event)
    ensures Canonical(pending, [e]) == Settle(pending, e)
    ensures Canonical(pending, [End, e]) ==
            Canon(Settle(false, e).pending, StartIf(pending) + [End] + Settle(false, e).events)
  {
    CanonicalOne(pending, e);
    CanonicalOne(pending, End);
    CanonicalOne(false, e);
    CanonicalConcat(pending, [End], [e]);
    assert [End] + [e] == [End, e];
    hide Canonical;
  }

  lemma CanonicalOne(pending: bool, e: Event)
    ensures Canonical(pending, [e]) == Settle(pending, e)
  {
    assert [e][..0] == [];
  }

  /** One event's bytes, to a receiver that may still be in a stream cut short. */
  lemma OverheardOne(s: State, e: Event)
    requires s.Ok() && Sound(e) && (e.Data? || e.End? ==> s.inSysEx)
    ensures var r := Run(s, Encode(e));
            var heard := Canonical(s.pendingStart, MendOne(s.inSysEx, e));
            && r.state.Ok() && r.state.inSysEx == OpenAfter(s.inSysEx, e)
            && r.state.pendingStart == heard.pending && r.events == heard.events
  {
    CanonicalFew(s.pendingStart, e);
    hide Run, Encode, Canonical;
    if MendOne(s.inSysEx, e) == [e] {
      EncodedEvent(s, e);
    } else {
      var closed := s.(inSysEx := false, pendingStart := false);
      EncodedEvent(closed, e);
      EncodedStatus(e);
      ClosedFirst(s, Encode(e)[0], Encode(e)[1..]);
    }
  }

  lemma EncodedStatus(e: Event)
    requires e.Short? || e.Start?
    ensures Encode(e) != [] && Encode(e) == [Encode(e)[0]] + Encode(e)[1..]
    ensures Encode(e)[0] == if e.Start? then SYSEX_START else e.status
  {
  }

  lemma ClosedFirst(s: State, b: Byte, rest: seq<Byte>)
    requires s.inSysEx && IsStatus(b) && !IsRealTime(b) && b != SYSEX_END
    ensures var closed := s.(inSysEx := false, pendingStart := false);
            Run(s, [b] + rest) == Result(Run(closed, [b] + rest).state,
                                         StartIf(s.pendingStart) + [End] + Run(closed, [b] + rest).events)
  {
    hide Step, Run, StartIf;
    var closed := s.(inSysEx := false, pendingStart := false);
    RunConcat(s, [b], rest);
    RunConcat(closed, [b], rest);
    RunOne(s, b);
    RunOne(closed, b);
    SplitStep(s, b);
    Associative(StartIf(s.pendingStart) + [End], Step(closed, b).events, Run(Step(closed, b).state, rest).events);
  }

  lemma SplitStep(s: State, b: Byte)
    requires s.inSysEx && IsStatus(b) && !IsRealTime(b) && b != SYSEX_END
    ensures var closed := s.(inSysEx := false, pendingStart := false);
            Step(s, b) == Result(Step(closed, b).state, StartIf(s.pendingStart) + [End] + Step(closed, b).events)
  {
  }

  /** A receiver hears what was written, each stream that was cut short ended. */
  lemma {:induction false} Overheard(s: State, es: seq<Event>)
    requires s.Ok() && AllSound(es) && Mended(s.inSysEx, es).fits
    ensures var r := Run(s, FlatMap(Encode, es));
            var heard := Canonical(s.pendingStart, Mended(s.inSysEx, es).events);
            && r.state.Ok() && r.state.inSysEx == Mended(s.inSysEx, es).open
            && r.state.pendingStart == heard.pending && r.events == heard.events
  {
    if es != [] {
      var front, e := es[..|es| - 1], es[|es| - 1];
      Overheard(s, front);
      var r := Run(s, FlatMap(Encode, front));
      RunConcat(s, FlatMap(Encode, front), Encode(e));
      OverheardOne(r.state, e);
      CanonicalConcat(s.pendingStart, Mended(s.inSysEx, front).events, MendOne(r.state.inSysEx, e));
      hide Encode, Canonical, MendOne, OpenAfter, Sound, Run;
    }
  }

  /** What is heard is bracketed, and no short message is added or lost. */
  lemma {:induction false} MendedIsBracketed(open: bool, es: seq<Event>)
    requires Mended(open, es).fits
    ensures Track(open, Mended(open, es).events) == Some(Mended(open, es).open)
    ensures FlatMap(ShortOnly, Mended(open, es).events) == FlatMap(ShortOnly, es)
  {
    if es != [] {
      var front, e := es[..|es| - 1], es[|es| - 1];
      MendedIsBracketed(open, front);
      var before := Mended(open, front);
      TrackConcat(open, before.events, MendOne(before.open, e));
      FlatMapConcat(ShortOnly, before.events, MendOne(before.open, e));
      MendOneBracketed(before.open, e);
      hide MendOne, OpenAfter, ShortOnly, Track;
    }
  }

  lemma MendOneBracketed(open: bool, e: Event)
    requires e.Data? || e.End? ==> open
    ensures Track(open, MendOne(open, e)) == Some(OpenAfter(open, e))
    ensures FlatMap(ShortOnly, MendOne(open, e)) == ShortOnly(e)
  {
    TrackFew(open, MendOne(open, e));
    FlatMapOne(ShortOnly, e);
    FlatMapOne(ShortOnly, End);
    FlatMapSnoc(ShortOnly, [End], e);
    assert [End] + [e] == [End, e];
    hide Track, FlatMap;
  }

  lemma {:induction false} CanonicalShorts(pending: bool, es: seq<Event>)
    ensures FlatMap(ShortOnly, Canonical(pending, es).events) == FlatMap(ShortOnly, es)
  {
    if es != [] {
      var front, e := es[..|es| - 1], es[|es| - 1];
      CanonicalShorts(pending, front);
      var before := Canonical(pending, front);
      SettleShorts(before.pending, e);
      FlatMapConcat(ShortOnly, before.events, Settle(before.pending, e).events);
      hide Settle, ShortOnly;
    }
  }

  lemma SettleShorts(pending: bool, e: Event)
    ensures FlatMap(ShortOnly, Settle(pending, e).events) == ShortOnly(e)
  {
    FlatMapOne(ShortOnly, e);
    FlatMapOne(ShortOnly, Start);
    FlatMapSnoc(ShortOnly, [Start], e);
  }

  // --- One call ---

  lemma {:induction false} MendedData(bytes: seq<Byte>)
    ensures Mended(true, DataEvents(bytes)).open && Mended(true, DataEvents(bytes)).fits
  {
    if bytes != [] {
      MendedData(bytes[..|bytes| - 1]);
      assert DataEvents(bytes)[..|bytes| - 1] == DataEvents(bytes[..|bytes| - 1]);
    }
  }

  /** A frame a transport may take of a chunk: the end only after the payload. */
  lemma FrameFits(open: bool, start: bool, payload: seq<Byte>, end: bool)
    requires (start || open) && SevenBit(payload)
    ensures var es := StartIf(start) + DataEvents(payload) + EndIf(end);
            && AllSound(es) && Mended(open, es).fits && Mended(open, es).open == !end
            && FlatMap(Encode, es) ==
               (if start then [SYSEX_START] else []) + payload + (if end then [SYSEX_END] else [])
  {
    hide Encode, FlatMap, Mended, MendOne;
    MendedOne(open, Start);
    MendedOne(true, End);
    MendedNone(open);
    MendedNone(true);
    MendedData(payload);
    MendedConcat(open, StartIf(start), DataEvents(payload));
    MendedConcat(open, StartIf(start) + DataEvents(payload), EndIf(end));
    EncodedChunk(start, payload, end);
  }

  lemma MendedNone(open: bool)
    ensures Mended(open, []) == Mend(open, true, [])
  {
  }

  /** One call, whatever the transport refuses of it. */
  lemma OneCall(listening: bool, open: bool, m: Message, takes: Transport)
    requires (open ==> listening) && Handable(open, m)
    ensures var w := Written(open, m, takes);
            var es := Taken(open, m, takes);
            && w.wire == FlatMap(Encode, es) && AllSound(es) && Mended(listening, es).fits
            && (w.open ==> Mended(listening, es).open)
  {
    if !m.chunk {
      ShortCall(listening, open, m, takes);
    } else if m.chunkStart || open {
      ChunkCall(listening, open, m, takes);
    }
  }

  lemma ShortCall(listening: bool, open: bool, m: Message, takes: Transport)
    requires (open ==> listening) && Handable(open, m) && !m.chunk
    ensures var w := Written(open, m, takes);
            var es := Taken(open, m, takes);
            && w.wire == FlatMap(Encode, es) && AllSound(es) && Mended(listening, es).fits
            && (w.open ==> Mended(listening, es).open)
  {
    assert TakenFrom(Writes(m), takes, 0) == if takes(0) then Flatten(m) else [];
    EncodedMessage(m);
    FlatMapOne(Encode, Flatten(m)[0]);
    MendedOne(listening, Flatten(m)[0]);
    assert Flatten(m) == [Flatten(m)[0]];
    hide Encode, MendOne;
  }

  /** What of a chunk's start, payload and end is taken. */
  datatype Frame = Frame(start: bool, payload: seq<Byte>, end: bool)

  /** The payload only after the start, and the end only after the payload. */
  function FrameTaken(m: Message, takes: Transport): Frame {
    var next := if m.chunkStart then 1 else 0;
    var last := if m.payload == [] then next else next + 1;
    var framed := !m.chunkStart || takes(0);
    var whole := framed && (m.payload == [] || takes(next));
    Frame(m.chunkStart && takes(0), if whole then m.payload else [], whole && m.chunkEnd && takes(last))
  }

  lemma TakenIsFrame(open: bool, m: Message, takes: Transport)
    requires m.chunk && (m.chunkStart || open)
    ensures var f := FrameTaken(m, takes);
            Taken(open, m, takes) == StartIf(f.start) + DataEvents(f.payload) + EndIf(f.end)
  {
    var writes := Writes(m);
    var next := if m.chunkStart then 1 else 0;
    var last := if m.payload == [] then next else next + 1;
    assert DataEvents([]) == [];
    hide DataEvents;
    assert |writes| == last + if m.chunkEnd then 1 else 0;
    assert TakenFrom(writes, takes, last) == if m.chunkEnd && takes(last) then [End] else [];
    assert TakenFrom(writes, takes, next) ==
           if m.payload != [] && !takes(next) then [] else DataEvents(m.payload) + TakenFrom(writes, takes, last);
  }

  lemma WrittenIsFrame(open: bool, m: Message, takes: Transport)
    requires m.chunk && (m.chunkStart || open)
    ensures var f := FrameTaken(m, takes);
            var w := Written(open, m, takes);
            && w.wire == (if f.start then [SYSEX_START] else []) + f.payload + (if f.end then [SYSEX_END] else [])
            && (f.end || f.payload != [] || w.open ==> f.start || open) && (w.open ==> !f.end)
            && (f.payload == [] || f.payload == m.payload)
  {
  }

  lemma ChunkCall(listening: bool, open: bool, m: Message, takes: Transport)
    requires (open ==> listening) && m.chunk && SevenBit(m.payload) && (m.chunkStart || open)
    ensures var w := Written(open, m, takes);
            var es := Taken(open, m, takes);
            && w.wire == FlatMap(Encode, es) && AllSound(es) && Mended(listening, es).fits
            && (w.open ==> Mended(listening, es).open)
  {
    hide Written, Taken, FrameTaken, FlatMap, Encode, Mended;
    var f := FrameTaken(m, takes);
    TakenIsFrame(open, m, takes);
    WrittenIsFrame(open, m, takes);
    if f.start || open {
      FrameFits(listening, f.start, f.payload, f.end);
    } else {
      NothingTaken(listening);
    }
  }

  lemma NothingTaken(listening: bool)
    ensures FlatMap(Encode, []) == [] && Mended(listening, []) == Mend(listening, true, [])
    ensures StartIf(false) + DataEvents([]) + EndIf(false) == []
  {
  }

  // --- A session ---

  datatype Call = Call(m: Message, takes: Transport)

  /** `told`: the events of all writes the transport took. */
  datatype Session = Session(open: bool, wire: seq<Byte>, told: seq<Event>)

  function Converse(open: bool, calls: seq<Call>): Session {
    if calls == [] then Session(open, [], [])
    else
      var front := Converse(open, calls[..|calls| - 1]);
      var call := calls[|calls| - 1];
      var w := Written(front.open, call.m, call.takes);
      Session(w.open, front.wire + w.wire, front.told + Taken(front.open, call.m, call.takes))
  }

  ghost predicate Conversable(open: bool, calls: seq<Call>) {
    calls == [] ||
    (Conversable(open, calls[..|calls| - 1])
     && Handable(Converse(open, calls[..|calls| - 1]).open, calls[|calls| - 1].m))
  }

  lemma {:induction false} SessionFits(listening: bool, calls: seq<Call>)
    requires Conversable(false, calls)
    ensures var c := Converse(false, calls);
            && c.wire == FlatMap(Encode, c.told) && AllSound(c.told) && Mended(listening, c.told).fits
            && (c.open ==> Mended(listening, c.told).open)
  {
    if calls != [] {
      var front, call := calls[..|calls| - 1], calls[|calls| - 1];
      SessionFits(listening, front);
      var c := Converse(false, front);
      OneCall(Mended(listening, c.told).open, c.open, call.m, call.takes);
      FlatMapConcat(Encode, c.told, Taken(c.open, call.m, call.takes));
      MendedConcat(listening, c.told, Taken(c.open, call.m, call.takes));
      hide Encode, Written, Taken, Handable, Sound;
    }
  }

  /** However the transport refuses writes, a receiver hears exactly the events of
      the writes that were taken, in order, with an End where a later status byte
      cuts a stream short and each start reported with its first byte. So every
      stream it hears is bracketed, and the short messages are those taken:
      payload never reaches the wire outside a stream, where it would read as
      notes. */
  lemma NoPhantomMessages(s: State, calls: seq<Call>)
    requires s.Ok() && Conversable(false, calls)
    ensures var c := Converse(false, calls);
            var r := Run(s, c.wire);
            var heard := Mended(s.inSysEx, c.told);
            && r.state.Ok() && (c.open ==> r.state.inSysEx)
            && r.events == Canonical(s.pendingStart, heard.events).events
            && Track(s.inSysEx, heard.events) == Some(r.state.inSysEx)
            && FlatMap(ShortOnly, r.events) == FlatMap(ShortOnly, c.told)
  {
    hide Run, FlatMap, Canonical, Track, Mended;
    var c := Converse(false, calls);
    SessionFits(s.inSysEx, calls);
    Overheard(s, c.told);
    MendedIsBracketed(s.inSysEx, c.told);
    CanonicalShorts(s.pendingStart, Mended(s.inSysEx, c.told).events);
  }
}
