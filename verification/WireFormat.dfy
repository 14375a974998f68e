/** The wire in literal bytes: what the MIDI 1.0 messages look like to the parser
    and from the serializer, whatever the functions in between say. */
module WireFormat {
  import opened Midi
  import opened ByteParser
  import opened ByteSerializer

  lemma RunTwo(s: State, a: Byte, b: Byte)
    ensures Run(s, [a, b]).state == Step(Step(s, a).state, b).state
    ensures Run(s, [a, b]).events == Step(s, a).events + Step(Step(s, a).state, b).events
  {
    RunOne(s, a);
    RunSnoc(s, [a], b);
    assert [a] + [b] == [a, b];
    hide Step;
  }

  lemma RunThree(s: State, a: Byte, b: Byte, c: Byte)
    ensures Run(s, [a, b, c]).state == Step(Run(s, [a, b]).state, c).state
    ensures Run(s, [a, b, c]).events == Run(s, [a, b]).events + Step(Run(s, [a, b]).state, c).events
  {
    RunSnoc(s, [a, b], c);
    assert [a, b] + [c] == [a, b, c];
  }

  // --- From bytes to messages ---

  /** Note-off, note-on, polyphonic pressure, control change, pitch bend and Song
      Position take two data bytes; all but the last leave running status. */
  lemma TwoDataBytes(s: State, x: Byte, a: Byte, b: Byte)
    requires s.Ok() && !s.inSysEx && a < 0x80 && b < 0x80
    requires 0x80 <= x <= 0xbf || 0xe0 <= x <= 0xef || x == 0xf2
    ensures var r := Run(s, [x, a, b]);
            && r.events == [Short(x, a, b)]
            && r.state.Ok() && !r.state.inSysEx && r.state.status == 0
            && r.state.running == if x == 0xf2 then 0 else x
  {
    RunTwo(s, x, a);
    RunThree(s, x, a, b);
    var s1 := Step(s, x).state;
    assert s1.status == x && s1.count == 0 && s1.expected == 2 && Step(s, x).events == [];
    var s2 := Step(s1, a).state;
    assert s2.status == x && s2.count == 1 && s2.expected == 2 && s2.d0 == a && Step(s1, a).events == [];
    StepOk(s, x);
    StepOk(s1, a);
    StepOk(s2, b);
    hide Run;
  }

  /** Program change, channel pressure, MTC quarter frame and Song Select take one. */
  lemma OneDataByte(s: State, x: Byte, a: Byte)
    requires s.Ok() && !s.inSysEx && a < 0x80
    requires 0xc0 <= x <= 0xdf || x == 0xf1 || x == 0xf3
    ensures var r := Run(s, [x, a]);
            && r.events == [Short(x, a, 0)]
            && r.state.Ok() && !r.state.inSysEx && r.state.status == 0
            && r.state.running == if x >= 0xf0 then 0 else x
  {
    RunTwo(s, x, a);
    var s1 := Step(s, x).state;
    assert s1.status == x && s1.count == 0 && s1.expected == 1 && Step(s, x).events == [];
    StepOk(s, x);
    StepOk(s1, a);
    hide Run;
  }

  /** Tune Request is complete at once and cancels running status. Undefined
      statuses and a stray stream end report nothing and cancel it too. */
  lemma NoDataBytes(s: State, x: Byte)
    requires s.Ok() && !s.inSysEx && x in {0xf4, 0xf5, 0xf6, 0xf7}
    ensures var r := Run(s, [x]);
            && r.events == (if x == 0xf6 then [Short(0xf6, 0, 0)] else [])
            && r.state.Ok() && !r.state.inSysEx && r.state.status == 0 && r.state.running == 0
  {
    RunOne(s, x);
    StepOk(s, x);
    hide Run;
  }

  /** System Real-Time is complete at once and disturbs nothing, anywhere. */
  lemma RealTimeByte(s: State, x: Byte)
    requires 0xf8 <= x
    ensures Run(s, [x]) == Result(s, [Short(x, 0, 0)])
  {
    RunOne(s, x);
  }

  /** Under running status, data bytes alone are the next message. */
  lemma RunningData(s: State, a: Byte, b: Byte)
    requires s.Ok() && !s.inSysEx && s.status == 0 && a < 0x80 && b < 0x80
    ensures (0x80 <= s.running <= 0xbf || 0xe0 <= s.running <= 0xef) ==>
              Run(s, [a, b]).events == [Short(s.running, a, b)]
    ensures 0xc0 <= s.running <= 0xdf ==> Run(s, [a]).events == [Short(s.running, a, 0)]
    ensures s.running == 0 ==> Run(s, [a]) == Result(s, [])
  {
    RunOne(s, a);
    RunTwo(s, a, b);
    StepOk(s, a);
    hide Run;
  }

  /** A stream is what lies between 0xF0 and 0xF7, from any state outside one. */
  lemma StreamBytes(s: State, payload: seq<Byte>)
    requires s.Ok() && !s.inSysEx && SevenBit(payload)
    ensures Run(s, [0xf0] + payload + [0xf7]).events == [Start] + DataEvents(payload) + [End]
  {
    hide Run, FlatMap, Encode, Track, AllSound, Prompt;
    EncodedChunk(true, payload, true);
    TrackStream(payload);
    StreamIsPrompt(payload);
    RoundTrip(s, [Start] + DataEvents(payload) + [End]);
  }

  lemma StreamIsPrompt(payload: seq<Byte>)
    requires SevenBit(payload)
    ensures var es := [Start] + DataEvents(payload) + [End]; AllSound(es) && Prompt(es)
  {
  }

  lemma {:induction false} TrackData(bytes: seq<Byte>)
    ensures Track(true, DataEvents(bytes)) == Some(true)
  {
    if bytes != [] {
      TrackData(bytes[..|bytes| - 1]);
      assert DataEvents(bytes)[..|bytes| - 1] == DataEvents(bytes[..|bytes| - 1]);
    }
  }

  lemma TrackStream(payload: seq<Byte>)
    ensures Track(false, [Start] + DataEvents(payload) + [End]) == Some(false)
  {
    TrackData(payload);
    TrackFew(false, [Start]);
    TrackFew(true, [End]);
    TrackConcat(false, [Start], DataEvents(payload));
    TrackConcat(false, [Start] + DataEvents(payload), [End]);
    hide Track;
  }

  lemma {:induction false} NoEmptyMessage(ms: seq<Message>, port: Port)
    requires AllProper(ms, port)
    ensures |FlattenAll(ms)| >= |ms|
  {
    if ms != [] { NoEmptyMessage(ms[..|ms| - 1], port); }
  }

  /** What a parser emits for one short message is one message with these fields. */
  lemma OneShortMessage(ms: seq<Message>, port: Port, x: Byte, a: Byte, b: Byte)
    requires AllProper(ms, port) && FlattenAll(ms) == [Short(x, a, b)]
    ensures |ms| == 1
    ensures ms[0] == Message(port, x, a, b, ms[0].dataLength, false, false, false, [])
    ensures ms[0].dataLength == if 0xc0 <= x <= 0xdf || x == 0xf1 || x == 0xf3 then 1
                                else if x < 0xf0 || x == 0xf2 then 2 else 0
  {
    hide FlatMap, Flatten;
    NoEmptyMessage(ms, port);
    NothingMeansNothing();
    assert ms == [ms[0]];
    FlatMapOne(Flatten, ms[0]);
    OnlyShort(ms[0], x, a, b);
  }

  lemma NothingMeansNothing()
    ensures FlattenAll([]) == []
  {
  }

  lemma OnlyShort(m: Message, x: Byte, a: Byte, b: Byte)
    requires Proper(m) && Flatten(m) == [Short(x, a, b)]
    ensures !m.chunk && m == Message(m.port, x, a, b, m.dataLength, false, false, false, [])
    ensures m.dataLength == if 0xc0 <= x <= 0xdf || x == 0xf1 || x == 0xf3 then 1
                            else if x < 0xf0 || x == 0xf2 then 2 else 0
  {
    assert Flatten(m)[0] == Short(x, a, b);
  }

  // --- From messages to bytes ---

  /** A short message goes out as its status and as many data bytes as that status
      takes, 7 bits each; what is not a short message does not go out. */
  lemma ShortBytes(open: bool, m: Message)
    requires !m.chunk
    ensures var w := Written(open, m, TAKES_ALL);
            var a, b := m.data1 % 0x80, m.data2 % 0x80;
            && w.open == open
            && (0x80 <= m.status <= 0xbf || 0xe0 <= m.status <= 0xef || m.status == 0xf2 ==>
                  w.ok && w.wire == [m.status, a, b])
            && (0xc0 <= m.status <= 0xdf || m.status == 0xf1 || m.status == 0xf3 ==>
                  w.ok && w.wire == [m.status, a])
            && (m.status == 0xf6 || m.status >= 0xf8 ==> w.ok && w.wire == [m.status])
            && (m.status < 0x80 || m.status in {0xf0, 0xf4, 0xf5, 0xf7} ==> !w.ok && w.wire == [])
  {
  }

  /** A call succeeds exactly when the message can be written here and every write
      of it is taken; a chunk leaves the stream open exactly when its start and
      payload are through and its end is not asked for. */
  lemma CallSucceedsIff(open: bool, m: Message, takes: Transport)
    ensures var w := Written(open, m, takes);
            && (w.ok <==>
                && (if m.chunk then m.chunkStart || open
                    else m.status >= 0x80 && m.status !in {0xf0, 0xf4, 0xf5, 0xf7})
                && forall i :: 0 <= i < |Writes(m)| ==> takes(i))
            && (!m.chunk ==> w.open == open)
            && (m.chunk && m.chunkStart && !takes(0) ==> w.open == open)
            && (m.chunk && !m.chunkStart && !open ==> !w.open)
            && (m.chunk && (if m.chunkStart then takes(0) else open) ==>
                  (w.open <==> !m.chunkEnd && (m.payload == [] || takes(if m.chunkStart then 1 else 0))))
  {
    WritesMany(m);
    hide Writes, Encode;
  }

  lemma WritesMany(m: Message)
    ensures |Writes(m)| == if m.chunk then (if m.chunkStart then 1 else 0) + (if m.payload != [] then 1 else 0)
                                           + (if m.chunkEnd then 1 else 0)
                           else 1
  {
  }
}
