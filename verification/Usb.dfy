/** USB MIDI 1.0 event packets. The encoder packs a stream in threes and holds
    back up to two bytes; the decoder keeps one state per cable. */
module UsbPackets {
  import opened Midi
  import opened ByteSerializer

  const CABLES: nat := 16

  datatype Packet = Packet(header: Byte, b1: Byte, b2: Byte, b3: Byte)

  type CableId = c: int | 0 <= c < 16
  type Cin = c: int | 0 <= c < 16

  const SYSEX_MORE: Cin := 0x4
  const SYSEX_END1: Cin := 0x5

  function Header(cable: CableId, cin: Cin): Byte { cable * 16 + cin }

  /** Message bytes a Code Index Number is followed by; 0 for the reserved ones. */
  function CinLength(cin: Cin): nat {
    if cin in {0x2, 0x6, 0xc, 0xd} then 2
    else if cin in {0x3, 0x4, 0x7, 0x8, 0x9, 0xa, 0xb, 0xe} then 3
    else if cin in {0x5, 0xf} then 1
    else 0
  }

  predicate CinIsSysEx(cin: Cin) { 0x4 <= cin <= 0x7 }

  function CinForStatus(status: Byte): Cin {
    if IsChannelVoice(status) then status / 16
    else if status == 0xf1 || status == 0xf3 then 0x2
    else if status == 0xf2 then 0x3
    else if status == 0xf6 then 0x5
    else 0xf
  }

  function PacketBytes(p: Packet): seq<Byte> { [p.header, p.b1, p.b2, p.b3] }

  /** The whole packets of a transfer; a trailing part of one is ignored. */
  function Packets(data: seq<Byte>): seq<Packet> {
    seq(|data| / 4, i requires 0 <= i < |data| / 4 =>
      Packet(data[4 * i], data[4 * i + 1], data[4 * i + 2], data[4 * i + 3]))
  }

  lemma {:induction false} PacketsOfBytes(ps: seq<Packet>)
    ensures |FlatMap(PacketBytes, ps)| == 4 * |ps| && Packets(FlatMap(PacketBytes, ps)) == ps
  {
    if ps != [] {
      PacketsOfBytes(ps[..|ps| - 1]);
      var front := FlatMap(PacketBytes, ps[..|ps| - 1]);
      var all := FlatMap(PacketBytes, ps);
      assert all == front + PacketBytes(ps[|ps| - 1]);
      forall i | 0 <= i < |ps| ensures Packets(all)[i] == ps[i] {
        if i < |ps| - 1 { assert Packets(front)[i] == ps[..|ps| - 1][i]; }
      }
    }
  }

  // --- Encoding, event by event ---

  /** Bytes waiting for a third. */
  type Held = h: seq<Byte> | |h| <= 2

  datatype Encoder = Encoder(held: Held, inSysEx: bool)

  datatype Encoded = Encoded(state: Encoder, packets: seq<Packet>)

  function Push(cable: CableId, s: Encoder, b: Byte): Encoded {
    if |s.held| == 2
    then Encoded(s.(held := []), [Packet(Header(cable, SYSEX_MORE), s.held[0], s.held[1], b)])
    else Encoded(s.(held := s.held + [b]), [])
  }

  /** The closing packet: its CIN says how many bytes it carries. */
  function LastPacket(cable: CableId, held: Held): Packet {
    var last := held + [SYSEX_END];
    Packet(Header(cable, SYSEX_END1 + |held|), last[0],
           if |last| > 1 then last[1] else 0, if |last| > 2 then last[2] else 0)
  }

  function EncodeEvent(cable: CableId, s: Encoder, e: Event): Encoded {
    match e
    case Short(status, d1, d2) =>
      Encoded(s, if MessageDataLength(status) < 0 then []
                 else [Packet(Header(cable, CinForStatus(status)), status, d1, d2)])
    case Start => Push(cable, Encoder([], true), SYSEX_START)
    case Data(b) => Push(cable, s, b)
    case End => Encoded(Encoder([], false), [LastPacket(cable, s.held)])
  }

  function EncodeEvents(cable: CableId, s: Encoder, es: seq<Event>): Encoded {
    if es == [] then Encoded(s, [])
    else
      var front := EncodeEvents(cable, s, es[..|es| - 1]);
      var last := EncodeEvent(cable, front.state, es[|es| - 1]);
      Encoded(last.state, front.packets + last.packets)
  }

  function SevenBits(bytes: seq<Byte>): seq<Byte> {
    seq(|bytes|, i requires 0 <= i < |bytes| => bytes[i] % 0x80)
  }

  function Masked(m: Message): Message {
    m.(data1 := m.data1 % 0x80, data2 := m.data2 % 0x80, payload := SevenBits(m.payload))
  }

  function EncodeMessage(cable: CableId, s: Encoder, m: Message): Encoded {
    if m.Continuation() && !s.inSysEx then Encoded(s, [])
    else EncodeEvents(cable, s, Flatten(Masked(m)))
  }

  function MaxEncodedBytes(m: Message): nat {
    if !m.chunk then 4 else (|m.payload| + 4 + 2) / 3 * 4
  }

  // --- Decoding ---

  datatype Cable = Cable(port: Port, inSysEx: bool, pendingStart: bool)

  datatype Decoded = Decoded(cable: Cable, out: seq<Message>)

  function DecodeShort(c: Cable, p: Packet): Decoded {
    var n := MessageDataLength(p.b1);
    Decoded(c, if n < 0 then []
               else [ShortMessage(c.port, p.b1, if n >= 1 then p.b2 else 0, if n >= 2 then p.b3 else 0, n)])
  }

  function DecodeOne(c: Cable, p: Packet): Decoded {
    var cin := p.header % 16;
    var length := CinLength(cin);
    if length == 0 then Decoded(c, [])
    else if !CinIsSysEx(cin) || (cin == SYSEX_END1 && p.b1 != SYSEX_END) then DecodeShort(c, p)
    else DecodeStream(c, cin, [p.b1, p.b2, p.b3][..length])
  }

  /** A packet of a stream: the framing bytes are not part of the payload. */
  function DecodeStream(c: Cable, cin: Cin, bytes: seq<Byte>): Decoded
    requires bytes != []
  {
    if !c.inSysEx && bytes[0] != SYSEX_START then Decoded(c, [])
    else
      var body := if c.inSysEx then bytes else bytes[1..];
      var payload := if body != [] && body[|body| - 1] == SYSEX_END then body[..|body| - 1] else body;
      var end := cin != SYSEX_MORE;
      Decoded(Cable(c.port, !end, false), [ChunkMessage(c.port, !c.inSysEx || c.pendingStart, end, payload)])
  }

  function DecodeCable(c: Cable, ps: seq<Packet>): Decoded {
    if ps == [] then Decoded(c, [])
    else
      var front := DecodeCable(c, ps[..|ps| - 1]);
      var last := DecodeOne(front.cable, ps[|ps| - 1]);
      Decoded(last.cable, front.out + last.out)
  }

  lemma {:induction false} DecodeConcat(c: Cable, a: seq<Packet>, b: seq<Packet>)
    ensures DecodeCable(c, a + b).cable == DecodeCable(DecodeCable(c, a).cable, b).cable
    ensures DecodeCable(c, a + b).out == DecodeCable(c, a).out + DecodeCable(DecodeCable(c, a).cable, b).out
  {
    if b == [] {
      assert a + b == a;
    } else {
      assert (a + b)[..|a + b| - 1] == a + b[..|b| - 1];
      DecodeConcat(c, a, b[..|b| - 1]);
      hide DecodeOne;
    }
  }

  lemma DecodePacketList(c: Cable, ps: seq<Packet>)
    requires |ps| <= 1
    ensures ps == [] ==> DecodeCable(c, ps) == Decoded(c, [])
    ensures |ps| == 1 ==> DecodeCable(c, ps) == DecodeOne(c, ps[0])
  {
    if |ps| == 1 { assert ps[..0] == []; }
  }

  // --- One cable: what the decoder has got of what the encoder was given ---

  function StreamOnly(e: Event): seq<Event> { if e.Short? then [] else [e] }

  function HeldEvent(b: Byte): Event { if b == SYSEX_START then Start else Data(b) }

  function HeldEvents(held: seq<Byte>): seq<Event> {
    seq(|held|, i requires 0 <= i < |held| => HeldEvent(held[i]))
  }

  predicate StartHeld(held: seq<Byte>) { held != [] && held[0] == SYSEX_START }

  ghost predicate HeldOk(held: seq<Byte>) {
    forall i :: 0 <= i < |held| ==> held[i] < 0x80 || (i == 0 && held[i] == SYSEX_START)
  }

  /** For each short message in order, how many stream events come before it. */
  function Depths(es: seq<Event>): seq<nat> {
    if es == [] then []
    else
      var front, e := es[..|es| - 1], es[|es| - 1];
      Depths(front) + if e.Short? then [|FlatMap(StreamOnly, front)|] else []
  }

  /** No short message comes earlier than it was sent by more than two bytes of
      the stream, and none comes later. */
  ghost predicate OvertakesTwo(sent: seq<Event>, got: seq<Event>) {
    && |Depths(got)| == |Depths(sent)|
    && forall k :: 0 <= k < |Depths(sent)| ==> Depths(got)[k] <= Depths(sent)[k] <= Depths(got)[k] + 2
  }

  lemma DepthsSnoc(es: seq<Event>, e: Event)
    ensures Depths(es + [e]) == Depths(es) + if e.Short? then [|FlatMap(StreamOnly, es)|] else []
  {
    assert (es + [e])[..|es|] == es;
  }

  lemma {:induction false} DepthsOfStream(es: seq<Event>, more: seq<Event>)
    requires forall i :: 0 <= i < |more| ==> !more[i].Short?
    ensures Depths(es + more) == Depths(es)
  {
    if more == [] {
      assert es + more == es;
    } else {
      DepthsOfStream(es, more[..|more| - 1]);
      DepthsSnoc(es + more[..|more| - 1], more[|more| - 1]);
      assert es + more == es + more[..|more| - 1] + [more[|more| - 1]];
    }
  }

  /** One more event: a short message arrives at once, so it overtakes what is
      held back and no more. */
  lemma MoreOvertakes(held: Held, sent: seq<Event>, got: seq<Event>, e: Event, more: seq<Event>)
    requires OvertakesTwo(sent, got) && FlatMap(StreamOnly, sent) == FlatMap(StreamOnly, got) + HeldEvents(held)
    requires if e.Short? then more == [e] else forall i :: 0 <= i < |more| ==> !more[i].Short?
    ensures OvertakesTwo(sent + [e], got + more)
  {
    DepthsSnoc(sent, e);
    if e.Short? { DepthsSnoc(got, e); } else { DepthsOfStream(got, more); }
    hide Depths, FlatMap;
  }

  /** Decoded so far: all the short messages, and all of the stream but the bytes
      held back, of which there are at most two. */
  ghost predicate Linked(s: Encoder, c: Cable, sent: seq<Event>, got: seq<Event>) {
    && HeldOk(s.held) && (!s.inSysEx ==> s.held == []) && !c.pendingStart
    && c.inSysEx == (s.inSysEx && !StartHeld(s.held))
    && Track(false, sent) == Some(s.inSysEx) && Track(false, got) == Some(c.inSysEx)
    && FlatMap(ShortOnly, sent) == FlatMap(ShortOnly, got)
    && FlatMap(StreamOnly, sent) == FlatMap(StreamOnly, got) + HeldEvents(s.held)
    && OvertakesTwo(sent, got)
  }

  lemma {:induction false} HeldIsStream(es: seq<Event>)
    requires forall i :: 0 <= i < |es| ==> !es[i].Short?
    ensures FlatMap(StreamOnly, es) == es && FlatMap(ShortOnly, es) == []
  {
    if es != [] { HeldIsStream(es[..|es| - 1]); }
  }

  /** A packet in the middle of a stream, or at its start, decodes to its bytes. */
  lemma DecodeFull(cable: CableId, c: Cable, a: Byte, b: Byte, d: Byte)
    requires !c.pendingStart && b < 0x80 && d < 0x80
    requires if c.inSysEx then a < 0x80 else a == SYSEX_START
    ensures var r := DecodeOne(c, Packet(Header(cable, SYSEX_MORE), a, b, d));
            && r.cable == Cable(c.port, true, false) && FlattenAll(r.out) == HeldEvents([a, b, d])
  {
    hide FlatMap;
    assert [a, b, d][..3] == [a, b, d];
    DecodeMiddle(c, a, b, d);
    assert Header(cable, SYSEX_MORE) % 16 == SYSEX_MORE;
    hide DecodeStream;
  }

  lemma DecodeMiddle(c: Cable, a: Byte, b: Byte, d: Byte)
    requires !c.pendingStart && b < 0x80 && d < 0x80
    requires if c.inSysEx then a < 0x80 else a == SYSEX_START
    ensures var r := DecodeStream(c, SYSEX_MORE, [a, b, d]);
            && r.cable == Cable(c.port, true, false) && FlattenAll(r.out) == HeldEvents([a, b, d])
  {
    hide FlatMap;
    assert [a, b, d][1..] == [b, d];
    FlatMapOne(Flatten, DecodeStream(c, SYSEX_MORE, [a, b, d]).out[0]);
  }

  /** The closing packet decodes to the bytes held back and the end. */
  lemma DecodeLast(cable: CableId, c: Cable, held: Held)
    requires !c.pendingStart && HeldOk(held) && c.inSysEx == !StartHeld(held)
    ensures var r := DecodeOne(c, LastPacket(cable, held));
            && r.cable == Cable(c.port, false, false) && FlattenAll(r.out) == HeldEvents(held) + [End]
  {
    LastPacketBytes(cable, c, held);
    hide LastPacket, DecodeOne, FlatMap;
    var bytes := held + [SYSEX_END];
    var body := if c.inSysEx then bytes else bytes[1..];
    assert body[|body| - 1] == SYSEX_END && body[..|body| - 1] == if c.inSysEx then held else held[1..];
    FlatMapOne(Flatten, DecodeStream(c, SYSEX_END1 + |held|, bytes).out[0]);
  }

  lemma LastPacketBytes(cable: CableId, c: Cable, held: Held)
    ensures DecodeOne(c, LastPacket(cable, held)) == DecodeStream(c, SYSEX_END1 + |held|, held + [SYSEX_END])
  {
    hide DecodeStream;
    var p := LastPacket(cable, held);
    assert p.header % 16 == SYSEX_END1 + |held|;
    assert [p.b1, p.b2, p.b3][..|held| + 1] == held + [SYSEX_END];
    assert |held| == 0 ==> p.b1 == SYSEX_END;
  }

  lemma DecodeShortPacket(cable: CableId, c: Cable, e: Event)
    requires e.Short? && Sound(e)
    ensures var r := DecodeOne(c, Packet(Header(cable, CinForStatus(e.status)), e.status, e.d1, e.d2));
            r.cable == c && FlattenAll(r.out) == [e]
  {
    var r := DecodeOne(c, Packet(Header(cable, CinForStatus(e.status)), e.status, e.d1, e.d2));
    FlatMapOne(Flatten, r.out[0]);
  }

  /** The decoded side of one event's packets. */
  function Heard(cable: CableId, s: Encoder, c: Cable, e: Event): Decoded {
    DecodeCable(c, EncodeEvent(cable, s, e).packets)
  }

  lemma HeardEvents(cable: CableId, s: Encoder, c: Cable, e: Event)
    requires HeldOk(s.held) && (!s.inSysEx ==> s.held == []) && !c.pendingStart && Sound(e)
    requires c.inSysEx == (s.inSysEx && !StartHeld(s.held)) && After(s.inSysEx, e).Some?
    ensures var t := EncodeEvent(cable, s, e).state;
            var r := Heard(cable, s, c, e);
            && HeldOk(t.held) && (!t.inSysEx ==> t.held == []) && Some(t.inSysEx) == After(s.inSysEx, e)
            && !r.cable.pendingStart && r.cable.inSysEx == (t.inSysEx && !StartHeld(t.held))
            && r.cable.port == c.port
            && (if e.Short? then t == s && FlattenAll(r.out) == [e]
                else FlattenAll(r.out) + HeldEvents(t.held) == HeldEvents(s.held) + [e])
  {
    hide DecodeOne, LastPacket, FlatMap, Flatten;
    match e
    case Short(_, _, _) => DecodePacketList(c, EncodeEvent(cable, s, e).packets); DecodeShortPacket(cable, c, e);
    case Start => HeardNothing(cable, s, c, e);
    case Data(b) => if |s.held| == 2 { HeardFull(cable, s, c, b); } else { HeardNothing(cable, s, c, e); }
    case End => DecodePacketList(c, EncodeEvent(cable, s, e).packets); DecodeLast(cable, c, s.held);
  }

  lemma HeardNothing(cable: CableId, s: Encoder, c: Cable, e: Event)
    requires EncodeEvent(cable, s, e).packets == []
    ensures Heard(cable, s, c, e) == Decoded(c, []) && FlattenAll([]) == []
  {
  }

  lemma HeardFull(cable: CableId, s: Encoder, c: Cable, b: Byte)
    requires |s.held| == 2 && HeldOk(s.held) && !c.pendingStart && b < 0x80
    requires c.inSysEx == !StartHeld(s.held)
    ensures var r := Heard(cable, s, c, Data(b));
            r.cable == Cable(c.port, true, false) && FlattenAll(r.out) == HeldEvents(s.held) + [Data(b)]
  {
    hide DecodeOne, FlatMap, Flatten;
    DecodePacketList(c, EncodeEvent(cable, s, Data(b)).packets);
    DecodeFull(cable, c, s.held[0], s.held[1], b);
    assert HeldEvents([s.held[0], s.held[1], b]) == HeldEvents(s.held) + [Data(b)];
  }

  lemma LinkedStep(cable: CableId, s: Encoder, c: Cable, sent: seq<Event>, got: seq<Event>, e: Event)
    requires Linked(s, c, sent, got) && Sound(e) && After(s.inSysEx, e).Some?
    ensures var r := Heard(cable, s, c, e);
            Linked(EncodeEvent(cable, s, e).state, r.cable, sent + [e], got + FlattenAll(r.out))
  {
    hide Heard, EncodeEvent, Flatten, HeldOk, StartHeld, Sound;
    var t := EncodeEvent(cable, s, e).state;
    var r := Heard(cable, s, c, e);
    HeardEvents(cable, s, c, e);
    MoreLinked(s, c, t, r.cable, e, FlattenAll(r.out));
    LinkedSums(s.held, t.held, sent, got, e, FlattenAll(r.out));
    MoreOvertakes(s.held, sent, got, e, FlattenAll(r.out));
    TrackSnoc(sent, e);
    TrackConcat(false, got, FlattenAll(r.out));
    hide Track, OvertakesTwo;
  }

  lemma TrackSnoc(es: seq<Event>, e: Event)
    ensures Track(false, es + [e]) == Then(Track(false, es), e)
  {
    assert (es + [e])[..|es|] == es;
  }

  lemma LinkedSums(before: Held, after: Held, sent: seq<Event>, got: seq<Event>, e: Event, more: seq<Event>)
    requires FlatMap(ShortOnly, sent) == FlatMap(ShortOnly, got)
    requires FlatMap(StreamOnly, sent) == FlatMap(StreamOnly, got) + HeldEvents(before)
    requires FlatMap(ShortOnly, more) == ShortOnly(e)
    requires HeldEvents(before) + StreamOnly(e) == FlatMap(StreamOnly, more) + HeldEvents(after)
    ensures FlatMap(ShortOnly, sent + [e]) == FlatMap(ShortOnly, got + more)
    ensures FlatMap(StreamOnly, sent + [e]) == FlatMap(StreamOnly, got + more) + HeldEvents(after)
  {
    hide StreamOnly, ShortOnly, HeldEvents;
    FlatMapSnoc(ShortOnly, sent, e);
    FlatMapSnoc(StreamOnly, sent, e);
    FlatMapConcat(ShortOnly, got, more);
    FlatMapConcat(StreamOnly, got, more);
    hide FlatMap;
    Associative(FlatMap(StreamOnly, got), HeldEvents(before), StreamOnly(e));
    Associative(FlatMap(StreamOnly, got), FlatMap(StreamOnly, more), HeldEvents(after));
  }

  lemma TrackMore(s: Encoder, c: Cable, t: Encoder, d: Cable, e: Event, more: seq<Event>)
    requires HeldOk(s.held) && HeldOk(t.held) && After(s.inSysEx, e) == Some(t.inSysEx) && !e.Short?
    requires (!s.inSysEx ==> s.held == []) && (!t.inSysEx ==> t.held == [])
    requires c.inSysEx == (s.inSysEx && !StartHeld(s.held)) && d.inSysEx == (t.inSysEx && !StartHeld(t.held))
    requires more + HeldEvents(t.held) == HeldEvents(s.held) + [e]
    ensures Track(c.inSysEx, more) == Some(d.inSysEx)
  {
    var all := HeldEvents(s.held) + [e];
    assert |more| + |t.held| == |s.held| + 1;
    assert forall i :: 0 <= i < |more| ==> more[i] == all[i];
    assert forall i :: 0 <= i < |t.held| ==> HeldEvent(t.held[i]) == all[|more| + i] by {
      assert forall i :: 0 <= i < |t.held| ==> (more + HeldEvents(t.held))[|more| + i] == HeldEvent(t.held[i]);
    }
    TrackFew(c.inSysEx, more);
    hide Track;
  }

  /** What decoding adds, sorted into short messages and stream. */
  lemma MoreLinked(s: Encoder, c: Cable, t: Encoder, d: Cable, e: Event, more: seq<Event>)
    requires HeldOk(s.held) && HeldOk(t.held) && After(s.inSysEx, e) == Some(t.inSysEx)
    requires (!s.inSysEx ==> s.held == []) && (!t.inSysEx ==> t.held == [])
    requires c.inSysEx == (s.inSysEx && !StartHeld(s.held)) && d.inSysEx == (t.inSysEx && !StartHeld(t.held))
    requires if e.Short? then t == s && more == [e] else more + HeldEvents(t.held) == HeldEvents(s.held) + [e]
    ensures FlatMap(ShortOnly, more) == ShortOnly(e)
    ensures HeldEvents(s.held) + StreamOnly(e) == FlatMap(StreamOnly, more) + HeldEvents(t.held)
    ensures Track(c.inSysEx, more) == Some(d.inSysEx)
    ensures if e.Short? then more == [e] else forall i :: 0 <= i < |more| ==> !more[i].Short?
  {
    hide Track, FlatMap, HeldOk;
    if e.Short? {
      FlatMapOne(ShortOnly, e);
      FlatMapOne(StreamOnly, e);
      TrackFew(c.inSysEx, [e]);
    } else {
      assert more == (HeldEvents(s.held) + [e])[..|more|];
      HeldIsStream(more);
      TrackMore(s, c, t, d, e, more);
    }
  }

  /** Whatever packets arrive, a cable's stream is reported bracketed: no chunk
      without a start, no start inside a stream, no end without one. */
  lemma {:induction false} DecodedIsBracketed(c: Cable, ps: seq<Packet>)
    requires !c.pendingStart
    ensures var r := DecodeCable(c, ps);
            && !r.cable.pendingStart
            && Track(c.inSysEx, FlatMap(StreamOnly, FlattenAll(r.out))) == Some(r.cable.inSysEx)
  {
    if ps != [] {
      var front, p := ps[..|ps| - 1], ps[|ps| - 1];
      DecodedIsBracketed(c, front);
      var before := DecodeCable(c, front);
      var last := DecodeOne(before.cable, p);
      OneIsBracketed(before.cable, p);
      FlatMapConcat(Flatten, before.out, last.out);
      FlatMapConcat(StreamOnly, FlattenAll(before.out), FlattenAll(last.out));
      TrackConcat(c.inSysEx, FlatMap(StreamOnly, FlattenAll(before.out)), FlatMap(StreamOnly, FlattenAll(last.out)));
    }
    hide DecodeOne, FlatMap, Flatten, StreamOnly;
  }

  lemma OneIsBracketed(c: Cable, p: Packet)
    requires !c.pendingStart
    ensures var r := DecodeOne(c, p);
            && !r.cable.pendingStart
            && Track(c.inSysEx, FlatMap(StreamOnly, FlattenAll(r.out))) == Some(r.cable.inSysEx)
  {
    var r := DecodeOne(c, p);
    OneIsWellFormed(c, p);
    hide DecodeOne, FlatMap, Flatten, ChunkMessage, ShortMessage;
    if r.out != [] {
      var m := r.out[0];
      assert r.out == [m];
      FlatMapOne(Flatten, m);
      if m.chunk { ChunkStream(c.inSysEx, m); } else { ShortStream(m); }
    } else {
      NothingIsNothing();
    }
  }

  lemma NothingIsNothing()
    ensures FlatMap(StreamOnly, FlattenAll([])) == []
  {
  }

  /** A packet gives at most one message, and a chunk starts exactly when its cable was not in a stream. */
  lemma OneIsWellFormed(c: Cable, p: Packet)
    requires !c.pendingStart
    ensures var r := DecodeOne(c, p);
            && !r.cable.pendingStart && |r.out| <= 1
            && (r.out == [] || !r.out[0].chunk ==> r.cable == c)
            && (r.out != [] && r.out[0].chunk ==>
                r.out[0].chunkStart == !c.inSysEx && r.cable.inSysEx == !r.out[0].chunkEnd)
  {
  }

  lemma ShortStream(m: Message)
    requires !m.chunk
    ensures FlatMap(StreamOnly, Flatten(m)) == []
  {
    FlatMapOne(StreamOnly, Flatten(m)[0]);
  }

  lemma ChunkStream(open: bool, m: Message)
    requires m.chunk && m.chunkStart == !open
    ensures Track(open, FlatMap(StreamOnly, Flatten(m))) == Some(!m.chunkEnd)
  {
    HeldIsStream(Flatten(m));
    ChunkIsBracketed(open, m);
    hide Track, FlatMap, StreamOnly;
  }

  lemma ChunkIsBracketed(open: bool, m: Message)
    requires m.chunk && m.chunkStart == !open
    ensures Track(open, Flatten(m)) == Some(!m.chunkEnd)
  {
    TrackConcat(open, StartIf(m.chunkStart) + DataEvents(m.payload), EndIf(m.chunkEnd));
    TrackConcat(open, StartIf(m.chunkStart), DataEvents(m.payload));
    TrackFew(open, StartIf(m.chunkStart));
    TrackFew(true, EndIf(m.chunkEnd));
    TrackPayload(m.payload);
    hide Track;
  }

  lemma {:induction false} TrackPayload(bytes: seq<Byte>)
    ensures Track(true, DataEvents(bytes)) == Some(true)
  {
    if bytes != [] {
      assert DataEvents(bytes)[..|bytes| - 1] == DataEvents(bytes[..|bytes| - 1]);
      TrackPayload(bytes[..|bytes| - 1]);
    }
  }

  // --- Whole messages, and the bus ---

  /** Events sent from a linked state stay linked. */
  lemma {:induction false} LinkedEvents(cable: CableId, s: Encoder, c: Cable, sent: seq<Event>, got: seq<Event>,
                                        es: seq<Event>)
    requires Linked(s, c, sent, got) && AllSound(es) && Track(s.inSysEx, es).Some?
    ensures var coded := EncodeEvents(cable, s, es);
            var r := DecodeCable(c, coded.packets);
            && Linked(coded.state, r.cable, sent + es, got + FlattenAll(r.out))
            && Some(coded.state.inSysEx) == Track(s.inSysEx, es)
  {
    hide EncodeEvents, DecodeCable, Linked, FlatMap, After;
    if es == [] {
      LinkedNone(cable, s, c, sent, got);
    } else {
      var front, e := es[..|es| - 1], es[|es| - 1];
      LinkedEvents(cable, s, c, sent, got, front);
      LinkedOneMore(cable, s, c, sent, got, front, e);
      assert es == front + [e];
    }
  }

  lemma LinkedNone(cable: CableId, s: Encoder, c: Cable, sent: seq<Event>, got: seq<Event>)
    ensures EncodeEvents(cable, s, []) == Encoded(s, []) && DecodeCable(c, []) == Decoded(c, [])
    ensures sent + [] == sent && got + FlattenAll([]) == got
  {
  }

  lemma LinkedOneMore(cable: CableId, s: Encoder, c: Cable, sent: seq<Event>, got: seq<Event>, front: seq<Event>,
                      e: Event)
    requires Sound(e)
    requires var coded := EncodeEvents(cable, s, front);
             var r := DecodeCable(c, coded.packets);
             && After(coded.state.inSysEx, e).Some?
             && Linked(coded.state, r.cable, sent + front, got + FlattenAll(r.out))
    ensures var coded := EncodeEvents(cable, s, front + [e]);
            var r := DecodeCable(c, coded.packets);
            && Linked(coded.state, r.cable, sent + (front + [e]), got + FlattenAll(r.out))
            && Some(coded.state.inSysEx) == After(EncodeEvents(cable, s, front).state.inSysEx, e)
  {
    var coded := EncodeEvents(cable, s, front);
    var r := DecodeCable(c, coded.packets);
    var last := Heard(cable, coded.state, r.cable, e);
    LinkedStep(cable, coded.state, r.cable, sent + front, got + FlattenAll(r.out), e);
    EncodedInSysEx(cable, coded.state, e);
    assert (front + [e])[..|front|] == front;
    hide Linked, EncodeEvent, Flatten, After, DecodeCable, FlatMap;
    DecodeConcat(c, coded.packets, EncodeEvent(cable, coded.state, e).packets);
    FlatMapConcat(Flatten, r.out, last.out);
    Associative(got, FlattenAll(r.out), FlattenAll(last.out));
    Associative(sent, front, [e]);
  }

  lemma EncodedInSysEx(cable: CableId, s: Encoder, e: Event)
    requires After(s.inSysEx, e).Some?
    ensures Some(EncodeEvent(cable, s, e).state.inSysEx) == After(s.inSysEx, e)
  {
  }

  datatype Sending = Sending(cable: CableId, m: Message)

  /** The sixteen encoders of one endpoint and the packets they have written. */
  datatype Bus = Bus(encoders: seq<Encoder>, packets: seq<Packet>)

  const QUIET: Encoder := Encoder([], false)

  function Send(b: Bus, x: Sending): (t: Bus)
    requires |b.encoders| == CABLES
    ensures |t.encoders| == CABLES
  {
    var coded := EncodeMessage(x.cable, b.encoders[x.cable], x.m);
    Bus(b.encoders[x.cable := coded.state], b.packets + coded.packets)
  }

  function SendAll(xs: seq<Sending>): (t: Bus)
    ensures |t.encoders| == CABLES
  {
    if xs == [] then Bus(seq(CABLES, _ => QUIET), []) else Send(SendAll(xs[..|xs| - 1]), xs[|xs| - 1])
  }

  /** What one cable was given, and the packets that carry its number. */
  function Given(xs: seq<Sending>, cable: CableId): seq<Message> {
    if xs == [] then []
    else
      var x := xs[|xs| - 1];
      Given(xs[..|xs| - 1], cable) + if x.cable == cable then [x.m] else []
  }

  function OnCable(ps: seq<Packet>, cable: CableId): seq<Packet> {
    if ps == [] then []
    else
      var p := ps[|ps| - 1];
      OnCable(ps[..|ps| - 1], cable) + if p.header / 16 == cable then [p] else []
  }

  lemma {:induction false} OnCableConcat(a: seq<Packet>, b: seq<Packet>, cable: CableId)
    ensures OnCable(a + b, cable) == OnCable(a, cable) + OnCable(b, cable)
  {
    if b == [] {
      assert a + b == a;
    } else {
      assert (a + b)[..|a + b| - 1] == a + b[..|b| - 1];
      OnCableConcat(a, b[..|b| - 1], cable);
    }
  }

  /** An encoder stamps its own cable on every packet. */
  lemma {:induction false} Stamped(cable: CableId, s: Encoder, es: seq<Event>, other: CableId)
    ensures var ps := EncodeEvents(cable, s, es).packets;
            OnCable(ps, other) == if other == cable then ps else []
  {
    if es == [] {
      assert OnCable([], other) == [];
    } else {
      Stamped(cable, s, es[..|es| - 1], other);
      var front := EncodeEvents(cable, s, es[..|es| - 1]);
      var last := EncodeEvent(cable, front.state, es[|es| - 1]);
      EventStamped(cable, front.state, es[|es| - 1]);
      StampedOne(last.packets, cable, other);
      OnCableConcat(front.packets, last.packets, other);
    }
    hide EncodeEvent, OnCable;
  }

  lemma EventStamped(cable: CableId, s: Encoder, e: Event)
    ensures var ps := EncodeEvent(cable, s, e).packets;
            |ps| <= 1 && (ps != [] ==> ps[0].header / 16 == cable)
  {
  }

  lemma StampedOne(ps: seq<Packet>, cable: CableId, other: CableId)
    requires |ps| <= 1 && (ps != [] ==> ps[0].header / 16 == cable)
    ensures OnCable(ps, other) == if other == cable then ps else []
  {
    if ps != [] { assert ps[..0] == []; }
  }

  /** 7-bit messages, bracketed: what routing hands one output. */
  ghost predicate Bracketed(ms: seq<Message>) {
    && (forall i :: 0 <= i < |ms| ==> AllSound(Flatten(ms[i])) && Masked(ms[i]) == ms[i])
    && Track(false, FlattenAll(ms)).Some?
  }

  lemma BracketedFront(ms: seq<Message>)
    requires ms != [] && Bracketed(ms)
    ensures Bracketed(ms[..|ms| - 1])
    ensures var open := Track(false, FlattenAll(ms[..|ms| - 1])).value;
            Track(open, Flatten(ms[|ms| - 1])).Some?
  {
    TrackConcat(false, FlattenAll(ms[..|ms| - 1]), Flatten(ms[|ms| - 1]));
  }

  /** In a bracketed order the encoder never meets a stray continuation. */
  lemma MessageIsEvents(cable: CableId, s: Encoder, m: Message)
    requires Track(s.inSysEx, Flatten(m)).Some? && Masked(m) == m
    ensures EncodeMessage(cable, s, m) == EncodeEvents(cable, s, Flatten(m))
  {
    if m.Continuation() && !s.inSysEx && Flatten(m) != [] {
      var es := Flatten(m);
      assert es == [es[0]] + es[1..];
      TrackConcat(false, [es[0]], es[1..]);
      TrackFew(false, [es[0]]);
    }
  }

  const FRESH_CABLE: Cable := Cable(INVALID, false, false)

  lemma {:induction false} CableLinked(xs: seq<Sending>, cable: CableId, c: Cable)
    requires Bracketed(Given(xs, cable)) && !c.inSysEx && !c.pendingStart
    ensures var b := SendAll(xs);
            var r := DecodeCable(c, OnCable(b.packets, cable));
            Linked(b.encoders[cable], r.cable, FlattenAll(Given(xs, cable)), FlattenAll(r.out))
  {
    if xs != [] {
      var front, x := xs[..|xs| - 1], xs[|xs| - 1];
      var before, ms := Given(front, cable), Given(xs, cable);
      if x.cable == cable {
        assert ms == before + [x.m] && ms[..|ms| - 1] == before;
        BracketedFront(ms);
        CableLinked(front, cable, c);
        CableStep(front, x, c);
      } else {
        assert ms == before;
        CableLinked(front, cable, c);
        OtherCableStep(front, x, cable);
      }
      assert SendAll(xs) == Send(SendAll(front), x);
    }
    hide Send, DecodeCable, OnCable, FlatMap;
  }

  lemma CableStep(front: seq<Sending>, x: Sending, c: Cable)
    requires var b := SendAll(front);
             var r := DecodeCable(c, OnCable(b.packets, x.cable));
             && Linked(b.encoders[x.cable], r.cable, FlattenAll(Given(front, x.cable)), FlattenAll(r.out))
             && AllSound(Flatten(x.m)) && Masked(x.m) == x.m
             && Track(b.encoders[x.cable].inSysEx, Flatten(x.m)).Some?
    ensures var b := Send(SendAll(front), x);
            var r := DecodeCable(c, OnCable(b.packets, x.cable));
            Linked(b.encoders[x.cable], r.cable, FlattenAll(Given(front, x.cable) + [x.m]), FlattenAll(r.out))
  {
    hide Linked, Flatten, Given, SendAll, Track, AllSound, Masked;
    var b := SendAll(front);
    var s := b.encoders[x.cable];
    var heard := OnCable(b.packets, x.cable);
    var r := DecodeCable(c, heard);
    var coded := EncodeEvents(x.cable, s, Flatten(x.m));
    MessageIsEvents(x.cable, s, x.m);
    LinkedEvents(x.cable, s, r.cable, FlattenAll(Given(front, x.cable)), FlattenAll(r.out), Flatten(x.m));
    Stamped(x.cable, s, Flatten(x.m), x.cable);
    OnCableConcat(b.packets, coded.packets, x.cable);
    DecodeConcat(c, heard, coded.packets);
    FlatMapConcat(Flatten, r.out, DecodeCable(r.cable, coded.packets).out);
    FlatMapSnoc(Flatten, Given(front, x.cable), x.m);
    hide OnCable, DecodeCable, EncodeEvents, EncodeMessage, FlatMap;
  }

  lemma OtherCableStep(front: seq<Sending>, x: Sending, cable: CableId)
    requires x.cable != cable
    ensures var b, t := SendAll(front), Send(SendAll(front), x);
            t.encoders[cable] == b.encoders[cable] && OnCable(t.packets, cable) == OnCable(b.packets, cable)
  {
    hide SendAll;
    var b := SendAll(front);
    Stamped(x.cable, b.encoders[x.cable], Flatten(Masked(x.m)), cable);
    OnCableConcat(b.packets, EncodeMessage(x.cable, b.encoders[x.cable], x.m).packets, cable);
  }

  // --- The decoder's sixteen cables ---

  datatype Tagged = Tagged(cable: CableId, m: Message)

  datatype BusDecoded = BusDecoded(cables: seq<Cable>, out: seq<Tagged>)

  function Tag(cable: CableId, ms: seq<Message>): seq<Tagged> {
    seq(|ms|, i requires 0 <= i < |ms| => Tagged(cable, ms[i]))
  }

  function DecodeBus(cables: seq<Cable>, ps: seq<Packet>): (r: BusDecoded)
    requires |cables| == CABLES
    ensures |r.cables| == CABLES
  {
    if ps == [] then BusDecoded(cables, [])
    else
      var front := DecodeBus(cables, ps[..|ps| - 1]);
      var p := ps[|ps| - 1];
      var r := DecodeOne(front.cables[p.header / 16], p);
      BusDecoded(front.cables[p.header / 16 := r.cable], front.out + Tag(p.header / 16, r.out))
  }

  function FromCable(out: seq<Tagged>, cable: CableId): seq<Message> {
    if out == [] then []
    else
      var t := out[|out| - 1];
      FromCable(out[..|out| - 1], cable) + if t.cable == cable then [t.m] else []
  }

  lemma {:induction false} FromCableConcat(a: seq<Tagged>, b: seq<Tagged>, cable: CableId)
    ensures FromCable(a + b, cable) == FromCable(a, cable) + FromCable(b, cable)
  {
    if b == [] {
      assert a + b == a;
    } else {
      assert (a + b)[..|a + b| - 1] == a + b[..|b| - 1];
      FromCableConcat(a, b[..|b| - 1], cable);
    }
  }

  lemma {:induction false} FromTag(ms: seq<Message>, tag: CableId, cable: CableId)
    ensures FromCable(Tag(tag, ms), cable) == if tag == cable then ms else []
  {
    if ms != [] {
      FromTag(ms[..|ms| - 1], tag, cable);
      assert Tag(tag, ms)[..|ms| - 1] == Tag(tag, ms[..|ms| - 1]);
    }
  }

  /** Each cable is decoded as if the others were not there. */
  lemma {:induction false} CablesAreIndependent(cables: seq<Cable>, ps: seq<Packet>, cable: CableId)
    requires |cables| == CABLES
    ensures var r := DecodeBus(cables, ps);
            var alone := DecodeCable(cables[cable], OnCable(ps, cable));
            r.cables[cable] == alone.cable && FromCable(r.out, cable) == alone.out
  {
    hide DecodeBus, DecodeCable, OnCable, FromCable;
    if ps == [] {
      NothingDecoded(cables, cable);
    } else {
      CablesAreIndependent(cables, ps[..|ps| - 1], cable);
      OnePacketMore(cables, ps[..|ps| - 1], ps[|ps| - 1], cable);
      assert ps == ps[..|ps| - 1] + [ps[|ps| - 1]];
    }
  }

  lemma NothingDecoded(cables: seq<Cable>, cable: CableId)
    requires |cables| == CABLES
    ensures DecodeBus(cables, []) == BusDecoded(cables, []) && FromCable([], cable) == []
    ensures DecodeCable(cables[cable], OnCable([], cable)) == Decoded(cables[cable], [])
  {
  }

  lemma OnePacketMore(cables: seq<Cable>, front: seq<Packet>, p: Packet, cable: CableId)
    requires |cables| == CABLES
    requires var r := DecodeBus(cables, front);
             var alone := DecodeCable(cables[cable], OnCable(front, cable));
             r.cables[cable] == alone.cable && FromCable(r.out, cable) == alone.out
    ensures var r := DecodeBus(cables, front + [p]);
            var alone := DecodeCable(cables[cable], OnCable(front + [p], cable));
            r.cables[cable] == alone.cable && FromCable(r.out, cable) == alone.out
  {
    assert (front + [p])[..|front|] == front;
    hide DecodeOne, DecodeCable, OnCable, FromCable;
    var before := DecodeBus(cables, front);
    var tag := p.header / 16;
    var r := DecodeOne(before.cables[tag], p);
    FromTag(r.out, tag, cable);
    FromCableConcat(before.out, Tag(tag, r.out), cable);
    OnCableConcat(front, [p], cable);
    DecodeConcat(cables[cable], OnCable(front, cable), OnCable([p], cable));
    StampedOne([p], tag, cable);
    DecodePacketList(before.cables[cable], OnCable([p], cable));
  }

  /** Sixteen encoders, one decoder, any interleaving: each cable gets back
      exactly its own short messages and its own stream, bracketed, but for at
      most two bytes held back. No message overtakes more than two bytes of the
      stream, and none falls behind. Once its stream has ended nothing is held
      back. */
  lemma UsbRoundTrip(xs: seq<Sending>, cable: CableId)
    requires Bracketed(Given(xs, cable))
    ensures var sent := FlattenAll(Given(xs, cable));
            var b := SendAll(xs);
            var r := DecodeBus(seq(CABLES, _ => FRESH_CABLE), b.packets);
            var got := FlattenAll(FromCable(r.out, cable));
            && FlatMap(ShortOnly, got) == FlatMap(ShortOnly, sent)
            && FlatMap(StreamOnly, got) + HeldEvents(b.encoders[cable].held) == FlatMap(StreamOnly, sent)
            && |b.encoders[cable].held| <= 2 && OvertakesTwo(sent, got)
            && (Track(false, sent) == Some(false) ==> FlatMap(StreamOnly, got) == FlatMap(StreamOnly, sent))
            && Track(false, got).Some?
  {
    CableLinked(xs, cable, FRESH_CABLE);
    CablesAreIndependent(seq(CABLES, _ => FRESH_CABLE), SendAll(xs).packets, cable);
  }
}
