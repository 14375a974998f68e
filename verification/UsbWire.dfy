/** USB MIDI 1.0 event packets in literal bytes, as section 4 and Table 4-1 of the
    USB Device Class Definition for MIDI Devices, Release 1.0, lay them out; and
    the port every decoded message belongs to. */
module UsbWire {
  import opened Midi
  import opened UsbPackets

  // --- Short messages ---

  /** Message bytes after each of the sixteen Code Index Numbers. */
  const TABLE: seq<nat> := [0, 0, 2, 3, 3, 1, 2, 3, 3, 3, 3, 3, 2, 2, 3, 1]

  lemma CinLengthsAreTheTable(cin: Cin)
    ensures CinLength(cin) == TABLE[cin]
  {
  }

  /** The one packet of a short message, its code saying how many bytes it has. */
  lemma ShortPacket(cable: CableId, s: Encoder, m: Message)
    requires !m.chunk
    ensures var r := EncodeMessage(cable, s, m);
            var a, b := m.data1 % 0x80, m.data2 % 0x80;
            && r.state == s
            && (m.status < 0x80 || m.status in {0xf0, 0xf4, 0xf5, 0xf7} ==> r.packets == [])
            && (m.status >= 0x80 && m.status !in {0xf0, 0xf4, 0xf5, 0xf7} ==>
                  && |r.packets| == 1
                  && var p := r.packets[0];
                     var code := p.header % 16;
                     && p.header / 16 == cable && p.b1 == m.status
                     && (m.status < 0xf0 ==> code == m.status / 16 && 8 <= code <= 14)
                     && (m.status == 0xf1 || m.status == 0xf3 ==> code == 2)
                     && (m.status == 0xf2 ==> code == 3) && (m.status == 0xf6 ==> code == 5)
                     && (m.status >= 0xf8 ==> code == 15)
                     && (TABLE[code] == 3 ==> p.b2 == a && p.b3 == b)
                     && (TABLE[code] == 2 ==> p.b2 == a && p.b3 == 0)
                     && (TABLE[code] == 1 ==> p.b2 == 0 && p.b3 == 0)
                     && TABLE[code] == (if m.status in {0xf1, 0xf3} || 0xc0 <= m.status <= 0xdf then 2
                                        else if m.status == 0xf2 || m.status < 0xf0 then 3 else 1))
  {
    var es := Flatten(Masked(m));
    assert es == [es[0]] && es[..0] == [];
    assert EncodeEvents(cable, s, []) == Encoded(s, []);
    assert EncodeMessage(cable, s, m).packets == EncodeEvent(cable, s, es[0]).packets;
    hide EncodeEvents;
  }

  /** A chunk of a stream that was never started is refused. */
  lemma StrayIsRefused(cable: CableId, s: Encoder, m: Message)
    requires m.chunk && !m.chunkStart && !s.inSysEx
    ensures EncodeMessage(cable, s, m) == Encoded(s, [])
  {
  }

  // --- Streams ---

  function ByteAt(bytes: seq<Byte>, i: nat): Byte { if i < |bytes| then bytes[i] else 0 }

  /** The bytes from 3 * i on, under a code of one cable. */
  function Triple(cable: CableId, code: Cin, bytes: seq<Byte>, i: nat): Packet {
    Packet(16 * cable + code, ByteAt(bytes, 3 * i), ByteAt(bytes, 3 * i + 1), ByteAt(bytes, 3 * i + 2))
  }

  /** What has been packed of `bytes`: whole threes under code 4, the rest held. */
  ghost predicate Packed(cable: CableId, r: Encoded, bytes: seq<Byte>) {
    && r.state.inSysEx && |r.packets| == |bytes| / 3
    && r.state.held == bytes[|bytes| / 3 * 3..]
    && forall i :: 0 <= i < |r.packets| ==> r.packets[i] == Triple(cable, 4, bytes, i)
  }

  lemma PackedStart(cable: CableId, s: Encoder)
    ensures Packed(cable, EncodeEvents(cable, s, [Start]), [0xf0])
  {
    assert [Start][..0] == [];
  }

  lemma PackedMore(cable: CableId, r: Encoded, bytes: seq<Byte>, b: Byte)
    requires Packed(cable, r, bytes)
    ensures var last := EncodeEvent(cable, r.state, Data(b));
            Packed(cable, Encoded(last.state, r.packets + last.packets), bytes + [b])
  {
    var last := EncodeEvent(cable, r.state, Data(b));
    var n := |bytes| / 3;
    assert r.state.held == bytes[3 * n..];
    forall i | 0 <= i < n ensures Triple(cable, 4, bytes + [b], i) == r.packets[i] {
      assert r.packets[i] == Triple(cable, 4, bytes, i);
    }
    if |bytes| % 3 == 2 {
      assert last.packets == [Triple(cable, 4, bytes + [b], n)];
    }
  }

  lemma {:induction false} PackedPayload(cable: CableId, s: Encoder, payload: seq<Byte>)
    ensures Packed(cable, EncodeEvents(cable, s, [Start] + DataEvents(payload)), [0xf0] + payload)
  {
    hide Packed, EncodeEvent;
    if payload == [] {
      assert [Start] + DataEvents(payload) == [Start] && [0xf0] + payload == [0xf0 as Byte];
      PackedStart(cable, s);
    } else {
      var front, b := payload[..|payload| - 1], payload[|payload| - 1];
      PackedPayload(cable, s, front);
      var es := [Start] + DataEvents(front);
      PackedMore(cable, EncodeEvents(cable, s, es), [0xf0] + front, b);
      assert [Start] + DataEvents(payload) == es + [Data(b)] && (es + [Data(b)])[..|es|] == es;
      assert [0xf0] + payload == [0xf0] + front + [b];
    }
  }

  lemma PackedEnd(cable: CableId, r: Encoded, bytes: seq<Byte>)
    requires Packed(cable, r, bytes)
    ensures var last := EncodeEvent(cable, r.state, End);
            last == Encoded(Encoder([], false), [Triple(cable, |bytes| % 3 + 5, bytes + [0xf7], |bytes| / 3)])
  {
  }

  /** A whole stream, from any state: its bytes, framing included, in threes, with
      code 4 on all packets but the last and 4 more than its length on that one. */
  lemma StreamPackets(cable: CableId, s: Encoder, m: Message)
    requires m.chunk && m.chunkStart && m.chunkEnd
    ensures var r := EncodeMessage(cable, s, m);
            var seven := seq(|m.payload|, i requires 0 <= i < |m.payload| => m.payload[i] % 0x80);
            var bytes := [0xf0] + seven + [0xf7];
            && r.state == Encoder([], false) && |r.packets| == (|bytes| + 2) / 3
            && forall i :: 0 <= i < |r.packets| ==>
                 r.packets[i] == Triple(cable, if i < |r.packets| - 1 then 4 else |bytes| - 3 * i + 4, bytes, i)
  {
    var payload := SevenBits(m.payload);
    assert payload == seq(|m.payload|, i requires 0 <= i < |m.payload| => m.payload[i] % 0x80);
    var es := [Start] + DataEvents(payload);
    assert Flatten(Masked(m)) == es + [End] && (es + [End])[..|es|] == es;
    PackedPayload(cable, s, payload);
    var r := EncodeEvents(cable, s, es);
    PackedEnd(cable, r, [0xf0] + payload);
    var n := (|payload| + 1) / 3;
    forall i | 0 <= i < n ensures Triple(cable, 4, [0xf0] + payload + [0xf7], i) == r.packets[i] {
      assert r.packets[i] == Triple(cable, 4, [0xf0] + payload, i);
    }
    hide EncodeEvent;
  }

  // --- Decoding ---

  /** A packet outside streams is the message its status byte begins; the codes 0
      and 1 are reserved, and code 5 is a stream's end only with 0xF7. */
  lemma DecodedShort(c: Cable, p: Packet)
    requires p.header % 16 in {2, 3, 8, 9, 10, 11, 12, 13, 14, 15} || (p.header % 16 == 5 && p.b1 != 0xf7)
    ensures var r := DecodeOne(c, p);
            && r.cable == c
            && (0x80 <= p.b1 <= 0xbf || 0xe0 <= p.b1 <= 0xef || p.b1 == 0xf2 ==>
                  r.out == [Message(c.port, p.b1, p.b2, p.b3, 2, false, false, false, [])])
            && (0xc0 <= p.b1 <= 0xdf || p.b1 == 0xf1 || p.b1 == 0xf3 ==>
                  r.out == [Message(c.port, p.b1, p.b2, 0, 1, false, false, false, [])])
            && (p.b1 == 0xf6 || p.b1 >= 0xf8 ==>
                  r.out == [Message(c.port, p.b1, 0, 0, 0, false, false, false, [])])
            && (p.b1 < 0x80 || p.b1 in {0xf0, 0xf4, 0xf5, 0xf7} ==> r.out == [])
  {
  }

  lemma ReservedCodes(c: Cable, p: Packet)
    requires p.header % 16 < 2
    ensures DecodeOne(c, p) == Decoded(c, [])
  {
  }

  /** The packets of a stream a cable is in. */
  lemma DecodedMiddle(c: Cable, p: Packet)
    requires c.inSysEx && !c.pendingStart && p.b1 < 0x80
    ensures var r := DecodeOne(c, p);
            var code := p.header % 16;
            && (code == 4 && p.b2 < 0x80 && p.b3 < 0x80 ==>
                  r == Decoded(c, [ChunkMessage(c.port, false, false, [p.b1, p.b2, p.b3])]))
            && (code == 6 && p.b2 == 0xf7 ==>
                  r == Decoded(c.(inSysEx := false), [ChunkMessage(c.port, false, true, [p.b1])]))
            && (code == 7 && p.b2 < 0x80 && p.b3 == 0xf7 ==>
                  r == Decoded(c.(inSysEx := false), [ChunkMessage(c.port, false, true, [p.b1, p.b2])]))
  {
    StreamBody([p.b1, p.b2, p.b3], p.b1, p.b2, p.b3);
  }

  lemma StreamBody(bytes: seq<Byte>, a: Byte, b: Byte, c: Byte)
    requires bytes == [a, b, c]
    ensures bytes[..3] == [a, b, c] && bytes[..2] == [a, b] && bytes[..1] == [a]
    ensures [a, b][..1] == [a] && [a, b, c][..2] == [a, b] && [a][..0] == []
    ensures [a, b, c][1..] == [b, c] && [a, b][1..] == [b] && [b, c][..1] == [b] && [b][..0] == []
  {
  }

  /** A stream's first packet, and its end on its own. */
  lemma DecodedEdges(c: Cable, p: Packet)
    requires !c.pendingStart
    ensures var r := DecodeOne(c, p);
            var code := p.header % 16;
            && (c.inSysEx && code == 5 && p.b1 == 0xf7 ==>
                  r == Decoded(c.(inSysEx := false), [ChunkMessage(c.port, false, true, [])]))
            && (!c.inSysEx && code == 4 && p.b1 == 0xf0 && p.b2 < 0x80 && p.b3 < 0x80 ==>
                  r == Decoded(c.(inSysEx := true), [ChunkMessage(c.port, true, false, [p.b2, p.b3])]))
            && (!c.inSysEx && code == 6 && p.b1 == 0xf0 && p.b2 == 0xf7 ==>
                  r == Decoded(c, [ChunkMessage(c.port, true, true, [])]))
            && (!c.inSysEx && code == 7 && p.b1 == 0xf0 && p.b2 < 0x80 && p.b3 == 0xf7 ==>
                  r == Decoded(c, [ChunkMessage(c.port, true, true, [p.b2])]))
            && (!c.inSysEx && code in {4, 6, 7} && p.b1 != 0xf0 ==> r == Decoded(c, []))
            && (!c.inSysEx && code == 5 && p.b1 == 0xf7 ==> r == Decoded(c, []))
  {
    StreamBody([p.b1, p.b2, p.b3], p.b1, p.b2, p.b3);
  }

  // --- Whose messages they are ---

  lemma OnePort(c: Cable, p: Packet)
    ensures var r := DecodeOne(c, p);
            r.cable.port == c.port && forall i :: 0 <= i < |r.out| ==> r.out[i].port == c.port
  {
  }

  /** Everything decoded on a cable comes from that cable's port, which stays. */
  lemma {:induction false} CableKeepsItsPort(c: Cable, ps: seq<Packet>)
    ensures var r := DecodeCable(c, ps);
            r.cable.port == c.port && forall i :: 0 <= i < |r.out| ==> r.out[i].port == c.port
  {
    if ps != [] {
      CableKeepsItsPort(c, ps[..|ps| - 1]);
      OnePort(DecodeCable(c, ps[..|ps| - 1]).cable, ps[|ps| - 1]);
    }
    hide DecodeOne;
  }

  /** On a bus of sixteen cables each message comes from the port its own cable had
      when the transfer began, and every cable keeps its port. */
  lemma {:induction false} BusKeepsItsPorts(cables: seq<Cable>, ps: seq<Packet>)
    requires |cables| == CABLES
    ensures var r := DecodeBus(cables, ps);
            && (forall k: CableId :: r.cables[k].port == cables[k].port)
            && (forall i :: 0 <= i < |r.out| ==> r.out[i].m.port == cables[r.out[i].cable].port)
  {
    if ps != [] {
      var p := ps[|ps| - 1];
      BusKeepsItsPorts(cables, ps[..|ps| - 1]);
      OnePort(DecodeBus(cables, ps[..|ps| - 1]).cables[p.header / 16], p);
    }
    hide DecodeOne;
  }
}
