/** The USB codec as it runs: a three-byte pending buffer and the caller's
    output buffer written in place, and a table of cable states. */
module UsbClasses {
  import opened Midi
  import opened UsbPackets

  class UsbPacketEncoder {
    var cable: CableId
    const pending: array<Byte>
    var pendingCount: nat
    var inSysEx: bool

    ghost predicate Valid()
      reads this, pending
    {
      pending.Length == 3 && pendingCount <= 2
    }

    ghost function Value(): Encoder
      requires Valid()
      reads this, pending
    {
      Encoder(pending[..pendingCount], inSysEx)
    }

    constructor (cable: Byte)
      ensures Valid() && fresh(pending) && Value() == QUIET && this.cable == cable % 16
    {
      this.cable := cable % 16;
      pending := new Byte[3];
      pendingCount, inSysEx := 0, false;
    }

    /** Drops a partially encoded stream. */
    method Reset()
      requires Valid()
      modifies this`pendingCount, this`inSysEx
      ensures Valid() && Value() == QUIET
    {
      pendingCount, inSysEx := 0, false;
    }

    /** Writes m's packets to the front of `dst`; 0 when the buffer is smaller
        than the message might need, and then nothing changes. */
    method Encode(m: Message, dst: array?<Byte>) returns (written: nat)
      requires Valid() && dst != pending
      modifies this`pendingCount, this`inSysEx, pending, dst
      ensures Valid()
      ensures dst == null || dst.Length < MaxEncodedBytes(m) ==>
                written == 0 && Value() == old(Value()) && (dst != null ==> dst[..] == old(dst[..]))
      ensures dst != null && dst.Length >= MaxEncodedBytes(m) ==>
                var coded := EncodeMessage(cable, old(Value()), m);
                && Value() == coded.state
                && written == 4 * |coded.packets| <= MaxEncodedBytes(m)
                && dst[..written] == FlatMap(PacketBytes, coded.packets)
                && dst[written..] == old(dst[..])[written..]
    {
      if dst == null || dst.Length < MaxEncodedBytes(m) {
        return 0;
      }
      if m.chunk {
        written := EncodeChunk(m, dst);
      } else {
        written := EncodeShort(m, dst);
      }
    }

    method EncodeShort(m: Message, dst: array<Byte>) returns (written: nat)
      requires Valid() && dst != pending && !m.chunk && dst.Length >= 4
      modifies dst
      ensures Valid() && Value() == old(Value())
      ensures var coded := EncodeMessage(cable, old(Value()), m);
              && Value() == coded.state && written == 4 * |coded.packets| <= 4
              && dst[..written] == FlatMap(PacketBytes, coded.packets)
              && dst[written..] == old(dst[..])[written..]
    {
      ghost var s := Value();
      var n := MessageDataLength(m.status);
      EncodeShortEvents(cable, s, m);
      if n < 0 {
        return 0;
      }
      var p := Packet(Header(cable, CinForStatus(m.status)), m.status,
                      if n >= 1 then m.data1 % 0x80 else 0, if n >= 2 then m.data2 % 0x80 else 0);
      dst[0], dst[1], dst[2], dst[3] := p.header, p.b1, p.b2, p.b3;
      FlatMapOne(PacketBytes, p);
      written := 4;
    }

    method EncodeChunk(m: Message, dst: array<Byte>) returns (written: nat)
      requires Valid() && dst != pending && m.chunk && dst.Length >= MaxEncodedBytes(m)
      modifies this`pendingCount, this`inSysEx, pending, dst
      ensures Valid()
      ensures var coded := EncodeMessage(cable, old(Value()), m);
              && Value() == coded.state
              && written == 4 * |coded.packets| <= MaxEncodedBytes(m)
              && dst[..written] == FlatMap(PacketBytes, coded.packets)
              && dst[written..] == old(dst[..])[written..]
    {
      written := 0;
      if !m.chunkStart && !inSysEx {
        return;
      }
      ghost var was := dst[..];
      ghost var coded := EncodeEvents(cable, Value(), Flatten(Masked(m)));
      written := EncodeStream(m, dst);
      WrittenMeans(coded, written, dst[..], was);
    }

    method EncodeStream(m: Message, dst: array<Byte>) returns (written: nat)
      requires Valid() && dst != pending && m.chunk && dst.Length >= MaxEncodedBytes(m)
      requires m.chunkStart || inSysEx
      modifies this`pendingCount, this`inSysEx, pending, dst
      ensures Valid() && written <= MaxEncodedBytes(m)
      ensures var coded := EncodeEvents(cable, old(Value()), Flatten(Masked(m)));
              Value() == coded.state && Written(coded, written, dst[..], old(dst[..]))
    {
      hide EncodeEvents, FlatMap, Masked, Flatten, Written, MaxEncodedBytes;
      ghost var s, es, was := Value(), Flatten(Masked(m)), dst[..];
      ghost var k := if m.chunkStart then 1 else 0;
      ghost var base := if m.chunkStart then 1 else |s.held|;
      ghost var n := k + |m.payload|;
      ChunkEvents(m);
      MaxIsEnough(m);
      EncodeNone(cable, s, es);
      WrittenNone(s, was);
      written := 0;
      if m.chunkStart {
        written := EmitStart(s, es, dst, written, was);
      }
      written := EncodePayload(s, es, k, base, m.payload, dst, written, was);
      ghost var packets := WrittenWhole(EncodeEvents(cable, s, es[..n]), written, dst[..], was);
      assert 3 * packets + pendingCount == base + |m.payload|;
      PacketsFit(m, packets);
      if m.chunkEnd {
        PacketsFit(m, packets + 1);
        written := EmitEnd(s, es, n, dst, written, was);
        assert es[..n + 1] == es;
      } else {
        assert es[..n] == es;
      }
    }

    method EncodePayload(ghost s: Encoder, ghost es: seq<Event>, ghost k: nat, ghost base: nat, payload: seq<Byte>,
                         dst: array<Byte>, start: nat, ghost was: seq<Byte>)
      returns (written: nat)
      requires Valid() && dst != pending && inSysEx && k + |payload| <= |es|
      requires forall i :: 0 <= i < |payload| ==> es[k + i] == Data(payload[i] % 0x80)
      requires Written(EncodeEvents(cable, s, es[..k]), start, dst[..], was)
      requires Value() == EncodeEvents(cable, s, es[..k]).state
      requires start == 0 && pendingCount == base && 3 * dst.Length >= 4 * (base + |payload|)
      modifies this`pendingCount, pending, dst
      ensures Valid()
      ensures Written(EncodeEvents(cable, s, es[..k + |payload|]), written, dst[..], was)
      ensures Value() == EncodeEvents(cable, s, es[..k + |payload|]).state
      ensures 3 * written + 4 * pendingCount == 4 * (base + |payload|)
    {
      hide EncodeEvents, Written;
      written := start;
      var i := 0;
      while i < |payload|
        invariant 0 <= i <= |payload| && Valid() && inSysEx
        invariant Written(EncodeEvents(cable, s, es[..k + i]), written, dst[..], was)
        invariant Value() == EncodeEvents(cable, s, es[..k + i]).state
        invariant 3 * written + 4 * pendingCount == 4 * (base + i)
      {
        written := EmitByte(s, es, k + i, payload[i] % 0x80, dst, written, was);
        i := i + 1;
      }
    }

    method EmitStart(ghost s: Encoder, ghost es: seq<Event>, dst: array<Byte>, written: nat, ghost was: seq<Byte>)
      returns (next: nat)
      requires Valid() && dst != pending && written == 0 && es != [] && es[0] == Start && dst[..] == was
      modifies this`pendingCount, this`inSysEx, pending, dst
      ensures Valid() && inSysEx && next == 0 && pendingCount == 1
      ensures Written(EncodeEvents(cable, s, es[..1]), next, dst[..], was)
      ensures Value() == EncodeEvents(cable, s, es[..1]).state
    {
      EncodeNone(cable, s, es);
      EncodeNext(cable, s, es, 0);
      pendingCount, inSysEx := 0, true;
      next := PushByte(SYSEX_START, dst, written);
    }

    method EmitByte(ghost s: Encoder, ghost es: seq<Event>, ghost n: nat, b: Byte, dst: array<Byte>, written: nat,
                    ghost was: seq<Byte>)
      returns (next: nat)
      requires Valid() && dst != pending && inSysEx && n < |es| && es[n] == Data(b)
      requires Written(EncodeEvents(cable, s, es[..n]), written, dst[..], was)
      requires Value() == EncodeEvents(cable, s, es[..n]).state
      requires written <= dst.Length && (pendingCount == 2 ==> written + 4 <= dst.Length)
      modifies this`pendingCount, pending, dst
      ensures Valid()
      ensures Written(EncodeEvents(cable, s, es[..n + 1]), next, dst[..], was)
      ensures Value() == EncodeEvents(cable, s, es[..n + 1]).state
      ensures 3 * next + 4 * pendingCount == 3 * written + 4 * (old(pendingCount) + 1)
    {
      EncodeNext(cable, s, es, n);
      ghost var front := EncodeEvents(cable, s, es[..n]);
      ghost var before, last := dst[..], Push(cable, Value(), b).packets;
      next := PushByte(b, dst, written);
      WrittenNext(front, EncodeEvents(cable, s, es[..n + 1]), last, written, next, before, dst[..], was);
      hide EncodeEvents, Written, FlatMap;
    }

    method EmitEnd(ghost s: Encoder, ghost es: seq<Event>, ghost n: nat, dst: array<Byte>, written: nat,
      ghost was: seq<Byte>)
      returns (next: nat)
      requires Valid() && dst != pending && n < |es| && es[n] == End && written + 4 <= dst.Length
      requires Written(EncodeEvents(cable, s, es[..n]), written, dst[..], was)
      requires Value() == EncodeEvents(cable, s, es[..n]).state
      modifies this`pendingCount, this`inSysEx, pending, dst
      ensures Valid() && next == written + 4
      ensures Written(EncodeEvents(cable, s, es[..n + 1]), next, dst[..], was)
      ensures Value() == EncodeEvents(cable, s, es[..n + 1]).state
    {
      EncodeNext(cable, s, es, n);
      ghost var front := EncodeEvents(cable, s, es[..n]);
      ghost var before, last := dst[..], [LastPacket(cable, Value().held)];
      next := PutLast(dst, written);
      WrittenNext(front, EncodeEvents(cable, s, es[..n + 1]), last, written, next, before, dst[..], was);
      hide EncodeEvents, Written, FlatMap;
    }

    method PushByte(b: Byte, dst: array<Byte>, written: nat) returns (next: nat)
      requires Valid() && dst != pending && written <= dst.Length && (pendingCount == 2 ==> written + 4 <= dst.Length)
      modifies this`pendingCount, pending, dst
      ensures Valid()
      ensures var coded := Push(cable, old(Value()), b);
              && Value() == coded.state && next == written + 4 * |coded.packets|
              && 3 * next + 4 * pendingCount == 3 * written + 4 * (old(pendingCount) + 1)
              && dst[..next] == old(dst[..])[..written] + FlatMap(PacketBytes, coded.packets)
              && dst[next..] == old(dst[..])[next..]
    {
      pending[pendingCount] := b;
      pendingCount := pendingCount + 1;
      next := written;
      if pendingCount == 3 {
        next := PutPacket(Packet(Header(cable, SYSEX_MORE), pending[0], pending[1], pending[2]), dst, written);
        pendingCount := 0;
      }
    }

    /** The terminator stays in the pending buffer, and its count picks the CIN. */
    method PutLast(dst: array<Byte>, written: nat) returns (next: nat)
      requires Valid() && dst != pending && written + 4 <= dst.Length
      modifies this`pendingCount, this`inSysEx, pending, dst
      ensures Valid() && Value() == QUIET && next == written + 4
      ensures dst[..next] == old(dst[..])[..written] + FlatMap(PacketBytes, [LastPacket(cable, old(Value()).held)])
      ensures dst[next..] == old(dst[..])[next..]
    {
      ghost var held := Value().held;
      pending[pendingCount] := SYSEX_END;
      pendingCount := pendingCount + 1;
      assert pending[..pendingCount] == held + [SYSEX_END];
      var p := Packet(Header(cable, SYSEX_END1 + pendingCount - 1), pending[0],
                      if pendingCount > 1 then pending[1] else 0, if pendingCount > 2 then pending[2] else 0);
      assert p == LastPacket(cable, held);
      next := PutPacket(p, dst, written);
      pendingCount, inSysEx := 0, false;
    }

    method PutPacket(p: Packet, dst: array<Byte>, written: nat) returns (next: nat)
      requires dst != pending && written + 4 <= dst.Length
      modifies dst
      ensures next == written + 4
      ensures dst[..next] == old(dst[..])[..written] + FlatMap(PacketBytes, [p])
      ensures dst[next..] == old(dst[..])[next..]
    {
      dst[written], dst[written + 1], dst[written + 2], dst[written + 3] := p.header, p.b1, p.b2, p.b3;
      next := written + 4;
      FlatMapOne(PacketBytes, p);
    }
  }

  /** The bytes at the front of the buffer are the packets so far. */
  ghost predicate Written(coded: Encoded, written: nat, now: seq<Byte>, was: seq<Byte>) {
    && written == 4 * |coded.packets| && written <= |now| == |was|
    && now[..written] == FlatMap(PacketBytes, coded.packets) && now[written..] == was[written..]
  }

  /** The announced size has room for whole packets of payload, two bytes held
      back and both framing bytes. */
  lemma MaxIsEnough(m: Message)
    ensures !m.chunk ==> MaxEncodedBytes(m) == 4
    ensures m.chunk ==> 4 * (|m.payload| + 4) <= 3 * MaxEncodedBytes(m) <= 4 * (|m.payload| + 6)
  {
  }

  lemma PacketsFit(m: Message, packets: nat)
    requires m.chunk && 3 * packets <= |m.payload| + 5
    ensures 4 * packets <= MaxEncodedBytes(m)
  {
  }

  lemma WrittenWhole(coded: Encoded, written: nat, now: seq<Byte>, was: seq<Byte>) returns (packets: nat)
    requires Written(coded, written, now, was)
    ensures written == 4 * packets
  {
    packets := |coded.packets|;
  }

  lemma WrittenNone(s: Encoder, was: seq<Byte>)
    ensures Written(Encoded(s, []), 0, was, was)
  {
  }

  lemma WrittenMeans(coded: Encoded, written: nat, now: seq<Byte>, was: seq<Byte>)
    requires Written(coded, written, now, was)
    ensures written == 4 * |coded.packets| && written <= |now| == |was|
    ensures now[..written] == FlatMap(PacketBytes, coded.packets) && now[written..] == was[written..]
  {
  }

  lemma WrittenNext(a: Encoded, b: Encoded, last: seq<Packet>, written: nat, next: nat,
                    before: seq<Byte>, now: seq<Byte>, was: seq<Byte>)
    requires Written(a, written, before, was) && |now| == |was|
    requires b.packets == a.packets + last && next == written + 4 * |last| <= |now|
    requires now[..next] == before[..written] + FlatMap(PacketBytes, last) && now[next..] == before[next..]
    ensures Written(b, next, now, was)
  {
    FlatMapConcat(PacketBytes, a.packets, last);
    assert was[next..] == was[written..][next - written..];
    assert before[next..] == before[written..][next - written..];
  }

  lemma EncodeShortEvents(cable: CableId, s: Encoder, m: Message)
    requires !m.chunk
    ensures EncodeMessage(cable, s, m) == EncodeEvent(cable, s, Flatten(Masked(m))[0])
  {
    var es := Flatten(Masked(m));
    EncodeNone(cable, s, es);
    EncodeNext(cable, s, es, 0);
    assert es[..1] == es;
    assert [] + EncodeEvent(cable, s, es[0]).packets == EncodeEvent(cable, s, es[0]).packets;
  }

  lemma ChunkEvents(m: Message)
    requires m.chunk
    ensures var es := Flatten(Masked(m));
            var k := if m.chunkStart then 1 else 0;
            && |es| == k + |m.payload| + (if m.chunkEnd then 1 else 0)
            && (m.chunkStart ==> es[0] == Start)
            && (forall i :: 0 <= i < |m.payload| ==> es[k + i] == Data(m.payload[i] % 0x80))
            && (m.chunkEnd ==> es[|es| - 1] == End)
  {
  }

  lemma EncodeNone(cable: CableId, s: Encoder, es: seq<Event>)
    ensures EncodeEvents(cable, s, es[..0]) == Encoded(s, [])
  {
  }

  lemma EncodeNext(cable: CableId, s: Encoder, es: seq<Event>, n: nat)
    requires n < |es|
    ensures var front := EncodeEvents(cable, s, es[..n]);
            var last := EncodeEvent(cable, front.state, es[n]);
            EncodeEvents(cable, s, es[..n + 1]) == Encoded(last.state, front.packets + last.packets)
  {
    assert es[..n + 1][..n] == es[..n];
  }

  class UsbPacketDecoder {
    const cables: array<Cable>

    ghost predicate Valid()
      reads this, cables
    {
      cables.Length == CABLES
    }

    constructor ()
      ensures Valid() && fresh(cables) && cables[..] == seq(CABLES, _ => FRESH_CABLE)
    {
      cables := new Cable[CABLES](_ => FRESH_CABLE);
    }

    method ResetCable(cable: Byte)
      requires Valid()
      modifies cables
      ensures cables[..] == if cable < CABLES then old(cables[..])[cable := FRESH_CABLE] else old(cables[..])
    {
      if cable < CABLES {
        cables[cable] := FRESH_CABLE;
      }
    }

    method DecodePacket(p: Packet) returns (out: seq<Tagged>)
      requires Valid()
      modifies cables
      ensures BusDecoded(cables[..], out) ==
              var r := DecodeOne(old(cables[..])[p.header / 16], p);
              BusDecoded(old(cables[..])[p.header / 16 := r.cable], Tag(p.header / 16, r.out))
    {
      var cable: CableId := p.header / 16;
      var cin := p.header % 16;
      var length := CinLength(cin);
      out := [];
      if length == 0 {
        return;
      }
      var state := cables[cable];
      if !CinIsSysEx(cin) || (cin == SYSEX_END1 && p.b1 != SYSEX_END) {
        var n := MessageDataLength(p.b1);
        if n >= 0 {
          out := [Tagged(cable, ShortMessage(state.port, p.b1,
                                             if n >= 1 then p.b2 else 0, if n >= 2 then p.b3 else 0, n))];
        }
        return;
      }
      out := DecodeStreamPacket(cable, cin, [p.b1, p.b2, p.b3][..length]);
      hide DecodeStream;
    }

    method DecodeStreamPacket(cable: CableId, cin: Cin, bytes: seq<Byte>) returns (out: seq<Tagged>)
      requires Valid() && bytes != []
      modifies cables
      ensures BusDecoded(cables[..], out) ==
              var r := DecodeStream(old(cables[..])[cable], cin, bytes);
              BusDecoded(old(cables[..])[cable := r.cable], Tag(cable, r.out))
    {
      var state := cables[cable];
      var begin, end := 0, |bytes|;
      out := [];
      if !state.inSysEx {
        if bytes[0] != SYSEX_START {
          return;
        }
        state := state.(inSysEx := true, pendingStart := true);
        begin := 1;
      }
      assert bytes[begin..][..|bytes| - begin] == bytes[begin..];
      if end > begin && bytes[end - 1] == SYSEX_END {
        end := end - 1;
      }
      assert bytes[begin..][..end - begin] == bytes[begin..end];
      var streamEnd := cin != SYSEX_MORE;
      var m := ChunkMessage(state.port, state.pendingStart, streamEnd, bytes[begin..end]);
      cables[cable] := Cable(state.port, !streamEnd, false);
      out := [Tagged(cable, m)];
    }

    /** A transfer carries whole packets; a trailing partial one is ignored. */
    method Decode(data: seq<Byte>) returns (out: seq<Tagged>)
      requires Valid()
      modifies cables
      ensures BusDecoded(cables[..], out) == DecodeBus(old(cables[..]), Packets(data))
    {
      hide DecodeOne;
      out := [];
      ghost var ps := Packets(data);
      ghost var n := 0;
      var offset := 0;
      while offset + 4 <= |data|
        invariant 0 <= n <= |ps| && offset == 4 * n
        invariant BusDecoded(cables[..], out) == DecodeBus(old(cables[..]), ps[..n])
      {
        assert ps[..n + 1][..n] == ps[..n];
        var emitted := DecodePacket(Packet(data[offset], data[offset + 1], data[offset + 2], data[offset + 3]));
        out := out + emitted;
        offset, n := offset + 4, n + 1;
      }
      assert ps[..n] == ps;
    }
  }
}
