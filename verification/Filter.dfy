/** Declarative filters and transforms, and the value arithmetic they share. */
module Filters {
  import opened Arithmetic
  import opened Midi

  type U16 = v: int | 0 <= v < 0x1_0000

  // --- Values ---

  /** Rounded position * outSpan / span, in wrapping 32-bit arithmetic. */
  function Interpolate(position: nat, span: nat, outSpan: nat): nat
    requires span > 0
  {
    Rounded(position * outSpan, span)
  }

  function Rounded(product: nat, span: nat): nat
    requires span > 0
  {
    (product % TWO32 + span / 2) % TWO32 / span
  }

  lemma RoundedFits(product: nat, span: nat)
    requires product <= 0xfffe_0001 && 0 < span < 0x1_0000
    ensures product + span / 2 < TWO32 && Rounded(product, span) == (product + span / 2) / span
  {
    assert product + span / 2 < TWO32;
    assert (product % TWO32 + span / 2) % TWO32 == product + span / 2;
  }

  /** Nothing wraps for any 16-bit operands. */
  lemma InterpolateFits(position: nat, span: nat, outSpan: nat)
    requires 0 < span && position <= span < 0x1_0000 && outSpan < 0x1_0000
    ensures position * outSpan + span / 2 < TWO32
    ensures Interpolate(position, span, outSpan) == (position * outSpan + span / 2) / span
  {
    ProductAtMost(position, outSpan, 0xffff, 0xffff);
    RoundedFits(position * outSpan, span);
    hide Rounded;
  }

  /** The result is within half a unit of the exact quotient. */
  lemma InterpolateNear(position: nat, span: nat, outSpan: nat)
    requires 0 < span && position <= span < 0x1_0000 && outSpan < 0x1_0000
    ensures var r := Interpolate(position, span, outSpan);
            2 * position * outSpan - span <= 2 * (r * span) <= 2 * position * outSpan + span
  {
    hide Interpolate;
    InterpolateFits(position, span, outSpan);
    NearQuotient(position * outSpan, span);
    TwiceProduct(position, outSpan);
  }

  lemma NearQuotient(a: nat, n: nat)
    requires n > 0
    ensures 2 * a - n <= 2 * ((a + n / 2) / n * n) <= 2 * a + n
  {
    DivideBounds(a + n / 2, n);
  }

  lemma InterpolateEnds(span: nat, outSpan: nat)
    requires 0 < span < 0x1_0000 && outSpan < 0x1_0000
    ensures Interpolate(0, span, outSpan) == 0 && Interpolate(span, span, outSpan) == outSpan
  {
    hide Rounded;
    InterpolateFits(0, span, outSpan);
    InterpolateFits(span, span, outSpan);
    assert span * outSpan == outSpan * span && 0 * outSpan == 0;
    QuotientIs(span / 2, span, 0);
    QuotientIs(span * outSpan + span / 2, span, outSpan);
  }

  lemma InterpolateMonotone(p: nat, q: nat, span: nat, outSpan: nat)
    requires 0 < span && p <= q <= span < 0x1_0000 && outSpan < 0x1_0000
    ensures Interpolate(p, span, outSpan) <= Interpolate(q, span, outSpan)
  {
    hide Interpolate;
    InterpolateFits(p, span, outSpan);
    InterpolateFits(q, span, outSpan);
    ProductAtMost(p, outSpan, q, outSpan);
    QuotientMonotone(p * outSpan + span / 2, q * outSpan + span / 2, span);
  }

  function Clamp(v: int, low: int, high: int): int {
    if v < low then low else if v > high then high else v
  }

  /** 7 bits to 16 and back. */
  function NormalizeFrom7(v: Byte): U16 { (v % 0x80 * 65535) / 127 }

  function DenormalizeTo7(v: U16): (r: Byte)
    ensures r < 0x80
  {
    (v * 127 + 32767) / 65535
  }

  /** Normalising loses nothing, at every 7-bit value. */
  lemma NormalizeRoundTrip(v: Byte)
    requires v < 0x80
    ensures DenormalizeTo7(NormalizeFrom7(v)) == v
  {
  }

  datatype ValueMap = ValueMap(enabled: bool, inMin: U16, inMax: U16, outMin: U16, outMax: U16)
  {
    function Low(): U16 { if inMax > inMin then inMin else inMax }
    function High(): U16 { if inMax > inMin then inMax else inMin }
    function OutLow(): U16 { if outMin < outMax then outMin else outMax }
    function OutHigh(): U16 { if outMin < outMax then outMax else outMin }

    function Apply(value: U16): U16 {
      if !enabled then value
      else if inMax == inMin then outMin
      else
        var span := High() - Low();
        var position := Clamp(value, Low(), High()) - Low();
        if outMax >= outMin then (outMin + Interpolate(position, span, outMax - outMin)) % 0x1_0000
        else (outMin - Interpolate(position, span, outMin - outMax)) % 0x1_0000
    }

    function Apply7(v: Byte): (r: Byte)
      ensures v < 0x80 ==> r < 0x80
    {
      if enabled then DenormalizeTo7(Apply(NormalizeFrom7(v))) else v
    }
  }

  /** An enabled map with a proper input range, without the wrap-around. */
  lemma ApplyExact(vm: ValueMap, value: U16)
    requires vm.enabled && vm.inMin != vm.inMax
    ensures var span := vm.High() - vm.Low();
            var position := Clamp(value, vm.Low(), vm.High()) - vm.Low();
            var r := Interpolate(position, span, vm.OutHigh() - vm.OutLow());
            && 0 <= r <= vm.OutHigh() - vm.OutLow()
            && vm.Apply(value) == if vm.outMax >= vm.outMin then vm.outMin + r else vm.outMin - r
  {
    hide Interpolate;
    var span := vm.High() - vm.Low();
    var position := Clamp(value, vm.Low(), vm.High()) - vm.Low();
    InterpolateMonotone(position, span, span, vm.OutHigh() - vm.OutLow());
    InterpolateEnds(span, vm.OutHigh() - vm.OutLow());
  }

  /** Values stay between the output endpoints and reach both. */
  lemma MapReachesItsRange(vm: ValueMap, value: U16)
    requires vm.enabled
    ensures vm.OutLow() <= vm.Apply(value) <= vm.OutHigh()
    ensures vm.inMin != vm.inMax ==>
              (value <= vm.Low() ==> vm.Apply(value) == vm.outMin) &&
              (value >= vm.High() ==> vm.Apply(value) == vm.outMax)
  {
    if vm.inMin != vm.inMax {
      ApplyExact(vm, value);
      InterpolateEnds(vm.High() - vm.Low(), vm.OutHigh() - vm.OutLow());
    }
  }

  /** Rising with an ascending output range, falling with a reversed one. */
  lemma MapMonotone(vm: ValueMap, v: U16, w: U16)
    requires vm.enabled && v <= w
    ensures vm.outMin <= vm.outMax ==> vm.Apply(v) <= vm.Apply(w)
    ensures vm.outMin >= vm.outMax ==> vm.Apply(v) >= vm.Apply(w)
  {
    if vm.inMin != vm.inMax {
      ApplyExact(vm, v);
      ApplyExact(vm, w);
      InterpolateMonotone(Clamp(v, vm.Low(), vm.High()) - vm.Low(), Clamp(w, vm.Low(), vm.High()) - vm.Low(),
                          vm.High() - vm.Low(), vm.OutHigh() - vm.OutLow());
    }
  }

  /** Within half a unit of the straight line through the range's two ends. */
  lemma MapNearLine(vm: ValueMap, value: U16)
    requires vm.enabled && vm.inMin != vm.inMax && vm.Low() <= value <= vm.High()
    ensures var span := vm.High() - vm.Low();
            var line := 2 * (value - vm.Low()) * (vm.outMax - vm.outMin);
            line - span <= 2 * ((vm.Apply(value) - vm.outMin) * span) <= line + span
  {
    hide Interpolate, ValueMap.Apply;
    ApplyExact(vm, value);
    var span, x, d := vm.High() - vm.Low(), value - vm.Low(), vm.OutHigh() - vm.OutLow();
    InterpolateNear(x, span, d);
    Negate(Interpolate(x, span, d), span);
    Negate(d, 2 * x);
  }

  /** Swapping the input endpoints changes nothing: only the output reverses. */
  lemma InputReversalIgnored(vm: ValueMap, value: U16)
    ensures vm.(inMin := vm.inMax, inMax := vm.inMin).Apply(value) == vm.Apply(value)
  {
    hide Interpolate;
  }

  // --- Filter ---

  datatype Kind =
    | NoteOff | NoteOn | PolyPressure | ControlChange | ProgramChange | ChannelPressure | PitchBend
    | SystemCommon | SystemRealTime | DataStream

  function KindOf(m: Message): Kind {
    if m.chunk then DataStream
    else if IsChannelVoice(m.status) then
      var command := m.status / 16;
      if command == 0x8 then NoteOff
      else if command == 0x9 then (if m.data2 == 0 then NoteOff else NoteOn)
      else if command == 0xa then PolyPressure
      else if command == 0xb then ControlChange
      else if command == 0xc then ProgramChange
      else if command == 0xd then ChannelPressure
      else PitchBend
    else if IsRealTime(m.status) then SystemRealTime
    else SystemCommon
  }

  predicate IsNote(m: Message) { KindOf(m).NoteOff? || KindOf(m).NoteOn? }

  function Channel(m: Message): nat { if IsChannelVoice(m.status) then m.status % 16 else 0 }

  datatype Filter = Filter(
    kinds: set<Kind>, channels: set<nat>, noteMin: Byte, noteMax: Byte, ccMin: Byte, ccMax: Byte)
  {
    predicate Accepts(m: Message) {
      && KindOf(m) in kinds
      && (m.chunk || !IsChannelVoice(m.status)
          || (Channel(m) in channels
              && (IsNote(m) || KindOf(m).PolyPressure? ==> noteMin <= m.data1 <= noteMax)
              && (KindOf(m).ControlChange? ==> ccMin <= m.data1 <= ccMax)))
    }

    /** A filter that names both note kinds or neither. */
    predicate NotesAlike() { NoteOn in kinds <==> NoteOff in kinds }
  }

  // --- Transform ---

  datatype Transform = Transform(
    channel: int, channelOffset: int, transpose: int, noteOffset: int, controller: int,
    velocity: ValueMap, controllerValue: ValueMap, pressure: ValueMap)
  {
    function Rechannelled(m: Message): Message {
      if channel >= 0 || channelOffset != 0 then
        var value := (if channel >= 0 then channel else Channel(m)) + channelOffset;
        m.(status := m.status / 16 * 16 + value % 16)
      else m
    }

    /** None when the result cannot be represented and the message is dropped. */
    function Apply(message: Message): Option<Message> {
      if message.chunk || !IsChannelVoice(message.status) then Some(message)
      else
        var m := Rechannelled(message);
        var kind := KindOf(m);
        var shifts := kind.NoteOff? || kind.NoteOn? || kind.PolyPressure?;
        var shifted := m.data1 + transpose + noteOffset;
        if shifts && !(0 <= shifted <= 127) then None
        else
          var n := if shifts then m.(data1 := shifted) else m;
          match kind
          case NoteOff => Some(if n.data2 != 0 then n.(data2 := velocity.Apply7(n.data2)) else n)
          case NoteOn => Some(n.(data2 := velocity.Apply7(n.data2)))
          case ControlChange =>
            var c := if controller >= 0 then n.(data1 := controller % 0x80) else n;
            Some(c.(data2 := controllerValue.Apply7(c.data2)))
          case PolyPressure => Some(n.(data2 := pressure.Apply7(n.data2)))
          case ChannelPressure => Some(n.(data1 := pressure.Apply7(n.data1)))
          case _ => Some(n)
    }
  }

  /** What a wire can carry as a message of this status. */
  ghost predicate Carriable(m: Message) {
    !m.chunk && MessageDataLength(m.status) >= 0 && m.data1 < 0x80 && m.data2 < 0x80
  }

  /** A transform never leaves the wire's range: it drops a message or keeps its
      command, and touches no system message and no chunk. */
  lemma TransformStaysOnTheWire(t: Transform, m: Message)
    requires Carriable(m)
    ensures var r := t.Apply(m);
            && (!IsChannelVoice(m.status) ==> r == Some(m))
            && (r.Some? ==> Carriable(r.value) && r.value.status / 16 == m.status / 16
                            && (t.channel >= 0 || t.channelOffset != 0 ==>
                                 IsChannelVoice(m.status) ==>
                                   r.value.status % 16 ==
                                   ((if t.channel >= 0 then t.channel else Channel(m)) + t.channelOffset) % 16)
                            && (t.channel < 0 && t.channelOffset == 0 ==> r.value.status == m.status))
            && (r.None? <==> IsChannelVoice(m.status) && m.status / 16 in {8, 9, 10}
                             && !(0 <= m.data1 + t.transpose + t.noteOffset <= 127))
  {
    Rechannels(t, m);
    hide Transform.Rechannelled;
  }

  lemma Rechannels(t: Transform, m: Message)
    requires Carriable(m)
    ensures var r := t.Rechannelled(m);
            && (IsChannelVoice(m.status) ==>
                  && IsChannelVoice(r.status) && r.status / 16 == m.status / 16 && r == m.(status := r.status)
                  && r.status % 16 == if t.channel >= 0 || t.channelOffset != 0
                                      then ((if t.channel >= 0 then t.channel else Channel(m)) + t.channelOffset) % 16
                                      else m.status % 16)
            && (t.channel < 0 && t.channelOffset == 0 ==> r == m)
  {
  }

  // --- Notes and their releases ---

  /** The same note on the same channel of the same port; either may be a
      note-on, a note-off or a note-on of velocity 0. */
  ghost predicate SameNote(a: Message, b: Message) {
    && !a.chunk && !b.chunk
    && a.status / 16 in {8, 9} && b.status / 16 in {8, 9}
    && a.status % 16 == b.status % 16
    && a.data1 == b.data1 && a.port == b.port
  }

  /** A filter cannot separate a note from its release. */
  lemma FilterKeepsPairs(f: Filter, a: Message, b: Message)
    requires f.NotesAlike() && SameNote(a, b)
    ensures f.Accepts(a) == f.Accepts(b)
  {
  }

  /** Nor can a transform, even one that scales the velocity to zero. */
  lemma TransformKeepsPairs(t: Transform, a: Message, b: Message)
    requires SameNote(a, b)
    ensures t.Apply(a).None? == t.Apply(b).None?
    ensures t.Apply(a).Some? ==> SameNote(t.Apply(a).value, t.Apply(b).value)
  {
    RechannelKeepsPairs(t, a, b);
  }

  /** A note-off, or a note-on of velocity 0, which receivers take for one. */
  ghost predicate IsRelease(m: Message) { KindOf(m).NoteOff? }

  /** A release stays a release: its velocity 0, if it has that, is never scaled
      up into a note. */
  lemma TransformKeepsReleases(t: Transform, m: Message)
    requires IsRelease(m) && t.Apply(m).Some?
    ensures IsRelease(t.Apply(m).value)
  {
    RechannelKeepsKind(t, m);
    hide Transform.Rechannelled;
  }

  lemma RechannelKeepsKind(t: Transform, m: Message)
    requires IsRelease(m)
    ensures var r := t.Rechannelled(m);
            IsRelease(r) && r.status / 16 == m.status / 16 && r == m.(status := r.status)
  {
  }

  lemma RechannelKeepsPairs(t: Transform, a: Message, b: Message)
    requires SameNote(a, b)
    ensures SameNote(t.Rechannelled(a), t.Rechannelled(b))
  {
  }

  // --- What filters and transforms mean, field by field ---

  /** Kinds by status byte; a note-on of velocity 0 counts as a note-off. */
  lemma KindIs(m: Message)
    requires !m.chunk && m.status >= 0x80
    ensures KindOf(m) ==
            if m.status <= 0x8f then NoteOff
            else if m.status <= 0x9f then (if m.data2 == 0 then NoteOff else NoteOn)
            else if m.status <= 0xaf then PolyPressure
            else if m.status <= 0xbf then ControlChange
            else if m.status <= 0xcf then ProgramChange
            else if m.status <= 0xdf then ChannelPressure
            else if m.status <= 0xef then PitchBend
            else if m.status <= 0xf7 then SystemCommon
            else SystemRealTime
  {
  }

  /** A filter lets through the kinds it names; of channel messages only its
      channels; of notes and polyphonic pressure only its note range; of control
      changes only its controller range. Streams meet the first of these only. */
  lemma AcceptsIff(f: Filter, m: Message)
    requires m.chunk || m.status >= 0x80
    ensures f.Accepts(m) <==>
            && (if m.chunk then DataStream in f.kinds else KindOf(m) in f.kinds)
            && (!m.chunk && m.status <= 0xef ==> m.status % 16 in f.channels)
            && (!m.chunk && 0x80 <= m.status <= 0xaf ==> f.noteMin <= m.data1 <= f.noteMax)
            && (!m.chunk && 0xb0 <= m.status <= 0xbf ==> f.ccMin <= m.data1 <= f.ccMax)
  {
  }

  /** v in 16 bits: v * 65535 / 127, rounded down. */
  ghost predicate Widened(v: Byte, wide: U16) {
    127 * wide <= 65535 * v < 127 * wide + 127
  }

  /** The 7-bit value nearest to a 16-bit one. */
  ghost predicate Narrowed(wide: U16, v: Byte) {
    -32767 <= 127 * wide - 65535 * v <= 32767
  }

  /** Both ends of the input range go to the ends of the output range, what lies
      beyond them too, and the rest within half a unit of the straight line. A
      range of one point goes to the lower output end as the map names it. */
  ghost predicate OnLine(vm: ValueMap, wide: U16, out: U16) {
    var low, high := if vm.inMin < vm.inMax then vm.inMin else vm.inMax,
                     if vm.inMin < vm.inMax then vm.inMax else vm.inMin;
    if low == high || wide <= low then out == vm.outMin
    else if wide >= high then out == vm.outMax
    else
      var line := 2 * (wide - low) * (vm.outMax - vm.outMin);
      line - (high - low) <= 2 * ((out - vm.outMin) * (high - low)) <= line + (high - low)
  }

  /** What a map makes of a 7-bit value: nothing new while it is disabled, else
      widened, put on the line, and narrowed. */
  ghost predicate Image(vm: ValueMap, v: Byte, w: Byte) {
    if !vm.enabled then w == v
    else exists wide: U16, out: U16 :: Widened(v, wide) && OnLine(vm, wide, out) && Narrowed(out, w)
  }

  lemma WidenedBy(v: Byte)
    requires v < 0x80
    ensures Widened(v, NormalizeFrom7(v))
  {
    DivideBounds(v * 65535, 127);
  }

  lemma NarrowedBy(wide: U16)
    ensures Narrowed(wide, DenormalizeTo7(wide))
  {
    DivideBounds(wide * 127 + 32767, 65535);
  }

  lemma OnLineBy(vm: ValueMap, wide: U16)
    requires vm.enabled
    ensures OnLine(vm, wide, vm.Apply(wide))
  {
    if vm.inMin != vm.inMax {
      MapReachesItsRange(vm, wide);
      if vm.Low() < wide < vm.High() { MapNearLine(vm, wide); }
    }
    hide ValueMap.Apply;
  }

  lemma ImageBy(vm: ValueMap, v: Byte)
    requires v < 0x80
    ensures Image(vm, v, vm.Apply7(v))
  {
    if vm.enabled {
      WidenedBy(v);
      OnLineBy(vm, NormalizeFrom7(v));
      NarrowedBy(vm.Apply(NormalizeFrom7(v)));
    }
    hide Widened, Narrowed, OnLine, ValueMap.Apply, NormalizeFrom7, DenormalizeTo7;
  }

  /** 7-bit values keep their order under a map, or all reverse it. */
  lemma MapKeepsOrder7(vm: ValueMap, v: Byte, w: Byte)
    requires v <= w < 0x80
    ensures !vm.enabled || vm.outMin <= vm.outMax ==> vm.Apply7(v) <= vm.Apply7(w)
    ensures vm.enabled && vm.outMin >= vm.outMax ==> vm.Apply7(v) >= vm.Apply7(w)
  {
    if vm.enabled {
      NormalizeInOrder(v, w);
      MapMonotone(vm, NormalizeFrom7(v), NormalizeFrom7(w));
      var a, b := vm.Apply(NormalizeFrom7(v)), vm.Apply(NormalizeFrom7(w));
      if a <= b { DenormalizeInOrder(a, b); }
      if b <= a { DenormalizeInOrder(b, a); }
    }
    hide ValueMap.Apply, NormalizeFrom7, DenormalizeTo7;
  }

  lemma NormalizeInOrder(v: Byte, w: Byte)
    requires v <= w < 0x80
    ensures NormalizeFrom7(v) <= NormalizeFrom7(w)
  {
    QuotientMonotone(v * 65535, w * 65535, 127);
  }

  lemma DenormalizeInOrder(a: U16, b: U16)
    requires a <= b
    ensures DenormalizeTo7(a) <= DenormalizeTo7(b)
  {
    QuotientMonotone(a * 127 + 32767, b * 127 + 32767, 65535);
  }

  /** What a transform makes of a channel message it keeps. Notes and polyphonic
      pressure are shifted; a velocity of 0 stays; each value goes through its own
      map; nothing else changes but the channel. */
  lemma TransformMeans(t: Transform, m: Message)
    requires !m.chunk && 0x80 <= m.status <= 0xef && m.data1 < 0x80 && m.data2 < 0x80
    ensures var dropped := m.status <= 0xaf && !(0 <= m.data1 + t.transpose + t.noteOffset <= 127);
            && t.Apply(m).None? == dropped
            && (!dropped ==>
                  var r := t.Apply(m).value;
                  && r == m.(status := r.status, data1 := r.data1, data2 := r.data2)
                  && r.status / 16 == m.status / 16
                  && r.status % 16 == (if t.channel < 0 then m.status % 16 + t.channelOffset
                                       else t.channel + t.channelOffset) % 16
                  && MeansNote(t, m, r) && MeansValue(t, m, r))
  {
    TransformShape(t, m);
    if t.Apply(m).Some? {
      TransformNote(t, m);
      TransformValue(t, m);
    }
    hide Transform.Apply, MeansNote, MeansValue;
  }

  lemma TransformShape(t: Transform, m: Message)
    requires !m.chunk && 0x80 <= m.status <= 0xef && m.data1 < 0x80 && m.data2 < 0x80
    ensures var dropped := m.status <= 0xaf && !(0 <= m.data1 + t.transpose + t.noteOffset <= 127);
            && t.Apply(m).None? == dropped
            && (!dropped ==>
                  var r := t.Apply(m).value;
                  && r == m.(status := r.status, data1 := r.data1, data2 := r.data2)
                  && r.status / 16 == m.status / 16
                  && r.status % 16 == (if t.channel < 0 then m.status % 16 + t.channelOffset
                                       else t.channel + t.channelOffset) % 16)
  {
    Rechannels(t, m);
    KindIs(t.Rechannelled(m));
    hide Transform.Rechannelled, ValueMap.Apply7, KindOf;
  }

  lemma TransformNote(t: Transform, m: Message)
    requires !m.chunk && 0x80 <= m.status <= 0xef && m.data1 < 0x80 && m.data2 < 0x80 && t.Apply(m).Some?
    ensures MeansNote(t, m, t.Apply(m).value)
  {
    Rechannels(t, m);
    KindIs(t.Rechannelled(m));
    ImageBy(t.pressure, m.data1);
    hide Image, Transform.Rechannelled, ValueMap.Apply7, KindOf;
  }

  lemma TransformValue(t: Transform, m: Message)
    requires !m.chunk && 0x80 <= m.status <= 0xef && m.data1 < 0x80 && m.data2 < 0x80 && t.Apply(m).Some?
    ensures MeansValue(t, m, t.Apply(m).value)
  {
    Rechannels(t, m);
    KindIs(t.Rechannelled(m));
    ImageBy(t.velocity, m.data2);
    ImageBy(t.controllerValue, m.data2);
    ImageBy(t.pressure, m.data2);
    hide Image, Transform.Rechannelled, ValueMap.Apply7, KindOf;
  }

  /** The first data byte. */
  ghost predicate MeansNote(t: Transform, m: Message, r: Message) {
    && (0x80 <= m.status <= 0xaf ==> r.data1 == m.data1 + t.transpose + t.noteOffset)
    && (0xb0 <= m.status <= 0xbf ==> r.data1 == if t.controller >= 0 then t.controller % 0x80 else m.data1)
    && (0xd0 <= m.status <= 0xdf ==> Image(t.pressure, m.data1, r.data1))
    && (0xc0 <= m.status <= 0xcf || 0xe0 <= m.status ==> r.data1 == m.data1)
  }

  /** The second. */
  ghost predicate MeansValue(t: Transform, m: Message, r: Message) {
    && (0x80 <= m.status <= 0x9f ==> if m.data2 == 0 then r.data2 == 0 else Image(t.velocity, m.data2, r.data2))
    && (0xa0 <= m.status <= 0xaf ==> Image(t.pressure, m.data2, r.data2))
    && (0xb0 <= m.status <= 0xbf ==> Image(t.controllerValue, m.data2, r.data2))
    && (0xc0 <= m.status ==> r.data2 == m.data2)
  }

  /** Streams and system messages pass as they are. */
  lemma TransformLeaves(t: Transform, m: Message)
    requires m.chunk || m.status < 0x80 || m.status >= 0xf0
    ensures t.Apply(m) == Some(m)
  {
  }
}
