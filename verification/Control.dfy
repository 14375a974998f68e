/** Control helpers: MIDI clock on wrapping time, relative encoders, analog
    inputs. */
module Controls {
  import opened Arithmetic
  import opened Midi
  import opened Filters

  // --- Clock ---

  const MAX_CATCH_UP: nat := 24

  const TWO31: int := 0x8000_0000

  /** The schedule is at most a period ahead of now and under 2^31 behind it. */
  predicate InStep(next: int, period: int, now: int) {
    0 < period < TWO31 && next - now <= period && now - next < TWO31
  }

  /** A time, or a difference of times, as the 32-bit word holding it. */
  function Wrap(x: int): (w: nat)
    ensures w < TWO32
  {
    x % TWO32
  }

  lemma WrapAdd(x: int, d: int)
    ensures Wrap(Wrap(x) + d) == Wrap(x + d)
  {
  }

  /** A 32-bit difference read as a signed number. */
  function Signed(word: int): int
    requires 0 <= word < TWO32
  {
    if word < TWO31 then word else word - TWO32
  }

  /** How many ticks are due at `now` when the next is at `next`. */
  function Due(next: int, period: nat, now: int): nat
    requires period > 0
  {
    if now < next then 0 else (now - next) / period + 1
  }

  /** When the tick after those that are due comes. */
  function CaughtUp(next: int, period: nat, now: int): int
    requires period > 0
  {
    next + Due(next, period, now) * period
  }

  datatype Beat = Beat(next: int, sent: nat)

  /** One update on unbounded time: whatever is due goes out, or 24 ticks and a
      new schedule. */
  function Tick(next: int, period: nat, now: int): Beat
    requires period > 0
  {
    var due := Due(next, period, now);
    if due <= MAX_CATCH_UP then Beat(CaughtUp(next, period, now), due) else Beat(now + period, MAX_CATCH_UP)
  }

  lemma DueNext(next: int, period: nat, now: int)
    requires period > 0 && now >= next
    ensures Due(next, period, now) == Due(next + period, period, now) + 1
    ensures CaughtUp(next, period, now) == CaughtUp(next + period, period, now)
  {
    var due := Due(next + period, period, now);
    DivideBounds(now - next, period);
    if now >= next + period {
      var q := (now - (next + period)) / period;
      DivideBounds(now - (next + period), period);
      assert (q + 1) * period == q * period + period;
      QuotientIs(now - next, period, q + 1);
    } else {
      QuotientIs(now - next, period, 0);
    }
    assert (due + 1) * period == due * period + period;
  }

  lemma DueNone(next: int, period: nat, now: int)
    requires period > 0
    ensures now < next ==> Due(next, period, now) == 0 && CaughtUp(next, period, now) == next
  {
  }

  /** After any update the next tick is 1..period ahead. */
  lemma NextAhead(next: int, period: nat, now: int)
    requires period > 0 && next <= now + period
    ensures now < Tick(next, period, now).next <= now + period
  {
    if now >= next {
      var q := (now - next) / period;
      DivideBounds(now - next, period);
      assert (q + 1) * period == q * period + period;
    }
  }

  class ClockGenerator {
    var microsPerTick: nat
    var nextTickMicros: nat  // a 32-bit word
    var running: bool
    ghost var scheduled: int // the unbounded time it stands for

    ghost predicate Valid()
      reads this
    {
      microsPerTick < TWO32 && nextTickMicros == Wrap(scheduled)
    }

    constructor ()
      ensures Valid() && !running && microsPerTick == 0
    {
      microsPerTick, nextTickMicros, running, scheduled := 0, 0, false, 0;
    }

    method SetMicrosPerTick(micros: nat)
      requires Valid() && micros < TWO32
      modifies this`microsPerTick
      ensures Valid() && microsPerTick == micros
    {
      microsPerTick := micros;
    }

    /** The first tick is due immediately. `at` is the time the word stands for. */
    method Start(nowMicros: nat, ghost at: int)
      requires Valid() && nowMicros == Wrap(at)
      modifies this`running, this`nextTickMicros, this`scheduled
      ensures Valid() && running && scheduled == at
    {
      running, nextTickMicros := true, nowMicros;
      scheduled := at;
    }

    /** Sends whatever ticks are due, never more than 24; in step, exactly those
        that `Tick` sends on unbounded time. */
    method Update(nowMicros: nat, ghost at: int) returns (sent: nat)
      requires Valid() && nowMicros == Wrap(at)
      modifies this`nextTickMicros, this`scheduled
      ensures Valid() && sent <= MAX_CATCH_UP
      ensures !running || microsPerTick == 0 ==> sent == 0 && scheduled == old(scheduled)
      ensures running && InStep(old(scheduled), microsPerTick, at) ==>
                Beat(scheduled, sent) == Tick(old(scheduled), microsPerTick, at)
    {
      sent := 0;
      if !running || microsPerTick == 0 {
        return;
      }
      ghost var first, m := scheduled, microsPerTick;
      ghost var exact := InStep(first, m, at);
      hide Due, CaughtUp, Wrap, Signed;
      while true
        invariant Valid() && sent <= MAX_CATCH_UP
        invariant microsPerTick == m
        invariant exact ==> InStep(scheduled, m, at) && sent + Due(scheduled, m, at) == Due(first, m, at)
        invariant exact ==> CaughtUp(scheduled, m, at) == CaughtUp(first, m, at)
        decreases MAX_CATCH_UP - sent
      {
        WordDifference(at, scheduled);
        if Signed(Wrap(nowMicros - nextTickMicros)) < 0 {
          DueNone(scheduled, m, at);
          break;
        }
        if exact { DueNext(scheduled, m, at); }
        if sent >= MAX_CATCH_UP {
          WrapAdd(at, microsPerTick);
          nextTickMicros := Wrap(nowMicros + microsPerTick);
          scheduled := at + microsPerTick;
          break;
        }
        WrapAdd(scheduled, microsPerTick);
        nextTickMicros := Wrap(nextTickMicros + microsPerTick);
        scheduled := scheduled + microsPerTick;
        sent := sent + 1;
      }
    }
  }

  lemma WordDifference(at: int, scheduled: int)
    ensures -TWO31 <= at - scheduled < TWO31 ==> Signed(Wrap(Wrap(at) - Wrap(scheduled))) == at - scheduled
  {
    WrapDifference(at, scheduled);
    SignedIs(at - scheduled);
    hide Wrap, Signed;
  }

  lemma WrapDifference(a: int, b: int)
    ensures Wrap(Wrap(a) - Wrap(b)) == Wrap(a - b)
  {
    var q := (a - b) / TWO32 + b / TWO32 - a / TWO32;
    assert Wrap(a) - Wrap(b) == q * TWO32 + Wrap(a - b);
    ModUnique(Wrap(a) - Wrap(b), TWO32, q, Wrap(a - b));
  }

  lemma SignedIs(x: int)
    ensures -TWO31 <= x < TWO31 ==> Signed(Wrap(x)) == x
  {
  }

  // --- A whole run of the clock ---

  /** Where the schedule stands, ticks sent so far, and whether a call ever had
      more than 24 due. */
  datatype Tempo = Tempo(next: int, total: nat, late: bool)

  function Play(start: int, period: nat, times: seq<int>): Tempo
    requires period > 0
  {
    if times == [] then Tempo(start, 0, false)
    else
      var t := Play(start, period, times[..|times| - 1]);
      var now := times[|times| - 1];
      var beat := Tick(t.next, period, now);
      Tempo(beat.next, t.total + beat.sent, t.late || Due(t.next, period, now) > MAX_CATCH_UP)
  }

  function Earlier(start: int, times: seq<int>, i: nat): int
    requires i <= |times|
  {
    if i == 0 then start else times[i - 1]
  }

  /** Calls in order, each under 2^31 microseconds after the one before. */
  ghost predicate Steady(start: int, times: seq<int>) {
    forall i :: 0 <= i < |times| ==> Earlier(start, times, i) <= times[i] < Earlier(start, times, i) + TWO31
  }

  lemma SteadyFront(start: int, times: seq<int>)
    requires Steady(start, times) && times != []
    ensures Steady(start, times[..|times| - 1])
  {
    var front := times[..|times| - 1];
    assert forall i :: 0 <= i < |front| ==> Earlier(start, front, i) == Earlier(start, times, i);
  }

  /** How far the schedule has slipped from start + total * period. */
  function Slip(start: int, period: nat, t: Tempo): int {
    t.next - start - t.total * period
  }

  lemma LateSlips(next: int, period: nat, now: int)
    requires period > 0 && Due(next, period, now) > MAX_CATCH_UP
    ensures now >= next + MAX_CATCH_UP * period
  {
    DivideBounds(now - next, period);
    ProductAtMost(MAX_CATCH_UP, period, (now - next) / period, period);
  }

  /** A call on time slips nothing; a late one at least a period. */
  lemma TickSlips(start: int, period: nat, t: Tempo, now: int)
    requires period > 0
    ensures var beat := Tick(t.next, period, now);
            var slip := beat.next - start - (t.total + beat.sent) * period;
            if Due(t.next, period, now) > MAX_CATCH_UP then slip >= Slip(start, period, t) + period
            else slip == Slip(start, period, t)
  {
    var due := Due(t.next, period, now);
    if due > MAX_CATCH_UP { LateSlips(t.next, period, now); }
    Distribute(t.total, due, period);
    Distribute(t.total, MAX_CATCH_UP, period);
    hide Due;
  }

  /** Every call is in step, so 32-bit time is as good as unbounded time; the
      schedule slips exactly when a call had too much to catch up on. */
  lemma {:induction false} PlayKeeps(start: int, period: nat, times: seq<int>)
    requires 0 < period < TWO31 && Steady(start, times)
    ensures var t := Play(start, period, times);
            && (times == [] ==> t == Tempo(start, 0, false))
            && (times != [] ==> times[|times| - 1] < t.next <= times[|times| - 1] + period)
            && (if t.late then Slip(start, period, t) >= period else Slip(start, period, t) == 0)
    ensures times != [] ==>
              InStep(Play(start, period, times[..|times| - 1]).next, period, times[|times| - 1])
  {
    if times != [] {
      var front, now := times[..|times| - 1], times[|times| - 1];
      SteadyFront(start, times);
      PlayKeeps(start, period, front);
      var t := Play(start, period, front);
      assert Earlier(start, times, |front|) <= now;
      NextAhead(t.next, period, now);
      TickSlips(start, period, t, now);
    }
    hide Due, Tick;
  }

  /** The ticks sent since the start are exactly those of an ideal clock if and
      only if no call ever had more than 24 due; and the next tick is always one
      to `period` microseconds ahead. */
  lemma ClockKeepsTimeIff(start: int, period: nat, times: seq<int>)
    requires 0 < period < TWO31 && Steady(start, times) && times != []
    ensures var t := Play(start, period, times);
            var now := times[|times| - 1];
            && now < t.next <= now + period
            && now >= start
            && (t.total == (now - start) / period + 1 <==> !t.late)
  {
    PlayKeeps(start, period, times);
    SteadyGrows(start, times);
    hide Play;
    TotalIff(start, period, Play(start, period, times), times[|times| - 1]);
  }

  lemma TotalIff(start: int, period: nat, t: Tempo, now: int)
    requires 0 < period && now >= start && now < t.next <= now + period
    requires if t.late then Slip(start, period, t) >= period else Slip(start, period, t) == 0
    ensures t.total == (now - start) / period + 1 <==> !t.late
  {
    if t.late {
      QuotientMonotone(t.total * period, now - start, period);
      QuotientIs(t.total * period, period, t.total);
    } else {
      assert t.total > 0 by {
        assert t.total == 0 ==> t.total * period == 0;
      }
      Distribute(t.total, -1, period);
      QuotientIs(now - start, period, t.total - 1);
    }
  }

  lemma {:induction false} SteadyGrows(start: int, times: seq<int>)
    requires Steady(start, times) && times != []
    ensures times[|times| - 1] >= start
  {
    assert Earlier(start, times, |times| - 1) <= times[|times| - 1];
    if |times| > 1 {
      SteadyFront(start, times);
      SteadyGrows(start, times[..|times| - 1]);
    }
  }

  // --- Encoder ---

  datatype Mode = Absolute | TwosComplement | SignedBit | BinaryOffset

  /** The 7-bit value that stands for a change of at most 63 either way. */
  function Relative(mode: Mode, delta: int): int {
    match mode
    case TwosComplement => if delta >= 0 then delta else 128 + delta
    case SignedBit => if delta >= 0 then 64 + delta else -delta
    case _ => Clamp(64 + delta, 0, 127)
  }

  /** What a receiver following the same convention understands. */
  function Understood(mode: Mode, value: int): int {
    match mode
    case TwosComplement => if value < 64 then value else value - 128
    case SignedBit => if value > 64 then value - 64 else -value
    case _ => value - 64
  }

  /** The pieces a change goes out in. */
  function Pieces(change: int): seq<int>
    decreases if change < 0 then -change else change
  {
    if change == 0 then []
    else
      var take := Clamp(change, -63, 63);
      [take] + Pieces(change - take)
  }

  function Values(mode: Mode, pieces: seq<int>): seq<int> {
    seq(|pieces|, i requires 0 <= i < |pieces| => Relative(mode, pieces[i]))
  }

  function Sum(mode: Mode, values: seq<int>): int {
    if values == [] then 0 else Sum(mode, values[..|values| - 1]) + Understood(mode, values[|values| - 1])
  }

  lemma {:induction false} SumConcat(mode: Mode, a: seq<int>, b: seq<int>)
    ensures Sum(mode, a + b) == Sum(mode, a) + Sum(mode, b)
  {
    if b == [] {
      assert a + b == a;
    } else {
      assert (a + b)[..|a + b| - 1] == a + b[..|b| - 1];
      SumConcat(mode, a, b[..|b| - 1]);
    }
  }

  lemma PieceUnderstood(mode: Mode, take: int)
    requires !mode.Absolute? && -63 <= take <= 63 && take != 0
    ensures 1 <= Relative(mode, take) <= 127 && Understood(mode, Relative(mode, take)) == take
  {
  }

  /** The three conventions, value by value: 1..63 up and 127..65 down; 65..127 up
      and 1..63 down; 65..127 up and 63..1 down. */
  lemma ConventionsAre(k: int)
    requires 1 <= k <= 63
    ensures Relative(TwosComplement, k) == k && Relative(TwosComplement, -k) == 128 - k
    ensures Relative(SignedBit, k) == 64 + k && Relative(SignedBit, -k) == k
    ensures Relative(BinaryOffset, k) == 64 + k && Relative(BinaryOffset, -k) == 64 - k
  {
  }

  function Magnitude(x: int): nat { if x < 0 then -x else x }

  lemma ValuesStep(mode: Mode, change: int)
    requires change != 0
    ensures var take := Clamp(change, -63, 63);
            Values(mode, Pieces(change)) == [Relative(mode, take)] + Values(mode, Pieces(change - take))
  {
    hide Relative;
  }

  /** A change is understood whole, in as few messages as can carry it. */
  lemma {:induction false} ChangeIsConserved(mode: Mode, change: int)
    requires !mode.Absolute?
    ensures var values := Values(mode, Pieces(change));
            && Sum(mode, values) == change
            && (forall i :: 0 <= i < |values| ==> 1 <= values[i] <= 127)
            && 63 * (|values| - 1) < Magnitude(change) <= 63 * |values|
    decreases Magnitude(change)
  {
    hide Relative, Understood, Sum, Values, Magnitude, Clamp, Pieces;
    if change == 0 {
      NoChange(mode);
    } else {
      var take := Clamp(change, -63, 63);
      TakeShrinks(change);
      var first, rest := [Relative(mode, take)], Values(mode, Pieces(change - take));
      ChangeIsConserved(mode, change - take);
      ValuesStep(mode, change);
      SumConcat(mode, first, rest);
      SumOne(mode, first[0]);
      PieceUnderstood(mode, take);
      OneMorePiece(change, |rest|);
      JoinRange(first, rest);
    }
  }

  lemma NoChange(mode: Mode)
    ensures Values(mode, Pieces(0)) == [] && Sum(mode, []) == 0 && Magnitude(0) == 0
  {
  }

  lemma TakeShrinks(change: int)
    requires change != 0
    ensures var take := Clamp(change, -63, 63);
            -63 <= take <= 63 && take != 0 && Magnitude(change - take) < Magnitude(change)
  {
  }

  lemma JoinRange(a: seq<int>, b: seq<int>)
    requires forall i :: 0 <= i < |a| ==> 1 <= a[i] <= 127
    requires forall i :: 0 <= i < |b| ==> 1 <= b[i] <= 127
    ensures forall i :: 0 <= i < |a + b| ==> 1 <= (a + b)[i] <= 127
  {
  }

  lemma OneMorePiece(change: int, n: nat)
    requires change != 0 && 63 * (n - 1) < Magnitude(change - Clamp(change, -63, 63)) <= 63 * n
    ensures 63 * n < Magnitude(change) <= 63 * (n + 1)
  {
  }

  lemma SumOne(mode: Mode, value: int)
    ensures Sum(mode, [value]) == Understood(mode, value)
  {
    assert [value][..0] == [];
  }

  class Encoder {
    var mode: Mode
    var step: int
    var value: int
    var position: int
    var seen: bool

    constructor (mode: Mode, step: int, value: Byte)
      ensures this.mode == mode && this.step == step && this.value == value && !seen
    {
      this.mode, this.step, this.value := mode, step, value;
      position, seen := 0, false;
    }

    /** The values sent for a turn. */
    method Turn(detents: int) returns (sent: seq<int>)
      modifies this`value
      ensures !mode.Absolute? ==> value == old(value) && sent == Values(mode, Pieces(detents * step))
      ensures mode.Absolute? ==>
                value == (if detents == 0 then old(value) else Clamp(old(value) + detents * step, 0, 127))
                && sent == if value == old(value) then [] else [value]
    {
      sent := [];
      if detents == 0 {
        assert detents * step == 0 && Values(mode, Pieces(0)) == [];
        return;
      }
      var change := detents * step;
      if mode.Absolute? {
        var next := Clamp(value + change, 0, 127);
        if next != value {
          value := next;
          sent := [value];
        }
        return;
      }
      ghost var whole := Values(mode, Pieces(change));
      while change != 0
        invariant value == old(value) && sent + Values(mode, Pieces(change)) == whole
        decreases if change < 0 then -change else change
      {
        var take := Clamp(change, -63, 63);
        ValuesStep(mode, change);
        change := change - take;
        sent := sent + [Relative(mode, take)];
      }
      assert Values(mode, Pieces(0)) == [] && sent + [] == sent;
    }

    /** An absolute position; the first only says where the encoder is. */
    method Update(position: int) returns (sent: seq<int>)
      modifies this
      ensures seen && this.position == position && mode == old(mode) && step == old(step)
      ensures !old(seen) ==> sent == [] && value == old(value)
      ensures old(seen) && !mode.Absolute? ==>
                value == old(value) && sent == Values(mode, Pieces((position - old(this.position)) * step))
      ensures old(seen) && mode.Absolute? ==>
                && value == (if position == old(this.position) then old(value)
                             else Clamp(old(value) + (position - old(this.position)) * step, 0, 127))
                && sent == if value == old(value) then [] else [value]
    {
      if !seen {
        seen, this.position := true, position;
        return [];
      }
      var delta := position - this.position;
      if delta == 0 {
        return [];
      }
      this.position := position;
      sent := Turn(delta);
    }
  }

  /** Everything a relative encoder sends over a sequence of positions. */
  function Journey(mode: Mode, step: int, positions: seq<int>): seq<int> {
    if |positions| <= 1 then []
    else
      var n := |positions|;
      Journey(mode, step, positions[..n - 1]) + Values(mode, Pieces((positions[n - 1] - positions[n - 2]) * step))
  }

  /** Over any positions, what receivers add up is step times the distance. */
  lemma {:induction false} JourneyIsConserved(mode: Mode, step: int, positions: seq<int>)
    requires !mode.Absolute? && positions != []
    ensures Sum(mode, Journey(mode, step, positions)) == step * (positions[|positions| - 1] - positions[0])
    ensures forall i :: 0 <= i < |Journey(mode, step, positions)| ==> 1 <= Journey(mode, step, positions)[i] <= 127
  {
    hide Sum, Values, Pieces, Journey;
    var n := |positions|;
    if n == 1 {
      NoJourney(mode, step, positions);
    } else {
      JourneyIsConserved(mode, step, positions[..n - 1]);
      NextLeg(mode, step, positions);
      JourneySum(step, positions[n - 2] - positions[0], positions[n - 1] - positions[n - 2]);
    }
  }

  lemma NoJourney(mode: Mode, step: int, positions: seq<int>)
    requires |positions| == 1
    ensures Journey(mode, step, positions) == [] && Sum(mode, []) == 0
  {
  }

  lemma NextLeg(mode: Mode, step: int, positions: seq<int>)
    requires !mode.Absolute? && |positions| > 1
    ensures var n := |positions|;
            var before, all := Journey(mode, step, positions[..n - 1]), Journey(mode, step, positions);
            && Sum(mode, all) == Sum(mode, before) + (positions[n - 1] - positions[n - 2]) * step
            && before <= all && forall i :: |before| <= i < |all| ==> 1 <= all[i] <= 127
  {
    hide Sum, Values, Pieces, Magnitude;
    var n := |positions|;
    var change := (positions[n - 1] - positions[n - 2]) * step;
    ChangeIsConserved(mode, change);
    SumConcat(mode, Journey(mode, step, positions[..n - 1]), Values(mode, Pieces(change)));
  }

  lemma JourneySum(step: int, before: int, leg: int)
    ensures step * before + leg * step == step * (before + leg)
  {
  }

  // --- Analog ---

  datatype AnalogConfig = AnalogConfig(rawMin: U16, rawMax: U16, outLow: Byte, outHigh: Byte)
  {
    function Low(): U16 { if rawMax >= rawMin then rawMin else rawMax }
    function High(): U16 { if rawMax >= rawMin then rawMax else rawMin }

    /** Distance from the end the configuration calls the bottom. */
    function Position(raw: U16): nat {
      var clamped := Clamp(raw, Low(), High());
      if rawMax >= rawMin then clamped - Low() else High() - clamped
    }

    function Map(raw: U16): int {
      var low, high := outLow % 0x80, outHigh % 0x80;
      if High() == Low() then low
      else if high >= low then (low + Interpolate(Position(raw), High() - Low(), high - low)) % 0x100
      else (low - Interpolate(Position(raw), High() - Low(), low - high)) % 0x100
    }
  }

  /** How far a reading lies from rawMin towards rawMax, no further than either. */
  lemma PositionIs(c: AnalogConfig, raw: U16)
    ensures c.rawMin <= c.rawMax ==>
              c.High() - c.Low() == c.rawMax - c.rawMin
              && c.Position(raw) == if raw <= c.rawMin then 0
                                    else if raw >= c.rawMax then c.rawMax - c.rawMin else raw - c.rawMin
    ensures c.rawMin > c.rawMax ==>
              c.High() - c.Low() == c.rawMin - c.rawMax
              && c.Position(raw) == if raw >= c.rawMin then 0
                                    else if raw <= c.rawMax then c.rawMin - c.rawMax else c.rawMin - raw
  {
  }

  /** Either range may be reversed: rawMin maps to outLow and rawMax to outHigh, what
      lies beyond them too, in between within half a unit of the straight line, and
      in order. A range of one point maps to outLow. */
  lemma AnalogFollowsLine(c: AnalogConfig, raw: U16, other: U16)
    ensures var low, high := c.outLow % 0x80, c.outHigh % 0x80;
            && (c.rawMin == c.rawMax ==> c.Map(raw) == low)
            && (c.rawMin < c.rawMax ==>
                  && (raw <= c.rawMin ==> c.Map(raw) == low) && (raw >= c.rawMax ==> c.Map(raw) == high)
                  && (raw <= other ==> if low <= high then c.Map(raw) <= c.Map(other) else c.Map(raw) >= c.Map(other))
                  && (c.rawMin <= raw <= c.rawMax ==>
                        AlmostLine(raw - c.rawMin, c.rawMax - c.rawMin, low, high, c.Map(raw))))
            && (c.rawMin > c.rawMax ==>
                  && (raw >= c.rawMin ==> c.Map(raw) == low) && (raw <= c.rawMax ==> c.Map(raw) == high)
                  && (raw >= other ==> if low <= high then c.Map(raw) <= c.Map(other) else c.Map(raw) >= c.Map(other))
                  && (c.rawMax <= raw <= c.rawMin ==>
                        AlmostLine(c.rawMin - raw, c.rawMin - c.rawMax, low, high, c.Map(raw))))
  {
    hide AnalogConfig.Map, AnalogConfig.Position, AnalogConfig.Low, AnalogConfig.High, AlmostLine;
    if c.rawMin == c.rawMax {
      AnalogPoint(c, raw);
    } else {
      PositionIs(c, raw);
      PositionIs(c, other);
      PositionIs(c, c.rawMin);
      PositionIs(c, c.rawMax);
      AnalogEnds(c);
      if c.Position(raw) <= c.Position(other) { AnalogInOrder(c, raw, other); }
      AnalogSame(c, raw, c.rawMin);
      AnalogSame(c, raw, c.rawMax);
      AnalogNear(c, raw);
    }
  }

  /** out lies within half a unit of the line from low at 0 to high at span. */
  ghost predicate AlmostLine(position: nat, span: nat, low: int, high: int, out: int) {
    var line := 2 * position * (high - low);
    line - span <= 2 * ((out - low) * span) <= line + span
  }

  lemma AnalogPoint(c: AnalogConfig, raw: U16)
    requires c.rawMin == c.rawMax
    ensures c.Map(raw) == c.outLow % 0x80
  {
    hide Interpolate;
  }

  /** A reading counts by its position alone. */
  lemma AnalogSame(c: AnalogConfig, raw: U16, other: U16)
    ensures c.Position(raw) == c.Position(other) ==> c.Map(raw) == c.Map(other)
  {
    hide Interpolate, AnalogConfig.Position;
  }

  lemma AnalogEnds(c: AnalogConfig)
    requires c.rawMin != c.rawMax
    ensures c.Map(c.rawMin) == c.outLow % 0x80 && c.Map(c.rawMax) == c.outHigh % 0x80
  {
    hide Interpolate, AnalogConfig.Map;
    AnalogExact(c, c.rawMin);
    AnalogExact(c, c.rawMax);
    var low, high := c.outLow % 0x80, c.outHigh % 0x80;
    InterpolateEnds(c.High() - c.Low(), if low <= high then high - low else low - high);
  }

  lemma AnalogInOrder(c: AnalogConfig, raw: U16, other: U16)
    requires c.rawMin != c.rawMax && c.Position(raw) <= c.Position(other)
    ensures if c.outLow % 0x80 <= c.outHigh % 0x80 then c.Map(raw) <= c.Map(other) else c.Map(raw) >= c.Map(other)
  {
    hide Interpolate, AnalogConfig.Map, AnalogConfig.Position;
    AnalogExact(c, raw);
    AnalogExact(c, other);
    var low, high := c.outLow % 0x80, c.outHigh % 0x80;
    InterpolateMonotone(c.Position(raw), c.Position(other), c.High() - c.Low(),
                        if low <= high then high - low else low - high);
  }

  lemma AnalogNear(c: AnalogConfig, raw: U16)
    requires c.rawMin != c.rawMax
    ensures var low, high, span := c.outLow % 0x80, c.outHigh % 0x80, c.High() - c.Low();
            AlmostLine(c.Position(raw), span, low, high, c.Map(raw))
  {
    hide Interpolate, AnalogConfig.Map, AnalogConfig.Position;
    AnalogExact(c, raw);
    var low, high, span := c.outLow % 0x80, c.outHigh % 0x80, c.High() - c.Low();
    var d := if low <= high then high - low else low - high;
    InterpolateNear(c.Position(raw), span, d);
    Negate(Interpolate(c.Position(raw), span, d), span);
    Negate(d, 2 * c.Position(raw));
  }

  lemma AnalogExact(c: AnalogConfig, raw: U16)
    requires c.rawMin != c.rawMax
    ensures var low, high, span := c.outLow % 0x80, c.outHigh % 0x80, c.High() - c.Low();
            && c.Position(raw) <= span
            && (if low <= high then 0 <= Interpolate(c.Position(raw), span, high - low) <= high - low
                                    && c.Map(raw) == low + Interpolate(c.Position(raw), span, high - low)
                else 0 <= Interpolate(c.Position(raw), span, low - high) <= low - high
                     && c.Map(raw) == low - Interpolate(c.Position(raw), span, low - high))
  {
    hide Interpolate;
    var low, high, span := c.outLow % 0x80, c.outHigh % 0x80, c.High() - c.Low();
    var d := if low <= high then high - low else low - high;
    InterpolateMonotone(c.Position(raw), span, span, d);
    InterpolateEnds(span, d);
  }
}
