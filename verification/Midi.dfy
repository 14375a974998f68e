/** The vocabulary every other module speaks: status bytes, messages, and the
    events a message stands for once chunk boundaries are forgotten. */
module Midi {

  type Byte = b: int | 0 <= b < 0x100

  /** A port handle. 0xffff is the invalid handle. */
  type Port = p: int | 0 <= p <= 0xffff

  const INVALID: Port := 0xffff

  const SYSEX_START: Byte := 0xf0
  const SYSEX_END: Byte := 0xf7

  datatype Option<+T> = None | Some(value: T)

  /** Into the board, or out of it. */
  datatype Direction = In | Out

  // --- Lists ---

  /** Each element replaced by a list, in order. */
  function FlatMap<T, U>(f: T -> seq<U>, s: seq<T>): seq<U> {
    if s == [] then [] else FlatMap(f, s[..|s| - 1]) + f(s[|s| - 1])
  }

  lemma Associative<T>(a: seq<T>, b: seq<T>, c: seq<T>)
    ensures (a + b) + c == a + (b + c)
  {
  }

  lemma FlatMapSnoc<T, U>(f: T -> seq<U>, s: seq<T>, x: T)
    ensures FlatMap(f, s + [x]) == FlatMap(f, s) + f(x)
  {
    assert (s + [x])[..|s|] == s;
  }

  lemma FlatMapOne<T, U>(f: T -> seq<U>, x: T)
    ensures FlatMap(f, [x]) == f(x)
  {
    FlatMapSnoc(f, [], x);
    assert [] + [x] == [x];
  }

  lemma {:induction false} FlatMapConcat<T, U>(f: T -> seq<U>, a: seq<T>, b: seq<T>)
    ensures FlatMap(f, a + b) == FlatMap(f, a) + FlatMap(f, b)
  {
    if b == [] {
      assert a + b == a;
    } else {
      assert (a + b)[..|a + b| - 1] == a + b[..|b| - 1];
      FlatMapConcat(f, a, b[..|b| - 1]);
    }
  }

  // --- Status byte classification ---

  predicate IsStatus(b: Byte) { b >= 0x80 }

  predicate IsRealTime(b: Byte) { b >= 0xf8 }

  predicate IsChannelVoice(b: Byte) { 0x80 <= b < 0xf0 }

  /** Data bytes a status byte is followed by; negative for a byte that is not a
      status (-1), a stream start (-2), a stream end (-3) or undefined (-4). */
  function MessageDataLength(status: Byte): int {
    if !IsStatus(status) then -1
    else if status < 0xf0 then (if 0xc0 <= status < 0xe0 then 1 else 2)
    else if status == 0xf0 then -2
    else if status == 0xf1 || status == 0xf3 then 1
    else if status == 0xf2 then 2
    else if status == 0xf4 || status == 0xf5 then -4
    else if status == 0xf7 then -3
    else 0
  }

  // --- Messages ---

  /** One message. `payload` holds a chunk's bytes without the 0xF0 / 0xF7
      framing and is empty for a short message. */
  datatype Message = Message(
    port: Port,
    status: Byte,
    data1: Byte,
    data2: Byte,
    dataLength: nat,
    chunk: bool,
    chunkStart: bool,
    chunkEnd: bool,
    payload: seq<Byte>)
  {
    /** A chunk that does not begin its stream. */
    predicate Continuation() { chunk && !chunkStart }

    /** A chunk that begins a stream and leaves it open. */
    predicate Opens() { chunk && chunkStart && !chunkEnd }
  }

  function ShortMessage(port: Port, status: Byte, data1: Byte, data2: Byte, dataLength: nat): Message {
    Message(port, status, data1, data2, dataLength, false, false, false, [])
  }

  function ChunkMessage(port: Port, start: bool, end: bool, payload: seq<Byte>): Message {
    Message(port, SYSEX_START, 0, 0, 0, true, start, end, payload)
  }

  ghost predicate SevenBit(bytes: seq<Byte>) {
    forall i :: 0 <= i < |bytes| ==> bytes[i] < 0x80
  }

  // --- Events ---

  /** What a receiver learns, byte by byte, with chunk boundaries erased. */
  datatype Event = Short(status: Byte, d1: Byte, d2: Byte) | Start | Data(b: Byte) | End
  {
    predicate RealTime() { Short? && IsRealTime(status) }
  }

  function DataEvents(bytes: seq<Byte>): (es: seq<Event>)
    ensures |es| == |bytes|
    ensures forall i :: 0 <= i < |bytes| ==> es[i] == Data(bytes[i])
  {
    seq(|bytes|, i requires 0 <= i < |bytes| => Data(bytes[i]))
  }

  function StartIf(start: bool): seq<Event> { if start then [Start] else [] }

  function EndIf(end: bool): seq<Event> { if end then [End] else [] }

  function Flatten(m: Message): seq<Event> {
    if m.chunk then StartIf(m.chunkStart) + DataEvents(m.payload) + EndIf(m.chunkEnd)
    else
      var n := MessageDataLength(m.status);
      [Short(m.status, if n >= 1 then m.data1 else 0, if n >= 2 then m.data2 else 0)]
  }

  function FlattenAll(ms: seq<Message>): seq<Event> {
    FlatMap(Flatten, ms)
  }

  // --- Stream bracketing ---

  /** Whether a stream is open after `e`; None when `e` is not allowed there.
      Inside a stream only its own bytes and System Real-Time may appear. */
  function After(open: bool, e: Event): Option<bool> {
    match e
    case Short(s, _, _) => if open && !IsRealTime(s) then None else Some(open)
    case Start => if open then None else Some(true)
    case Data(_) => if open then Some(true) else None
    case End => if open then Some(false) else None
  }

  /** `After` over a whole sequence. */
  function Track(open: bool, es: seq<Event>): Option<bool> {
    if es == [] then Some(open)
    else
      match Track(open, es[..|es| - 1])
      case None => None
      case Some(o) => After(o, es[|es| - 1])
  }

  lemma {:induction false} TrackConcat(open: bool, a: seq<Event>, b: seq<Event>)
    ensures Track(open, a + b) ==
            match Track(open, a) { case None => None case Some(o) => Track(o, b) }
  {
    if b == [] {
      assert a + b == a;
    } else {
      assert (a + b)[..|a + b| - 1] == a + b[..|b| - 1];
      TrackConcat(open, a, b[..|b| - 1]);
    }
  }

  function Then(open: Option<bool>, e: Event): Option<bool> {
    match open
    case None => None
    case Some(o) => After(o, e)
  }

  lemma TrackFew(open: bool, es: seq<Event>)
    requires |es| <= 3
    ensures es == [] ==> Track(open, es) == Some(open)
    ensures |es| == 1 ==> Track(open, es) == After(open, es[0])
    ensures |es| == 2 ==> Track(open, es) == Then(After(open, es[0]), es[1])
    ensures |es| == 3 ==> Track(open, es) == Then(Then(After(open, es[0]), es[1]), es[2])
  {
    if |es| >= 1 { assert es[..1][..0] == []; }
    if |es| >= 2 { assert es[..2][..1] == es[..1]; }
    if |es| == 3 { assert es[..3] == es; }
  }
}
