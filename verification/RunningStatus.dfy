/** Running status: a channel voice message may leave out a status byte that
    repeats the last one, and nothing is lost whichever messages do so. */
module RunningStatus {
  import opened Midi
  import opened ByteParser
  import opened ByteSerializer

  /** An event on its way out, and whether its sender would leave out the status. */
  datatype Sent = Sent(e: Event, brief: bool)

  /** The status a following message may leave out: System Real-Time does not
      disturb it, every other system byte cancels it. */
  function RunningAfter(running: Byte, e: Event): Byte {
    if e.RealTime() then running
    else if e.Short? && IsChannelVoice(e.status) then e.status
    else 0
  }

  function Shortened(running: Byte, x: Sent): seq<Byte> {
    if x.brief && x.e.Short? && IsChannelVoice(x.e.status) && x.e.status == running
    then Encode(x.e)[1..] else Encode(x.e)
  }

  datatype Line = Line(running: Byte, bytes: seq<Byte>)

  function Shorten(running: Byte, xs: seq<Sent>): Line {
    if xs == [] then Line(running, [])
    else
      var front := Shorten(running, xs[..|xs| - 1]);
      var x := xs[|xs| - 1];
      Line(RunningAfter(front.running, x.e), front.bytes + Shortened(front.running, x))
  }

  function Events(xs: seq<Sent>): seq<Event> {
    seq(|xs|, i requires 0 <= i < |xs| => xs[i].e)
  }

  /** The parser is between messages and remembers this status. */
  ghost predicate Remembers(s: State, running: Byte) {
    s.Ok() && s.status == 0 && (s.inSysEx ==> running == 0) && (!s.inSysEx ==> s.running == running)
  }

  lemma BriefShort(s: State, e: Event)
    requires e.Short? && Remembers(s, e.status) && !s.inSysEx && Sound(e) && IsChannelVoice(e.status)
    ensures var r := Run(s, Encode(e)[1..]);
            && Remembers(r.state, e.status) && !r.state.inSysEx
            && r.state.pendingStart == s.pendingStart && r.events == [e]
  {
    var n := MessageDataLength(e.status);
    RunOne(s, e.d1);
    StepOk(s, e.d1);
    var s1 := Step(s, e.d1).state;
    assert Encode(e)[1..] == if n == 1 then [e.d1] else [e.d1] + [e.d2];
    if n == 2 {
      assert s1.status == e.status && s1.d0 == e.d1 && s1.count == 1 && s1.expected == 2;
      RunSnoc(s, [e.d1], e.d2);
      StepOk(s1, e.d2);
    }
  }

  /** A full message, or a framing or payload byte, settles the parser. */
  lemma FullSettles(s: State, e: Event, running: Byte)
    requires Remembers(s, running) && Sound(e) && After(s.inSysEx, e).Some?
    ensures Remembers(Run(s, Encode(e)).state, RunningAfter(running, e))
  {
    EncodedEvent(s, e);
    if e.Short? && !e.RealTime() {
      EncodedShort(s, e);
    } else {
      assert Encode(e) == [Encode(e)[0]];
      RunOne(s, Encode(e)[0]);
    }
    hide Run;
  }

  lemma OneSent(s: State, x: Sent, running: Byte)
    requires Remembers(s, running) && Sound(x.e) && After(s.inSysEx, x.e).Some?
    ensures var r := Run(s, Shortened(running, x));
            && Remembers(r.state, RunningAfter(running, x.e))
            && Some(r.state.inSysEx) == After(s.inSysEx, x.e)
            && r.state.pendingStart == Settle(s.pendingStart, x.e).pending
            && r.events == Settle(s.pendingStart, x.e).events
  {
    if Shortened(running, x) == Encode(x.e) {
      EncodedEvent(s, x.e);
      FullSettles(s, x.e, running);
    } else {
      BriefShort(s, x.e);
    }
    hide Run, Encode;
  }

  /** Whichever status bytes are left out, the parser reports the same events. */
  lemma {:induction false} RunningStatusIsInvisible(s: State, xs: seq<Sent>, running: Byte)
    requires Remembers(s, running) && AllSound(Events(xs)) && Track(s.inSysEx, Events(xs)).Some?
    ensures var r := Run(s, Shorten(running, xs).bytes);
            && Remembers(r.state, Shorten(running, xs).running)
            && Some(r.state.inSysEx) == Track(s.inSysEx, Events(xs))
            && r.state.pendingStart == Canonical(s.pendingStart, Events(xs)).pending
            && r.events == Canonical(s.pendingStart, Events(xs)).events
  {
    if xs == [] {
      assert Events(xs) == [];
    } else {
      var front, x := xs[..|xs| - 1], xs[|xs| - 1];
      assert Events(xs)[..|xs| - 1] == Events(front) && Events(xs)[|xs| - 1] == x.e;
      RunningStatusIsInvisible(s, front, running);
      var line := Shorten(running, front);
      OneSent(Run(s, line.bytes).state, x, line.running);
      RunConcat(s, line.bytes, Shortened(line.running, x));
    }
    hide Run, Shortened, Settle, After, RunningAfter, Remembers;
  }

  /** With no status to belong to, data bytes are dropped, however many. */
  lemma {:induction false} OrphansAreDropped(s: State, bytes: seq<Byte>)
    requires Remembers(s, 0) && !s.inSysEx && SevenBit(bytes)
    ensures Run(s, bytes) == Result(s, [])
  {
    if bytes != [] { OrphansAreDropped(s, bytes[..|bytes| - 1]); }
  }
}
