/** Bytes in, one route, bytes out: the parser, `receive`'s splitting, the stream
    rules and the serializer together change nothing a receiver can tell. */
module RouterWire {
  import opened Midi
  import opened Routing
  import opened RouterTrace
  import BP = ByteParser
  import BS = ByteSerializer

  // --- receive(): cutting a chunk to queue entries ---

  /** The entries of a chunk from `offset` on: only the first keeps the start,
      only the last the end. */
  function Pieces(m: Message, offset: nat): (ms: seq<Message>)
    requires offset <= |m.payload|
    ensures ms != []
    decreases |m.payload| - offset
  {
    var remaining := |m.payload| - offset;
    var take := if remaining > CHUNK_BYTES then CHUNK_BYTES else remaining;
    var last := offset + take >= |m.payload|;
    var piece := m.(payload := m.payload[offset..offset + take],
                    chunkStart := offset == 0 && m.chunkStart,
                    chunkEnd := last && m.chunkEnd);
    if last then [piece] else [piece] + Pieces(m, offset + take)
  }

  /** The queue entries one received message becomes. */
  function Split(m: Message): seq<Message> {
    if m.port == INVALID then []
    else if m.chunk then Pieces(m, 0)
    else [m.(payload := [])]
  }

  lemma {:induction false} PiecesFlatten(m: Message, offset: nat)
    requires m.chunk && offset <= |m.payload|
    ensures FlattenAll(Pieces(m, offset)) ==
            StartIf(offset == 0 && m.chunkStart) + DataEvents(m.payload[offset..]) + EndIf(m.chunkEnd)
    decreases |m.payload| - offset
  {
    var remaining := |m.payload| - offset;
    var take := if remaining > CHUNK_BYTES then CHUNK_BYTES else remaining;
    var piece := Pieces(m, offset)[0];
    FlatMapOne(Flatten, piece);
    if remaining > CHUNK_BYTES {
      var rest := Pieces(m, offset + take);
      assert Pieces(m, offset) == [piece] + rest;
      PiecesFlatten(m, offset + take);
      FlatMapConcat(Flatten, [piece], rest);
      PieceEvents(m, offset, take, piece);
      Rejoin(m, offset, take);
    } else {
      assert Pieces(m, offset) == [piece] && m.payload[offset..offset + take] == m.payload[offset..];
    }
    hide FlatMap, Pieces, StartIf, EndIf;
  }

  lemma PieceEvents(m: Message, offset: nat, take: nat, piece: Message)
    requires m.chunk && offset + take < |m.payload|
    requires piece == m.(payload := m.payload[offset..offset + take], chunkStart := offset == 0 && m.chunkStart,
                         chunkEnd := false)
    ensures Flatten(piece) ==
            StartIf(offset == 0 && m.chunkStart) + DataEvents(m.payload[offset..offset + take]) + EndIf(false)
  {
  }

  lemma Rejoin(m: Message, offset: nat, take: nat)
    requires offset + take <= |m.payload|
    ensures (StartIf(offset == 0 && m.chunkStart) + DataEvents(m.payload[offset..offset + take]) + EndIf(false))
            + (StartIf(false) + DataEvents(m.payload[offset + take..]) + EndIf(m.chunkEnd))
            == StartIf(offset == 0 && m.chunkStart) + DataEvents(m.payload[offset..]) + EndIf(m.chunkEnd)
  {
    Regroup(StartIf(offset == 0 && m.chunkStart), m.payload[offset..offset + take], m.payload[offset + take..],
            EndIf(m.chunkEnd));
    assert m.payload[offset..offset + take] + m.payload[offset + take..] == m.payload[offset..];
  }

  lemma Regroup(start: seq<Event>, a: seq<Byte>, b: seq<Byte>, end: seq<Event>)
    ensures (start + DataEvents(a) + EndIf(false)) + (StartIf(false) + DataEvents(b) + end) ==
            start + DataEvents(a + b) + end
  {
    assert DataEvents(a + b) == DataEvents(a) + DataEvents(b);
  }

  /** The part of a chunk in its entry number k. */
  function Entry48(m: Message, k: nat): Message {
    var from := if 48 * k < |m.payload| then 48 * k else |m.payload|;
    var to := if 48 * k + 48 < |m.payload| then 48 * k + 48 else |m.payload|;
    m.(payload := m.payload[from..to],
       chunkStart := k == 0 && m.chunkStart,
       chunkEnd := 48 * k + 48 >= |m.payload| && m.chunkEnd)
  }

  /** A chunk becomes one entry for each 48 bytes begun, and one if it is empty. */
  lemma {:induction false} PiecesCount(m: Message, k: nat)
    requires 48 * k < |m.payload| || k == 0
    ensures var n := k + |Pieces(m, 48 * k)|;
            if m.payload == [] then n == 1 else 48 * (n - 1) < |m.payload| <= 48 * n
    decreases |m.payload| - 48 * k
  {
    hide Pieces, Entry48;
    FirstEntry(m, k);
    if 48 * (k + 1) < |m.payload| { PiecesCount(m, k + 1); }
  }

  /** All entries but the last are full, each has its own part of the payload, only
      the first may start the stream and only the last end it, and nothing else
      changes. */
  lemma {:induction false} PieceIs(m: Message, k: nat, i: nat)
    requires (48 * k < |m.payload| || k == 0) && i < |Pieces(m, 48 * k)|
    ensures Pieces(m, 48 * k)[i] == Entry48(m, k + i)
    decreases i
  {
    hide Pieces, Entry48;
    FirstEntry(m, k);
    if i > 0 { PieceIs(m, k + 1, i - 1); }
  }

  lemma FirstEntry(m: Message, k: nat)
    requires 48 * k < |m.payload| || k == 0
    ensures Pieces(m, 48 * k) ==
            [Entry48(m, k)] + if 48 * (k + 1) < |m.payload| then Pieces(m, 48 * (k + 1)) else []
  {
  }

  /** Splitting changes no event. */
  lemma SplitFlatten(m: Message)
    requires m.port != INVALID
    ensures FlattenAll(Split(m)) == Flatten(m)
  {
    if m.chunk {
      PiecesFlatten(m, 0);
      assert m.payload[0..] == m.payload;
    } else {
      FlatMapOne(Flatten, m.(payload := []));
    }
  }

  /** A queue entry on its way from port p: it fits, its data is 7-bit, and a
      chunk carries a byte or an end. */
  ghost predicate Queued(m: Message, p: Port) {
    && m.port == p && |m.payload| <= CHUNK_BYTES
    && if m.chunk then SevenBit(m.payload) && (m.chunkEnd || m.payload != [])
       else MessageDataLength(m.status) >= 0 && m.data1 < 0x80 && m.data2 < 0x80
  }

  ghost predicate AllQueued(ms: seq<Message>, p: Port) {
    forall i :: 0 <= i < |ms| ==> Queued(ms[i], p)
  }

  lemma {:induction false} PiecesQueued(m: Message, offset: nat)
    requires m.chunk && BP.Proper(m) && offset <= |m.payload| && (offset < |m.payload| || offset == 0)
    ensures AllQueued(Pieces(m, offset), m.port)
    decreases |m.payload| - offset
  {
    if |m.payload| - offset > CHUNK_BYTES {
      PiecesQueued(m, offset + CHUNK_BYTES);
    }
  }

  lemma {:induction false} SplitAll(ms: seq<Message>, p: Port)
    requires BP.AllProper(ms, p) && p != INVALID
    ensures AllQueued(FlatMap(Split, ms), p)
    ensures FlattenAll(FlatMap(Split, ms)) == FlattenAll(ms)
  {
    if ms != [] {
      var front, m := ms[..|ms| - 1], ms[|ms| - 1];
      SplitAll(front, p);
      SplitFlatten(m);
      if m.chunk { PiecesQueued(m, 0); }
      FlatMapConcat(Flatten, FlatMap(Split, front), Split(m));
      hide Flatten, Pieces;
    }
  }

  // --- One route ---

  const NO_RULES := Rules(None, None, None)

  /** A single transparent route from input p to output o on another endpoint. */
  ghost predicate SingleRoute(cfg: Config, p: Port, o: Output) {
    && cfg.Sized() && p < MAX_PORTS && o < |cfg.view.ports|
    && (forall i :: 0 <= i < |cfg.stages| ==> cfg.stages[i] == NO_RULES)
    && |cfg.routes| == 1
    && (var r := cfg.routes[0];
        && r.used && r.enabled && !r.sourceIsGroup && !r.destIsGroup
        && r.source == p && r.dest == o && r.rules == NO_RULES)
    && cfg.view.DirectionOf(o) == Out && !cfg.view.SameEndpoint(p, o)
  }

  lemma {:induction false} SinglePlanOutputs(cfg: Config, m: Message, o: Output, n: nat)
    requires SingleRoute(cfg, m.port, o) && n <= MAX_PORTS
    ensures PlanOutputs(cfg, cfg.routes[0], m.port, m, n) == if o < n then [Offer(o, m)] else []
  {
    if n > 0 { SinglePlanOutputs(cfg, m, o, n - 1); }
  }

  lemma SinglePlan(cfg: Config, m: Message, o: Output)
    requires SingleRoute(cfg, m.port, o)
    ensures PlanRoutes(cfg, m, |cfg.routes|) == [Offer(o, m)]
  {
    SinglePlanOutputs(cfg, m, o, cfg.Outputs());
    assert PlanRoutes(cfg, m, 0) == [];
    assert PlanRoutes(cfg, m, 1) == [] + PlanRoute(cfg, cfg.routes[0], m);
  }

  /** Whether a stream is open after m; None when m is not allowed there. */
  function AfterMessage(open: bool, m: Message): Option<bool> {
    if !m.chunk then (if open && !IsRealTime(m.status) then None else Some(open))
    else if m.chunkStart == open then None
    else Some(!m.chunkEnd)
  }

  lemma TrackOne(open: bool, e: Event)
    ensures Track(open, [e]) == After(open, e)
  {
    assert [e][..0] == [];
  }

  lemma {:induction false} TrackData(bytes: seq<Byte>, open: bool)
    requires bytes != []
    ensures Track(open, DataEvents(bytes)) == if open then Some(true) else None
  {
    var front, b := bytes[..|bytes| - 1], bytes[|bytes| - 1];
    assert DataEvents(bytes)[..|bytes| - 1] == DataEvents(front);
    if front != [] { TrackData(front, open); }
  }

  /** Bracketed events come only from messages in a bracketed order. */
  lemma TrackMessage(open: bool, m: Message, p: Port)
    requires Queued(m, p) && Track(open, Flatten(m)).Some?
    ensures AfterMessage(open, m) == Track(open, Flatten(m))
  {
    if m.chunk {
      var start, data, end := StartIf(m.chunkStart), DataEvents(m.payload), EndIf(m.chunkEnd);
      TrackConcat(open, start + data, end);
      TrackConcat(open, start, data);
      if m.chunkStart { TrackOne(open, Start); }
      if m.payload != [] { TrackData(m.payload, if m.chunkStart then true else open); }
      if m.chunkEnd { TrackOne(true, End); TrackOne(false, End); }
      hide Track;
    } else {
      TrackOne(open, Flatten(m)[0]);
    }
  }

  ghost predicate TakesAll(sinks: Sinks) {
    forall o: Output, log, m :: sinks(o, log, m)
  }

  /** p's stream and the claim on o agree. */
  ghost predicate Straight(s: State, p: Port, o: Output, open: bool)
    requires p < MAX_PORTS
  {
    && s.Sized() && s.pending == {}
    && s.owner[o] == (if open then p else INVALID)
    && s.streams[p].open == open && (open ==> s.streams[p].targets == {o})
  }

  lemma {:induction false} SingleTarget(m: Message, o: Output, n: nat)
    requires n <= MAX_PORTS
    ensures PlanTargets({o}, m, n) == if o < n then [Offer(o, m)] else []
  {
    if n > 0 { SingleTarget(m, o, n - 1); }
  }

  lemma PerformOne(f: Fan, cfg: Config, sinks: Sinks, op: Op)
    requires f.state.Sized() && cfg.Sized()
    ensures Perform(f, cfg, sinks, [op]) == Do(f, cfg, sinks, op)
  {
    assert [] + [op] == [op];
    PerformSnoc(f, cfg, sinks, [], op);
  }

  /** A message in bracketed order is handed over as it is. */
  lemma DispatchStraight(s: State, cfg: Config, sinks: Sinks, m: Message, o: Output, open: bool)
    requires TakesAll(sinks) && m.port < MAX_PORTS && SingleRoute(cfg, m.port, o) && Straight(s, m.port, o, open)
    requires AfterMessage(open, m).Some?
    ensures var t := Dispatch(s, cfg, sinks, m);
            && Straight(t, m.port, o, AfterMessage(open, m).value)
            && t.logs[o] == s.logs[o] + [Handed(m, true)]
  {
    assert RunStage(cfg.stages[m.port], m) == Kept(m) && RunStage(cfg.stages[o], m) == Kept(m);
    if m.Continuation() {
      SingleTarget(m, o, MAX_PORTS);
    } else {
      SinglePlan(cfg, m, o);
    }
    PerformOne(Idle(s), cfg, sinks, Offer(o, m));
    hide RunStage, Perform, PlanRoutes, PlanTargets;
  }

  // --- Passes ---

  /** The messages dispatched in a run. */
  function Arrivals(steps: seq<Step>): seq<Message> {
    if steps == [] then []
    else
      var step := steps[|steps| - 1];
      Arrivals(steps[..|steps| - 1]) + if step.Arrives? then [step.m] else []
  }

  /** Passes over the queue: entries dispatched to a sink that takes everything,
      and the beginnings of further passes. */
  ghost predicate Passes(steps: seq<Step>) {
    forall i :: 0 <= i < |steps| ==> steps[i].Closes? || (steps[i].Arrives? && TakesAll(steps[i].sinks))
  }

  function Taken(ms: seq<Message>): seq<Entry> {
    FlatMap((m: Message) => [Handed(m, true)], ms)
  }

  /** Nothing is pending, so the beginning of a pass does nothing. */
  lemma {:induction false} QuietPass(s: State, cfg: Config, sinks: Sinks, n: nat)
    requires s.Sized() && cfg.Sized() && n <= MAX_PORTS && s.pending == {}
    ensures CloseInputs(s, cfg, sinks, n) == s
  {
    if n > 0 { QuietPass(s, cfg, sinks, n - 1); }
  }

  lemma {:induction false} QueuedOrder(ms: seq<Message>, p: Port)
    requires ms != [] && AllQueued(ms, p) && Track(false, FlattenAll(ms)).Some?
    ensures var front, m := ms[..|ms| - 1], ms[|ms| - 1];
            && Track(false, FlattenAll(front)).Some?
            && Track(false, FlattenAll(ms)) == AfterMessage(Track(false, FlattenAll(front)).value, m)
  {
    var front, m := ms[..|ms| - 1], ms[|ms| - 1];
    TrackConcat(false, FlattenAll(front), Flatten(m));
    TrackMessage(Track(false, FlattenAll(front)).value, m, p);
  }

  /** From w to x the route has handed over ms as they are, and no more. */
  ghost predicate HandedOver(w: World, x: World, ms: seq<Message>, p: Port, o: Output)
    requires p < MAX_PORTS && w.Sized()
  {
    && x.Sized() && x.cfg == w.cfg && Track(false, FlattenAll(ms)).Some?
    && Straight(x.state, p, o, Track(false, FlattenAll(ms)).value)
    && x.state.logs[o] == w.state.logs[o] + Taken(ms)
  }

  /** Queued messages of a bracketed sequence come out exactly as they went in,
      however the passes fall. */
  lemma RouteIsTransparent(w: World, steps: seq<Step>, p: Port, o: Output)
    requires p < MAX_PORTS && SingleRoute(w.cfg, p, o) && Straight(w.state, p, o, false)
    requires Passes(steps) && AllQueued(Arrivals(steps), p) && Track(false, FlattenAll(Arrivals(steps))).Some?
    ensures AllPossible(steps)
    ensures var x := Run(w, steps);
            && x.cfg == w.cfg
            && Straight(x.state, p, o, Track(false, FlattenAll(Arrivals(steps))).value)
            && x.state.logs[o] == w.state.logs[o] + Taken(Arrivals(steps))
  {
    assert w.Sized();
    hide Run, Track, Taken, Straight, SingleRoute, FlatMap, Arrivals, AllQueued;
    HandsOver(w, steps, p, o);
  }

  lemma {:induction false} HandsOver(w: World, steps: seq<Step>, p: Port, o: Output)
    requires w.Sized() && p < MAX_PORTS && SingleRoute(w.cfg, p, o) && Straight(w.state, p, o, false)
    requires Passes(steps) && AllQueued(Arrivals(steps), p) && Track(false, FlattenAll(Arrivals(steps))).Some?
    ensures AllPossible(steps) && HandedOver(w, Run(w, steps), Arrivals(steps), p, o)
  {
    hide Run, Next, Track, Straight, SingleRoute, FlatMap, Arrivals, AllQueued, HandedOver, AfterMessage;
    if steps == [] {
      NoPass(w, p, o);
    } else {
      var front, step := steps[..|steps| - 1], steps[|steps| - 1];
      ArrivalsFront(steps, p);
      HandsOver(w, front, p, o);
      assert front + [step] == steps;
      RunSnoc(w, front, step);
      OneMoreStep(w, Run(w, front), Arrivals(front), step, p, o);
    }
  }

  lemma OneMoreStep(w: World, x: World, ms: seq<Message>, step: Step, p: Port, o: Output)
    requires w.Sized() && p < MAX_PORTS && SingleRoute(w.cfg, p, o) && HandedOver(w, x, ms, p, o)
    requires step.Closes? || (step.Arrives? && TakesAll(step.sinks) && step.m.port == p)
    requires step.Arrives? ==>
               && Track(false, FlattenAll(ms + [step.m])).Some?
               && Track(false, FlattenAll(ms + [step.m])) ==
                  AfterMessage(Track(false, FlattenAll(ms)).value, step.m)
    ensures HandedOver(w, Next(x, step), if step.Arrives? then ms + [step.m] else ms, p, o)
  {
    hide Next, Track, Taken, Straight, SingleRoute, FlatMap;
    OnePass(x, step, p, o, Track(false, FlattenAll(ms)).value);
    if step.Arrives? { TakenSnoc(ms, step.m); }
  }

  /** What the last step of a run brings to what arrived before it. */
  lemma ArrivalsFront(steps: seq<Step>, p: Port)
    requires steps != [] && AllQueued(Arrivals(steps), p) && Track(false, FlattenAll(Arrivals(steps))).Some?
    ensures var before, step := Arrivals(steps[..|steps| - 1]), steps[|steps| - 1];
            && AllQueued(before, p) && Track(false, FlattenAll(before)).Some?
            && if step.Arrives? then
                 && step.m.port == p && Arrivals(steps) == before + [step.m]
                 && Track(false, FlattenAll(Arrivals(steps))) ==
                    AfterMessage(Track(false, FlattenAll(before)).value, step.m)
               else Arrivals(steps) == before
  {
    hide Arrivals, AllQueued, Track, FlatMap, AfterMessage;
    var front, step := steps[..|steps| - 1], steps[|steps| - 1];
    ArrivalsSnoc(front, step);
    assert front + [step] == steps;
    if step.Arrives? {
      QueuedSnoc(Arrivals(front), step.m, p);
      QueuedOrder(Arrivals(steps), p);
    } else {
      assert Arrivals(front) + [] == Arrivals(front);
    }
  }

  lemma QueuedSnoc(ms: seq<Message>, m: Message, p: Port)
    requires AllQueued(ms + [m], p)
    ensures AllQueued(ms, p) && Queued(m, p) && (ms + [m])[..|ms|] == ms
  {
    assert (ms + [m])[|ms|] == m;
    forall i | 0 <= i < |ms| ensures Queued(ms[i], p) { assert (ms + [m])[i] == ms[i]; }
    hide Queued;
  }

  lemma ArrivalsSnoc(steps: seq<Step>, step: Step)
    ensures Arrivals(steps + [step]) == Arrivals(steps) + if step.Arrives? then [step.m] else []
  {
    assert (steps + [step])[..|steps|] == steps;
  }

  lemma NoPass(w: World, p: Port, o: Output)
    requires w.Sized() && p < MAX_PORTS && Straight(w.state, p, o, false)
    ensures Run(w, []) == w && Arrivals([]) == [] && HandedOver(w, w, [], p, o)
  {
    hide Straight;
  }

  /** One more arrival, or the beginning of one more pass. */
  lemma OnePass(x: World, step: Step, p: Port, o: Output, open: bool)
    requires p < MAX_PORTS && x.Sized() && SingleRoute(x.cfg, p, o) && Straight(x.state, p, o, open)
    requires step.Closes? || (step.Arrives? && TakesAll(step.sinks))
    requires step.Arrives? ==> step.m.port == p && AfterMessage(open, step.m).Some?
    ensures var y := Next(x, step);
            && y.cfg == x.cfg
            && if step.Arrives? then
                 Straight(y.state, p, o, AfterMessage(open, step.m).value)
                 && y.state.logs[o] == x.state.logs[o] + [Handed(step.m, true)]
               else y == x
  {
    hide Straight, SingleRoute, Dispatch, CloseInputs;
    if step.Arrives? {
      DispatchStraight(x.state, x.cfg, step.sinks, step.m, o, open);
    } else {
      StraightIsQuiet(x.state, p, o, open);
      QuietPass(x.state, x.cfg, step.sinks, MAX_PORTS);
    }
  }

  lemma TakenSnoc(ms: seq<Message>, m: Message)
    ensures Taken(ms + [m]) == Taken(ms) + [Handed(m, true)]
  {
    assert (ms + [m])[..|ms|] == ms;
  }

  lemma StraightIsQuiet(s: State, p: Port, o: Output, open: bool)
    requires p < MAX_PORTS && Straight(s, p, o, open)
    ensures s.pending == {} && s.(pending := {}) == s
  {
  }

  // --- The serializer at the other end ---

  /** The bytes a serializer writes for messages its transport takes. */
  function Wire(open: bool, ms: seq<Message>): BS.Session {
    BS.Converse(open, Calls(ms))
  }

  function Calls(ms: seq<Message>): seq<BS.Call> {
    seq(|ms|, i requires 0 <= i < |ms| => BS.Call(ms[i], BS.TAKES_ALL))
  }

  lemma {:induction false} WireIsEncoded(ms: seq<Message>, p: Port)
    requires AllQueued(ms, p) && Track(false, FlattenAll(ms)).Some?
    ensures var session := Wire(false, ms);
            && Some(session.open) == Track(false, FlattenAll(ms))
            && session.wire == FlatMap(BS.Encode, FlattenAll(ms))
  {
    if ms != [] {
      var front, m := ms[..|ms| - 1], ms[|ms| - 1];
      QueuedOrder(ms, p);
      WireIsEncoded(front, p);
      assert Calls(ms)[..|ms| - 1] == Calls(front);
      BS.WrittenIsEncoded(Wire(false, front).open, m);
      FlatMapConcat(BS.Encode, FlattenAll(front), Flatten(m));
      hide Track, Flatten, BS.Written;
    }
  }

  /** Wire to wire: any bytes, rendered by the parser in whatever messages, split
      by `receive`, routed over any passes and serialized, parse back to the
      events the original bytes stood for. */
  lemma WireToWire(w: World, bytes: seq<Byte>, ms: seq<Message>, steps: seq<Step>, p: Port, o: Output)
    requires p < MAX_PORTS && SingleRoute(w.cfg, p, o) && Straight(w.state, p, o, false)
    requires BP.AllProper(ms, p) && FlattenAll(ms) == BP.Run(BP.INITIAL, bytes).events
    requires Passes(steps) && Arrivals(steps) == FlatMap(Split, ms)
    ensures AllPossible(steps)
    ensures var entries := FlatMap(Split, ms);
            && Run(w, steps).state.logs[o] == w.state.logs[o] + Taken(entries)
            && BP.Run(BP.INITIAL, Wire(false, entries).wire).events == BP.Run(BP.INITIAL, bytes).events
  {
    var entries := FlatMap(Split, ms);
    SplitAll(ms, p);
    BP.EventsBracketed(BP.INITIAL, bytes);
    RouteIsTransparent(w, steps, p, o);
    WireIsEncoded(entries, p);
    BS.ReparseParsed(bytes, BP.INITIAL);
  }
}
