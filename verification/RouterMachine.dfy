/** The queue and the router as one machine: any number of tasks in `receive`, the
    sketch in `update`, ports going away and edits, interleaved one atomic step at
    a time. Whatever the schedule, what the router does is one of the runs of
    module Routing, over a prefix of what was reserved. */
module RouterMachine {
  import opened Arithmetic
  import opened Midi
  import opened Routing
  import opened RouterWire
  import Q = Ring
  import BP = ByteParser
  import BS = ByteSerializer
  import RouterTrace
  import RouterCounts

  datatype Machine = Machine(ring: Q.State<Message>, world: World)
  {
    ghost predicate Sized() { ring.Cap() > 0 && world.Sized() }
  }

  /** A step of the queue, with the sinks' answers if it dispatches; or a step of
      the router that takes nothing from the queue. */
  datatype Act = Queue(step: Q.Step<Message>, sinks: Sinks) | Beside(move: Step)

  /** Streams are closed as `update` begins, before it looks at the queue. */
  ghost predicate Allowed(act: Act) {
    act.Beside? ==> Possible(act.move) && !act.move.Arrives?
  }

  ghost predicate AllAllowed(acts: seq<Act>) {
    forall i :: 0 <= i < |acts| ==> Allowed(acts[i])
  }

  predicate Enabled(m: Machine, act: Act) {
    match act
    case Queue(step, _) => Q.Enabled(m.ring, step)
    case Beside(move) => move.Closes? ==> m.ring.consumer.Resting?
  }

  /** The entry a dispatching step reads from its slot. */
  function Entries(m: Machine, act: Act): (steps: seq<Step>)
    requires m.Sized() && Enabled(m, act)
  {
    match act
    case Queue(step, sinks) =>
      if !step.Dispatch? then []
      else
        var read := m.ring.slots[m.ring.At(m.ring.consumer.head)].content;
        if read.Some? then [Arrives(read.value, sinks)] else []
    case Beside(move) => [move]
  }

  function Do(m: Machine, act: Act): (x: Machine)
    requires m.Sized() && Enabled(m, act) && Allowed(act)
    ensures x.Sized()
  {
    match act
    case Queue(step, _) =>
      var steps := Entries(m, act);
      Machine(Q.Do(m.ring, step), if steps == [] then m.world else Next(m.world, steps[0]))
    case Beside(move) => m.(world := Next(m.world, move))
  }

  /** The machine after a schedule; an act that is not enabled does nothing. */
  function Execute(m: Machine, acts: seq<Act>): (x: Machine)
    requires m.Sized() && AllAllowed(acts)
    ensures x.Sized()
  {
    if acts == [] then m
    else
      var x := Execute(m, acts[..|acts| - 1]);
      if Enabled(x, acts[|acts| - 1]) then Do(x, acts[|acts| - 1]) else x
  }

  /** What the router sees of a schedule. */
  function Seen(m: Machine, acts: seq<Act>): seq<Step>
    requires m.Sized() && AllAllowed(acts)
  {
    if acts == [] then []
    else
      var x := Execute(m, acts[..|acts| - 1]);
      Seen(m, acts[..|acts| - 1]) + if Enabled(x, acts[|acts| - 1]) then Entries(x, acts[|acts| - 1]) else []
  }

  ghost predicate Timely(m: Machine, act: Act) {
    act.Queue? ==> Q.Timely(m.ring, act.step)
  }

  ghost predicate AllTimely(m: Machine, acts: seq<Act>)
    requires m.Sized() && AllAllowed(acts)
  {
    acts == [] || (AllTimely(m, acts[..|acts| - 1]) && Timely(Execute(m, acts[..|acts| - 1]), acts[|acts| - 1]))
  }

  // --- What the router does is a run of its reference steps ---

  /** The values of the first n reservations. */
  function Values(ring: Q.State<Message>, n: nat): seq<Message>
    requires n <= |ring.history|
  {
    seq(n, i requires 0 <= i < n => ring.history[i].v)
  }

  /** The router has been through `steps`, which brought it what was dispatched. */
  ghost predicate Explained(w: World, x: Machine, steps: seq<Step>) {
    && w.Sized() && AllPossible(steps)
    && Q.Inv(x.ring) && |x.ring.dispatched| <= |x.ring.history|
    && x.world == Run(w, steps)
    && Arrivals(steps) == Values(x.ring, |x.ring.dispatched|)
  }

  lemma BesideExplained(w: World, x: Machine, steps: seq<Step>, step: Step)
    requires Explained(w, x, steps) && Possible(step) && !step.Arrives?
    ensures Explained(w, x.(world := Next(x.world, step)), steps + [step])
  {
    RunSnoc(w, steps, step);
    ArrivalsSnoc(steps, step);
    hide Run, Next, Q.Inv, Arrivals;
  }

  /** Queue steps other than a dispatch leave what was dispatched alone, and what
      was reserved only grows. */
  lemma QueueGrows(ring: Q.State<Message>, step: Q.Step<Message>)
    requires ring.Cap() > 0 && Q.Enabled(ring, step)
    ensures ring.history <= Q.Do(ring, step).history
    ensures !step.Dispatch? ==> Q.Do(ring, step).dispatched == ring.dispatched
    ensures step.Dispatch? ==> Q.Do(ring, step).history == ring.history
  {
  }

  lemma InvMeans(ring: Q.State<Message>)
    requires Q.Inv(ring)
    ensures ring.Cap() > 0 && |ring.dispatched| <= |ring.history|
  {
  }

  lemma QueueExplained(w: World, x: Machine, steps: seq<Step>, step: Q.Step<Message>)
    requires Explained(w, x, steps) && x.Sized() && Q.Enabled(x.ring, step) && Q.Timely(x.ring, step) && !step.Dispatch?
    ensures Explained(w, x.(ring := Q.Do(x.ring, step)), steps)
  {
    Q.StepKeeps(x.ring, step);
    QueueGrows(x.ring, step);
    InvMeans(Q.Do(x.ring, step));
    hide Q.Inv, Q.Do, Q.Enabled, Arrivals, Run;
  }

  /** A dispatch reads the whole of the next reservation. */
  lemma DispatchReads(ring: Q.State<Message>)
    requires Q.Inv(ring) && Q.Enabled(ring, Q.Dispatch)
    ensures |ring.dispatched| < |ring.history| && Q.Inv(Q.Do(ring, Q.Dispatch))
    ensures Q.Do(ring, Q.Dispatch).history == ring.history
    ensures |Q.Do(ring, Q.Dispatch).dispatched| == |ring.dispatched| + 1
    ensures ring.slots[ring.At(ring.consumer.head)].content == Some(ring.history[|ring.dispatched|].v)
  {
    Q.DispatchKeeps(ring);
  }

  lemma DispatchExplained(w: World, x: Machine, steps: seq<Step>, sinks: Sinks)
    requires Explained(w, x, steps) && x.Sized() && Q.Enabled(x.ring, Q.Dispatch)
    ensures var entries := Entries(x, Queue(Q.Dispatch, sinks));
            |entries| == 1 && Explained(w, Do(x, Queue(Q.Dispatch, sinks)), steps + entries)
  {
    hide Run, Next, Q.Inv, Q.Do, Q.Enabled, Arrivals;
    DispatchReads(x.ring);
    var step := Entries(x, Queue(Q.Dispatch, sinks))[0];
    assert Entries(x, Queue(Q.Dispatch, sinks)) == [step];
    ArrivalExplained(w, x, steps, step, Q.Do(x.ring, Q.Dispatch));
  }

  lemma ArrivalExplained(w: World, x: Machine, steps: seq<Step>, step: Step, ring: Q.State<Message>)
    requires Explained(w, x, steps) && x.Sized() && step.Arrives? && Q.Inv(ring)
    requires ring.history == x.ring.history && |x.ring.dispatched| < |ring.history|
    requires |ring.dispatched| == |x.ring.dispatched| + 1 && step.m == ring.history[|x.ring.dispatched|].v
    ensures Explained(w, Machine(ring, Next(x.world, step)), steps + [step])
  {
    hide Run, Next, Q.Inv, Arrivals;
    RunSnoc(w, steps, step);
    ArrivalsSnoc(steps, step);
    var n := |x.ring.dispatched|;
    assert Values(ring, n + 1) == Values(x.ring, n) + [step.m];
  }

  /** Every schedule: the router has been through exactly what it has seen, and
      what reached it is, in order and whole, a prefix of what was reserved. */
  lemma {:induction false} EveryScheduleIsARun(m: Machine, acts: seq<Act>)
    requires m.Sized() && Q.Inv(m.ring) && m.ring.dispatched == [] && AllAllowed(acts) && AllTimely(m, acts)
    ensures Explained(m.world, Execute(m, acts), Seen(m, acts))
  {
    if acts != [] {
      var front, act := acts[..|acts| - 1], acts[|acts| - 1];
      EveryScheduleIsARun(m, front);
      var x, steps := Execute(m, front), Seen(m, front);
      if Enabled(x, act) {
        ActExplained(m.world, x, steps, act);
      } else {
        assert steps + [] == steps;
      }
    } else {
      assert Values(m.ring, 0) == [];
    }
    hide Explained, Do, Enabled, Entries;
  }

  lemma ActExplained(w: World, x: Machine, steps: seq<Step>, act: Act)
    requires Explained(w, x, steps) && x.Sized() && Allowed(act) && Enabled(x, act) && Timely(x, act)
    ensures Explained(w, Do(x, act), steps + Entries(x, act))
  {
    hide Explained, Q.Do;
    if act.Beside? {
      BesideExplained(w, x, steps, act.move);
    } else if act.step.Dispatch? {
      DispatchExplained(w, x, steps, act.sinks);
    } else {
      assert steps + Entries(x, act) == steps;
      QueueExplained(w, x, steps, act.step);
    }
  }

  // --- So what holds of every run holds of every schedule ---

  /** From power-on, under any schedule of any number of tasks, every output's
      history obeys the stream rules, is cut only by that output's own port, and
      the books balance. */
  lemma EveryScheduleIsSafe(m: Machine, cap: nat, acts: seq<Act>, o: Output)
    requires 0 < cap < TWO32 && TWO32 % cap == 0
    requires m.ring == Q.Start<Message>(cap) && m.world.state == FRESH && m.world.cfg.Sized()
    requires AllAllowed(acts) && AllTimely(m, acts)
    ensures var s := Execute(m, acts).world.state;
            && RouterTrace.Disciplined(s) && RouterCounts.Balanced(s)
            && (Beside(GoesDown(o)) !in acts ==> RouterTrace.Uncut(s.logs[o]))
  {
    assert m.ring.dispatched == [];
    hide Q.Inv, Execute, Seen, Run;
    Q.StartOk<Message>(cap);
    EveryScheduleIsARun(m, acts);
    RouterTrace.DisciplinedFromTheStart(m.world.cfg, Seen(m, acts), o);
    RouterCounts.BooksBalanceFromTheStart(m.world.cfg, Seen(m, acts));
    if Beside(GoesDown(o)) !in acts { SeenGoesDown(m, acts, o); }
  }

  lemma {:induction false} SeenGoesDown(m: Machine, acts: seq<Act>, o: Output)
    requires m.Sized() && AllAllowed(acts) && Beside(GoesDown(o)) !in acts
    ensures GoesDown(o) !in Seen(m, acts)
  {
    if acts != [] { SeenGoesDown(m, acts[..|acts| - 1], o); }
  }

  /** Nothing is closed, edited or refused: the passes of a settled setup. */
  ghost predicate Plain(act: Act) {
    if act.Queue? then TakesAll(act.sinks) else act.move.Closes?
  }

  lemma {:induction false} SeenPasses(m: Machine, acts: seq<Act>)
    requires m.Sized() && AllAllowed(acts) && forall i :: 0 <= i < |acts| ==> Plain(acts[i])
    ensures Passes(Seen(m, acts))
  {
    if acts != [] {
      SeenPasses(m, acts[..|acts| - 1]);
      assert Plain(acts[|acts| - 1]);
    }
  }

  lemma {:induction false} TrackFront(es: seq<Message>, n: nat)
    requires n <= |es| && Track(false, FlattenAll(es)).Some?
    ensures Track(false, FlattenAll(es[..n])).Some?
  {
    assert es == es[..n] + es[n..];
    FlatMapConcat(Flatten, es[..n], es[n..]);
    TrackConcat(false, FlattenAll(es[..n]), FlattenAll(es[n..]));
    hide Track, FlatMap, Flatten;
  }

  lemma PrefixTransparency(w: World, steps: seq<Step>, entries: seq<Message>, n: nat, p: Port, o: Output)
    requires p < MAX_PORTS && SingleRoute(w.cfg, p, o) && Straight(w.state, p, o, false)
    requires Passes(steps) && n <= |entries| && Arrivals(steps) == entries[..n]
    requires AllQueued(entries, p) && Track(false, FlattenAll(entries)).Some?
    ensures AllPossible(steps) && Run(w, steps).state.logs[o] == w.state.logs[o] + Taken(entries[..n])
  {
    hide Run, SingleRoute, Straight, Track, Taken, FlatMap;
    TrackFront(entries, n);
    RouteIsTransparent(w, steps, p, o);
  }

  /** What reached the router, where what was reserved is known. */
  lemma ScheduledArrivals(m: Machine, cap: nat, acts: seq<Act>, entries: seq<Message>)
    requires 0 < cap < TWO32 && TWO32 % cap == 0 && m.world.Sized() && m.ring == Q.Start<Message>(cap)
    requires AllAllowed(acts) && AllTimely(m, acts)
    requires var ring := Execute(m, acts).ring; Values(ring, |ring.history|) <= entries
    ensures var n := |Execute(m, acts).ring.dispatched|;
            && n <= |entries| && Arrivals(Seen(m, acts)) == entries[..n]
            && AllPossible(Seen(m, acts)) && Execute(m, acts).world == Run(m.world, Seen(m, acts))
  {
    assert m.ring.dispatched == [];
    hide Q.Inv, Execute, Seen, Run, Arrivals;
    Q.StartOk<Message>(cap);
    EveryScheduleIsARun(m, acts);
  }

  /** One plain route under any schedule: while what was reserved is queued
      traffic of p in bracketed order, all that was dispatched has been handed
      over, unchanged and in order. */
  lemma ScheduledTransparency(m: Machine, cap: nat, acts: seq<Act>, entries: seq<Message>, p: Port, o: Output)
    requires 0 < cap < TWO32 && TWO32 % cap == 0
    requires m.ring == Q.Start<Message>(cap) && m.world.state == FRESH
    requires p < MAX_PORTS && SingleRoute(m.world.cfg, p, o)
    requires AllAllowed(acts) && AllTimely(m, acts) && forall i :: 0 <= i < |acts| ==> Plain(acts[i])
    requires AllQueued(entries, p) && Track(false, FlattenAll(entries)).Some?
    requires var ring := Execute(m, acts).ring; Values(ring, |ring.history|) <= entries
    ensures var x := Execute(m, acts);
            var n := |x.ring.dispatched|;
            n <= |entries| && x.world.state.logs[o] == Taken(entries[..n])
  {
    assert m.Sized();
    assert Straight(FRESH, p, o, false) && FRESH.logs[o] == [];
    hide Execute, Seen, Run, SingleRoute, Straight, Track, Arrivals, Taken, FlatMap;
    hide AllTimely, Values, Passes, AllQueued;
    ScheduledArrivals(m, cap, acts, entries);
    SeenPasses(m, acts);
    PrefixTransparency(m.world, Seen(m, acts), entries, |Execute(m, acts).ring.dispatched|, p, o);
  }

  /** Wire to wire under concurrency: while what was reserved is what `receive`
      made of the parsed bytes, at every moment of every schedule the one route
      has handed over a prefix of it, unchanged; and when the queue is drained,
      what is serialized parses to the events the original bytes stood for. */
  lemma ScheduledWireToWire(m: Machine, cap: nat, acts: seq<Act>, bytes: seq<Byte>, ms: seq<Message>, p: Port,
                            o: Output)
    requires 0 < cap < TWO32 && TWO32 % cap == 0
    requires m.ring == Q.Start<Message>(cap) && m.world.state == FRESH
    requires p < MAX_PORTS && SingleRoute(m.world.cfg, p, o)
    requires AllAllowed(acts) && AllTimely(m, acts) && forall i :: 0 <= i < |acts| ==> Plain(acts[i])
    requires BP.AllProper(ms, p) && FlattenAll(ms) == BP.Run(BP.INITIAL, bytes).events
    requires var ring := Execute(m, acts).ring; Values(ring, |ring.history|) <= FlatMap(Split, ms)
    ensures var x := Execute(m, acts);
            var entries := FlatMap(Split, ms);
            var n := |x.ring.dispatched|;
            && n <= |entries| && x.world.state.logs[o] == Taken(entries[..n])
            && (n == |entries| ==>
                BP.Run(BP.INITIAL, Wire(false, entries[..n]).wire).events == BP.Run(BP.INITIAL, bytes).events)
  {
    hide Q.Inv, Execute, SingleRoute, Track, Taken, FlatMap, BP.Run;
    var entries := FlatMap(Split, ms);
    SplitAll(ms, p);
    BP.EventsBracketed(BP.INITIAL, bytes);
    ScheduledTransparency(m, cap, acts, entries, p, o);
    assert entries[..|entries|] == entries;
    WireIsEncoded(entries, p);
    BS.ReparseParsed(bytes, BP.INITIAL);
  }
}
