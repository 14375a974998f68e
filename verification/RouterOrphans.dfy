/** Where the stream rules break, each way with an input: a start the sink
    refuses and a start over an open stream leave a claim no stream backs, which
    nothing mends but the output's own port; and a start still queued when its
    source goes away is never ended. */
module RouterOrphans {
  import opened Midi
  import opened Routing
  import opened RouterTrace
  import opened RouterStreams
  import opened RouterOwners
  import opened RouterPlans
  import opened RouterWire

  /** Everything after `before` is System Real-Time. */
  ghost predicate OnlyRealTimeSince(before: seq<Entry>, after: seq<Entry>) {
    && before <= after
    && forall i :: |before| <= i < |after| ==>
         after[i].Handed? && !after[i].m.chunk && IsRealTime(after[i].m.status)
  }

  lemma DeliverToHeld(s: State, cfg: Config, sinks: Sinks, o: Output, m: Message)
    requires s.Sized() && cfg.Sized() && s.owner[o] != INVALID
    requires m.Continuation() ==> m.port != s.owner[o]
    ensures var d := Deliver(s, cfg, sinks, o, m);
            && d.state.owner[o] == s.owner[o] && OnlyRealTimeSince(s.logs[o], d.state.logs[o])
            && (m.Opens() ==> !d.sent)
  {
  }

  lemma {:induction false} PerformAtHeld(f: Fan, cfg: Config, sinks: Sinks, ops: seq<Op>, o: Output)
    requires f.state.Sized() && cfg.Sized() && f.state.owner[o] != INVALID
    requires forall i :: 0 <= i < |ops| && ops[i].Offer? && ops[i].out == o && ops[i].m.Continuation() ==>
               ops[i].m.port != f.state.owner[o]
    ensures var g := Perform(f, cfg, sinks, ops);
            && g.state.owner[o] == f.state.owner[o] && OnlyRealTimeSince(f.state.logs[o], g.state.logs[o])
            && (o in g.started ==> o in f.started)
  {
    if ops != [] {
      var front, op := ops[..|ops| - 1], ops[|ops| - 1];
      PerformAtHeld(f, cfg, sinks, front, o);
      var g := Perform(f, cfg, sinks, front);
      if op.Offer? {
        if op.out == o { DeliverToHeld(g.state, cfg, sinks, o, op.m); }
        else { DeliverLocal(g.state, cfg, sinks, op.out, op.m); }
      }
      hide Deliver;
    }
  }

  lemma ContinueOrphaned(s: State, cfg: Config, sinks: Sinks, m: Message, p: Port, o: Output)
    requires s.Sized() && cfg.Sized() && p < MAX_PORTS && m.port < MAX_PORTS && m.Continuation() && Orphaned(s, p, o)
    ensures Orphaned(Continue(s, cfg, sinks, m), p, o)
    ensures OnlyRealTimeSince(s.logs[o], Continue(s, cfg, sinks, m).logs[o])
  {
    if s.streams[m.port].open {
      var plan := PlanTargets(s.streams[m.port].targets, m, MAX_PORTS);
      PlanTargetsOffer(s.streams[m.port].targets, m, MAX_PORTS);
      PerformAtHeld(Idle(s), cfg, sinks, plan, o);
      PerformLocal(Idle(s), cfg, sinks, plan, o);
    }
  }

  lemma BeginOrphaned(s: State, cfg: Config, sinks: Sinks, source: nat, m: Message, p: Port, o: Output)
    requires s.Sized() && cfg.Sized() && p < MAX_PORTS && source < MAX_PORTS && !m.Continuation() && Orphaned(s, p, o)
    ensures Orphaned(Begin(s, cfg, sinks, source, m), p, o)
    ensures OnlyRealTimeSince(s.logs[o], Begin(s, cfg, sinks, source, m).logs[o])
  {
    var plan := PlanRoutes(cfg, m, |cfg.routes|);
    PlanRoutesFaithful(cfg, m, |cfg.routes|);
    PerformAtHeld(Idle(s), cfg, sinks, plan, o);
    PerformLocal(Idle(s), cfg, sinks, plan, o);
  }

  lemma {:induction false} CloseInputsOrphaned(s: State, cfg: Config, sinks: Sinks, n: nat, p: Port, o: Output)
    requires s.Sized() && cfg.Sized() && n <= MAX_PORTS && p < MAX_PORTS && Orphaned(s, p, o)
    ensures Orphaned(CloseInputs(s, cfg, sinks, n), p, o)
    ensures OnlyRealTimeSince(s.logs[o], CloseInputs(s, cfg, sinks, n).logs[o])
  {
    if n > 0 {
      CloseInputsOrphaned(s, cfg, sinks, n - 1, p, o);
      ContinueOrphaned(CloseInputs(s, cfg, sinks, n - 1), cfg, sinks, Closing(n - 1), p, o);
    }
  }

  lemma NextOrphaned(w: World, step: Step, p: Port, o: Output)
    requires w.Sized() && Possible(step) && p < MAX_PORTS && Orphaned(w.state, p, o) && step != GoesDown(o)
    ensures Orphaned(Next(w, step).state, p, o)
    ensures OnlyRealTimeSince(w.state.logs[o], Next(w, step).state.logs[o])
  {
    match step
    case Arrives(m, sinks) =>
      if m.port < MAX_PORTS {
        var staged := RunStage(w.cfg.stages[m.port], m);
        if m.Continuation() { ContinueOrphaned(w.state, w.cfg, sinks, m, p, o); }
        else if staged.Kept? { BeginOrphaned(w.state, w.cfg, sinks, m.port, staged.m, p, o); }
      }
    case Closes(sinks) => CloseInputsOrphaned(w.state, w.cfg, sinks, MAX_PORTS, p, o);
    case GoesDown(port) =>
    case Edited(cfg) =>
  }

  /** Once a claim is orphaned nothing frees it but the output's own port going
      away: not its owner's end chunk, disconnect or restart, nor any edit. Until
      then the output is handed System Real-Time only. */
  lemma {:induction false} OrphanStays(w: World, steps: seq<Step>, p: Port, o: Output)
    requires w.Sized() && AllPossible(steps) && p < MAX_PORTS && Orphaned(w.state, p, o)
    requires forall i :: 0 <= i < |steps| ==> steps[i] != GoesDown(o)
    ensures Orphaned(Run(w, steps).state, p, o)
    ensures OnlyRealTimeSince(w.state.logs[o], Run(w, steps).state.logs[o])
  {
    if steps != [] {
      OrphanStays(w, steps[..|steps| - 1], p, o);
      NextOrphaned(Run(w, steps[..|steps| - 1]), steps[|steps| - 1], p, o);
      hide Next, Orphaned;
    }
  }

  // --- One route, and an input for each way ---

  lemma SingleAsks(cfg: Config, p: Port, o: Output, m: Message)
    requires SingleRoute(cfg, p, o) && m.port == p && m.chunk
    ensures Asked(cfg, m, o) && Routed(cfg, m) && Admitted(cfg, m) && RunStage(cfg.stages[o], m) == Kept(m)
  {
    assert cfg.stages[p] == NO_RULES && cfg.stages[o] == NO_RULES;
    assert Carries(cfg, cfg.routes[0], m, o);
    assert Carried(cfg, m, 1, o);
    assert Asked(cfg, m, o);
  }

  /** On a single free route, a stream's start orphans its output exactly when
      the sink refuses it. */
  lemma RefusedStartOrphans(s: State, cfg: Config, sinks: Sinks, m: Message, o: Output)
    requires m.port < MAX_PORTS && SingleRoute(cfg, m.port, o) && Straight(s, m.port, o, false) && m.Opens()
    ensures Orphaned(Dispatch(s, cfg, sinks, m), m.port, o) <==> !sinks(o, s.logs[o], m)
  {
    SingleAsks(cfg, m.port, o, m);
    OrphanedIff(s, cfg, sinks, m, o);
    hide Dispatch, SingleRoute, Asked, Routed;
  }

  /** A start over its own open stream orphans the output though every sink
      takes everything: the end of the first dump was lost to a full queue. */
  lemma RestartOrphans(s: State, cfg: Config, sinks: Sinks, m: Message, n: Message, o: Output)
    requires m.port < MAX_PORTS && SingleRoute(cfg, m.port, o) && Straight(s, m.port, o, false)
    requires m.Opens() && n.Opens() && n.port == m.port && TakesAll(sinks)
    ensures Orphaned(Dispatch(Dispatch(s, cfg, sinks, m), cfg, sinks, n), m.port, o)
  {
    DispatchStraight(s, cfg, sinks, m, o, false);
    SingleAsks(cfg, m.port, o, n);
    OrphanedIff(Dispatch(s, cfg, sinks, m), cfg, sinks, n, o);
    hide Dispatch, SingleRoute, Asked, Routed;
  }

  /** A start dispatched after its source went away is open after the next pass,
      its output held and handed no end. */
  lemma QueuedStartIsNotEnded(w: World, sinks: Sinks, m: Message, o: Output)
    requires w.Sized() && m.port < MAX_PORTS && m.port != o && SingleRoute(w.cfg, m.port, o)
    requires Straight(w.state, m.port, o, false) && w.state.owner[m.port] == INVALID && m.Opens() && TakesAll(sinks)
    ensures var down := Next(w, GoesDown(m.port));
            var x := Next(Next(down, Arrives(m, sinks)), Closes(sinks));
            && x.state.streams[m.port].open && x.state.owner[o] == m.port
            && x.state.logs[o] == w.state.logs[o] + [Handed(m, true)]
  {
    var down := Next(w, GoesDown(m.port));
    assert down == w;
    DispatchStraight(w.state, w.cfg, sinks, m, o, false);
    QuietPass(Dispatch(w.state, w.cfg, sinks, m), w.cfg, sinks, MAX_PORTS);
    hide Dispatch;
  }

  /** Input 0 on one device, output 1 on another, one plain route. */
  const TWO_PORTS := Config(
    [Route(true, true, false, false, false, 0, 1, NO_RULES)],
    seq(MAX_PORTS, _ => NO_RULES),
    View([PortSeat(0, In), PortSeat(1, Out)], []))

  /** The first chunk of a dump. */
  const DUMP := ChunkMessage(0, true, false, [0x41])

  lemma TwoPortsAreOneRoute()
    ensures SingleRoute(TWO_PORTS, DUMP.port, 1) && Straight(FRESH, DUMP.port, 1, false) && DUMP.Opens()
  {
  }

  /** A dump to a congested sink leaves its output held by no stream. */
  lemma AnOrphan()
    ensures exists sinks: Sinks :: Orphaned(Dispatch(FRESH, TWO_PORTS, sinks, DUMP), DUMP.port, 1)
  {
    var sinks: Sinks := (_, _, _) => false;
    TwoPortsAreOneRoute();
    RefusedStartOrphans(FRESH, TWO_PORTS, sinks, DUMP, 1);
  }

  /** So do two dumps, the first without its end, to a sink that takes both. */
  lemma ARestartedDump()
    ensures exists sinks: Sinks ::
              && TakesAll(sinks)
              && Orphaned(Dispatch(Dispatch(FRESH, TWO_PORTS, sinks, DUMP), TWO_PORTS, sinks, DUMP), DUMP.port, 1)
  {
    var sinks: Sinks := (_, _, _) => true;
    TwoPortsAreOneRoute();
    RestartOrphans(FRESH, TWO_PORTS, sinks, DUMP, DUMP, 1);
  }

  /** A dump queued when its cable is pulled is sent after that, and never ended. */
  lemma AnUnendedDump()
    ensures exists sinks: Sinks ::
              var x := Run(World(FRESH, TWO_PORTS), [GoesDown(0), Arrives(DUMP, sinks), Closes(sinks)]);
              x.state.streams[0].open && x.state.owner[1] == 0 && x.state.logs[1] == [Handed(DUMP, true)]
  {
    var sinks: Sinks := (_, _, _) => true;
    TwoPortsAreOneRoute();
    var w := World(FRESH, TWO_PORTS);
    QueuedStartIsNotEnded(w, sinks, DUMP, 1);
    RunThree(w, GoesDown(0), Arrives(DUMP, sinks), Closes(sinks));
    hide Next;
  }

  lemma RunThree(w: World, a: Step, b: Step, c: Step)
    requires w.Sized() && Possible(a) && Possible(b) && Possible(c)
    ensures AllPossible([a, b, c]) && Run(w, [a, b, c]) == Next(Next(Next(w, a), b), c)
  {
    hide Next;
    assert [] + [a] == [a] && [a] + [b] == [a, b] && [a, b] + [c] == [a, b, c];
    RunSnoc(w, [], a);
    RunSnoc(w, [a], b);
    RunSnoc(w, [a, b], c);
  }
}
