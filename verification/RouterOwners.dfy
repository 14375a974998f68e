/** Claims: who holds an output, exactly when a start leaves a claim no stream
    backs, and how claims are given back. */
module RouterOwners {
  import opened Midi
  import opened Routing
  import opened RouterTrace
  import opened RouterStreams
  import opened RouterPlans

  // --- Every claim belongs to an open stream ---

  ghost predicate Backed(s: State) {
    s.Sized() && forall o: Output :: s.owner[o] != INVALID ==>
      s.owner[o] < MAX_PORTS && s.streams[s.owner[o]].open && o in s.streams[s.owner[o]].targets
  }

  ghost predicate AcceptsStarts(sinks: Sinks) {
    forall o: Output, log, m: Message :: m.Opens() ==> sinks(o, log, m)
  }

  /** No source starts a stream while its last is open, and sinks take starts. */
  ghost predicate Polite(w: World, step: Step)
    requires w.Sized()
  {
    step.Arrives? ==>
      && AcceptsStarts(step.sinks)
      && (step.m.Opens() && step.m.port < MAX_PORTS ==> !w.state.streams[step.m.port].open)
  }

  /** A delivery that opens no stream leaves every free output free. */
  lemma DeliverKeepsOwner(s: State, cfg: Config, sinks: Sinks, out: Output, m: Message, o: Output)
    requires s.Sized() && cfg.Sized() && !m.Opens() && !m.Continuation()
    ensures Deliver(s, cfg, sinks, out, m).state.owner[o] == s.owner[o]
  {
    if o != out { DeliverLocal(s, cfg, sinks, out, m); }
  }

  lemma {:induction false} PerformKeepsOwner(f: Fan, cfg: Config, sinks: Sinks, ops: seq<Op>, m: Message, o: Output)
    requires f.state.Sized() && cfg.Sized() && !m.Opens() && !m.Continuation() && Faithful(ops, m)
    ensures Perform(f, cfg, sinks, ops).state.owner[o] == f.state.owner[o]
  {
    if ops != [] {
      var front, op := ops[..|ops| - 1], ops[|ops| - 1];
      PerformKeepsOwner(f, cfg, sinks, front, m, o);
      if op.Offer? { DeliverKeepsOwner(Perform(f, cfg, sinks, front).state, cfg, sinks, op.out, op.m, o); }
      hide Deliver;
    }
  }

  // --- What a start does to claims ---

  /** A start claims an output: it is free, some route leads there, and its own
      rules let the start through. */
  ghost predicate Claims(s: State, cfg: Config, m: Message, o: Output)
    requires s.Sized() && cfg.Sized()
  {
    s.owner[o] == INVALID && Asked(cfg, m, o) && RunStage(cfg.stages[o], m).Kept?
  }

  lemma DeliverStart(s: State, cfg: Config, sinks: Sinks, o: Output, m: Message)
    requires s.Sized() && cfg.Sized() && m.Opens()
    ensures var d := Deliver(s, cfg, sinks, o, m);
            if s.owner[o] == INVALID && RunStage(cfg.stages[o], m).Kept?
            then && d.state.owner[o] == m.port && d.sent == sinks(o, s.logs[o], m)
                 && d.state.logs[o] == s.logs[o] + [Handed(m, d.sent)]
            else d.state.owner[o] == s.owner[o] && d.state.logs[o] == s.logs[o] && !d.sent
  {
  }

  /** Output o is claimed by the first offer it lets through, and recorded as
      started exactly if its sink takes that one; later offers are rejected. */
  lemma {:induction false} PerformStart(f: Fan, cfg: Config, sinks: Sinks, ops: seq<Op>, m: Message, o: Output)
    requires f.state.Sized() && cfg.Sized() && m.Opens() && m.port < MAX_PORTS && Faithful(ops, m)
    ensures var g := Perform(f, cfg, sinks, ops);
            if f.state.owner[o] == INVALID && OffersTo(ops, o) && RunStage(cfg.stages[o], m).Kept?
            then && g.state.owner[o] == m.port
                 && g.state.logs[o] == f.state.logs[o] + [Handed(m, sinks(o, f.state.logs[o], m))]
                 && (o in g.started <==> o in f.started || sinks(o, f.state.logs[o], m))
            else && g.state.owner[o] == f.state.owner[o] && g.state.logs[o] == f.state.logs[o]
                 && (o in g.started <==> o in f.started)
  {
    if ops != [] {
      var front, op := ops[..|ops| - 1], ops[|ops| - 1];
      PerformStart(f, cfg, sinks, front, m, o);
      DoStart(Perform(f, cfg, sinks, front), cfg, sinks, op, m, o);
      OffersEither(front, [op], o);
      assert ops == front + [op];
      assert OffersTo([op], o) <==> op.Offer? && op.out == o by { assert [op][0] == op; }
    }
    hide Do, RunStage, OffersTo;
  }

  lemma DoStart(f: Fan, cfg: Config, sinks: Sinks, op: Op, m: Message, o: Output)
    requires f.state.Sized() && cfg.Sized() && m.Opens() && (op.Offer? ==> op.m == m)
    ensures var g := Do(f, cfg, sinks, op);
            if f.state.owner[o] == INVALID && op.Offer? && op.out == o && RunStage(cfg.stages[o], m).Kept?
            then && g.state.owner[o] == m.port
                 && g.state.logs[o] == f.state.logs[o] + [Handed(m, sinks(o, f.state.logs[o], m))]
                 && (o in g.started <==> o in f.started || sinks(o, f.state.logs[o], m))
            else && g.state.owner[o] == f.state.owner[o] && g.state.logs[o] == f.state.logs[o]
                 && (o in g.started <==> o in f.started)
  {
    if op.Offer? {
      DeliverStart(f.state, cfg, sinks, op.out, m);
      DeliverLocal(f.state, cfg, sinks, op.out, m);
    }
    hide Deliver, RunStage;
  }

  /** A start that passed its input: which outputs it claims, each being handed it
      once and no other, and which of those its stream is recorded on. */
  lemma BeginStart(s: State, cfg: Config, sinks: Sinks, m: Message, o: Output)
    requires s.Sized() && cfg.Sized() && m.Opens() && m.port < MAX_PORTS
    ensures var t := Begin(s, cfg, sinks, m.port, m);
            var stream := t.streams[m.port];
            && t.owner[o] == (if Claims(s, cfg, m, o) then m.port else s.owner[o])
            && t.logs[o] ==
               s.logs[o] + (if Claims(s, cfg, m, o) then [Handed(m, sinks(o, s.logs[o], m))] else [])
            && (forall q :: 0 <= q < MAX_PORTS && q != m.port ==> t.streams[q] == s.streams[q])
            && if Routed(cfg, m)
               then stream.open && o in stream.targets <==> Claims(s, cfg, m, o) && sinks(o, s.logs[o], m)
               else stream == s.streams[m.port]
  {
    var plan := PlanRoutes(cfg, m, |cfg.routes|);
    PlanRoutesFaithful(cfg, m, |cfg.routes|);
    PerformLocal(Idle(s), cfg, sinks, plan, o);
    PerformStart(Idle(s), cfg, sinks, plan, m, o);
    PerformAny(Idle(s), cfg, sinks, plan);
    PlanRoutesOffers(cfg, m);
    PlanRoutesOffersTo(cfg, m, |cfg.routes|, o);
    hide Perform, PlanRoutes, Carried, Offers, OffersTo, RunStage;
  }

  /** Output o is held by p, but not as a target of an open stream of p. */
  ghost predicate Orphaned(s: State, p: Port, o: Output)
    requires s.Sized() && p < MAX_PORTS
  {
    s.owner[o] == p && !(s.streams[p].open && o in s.streams[p].targets)
  }

  /** Exactly when a start leaves its source holding an output that no stream
      backs: it claims the output and the sink refuses it, or the source held the
      output already and the start, routed anywhere at all, replaces the stream. */
  lemma OrphanedIff(s: State, cfg: Config, sinks: Sinks, m: Message, o: Output)
    requires s.Sized() && cfg.Sized() && m.Opens() && m.port < MAX_PORTS
    ensures Orphaned(Dispatch(s, cfg, sinks, m), m.port, o) <==>
            if !Admitted(cfg, m) then Orphaned(s, m.port, o)
            else if Claims(s, cfg, m, o) then !sinks(o, s.logs[o], m)
            else s.owner[o] == m.port && (Orphaned(s, m.port, o) || Routed(cfg, m))
  {
    BeginStart(s, cfg, sinks, m, o);
    assert Claims(s, cfg, m, o) ==> Routed(cfg, m);
    hide Begin, Routed, Asked;
  }

  /** A start leaves claims backed: every sink that is to be claimed takes it, and
      its source holds nothing already, unless the start leads nowhere. */
  ghost predicate Honoured(w: World, step: Step)
    requires w.Sized()
  {
    step.Arrives? && step.m.Opens() && Admitted(w.cfg, step.m) ==>
      && (forall o: Output :: Claims(w.state, w.cfg, step.m, o) ==> step.sinks(o, w.state.logs[o], step.m))
      && (Routed(w.cfg, step.m) ==> forall o: Output :: w.state.owner[o] != step.m.port)
  }

  lemma ContinueBacked(s: State, cfg: Config, sinks: Sinks, m: Message)
    requires Backed(s) && cfg.Sized() && m.port < MAX_PORTS && m.Continuation()
    ensures var t := Continue(s, cfg, sinks, m);
            Backed(t) && (m.chunkEnd ==> forall o: Output :: t.owner[o] != m.port)
  {
    if s.streams[m.port].open {
      var targets := s.streams[m.port].targets;
      var plan := PlanTargets(targets, m, MAX_PORTS);
      var t := Perform(Idle(s), cfg, sinks, plan).state;
      forall o: Output ensures t.streams == s.streams &&
        (t.owner[o] == s.owner[o] || t.owner[o] == INVALID) && (m.chunkEnd ==> t.owner[o] != m.port)
      {
        ReplayAt(s, cfg, sinks, targets, m, MAX_PORTS, o);
        PerformLocal(Idle(s), cfg, sinks, plan, o);
      }
      hide Perform;
    }
  }

  lemma BeginBacked(s: State, cfg: Config, sinks: Sinks, source: nat, m: Message)
    requires Backed(s) && cfg.Sized() && source < MAX_PORTS && !m.Continuation() && !m.Opens()
    ensures Backed(Begin(s, cfg, sinks, source, m))
  {
    var plan := PlanRoutes(cfg, m, |cfg.routes|);
    var f := Perform(Idle(s), cfg, sinks, plan);
    PlanRoutesFaithful(cfg, m, |cfg.routes|);
    ShortFaithful(plan, m);
    forall o: Output ensures f.state.streams == s.streams && f.state.owner[o] == s.owner[o] {
      PerformLocal(Idle(s), cfg, sinks, plan, o);
      PerformKeepsOwner(Idle(s), cfg, sinks, plan, m, o);
    }
    hide Perform, PlanRoutes;
  }

  lemma ShortFaithful(ops: seq<Op>, m: Message)
    requires Faithful(ops, m) && !m.Opens() && !m.Continuation()
    ensures forall i :: 0 <= i < |ops| && ops[i].Offer? ==> !ops[i].m.Opens() && !ops[i].m.Continuation()
  {
  }

  lemma {:induction false} CloseInputsBacked(s: State, cfg: Config, sinks: Sinks, n: nat)
    requires Backed(s) && cfg.Sized() && n <= MAX_PORTS
    ensures Backed(CloseInputs(s, cfg, sinks, n))
  {
    if n > 0 {
      CloseInputsBacked(s, cfg, sinks, n - 1);
      ContinueBacked(CloseInputs(s, cfg, sinks, n - 1), cfg, sinks, Closing(n - 1));
    }
  }

  /** A start that passed its input, from a state where all claims are backed. */
  lemma StartBackedIff(s: State, cfg: Config, sinks: Sinks, m: Message)
    requires Backed(s) && cfg.Sized() && m.Opens() && Admitted(cfg, m)
    ensures Backed(Begin(s, cfg, sinks, m.port, m)) <==> Honoured(World(s, cfg), Arrives(m, sinks))
  {
    var t := Begin(s, cfg, sinks, m.port, m);
    forall o: Output
      ensures var p := t.owner[o];
              p == INVALID || (p < MAX_PORTS && t.streams[p].open && o in t.streams[p].targets)
              <==> && (Claims(s, cfg, m, o) ==> sinks(o, s.logs[o], m))
                   && (Routed(cfg, m) ==> s.owner[o] != m.port)
    {
      BeginStart(s, cfg, sinks, m, o);
      assert Claims(s, cfg, m, o) ==> Routed(cfg, m);
      hide Begin, Routed, Asked, RunStage;
    }
    hide Begin, Routed, Claims;
  }

  /** Any one step keeps all claims backed if and only if it is honoured. */
  lemma StepBackedIff(w: World, step: Step)
    requires w.Sized() && Possible(step) && Backed(w.state)
    ensures Backed(Next(w, step).state) <==> Honoured(w, step)
  {
    match step
    case Arrives(m, sinks) =>
      if m.port < MAX_PORTS {
        var staged := RunStage(w.cfg.stages[m.port], m);
        if m.Continuation() { ContinueBacked(w.state, w.cfg, sinks, m); }
        else if staged.Kept? && m.Opens() { StartBackedIff(w.state, w.cfg, sinks, m); }
        else if staged.Kept? { BeginBacked(w.state, w.cfg, sinks, m.port, staged.m); }
      }
    case Closes(sinks) => CloseInputsBacked(w.state, w.cfg, sinks, MAX_PORTS);
    case GoesDown(port) =>
    case Edited(cfg) =>
  }

  ghost predicate AllHonoured(w: World, steps: seq<Step>)
    requires w.Sized() && AllPossible(steps)
  {
    steps == [] ||
    (AllHonoured(w, steps[..|steps| - 1]) && Honoured(Run(w, steps[..|steps| - 1]), steps[|steps| - 1]))
  }

  /** All claims are backed at the start, after every step and at the end. */
  ghost predicate AlwaysBacked(w: World, steps: seq<Step>)
    requires w.Sized() && AllPossible(steps)
  {
    Backed(Run(w, steps).state) && (steps == [] || AlwaysBacked(w, steps[..|steps| - 1]))
  }

  /** Over any run, whatever the routes, rules, sinks and edits: an output is held
      only by a source whose open stream targets it, all along, if and only if
      every start is honoured. */
  lemma {:induction false} ClaimsBackedIff(w: World, steps: seq<Step>)
    requires w.Sized() && AllPossible(steps) && Backed(w.state)
    ensures AlwaysBacked(w, steps) <==> AllHonoured(w, steps)
  {
    if steps != [] {
      var front := steps[..|steps| - 1];
      ClaimsBackedIff(w, front);
      if AlwaysBacked(w, front) {
        AlwaysMeansLast(w, front);
        StepBackedIff(Run(w, front), steps[|steps| - 1]);
      }
    }
    hide Next, Honoured, Backed;
  }

  lemma AlwaysMeansLast(w: World, steps: seq<Step>)
    requires w.Sized() && AllPossible(steps) && AlwaysBacked(w, steps)
    ensures Backed(Run(w, steps).state)
  {
  }

  lemma FreshIsBacked()
    ensures Backed(FRESH)
  {
  }

  /** So it is from power-on. */
  lemma ClaimsBackedFromTheStart(cfg: Config, steps: seq<Step>)
    requires cfg.Sized() && AllPossible(steps)
    ensures AlwaysBacked(World(FRESH, cfg), steps) <==> AllHonoured(World(FRESH, cfg), steps)
  {
    FreshIsBacked();
    ClaimsBackedIff(World(FRESH, cfg), steps);
  }

  ghost predicate AllPolite(w: World, steps: seq<Step>)
    requires w.Sized() && AllPossible(steps)
  {
    steps == [] ||
    (AllPolite(w, steps[..|steps| - 1]) && Polite(Run(w, steps[..|steps| - 1]), steps[|steps| - 1]))
  }

  /** In particular where sources close one stream before they start another and
      sinks take starts: each claim has an end, or a disconnect, to free it. */
  lemma {:induction false} EveryClaimIsBacked(w: World, steps: seq<Step>)
    requires w.Sized() && AllPossible(steps) && Backed(w.state) && AllPolite(w, steps)
    ensures Backed(Run(w, steps).state)
  {
    if steps != [] {
      var front := steps[..|steps| - 1];
      EveryClaimIsBacked(w, front);
      StepBackedIff(Run(w, front), steps[|steps| - 1]);
    }
    hide Next, RunStage;
  }

  /** Where claims are backed, the end of a source's stream leaves no output held
      by it, and so does the next pass after its disconnect, whatever honoured
      steps come before that pass. */
  lemma ClaimsAreFreed(w: World, m: Message, between: seq<Step>, sinks: Sinks)
    requires w.Sized() && Backed(w.state) && m.port < MAX_PORTS
    requires AllPossible(between) && WithinAPass(between)
    ensures m.Continuation() && m.chunkEnd ==>
              forall o: Output :: Next(w, Arrives(m, sinks)).state.owner[o] != m.port
    ensures var down := Next(w, GoesDown(m.port));
            && (w.state.streams[m.port].open || NoStarts(m.port, between)) && AllHonoured(down, between) ==>
              forall o: Output :: Next(Run(down, between), Closes(sinks)).state.owner[o] != m.port
  {
    if m.Continuation() { ContinueBacked(w.state, w.cfg, sinks, m); }
    var down := Next(w, GoesDown(m.port));
    if AllHonoured(down, between) {
      StepBackedIff(w, GoesDown(m.port));
      ClaimsBackedIff(down, between);
      AlwaysMeansLast(down, between);
      FreedAfterDisconnect(w, m.port, between, sinks);
    }
    hide Run, Next, AllHonoured;
  }

  lemma FreedAfterDisconnect(w: World, p: Port, between: seq<Step>, sinks: Sinks)
    requires w.Sized() && p < MAX_PORTS && AllPossible(between) && WithinAPass(between)
    requires Backed(Run(Next(w, GoesDown(p)), between).state)
    ensures var mid := Run(Next(w, GoesDown(p)), between);
            w.state.streams[p].open || NoStarts(p, between) ==>
              forall o: Output :: Next(mid, Closes(sinks)).state.owner[o] != p
  {
    hide Run, Next;
    var down := Next(w, GoesDown(p));
    DownIsPending(w, p);
    StaysPending(down, between, p);
    PassFreesIff(Run(down, between), p, sinks);
    if !w.state.streams[p].open && NoStarts(p, between) {
      DownKeepsClosed(w, p);
      ClosedStaysClosed(down, between, p);
    }
  }

  lemma DownKeepsClosed(w: World, p: Port)
    requires w.Sized() && p < MAX_PORTS
    ensures Next(w, GoesDown(p)).state.streams == w.state.streams
  {
  }

  ghost predicate NoStarts(p: Port, steps: seq<Step>) {
    forall i :: 0 <= i < |steps| ==> NoStart(p, steps[i])
  }

  lemma ClosedStaysClosed(w: World, steps: seq<Step>, p: Port)
    requires w.Sized() && AllPossible(steps) && p < MAX_PORTS && NoStarts(p, steps) && !w.state.streams[p].open
    ensures !Run(w, steps).state.streams[p].open
  {
    hide Run, CourseOf;
    CourseMeans(w.state, p, 0);
    CourseMeans(Run(w, steps).state, p, 0);
    StreamKeepsItsCourse(w, steps, p, 0);
    ClosedStaysSilent(CourseOf(w.state, p, 0), p, 0, steps);
  }

  /** Where claims are backed, a pass leaves an input holding nothing if and only
      if the input held nothing before it or is recorded as gone. */
  lemma PassFreesIff(w: World, p: Port, sinks: Sinks)
    requires w.Sized() && Backed(w.state) && p < MAX_PORTS
    ensures (forall o: Output :: Next(w, Closes(sinks)).state.owner[o] != p) <==>
            p in w.state.pending || forall o: Output :: w.state.owner[o] != p
  {
    if p in w.state.pending {
      PassFreesAll(w, p, sinks);
    } else {
      forall o: Output ensures (Next(w, Closes(sinks)).state.owner[o] == p) == (w.state.owner[o] == p) {
        NextFollows(w, Closes(sinks), p, o);
        CloseInputsBacked(w.state, w.cfg, sinks, MAX_PORTS);
        assert w.state.owner[o] == p ==> CourseOf(w.state, p, o).alive;
        assert Next(w, Closes(sinks)).state.owner[o] == p ==> CourseOf(Next(w, Closes(sinks)).state, p, o).alive;
      }
    }
    hide CloseInputs, ChunksOf;
  }

  lemma PassFreesAll(w: World, p: Port, sinks: Sinks)
    requires w.Sized() && Backed(w.state) && p < MAX_PORTS && p in w.state.pending
    ensures forall o: Output :: Next(w, Closes(sinks)).state.owner[o] != p
  {
    forall o: Output ensures Next(w, Closes(sinks)).state.owner[o] != p {
      if w.state.owner[o] == p { PassFrees(w, p, sinks, o); }
      else { NeverClaimed(w.state, w.cfg, sinks, MAX_PORTS, p, o); }
    }
  }

  lemma {:induction false} NeverClaimed(s: State, cfg: Config, sinks: Sinks, n: nat, p: Port, o: Output)
    requires s.Sized() && cfg.Sized() && n <= MAX_PORTS && p < MAX_PORTS && s.owner[o] != p
    ensures CloseInputs(s, cfg, sinks, n).owner[o] != p
  {
    if n > 0 {
      NeverClaimed(s, cfg, sinks, n - 1, p, o);
      var t := CloseInputs(s, cfg, sinks, n - 1);
      if n - 1 != p {
        ContinueForeignOwner(t, cfg, sinks, Closing(n - 1), p, o);
      } else if t.streams[p].open {
        ReplayAt(t, cfg, sinks, t.streams[p].targets, Closing(p), MAX_PORTS, o);
      }
    }
  }
}
