/** Where streams go: which outputs hold one, what a stream's continuations
    reach, and what becomes of it when its source goes away. */
module RouterStreams {
  import opened Midi
  import opened Routing
  import opened RouterTrace

  // --- The chunks of one source on one output ---

  function ChunksOf(p: Port, log: seq<Entry>): seq<Message> {
    if log == [] then []
    else
      var e := log[|log| - 1];
      ChunksOf(p, log[..|log| - 1]) + if e.Handed? && e.m.chunk && e.m.port == p then [e.m] else []
  }

  lemma ChunksSnoc(p: Port, log: seq<Entry>, e: Entry)
    ensures ChunksOf(p, log + [e]) ==
            ChunksOf(p, log) + if e.Handed? && e.m.chunk && e.m.port == p then [e.m] else []
  {
    assert (log + [e])[..|log|] == log;
  }

  /** What output o knows of p's stream: nothing but whether it holds it, and
      the chunks of it that it was handed. */
  ghost predicate Same(p: Port, o: Output, s: State, t: State)
    requires s.Sized() && t.Sized()
  {
    (s.owner[o] == p <==> t.owner[o] == p) && ChunksOf(p, s.logs[o]) == ChunksOf(p, t.logs[o])
  }

  /** Other sources' chunks and any short message leave p's stream alone. */
  lemma DeliverForeign(s: State, cfg: Config, sinks: Sinks, out: Output, m: Message, p: Port, o: Output)
    requires s.Sized() && cfg.Sized() && p < MAX_PORTS
    requires m.chunk ==> m.port != p
    ensures Same(p, o, s, Deliver(s, cfg, sinks, out, m).state)
  {
    if o != out {
      DeliverLocal(s, cfg, sinks, out, m);
    } else {
      var staged := RunStage(cfg.stages[out], m);
      if staged.Kept? && Admits(s.owner[out], staged.m).Open? {
        ChunksSnoc(p, s.logs[o], Handed(staged.m, sinks(out, s.logs[out], staged.m)));
      }
    }
  }

  /** p's continuation reaches exactly the outputs p's stream holds. */
  lemma DeliverOwn(s: State, cfg: Config, sinks: Sinks, out: Output, m: Message)
    requires s.Sized() && cfg.Sized() && m.port < MAX_PORTS && m.Continuation()
    ensures var t := Deliver(s, cfg, sinks, out, m).state;
            if s.owner[out] == m.port then
              && ChunksOf(m.port, t.logs[out]) == ChunksOf(m.port, s.logs[out]) + [m]
              && t.owner[out] == if m.chunkEnd then INVALID else m.port
            else t == s
  {
    ChunksSnoc(m.port, s.logs[out], Handed(m, sinks(out, s.logs[out], m)));
  }

  lemma {:induction false} PerformForeign(f: Fan, cfg: Config, sinks: Sinks, ops: seq<Op>, p: Port, o: Output)
    requires f.state.Sized() && cfg.Sized() && p < MAX_PORTS
    requires forall i :: 0 <= i < |ops| && ops[i].Offer? && ops[i].m.chunk ==> ops[i].m.port != p
    ensures Same(p, o, f.state, Perform(f, cfg, sinks, ops).state)
  {
    if ops != [] {
      var front, op := ops[..|ops| - 1], ops[|ops| - 1];
      PerformForeign(f, cfg, sinks, front, p, o);
      if op.Offer? {
        DeliverForeign(Perform(f, cfg, sinks, front).state, cfg, sinks, op.out, op.m, p, o);
      }
      hide Deliver;
    }
  }

  /** A continuation replayed over the first n outputs, seen from output o. */
  lemma {:induction false} ReplayAt(s: State, cfg: Config, sinks: Sinks, targets: set<nat>, m: Message, n: nat,
                                    o: Output)
    requires s.Sized() && cfg.Sized() && m.port < MAX_PORTS && m.Continuation() && n <= MAX_PORTS
    ensures var t := Perform(Idle(s), cfg, sinks, PlanTargets(targets, m, n)).state;
            if o < n && o in targets && s.owner[o] == m.port then
              && ChunksOf(m.port, t.logs[o]) == ChunksOf(m.port, s.logs[o]) + [m]
              && t.owner[o] == if m.chunkEnd then INVALID else m.port
            else t.logs[o] == s.logs[o] && t.owner[o] == s.owner[o]
  {
    hide Perform, PlanTargets, ChunksOf;
    if n == 0 {
      ReplayNowhere(s, cfg, sinks, targets, m);
    } else {
      ReplayAt(s, cfg, sinks, targets, m, n - 1, o);
      ReplayOneMore(s, cfg, sinks, targets, m, n - 1, o);
    }
  }

  lemma ReplayNowhere(s: State, cfg: Config, sinks: Sinks, targets: set<nat>, m: Message)
    requires s.Sized() && cfg.Sized()
    ensures Perform(Idle(s), cfg, sinks, PlanTargets(targets, m, 0)).state == s
  {
  }

  lemma ReplayOneMore(s: State, cfg: Config, sinks: Sinks, targets: set<nat>, m: Message, n: Output, o: Output)
    requires s.Sized() && cfg.Sized() && m.port < MAX_PORTS && m.Continuation()
    ensures var before := Perform(Idle(s), cfg, sinks, PlanTargets(targets, m, n)).state;
            var after := Perform(Idle(s), cfg, sinks, PlanTargets(targets, m, n + 1)).state;
            if n == o && o in targets && before.owner[o] == m.port then
              && ChunksOf(m.port, after.logs[o]) == ChunksOf(m.port, before.logs[o]) + [m]
              && after.owner[o] == if m.chunkEnd then INVALID else m.port
            else after.logs[o] == before.logs[o] && after.owner[o] == before.owner[o]
  {
    hide Perform, Deliver, ChunksOf;
    var front := PlanTargets(targets, m, n);
    if n in targets {
      var g := Perform(Idle(s), cfg, sinks, front);
      PerformSnoc(Idle(s), cfg, sinks, front, Offer(n, m));
      DeliverOwn(g.state, cfg, sinks, n, m);
      DeliverLocal(g.state, cfg, sinks, n, m);
    } else {
      assert PlanTargets(targets, m, n + 1) == front;
    }
  }

  // --- Rule 1: the course of a stream ---

  /** Where p's stream stands as output o sees it: whether o still receives it,
      whether it is open at all, and whether its source has gone away. */
  datatype Course = Course(alive: bool, open: bool, pend: bool)

  function CourseOf(s: State, p: Port, o: Output): Course
    requires s.Sized() && p < MAX_PORTS
  {
    Course(s.streams[p].open && o in s.streams[p].targets && s.owner[o] == p, s.streams[p].open, p in s.pending)
  }

  datatype Leg = Leg(course: Course, handed: seq<Message>)

  /** One step of the reference course. It looks at p's own continuations, at p
      and o going away, and at nothing else. */
  function Advance(c: Course, p: Port, o: Output, step: Step): Leg {
    match step
    case Arrives(m, _) =>
      if m.Continuation() && m.port == p && c.open
      then Leg(if m.chunkEnd then Course(false, false, c.pend) else c, if c.alive then [m] else [])
      else Leg(c, [])
    case Closes(_) =>
      if c.pend && c.open then Leg(Course(false, false, false), if c.alive then [Closing(p)] else [])
      else Leg(c.(pend := false), [])
    case GoesDown(port) =>
      Leg(Course(c.alive && port != o, c.open, c.pend || (port == p && c.open)), [])
    case Edited(_) => Leg(c, [])
  }

  function Sail(c: Course, p: Port, o: Output, steps: seq<Step>): Leg {
    if steps == [] then Leg(c, [])
    else
      var front := Sail(c, p, o, steps[..|steps| - 1]);
      var last := Advance(front.course, p, o, steps[|steps| - 1]);
      Leg(last.course, front.handed + last.handed)
  }

  /** The state follows the reference leg. */
  ghost predicate Follows(s: State, t: State, p: Port, o: Output, leg: Leg)
    requires s.Sized() && t.Sized() && p < MAX_PORTS
  {
    CourseOf(t, p, o) == leg.course && ChunksOf(p, t.logs[o]) == ChunksOf(p, s.logs[o]) + leg.handed
  }

  lemma ContinueOwn(s: State, cfg: Config, sinks: Sinks, m: Message, o: Output)
    requires s.Sized() && cfg.Sized() && m.port < MAX_PORTS && m.Continuation()
    ensures Follows(s, Continue(s, cfg, sinks, m), m.port, o,
                    Advance(CourseOf(s, m.port, o), m.port, o, Arrives(m, sinks)))
  {
    if s.streams[m.port].open {
      var targets := s.streams[m.port].targets;
      ReplayAt(s, cfg, sinks, targets, m, MAX_PORTS, o);
      PerformLocal(Idle(s), cfg, sinks, PlanTargets(targets, m, MAX_PORTS), o);
    }
  }

  lemma ContinueForeign(s: State, cfg: Config, sinks: Sinks, m: Message, p: Port, o: Output)
    requires s.Sized() && cfg.Sized() && p < MAX_PORTS && m.port < MAX_PORTS && m.chunk && m.port != p
    ensures Follows(s, Continue(s, cfg, sinks, m), p, o, Leg(CourseOf(s, p, o), []))
  {
    if s.streams[m.port].open {
      var plan := PlanTargets(s.streams[m.port].targets, m, MAX_PORTS);
      PlanTargetsOffer(s.streams[m.port].targets, m, MAX_PORTS);
      PerformForeign(Idle(s), cfg, sinks, plan, p, o);
      PerformLocal(Idle(s), cfg, sinks, plan, o);
    }
  }

  lemma BeginForeign(s: State, cfg: Config, sinks: Sinks, source: nat, m: Message, p: Port, o: Output)
    requires s.Sized() && cfg.Sized() && p < MAX_PORTS && source < MAX_PORTS
    requires m.chunk ==> m.port == source && source != p
    ensures Follows(s, Begin(s, cfg, sinks, source, m), p, o, Leg(CourseOf(s, p, o), []))
  {
    var plan := PlanRoutes(cfg, m, |cfg.routes|);
    PlanRoutesFaithful(cfg, m, |cfg.routes|);
    PerformForeign(Idle(s), cfg, sinks, plan, p, o);
    PerformLocal(Idle(s), cfg, sinks, plan, o);
  }

  /** No new stream starts from p. */
  ghost predicate NoStart(p: Port, step: Step) {
    step.Arrives? && step.m.port == p && step.m.chunk ==> step.m.Continuation()
  }

  lemma ArrivesFollows(w: World, m: Message, sinks: Sinks, p: Port, o: Output)
    requires w.Sized() && p < MAX_PORTS && NoStart(p, Arrives(m, sinks))
    ensures Follows(w.state, Dispatch(w.state, w.cfg, sinks, m), p, o,
                    Advance(CourseOf(w.state, p, o), p, o, Arrives(m, sinks)))
  {
    if m.port < MAX_PORTS {
      var staged := RunStage(w.cfg.stages[m.port], m);
      if m.Continuation() {
        if m.port == p { ContinueOwn(w.state, w.cfg, sinks, m, o); }
        else { ContinueForeign(w.state, w.cfg, sinks, m, p, o); }
      } else if staged.Kept? {
        BeginForeign(w.state, w.cfg, sinks, m.port, staged.m, p, o);
      }
    }
  }

  /** Rule 2 over the first n inputs, seen from output o. */
  lemma {:induction false} CloseInputsFollow(s: State, cfg: Config, sinks: Sinks, n: nat, p: Port, o: Output)
    requires s.Sized() && cfg.Sized() && p < MAX_PORTS && n <= MAX_PORTS
    ensures var t := CloseInputs(s, cfg, sinks, n);
            var c := CourseOf(s, p, o);
            && t.pending == s.pending
            && Follows(s, t, p, o,
                 if p < n && c.pend && c.open then Leg(Course(false, false, true), if c.alive then [Closing(p)] else [])
                 else Leg(c, []))
  {
    if n > 0 {
      CloseInputsFollow(s, cfg, sinks, n - 1, p, o);
      CloseInputsLocal(s, cfg, sinks, n, o);
      var t := CloseInputs(s, cfg, sinks, n - 1);
      if n - 1 in s.pending {
        if n - 1 == p { ContinueOwn(t, cfg, sinks, Closing(p), o); }
        else { ContinueForeign(t, cfg, sinks, Closing(n - 1), p, o); }
      }
    }
  }

  lemma DownFollows(s: State, port: Port, p: Port, o: Output)
    requires s.Sized() && p < MAX_PORTS
    ensures Follows(s, PortDown(s, port), p, o, Advance(CourseOf(s, p, o), p, o, GoesDown(port)))
  {
    if port < MAX_PORTS { ChunksSnoc(p, s.logs[port], Cut); }
  }

  lemma NextFollows(w: World, step: Step, p: Port, o: Output)
    requires w.Sized() && Possible(step) && p < MAX_PORTS && NoStart(p, step)
    ensures Follows(w.state, Next(w, step).state, p, o, Advance(CourseOf(w.state, p, o), p, o, step))
  {
    match step
    case Arrives(m, sinks) => ArrivesFollows(w, m, sinks, p, o);
    case Closes(sinks) => CloseInputsFollow(w.state, w.cfg, sinks, MAX_PORTS, p, o);
    case GoesDown(port) => DownFollows(w.state, port, p, o);
    case Edited(cfg) =>
  }

  /** Rule 1: once a stream has started, what each output receives of it is the
      reference course. Edits to routes, stages, registry and sinks, sink
      answers and every other source's traffic play no part in it. */
  lemma {:induction false} StreamKeepsItsCourse(w: World, steps: seq<Step>, p: Port, o: Output)
    requires w.Sized() && AllPossible(steps) && p < MAX_PORTS
    requires forall i :: 0 <= i < |steps| ==> NoStart(p, steps[i])
    ensures Follows(w.state, Run(w, steps).state, p, o, Sail(CourseOf(w.state, p, o), p, o, steps))
  {
    if steps != [] {
      var front := steps[..|steps| - 1];
      StreamKeepsItsCourse(w, front, p, o);
      NextFollows(Run(w, front), steps[|steps| - 1], p, o);
      hide Next, CourseOf, Advance;
    }
  }

  /** A stream that is not open reaches nothing until a new start. */
  lemma {:induction false} ClosedStaysSilent(c: Course, p: Port, o: Output, steps: seq<Step>)
    requires !c.open && !c.alive
    ensures var leg := Sail(c, p, o, steps); leg.handed == [] && !leg.course.open && !leg.course.alive
  {
    if steps != [] { ClosedStaysSilent(c, p, o, steps[..|steps| - 1]); }
  }

  // --- Rule 2: a source that goes away ---

  /** Anything but the beginning of a pass: other ports' events, arrivals, edits. */
  ghost predicate WithinAPass(steps: seq<Step>) {
    forall i :: 0 <= i < |steps| ==> !steps[i].Closes?
  }

  lemma NextPending(w: World, step: Step, p: Port)
    requires w.Sized() && Possible(step) && p < MAX_PORTS && !step.Closes?
    ensures p in w.state.pending ==> p in Next(w, step).state.pending
    ensures step != GoesDown(p) && p !in w.state.pending ==> p !in Next(w, step).state.pending
  {
    if step.Arrives? && step.m.port < MAX_PORTS {
      var m, cfg := step.m, w.cfg;
      var staged := RunStage(cfg.stages[m.port], m);
      if m.Continuation() {
        ContinueLocal(w.state, cfg, step.sinks, m, 0);
      } else if staged.Kept? {
        PerformLocal(Idle(w.state), cfg, step.sinks, PlanRoutes(cfg, staged.m, |cfg.routes|), 0);
      }
    }
    hide Perform, Deliver, RunStage, PlanRoutes;
  }

  /** An input is recorded until the next pass, and only by going away. */
  lemma {:induction false} StaysPending(w: World, steps: seq<Step>, p: Port)
    requires w.Sized() && AllPossible(steps) && p < MAX_PORTS && WithinAPass(steps)
    ensures p in w.state.pending ==> p in Run(w, steps).state.pending
    ensures p !in w.state.pending && GoesDown(p) !in steps ==> p !in Run(w, steps).state.pending
  {
    if steps != [] {
      StaysPending(w, steps[..|steps| - 1], p);
      NextPending(Run(w, steps[..|steps| - 1]), steps[|steps| - 1], p);
    }
    hide Next;
  }

  /** Rule 2: a source that goes away mid-stream has each output that still
      holds its stream when the next pass begins handed one empty end, and freed;
      then nothing of that source reaches any output until it starts anew. Any
      port events, arrivals and edits may come before that pass. */
  lemma DisconnectClosesOnce(w: World, p: Port, between: seq<Step>, sinks: Sinks, o: Output, later: seq<Step>)
    requires w.Sized() && p < MAX_PORTS && w.state.streams[p].open
    requires AllPossible(between) && WithinAPass(between) && AllPossible(later)
    requires forall i :: 0 <= i < |later| ==> NoStart(p, later[i])
    ensures var mid := Run(Next(w, GoesDown(p)), between);
            var closed := Next(mid, Closes(sinks));
            var after := Run(closed, later);
            var alive := CourseOf(mid.state, p, o).alive;
            && ChunksOf(p, closed.state.logs[o]) ==
               ChunksOf(p, mid.state.logs[o])
               + (if alive then [Message(p, 0xf0, 0, 0, 0, true, false, true, [])] else [])
            && !closed.state.streams[p].open && (alive ==> closed.state.owner[o] != p)
            && ChunksOf(p, after.state.logs[o]) == ChunksOf(p, closed.state.logs[o])
  {
    hide Next, CourseOf, Run, ChunksOf, Closing;
    ClosingIs(p);
    var mid := Run(Next(w, GoesDown(p)), between);
    var closed := Next(mid, Closes(sinks));
    DownIsPending(w, p);
    StaysPending(Next(w, GoesDown(p)), between, p);
    NextFollows(mid, Closes(sinks), p, o);
    CourseMeans(mid.state, p, o);
    CourseMeans(closed.state, p, o);
    StreamKeepsItsCourse(closed, later, p, o);
    ClosedStaysSilent(CourseOf(closed.state, p, o), p, o, later);
    if CourseOf(mid.state, p, o).alive { PassFrees(mid, p, sinks, o); }
  }

  /** An empty end of p's stream. */
  lemma ClosingIs(p: Port)
    ensures Closing(p) == Message(p, 0xf0, 0, 0, 0, true, false, true, [])
  {
  }

  lemma DownIsPending(w: World, p: Port)
    requires w.Sized() && p < MAX_PORTS
    ensures p in Next(w, GoesDown(p)).state.pending <==> p in w.state.pending || w.state.streams[p].open
  {
  }

  lemma CourseMeans(s: State, p: Port, o: Output)
    requires s.Sized() && p < MAX_PORTS
    ensures CourseOf(s, p, o).open == s.streams[p].open && CourseOf(s, p, o).pend == (p in s.pending)
    ensures CourseOf(s, p, o).alive ==> s.streams[p].open
  {
  }

  /** The next pass after a disconnect leaves the source's stream closed if and
      only if the source is recorded by then, or has no stream open. A source that
      went away with its stream open, or earlier in the same pass, is recorded; one
      whose start was still queued is not, unless it goes away again: that start is
      dispatched later, and nothing ends it. */
  lemma DisconnectCoversIff(w: World, p: Port, between: seq<Step>, sinks: Sinks)
    requires w.Sized() && p < MAX_PORTS && AllPossible(between) && WithinAPass(between)
    ensures var mid := Run(Next(w, GoesDown(p)), between);
            var recorded := p in w.state.pending || w.state.streams[p].open;
            && (!Next(mid, Closes(sinks)).state.streams[p].open <==>
                p in mid.state.pending || !mid.state.streams[p].open)
            && (recorded ==> p in mid.state.pending)
            && (GoesDown(p) !in between && p in mid.state.pending ==> recorded)
  {
    hide Next, CourseOf, Run, ChunksOf;
    var mid := Run(Next(w, GoesDown(p)), between);
    DownIsPending(w, p);
    StaysPending(Next(w, GoesDown(p)), between, p);
    NextFollows(mid, Closes(sinks), p, 0);
    CourseMeans(mid.state, p, 0);
    CourseMeans(Next(mid, Closes(sinks)).state, p, 0);
  }

  /** The pass frees the outputs that still hold the stream. */
  lemma PassFrees(w: World, p: Port, sinks: Sinks, o: Output)
    requires w.Sized() && p < MAX_PORTS && p in w.state.pending && CourseOf(w.state, p, o).alive
    ensures Next(w, Closes(sinks)).state.owner[o] != p
  {
    ClosingFrees(w.state, w.cfg, sinks, MAX_PORTS, p, o);
  }

  lemma {:induction false} ClosingFrees(s: State, cfg: Config, sinks: Sinks, n: nat, p: Port, o: Output)
    requires s.Sized() && cfg.Sized() && p < MAX_PORTS && n <= MAX_PORTS && p in s.pending
    requires s.streams[p].open && o in s.streams[p].targets
    ensures p < n ==> CloseInputs(s, cfg, sinks, n).owner[o] != p
    ensures p >= n ==> CloseInputs(s, cfg, sinks, n).streams[p] == s.streams[p]
  {
    if n > 0 {
      ClosingFrees(s, cfg, sinks, n - 1, p, o);
      var t := CloseInputs(s, cfg, sinks, n - 1);
      if n - 1 in s.pending {
        if t.streams[n - 1].open {
          PerformLocal(Idle(t), cfg, sinks, PlanTargets(t.streams[n - 1].targets, Closing(n - 1), MAX_PORTS), o);
        }
        if n - 1 == p {
          ReplayAt(t, cfg, sinks, t.streams[p].targets, Closing(p), MAX_PORTS, o);
        } else {
          ContinueForeignOwner(t, cfg, sinks, Closing(n - 1), p, o);
        }
      }
    }
  }

  lemma ContinueForeignOwner(s: State, cfg: Config, sinks: Sinks, m: Message, p: Port, o: Output)
    requires s.Sized() && cfg.Sized() && p < MAX_PORTS && m.port < MAX_PORTS && m.chunk && m.port != p
    ensures Same(p, o, s, Continue(s, cfg, sinks, m))
  {
    if s.streams[m.port].open {
      PlanTargetsOffer(s.streams[m.port].targets, m, MAX_PORTS);
      PerformForeign(Idle(s), cfg, sinks, PlanTargets(s.streams[m.port].targets, m, MAX_PORTS), p, o);
    }
  }
}
