/** What every run keeps about each output's history. */
module RouterTrace {
  import opened Midi
  import opened Routing

  // --- The language of one output's history ---

  /** Whose stream an output is in after `e`, INVALID for none; None when the
      language forbids `e` there. Cut is the output's own port going away. */
  function HolderAfter(holder: Port, e: Entry): Option<Port> {
    match e
    case Cut => Some(INVALID)
    case Handed(m, _) =>
      if !m.chunk then (if holder == INVALID || IsRealTime(m.status) then Some(holder) else None)
      else if m.chunkStart then
        (if holder != INVALID || m.port == INVALID then None
         else if m.chunkEnd then Some(INVALID) else Some(m.port))
      else if holder == INVALID || holder != m.port then None
      else if m.chunkEnd then Some(INVALID)
      else Some(holder)
  }

  function Holder(log: seq<Entry>): Option<Port> {
    if log == [] then Some(INVALID)
    else
      match Holder(log[..|log| - 1])
      case None => None
      case Some(h) => HolderAfter(h, log[|log| - 1])
  }

  /** Every history is in the language, and `owner` is where it stands. */
  ghost predicate Disciplined(s: State) {
    s.Sized() && forall o: Output :: Holder(s.logs[o]) == Some(s.owner[o])
  }

  /** A message some input port was the source of, if it is a chunk. */
  ghost predicate Sourced(m: Message) { m.chunk ==> m.port != INVALID }

  lemma HolderSnoc(log: seq<Entry>, e: Entry)
    ensures Holder(log + [e]) == match Holder(log) { case None => None case Some(h) => HolderAfter(h, e) }
  {
    assert (log + [e])[..|log|] == log;
  }

  lemma DeliverDisciplined(s: State, cfg: Config, sinks: Sinks, out: Output, m: Message)
    requires Disciplined(s) && cfg.Sized() && Sourced(m)
    ensures Disciplined(Deliver(s, cfg, sinks, out, m).state)
  {
    var staged := RunStage(cfg.stages[out], m);
    if staged.Kept? && Admits(s.owner[out], staged.m).Open? {
      TransmitDisciplined(s, sinks, out, staged.m);
    }
  }

  lemma TransmitDisciplined(s: State, sinks: Sinks, out: Output, m: Message)
    requires Disciplined(s) && Sourced(m) && Admits(s.owner[out], m).Open?
    ensures Disciplined(Transmit(s, sinks, out, m).state)
  {
    var t := Transmit(s, sinks, out, m).state;
    var e := Handed(m, sinks(out, s.logs[out], m));
    assert t.logs[out] == s.logs[out] + [e];
    HolderSnoc(s.logs[out], e);
    assert HolderAfter(s.owner[out], e) == Some(t.owner[out]);
    forall o: Output ensures Holder(t.logs[o]) == Some(t.owner[o]) {
      if o != out { assert t.logs[o] == s.logs[o] && t.owner[o] == s.owner[o]; }
    }
  }

  ghost predicate AllSourced(ops: seq<Op>) {
    forall i :: 0 <= i < |ops| && ops[i].Offer? ==> Sourced(ops[i].m)
  }

  lemma {:induction false} PerformDisciplined(f: Fan, cfg: Config, sinks: Sinks, ops: seq<Op>)
    requires Disciplined(f.state) && cfg.Sized() && AllSourced(ops)
    ensures Disciplined(Perform(f, cfg, sinks, ops).state)
  {
    if ops != [] {
      var front, op := ops[..|ops| - 1], ops[|ops| - 1];
      PerformDisciplined(f, cfg, sinks, front);
      var g := Perform(f, cfg, sinks, front);
      if op.Offer? {
        DeliverDisciplined(g.state, cfg, sinks, op.out, op.m);
      }
    }
  }

  // --- Plans offer only what they were given ---

  lemma {:induction false} PlanOutputsOffer(cfg: Config, route: Route, source: Port, m: Message, n: nat)
    requires n <= MAX_PORTS
    ensures forall i :: 0 <= i < |PlanOutputs(cfg, route, source, m, n)| ==>
              var op := PlanOutputs(cfg, route, source, m, n)[i];
              op.Offer? && op.m == m && op.out < n && cfg.Reaches(route, source, op.out)
  {
    if n > 0 { PlanOutputsOffer(cfg, route, source, m, n - 1); }
  }

  lemma {:induction false} PlanTargetsOffer(targets: set<nat>, m: Message, n: nat)
    requires n <= MAX_PORTS
    ensures forall i :: 0 <= i < |PlanTargets(targets, m, n)| ==>
              var op := PlanTargets(targets, m, n)[i];
              op.Offer? && op.m == m && op.out < n && op.out in targets
  {
    if n > 0 { PlanTargetsOffer(targets, m, n - 1); }
  }

  /** A plan offers chunks as they are, and short messages as short ones. */
  ghost predicate Faithful(ops: seq<Op>, m: Message) {
    forall i :: 0 <= i < |ops| && ops[i].Offer? ==> ops[i].m.chunk == m.chunk && (m.chunk ==> ops[i].m == m)
  }

  lemma {:induction false} PlanRoutesFaithful(cfg: Config, m: Message, n: nat)
    requires n <= |cfg.routes|
    ensures Faithful(PlanRoutes(cfg, m, n), m)
  {
    if n > 0 {
      PlanRoutesFaithful(cfg, m, n - 1);
      var route := cfg.routes[n - 1];
      var staged := RunStage(route.rules, m);
      if staged.Kept? {
        PlanOutputsOffer(cfg, route, m.port, staged.m, cfg.Outputs());
      }
    }
  }

  // --- Every step ---

  lemma ContinueDisciplined(s: State, cfg: Config, sinks: Sinks, m: Message)
    requires Disciplined(s) && cfg.Sized() && m.port < MAX_PORTS
    ensures Disciplined(Continue(s, cfg, sinks, m))
  {
    PlanTargetsOffer(s.streams[m.port].targets, m, MAX_PORTS);
    PerformDisciplined(Idle(s), cfg, sinks, PlanTargets(s.streams[m.port].targets, m, MAX_PORTS));
  }

  lemma DispatchDisciplined(s: State, cfg: Config, sinks: Sinks, entry: Message)
    requires Disciplined(s) && cfg.Sized()
    ensures Disciplined(Dispatch(s, cfg, sinks, entry))
  {
    if entry.port < MAX_PORTS {
      var staged := RunStage(cfg.stages[entry.port], entry);
      if staged.Kept? {
        if staged.m.Continuation() {
          ContinueDisciplined(s, cfg, sinks, staged.m);
        } else {
          PlanRoutesFaithful(cfg, staged.m, |cfg.routes|);
          PerformDisciplined(Idle(s), cfg, sinks, PlanRoutes(cfg, staged.m, |cfg.routes|));
        }
      }
    }
  }

  lemma {:induction false} CloseInputsDisciplined(s: State, cfg: Config, sinks: Sinks, n: nat)
    requires Disciplined(s) && cfg.Sized() && n <= MAX_PORTS
    ensures Disciplined(CloseInputs(s, cfg, sinks, n))
  {
    if n > 0 {
      CloseInputsDisciplined(s, cfg, sinks, n - 1);
      ContinueDisciplined(CloseInputs(s, cfg, sinks, n - 1), cfg, sinks, Closing(n - 1));
    }
  }

  lemma NextDisciplined(w: World, step: Step)
    requires w.Sized() && Possible(step) && Disciplined(w.state)
    ensures Disciplined(Next(w, step).state)
  {
    match step
    case Arrives(m, sinks) => DispatchDisciplined(w.state, w.cfg, sinks, m);
    case Closes(sinks) => CloseInputsDisciplined(w.state, w.cfg, sinks, MAX_PORTS);
    case GoesDown(port) =>
      if port < MAX_PORTS { HolderSnoc(w.state.logs[port], Cut); }
    case Edited(cfg) =>
  }

  /** Rule 3 over any run whatever: what each output's sink is handed is in the
      language, whatever the sinks answer, the sources send and the sketch edits. */
  lemma {:induction false} EveryHistoryIsDisciplined(w: World, steps: seq<Step>)
    requires w.Sized() && AllPossible(steps) && Disciplined(w.state)
    ensures Disciplined(Run(w, steps).state)
  {
    if steps != [] {
      EveryHistoryIsDisciplined(w, steps[..|steps| - 1]);
      NextDisciplined(Run(w, steps[..|steps| - 1]), steps[|steps| - 1]);
    }
  }

  /** No stream was cut short. */
  ghost predicate Uncut(log: seq<Entry>) {
    forall i :: 0 <= i < |log| ==> log[i].Handed?
  }

  lemma FreshIsDisciplined()
    ensures Disciplined(FRESH)
  {
  }


  // --- What a delivery leaves alone ---

  /** Nothing but counters and output `out` changes; its history only grows, by
      what its sink is handed. */
  ghost predicate OnlyAt(s: State, t: State, out: Output)
    requires s.Sized() && t.Sized()
  {
    && t.streams == s.streams && t.pending == s.pending
    && (forall o: Output :: o != out ==> t.logs[o] == s.logs[o] && t.owner[o] == s.owner[o])
  }

  /** `after` continues `before` with handovers only. */
  ghost predicate Extends(before: seq<Entry>, after: seq<Entry>) {
    before <= after && forall i :: |before| <= i < |after| ==> after[i].Handed?
  }

  lemma DeliverLocal(s: State, cfg: Config, sinks: Sinks, out: Output, m: Message)
    requires s.Sized() && cfg.Sized()
    ensures OnlyAt(s, Deliver(s, cfg, sinks, out, m).state, out)
    ensures Extends(s.logs[out], Deliver(s, cfg, sinks, out, m).state.logs[out])
  {
  }

  /** Carrying out a plan touches no stream and no pending close. */
  lemma {:induction false} PerformLocal(f: Fan, cfg: Config, sinks: Sinks, ops: seq<Op>, o: Output)
    requires f.state.Sized() && cfg.Sized()
    ensures var g := Perform(f, cfg, sinks, ops);
            && g.state.streams == f.state.streams && g.state.pending == f.state.pending
            && Extends(f.state.logs[o], g.state.logs[o])
  {
    if ops != [] {
      var front, op := ops[..|ops| - 1], ops[|ops| - 1];
      PerformLocal(f, cfg, sinks, front, o);
      if op.Offer? {
        DeliverLocal(Perform(f, cfg, sinks, front).state, cfg, sinks, op.out, op.m);
      }
      hide Deliver;
    }
  }

  lemma ContinueLocal(s: State, cfg: Config, sinks: Sinks, m: Message, o: Output)
    requires s.Sized() && cfg.Sized() && m.port < MAX_PORTS
    ensures Extends(s.logs[o], Continue(s, cfg, sinks, m).logs[o])
    ensures Continue(s, cfg, sinks, m).pending == s.pending
  {
    PerformLocal(Idle(s), cfg, sinks, PlanTargets(s.streams[m.port].targets, m, MAX_PORTS), o);
  }

  lemma {:induction false} CloseInputsLocal(s: State, cfg: Config, sinks: Sinks, n: nat, o: Output)
    requires s.Sized() && cfg.Sized() && n <= MAX_PORTS
    ensures Extends(s.logs[o], CloseInputs(s, cfg, sinks, n).logs[o])
    ensures CloseInputs(s, cfg, sinks, n).pending == s.pending
  {
    if n > 0 {
      CloseInputsLocal(s, cfg, sinks, n - 1, o);
      ContinueLocal(CloseInputs(s, cfg, sinks, n - 1), cfg, sinks, Closing(n - 1), o);
    }
  }

  /** A stream is cut short on an output only by that output's own port going
      away: otherwise its history only grows, by what its sink is handed. */
  lemma {:induction false} CutOnlyByItsOwnPort(w: World, steps: seq<Step>, o: Output)
    requires w.Sized() && AllPossible(steps)
    requires forall i :: 0 <= i < |steps| ==> steps[i] != GoesDown(o)
    ensures Extends(w.state.logs[o], Run(w, steps).state.logs[o])
  {
    if steps != [] {
      CutOnlyByItsOwnPort(w, steps[..|steps| - 1], o);
      NextExtends(Run(w, steps[..|steps| - 1]), steps[|steps| - 1], o);
    }
  }

  lemma NextExtends(w: World, step: Step, o: Output)
    requires w.Sized() && Possible(step) && step != GoesDown(o)
    ensures Extends(w.state.logs[o], Next(w, step).state.logs[o])
  {
    match step
    case Arrives(m, sinks) =>
      if m.port < MAX_PORTS {
        var staged := RunStage(w.cfg.stages[m.port], m);
        if staged.Kept? {
          ContinueOrBeginExtends(w.state, w.cfg, sinks, m.port, staged.m, o);
        }
      }
    case Closes(sinks) => CloseInputsLocal(w.state, w.cfg, sinks, MAX_PORTS, o);
    case GoesDown(port) =>
    case Edited(cfg) =>
  }

  lemma ContinueOrBeginExtends(s: State, cfg: Config, sinks: Sinks, source: nat, m: Message, o: Output)
    requires s.Sized() && cfg.Sized() && source < MAX_PORTS
    ensures m.port < MAX_PORTS ==> Extends(s.logs[o], Continue(s, cfg, sinks, m).logs[o])
    ensures Extends(s.logs[o], Begin(s, cfg, sinks, source, m).logs[o])
  {
    if m.port < MAX_PORTS { ContinueLocal(s, cfg, sinks, m, o); }
    PerformLocal(Idle(s), cfg, sinks, PlanRoutes(cfg, m, |cfg.routes|), o);
  }

  /** From power-on: every output's history is in the language, and holds no cut
      unless that output's own port went away. */
  lemma DisciplinedFromTheStart(cfg: Config, steps: seq<Step>, o: Output)
    requires cfg.Sized() && AllPossible(steps)
    ensures var s := Run(World(FRESH, cfg), steps).state;
            Disciplined(s) && (GoesDown(o) !in steps ==> Uncut(s.logs[o]))
  {
    hide Run, Disciplined;
    FreshIsDisciplined();
    EveryHistoryIsDisciplined(World(FRESH, cfg), steps);
    if GoesDown(o) !in steps { CutOnlyByItsOwnPort(World(FRESH, cfg), steps, o); }
  }
}
