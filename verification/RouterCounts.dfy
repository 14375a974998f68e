/** The books balance: what the router counts as sent is what the sinks took,
    what it counts as having no route had none, and which messages go uncounted. */
module RouterCounts {
  import opened Midi
  import opened Routing
  import opened RouterTrace
  import opened RouterStreams
  import opened RouterPlans

  /** How often a sink took, or refused, what it was handed. */
  function Answers(log: seq<Entry>, sent: bool): nat {
    if log == [] then 0
    else
      var e := log[|log| - 1];
      Answers(log[..|log| - 1], sent) + if e.Handed? && e.sent == sent then 1 else 0
  }

  function AllAnswers(logs: seq<seq<Entry>>, sent: bool): nat {
    if logs == [] then 0 else AllAnswers(logs[..|logs| - 1], sent) + Answers(logs[|logs| - 1], sent)
  }

  ghost predicate Balanced(s: State) {
    && s.Sized()
    && s.counters.delivered == AllAnswers(s.logs, true)
    && s.counters.sendFailed == AllAnswers(s.logs, false)
  }

  lemma AnswersSnoc(log: seq<Entry>, e: Entry, sent: bool)
    ensures Answers(log + [e], sent) == Answers(log, sent) + if e.Handed? && e.sent == sent then 1 else 0
  {
    assert (log + [e])[..|log|] == log;
  }

  lemma {:induction false} OneMore(logs: seq<seq<Entry>>, i: nat, e: Entry, sent: bool)
    requires i < |logs|
    ensures AllAnswers(logs[i := logs[i] + [e]], sent) ==
            AllAnswers(logs, sent) + if e.Handed? && e.sent == sent then 1 else 0
  {
    var front := logs[..|logs| - 1];
    var after := logs[i := logs[i] + [e]];
    if i < |front| {
      OneMore(front, i, e, sent);
      assert after[..|logs| - 1] == front[i := front[i] + [e]];
    } else {
      AnswersSnoc(logs[i], e, sent);
      assert after[..|logs| - 1] == front;
    }
  }

  /** A delivery hands over one message and counts the answer, or neither. */
  lemma DeliverBalanced(s: State, cfg: Config, sinks: Sinks, out: Output, m: Message)
    requires Balanced(s) && cfg.Sized()
    ensures Balanced(Deliver(s, cfg, sinks, out, m).state)
  {
    forall sent: bool, e: Entry
      ensures AllAnswers(s.logs[out := s.logs[out] + [e]], sent) ==
              AllAnswers(s.logs, sent) + if e.Handed? && e.sent == sent then 1 else 0
    {
      OneMore(s.logs, out, e, sent);
    }
    hide AllAnswers, RunStage;
  }

  lemma {:induction false} PerformBalanced(f: Fan, cfg: Config, sinks: Sinks, ops: seq<Op>)
    requires Balanced(f.state) && cfg.Sized()
    ensures Balanced(Perform(f, cfg, sinks, ops).state)
  {
    if ops != [] {
      var front, op := ops[..|ops| - 1], ops[|ops| - 1];
      PerformBalanced(f, cfg, sinks, front);
      if op.Offer? { DeliverBalanced(Perform(f, cfg, sinks, front).state, cfg, sinks, op.out, op.m); }
      hide Deliver, AllAnswers;
    }
  }

  lemma ContinueBalanced(s: State, cfg: Config, sinks: Sinks, m: Message)
    requires Balanced(s) && cfg.Sized() && m.port < MAX_PORTS
    ensures Balanced(Continue(s, cfg, sinks, m))
  {
    PerformBalanced(Idle(s), cfg, sinks, PlanTargets(s.streams[m.port].targets, m, MAX_PORTS));
  }

  lemma {:induction false} CloseInputsBalanced(s: State, cfg: Config, sinks: Sinks, n: nat)
    requires Balanced(s) && cfg.Sized() && n <= MAX_PORTS
    ensures Balanced(CloseInputs(s, cfg, sinks, n))
  {
    if n > 0 {
      CloseInputsBalanced(s, cfg, sinks, n - 1);
      ContinueBalanced(CloseInputs(s, cfg, sinks, n - 1), cfg, sinks, Closing(n - 1));
    }
  }

  lemma NextBalanced(w: World, step: Step)
    requires w.Sized() && Possible(step) && Balanced(w.state)
    ensures Balanced(Next(w, step).state)
  {
    hide AllAnswers, Perform, RunStage;
    match step
    case Arrives(m, sinks) =>
      if m.port < MAX_PORTS {
        var staged := RunStage(w.cfg.stages[m.port], m);
        if staged.Kept? {
          if staged.m.Continuation() {
            RunStageContinues(w.cfg.stages[m.port], m);
            ContinueBalanced(w.state, w.cfg, sinks, m);
          } else {
            PerformBalanced(Idle(w.state), w.cfg, sinks, PlanRoutes(w.cfg, staged.m, |w.cfg.routes|));
          }
        }
      }
    case Closes(sinks) => CloseInputsBalanced(w.state, w.cfg, sinks, MAX_PORTS);
    case GoesDown(port) => if port < MAX_PORTS { CutBalanced(w.state, port); }
    case Edited(_) =>
  }

  lemma RunStageContinues(rules: Rules, m: Message)
    requires RunStage(rules, m).Kept? && RunStage(rules, m).m.Continuation()
    ensures RunStage(rules, m).m == m
  {
  }

  lemma CutBalanced(s: State, port: Output)
    requires Balanced(s)
    ensures Balanced(PortDown(s, port))
  {
    OneMore(s.logs, port, Cut, true);
    OneMore(s.logs, port, Cut, false);
    hide AllAnswers;
  }

  /** Over any run, `delivered` and `sendFailed` are exactly the handovers the
      sinks took and refused: nothing is sent uncounted or counted unsent. */
  lemma {:induction false} BooksBalance(w: World, steps: seq<Step>)
    requires w.Sized() && AllPossible(steps) && Balanced(w.state)
    ensures Balanced(Run(w, steps).state)
  {
    if steps != [] {
      BooksBalance(w, steps[..|steps| - 1]);
      NextBalanced(Run(w, steps[..|steps| - 1]), steps[|steps| - 1]);
    }
    hide Next, Balanced;
  }

  lemma {:induction false} NoAnswers(logs: seq<seq<Entry>>, sent: bool)
    requires forall i :: 0 <= i < |logs| ==> logs[i] == []
    ensures AllAnswers(logs, sent) == 0
  {
    if logs != [] { NoAnswers(logs[..|logs| - 1], sent); }
  }

  lemma FreshIsBalanced()
    ensures Balanced(FRESH)
  {
    NoAnswers(FRESH.logs, true);
    NoAnswers(FRESH.logs, false);
  }

  /** So they do from power-on. */
  lemma BooksBalanceFromTheStart(cfg: Config, steps: seq<Step>)
    requires cfg.Sized() && AllPossible(steps)
    ensures Balanced(Run(World(FRESH, cfg), steps).state)
  {
    FreshIsBalanced();
    BooksBalance(World(FRESH, cfg), steps);
  }

  // --- What is counted ---

  /** Everything but a continuation its output does not hold is counted once. */
  lemma DeliverCounts(s: State, cfg: Config, sinks: Sinks, out: Output, m: Message)
    requires s.Sized() && cfg.Sized()
    ensures Deliver(s, cfg, sinks, out, m).state.counters.Total() ==
            s.counters.Total() + if m.Continuation() && s.owner[out] != m.port then 0 else 1
  {
  }

  lemma {:induction false} PerformCounts(f: Fan, cfg: Config, sinks: Sinks, ops: seq<Op>)
    requires f.state.Sized() && cfg.Sized()
    requires forall i :: 0 <= i < |ops| ==> if ops[i].Offer? then !ops[i].m.Continuation() else !ops[i].why.Kept?
    ensures var g := Perform(f, cfg, sinks, ops);
            g.state.counters.Total() == f.state.counters.Total() + |ops|
  {
    if ops != [] {
      var front, op := ops[..|ops| - 1], ops[|ops| - 1];
      PerformCounts(f, cfg, sinks, front);
      if op.Offer? {
        DeliverCounts(Perform(f, cfg, sinks, front).state, cfg, sinks, op.out, op.m);
      }
      hide Deliver;
    }
  }

  lemma {:induction false} PlanRoutesDrops(cfg: Config, m: Message, n: nat)
    requires n <= |cfg.routes|
    ensures forall i :: 0 <= i < |PlanRoutes(cfg, m, n)| && PlanRoutes(cfg, m, n)[i].Drops? ==>
              !PlanRoutes(cfg, m, n)[i].why.Kept?
  {
    if n > 0 {
      PlanRoutesDrops(cfg, m, n - 1);
      var route := cfg.routes[n - 1];
      var staged := RunStage(route.rules, m);
      if staged.Kept? { PlanOutputsOffer(cfg, route, m.port, staged.m, cfg.Outputs()); }
    }
  }

  /** What has been counted once a continuation is replayed over n outputs. */
  function TotalAfter(s: State, cfg: Config, sinks: Sinks, targets: set<nat>, m: Message, n: nat): nat
    requires s.Sized() && cfg.Sized() && n <= MAX_PORTS
  {
    Perform(Idle(s), cfg, sinks, PlanTargets(targets, m, n)).state.counters.Total()
  }

  lemma {:induction false} ReplayCounts(s: State, cfg: Config, sinks: Sinks, targets: set<nat>, m: Message, n: nat)
    requires s.Sized() && cfg.Sized() && m.port < MAX_PORTS && m.Continuation() && n <= MAX_PORTS
    ensures TotalAfter(s, cfg, sinks, targets, m, n) >= s.counters.Total()
    ensures TotalAfter(s, cfg, sinks, targets, m, n) == s.counters.Total() <==> Unheld(s, targets, m, n)
  {
    hide TotalAfter, Unheld;
    if n == 0 {
      ReplayNone(s, cfg, sinks, targets, m);
    } else {
      ReplayCounts(s, cfg, sinks, targets, m, n - 1);
      ReplayOne(s, cfg, sinks, targets, m, n - 1);
      UnheldNext(s, targets, m, n - 1);
    }
  }

  lemma ReplayNone(s: State, cfg: Config, sinks: Sinks, targets: set<nat>, m: Message)
    requires s.Sized() && cfg.Sized()
    ensures TotalAfter(s, cfg, sinks, targets, m, 0) == s.counters.Total() && Unheld(s, targets, m, 0)
  {
  }

  /** None of the first n outputs would take this continuation. */
  ghost predicate Unheld(s: State, targets: set<nat>, m: Message, n: nat)
    requires s.Sized()
  {
    forall o: Output :: o < n && o in targets ==> s.owner[o] != m.port
  }

  lemma UnheldNext(s: State, targets: set<nat>, m: Message, o: Output)
    requires s.Sized()
    ensures Unheld(s, targets, m, o + 1) <==> Unheld(s, targets, m, o) && !(o in targets && s.owner[o] == m.port)
  {
  }

  lemma ReplayOne(s: State, cfg: Config, sinks: Sinks, targets: set<nat>, m: Message, o: Output)
    requires s.Sized() && cfg.Sized() && m.port < MAX_PORTS && m.Continuation()
    ensures TotalAfter(s, cfg, sinks, targets, m, o + 1) == TotalAfter(s, cfg, sinks, targets, m, o)
            + if o in targets && s.owner[o] == m.port then 1 else 0
  {
    var front := PlanTargets(targets, m, o);
    if o in targets {
      PerformSnoc(Idle(s), cfg, sinks, front, Offer(o, m));
      ReplayAt(s, cfg, sinks, targets, m, o, o);
      DeliverCounts(Perform(Idle(s), cfg, sinks, front).state, cfg, sinks, o, m);
    } else {
      assert PlanTargets(targets, m, o + 1) == front;
    }
    hide Deliver, Perform;
  }

  /** Whether any output would take this continuation. */
  ghost predicate Wanted(s: State, m: Message)
    requires s.Sized() && m.port < MAX_PORTS
  {
    s.streams[m.port].open && exists o: Output :: o in s.streams[m.port].targets && s.owner[o] == m.port
  }

  /** A dispatched message goes uncounted exactly when it came from no port at
      all, or is a continuation no output holds the stream of. */
  lemma UncountedIff(s: State, cfg: Config, sinks: Sinks, m: Message)
    requires s.Sized() && cfg.Sized()
    ensures Dispatch(s, cfg, sinks, m).counters.Total() >= s.counters.Total()
    ensures Dispatch(s, cfg, sinks, m).counters.Total() == s.counters.Total() <==>
            m.port >= MAX_PORTS || (m.Continuation() && !Wanted(s, m))
  {
    if m.port < MAX_PORTS {
      var staged := RunStage(cfg.stages[m.port], m);
      if m.Continuation() {
        if s.streams[m.port].open {
          ReplayCounts(s, cfg, sinks, s.streams[m.port].targets, m, MAX_PORTS);
        }
      } else if staged.Kept? {
        BeginCounts(s, cfg, sinks, m.port, staged.m);
      }
    }
  }

  /** The chunk after a start that found the queue full: nothing is sent, and
      nothing is counted. */
  lemma AStrayGoesUncounted()
    ensures exists cfg: Config, sinks: Sinks, m: Message ::
              && cfg.Sized() && m.port < MAX_PORTS
              && Dispatch(FRESH, cfg, sinks, m).logs == FRESH.logs
              && Dispatch(FRESH, cfg, sinks, m).counters == FRESH.counters
  {
    var cfg := Config([], seq(MAX_PORTS, _ => Rules(None, None, None)), View([], []));
    var sinks: Sinks := (_, _, _) => true;
    var m := ChunkMessage(0, false, true, [0x41]);
    assert Dispatch(FRESH, cfg, sinks, m) == FRESH;
  }

  lemma BeginCounts(s: State, cfg: Config, sinks: Sinks, source: nat, m: Message)
    requires s.Sized() && cfg.Sized() && source < MAX_PORTS && !m.Continuation()
    ensures Begin(s, cfg, sinks, source, m).counters.Total() > s.counters.Total()
  {
    var plan := PlanRoutes(cfg, m, |cfg.routes|);
    PlanRoutesFaithful(cfg, m, |cfg.routes|);
    PlanRoutesDrops(cfg, m, |cfg.routes|);
    PerformCounts(Idle(s), cfg, sinks, plan);
    PerformAny(Idle(s), cfg, sinks, plan);
  }

  // --- Messages with nowhere to go ---

  lemma {:induction false} PerformKeepsNoRoute(f: Fan, cfg: Config, sinks: Sinks, ops: seq<Op>)
    requires f.state.Sized() && cfg.Sized()
    ensures Perform(f, cfg, sinks, ops).state.counters.noRoute == f.state.counters.noRoute
  {
    if ops != [] { PerformKeepsNoRoute(f, cfg, sinks, ops[..|ops| - 1]); }
  }

  /** A short message or a start is counted as having no route exactly when no
      enabled route that accepts its source keeps it and reaches an output; a
      route whose own filter drops it does not make it routed. */
  lemma NoRouteIff(s: State, cfg: Config, sinks: Sinks, source: nat, m: Message)
    requires s.Sized() && cfg.Sized() && source < MAX_PORTS && !m.Continuation()
    ensures Begin(s, cfg, sinks, source, m).counters.noRoute ==
            s.counters.noRoute + if Routed(cfg, m) then 0 else 1
  {
    var plan := PlanRoutes(cfg, m, |cfg.routes|);
    PerformKeepsNoRoute(Idle(s), cfg, sinks, plan);
    PerformAny(Idle(s), cfg, sinks, plan);
    PlanRoutesOffers(cfg, m);
    hide Perform, PlanRoutes, Routed, Offers;
  }
}
