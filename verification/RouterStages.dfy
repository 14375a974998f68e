/** What one stage and one delivery do, outcome by outcome, and which counter tells
    of it. */
module RouterStages {
  import opened Midi
  import opened Filters
  import opened Routing
  import opened RouterPlans

  // --- A stage is its three rules, one after the other ---

  function Then(before: Staged, rules: Rules): Staged {
    match before
    case Kept(m) => RunStage(rules, m)
    case why => why
  }

  /** Running a stage is running its filter, then its transform on what is left,
      then its callback on what is left of that. */
  lemma StageIsThree(rules: Rules, m: Message)
    ensures RunStage(rules, m) ==
            Then(Then(RunStage(Rules(rules.filter, None, None), m), Rules(None, rules.transform, None)),
                 Rules(None, None, rules.callback))
  {
    TransformKeepsShort(rules, m);
    hide Filter.Accepts, Transform.Apply;
  }

  lemma TransformKeepsShort(rules: Rules, m: Message)
    ensures rules.transform.Some? && !m.chunk && rules.transform.value.Apply(m).Some? ==>
              !rules.transform.value.Apply(m).value.chunk
  {
  }

  /** A filter alone: it meets short messages and the starts of streams, and drops
      what it does not accept. */
  lemma FilterAlone(f: Filter, m: Message)
    ensures RunStage(Rules(Some(f), None, None), m) ==
            if (m.chunk && !m.chunkStart) || f.Accepts(m) then Kept(m) else ByFilter
  {
  }

  /** A transform alone: it meets short messages only. */
  lemma TransformAlone(t: Transform, m: Message)
    ensures var r := RunStage(Rules(None, Some(t), None), m);
            if m.chunk then r == Kept(m)
            else if t.Apply(m).None? then r == ByStage
            else r == Kept(t.Apply(m).value)
  {
  }

  /** A callback alone: it meets short messages only, and its answer is used. */
  lemma CallbackAlone(callback: Callback, m: Message)
    ensures var r := RunStage(Rules(None, None, Some(callback)), m);
            if m.chunk then r == Kept(m)
            else
              match callback(m)
              case Drop => r == ByStage
              case PassOn(port, status, data1, data2, length) =>
                r == Kept(Message(port, status, data1, data2, length, m.chunk, m.chunkStart, m.chunkEnd, m.payload))
  {
  }

  lemma NoRulesKeep(m: Message)
    ensures RunStage(Rules(None, None, None), m) == Kept(m)
  {
  }

  // --- A delivery, outcome by outcome ---

  /** A message an output's own rules drop is counted under the rule that did. */
  lemma DeliverDropped(s: State, cfg: Config, sinks: Sinks, out: Output, m: Message)
    requires s.Sized() && cfg.Sized() && !RunStage(cfg.stages[out], m).Kept?
    ensures var d := Deliver(s, cfg, sinks, out, m);
            var c := s.counters;
            d == Delivery(s.(counters := if RunStage(cfg.stages[out], m).ByFilter?
                                         then c.(droppedByFilter := c.droppedByFilter + 1)
                                         else c.(droppedByStage := c.droppedByStage + 1)), false)
  {
  }

  /** What an output in some stream turns away: a second start as rejected, a short
      message but System Real-Time as blocked, a foreign continuation uncounted.
      Nothing else changes. */
  lemma DeliverRefused(s: State, cfg: Config, sinks: Sinks, out: Output, m: Message)
    requires s.Sized() && cfg.Sized() && RunStage(cfg.stages[out], m).Kept?
    ensures var d := Deliver(s, cfg, sinks, out, m);
            var x := RunStage(cfg.stages[out], m).m;
            var c, owner := s.counters, s.owner[out];
            && (x.chunk && x.chunkStart && owner != 0xffff ==>
                  d == Delivery(s.(counters := c.(sysExRejected := c.sysExRejected + 1)), false))
            && (!x.chunk && x.status < 0xf8 && owner != 0xffff ==>
                  d == Delivery(s.(counters := c.(blockedBySysEx := c.blockedBySysEx + 1)), false))
            && (x.chunk && !x.chunkStart && owner != x.port ==> d == Delivery(s, false))
  {
    hide RunStage;
  }

  /** All else is handed to the sink once. Its answer is counted; a start holds the
      output for its source and an end frees it, whatever the answer. */
  lemma DeliverSent(s: State, cfg: Config, sinks: Sinks, out: Output, m: Message)
    requires s.Sized() && cfg.Sized() && RunStage(cfg.stages[out], m).Kept?
    requires var x := RunStage(cfg.stages[out], m).m;
             if x.chunk && !x.chunkStart then s.owner[out] == x.port
             else s.owner[out] == 0xffff || (!x.chunk && x.status >= 0xf8)
    ensures var d := Deliver(s, cfg, sinks, out, m);
            var x := RunStage(cfg.stages[out], m).m;
            var c := s.counters;
            && d.sent == sinks(out, s.logs[out], x)
            && d.state == State(
                 s.streams,
                 s.owner[out := if x.chunk && x.chunkEnd then 0xffff else if x.chunk then x.port else s.owner[out]],
                 s.pending,
                 s.logs[out := s.logs[out] + [Handed(x, d.sent)]],
                 if d.sent then c.(delivered := c.delivered + 1) else c.(sendFailed := c.sendFailed + 1))
  {
    hide RunStage;
  }

  /** A message dropped by its input's rules goes nowhere and is counted once. */
  lemma DispatchDropped(s: State, cfg: Config, sinks: Sinks, m: Message)
    requires s.Sized() && cfg.Sized() && m.port < 32 && !RunStage(cfg.stages[m.port], m).Kept?
    ensures var c := s.counters;
            Dispatch(s, cfg, sinks, m) ==
            s.(counters := if RunStage(cfg.stages[m.port], m).ByFilter?
                           then c.(droppedByFilter := c.droppedByFilter + 1)
                           else c.(droppedByStage := c.droppedByStage + 1))
  {
  }

  /** Likewise on a route, for that route only. */
  lemma RouteDropped(f: Fan, cfg: Config, sinks: Sinks, route: Route, m: Message)
    requires f.state.Sized() && cfg.Sized() && route.used && route.enabled && Heeds(route, cfg.view, m.port)
    requires !RunStage(route.rules, m).Kept?
    ensures var c := f.state.counters;
            Perform(f, cfg, sinks, PlanRoute(cfg, route, m)) ==
            f.(state := f.state.(counters := if RunStage(route.rules, m).ByFilter?
                                             then c.(droppedByFilter := c.droppedByFilter + 1)
                                             else c.(droppedByStage := c.droppedByStage + 1)))
  {
    var op := Drops(RunStage(route.rules, m));
    assert PlanRoute(cfg, route, m) == [op] && [op][..0] == [];
    hide RunStage;
  }
}
