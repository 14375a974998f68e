/** Which outputs a message is offered to, said of the routes. */
module RouterPlans {
  import opened Midi
  import opened Routing
  import opened RouterTrace

  /** Whether a route takes m, after its own rules, to output o. */
  ghost predicate Carries(cfg: Config, route: Route, m: Message, o: nat) {
    && route.used && route.enabled && cfg.RouteAccepts(route, m.port)
    && RunStage(route.rules, m).Kept?
    && o < cfg.Outputs() && cfg.Reaches(route, m.port, o)
  }

  /** Whether one of the first n routes takes m to output o. */
  ghost predicate Carried(cfg: Config, m: Message, n: nat, o: nat)
    requires n <= |cfg.routes|
  {
    exists i: nat :: i < n && Carries(cfg, cfg.routes[i], m, o)
  }

  /** Whether any route takes m to output o. */
  ghost predicate Asked(cfg: Config, m: Message, o: nat) { Carried(cfg, m, |cfg.routes|, o) }

  /** Whether m has anywhere to go. */
  ghost predicate Routed(cfg: Config, m: Message) { exists o: nat :: Asked(cfg, m, o) }

  ghost predicate OffersTo(ops: seq<Op>, o: nat) {
    exists i :: 0 <= i < |ops| && ops[i].Offer? && ops[i].out == o
  }

  ghost predicate Offers(ops: seq<Op>) {
    exists i :: 0 <= i < |ops| && ops[i].Offer?
  }

  lemma OffersEither(a: seq<Op>, b: seq<Op>, o: nat)
    ensures OffersTo(a + b, o) <==> OffersTo(a, o) || OffersTo(b, o)
  {
    if OffersTo(a, o) {
      var i :| 0 <= i < |a| && a[i].Offer? && a[i].out == o;
      assert (a + b)[i] == a[i];
    }
    if OffersTo(b, o) {
      var i :| 0 <= i < |b| && b[i].Offer? && b[i].out == o;
      assert (a + b)[|a| + i] == b[i];
    }
  }

  lemma {:induction false} PlanOutputsOffersTo(cfg: Config, route: Route, source: Port, m: Message, n: nat, o: nat)
    requires n <= MAX_PORTS
    ensures OffersTo(PlanOutputs(cfg, route, source, m, n), o) <==> o < n && cfg.Reaches(route, source, o)
  {
    if n > 0 {
      PlanOutputsOffersTo(cfg, route, source, m, n - 1, o);
      var last := if cfg.Reaches(route, source, n - 1) then [Offer(n - 1, m)] else [];
      assert OffersTo(last, o) <==> last != [] && o == n - 1 by { assert last != [] ==> last[0].out == n - 1; }
      OffersEither(PlanOutputs(cfg, route, source, m, n - 1), last, o);
    }
  }

  lemma PlanRouteOffersTo(cfg: Config, route: Route, m: Message, o: nat)
    ensures OffersTo(PlanRoute(cfg, route, m), o) <==> Carries(cfg, route, m, o)
  {
    var staged := RunStage(route.rules, m);
    if staged.Kept? { PlanOutputsOffersTo(cfg, route, m.port, staged.m, cfg.Outputs(), o); }
    hide RunStage, PlanOutputs;
  }

  lemma {:induction false} PlanRoutesOffersTo(cfg: Config, m: Message, n: nat, o: nat)
    requires n <= |cfg.routes|
    ensures OffersTo(PlanRoutes(cfg, m, n), o) <==> Carried(cfg, m, n, o)
  {
    if n > 0 {
      PlanRoutesOffersTo(cfg, m, n - 1, o);
      PlanRouteOffersTo(cfg, cfg.routes[n - 1], m, o);
      OffersEither(PlanRoutes(cfg, m, n - 1), PlanRoute(cfg, cfg.routes[n - 1], m), o);
    }
    hide Carries, PlanRoute;
  }

  /** A message is offered to something exactly when a route takes it somewhere. */
  lemma PlanRoutesOffers(cfg: Config, m: Message)
    ensures Offers(PlanRoutes(cfg, m, |cfg.routes|)) <==> Routed(cfg, m)
  {
    var plan := PlanRoutes(cfg, m, |cfg.routes|);
    forall o: nat ensures OffersTo(plan, o) <==> Asked(cfg, m, o) { PlanRoutesOffersTo(cfg, m, |cfg.routes|, o); }
    if Offers(plan) {
      var i :| 0 <= i < |plan| && plan[i].Offer?;
      assert OffersTo(plan, plan[i].out);
    }
    hide PlanRoutes, Carried;
  }

  lemma {:induction false} PerformAny(f: Fan, cfg: Config, sinks: Sinks, ops: seq<Op>)
    requires f.state.Sized() && cfg.Sized()
    ensures Perform(f, cfg, sinks, ops).any <==> f.any || Offers(ops)
  {
    if ops != [] {
      PerformAny(f, cfg, sinks, ops[..|ops| - 1]);
      assert ops[|ops| - 1].Offer? ==> Offers(ops);
    }
    hide Deliver;
  }

  /** Whether the message gets past its input's own rules. */
  predicate Admitted(cfg: Config, m: Message)
    requires |cfg.stages| == MAX_PORTS
  {
    m.port < MAX_PORTS && RunStage(cfg.stages[m.port], m).Kept?
  }

  // --- Routes, spelled out over their fields ---

  /** An input a route listens to: the one it names, or a member of its group of
      inputs, which for one reserved handle is every input. */
  predicate Heeds(route: Route, view: View, p: Port) {
    if !route.sourceIsGroup then route.source == p
    else
      && p < |view.ports| && view.ports[p].direction == In
      && (route.source == 0xfffe
          || (route.source < |view.groups| && view.groups[route.source].direction == In
              && p in view.groups[route.source].members))
  }

  /** An output a route sends to, likewise. */
  predicate Aims(route: Route, view: View, o: nat) {
    && o < |view.ports| && o < 32 && view.ports[o].direction == Out
    && if !route.destIsGroup then route.dest == o
       else route.dest == 0xfffe
            || (route.dest < |view.groups| && view.groups[route.dest].direction == Out
                && o in view.groups[route.dest].members)
  }

  /** A route in force from p to o. By default none leads back to the endpoint a
      message came in on. */
  predicate Leads(route: Route, view: View, p: Port, o: nat) {
    && route.used && route.enabled && Heeds(route, view, p) && Aims(route, view, o)
    && (route.allowSameEndpoint || p >= |view.ports| || view.ports[p].endpoint != view.ports[o].endpoint)
  }

  lemma CarriesIff(cfg: Config, route: Route, m: Message, o: nat)
    ensures Carries(cfg, route, m, o) <==> Leads(route, cfg.view, m.port, o) && RunStage(route.rules, m).Kept?
  {
  }

  /** A message is offered to an output if and only if a route in force leads from
      its port to that output and the route's own rules keep it. */
  lemma OffersIff(cfg: Config, m: Message, o: nat)
    ensures OffersTo(PlanRoutes(cfg, m, |cfg.routes|), o) <==>
            exists i: nat :: i < |cfg.routes| && Leads(cfg.routes[i], cfg.view, m.port, o)
                             && RunStage(cfg.routes[i].rules, m).Kept?
    ensures Asked(cfg, m, o) <==> OffersTo(PlanRoutes(cfg, m, |cfg.routes|), o)
  {
    PlanRoutesOffersTo(cfg, m, |cfg.routes|, o);
    forall i: nat | i < |cfg.routes|
      ensures Carries(cfg, cfg.routes[i], m, o) <==>
              Leads(cfg.routes[i], cfg.view, m.port, o) && RunStage(cfg.routes[i].rules, m).Kept?
    {
      CarriesIff(cfg, cfg.routes[i], m, o);
    }
    hide PlanRoutes, OffersTo, Carries, Leads, RunStage;
  }
}
