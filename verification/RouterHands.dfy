/** What a short message makes every sink be handed: which routes lead there, what
    the three stages make of it, and nothing else. */
module RouterHands {
  import opened Midi
  import opened Routing
  import opened RouterTrace
  import opened RouterPlans

  /** Messages handed over, with what the sink answered to each. */
  function Answered(ms: seq<Message>, answers: seq<bool>): seq<Entry>
    requires |answers| == |ms|
  {
    seq(|ms|, i requires 0 <= i < |ms| => Handed(ms[i], answers[i]))
  }

  /** The history grew by exactly these messages, whatever the sink answered. */
  ghost predicate HandedOn(before: seq<Entry>, after: seq<Entry>, ms: seq<Message>) {
    exists answers: seq<bool> :: |answers| == |ms| && after == before + Answered(ms, answers)
  }

  lemma HandedOnAgain(a: seq<Entry>, b: seq<Entry>, c: seq<Entry>, ms: seq<Message>, ns: seq<Message>)
    requires HandedOn(a, b, ms) && HandedOn(b, c, ns)
    ensures HandedOn(a, c, ms + ns)
  {
    var x: seq<bool> :| |x| == |ms| && b == a + Answered(ms, x);
    var y: seq<bool> :| |y| == |ns| && c == b + Answered(ns, y);
    assert Answered(ms + ns, x + y) == Answered(ms, x) + Answered(ns, y);
    assert c == a + Answered(ms + ns, x + y);
  }

  lemma HandedOnOne(log: seq<Entry>, m: Message, sent: bool)
    ensures HandedOn(log, log + [Handed(m, sent)], [m])
  {
    assert |[sent]| == |[m]| && Answered([m], [sent]) == [Handed(m, sent)];
  }

  /** What an output's own rules leave of a short message, unless a stream of some
      source holds the output and the message is no System Real-Time. */
  function Final(owner: Port, rules: Rules, m: Message): seq<Message> {
    match RunStage(rules, m)
    case Kept(x) => if owner == INVALID || x.status >= 0xf8 then [x] else []
    case _ => []
  }

  /** What one route makes of it there. */
  function Along(owner: Port, cfg: Config, route: Route, m: Message, o: Output): seq<Message>
    requires cfg.Sized()
  {
    if !Leads(route, cfg.view, m.port, o) then []
    else
      match RunStage(route.rules, m)
      case Kept(x) => Final(owner, cfg.stages[o], x)
      case _ => []
  }

  /** Over the first n routes, in order. */
  function Images(owner: Port, cfg: Config, m: Message, o: Output, n: nat): seq<Message>
    requires cfg.Sized() && n <= |cfg.routes|
  {
    if n == 0 then [] else Images(owner, cfg, m, o, n - 1) + Along(owner, cfg, cfg.routes[n - 1], m, o)
  }

  // --- Carrying it out ---

  lemma DeliverHands(s: State, cfg: Config, sinks: Sinks, out: Output, m: Message, o: Output)
    requires s.Sized() && cfg.Sized() && !m.chunk
    ensures var t := Deliver(s, cfg, sinks, out, m).state;
            && t.owner[o] == s.owner[o]
            && HandedOn(s.logs[o], t.logs[o], if o == out then Final(s.owner[o], cfg.stages[o], m) else [])
  {
    hide HandedOn;
    NothingHandedOn(s.logs[o]);
    var staged := RunStage(cfg.stages[out], m);
    if o == out && staged.Kept? { HandedOnOne(s.logs[o], staged.m, sinks(out, s.logs[out], staged.m)); }
  }

  function Hands(owner: Port, cfg: Config, op: Op, o: Output): seq<Message>
    requires cfg.Sized()
  {
    if op.Offer? && op.out == o then Final(owner, cfg.stages[o], op.m) else []
  }

  function AllHands(owner: Port, cfg: Config, ops: seq<Op>, o: Output): seq<Message>
    requires cfg.Sized()
  {
    if ops == [] then [] else AllHands(owner, cfg, ops[..|ops| - 1], o) + Hands(owner, cfg, ops[|ops| - 1], o)
  }

  lemma {:induction false} AllHandsConcat(owner: Port, cfg: Config, a: seq<Op>, b: seq<Op>, o: Output)
    requires cfg.Sized()
    ensures AllHands(owner, cfg, a + b, o) == AllHands(owner, cfg, a, o) + AllHands(owner, cfg, b, o)
  {
    hide Hands;
    if b == [] {
      assert a + b == a;
    } else {
      assert (a + b)[..|a + b| - 1] == a + b[..|b| - 1];
      AllHandsConcat(owner, cfg, a, b[..|b| - 1], o);
    }
  }

  lemma AllHandsOne(owner: Port, cfg: Config, op: Op, o: Output)
    requires cfg.Sized()
    ensures AllHands(owner, cfg, [op], o) == Hands(owner, cfg, op, o)
  {
    assert [op][..0] == [];
    hide Hands;
  }

  lemma DoHands(f: Fan, cfg: Config, sinks: Sinks, op: Op, o: Output)
    requires f.state.Sized() && cfg.Sized() && (op.Offer? ==> !op.m.chunk)
    ensures var t := Do(f, cfg, sinks, op).state;
            t.owner[o] == f.state.owner[o]
            && HandedOn(f.state.logs[o], t.logs[o], Hands(f.state.owner[o], cfg, op, o))
  {
    if op.Offer? { DeliverHands(f.state, cfg, sinks, op.out, op.m, o); }
    hide Deliver, Final;
  }

  ghost predicate AllShort(ops: seq<Op>) {
    forall i :: 0 <= i < |ops| && ops[i].Offer? ==> !ops[i].m.chunk
  }

  lemma {:induction false} PerformHands(f: Fan, cfg: Config, sinks: Sinks, ops: seq<Op>, o: Output)
    requires f.state.Sized() && cfg.Sized() && AllShort(ops)
    ensures var t := Perform(f, cfg, sinks, ops).state;
            && t.owner[o] == f.state.owner[o]
            && HandedOn(f.state.logs[o], t.logs[o], AllHands(f.state.owner[o], cfg, ops, o))
  {
    hide Do, Hands, HandedOn;
    if ops == [] {
      NothingHandedOn(f.state.logs[o]);
    } else {
      var front, op := ops[..|ops| - 1], ops[|ops| - 1];
      PerformHands(f, cfg, sinks, front, o);
      var g := Perform(f, cfg, sinks, front);
      DoHands(g, cfg, sinks, op, o);
      HandedOnAgain(f.state.logs[o], g.state.logs[o], Do(g, cfg, sinks, op).state.logs[o],
                    AllHands(f.state.owner[o], cfg, front, o), Hands(f.state.owner[o], cfg, op, o));
    }
  }

  lemma NothingHandedOn(log: seq<Entry>)
    ensures HandedOn(log, log, [])
  {
    var none: seq<bool> := [];
    assert log == log + Answered([], none);
  }

  // --- Plans, route by route ---

  lemma {:induction false} OutputsHand(owner: Port, cfg: Config, route: Route, source: Port, m: Message, n: nat,
                                       o: Output)
    requires cfg.Sized() && n <= MAX_PORTS
    ensures AllHands(owner, cfg, PlanOutputs(cfg, route, source, m, n), o) ==
            if o < n && cfg.Reaches(route, source, o) then Final(owner, cfg.stages[o], m) else []
  {
    hide Final, AllHands;
    if n == 0 {
      NothingHands(owner, cfg, o);
    } else {
      OutputsHand(owner, cfg, route, source, m, n - 1, o);
      var last := if cfg.Reaches(route, source, n - 1) then [Offer(n - 1, m)] else [];
      AllHandsConcat(owner, cfg, PlanOutputs(cfg, route, source, m, n - 1), last, o);
      NothingHands(owner, cfg, o);
      AllHandsOne(owner, cfg, Offer(n - 1, m), o);
    }
  }

  lemma RouteHands(owner: Port, cfg: Config, route: Route, m: Message, o: Output)
    requires cfg.Sized()
    ensures AllHands(owner, cfg, PlanRoute(cfg, route, m), o) == Along(owner, cfg, route, m, o)
  {
    hide Final, RunStage, PlanOutputs, AllHands;
    NothingHands(owner, cfg, o);
    var staged := RunStage(route.rules, m);
    if staged.Kept? {
      OutputsHand(owner, cfg, route, m.port, staged.m, cfg.Outputs(), o);
    } else {
      AllHandsOne(owner, cfg, Drops(staged), o);
    }
  }

  lemma {:induction false} RoutesHand(owner: Port, cfg: Config, m: Message, n: nat, o: Output)
    requires cfg.Sized() && n <= |cfg.routes|
    ensures AllHands(owner, cfg, PlanRoutes(cfg, m, n), o) == Images(owner, cfg, m, o, n)
  {
    hide PlanRoute, Along, AllHands;
    if n == 0 {
      NothingHands(owner, cfg, o);
    } else {
      RoutesHand(owner, cfg, m, n - 1, o);
      AllHandsConcat(owner, cfg, PlanRoutes(cfg, m, n - 1), PlanRoute(cfg, cfg.routes[n - 1], m), o);
      RouteHands(owner, cfg, cfg.routes[n - 1], m, o);
    }
  }

  lemma NothingHands(owner: Port, cfg: Config, o: Output)
    requires cfg.Sized()
    ensures AllHands(owner, cfg, [], o) == []
  {
  }

  // --- A dispatch ---

  /** What reaches output o of a short message that came in. */
  function Reaching(owner: Port, cfg: Config, m: Message, o: Output): seq<Message>
    requires cfg.Sized()
  {
    if m.port >= 32 then []
    else
      match RunStage(cfg.stages[m.port], m)
      case Kept(x) => Images(owner, cfg, x, o, |cfg.routes|)
      case _ => []
  }

  /** Every output is handed exactly what its routes and stages make of the message,
      in the order of the routes, and no other output's state matters. */
  lemma DispatchHands(s: State, cfg: Config, sinks: Sinks, m: Message, o: Output)
    requires s.Sized() && cfg.Sized() && !m.chunk
    ensures var t := Dispatch(s, cfg, sinks, m);
            && t.owner[o] == s.owner[o]
            && HandedOn(s.logs[o], t.logs[o], Reaching(s.owner[o], cfg, m, o))
  {
    hide HandedOn, Perform, PlanRoutes, Images;
    NothingHandedOn(s.logs[o]);
    if m.port < MAX_PORTS {
      var staged := RunStage(cfg.stages[m.port], m);
      if staged.Kept? {
        PlanRoutesFaithful(cfg, staged.m, |cfg.routes|);
        PerformHands(Idle(s), cfg, sinks, PlanRoutes(cfg, staged.m, |cfg.routes|), o);
        RoutesHand(s.owner[o], cfg, staged.m, |cfg.routes|, o);
      }
    }
  }

  lemma {:induction false} PerformUnoffered(f: Fan, cfg: Config, sinks: Sinks, ops: seq<Op>, o: Output)
    requires f.state.Sized() && cfg.Sized() && !OffersTo(ops, o)
    ensures var t := Perform(f, cfg, sinks, ops).state;
            t.logs[o] == f.state.logs[o] && t.owner[o] == f.state.owner[o]
  {
    if ops != [] {
      var front, op := ops[..|ops| - 1], ops[|ops| - 1];
      assert !OffersTo(front, o) && !(op.Offer? && op.out == o);
      PerformUnoffered(f, cfg, sinks, front, o);
      if op.Offer? { DeliverLocal(Perform(f, cfg, sinks, front).state, cfg, sinks, op.out, op.m); }
    }
    hide Deliver;
  }

  /** A short message or the start of a stream, coming from an input that no route
      in force listens to, is handed to nobody and counted as having no route. */
  lemma UnheededIsSilent(s: State, cfg: Config, sinks: Sinks, m: Message)
    requires s.Sized() && cfg.Sized() && m.port < 32 && !m.Continuation()
    requires RunStage(cfg.stages[m.port], m).Kept?
    requires forall i :: 0 <= i < |cfg.routes| && cfg.routes[i].used && cfg.routes[i].enabled ==>
               !Heeds(cfg.routes[i], cfg.view, RunStage(cfg.stages[m.port], m).m.port)
    ensures var t := Dispatch(s, cfg, sinks, m);
            && t.logs == s.logs && t.owner == s.owner && t.streams == s.streams
            && t.counters == s.counters.(noRoute := s.counters.noRoute + 1)
  {
    var x := RunStage(cfg.stages[m.port], m).m;
    UnheededPlan(cfg, x, |cfg.routes|);
    assert Perform(Idle(s), cfg, sinks, []) == Idle(s);
    hide RunStage, PlanRoutes, Perform;
  }

  lemma {:induction false} UnheededPlan(cfg: Config, m: Message, n: nat)
    requires n <= |cfg.routes|
    requires forall i :: 0 <= i < |cfg.routes| && cfg.routes[i].used && cfg.routes[i].enabled ==>
               !Heeds(cfg.routes[i], cfg.view, m.port)
    ensures PlanRoutes(cfg, m, n) == []
  {
    if n > 0 { UnheededPlan(cfg, m, n - 1); }
  }

  /** An output that no route in force leads to from there keeps its history, be it
      a short message or a start. */
  lemma UnledIsSilent(s: State, cfg: Config, sinks: Sinks, m: Message, o: Output)
    requires s.Sized() && cfg.Sized() && m.port < 32 && !m.Continuation()
    requires RunStage(cfg.stages[m.port], m).Kept?
    requires forall i :: 0 <= i < |cfg.routes| ==>
               !Leads(cfg.routes[i], cfg.view, RunStage(cfg.stages[m.port], m).m.port, o)
    ensures var t := Dispatch(s, cfg, sinks, m); t.logs[o] == s.logs[o] && t.owner[o] == s.owner[o]
  {
    var x := RunStage(cfg.stages[m.port], m).m;
    OffersIff(cfg, x, o);
    PerformUnoffered(Idle(s), cfg, sinks, PlanRoutes(cfg, x, |cfg.routes|), o);
    hide RunStage, PlanRoutes, Perform, OffersTo, Leads;
  }
}
