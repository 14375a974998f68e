/** Routing past the queue: the three-stage pipeline and the rules that keep a
    SysEx stream whole on every output. `Dispatch`, `ClosePending` and
    `PortDown` are the steps; `Run` is any sequence of them and of edits. */
module Routing {
  import opened Midi
  import opened Filters

  const MAX_PORTS: nat := 32
  const MAX_ROUTES: nat := 16
  const CHUNK_BYTES: nat := 48
  const QUEUE_ENTRIES: nat := 32

  /** The reserved handle of the group every port of a direction is in. */
  const ALL_GROUP: Port := 0xfffe

  // --- Configuration, which a sketch may change at any time ---

  datatype PortSeat = PortSeat(endpoint: nat, direction: Direction)

  datatype Group = Group(direction: Direction, members: set<nat>)

  /** What routing reads from the port registry. */
  datatype View = View(ports: seq<PortSeat>, groups: seq<Group>)
  {
    function DirectionOf(port: nat): Direction {
      if port < |ports| then ports[port].direction else In
    }

    predicate SameEndpoint(a: nat, b: nat) {
      a < |ports| && b < |ports| && ports[a].endpoint == ports[b].endpoint
    }

    predicate GroupContains(group: nat, direction: Direction, port: nat) {
      && port < |ports| && ports[port].direction == direction
      && (group == ALL_GROUP
          || (group < |groups| && groups[group].direction == direction && port in groups[group].members))
    }
  }

  /** What a callback makes of a short message. It cannot turn it into a chunk. */
  datatype Reply = Drop | PassOn(port: Port, status: Byte, data1: Byte, data2: Byte, dataLength: nat)

  type Callback = Message -> Reply

  datatype Rules = Rules(filter: Option<Filter>, transform: Option<Transform>, callback: Option<Callback>)

  datatype Route = Route(
    used: bool, enabled: bool, sourceIsGroup: bool, destIsGroup: bool, allowSameEndpoint: bool,
    source: Port, dest: Port, rules: Rules)

  datatype Config = Config(routes: seq<Route>, stages: seq<Rules>, view: View)
  {
    predicate RouteAccepts(route: Route, port: Port) {
      if route.sourceIsGroup then view.GroupContains(route.source, In, port) else route.source == port
    }

    predicate RouteTargets(route: Route, port: nat) {
      if route.destIsGroup then view.GroupContains(route.dest, Out, port) else route.dest == port
    }

    ghost predicate Sized() { |stages| == MAX_PORTS }

    /** Whether route carries a message that came in on `source` to output `out`. */
    predicate Reaches(route: Route, source: Port, out: nat) {
      && view.DirectionOf(out) == Out && RouteTargets(route, out)
      && (route.allowSameEndpoint || !view.SameEndpoint(source, out))
    }

    /** The outputs a dispatch walks over. */
    function Outputs(): nat {
      if |view.ports| < MAX_PORTS then |view.ports| else MAX_PORTS
    }
  }

  // --- State ---

  type Output = o: nat | o < MAX_PORTS

  datatype Counters = Counters(
    delivered: nat, sendFailed: nat, droppedByFilter: nat, droppedByStage: nat,
    sysExRejected: nat, blockedBySysEx: nat, noRoute: nat)
  {
    function Total(): nat {
      delivered + sendFailed + droppedByFilter + droppedByStage + sysExRejected + blockedBySysEx + noRoute
    }
  }

  const ZERO := Counters(0, 0, 0, 0, 0, 0, 0)

  datatype Stream = Stream(open: bool, targets: set<nat>)

  /** One output's history: what its sink was handed and whether it took it, and
      the moments a stream was cut because the port itself went away. */
  datatype Entry = Handed(m: Message, sent: bool) | Cut

  datatype State = State(
    streams: seq<Stream>,
    owner: seq<Port>,
    pending: set<nat>,
    logs: seq<seq<Entry>>,
    counters: Counters)
  {
    ghost predicate Sized() {
      |streams| == MAX_PORTS && |owner| == MAX_PORTS && |logs| == MAX_PORTS
    }
  }

  const FRESH := State(
    seq(MAX_PORTS, _ => Stream(false, {})), seq(MAX_PORTS, _ => INVALID), {}, seq(MAX_PORTS, _ => []), ZERO)

  /** Whether a sink takes a message: any answer, which may depend on all it was
      handed before. An output with no sink is one that always refuses. */
  type Sinks = (Output, seq<Entry>, Message) -> bool

  // --- One stage ---

  /** What a stage makes of a message: kept, rewritten or not, or dropped by its
      filter, or dropped by its transform or callback. */
  datatype Staged = Kept(m: Message) | ByFilter | ByStage

  function Rewritten(m: Message, reply: Reply): Message
    requires reply.PassOn?
  {
    m.(port := reply.port, status := reply.status, data1 := reply.data1, data2 := reply.data2,
       dataLength := reply.dataLength)
  }

  /** Filter, then transform, then callback. A chunk meets only the filter, and
      only at its stream's start. */
  function RunStage(rules: Rules, m: Message): (r: Staged)
    ensures m.chunk && r.Kept? ==> r.m == m
    ensures r.Kept? ==> r.m.chunk == m.chunk
    ensures m.Continuation() ==> r.Kept?
  {
    if !m.Continuation() && rules.filter.Some? && !rules.filter.value.Accepts(m) then ByFilter
    else if m.chunk then Kept(m)
    else
      var transformed := if rules.transform.Some? then rules.transform.value.Apply(m) else Some(m);
      if transformed.None? then ByStage
      else if rules.callback.None? then Kept(transformed.value)
      else
        var reply := rules.callback.value(transformed.value);
        if reply.Drop? then ByStage else Kept(Rewritten(transformed.value, reply))
  }

  function Tally(c: Counters, r: Staged): Counters {
    match r
    case ByFilter => c.(droppedByFilter := c.droppedByFilter + 1)
    case ByStage => c.(droppedByStage := c.droppedByStage + 1)
    case Kept(_) => c
  }

  // --- Stage three and the send ---

  datatype Delivery = Delivery(state: State, sent: bool)

  /** Hands m to output `out`'s sink. */
  function Send(s: State, sinks: Sinks, out: Output, m: Message): (d: Delivery)
    requires s.Sized()
    ensures d.state.Sized()
  {
    var sent := sinks(out, s.logs[out], m);
    var c := s.counters;
    Delivery(
      s.(logs := s.logs[out := s.logs[out] + [Handed(m, sent)]],
         counters := if sent then c.(delivered := c.delivered + 1) else c.(sendFailed := c.sendFailed + 1)),
      sent)
  }

  /** Why an output that is busy, or not held by m's stream, turns m away. */
  datatype Gate = Open | Rejected | Blocked | NotHeld

  function Admits(owner: Port, m: Message): Gate {
    if m.chunk && m.chunkStart then (if owner != INVALID then Rejected else Open)
    else if m.chunk then (if owner != m.port then NotHeld else Open)
    else if owner != INVALID && !IsRealTime(m.status) then Blocked
    else Open
  }

  /** Claims the output for a start, sends, and frees it after an end. */
  function Transmit(s: State, sinks: Sinks, out: Output, m: Message): (d: Delivery)
    requires s.Sized()
    ensures d.state.Sized()
  {
    var claimed := if m.chunk && m.chunkStart then s.(owner := s.owner[out := m.port]) else s;
    var d := Send(claimed, sinks, out, m);
    if m.chunk && m.chunkEnd && d.state.owner[out] == m.port
    then Delivery(d.state.(owner := d.state.owner[out := INVALID]), d.sent)
    else d
  }

  function Deliver(s: State, cfg: Config, sinks: Sinks, out: Output, message: Message): (d: Delivery)
    requires s.Sized() && cfg.Sized()
    ensures d.state.Sized()
  {
    var c := s.counters;
    match RunStage(cfg.stages[out], message)
    case Kept(m) => (
      match Admits(s.owner[out], m)
      case Open => Transmit(s, sinks, out, m)
      case Rejected => Delivery(s.(counters := c.(sysExRejected := c.sysExRejected + 1)), false)
      case Blocked => Delivery(s.(counters := c.(blockedBySysEx := c.blockedBySysEx + 1)), false)
      case NotHeld => Delivery(s, false)
    )
    case why => Delivery(s.(counters := Tally(c, why)), false)
  }

  // --- The plan of a message, which no router state influences ---

  datatype Op = Drops(why: Staged) | Offer(out: Output, m: Message)

  /** Over the first n outputs. */
  function PlanOutputs(cfg: Config, route: Route, source: Port, m: Message, n: nat): seq<Op>
    requires n <= MAX_PORTS
  {
    if n == 0 then []
    else
      PlanOutputs(cfg, route, source, m, n - 1) +
      if cfg.Reaches(route, source, n - 1) then [Offer(n - 1, m)] else []
  }

  function PlanRoute(cfg: Config, route: Route, m: Message): seq<Op> {
    if !route.used || !route.enabled || !cfg.RouteAccepts(route, m.port) then []
    else
      match RunStage(route.rules, m)
      case Kept(routed) => PlanOutputs(cfg, route, m.port, routed, cfg.Outputs())
      case why => [Drops(why)]
  }

  /** Over the first n routes. */
  function PlanRoutes(cfg: Config, m: Message, n: nat): seq<Op>
    requires n <= |cfg.routes|
  {
    if n == 0 then [] else PlanRoutes(cfg, m, n - 1) + PlanRoute(cfg, cfg.routes[n - 1], m)
  }

  /** A continuation to those of the first n outputs its stream targets. */
  function PlanTargets(targets: set<nat>, m: Message, n: nat): seq<Op>
    requires n <= MAX_PORTS
  {
    if n == 0 then []
    else PlanTargets(targets, m, n - 1) + if n - 1 in targets then [Offer(n - 1, m)] else []
  }

  // --- Carrying a plan out ---

  /** `started`: the outputs a stream was opened on. `any`: something was offered. */
  datatype Fan = Fan(state: State, started: set<nat>, any: bool)

  function Do(f: Fan, cfg: Config, sinks: Sinks, op: Op): (g: Fan)
    requires f.state.Sized() && cfg.Sized()
    ensures g.state.Sized()
  {
    match op
    case Drops(why) => f.(state := f.state.(counters := Tally(f.state.counters, why)))
    case Offer(out, m) =>
      var d := Deliver(f.state, cfg, sinks, out, m);
      Fan(d.state, if d.sent && m.Opens() then f.started + {out} else f.started, true)
  }

  function Perform(f: Fan, cfg: Config, sinks: Sinks, ops: seq<Op>): (g: Fan)
    requires f.state.Sized() && cfg.Sized()
    ensures g.state.Sized()
  {
    if ops == [] then f
    else Do(Perform(f, cfg, sinks, ops[..|ops| - 1]), cfg, sinks, ops[|ops| - 1])
  }

  lemma PerformSnoc(f: Fan, cfg: Config, sinks: Sinks, ops: seq<Op>, op: Op)
    requires f.state.Sized() && cfg.Sized()
    ensures Perform(f, cfg, sinks, ops + [op]) == Do(Perform(f, cfg, sinks, ops), cfg, sinks, op)
  {
    assert (ops + [op])[..|ops|] == ops;
  }

  lemma {:induction false} PerformConcat(f: Fan, cfg: Config, sinks: Sinks, a: seq<Op>, b: seq<Op>)
    requires f.state.Sized() && cfg.Sized()
    ensures Perform(f, cfg, sinks, a + b) == Perform(Perform(f, cfg, sinks, a), cfg, sinks, b)
  {
    if b == [] {
      assert a + b == a;
    } else {
      PerformConcat(f, cfg, sinks, a, b[..|b| - 1]);
      assert (a + b)[..|a + b| - 1] == a + b[..|b| - 1];
    }
  }

  function Idle(s: State): Fan { Fan(s, {}, false) }

  // --- The three steps ---

  function Closed(s: State, source: nat): (t: State)
    requires s.Sized() && source < MAX_PORTS
    ensures t.Sized()
  {
    s.(streams := s.streams[source := Stream(false, {})])
  }

  /** Rule 1: a continuation replays the destinations its start chose. */
  function Continue(s: State, cfg: Config, sinks: Sinks, m: Message): (t: State)
    requires s.Sized() && cfg.Sized() && m.port < MAX_PORTS
    ensures t.Sized()
  {
    if !s.streams[m.port].open then s
    else
      var t := Perform(Idle(s), cfg, sinks, PlanTargets(s.streams[m.port].targets, m, MAX_PORTS)).state;
      if m.chunkEnd then Closed(t, m.port) else t
  }

  /** A short message, or the start of a stream, over every route. */
  function Begin(s: State, cfg: Config, sinks: Sinks, source: nat, m: Message): (t: State)
    requires s.Sized() && cfg.Sized() && source < MAX_PORTS
    ensures t.Sized()
  {
    var f := Perform(Idle(s), cfg, sinks, PlanRoutes(cfg, m, |cfg.routes|));
    if !f.any then f.state.(counters := f.state.counters.(noRoute := f.state.counters.noRoute + 1))
    else if m.Opens() then f.state.(streams := f.state.streams[source := Stream(f.started != {}, f.started)])
    else f.state
  }

  function Dispatch(s: State, cfg: Config, sinks: Sinks, entry: Message): (t: State)
    requires s.Sized() && cfg.Sized()
    ensures t.Sized()
  {
    if entry.port >= MAX_PORTS then s
    else
      match RunStage(cfg.stages[entry.port], entry)
      case Kept(m) => if m.Continuation() then Continue(s, cfg, sinks, m) else Begin(s, cfg, sinks, entry.port, m)
      case why => s.(counters := Tally(s.counters, why))
  }

  /** The empty end chunk an input that went away is owed. */
  function Closing(source: Port): Message { ChunkMessage(source, false, true, []) }

  /** Rule 2 for the first n inputs. */
  function CloseInputs(s: State, cfg: Config, sinks: Sinks, n: nat): (t: State)
    requires s.Sized() && cfg.Sized() && n <= MAX_PORTS
    ensures t.Sized()
  {
    if n == 0 then s
    else
      var t := CloseInputs(s, cfg, sinks, n - 1);
      if n - 1 in s.pending then Continue(t, cfg, sinks, Closing(n - 1)) else t
  }

  function ClosePending(s: State, cfg: Config, sinks: Sinks): (t: State)
    requires s.Sized() && cfg.Sized()
    ensures t.Sized()
  {
    CloseInputs(s, cfg, sinks, MAX_PORTS).(pending := {})
  }

  /** A port became unavailable. */
  function PortDown(s: State, port: Port): (t: State)
    requires s.Sized()
    ensures t.Sized()
  {
    if port >= MAX_PORTS then s
    else
      var s1 := if s.streams[port].open then s.(pending := s.pending + {port}) else s;
      if s1.owner[port] != INVALID
      then s1.(owner := s1.owner[port := INVALID], logs := s1.logs[port := s1.logs[port] + [Cut]])
      else s1
  }

  // --- Runs ---

  /** What can happen between two atomic moments: an edit replaces the whole
      configuration by any other. */
  datatype Step =
    | Arrives(m: Message, sinks: Sinks)  // one queued entry is dispatched
    | Closes(sinks: Sinks)               // update() begins
    | GoesDown(port: Port)
    | Edited(cfg: Config)

  datatype World = World(state: State, cfg: Config)
  {
    ghost predicate Sized() { state.Sized() && cfg.Sized() }
  }

  ghost predicate Possible(step: Step) {
    step.Edited? ==> step.cfg.Sized()
  }

  function Next(w: World, step: Step): (x: World)
    requires w.Sized() && Possible(step)
    ensures x.Sized()
  {
    match step
    case Arrives(m, sinks) => w.(state := Dispatch(w.state, w.cfg, sinks, m))
    case Closes(sinks) => w.(state := ClosePending(w.state, w.cfg, sinks))
    case GoesDown(port) => w.(state := PortDown(w.state, port))
    case Edited(cfg) => w.(cfg := cfg)
  }

  ghost predicate AllPossible(steps: seq<Step>) {
    forall i :: 0 <= i < |steps| ==> Possible(steps[i])
  }

  function Run(w: World, steps: seq<Step>): (x: World)
    requires w.Sized() && AllPossible(steps)
    ensures x.Sized()
  {
    if steps == [] then w else Next(Run(w, steps[..|steps| - 1]), steps[|steps| - 1])
  }

  lemma RunSnoc(w: World, steps: seq<Step>, step: Step)
    requires w.Sized() && AllPossible(steps) && Possible(step)
    ensures AllPossible(steps + [step]) && Run(w, steps + [step]) == Next(Run(w, steps), step)
  {
    assert (steps + [step])[..|steps|] == steps;
    hide Next;
  }
}
