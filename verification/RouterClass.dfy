/** The router itself: route slots, queue and streams updated in place. Each
    method is proved against the reference steps of module Routing. */
module RouterClass {
  import opened Midi
  import opened Routing
  import opened RouterWire

  // --- Route slots ---

  const UNUSED := Route(false, true, false, false, false, 0, 0, NO_RULES)

  /** The lowest slot not in use, or the end of the slots. */
  function FirstFree(routes: seq<Route>, i: nat): (k: nat)
    requires i <= |routes|
    ensures i <= k <= |routes| && (forall j :: i <= j < k ==> routes[j].used)
    ensures k < |routes| ==> !routes[k].used
    decreases |routes| - i
  {
    if i == |routes| || !routes[i].used then i else FirstFree(routes, i + 1)
  }

  /** The slots in use, lowest first. */
  function Active(routes: seq<Route>): seq<nat> {
    if routes == [] then []
    else
      var last := |routes| - 1;
      Active(routes[..last]) + if routes[last].used then [last] else []
  }

  /** What a message meets in these slots, one after the other. */
  function PlanSlots(cfg: Config, m: Message, slots: seq<nat>): seq<Op> {
    if slots == [] then []
    else
      var last := slots[|slots| - 1];
      PlanSlots(cfg, m, slots[..|slots| - 1])
      + if last < |cfg.routes| then PlanRoute(cfg, cfg.routes[last], m) else []
  }

  /** A message meets the routes in use, in the order of their slots. */
  lemma {:induction false} PlanFollowsSlots(cfg: Config, m: Message, n: nat)
    requires n <= |cfg.routes|
    ensures PlanRoutes(cfg, m, n) == PlanSlots(cfg, m, Active(cfg.routes[..n]))
  {
    hide Active, PlanRoute, PlanSlots;
    if n > 0 {
      PlanFollowsSlots(cfg, m, n - 1);
      assert cfg.routes[..n] == cfg.routes[..n - 1] + [cfg.routes[n - 1]];
      ActiveSnoc(cfg.routes[..n - 1], cfg.routes[n - 1]);
      PlanOneSlotMore(cfg, m, Active(cfg.routes[..n - 1]), n - 1);
    } else {
      NothingInUse(cfg, m, cfg.routes[..0]);
    }
  }

  lemma PlanOneSlotMore(cfg: Config, m: Message, slots: seq<nat>, slot: nat)
    requires slot < |cfg.routes|
    ensures PlanSlots(cfg, m, slots + if cfg.routes[slot].used then [slot] else []) ==
            PlanSlots(cfg, m, slots) + PlanRoute(cfg, cfg.routes[slot], m)
  {
    if cfg.routes[slot].used {
      assert (slots + [slot])[..|slots|] == slots;
    } else {
      assert slots + [] == slots && PlanRoute(cfg, cfg.routes[slot], m) == [];
    }
  }

  lemma NothingInUse(cfg: Config, m: Message, routes: seq<Route>)
    requires routes == []
    ensures PlanSlots(cfg, m, Active(routes)) == []
  {
  }

  lemma {:induction false} ActiveIs(routes: seq<Route>)
    ensures forall i: nat :: i in Active(routes) <==> i < |routes| && routes[i].used
    ensures forall i, j :: 0 <= i < j < |Active(routes)| ==> Active(routes)[i] < Active(routes)[j]
  {
    if routes != [] {
      var last := |routes| - 1;
      var front := routes[..last];
      ActiveIs(front);
      forall i | 0 <= i < |Active(front)| ensures Active(front)[i] < last { assert Active(front)[i] in Active(front); }
    }
  }

  /** Slots not in use at the end do not matter. */
  lemma {:induction false} ActiveFront(routes: seq<Route>, k: nat)
    requires k <= |routes| && forall j :: k <= j < |routes| ==> !routes[j].used
    ensures Active(routes) == Active(routes[..k])
  {
    if k < |routes| {
      ActiveFront(routes[..|routes| - 1], k);
      assert routes[..|routes| - 1][..k] == routes[..k];
    } else {
      assert routes[..k] == routes;
    }
  }

  function Placed(routes: seq<Route>, r: Route): seq<Route> {
    var k := FirstFree(routes, 0);
    if k < |routes| then routes[k := r] else routes + [r]
  }

  /** A new route is met after all earlier ones exactly when no route in use lies
      behind the first free slot: a removed route's slot is taken over, and with
      it its place in the order. */
  lemma AddedLastIff(routes: seq<Route>, r: Route)
    requires r.used
    ensures var k := FirstFree(routes, 0);
            Active(Placed(routes, r)) == Active(routes) + [k] <==> forall j :: k < j < |routes| ==> !routes[j].used
  {
    hide Active;
    var k := FirstFree(routes, 0);
    var placed := Placed(routes, r);
    if j: nat :| k < j < |routes| && routes[j].used {
      ActiveIs(routes);
      ActiveIs(placed);
      UnsortedTail(Active(routes), j, k);
    } else {
      ActiveFront(routes, k);
      ActiveFront(placed, k + 1);
      assert placed[..k + 1] == routes[..k] + [r];
      ActiveSnoc(routes[..k], r);
    }
  }

  lemma ActiveSnoc(routes: seq<Route>, r: Route)
    ensures Active(routes + [r]) == Active(routes) + if r.used then [|routes|] else []
  {
    assert (routes + [r])[..|routes|] == routes;
  }

  lemma UnsortedTail(slots: seq<nat>, j: nat, k: nat)
    requires j in slots && k < j
    ensures exists i :: 0 <= i < |slots| && (slots + [k])[i] > (slots + [k])[|slots|]
  {
    var i :| 0 <= i < |slots| && slots[i] == j;
    assert (slots + [k])[i] > (slots + [k])[|slots|];
  }

  /** Two routes, the first removed, a third added: it is met before the second. */
  lemma AReusedSlot()
    ensures exists first: Route, second: Route, third: Route ::
              var removed := [first.(used := false), second];
              && first.used && second.used && third.used
              && Placed(removed, third) == [third, second]
              && Active(Placed(removed, third)) == [0, 1] != Active(removed) + [0]
  {
    var first := UNUSED.(used := true);
    var second, third := first.(dest := 1), first.(dest := 2);
    var removed := [first.(used := false), second];
    assert Placed(removed, third) == [third, second];
    hide Active;
    AddedLastIff(removed, third);
    ActiveOf(third, second);
  }

  lemma ActiveOf(a: Route, b: Route)
    ensures Active([a, b]) == (if a.used then [0] else []) + (if b.used then [1] else [])
  {
    assert [] + [a] == [a] && [a] + [b] == [a, b];
    ActiveSnoc([], a);
    ActiveSnoc([a], b);
  }

  // --- The bounded queue, as one task sees it ---

  datatype Admission = Admission(queue: seq<Message>, refused: nat)

  function Admit(a: Admission, m: Message): Admission {
    if |a.queue| < QUEUE_ENTRIES then a.(queue := a.queue + [m]) else a.(refused := a.refused + 1)
  }

  function AdmitAll(a: Admission, ms: seq<Message>): Admission
    decreases |ms|
  {
    if ms == [] then a else AdmitAll(Admit(a, ms[0]), ms[1..])
  }

  /** What fits is queued in order, and all the rest is counted as refused. */
  lemma {:induction false} AdmittedPrefix(a: Admission, ms: seq<Message>)
    requires |a.queue| <= QUEUE_ENTRIES
    ensures var room := QUEUE_ENTRIES - |a.queue|;
            var fit := if |ms| < room then |ms| else room;
            AdmitAll(a, ms) == Admission(a.queue + ms[..fit], a.refused + |ms| - fit)
    decreases |ms|
  {
    if ms != [] {
      AdmittedPrefix(Admit(a, ms[0]), ms[1..]);
      if |a.queue| < QUEUE_ENTRIES {
        var fit := if |ms| < QUEUE_ENTRIES - |a.queue| then |ms| else QUEUE_ENTRIES - |a.queue|;
        assert ms[..fit] == [ms[0]] + ms[1..][..fit - 1];
      }
    }
  }

  /** Admitting the pieces from `offset` on begins with the next one. */
  lemma FirstPiece(a: Admission, m: Message, offset: nat)
    requires offset <= |m.payload|
    ensures var remaining := |m.payload| - offset;
            var take := if remaining > CHUNK_BYTES then CHUNK_BYTES else remaining;
            var last := offset + take >= |m.payload|;
            var piece := m.(payload := m.payload[offset..offset + take],
                            chunkStart := offset == 0 && m.chunkStart,
                            chunkEnd := last && m.chunkEnd);
            AdmitAll(a, Pieces(m, offset)) ==
            if last then Admit(a, piece) else AdmitAll(Admit(a, piece), Pieces(m, offset + take))
  {
    var remaining := |m.payload| - offset;
    var take := if remaining > CHUNK_BYTES then CHUNK_BYTES else remaining;
    assert Pieces(m, offset)[1..] == if remaining <= CHUNK_BYTES then [] else Pieces(m, offset + take);
    hide Admit;
  }

  // --- One pass of update() ---

  function Pass(entries: seq<Message>, sinks: Sinks): (steps: seq<Step>)
    ensures AllPossible(steps)
  {
    [Closes(sinks)] + seq(|entries|, i requires 0 <= i < |entries| => Arrives(entries[i], sinks))
  }

  class Router {
    var routes: seq<Route>
    var stages: seq<Rules>
    var view: View
    var streams: seq<Stream>
    var owner: seq<Port>
    var pending: set<nat>
    var logs: seq<seq<Entry>>  // what each sink was handed, for the specification
    var counters: Counters
    var queue: seq<Message>
    var received: nat
    var queueFull: nat

    ghost predicate Valid()
      reads this
    {
      Settings().Sized() && Value().Sized() && |routes| <= MAX_ROUTES && |queue| <= QUEUE_ENTRIES
    }

    function Settings(): Config
      reads this
    {
      Config(routes, stages, view)
    }

    function Value(): State
      reads this
    {
      State(streams, owner, pending, logs, counters)
    }

    constructor (view: View)
      ensures Valid() && Value() == FRESH && queue == [] && received == 0 && queueFull == 0
      ensures Settings() == Config([], seq(MAX_PORTS, _ => NO_RULES), view)
    {
      routes, stages, this.view := [], seq(MAX_PORTS, _ => NO_RULES), view;
      streams, owner := FRESH.streams, FRESH.owner;
      pending, logs, counters := {}, FRESH.logs, ZERO;
      queue, received, queueFull := [], 0, 0;
    }

    method AddRoute(sourceIsGroup: bool, source: Port, destIsGroup: bool, dest: Port) returns (index: Port)
      requires Valid()
      modifies this`routes
      ensures Valid()
      ensures index == INVALID <==>
              (!sourceIsGroup && source == INVALID) || FirstFree(old(routes), 0) == MAX_ROUTES
      ensures index == INVALID ==> routes == old(routes)
      ensures index != INVALID ==>
                var r := Route(true, true, sourceIsGroup, destIsGroup, false, source, dest, NO_RULES);
                routes == Placed(old(routes), r) && index < |routes| && routes[index] == r
    {
      if !sourceIsGroup && source == INVALID {
        return INVALID;
      }
      var free := 0;
      while free < |routes| && routes[free].used
        invariant free <= |routes| && FirstFree(routes, 0) == FirstFree(routes, free)
      {
        free := free + 1;
      }
      var r := Route(true, true, sourceIsGroup, destIsGroup, false, source, dest, NO_RULES);
      if free == |routes| {
        if free >= MAX_ROUTES {
          return INVALID;
        }
        routes := routes + [r];
      } else {
        routes := routes[free := r];
      }
      index := free;
    }

    method RemoveRoute(index: Port) returns (ok: bool)
      requires Valid()
      modifies this`routes
      ensures Valid()
      ensures ok == (index < |old(routes)| && old(routes)[index].used)
      ensures routes == if ok then old(routes)[index := old(routes)[index].(used := false)] else old(routes)
    {
      ok := index < |routes| && routes[index].used;
      if ok {
        routes := routes[index := routes[index].(used := false)];
      }
    }

    // --- receive() ---

    method Receive(m: Message) returns (ok: bool)
      requires Valid()
      modifies this`received, this`queue, this`queueFull
      ensures Valid() && received == old(received) + 1
      ensures var room := QUEUE_ENTRIES - |old(queue)|;
              var fit := if |Split(m)| < room then |Split(m)| else room;
              && queue == old(queue) + Split(m)[..fit]
              && queueFull == old(queueFull) + |Split(m)| - fit
              && ok == (m.port != INVALID && fit == |Split(m)|)
    {
      received := received + 1;
      if m.port == INVALID {
        return false;
      }
      AdmittedPrefix(Admission(queue, queueFull), Split(m));
      if !m.chunk {
        ok := Enqueue(m.(payload := []));
      } else {
        ok := ReceiveChunk(m);
      }
    }

    /** A chunk larger than one entry is split. */
    method ReceiveChunk(m: Message) returns (ok: bool)
      requires Valid()
      modifies this`queue, this`queueFull
      ensures Valid() && ok == (queueFull == old(queueFull))
      ensures Admission(queue, queueFull) == AdmitAll(Admission(old(queue), old(queueFull)), Pieces(m, 0))
    {
      hide Pieces, AdmitAll;
      ghost var goal := AdmitAll(Admission(queue, queueFull), Pieces(m, 0));
      ghost var full := queueFull;
      var offset := 0;
      ok := true;
      while true
        invariant offset <= |m.payload| && Valid()
        invariant AdmitAll(Admission(queue, queueFull), Pieces(m, offset)) == goal
        invariant queueFull >= full && ok == (queueFull == full)
        decreases |m.payload| - offset
      {
        var remaining := |m.payload| - offset;
        var take := if remaining > CHUNK_BYTES then CHUNK_BYTES else remaining;
        var last := offset + take >= |m.payload|;
        var piece := m.(payload := m.payload[offset..offset + take],
                        chunkStart := offset == 0 && m.chunkStart,
                        chunkEnd := last && m.chunkEnd);
        FirstPiece(Admission(queue, queueFull), m, offset);
        var queued := Enqueue(piece);
        ok := queued && ok;
        offset := offset + take;
        if offset >= |m.payload| {
          break;
        }
      }
    }

    method Enqueue(m: Message) returns (ok: bool)
      requires Valid()
      modifies this`queue, this`queueFull
      ensures Valid() && ok == (|old(queue)| < QUEUE_ENTRIES)
      ensures Admission(queue, queueFull) == Admit(Admission(old(queue), old(queueFull)), m)
      ensures queueFull == old(queueFull) + if ok then 0 else 1
    {
      ok := |queue| < QUEUE_ENTRIES;
      if ok {
        queue := queue + [m];
      } else {
        queueFull := queueFull + 1;
      }
    }

    // --- update() ---

    /** Runs the pipeline for everything queued when it was called. */
    method Update(sinks: Sinks)
      requires Valid()
      modifies this`streams, this`owner, this`pending, this`logs, this`counters, this`queue
      ensures Valid() && queue == []
      ensures World(Value(), Settings()) == Run(World(old(Value()), old(Settings())), Pass(old(queue), sinks))
    {
      ghost var start := World(Value(), Settings());
      ghost var steps := Pass(queue, sinks);
      ghost var entries := queue;
      ClosePendingStreams(sinks);
      assert steps[..1] == [Closes(sinks)] && steps[..1][..0] == [];
      assert Run(start, steps[..1]) == Next(start, Closes(sinks));
      var count := |queue|;
      var done := 0;
      while done < count
        invariant 0 <= done <= count == |entries| && Valid() && queue == entries[done..]
        invariant World(Value(), Settings()) == Run(start, steps[..done + 1])
        modifies this`streams, this`owner, this`pending, this`logs, this`counters, this`queue
      {
        assert steps[..done + 2][..done + 1] == steps[..done + 1];
        DispatchEntry(queue[0], sinks);
        queue := queue[1..];
        done := done + 1;
      }
      assert steps[..done + 1] == steps;
    }

    method RunRules(rules: Rules, message: Message) returns (passed: bool, m: Message)
      requires Valid()
      modifies this`counters
      ensures Valid()
      ensures var staged := RunStage(rules, message);
              && counters == Tally(old(counters), staged)
              && passed == staged.Kept? && (passed ==> m == staged.m)
    {
      m := message;
      if !m.Continuation() && rules.filter.Some? && !rules.filter.value.Accepts(m) {
        counters := counters.(droppedByFilter := counters.droppedByFilter + 1);
        return false, m;
      }
      if m.chunk {
        return true, m;
      }
      if rules.transform.Some? {
        var transformed := rules.transform.value.Apply(m);
        if transformed.None? {
          counters := counters.(droppedByStage := counters.droppedByStage + 1);
          return false, m;
        }
        m := transformed.value;
      }
      if rules.callback.Some? {
        var reply := rules.callback.value(m);
        if reply.Drop? {
          counters := counters.(droppedByStage := counters.droppedByStage + 1);
          return false, m;
        }
        m := Rewritten(m, reply);
      }
      passed := true;
    }

    method DeliverTo(out: Output, message: Message, sinks: Sinks) returns (sent: bool)
      requires Valid()
      modifies this`owner, this`logs, this`counters
      ensures Valid()
      ensures Delivery(Value(), sent) == Deliver(old(Value()), Settings(), sinks, out, message)
    {
      var passed, m := RunRules(stages[out], message);
      if !passed {
        return false;
      }
      if m.chunk {
        if m.chunkStart {
          if owner[out] != INVALID {
            counters := counters.(sysExRejected := counters.sysExRejected + 1);
            return false;
          }
          owner := owner[out := m.port];
        } else if owner[out] != m.port {
          return false;
        }
      } else if owner[out] != INVALID && !IsRealTime(m.status) {
        counters := counters.(blockedBySysEx := counters.blockedBySysEx + 1);
        return false;
      }
      sent := sinks(out, logs[out], m);
      logs := logs[out := logs[out] + [Handed(m, sent)]];
      if sent {
        counters := counters.(delivered := counters.delivered + 1);
      } else {
        counters := counters.(sendFailed := counters.sendFailed + 1);
      }
      if m.chunk && m.chunkEnd && owner[out] == m.port {
        owner := owner[out := INVALID];
      }
    }

    /** A continuation, to every output its stream targets. */
    method ReplayStream(m: Message, sinks: Sinks)
      requires Valid() && m.port < MAX_PORTS
      modifies this`streams, this`owner, this`logs, this`counters
      ensures Valid() && Value() == Continue(old(Value()), Settings(), sinks, m)
    {
      if !streams[m.port].open {
        return;
      }
      ghost var s := Value();
      var targets := streams[m.port].targets;
      var out := 0;
      while out < MAX_PORTS
        invariant 0 <= out <= MAX_PORTS && Valid()
        invariant Value() == Perform(Idle(s), Settings(), sinks, PlanTargets(targets, m, out)).state
        modifies this`owner, this`logs, this`counters
      {
        if out in targets {
          PerformSnoc(Idle(s), Settings(), sinks, PlanTargets(targets, m, out), Offer(out, m));
          var sent := DeliverTo(out, m, sinks);
        }
        assert PlanTargets(targets, m, out + 1) ==
               if out in targets then PlanTargets(targets, m, out) + [Offer(out, m)] else PlanTargets(targets, m, out);
        out := out + 1;
      }
      if m.chunkEnd {
        streams := streams[m.port := Stream(false, {})];
      }
    }

    method DispatchEntry(entry: Message, sinks: Sinks)
      requires Valid()
      modifies this`streams, this`owner, this`logs, this`counters
      ensures Valid() && Value() == Dispatch(old(Value()), Settings(), sinks, entry)
    {
      var source := entry.port;
      if source >= MAX_PORTS {
        return;
      }
      var passed, m := RunRules(stages[source], entry);
      if !passed {
        return;
      }
      if m.Continuation() {
        ReplayStream(m, sinks);
      } else {
        BeginMessage(source, m, sinks);
      }
    }

    method BeginMessage(source: Port, m: Message, sinks: Sinks)
      requires Valid() && source < MAX_PORTS
      modifies this`streams, this`owner, this`logs, this`counters
      ensures Valid() && Value() == Begin(old(Value()), Settings(), sinks, source, m)
    {
      hide Do, PlanRoute;
      ghost var s := Value();
      ghost var cfg := Settings();
      var started: set<nat> := {};
      var any := false;
      var i := 0;
      while i < |routes|
        invariant 0 <= i <= |routes| && Valid() && Settings() == cfg
        invariant Fan(Value(), started, any) == Perform(Idle(s), cfg, sinks, PlanRoutes(cfg, m, i))
        modifies this`owner, this`logs, this`counters
      {
        PerformConcat(Idle(s), cfg, sinks, PlanRoutes(cfg, m, i), PlanRoute(cfg, routes[i], m));
        var more, offered := OfferRoute(routes[i], m, sinks, started, any);
        started, any := more, offered;
        i := i + 1;
      }
      if !any {
        counters := counters.(noRoute := counters.noRoute + 1);
      } else if m.Opens() {
        streams := streams[source := Stream(started != {}, started)];
      }
    }

    method OfferRoute(route: Route, m: Message, sinks: Sinks, started: set<nat>, any: bool)
      returns (more: set<nat>, offered: bool)
      requires Valid()
      modifies this`owner, this`logs, this`counters
      ensures Valid()
      ensures Fan(Value(), more, offered) ==
              Perform(Fan(old(Value()), started, any), Settings(), sinks, PlanRoute(Settings(), route, m))
    {
      hide Deliver, RunStage;
      more, offered := started, any;
      ghost var f := Fan(Value(), started, any);
      ghost var cfg := Settings();
      if !route.used || !route.enabled || !Settings().RouteAccepts(route, m.port) {
        return;
      }
      var passed, routed := RunRules(route.rules, m);
      if !passed {
        PerformOne(f, cfg, sinks, Drops(RunStage(route.rules, m)));
        return;
      }
      var out := 0;
      while out < Settings().Outputs()
        invariant 0 <= out <= cfg.Outputs() && Valid() && Settings() == cfg
        invariant Fan(Value(), more, offered) == Perform(f, cfg, sinks, PlanOutputs(cfg, route, m.port, routed, out))
        modifies this`owner, this`logs, this`counters
      {
        if Settings().Reaches(route, m.port, out) {
          PerformSnoc(f, cfg, sinks, PlanOutputs(cfg, route, m.port, routed, out), Offer(out, routed));
          var sent := DeliverTo(out, routed, sinks);
          offered := true;
          if sent && routed.Opens() {
            more := more + {out};
          }
        }
        assert PlanOutputs(cfg, route, m.port, routed, out + 1) == PlanOutputs(cfg, route, m.port, routed, out)
               + if cfg.Reaches(route, m.port, out) then [Offer(out, routed)] else [];
        assert !cfg.Reaches(route, m.port, out) ==>
               PlanOutputs(cfg, route, m.port, routed, out + 1) == PlanOutputs(cfg, route, m.port, routed, out);
        out := out + 1;
      }
    }

    /** Rule 2: ends, for their outputs, the streams of inputs that went away. */
    method ClosePendingStreams(sinks: Sinks)
      requires Valid()
      modifies this`streams, this`owner, this`pending, this`logs, this`counters
      ensures Valid() && Value() == ClosePending(old(Value()), Settings(), sinks)
    {
      ghost var s := Value();
      var port := 0;
      while port < MAX_PORTS
        invariant 0 <= port <= MAX_PORTS && Valid() && pending == s.pending
        invariant Value() == CloseInputs(s, Settings(), sinks, port)
        modifies this`streams, this`owner, this`logs, this`counters
      {
        if port in pending {
          ReplayStream(Closing(port), sinks);
        }
        port := port + 1;
      }
      pending := {};
    }

    /** A port changed state. Only recorded: nothing is sent from here. */
    method OnPortEvent(port: Port, available: bool)
      requires Valid()
      modifies this`pending, this`owner, this`logs
      ensures Valid()
      ensures Value() == if available then old(Value()) else PortDown(old(Value()), port)
    {
      if available || port >= MAX_PORTS {
        return;
      }
      if streams[port].open {
        pending := pending + {port};
      }
      if owner[port] != INVALID {
        owner := owner[port := INVALID];
        logs := logs[port := logs[port] + [Cut]];
      }
    }
  }
}
