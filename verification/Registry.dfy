/** Endpoints, ports and seats: a handle is a seat, which outlives the device
    that occupied it and is given back to the device that had it. */
module Registry {
  import opened Midi

  const MAX_ENDPOINTS: nat := 8
  const MAX_SEATS: nat := 32
  const PORTS_PER_ENDPOINT: nat := 16

  datatype Transport = Unknown | Uart | UsbDevice | UsbHost | BleDevice | BleHost | Application

  datatype PortState = Unconnected | Disconnected | Available

  /** What makes a device the same device; `serial` is empty when it has none. */
  datatype Identity = Identity(transport: Transport, index: Byte, vendorId: nat, productId: nat, serial: string)
  {
    predicate IsStatic() {
      transport.Uart? || transport.UsbDevice? || transport.BleDevice? || transport.Application?
    }

    predicate Identifiable() {
      !transport.Unknown? && (IsStatic() || serial != "")
    }

    predicate Matches(other: Identity) {
      && transport == other.transport && index == other.index
      && (IsStatic()
          || (serial != "" && other.serial != ""
              && vendorId == other.vendorId && productId == other.productId && serial == other.serial))
    }
  }

  datatype EndpointSlot = EndpointSlot(identity: Identity, state: PortState)

  datatype PortSlot = PortSlot(endpoint: nat, direction: Direction, index: nat, state: PortState)

  /** What listeners are told. */
  datatype Notice =
    | PortAdded(endpoint: nat, port: nat, state: PortState)
    | PortStateChanged(endpoint: nat, port: nat, state: PortState)
    | EndpointStateChanged(endpoint: nat, state: PortState)

  datatype State = State(endpoints: seq<EndpointSlot>, ports: seq<PortSlot>, notices: seq<Notice>)
  {
    function Tell(n: Notice): State { this.(notices := notices + [n]) }
  }

  const EMPTY := State([], [], [])

  // --- State propagation ---

  function SetPortState(s: State, port: nat, state: PortState): State
    requires port < |s.ports|
  {
    var slot := s.ports[port];
    if slot.state == state then s
    else s.(ports := s.ports[port := slot.(state := state)]).Tell(PortStateChanged(slot.endpoint, port, state))
  }

  /** The first n ports follow their endpoint. */
  function Follow(s: State, endpoint: nat, state: PortState, n: nat): (t: State)
    requires n <= |s.ports|
    ensures |t.ports| == |s.ports| && t.endpoints == s.endpoints
  {
    if n == 0 then s
    else
      var t := Follow(s, endpoint, state, n - 1);
      if t.ports[n - 1].endpoint == endpoint then SetPortState(t, n - 1, state) else t
  }

  function SetEndpointState(s: State, endpoint: nat, state: PortState): State
    requires endpoint < |s.endpoints|
  {
    var slot := s.endpoints[endpoint];
    if slot.state == state then s
    else
      Follow(s.(endpoints := s.endpoints[endpoint := slot.(state := state)])
              .Tell(EndpointStateChanged(endpoint, state)),
             endpoint, state, |s.ports|)
  }

  // --- Seats ---

  /** The first seat from i on whose identity matches, or the end. */
  function FindEndpoint(endpoints: seq<EndpointSlot>, identity: Identity, i: nat): (k: nat)
    requires i <= |endpoints|
    ensures i <= k <= |endpoints| && (k < |endpoints| ==> endpoints[k].identity.Matches(identity))
    ensures forall j :: i <= j < k ==> !endpoints[j].identity.Matches(identity)
    decreases |endpoints| - i
  {
    if i == |endpoints| || endpoints[i].identity.Matches(identity) then i else FindEndpoint(endpoints, identity, i + 1)
  }

  predicate IsSeat(slot: PortSlot, endpoint: nat, direction: Direction, index: nat) {
    slot.endpoint == endpoint && slot.direction == direction && slot.index == index
  }

  function FindPort(ports: seq<PortSlot>, endpoint: nat, direction: Direction, index: nat, i: nat): (k: nat)
    requires i <= |ports|
    ensures i <= k <= |ports| && (k < |ports| ==> IsSeat(ports[k], endpoint, direction, index))
    ensures forall j :: i <= j < k ==> !IsSeat(ports[j], endpoint, direction, index)
    decreases |ports| - i
  {
    if i == |ports| || IsSeat(ports[i], endpoint, direction, index) then i
    else FindPort(ports, endpoint, direction, index, i + 1)
  }

  /** A seat handle, INVALID for none. */
  datatype Answer = Answer(state: State, handle: nat)

  /** The seat an identity will be given: its own, a new one, or none. */
  function SeatFor(s: State, identity: Identity): (seat: Option<nat>)
    ensures seat.Some? ==> seat.value <= |s.endpoints|
  {
    if identity.transport.Unknown? then None
    else
      var found := if identity.Identifiable() then FindEndpoint(s.endpoints, identity, 0) else |s.endpoints|;
      if found < |s.endpoints| || |s.endpoints| < MAX_ENDPOINTS then Some(found) else None
  }

  /** With a new seat where one is needed. */
  function Allocated(s: State, seat: nat, identity: Identity): (t: State)
    requires seat <= |s.endpoints|
    ensures seat < |t.endpoints|
  {
    if seat == |s.endpoints| then s.(endpoints := s.endpoints + [EndpointSlot(identity, Unconnected)]) else s
  }

  function AttachEndpoint(s: State, identity: Identity): Answer {
    match SeatFor(s, identity)
    case None => Answer(s, INVALID)
    case Some(seat) => Answer(SetEndpointState(Allocated(s, seat, identity), seat, Available), seat)
  }

  function DetachEndpoint(s: State, endpoint: Port): State {
    if endpoint < |s.endpoints| then SetEndpointState(s, endpoint, Disconnected) else s
  }

  function AttachPort(s: State, endpoint: Port, direction: Direction, index: Byte): Answer {
    if endpoint >= |s.endpoints| || index >= PORTS_PER_ENDPOINT then Answer(s, INVALID)
    else
      var state := s.endpoints[endpoint].state;
      var k := FindPort(s.ports, endpoint, direction, index, 0);
      if k < |s.ports| then Answer(SetPortState(s, k, state), k)
      else if |s.ports| >= MAX_SEATS then Answer(s, INVALID)
      else
        Answer(s.(ports := s.ports + [PortSlot(endpoint, direction, index, state)])
                .Tell(PortAdded(endpoint, |s.ports|, state)), |s.ports|)
  }

  // --- Runs ---

  datatype Call =
    | Attach(identity: Identity)
    | Detach(endpoint: Port)
    | Seat(endpoint: Port, direction: Direction, index: Byte)

  function Next(s: State, call: Call): State {
    match call
    case Attach(identity) => AttachEndpoint(s, identity).state
    case Detach(endpoint) => DetachEndpoint(s, endpoint)
    case Seat(endpoint, direction, index) => AttachPort(s, endpoint, direction, index).state
  }

  function Run(s: State, calls: seq<Call>): State {
    if calls == [] then s else Next(Run(s, calls[..|calls| - 1]), calls[|calls| - 1])
  }

  // --- What every run keeps ---

  /** What a listener who only heard the notices believes of every port. */
  function Believed(notices: seq<Notice>): seq<PortState> {
    if notices == [] then [] else Learn(Believed(notices[..|notices| - 1]), notices[|notices| - 1])
  }

  function Learn(before: seq<PortState>, n: Notice): seq<PortState> {
    if n.PortAdded? then before + [n.state]
    else if n.PortStateChanged? && n.port < |before| then before[n.port := n.state]
    else before
  }

  function States(ports: seq<PortSlot>): seq<PortState> {
    seq(|ports|, i requires 0 <= i < |ports| => ports[i].state)
  }

  lemma BelievedSnoc(notices: seq<Notice>, n: Notice)
    ensures Believed(notices + [n]) == Learn(Believed(notices), n)
  {
    assert (notices + [n])[..|notices|] == notices;
  }

  /** Apart from the states of ports: seats in range and each coordinate once. */
  ghost predicate Seated(s: State) {
    && |s.endpoints| <= MAX_ENDPOINTS && |s.ports| <= MAX_SEATS
    && (forall i :: 0 <= i < |s.ports| ==> s.ports[i].endpoint < |s.endpoints| && s.ports[i].index < PORTS_PER_ENDPOINT)
    && (forall i, j :: 0 <= i < j < |s.ports| ==>
          !IsSeat(s.ports[i], s.ports[j].endpoint, s.ports[j].direction, s.ports[j].index))
    && (forall i, j :: 0 <= i < j < |s.endpoints| && s.endpoints[j].identity.Identifiable() ==>
          !s.endpoints[i].identity.Matches(s.endpoints[j].identity))
  }

  ghost predicate Settled(s: State) {
    forall i :: 0 <= i < |s.ports| ==>
      s.ports[i].endpoint < |s.endpoints| && s.ports[i].state == s.endpoints[s.ports[i].endpoint].state
  }

  ghost predicate Told(s: State) { Believed(s.notices) == States(s.ports) }

  ghost predicate Ok(s: State) { Seated(s) && Settled(s) && Told(s) }

  lemma SetPortStateTold(s: State, port: nat, state: PortState)
    requires port < |s.ports| && Told(s)
    ensures Told(SetPortState(s, port, state))
  {
    BelievedSnoc(s.notices, PortStateChanged(s.ports[port].endpoint, port, state));
    assert States(s.ports[port := s.ports[port].(state := state)]) == States(s.ports)[port := state];
  }

  lemma {:induction false} FollowTold(s: State, endpoint: nat, state: PortState, n: nat)
    requires n <= |s.ports| && Told(s)
    ensures Told(Follow(s, endpoint, state, n))
  {
    if n > 0 {
      FollowTold(s, endpoint, state, n - 1);
      SetPortStateTold(Follow(s, endpoint, state, n - 1), n - 1, state);
    }
    hide Told;
  }

  lemma {:induction false} FollowDoes(s: State, endpoint: nat, state: PortState, n: nat)
    requires n <= |s.ports|
    ensures var t := Follow(s, endpoint, state, n);
            forall i :: 0 <= i < |s.ports| ==>
              t.ports[i] == if i < n && s.ports[i].endpoint == endpoint then s.ports[i].(state := state) else s.ports[i]
  {
    if n > 0 { FollowDoes(s, endpoint, state, n - 1); }
  }

  /** Exactly the endpoint and its own ports take the state. */
  ghost predicate Moved(s: State, t: State, endpoint: nat, state: PortState)
    requires endpoint < |s.endpoints|
  {
    && t.endpoints == s.endpoints[endpoint := s.endpoints[endpoint].(state := state)]
    && |t.ports| == |s.ports|
    && forall i :: 0 <= i < |s.ports| ==>
         t.ports[i] == if s.ports[i].endpoint == endpoint then s.ports[i].(state := state) else s.ports[i]
  }

  lemma SetEndpointStateMoves(s: State, endpoint: nat, state: PortState)
    requires endpoint < |s.endpoints| && Settled(s) && Told(s)
    ensures var t := SetEndpointState(s, endpoint, state); Moved(s, t, endpoint, state) && Told(t)
  {
    var slot := s.endpoints[endpoint];
    if slot.state != state {
      var s1 := s.(endpoints := s.endpoints[endpoint := slot.(state := state)])
                 .Tell(EndpointStateChanged(endpoint, state));
      BelievedSnoc(s.notices, EndpointStateChanged(endpoint, state));
      FollowTold(s1, endpoint, state, |s.ports|);
      FollowDoes(s1, endpoint, state, |s.ports|);
    }
    hide Follow, Believed;
  }

  lemma SetEndpointStateOk(s: State, endpoint: nat, state: PortState)
    requires endpoint < |s.endpoints| && Ok(s)
    ensures var t := SetEndpointState(s, endpoint, state); Ok(t) && Moved(s, t, endpoint, state)
  {
    hide SetEndpointState, Told;
    SetEndpointStateMoves(s, endpoint, state);
  }

  lemma AllocatedOk(s: State, identity: Identity)
    requires Ok(s) && SeatFor(s, identity).Some?
    ensures Ok(Allocated(s, SeatFor(s, identity).value, identity))
  {
  }

  lemma AttachEndpointOk(s: State, identity: Identity)
    requires Ok(s)
    ensures Ok(AttachEndpoint(s, identity).state)
  {
    var seat := SeatFor(s, identity);
    if seat.Some? {
      AllocatedOk(s, identity);
      SetEndpointStateOk(Allocated(s, seat.value, identity), seat.value, Available);
    }
    hide SetEndpointState, Ok;
  }

  lemma AttachPortOk(s: State, endpoint: Port, direction: Direction, index: Byte)
    requires Ok(s)
    ensures Ok(AttachPort(s, endpoint, direction, index).state)
  {
    if endpoint < |s.endpoints| && index < PORTS_PER_ENDPOINT {
      var k := FindPort(s.ports, endpoint, direction, index, 0);
      if k < |s.ports| {
        FoundPortOk(s, k);
      } else if k < MAX_SEATS {
        NewPortOk(s, endpoint, direction, index);
      }
    }
    hide Ok, SetPortState, FindPort;
  }

  /** A port that is there already has its endpoint's state. */
  lemma FoundPortOk(s: State, port: nat)
    requires Ok(s) && port < |s.ports|
    ensures SetPortState(s, port, s.endpoints[s.ports[port].endpoint].state) == s
  {
  }

  lemma NewPortOk(s: State, endpoint: nat, direction: Direction, index: Byte)
    requires Ok(s) && endpoint < |s.endpoints| && index < PORTS_PER_ENDPOINT && |s.ports| < MAX_SEATS
    requires forall i :: 0 <= i < |s.ports| ==> !IsSeat(s.ports[i], endpoint, direction, index)
    ensures var state := s.endpoints[endpoint].state;
            Ok(s.(ports := s.ports + [PortSlot(endpoint, direction, index, state)])
                .Tell(PortAdded(endpoint, |s.ports|, state)))
  {
    var state := s.endpoints[endpoint].state;
    BelievedSnoc(s.notices, PortAdded(endpoint, |s.ports|, state));
    assert States(s.ports + [PortSlot(endpoint, direction, index, state)]) == States(s.ports) + [state];
    hide Believed;
  }

  lemma NextOk(s: State, call: Call)
    requires Ok(s)
    ensures Ok(Next(s, call))
  {
    match call
    case Attach(identity) => AttachEndpointOk(s, identity);
    case Detach(endpoint) =>
      if endpoint < |s.endpoints| { SetEndpointStateOk(s, endpoint, Disconnected); }
    case Seat(endpoint, direction, index) => AttachPortOk(s, endpoint, direction, index);
  }

  /** After any calls: every coordinate has one seat, every identifiable device
      one endpoint, every port its endpoint's state, and a listener who heard
      the notices knows the state of every port. */
  lemma {:induction false} EveryRunIsOk(calls: seq<Call>)
    ensures Ok(Run(EMPTY, calls))
  {
    if calls != [] {
      EveryRunIsOk(calls[..|calls| - 1]);
      NextOk(Run(EMPTY, calls[..|calls| - 1]), calls[|calls| - 1]);
      hide Ok, Next;
    }
  }

  // --- Handles ---

  /** Seats are only ever added: no handle is removed or given to another. */
  ghost predicate Keeps(s: State, t: State) {
    && |s.endpoints| <= |t.endpoints| && |s.ports| <= |t.ports|
    && (forall i :: 0 <= i < |s.endpoints| ==> t.endpoints[i].identity == s.endpoints[i].identity)
    && (forall i :: 0 <= i < |s.ports| ==>
          IsSeat(t.ports[i], s.ports[i].endpoint, s.ports[i].direction, s.ports[i].index))
  }

  lemma NextKeeps(s: State, call: Call)
    requires Ok(s)
    ensures Keeps(s, Next(s, call))
  {
    hide Ok, AttachEndpoint, AttachPort, SetEndpointState;
    match call
    case Attach(identity) => AttachKeeps(s, identity);
    case Detach(endpoint) =>
      if endpoint < |s.endpoints| { SetEndpointStateOk(s, endpoint, Disconnected); }
    case Seat(endpoint, direction, index) => AttachPortKeeps(s, endpoint, direction, index);
  }

  lemma AttachKeeps(s: State, identity: Identity)
    requires Ok(s)
    ensures Keeps(s, AttachEndpoint(s, identity).state)
  {
    hide Ok, SetEndpointState;
    var seat := SeatFor(s, identity);
    if seat.Some? {
      AllocatedOk(s, identity);
      SetEndpointStateOk(Allocated(s, seat.value, identity), seat.value, Available);
    }
  }

  lemma AttachPortKeeps(s: State, endpoint: Port, direction: Direction, index: Byte)
    ensures Keeps(s, AttachPort(s, endpoint, direction, index).state)
  {
  }

  lemma {:induction false} RunKeeps(s: State, calls: seq<Call>)
    requires Ok(s)
    ensures Ok(Run(s, calls)) && Keeps(s, Run(s, calls))
  {
    if calls != [] {
      RunKeeps(s, calls[..|calls| - 1]);
      NextOk(Run(s, calls[..|calls| - 1]), calls[|calls| - 1]);
      NextKeeps(Run(s, calls[..|calls| - 1]), calls[|calls| - 1]);
      hide Ok, Next;
    }
  }

  /** What identifies a device is an equivalence where it identifies at all. */
  lemma MatchesAlike(a: Identity, b: Identity, c: Identity)
    requires a.Matches(b) && c.Matches(b)
    ensures a.Matches(c) && c.Matches(a)
  {
  }

  /** A device that comes back gets the seat it first had, whatever happened in
      between and even when every table is full. */
  lemma SeatComesBack(s: State, identity: Identity, calls: seq<Call>, again: Identity)
    requires Ok(s) && identity.Identifiable() && again.Identifiable() && identity.Matches(again)
    requires AttachEndpoint(s, identity).handle != INVALID
    ensures var first := AttachEndpoint(s, identity);
            AttachEndpoint(Run(first.state, calls), again).handle == first.handle
  {
    var first := AttachEndpoint(s, identity);
    var seat := first.handle;
    AttachEndpointOk(s, identity);
    NextKeeps(s, Attach(identity));
    RunKeeps(first.state, calls);
    var t := Run(first.state, calls);
    HasSeat(s, identity);
    hide Run, AttachEndpoint;
    assert t.endpoints[seat].identity.Matches(again) by {
      MatchesAlike(again, identity, again);
      MatchesAlike(t.endpoints[seat].identity, identity, again);
    }
    forall j | 0 <= j < seat ensures !t.endpoints[j].identity.Matches(again) {
      if t.endpoints[j].identity.Matches(again) { MatchesAlike(t.endpoints[j].identity, again, identity); }
    }
    SeatIs(t, again, seat);
  }

  lemma HasSeat(s: State, identity: Identity)
    requires Ok(s) && identity.Identifiable() && AttachEndpoint(s, identity).handle != INVALID
    ensures var first := AttachEndpoint(s, identity);
            && first.handle < |first.state.endpoints|
            && first.state.endpoints[first.handle].identity.Matches(identity)
            && forall j :: 0 <= j < first.handle ==> !first.state.endpoints[j].identity.Matches(identity)
  {
    var seat := SeatFor(s, identity).value;
    AllocatedOk(s, identity);
    SetEndpointStateOk(Allocated(s, seat, identity), seat, Available);
  }

  lemma SeatIs(s: State, identity: Identity, seat: nat)
    requires identity.Identifiable() && seat < |s.endpoints| && |s.endpoints| <= MAX_ENDPOINTS
    requires s.endpoints[seat].identity.Matches(identity)
    requires forall j :: 0 <= j < seat ==> !s.endpoints[j].identity.Matches(identity)
    ensures AttachEndpoint(s, identity).handle == seat
  {
    var found := FindEndpoint(s.endpoints, identity, 0);
    assert found <= seat;
  }

  /** A device that cannot be recognised gets a seat of its own every time, until
      there are none left. */
  lemma StrangersGetFreshSeats(s: State, identity: Identity)
    requires Ok(s) && !identity.Identifiable() && !identity.transport.Unknown?
    ensures AttachEndpoint(s, identity).handle ==
            if |s.endpoints| < MAX_ENDPOINTS then |s.endpoints| else INVALID
  {
  }

  /** A port of an endpoint keeps its handle for good. */
  lemma PortComesBack(s: State, endpoint: Port, direction: Direction, index: Byte, calls: seq<Call>)
    requires Ok(s) && AttachPort(s, endpoint, direction, index).handle != INVALID
    ensures var first := AttachPort(s, endpoint, direction, index);
            AttachPort(Run(first.state, calls), endpoint, direction, index).handle == first.handle
  {
    var first := AttachPort(s, endpoint, direction, index);
    AttachPortOk(s, endpoint, direction, index);
    RunKeeps(first.state, calls);
    var t := Run(first.state, calls);
    AttachedSeat(s, endpoint, direction, index);
    assert IsSeat(t.ports[first.handle], endpoint, direction, index);
    SeatIsFound(t, endpoint, direction, index, first.handle);
    hide Run, Ok, AttachPort;
  }

  lemma AttachedSeat(s: State, endpoint: Port, direction: Direction, index: Byte)
    ensures var first := AttachPort(s, endpoint, direction, index);
            first.handle != INVALID ==>
              && endpoint < |first.state.endpoints| && index < PORTS_PER_ENDPOINT
              && first.handle < |first.state.ports|
              && IsSeat(first.state.ports[first.handle], endpoint, direction, index)
  {
  }

  lemma SeatIsFound(s: State, endpoint: Port, direction: Direction, index: Byte, k: nat)
    requires Ok(s) && endpoint < |s.endpoints| && index < PORTS_PER_ENDPOINT
    requires k < |s.ports| && IsSeat(s.ports[k], endpoint, direction, index)
    ensures AttachPort(s, endpoint, direction, index).handle == k
  {
    var found := FindPort(s.ports, endpoint, direction, index, 0);
    assert found <= k;
    hide Told, Settled, SetPortState;
  }

  // --- The registry itself ---

  class PortRegistry {
    var endpoints: seq<EndpointSlot>
    var ports: seq<PortSlot>
    var notices: seq<Notice>  // everything listeners were told, in order

    function Value(): State
      reads this
    {
      State(endpoints, ports, notices)
    }

    constructor ()
      ensures Value() == EMPTY
    {
      endpoints, ports, notices := [], [], [];
    }

    method Attach(identity: Identity) returns (handle: Port)
      requires Ok(Value())
      modifies this
      ensures Ok(Value())
      ensures Answer(Value(), handle) == AttachEndpoint(old(Value()), identity)
    {
      AttachEndpointOk(Value(), identity);
      if identity.transport.Unknown? {
        return INVALID;
      }
      var found := 0;
      if identity.Identifiable() {
        while found < |endpoints| && !endpoints[found].identity.Matches(identity)
          invariant found <= |endpoints|
          invariant FindEndpoint(endpoints, identity, 0) == FindEndpoint(endpoints, identity, found)
        {
          found := found + 1;
        }
      } else {
        found := |endpoints|;
      }
      assert found == if identity.Identifiable() then FindEndpoint(endpoints, identity, 0) else |endpoints|;
      if found == |endpoints| {
        if |endpoints| >= MAX_ENDPOINTS {
          return INVALID;
        }
        endpoints := endpoints + [EndpointSlot(identity, Unconnected)];
      }
      ChangeEndpoint(found, Available);
      handle := found;
    }

    method Detach(endpoint: Port) returns (ok: bool)
      requires Ok(Value())
      modifies this
      ensures Ok(Value()) && ok == (endpoint < |old(endpoints)|)
      ensures Value() == DetachEndpoint(old(Value()), endpoint)
    {
      NextOk(Value(), Call.Detach(endpoint));
      ok := endpoint < |endpoints|;
      if ok {
        ChangeEndpoint(endpoint, Disconnected);
      }
    }

    method AttachSeat(endpoint: Port, direction: Direction, index: Byte) returns (handle: Port)
      requires Ok(Value())
      modifies this
      ensures Ok(Value())
      ensures Answer(Value(), handle) == AttachPort(old(Value()), endpoint, direction, index)
    {
      AttachPortOk(Value(), endpoint, direction, index);
      if endpoint >= |endpoints| || index >= PORTS_PER_ENDPOINT {
        return INVALID;
      }
      var i := 0;
      while i < |ports| && !IsSeat(ports[i], endpoint, direction, index)
        invariant i <= |ports|
        invariant FindPort(ports, endpoint, direction, index, 0) == FindPort(ports, endpoint, direction, index, i)
      {
        i := i + 1;
      }
      if i < |ports| {
        ChangePort(i, endpoints[endpoint].state);
        return i;
      }
      if |ports| >= MAX_SEATS {
        return INVALID;
      }
      var state := endpoints[endpoint].state;
      ports := ports + [PortSlot(endpoint, direction, index, state)];
      notices := notices + [PortAdded(endpoint, i, state)];
      handle := i;
    }

    method ChangeEndpoint(endpoint: nat, state: PortState)
      requires endpoint < |endpoints|
      modifies this
      ensures Value() == SetEndpointState(old(Value()), endpoint, state)
    {
      if endpoints[endpoint].state == state {
        return;
      }
      endpoints := endpoints[endpoint := endpoints[endpoint].(state := state)];
      notices := notices + [EndpointStateChanged(endpoint, state)];
      ghost var s := Value();
      var i := 0;
      while i < |ports|
        invariant 0 <= i <= |ports| == |s.ports|
        invariant Value() == Follow(s, endpoint, state, i)
      {
        if ports[i].endpoint == endpoint {
          ChangePort(i, state);
        }
        i := i + 1;
      }
    }

    method ChangePort(port: nat, state: PortState)
      requires port < |ports|
      modifies this`ports, this`notices
      ensures Value() == SetPortState(old(Value()), port, state)
    {
      if ports[port].state == state {
        return;
      }
      ports := ports[port := ports[port].(state := state)];
      notices := notices + [PortStateChanged(ports[port].endpoint, port, state)];
    }
  }
}
