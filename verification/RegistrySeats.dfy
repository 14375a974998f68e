/** Which devices share a seat, what attaching and detaching leave behind, and what
    listeners are told of it, said of the fields. */
module RegistrySeats {
  import opened Midi
  import opened Registry

  /** Ports fixed on the board are known by transport and index alone. A device found
      on a bus is known by its ids and its serial too, and not at all without one. */
  predicate SameDevice(a: Identity, b: Identity) {
    && !a.transport.Unknown? && a.transport == b.transport && a.index == b.index
    && (a.transport in {UsbHost, BleHost} ==>
          a.serial != "" && a.serial == b.serial && a.vendorId == b.vendorId && a.productId == b.productId)
  }

  lemma MatchesMeans(a: Identity, b: Identity)
    ensures a.Identifiable() && b.Identifiable() && a.Matches(b) <==> SameDevice(a, b)
    ensures !a.transport.Unknown? && a.Matches(b) ==> SameDevice(a, b)
  {
  }

  // --- Seats ---

  /** Two attachments, whatever came between, get one seat if and only if they are
      one device: two UARTs never share one, one UART always comes back. */
  lemma SameSeatIff(s: State, a: Identity, calls: seq<Call>, b: Identity)
    requires Ok(s) && AttachEndpoint(s, a).handle != INVALID
    ensures var first := AttachEndpoint(s, a);
            AttachEndpoint(Run(first.state, calls), b).handle == first.handle <==> SameDevice(a, b)
  {
    var first := AttachEndpoint(s, a);
    var t := Run(first.state, calls);
    AttachEndpointOk(s, a);
    RunKeeps(first.state, calls);
    SeatedAs(s, a);
    MatchesMeans(a, b);
    hide Run, AttachEndpoint, Ok;
    if SameDevice(a, b) {
      SeatComesBack(s, a, calls, b);
    } else if AttachEndpoint(t, b).handle == first.handle {
      SeatTaken(t, b, first.handle);
      SharedSeat(t.endpoints[first.handle].identity, a, b);
    }
  }

  /** A device gets its seat with its own identity on it, or one of the same. */
  lemma SeatedAs(s: State, a: Identity)
    requires Ok(s) && AttachEndpoint(s, a).handle != INVALID
    ensures var first := AttachEndpoint(s, a);
            && first.handle < |first.state.endpoints| <= 8
            && (first.state.endpoints[first.handle].identity == a
                || SameDevice(first.state.endpoints[first.handle].identity, a))
            && !a.transport.Unknown?
  {
    var seat := SeatFor(s, a).value;
    AllocatedOk(s, a);
    SetEndpointStateOk(Allocated(s, seat, a), seat, Available);
    if seat < |s.endpoints| { MatchesMeans(s.endpoints[seat].identity, a); }
    hide Told, SetEndpointState;
  }

  lemma SeatTaken(s: State, b: Identity, seat: nat)
    requires seat < |s.endpoints| && AttachEndpoint(s, b).handle == seat && seat != INVALID
    ensures s.endpoints[seat].identity.Matches(b) && b.Identifiable()
  {
  }

  lemma SharedSeat(seated: Identity, a: Identity, b: Identity)
    requires (seated == a || SameDevice(seated, a)) && seated.Matches(b) && b.Identifiable()
    requires !a.transport.Unknown?
    ensures SameDevice(a, b)
  {
  }

  /** An attachment fails only for a device of no transport, or a new one when all
      eight seats are given out. */
  lemma AttachSucceedsIff(s: State, a: Identity)
    requires Ok(s)
    ensures AttachEndpoint(s, a).handle != INVALID <==>
            && !a.transport.Unknown?
            && (|s.endpoints| < 8 || exists k :: 0 <= k < |s.endpoints| && SameDevice(s.endpoints[k].identity, a))
  {
    forall k | 0 <= k < |s.endpoints|
      ensures a.Identifiable() && s.endpoints[k].identity.Matches(a) <==> SameDevice(s.endpoints[k].identity, a)
    {
      MatchesMeans(s.endpoints[k].identity, a);
      IdentifiedByOther(s.endpoints[k].identity, a);
    }
    hide Told, Settled, SetEndpointState, SameDevice, Identity.Matches, Identity.Identifiable;
  }

  lemma IdentifiedByOther(seated: Identity, a: Identity)
    ensures a.Identifiable() && seated.Matches(a) ==> seated.Identifiable()
  {
  }

  // --- States ---

  /** The device attached is available, and so is every port of it; no other device
      or port changes. */
  lemma AttachedIsAvailable(s: State, a: Identity)
    requires Ok(s) && AttachEndpoint(s, a).handle != INVALID
    ensures var first := AttachEndpoint(s, a);
            var t, seat := first.state, first.handle;
            && seat < |t.endpoints| && t.endpoints[seat].state == Available
            && |t.endpoints| == (if seat == |s.endpoints| then seat + 1 else |s.endpoints|)
            && (seat == |s.endpoints| ==> t.endpoints[seat].identity == a)
            && (forall k :: 0 <= k < |s.endpoints| && k != seat ==> t.endpoints[k] == s.endpoints[k])
            && |t.ports| == |s.ports|
            && forall i :: 0 <= i < |s.ports| ==>
                 t.ports[i] == if s.ports[i].endpoint == seat then s.ports[i].(state := Available) else s.ports[i]
  {
    var seat := SeatFor(s, a).value;
    AllocatedOk(s, a);
    SetEndpointStateOk(Allocated(s, seat, a), seat, Available);
    hide Told, Settled, SetEndpointState, Seated;
  }

  /** The device detached is disconnected, with every port of it; its seat stays. */
  lemma DetachedIsGone(s: State, endpoint: Port)
    requires Ok(s) && endpoint < |s.endpoints|
    ensures var t := DetachEndpoint(s, endpoint);
            && t.endpoints == s.endpoints[endpoint := s.endpoints[endpoint].(state := Disconnected)]
            && |t.ports| == |s.ports|
            && forall i :: 0 <= i < |s.ports| ==>
                 t.ports[i] ==
                 if s.ports[i].endpoint == endpoint then s.ports[i].(state := Disconnected) else s.ports[i]
  {
    SetEndpointStateOk(s, endpoint, Disconnected);
    hide Ok, SetEndpointState;
  }

  /** A port's seat: the one it has, or the next; and none for an unknown device, a
      seventeenth port, or when all 32 are given out. */
  lemma PortSeat(s: State, endpoint: Port, direction: Direction, index: Byte)
    requires Ok(s)
    ensures var r := AttachPort(s, endpoint, direction, index);
            var seated := exists i :: 0 <= i < |s.ports| && s.ports[i].endpoint == endpoint
                                   && s.ports[i].direction == direction && s.ports[i].index == index;
            && (r.handle != INVALID <==> endpoint < |s.endpoints| && index < 16 && (seated || |s.ports| < 32))
            && (r.handle != INVALID ==>
                  && r.state.endpoints == s.endpoints && r.handle < |r.state.ports|
                  && r.state.ports[r.handle] == PortSlot(endpoint, direction, index, s.endpoints[endpoint].state)
                  && r.state.ports == if seated then s.ports else s.ports + [r.state.ports[r.handle]])
            && (r.handle == INVALID ==> r.state == s)
  {
    if endpoint < |s.endpoints| && index < PORTS_PER_ENDPOINT {
      var k := FindPort(s.ports, endpoint, direction, index, 0);
      if k < |s.ports| { FoundPortOk(s, k); }
    }
    hide Told, SetPortState;
  }

  // --- Notices ---

  /** The first n ports of an endpoint, each told to have moved. */
  function PortsTold(ports: seq<PortSlot>, endpoint: nat, state: PortState, n: nat): seq<Notice>
    requires n <= |ports|
  {
    if n == 0 then []
    else
      PortsTold(ports, endpoint, state, n - 1)
      + if ports[n - 1].endpoint == endpoint then [PortStateChanged(endpoint, n - 1, state)] else []
  }

  lemma {:induction false} FollowTells(s: State, endpoint: nat, state: PortState, n: nat)
    requires n <= |s.ports|
    requires forall i :: 0 <= i < |s.ports| && s.ports[i].endpoint == endpoint ==> s.ports[i].state != state
    ensures Follow(s, endpoint, state, n).notices == s.notices + PortsTold(s.ports, endpoint, state, n)
  {
    if n > 0 {
      FollowTells(s, endpoint, state, n - 1);
      FollowDoes(s, endpoint, state, n - 1);
    }
  }

  /** A change of a device's state is told once for the device and then once for
      each of its ports, in the order of their seats; no change is not told. */
  lemma ChangeIsTold(s: State, endpoint: nat, state: PortState)
    requires Ok(s) && endpoint < |s.endpoints|
    ensures SetEndpointState(s, endpoint, state).notices ==
            s.notices + if s.endpoints[endpoint].state == state then []
                        else [EndpointStateChanged(endpoint, state)]
                             + PortsTold(s.ports, endpoint, state, |s.ports|)
  {
    var slot := s.endpoints[endpoint];
    if slot.state != state {
      FollowTells(s.(endpoints := s.endpoints[endpoint := slot.(state := state)])
                   .Tell(EndpointStateChanged(endpoint, state)), endpoint, state, |s.ports|);
    }
    hide Follow, Told, Seated;
  }
}
