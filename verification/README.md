# EspMidi's portable core, in Dafny

EspMidi routes MIDI between transports on a small board. Its portable core is
a lock-free queue in front of a three-stage router, byte and USB codecs on
both sides, a registry of ports, and a few helpers for controls and clocks.
This project models that core and proves what its documentation promises of
it. Where the code does not keep a promise, the exact condition under which it
does is proved instead.

One event alphabet runs through everything: a short message, the start of a
System Exclusive stream, one byte of it, its end. `Flatten` erases how a stream
was cut into chunks, and `Track` says whether events are well bracketed: inside
a stream nothing but its own bytes and System Real-Time.

| file | what is in it |
|---|---|
| `Midi.dfy`, `Arithmetic.dfy` | messages, events, status classification; division facts |
| `Parser.dfy`, `RunningStatus.dfy` | bytes to messages, and the one-byte transducer the parser refines |
| `Serializer.dfy` | messages to bytes; round trips; transports that refuse writes |
| `WireFormat.dfy` | parser and serializer in literal bytes |
| `Ring.dfy` | the multi-producer queue as interleaved atomic steps |
| `Router.dfy` | the pipeline and the stream rules as reference steps over values |
| `RouterTrace.dfy` | rule 3: the language of each output's history |
| `RouterStreams.dfy` | rule 1 as non-interference, rule 2 |
| `RouterPlans.dfy` | which outputs a message is offered to, said of the routes |
| `RouterStages.dfy` | stages and deliveries, outcome by outcome and counter by counter |
| `RouterHands.dfy` | exactly what a short message makes each output be handed |
| `RouterOwners.dfy`, `RouterOrphans.dfy` | who holds an output, and each way a claim or an end is lost |
| `RouterCounts.dfy` | the counters against what the sinks really took |
| `RouterNotes.dfy` | no stuck notes |
| `RouterWire.dfy` | from wire to wire |
| `RouterMachine.dfy` | ring and router as one interleaved machine |
| `RouterClass.dfy` | the router with its fields, updated in place |
| `Filter.dfy` | filters, transforms, value maps |
| `Usb.dfy`, `UsbWire.dfy`, `UsbClasses.dfy` | USB MIDI 1.0 packets (section 4 and Table 4-1 of the USB Device Class Definition for MIDI Devices, Release 1.0) |
| `Registry.dfy`, `RegistrySeats.dfy` | endpoints, ports and seats |
| `Control.dfy` | clock generator, relative encoder, analog mapping |

The source's classes are classes here: their methods are proved against
functions on values, and the theorems are about those functions. So
`Parser.Parse` is the zero-copy loop and refines `Run`, one byte at a time;
`Router.Update` refines a run of `Next` steps; `UsbPacketEncoder.Encode` writes
its buffers in place and refines `EncodeMessage`.

What such a function computes is fixed a second time, without it, where the
theorems about it would not notice a change: `WireFormat` and `UsbWire` in literal
bytes, `RouterPlans.OffersIff` over the fields of routes and groups,
`Filters.TransformMeans` and `AcceptsIff` over the fields of messages,
`RouterStages` counter by counter, `RegistrySeats.SameSeatIff` over identities.

## Where the code and its documentation differ

- docs/ROUTING.md:85 says routes run in the order they were added. A removed
  route's slot is taken over by the next one added, which then runs in the old
  one's place. `AddedLastIff` says exactly when a new route runs last;
  `AReusedSlot` is an input.
- docs/ROUTING.md:208 says a message that was not delivered is always counted
  somewhere. A continuation whose stream no output holds, and a message of no
  port, leave no count. `UncountedIff` says exactly which messages do;
  `AStrayGoesUncounted` is an input.
- An output is meant to be held only while a stream runs to it. A claim outlives
  its stream in two ways: the sink refuses the start (the output is claimed before
  its sink is called), or the source starts again while its stream is open, as when
  the end was lost to a full queue: the held outputs reject the second start and the
  list of targets is overwritten. `OrphanedIff` and `ClaimsBackedIff` are exact for
  any routes, rules and sinks; `AnOrphan` and `ARestartedDump` are inputs. From then
  on the output hears System Real-Time only, until its own port goes away
  (`OrphanStays`).
- docs/ROUTING.md:123-125 says a disconnect closes a stream in progress. A start
  that is still queued when its source goes away is dispatched afterwards, and
  nothing ends it. `DisconnectCoversIff` is exact; `AnUnendedDump` is an input.
- `enqueue` may refuse although there is room, when the tail a caller loaded has
  been overtaken (`RefusesWithRoom`; `RefusedIff` is exact).
- `ValueMap` sorts its input range, so a reversed one changes nothing
  (`InputReversalIgnored`); only a reversed output range reverses.

## Model

| member | source | states |
|---|---|---|
| ByteParser.Parser.Parse | src/EspMidiParser.h:66-143 | the zero-copy parser emits messages that stand for exactly the events of the one-byte transducer, ends in its state, and every message is 7-bit with its status resolved |
| ByteParser.Parser.Scan | src/EspMidiParser.h:79-137 | at any point of the byte loop, what has been emitted plus the run still in flight is the transducer's output |
| ByteParser.Parser.Interrupt | src/EspMidiParser.h:84-136 | a byte that is not payload hands over the run it interrupts first, and closes the stream unless it is System Real-Time |
| ByteParser.Parser.HandleByte | src/EspMidiParser.h:146-223 | a byte outside a stream does what the transducer does: System Common cancels running status, data without a status is dropped |
| ByteParser.Parser.Reset | src/EspMidiParser.h:49-57 | a reset forgets status and stream, emits nothing, and leaves only the two stale data bytes |
| WireFormat.TwoDataBytes | src/EspMidiMessage.h:128-161 | from any reachable state outside a stream, three bytes of which the first is 0x80..0xbf, 0xe0..0xef or 0xf2 are one message with those fields, and all but 0xf2 leave running status |
| WireFormat.OneDataByte | src/EspMidiMessage.h:134-152 | two bytes of which the first is 0xc0..0xdf, 0xf1 or 0xf3 are one message |
| WireFormat.NoDataBytes | src/EspMidiParser.h:165-193 | 0xf6 is a message by itself; 0xf4, 0xf5 and a stray 0xf7 are none; all of them cancel running status |
| WireFormat.RealTimeByte | src/EspMidiParser.h:84-95 | 0xf8..0xff is a message by itself from any state, and changes no state |
| WireFormat.RunningData | src/EspMidiParser.h:195-222 | data bytes alone are a message of the running status, one or two of them as that status takes, and nothing without one |
| WireFormat.StreamBytes | src/EspMidiParser.h:97-134 | 0xf0, 7-bit bytes and 0xf7 are one stream of exactly those bytes |
| WireFormat.OneShortMessage | src/EspMidiParser.h:225-243 | what the parser emits for one short event is one message of its port with that status, that data and the length that status takes |
| ByteParser.RunOk | src/EspMidiParser.h:66-143 | every reachable state keeps the parser's invariant |
| ByteParser.CuttingIsInvisible | src/EspMidiParser.h:66-143 | however the bytes are cut into buffers, events and final state are those of the bytes in one piece |
| ByteParser.EventsBracketed | src/EspMidiParser.h:97-134 | from any reachable state and for any bytes, streams come out bracketed with nothing but System Real-Time inside |
| ByteParser.RealTimeTransparent | src/EspMidiParser.h:84-95 | deleting every 0xF8..0xFF byte deletes exactly the real-time messages; state and all other events are untouched, mid-message and mid-stream alike |
| RunningStatus.RunningStatusIsInvisible | src/EspMidiParser.h:146-223 | any sender may leave out repeated status bytes wherever running status allows, and the parser reports the same events |
| RunningStatus.OrphansAreDropped | src/EspMidiParser.h:197-204 | data bytes with no status to belong to change nothing and report nothing, however many |
| ByteSerializer.Serializer.Serialize | src/EspMidiParser.h:305-355 | which bytes reach the wire, whether the call succeeds and whether the stream is open after it, for every pattern of refused writes |
| ByteSerializer.Serializer.CloseStream | src/EspMidiParser.h:360-370 | an open stream is ended by one 0xF7 and is closed even if that is refused |
| WireFormat.ShortBytes | src/EspMidiMessage.h:271-297 | a short message is written as its status and one, two or no data bytes by literal status ranges, 7 bits each; an undefined status or a stream byte is not written |
| WireFormat.CallSucceedsIff | src/EspMidiParser.h:305-355 | a call succeeds if and only if the message can be written and every write of it is taken, and the stream is open after it exactly as far as it got |
| ByteSerializer.WrittenIsEncoded | src/EspMidiParser.h:305-355 | to a transport that takes everything, the bytes of a message are the bytes of its events, whatever the chunking |
| ByteSerializer.Reparse | src/EspMidiParser.h:305-355 | serialized events parse back to themselves up to where a start is reported, from any reachable parser state that agrees on being in a stream, mid-message included |
| ByteSerializer.RoundTrip | src/EspMidiParser.h:305-355 | the bytes of a bracketed sequence parse back to exactly that sequence if and only if no start waits for its first byte |
| ByteSerializer.AnOvertakenStart | src/EspMidiParser.h:245-259 | a start with a clock before its first byte comes back behind that clock |
| ByteSerializer.ParsedIsCanonical | src/EspMidiParser.h:245-259 | what is parsed from any bytes never has a start waiting for its first byte |
| ByteSerializer.ReparseParsed | src/EspMidiParser.h:66-143 | what is parsed from arbitrary bytes serializes to bytes that parse to the same events |
| ByteSerializer.NoPhantomMessages | src/EspMidiParser.h:305-355 | however writes are refused, a receiver hears exactly the events of the writes taken, in order, with an end where a later status byte cuts a stream short and each start with its first byte: its streams are bracketed, its short messages are those taken, and payload never reaches it as notes |
| Ring.StepKeeps | src/EspMidiRouter.h:538-578 | every atomic step of every producer and of the pass keeps the ring's invariant |
| Ring.SlotsDistinctIffDivides | src/EspMidiRouter.h:850-853 | in-flight reservations keep distinct slots across every wrap of the 32-bit indices if and only if the capacity divides 2^32 |
| Ring.EveryInterleaving | src/EspMidiRouter.h:281-311 | in every interleaving the dispatched entries are exactly a prefix of the reservations, in order, each whole and once; per producer a prefix of its accepted calls; and every call is reserved, counted as refused or still under way |
| Ring.HistoryIsAccepted | src/EspMidiRouter.h:538-578 | one producer's reservations, in order, are exactly the calls that returned true |
| Ring.NoSlotShared | src/EspMidiRouter.h:302-307 | the slot being dispatched is nobody's to write, and no two producers write one slot |
| Ring.OccupancyExact | src/EspMidiRouter.h:543-551 | the 32-bit difference of the indices is the number of entries in flight, at most the capacity |
| Ring.StaleNeverWins | src/EspMidiRouter.h:552-556 | a compare-and-swap succeeds exactly for the up-to-date tail, and only where there is room |
| Ring.RefusedIff | src/EspMidiRouter.h:543-551 | a call is refused exactly when the tail it loaded is a full ring ahead of the head or has fallen behind it |
| Ring.RefusesWithRoom | src/EspMidiRouter.h:543-551 | there is a schedule in which a call is refused although the queue is empty |
| Ring.PassBounded | src/EspMidiRouter.h:285-289 | a pass never dispatches anything reserved after its own snapshot, however long producers go on |
| Ring.RestsIff | src/EspMidiRouter.h:291-299 | a pass goes to rest if and only if its snapshot is used up or the next entry is still being written; anything published in between it dispatches |
| Routing.RunStage | src/EspMidiRouter.h:509-536 | a stage never alters a chunk, never drops a continuation, and never makes a chunk of a short message or the reverse |
| RouterTrace.EveryHistoryIsDisciplined | src/EspMidiRouter.h:714-774 | rule 3 over every run, sink answer, source and edit: each output's history is in the stream language, and its owner is where that history stands |
| RouterTrace.DisciplinedFromTheStart | src/EspMidiRouter.h:714-837 | so it is over every run from power-on, and a history is cut only by that output's own port going away |
| RouterTrace.PlanRoutesFaithful | src/EspMidiRouter.h:642-677 | whatever the routes, a chunk is offered to outputs as it is and a short message as a short message |
| RouterPlans.OffersIff | src/EspMidiRouter.h:642-711 | a message is offered to an output if and only if a used, enabled route heeds its port, aims at that output, does not lead back to its endpoint unless allowed, and keeps it, all said of the fields of routes, ports and groups |
| RouterHands.DispatchHands | src/EspMidiRouter.h:601-774 | a short message makes each output be handed exactly what its routes and stages make of it, in route order, from any state: all of it if the output is in no stream, else its System Real-Time |
| RouterHands.UnheededIsSilent | src/EspMidiRouter.h:642-683 | a message of an input that no route in force listens to changes no history, claim or stream and is counted as having no route |
| RouterHands.UnledIsSilent | src/EspMidiRouter.h:647-677 | an output no route in force leads to keeps its history and its claim |
| RouterStages.StageIsThree | src/EspMidiRouter.h:509-536 | a stage is its filter, then its transform on what is left, then its callback on what is left of that |
| RouterStages.FilterAlone | src/EspMidiRouter.h:515-520 | a filter meets short messages and starts, drops what it does not accept and keeps the rest as it is |
| RouterStages.TransformAlone | src/EspMidiRouter.h:521-529 | a transform meets short messages only |
| RouterStages.CallbackAlone | src/EspMidiRouter.h:530-534 | a callback meets short messages only; its drop drops and its answer is what goes on |
| RouterStages.NoRulesKeep | src/EspMidiRouter.h:509-536 | a stage with no rules keeps every message as it is |
| RouterStages.DeliverDropped | src/EspMidiRouter.h:721-724 | a message the output's own rules drop moves the counter of the rule that did, and nothing else |
| RouterStages.DeliverRefused | src/EspMidiRouter.h:726-749 | a second start is counted as rejected, a short message in a stream as blocked, a foreign continuation not at all; nothing else changes |
| RouterStages.DeliverSent | src/EspMidiRouter.h:751-773 | all else is handed to the sink once, its answer counted, the output held by a start and freed by an end, and nothing else changes |
| RouterStages.DispatchDropped | src/EspMidiRouter.h:610-614 | a message its input's rules drop moves the counter of the rule that did, and nothing else |
| RouterStages.RouteDropped | src/EspMidiRouter.h:655-659 | so does one that a route's rules drop, on that route |
| RouterStreams.StreamKeepsItsCourse | src/EspMidiRouter.h:619-640 | rule 1: after a start, what an output receives of the stream depends on that source's continuations and on the two ports going away, and on nothing else: no edit, sink answer or other source's traffic |
| RouterStreams.ClosedStaysSilent | src/EspMidiRouter.h:619-625 | a stream that is not open reaches no output until a new start |
| RouterStreams.DisconnectClosesOnce | src/EspMidiRouter.h:776-812 | rule 2: when an input goes away with its stream open, whatever port events, arrivals and edits come before the next pass, each output that still holds the stream then is handed exactly one empty end, the stream is closed and those outputs freed, and nothing of that source follows until a new start |
| RouterStreams.DisconnectCoversIff | src/EspMidiRouter.h:825-829 | the next pass after a disconnect leaves the stream closed if and only if the source is recorded by then or has none open; one whose stream was open when it went is recorded, one whose start was still queued is not, unless it goes again |
| RouterStreams.PassFrees | src/EspMidiRouter.h:778-812 | a pass frees every output that holds the stream of a recorded input |
| RouterOwners.BeginStart | src/EspMidiRouter.h:642-693 | over any routes and rules, exactly which outputs a start claims, each being handed it once and no other output at all, and which its stream is recorded on |
| RouterOwners.OrphanedIff | src/EspMidiRouter.h:687-772 | a start leaves an output held without a stream if and only if it claims the output and the sink refuses, or its source held the output already and the start is routed anywhere |
| RouterOwners.StepBackedIff | src/EspMidiRouter.h:601-837 | any step at all keeps every claim backed if and only if it is no start, or one whose claimed sinks all take it and whose source holds nothing, or leads nowhere |
| RouterOwners.ClaimsBackedIff | src/EspMidiRouter.h:737-772 | over any run every held output is, all along, a target of its owner's open stream if and only if every start is such a one |
| RouterOwners.ClaimsBackedFromTheStart | src/EspMidiRouter.h:737-772 | so it is over every run from power-on |
| RouterOwners.EveryClaimIsBacked | src/EspMidiRouter.h:737-772 | in particular claims are backed when no source restarts an open stream and sinks accept starts |
| RouterOwners.ClaimsAreFreed | src/EspMidiRouter.h:635-639 | from a state where claims are backed, a source's end chunk leaves it holding no output; so does the next pass after its disconnect, whatever honoured steps come between, when its stream was open then or nothing of it starts in between |
| RouterOwners.PassFreesIff | src/EspMidiRouter.h:778-812 | where claims are backed, a pass leaves an input holding nothing if and only if it held nothing or is recorded as gone |
| RouterCounts.UncountedIff | docs/ROUTING.md:206-208 | a dispatched message goes uncounted exactly when it comes from no port or is a continuation no output holds the stream of |
| RouterCounts.AStrayGoesUncounted | src/EspMidiRouter.h:622-625 | a continuation that leaves neither history nor count |
| RouterCounts.BooksBalance | src/EspMidiRouter.h:751-767 | over any run, `delivered` and `sendFailed` are exactly the handovers sinks took and refused |
| RouterCounts.BooksBalanceFromTheStart | src/EspMidiRouter.h:751-767 | so they are over every run from power-on |
| RouterCounts.NoRouteIff | src/EspMidiRouter.h:642-683 | a short message or a start is counted as having no route if and only if no enabled route that accepts its source keeps it and reaches an output, so a drop by a route's own filter can count here too |
| RouterOrphans.RefusedStartOrphans | src/EspMidiRouter.h:737-767 | on a free single route a start leaves a claim no stream backs if and only if the sink refuses it |
| RouterOrphans.OrphanStays | src/EspMidiRouter.h:737-772 | such a claim is freed by nothing but the output's own port going away; until then only System Real-Time is handed over |
| RouterOrphans.RestartOrphans | src/EspMidiRouter.h:687-692 | so does a start over its own open stream, though every sink takes everything |
| RouterOrphans.QueuedStartIsNotEnded | src/EspMidiRouter.h:825-829 | a start dispatched after its source went away is open after the next pass, its output held and handed no end |
| RouterOrphans.AnOrphan | src/EspMidiRouter.h:737-757 | a dump to a congested sink leaves one |
| RouterOrphans.ARestartedDump | src/EspMidiRouter.h:687-692 | two dumps, the first without its end, leave one |
| RouterOrphans.AnUnendedDump | src/EspMidiRouter.h:825-829 | a dump queued when its cable is pulled is sent and never ended |
| RouterNotes.NoStuckNotes | src/EspMidiRouter.h:642-693 | with declarative rules and filters that treat both note kinds alike, an output in no stream is handed the same notes, one by one, for a note and for its release, over any routes, even if scaling makes the velocity 0; and all it is handed for a release are releases |
| RouterNotes.StageKeepsPairs | src/EspMidiFilter.h:186-300 | a stage drops both of a note and its release or keeps both as one note |
| RouterNotes.StageKeepsReleases | src/EspMidiFilter.h:273-282 | a stage without user code keeps a release a release |
| RouterWire.SplitFlatten | src/EspMidiRouter.h:257-274 | cutting a chunk to 48-byte entries changes no event |
| RouterWire.SplitAll | src/EspMidiRouter.h:257-274 | every entry fits its slot, keeps its port, and carries a byte or an end |
| RouterWire.PiecesCount | src/EspMidiRouter.h:257-274 | a chunk becomes one entry for each 48 bytes begun, and one if it is empty |
| RouterWire.PieceIs | src/EspMidiRouter.h:257-274 | each entry but the last is full and has its own part of the payload; only the first may start the stream and only the last end it; no other field changes |
| RouterWire.RouteIsTransparent | src/EspMidiRouter.h:601-774 | over one plain route, bracketed traffic is handed over exactly as queued, however the passes fall |
| RouterWire.WireIsEncoded | src/EspMidiParser.h:305-355 | serializing bracketed entries writes the bytes of their events |
| RouterWire.WireToWire | src/EspMidiRouter.h:243-311 | any bytes, parsed, split, queued, routed over any passes and serialized, parse back to the events the original bytes stood for |
| RouterClass.AddedLastIff | src/EspMidiRouter.h:430-462 | a new route is met after all earlier ones if and only if no route in use lies behind the first free slot |
| RouterClass.AReusedSlot | src/EspMidiRouter.h:436-444 | a third route, added after the first of two was removed, is met before the second |
| RouterClass.PlanFollowsSlots | src/EspMidiRouter.h:647-653 | a message meets exactly the routes in use, in the order of their slots |
| RouterClass.FirstFree | src/EspMidiRouter.h:436-444 | the lowest slot not in use, or the end of the slots |
| RouterClass.Router.AddRoute | src/EspMidiRouter.h:430-462 | a route takes the first free slot; fails exactly for an invalid input port or a full table, and then changes nothing |
| RouterClass.Router.RemoveRoute | src/EspMidiRouter.h:122-130 | frees exactly the named slot, if it was in use |
| RouterClass.AdmittedPrefix | src/EspMidiRouter.h:257-274 | while nothing else touches the queue, what fits of a message's pieces is queued in order and all the rest is counted as refused |
| RouterClass.Router.Receive | src/EspMidiRouter.h:243-275 | while no pass and no other producer touches the queue: queues the longest fitting prefix of the message's pieces, counts each other one, and succeeds exactly when all fit and the port is valid |
| RouterClass.Router.ReceiveChunk | src/EspMidiRouter.h:255-274 | under the same proviso, a chunk is queued piece by piece as if all its pieces were offered in order, and succeeds exactly when none was refused |
| RouterClass.Router.Update | src/EspMidiRouter.h:281-311 | while no producer touches the queue, one pass is the run of: close what is pending, then dispatch each queued entry in order |
| RouterMachine.EveryScheduleIsARun | src/EspMidiRouter.h:243-311 | queue and router interleaved with any number of producers, port events and edits: the router has been through a run of its reference steps, and what reached it is, in order and whole, a prefix of what was reserved |
| RouterMachine.EveryScheduleIsSafe | src/EspMidiRouter.h:243-311 | so under every schedule from power-on each output's history obeys the stream rules and is cut only by its own port, and the books balance |
| RouterMachine.ScheduledTransparency | src/EspMidiRouter.h:281-311 | under every schedule one plain route has handed over exactly what was dispatched of bracketed traffic, unchanged and in order |
| RouterMachine.ScheduledWireToWire | src/EspMidiRouter.h:243-311 | wire to wire under every schedule in which nothing of the message stream is refused: when the queue is drained, the serialized bytes parse to the events of the original bytes |
| RouterClass.Router.DispatchEntry | src/EspMidiRouter.h:601-693 | dispatching in place refines the reference step |
| RouterClass.Router.ReplayStream | src/EspMidiRouter.h:619-640 | a continuation is offered to each target in order and its end closes the stream |
| RouterClass.Router.BeginMessage | src/EspMidiRouter.h:642-693 | the loops over routes and outputs refine the message's plan; a start records exactly the outputs that took it |
| RouterClass.Router.OfferRoute | src/EspMidiRouter.h:647-677 | one route's loop over outputs refines that route's plan |
| RouterClass.Router.DeliverTo | src/EspMidiRouter.h:714-774 | stage three, claim, send, counters and release, in the order of the reference step |
| RouterClass.Router.RunRules | src/EspMidiRouter.h:509-536 | filter, transform and callback in that order, with the counter each drop moves |
| RouterClass.Router.ClosePendingStreams | src/EspMidiRouter.h:778-812 | ends the streams of exactly the inputs recorded, then forgets them |
| RouterClass.Router.OnPortEvent | src/EspMidiRouter.h:814-837 | records an open stream's input, frees the port's own claim, and sends nothing |
| Filters.NormalizeRoundTrip | src/EspMidiFilter.h:77-90 | 7-bit values survive the trip to 16 bits and back |
| Filters.InterpolateFits | src/EspMidiFilter.h:145-157 | no 16-bit operands overflow the 32-bit product |
| Filters.MapReachesItsRange | src/EspMidiFilter.h:124-158 | a mapped value lies between the output endpoints, and the input endpoints hit them |
| Filters.MapMonotone | src/EspMidiFilter.h:124-158 | a map rises with an ascending output range and falls with a reversed one |
| Filters.MapNearLine | src/EspMidiFilter.h:124-158 | a mapped value is within half a unit of the straight line |
| Filters.InputReversalIgnored | src/EspMidiFilter.h:128-135 | swapping the input endpoints changes nothing |
| Filters.TransformStaysOnTheWire | src/EspMidiFilter.h:247-300 | a transform keeps the command and the wire's ranges or drops the message, and leaves chunks and system messages alone |
| Filters.TransformMeans | src/EspMidiFilter.h:247-300 | a kept channel message: the note shifted by transpose and offset, the controller replaced where set, velocity (unless 0), controller value and pressures put through their own maps, the channel set and offset, everything else unchanged; dropped exactly when the note leaves 0..127 |
| Filters.TransformLeaves | src/EspMidiFilter.h:249-252 | streams and system messages pass as they are |
| Filters.ImageBy | src/EspMidiFilter.h:77-163 | a map leaves 7-bit values alone while disabled; else a value is widened, put on the line between the output ends, and narrowed to the nearest |
| Filters.MapKeepsOrder7 | src/EspMidiFilter.h:160-163 | 7-bit values keep their order under a map, or all reverse it |
| Filters.KindIs | src/EspMidiFilter.h:46-75 | the kind of every status byte; velocity 0 makes a note-on a note-off |
| Filters.AcceptsIff | src/EspMidiFilter.h:186-210 | a filter accepts exactly the kinds it names, on its channels for channel messages, within its note range for notes and polyphonic pressure and its controller range for control changes |
| Filters.FilterKeepsPairs | src/EspMidiFilter.h:186-210 | a filter that names both note kinds or neither cannot separate a note from its release |
| Filters.TransformKeepsPairs | src/EspMidiFilter.h:247-300 | a transform drops both of a note and its release or keeps both as one note |
| Filters.TransformKeepsReleases | src/EspMidiFilter.h:273-282 | a transform never makes a sounding note of a release: velocity 0 is not scaled |
| UsbPackets.UsbRoundTrip | src/EspMidiUsbPacket.h:310-381 | sixteen encoders and one decoder, any interleaving: each cable gets back its own short messages and its own stream, all but at most two bytes held back and nothing once the stream ends; no message overtakes more than two bytes of the stream and none falls behind |
| UsbWire.ShortPacket | src/EspMidiUsbPacket.h:320-332 | the one packet of a short message: cable in the high nibble, the code Table 4-1 gives its status in the low one, status and masked data, zeros beyond, and as many bytes as the table gives that code |
| UsbWire.CinLengthsAreTheTable | src/EspMidiUsbPacket.h:52-76 | the sixteen lengths of Table 4-1 |
| UsbWire.StreamPackets | src/EspMidiUsbPacket.h:334-395 | a whole stream, from any state, is its bytes with framing in threes: code 4 on all packets but the last, 5 to 7 there by its length, zeros beyond |
| UsbWire.StrayIsRefused | src/EspMidiUsbPacket.h:338-351 | a chunk of a stream never started is not encoded |
| UsbWire.DecodedShort | src/EspMidiUsbPacket.h:240-264 | a packet outside streams is the message of its cable's port that its status byte begins, by literal status ranges |
| UsbWire.ReservedCodes | src/EspMidiUsbPacket.h:153-171 | packets of the two reserved codes report and change nothing |
| UsbWire.DecodedMiddle | src/EspMidiUsbPacket.h:175-218 | the packets in the middle and at the end of a stream, code by code |
| UsbWire.DecodedEdges | src/EspMidiUsbPacket.h:175-218 | a stream's first packet, a lone end, and what is dropped outside a stream |
| UsbWire.CableKeepsItsPort | src/EspMidiUsbPacket.h:240-264 | over any packets every message decoded on a cable, short or chunk, has that cable's port, which stays |
| UsbWire.BusKeepsItsPorts | src/EspMidiUsbPacket.h:153-219 | over any packets of sixteen cables each message has the port its own cable had at the start, and every cable keeps its port |
| UsbPackets.CablesAreIndependent | src/EspMidiUsbPacket.h:153-219 | each cable is decoded as if the others were not there |
| UsbPackets.LinkedEvents | src/EspMidiUsbPacket.h:334-395 | from every reachable pending state, the decoder has all short messages and all the stream but the bytes held back |
| UsbPackets.DecodedIsBracketed | src/EspMidiUsbPacket.h:175-218 | whatever packets arrive, a cable's stream is reported bracketed |
| UsbPackets.PacketsOfBytes | src/EspMidiUsbPacket.h:223-234 | whole packets survive the trip to bytes and back |
| UsbPackets.Stamped | src/EspMidiUsbPacket.h:310-332 | an encoder puts its own cable number on every packet and no other |
| UsbPackets.MessageIsEvents | src/EspMidiUsbPacket.h:334-381 | in bracketed order, encoding a chunk is encoding its events, so its boundaries do not show |
| UsbClasses.UsbPacketEncoder.Encode | src/EspMidiUsbPacket.h:310-317 | writes the message's packets to the front of the buffer, whole and within the announced size, and leaves the rest alone; writes and changes nothing when the buffer is too small |
| UsbClasses.UsbPacketEncoder.EncodeChunk | src/EspMidiUsbPacket.h:334-381 | a stray continuation is refused; any other chunk is packed in threes with the remainder held back |
| UsbClasses.UsbPacketEncoder.EncodeShort | src/EspMidiUsbPacket.h:320-332 | one packet for a message of fixed length, none for another, and the held-back bytes are untouched |
| UsbClasses.UsbPacketEncoder.PutLast | src/EspMidiUsbPacket.h:357-380 | the closing packet carries what was held back, its code number saying how much, and the state is quiet again |
| UsbClasses.MaxIsEnough | src/EspMidiUsbPacket.h:295-305 | the announced size is 4 for a short message; for a chunk it has room for payload, two held-back bytes and both framing bytes, rounded up to whole packets |
| UsbClasses.UsbPacketDecoder.DecodePacket | src/EspMidiUsbPacket.h:153-219 | a packet moves its own cable's state and no other, and reports that cable's message |
| UsbClasses.UsbPacketDecoder.DecodeStreamPacket | src/EspMidiUsbPacket.h:178-218 | one packet of a stream becomes one chunk without framing bytes, started, continued or ended as the cable's state says; outside a stream only a start is taken |
| UsbClasses.UsbPacketDecoder.Decode | src/EspMidiUsbPacket.h:223-234 | a transfer is decoded packet by packet; a trailing part of one is ignored |
| UsbClasses.UsbPacketDecoder.ResetCable | src/EspMidiUsbPacket.h:123-129 | resets exactly the named cable |
| Registry.EveryRunIsOk | src/EspMidiPort.h:273-309 | after any calls each coordinate has one seat, each identifiable device one endpoint, each port its endpoint's state, and a listener who only heard the notices knows every port's state |
| Registry.RunKeeps | src/EspMidiPort.h:507-562 | handles are append-only and never change endpoint, direction or index |
| Registry.SeatComesBack | src/EspMidiPort.h:491-505 | an identifiable device gets its first seat back whatever happened in between, full tables included |
| Registry.StrangersGetFreshSeats | src/EspMidiPort.h:178-206 | a device that cannot be recognised gets a new seat every time until there are none left |
| Registry.PortComesBack | src/EspMidiPort.h:522-562 | a port of an endpoint keeps its handle for good |
| RegistrySeats.SameSeatIff | src/EspMidiPort.h:178-206 | two attachments, whatever came between, get one seat if and only if they are one device: same transport and index, and on a bus the same non-empty serial and ids |
| RegistrySeats.AttachSucceedsIff | src/EspMidiPort.h:273-297 | an attachment fails only without a transport, or for a new device when eight seats are given out |
| RegistrySeats.AttachedIsAvailable | src/EspMidiPort.h:284-297 | the attached device and all its ports are available, and no other device or port changes |
| RegistrySeats.DetachedIsGone | src/EspMidiPort.h:301-309 | the detached device and all its ports are disconnected, its seat stays, and nothing else changes |
| RegistrySeats.PortSeat | src/EspMidiPort.h:522-562 | a port gets the seat it has or the next, with its device's state; none for an unknown device, a seventeenth port, or when 32 are given out |
| RegistrySeats.ChangeIsTold | src/EspMidiPort.h:564-605 | a change of state is told once for the device and once for each of its ports in seat order, and no change is not told |
| Registry.PortRegistry.Attach | src/EspMidiPort.h:273-297 | attaching in place refines the reference step, notices in order included |
| Registry.PortRegistry.AttachSeat | src/EspMidiPort.h:522-562 | so does giving a port its seat |
| Registry.PortRegistry.Detach | src/EspMidiPort.h:301-309 | detaching marks the endpoint and its ports disconnected and keeps the seat; fails only for an unknown handle |
| Registry.PortRegistry.ChangeEndpoint | src/EspMidiPort.h:564-588 | a state change is told once per port it moves, in seat order |
| Controls.ClockGenerator.Update | src/EspMidiControl.h:539-558 | on wrapping 32-bit time a call sends exactly the ticks unbounded time calls for, never more than 24, and sets the same next tick |
| Controls.ClockGenerator.Start | src/EspMidiControl.h:517-522 | the first tick is due at once |
| Controls.PlayKeeps | src/EspMidiControl.h:539-558 | over any calls less than 2^31 microseconds apart every call is in step, and the schedule slips exactly when a call had more than 24 ticks due |
| Controls.ClockKeepsTimeIff | src/EspMidiControl.h:503-558 | the ticks sent since the start are floor((now - start) / period) + 1 if and only if no call had more than 24 due; the next is always one to `period` ahead |
| Controls.ChangeIsConserved | src/EspMidiControl.h:348-374 | in each relative mode a change is understood whole, in values 1..127 and in as few messages as can carry it |
| Controls.ConventionsAre | src/EspMidiControl.h:268-279 | the three relative conventions, value by value |
| Controls.JourneyIsConserved | src/EspMidiControl.h:308-354 | over any positions, what receivers add up is step times the distance travelled |
| Controls.Encoder.Turn | src/EspMidiControl.h:326-356 | the values sent for a turn, and the clamped absolute position in absolute mode |
| Controls.Encoder.Update | src/EspMidiControl.h:308-323 | the first position only says where the encoder is; each later one sends the difference |
| Controls.AnalogFollowsLine | src/EspMidiControl.h:219-248 | either range may be reversed: readings at or beyond rawMin and rawMax map to the two ends, in between within half a unit of the line, in order; a range of one point maps to the low end |

## Left out

- Port adapters (src/EspMidiUart.h, src/EspMidiEspUsbDevice.h, src/EspMidiEspUsbHost.h, src/EspMidiEspBle.h): plumbing over transports; two of them carry a copy of the ring, which `Ring` covers for any payload.
- Weak memory: the ring's steps are sequentially consistent atomic accesses; the `memory_order_*` arguments are not modelled. Fairness is not claimed, as the source disclaims it.
- A producer that sleeps through 2^32 reservations between loading the tail and its compare-and-swap is excluded from `Ring`.
- RouterClass.Router.Receive: the class's queue is what one task sees of it. With passes or other producers in between, a middle piece of a chunk can be refused and a later one queued; `Ring.EveryInterleaving` and `RouterMachine.EveryScheduleIsARun` say what then still holds.
- RouterClass.Router.Update: stopping at an entry still being written, and entries added during a pass, injected ones included, are in `Ring.RestsIff`, `Ring.PassBounded` and `RouterMachine`, not in this method.
- RouterMachine: a dispatch, a port event and an edit are each one step beside the ring's atomic steps; a port event in the middle of a dispatch is not modelled.
- The router's fixed tables are fields of type `seq`, a port mask is a `set`, and `logs` is the history the specification speaks of, which the source does not keep.
- A sink is any function of its output's history; an output without a sink is one that refuses.
- A stage callback is any function of a short message to another short message or a drop: it cannot turn one into a chunk, it has no memory of its own, and it does not edit the router while a pass is running.
- Stages and routes are read by the router as whole values; the setters that edit one field of them (src/EspMidiRouter.h:132-235) are the `Edited` step, which replaces the configuration by any other.
- Timestamps, message type, names, listeners' context pointers and the raw pointers of chunks: a chunk's payload is its bytes. A null chunk pointer with a length is not modelled.
- `Transform.apply` rewrites a message in place; here it is a function from message to message, since a message is a value.
- The registry's groups, listener removal and name copying: routing takes any view of ports and groups. The registry's notices are a list in order.
- `setCablePort` (src/EspMidiUsbPacket.h:133-139): a cable's port is part of its state and never changes between resets.
- Counters are unbounded here and 32 bits in the source.
- Controls.Encoder.Turn: detents times step is unbounded here, where the source's int32 product overflows undefined; the results of sends are not modelled, nor is editing the configuration between turns.
- Controls.Encoder.Update: the difference of two positions is likewise unbounded.
- `Analog` smoothing, hysteresis and resend, `Button`, `ControlOutput`, `ClockCounter` and the tempo conversions: easy members, or settling claims that do not hold for larger hysteresis.
- MIDI 2.0 reservations, the tools, the examples and the Python checks.
