/** The lock-free queue between the transports' tasks and the sketch's: any number
    of producers in `enqueue`, one consumer in `update`, interleaved one atomic
    access at a time. Memory steps are sequentially consistent.

    Indices are 32-bit words. The unbounded counters they stand for are carried
    beside them: `history` is every reservation ever won, in order, and `popped`
    counts the entries whose slot has been given back. */
module Ring {
  import opened Arithmetic
  import opened Midi

  /** A free-running index as the 32-bit word holding it. */
  function Word(k: nat): nat { k % TWO32 }

  /** The unsigned 32-bit difference a - b. */
  function Minus(a: nat, b: nat): nat { (a + TWO32 - b % TWO32) % TWO32 }

  /** The slot index k selects in a ring of `cap`. */
  function SlotOf(k: nat, cap: nat): nat
    requires cap > 0
    ensures SlotOf(k, cap) < cap
  {
    k % cap
  }

  /** `None` is a slot that is being written: its bytes mean nothing. */
  datatype Slot<+T> = Slot(ready: bool, content: Option<T>)

  datatype Producer<+T> =
    | Idle
    | Loaded(v: T, reserved: nat, seen: nat)   // the tail has been read
    | Checked(v: T, reserved: nat, seen: nat)  // there was room; about to compare-and-swap
    | Claimed(v: T, reserved: nat, seen: nat)  // the slot is reserved
    | Filling(v: T, reserved: nat, seen: nat)  // half written
    | Filled(v: T, reserved: nat, seen: nat)   // written, not published
  {
    predicate Entering() { Loaded? || Checked? }
    predicate Owning() { Claimed? || Filling? || Filled? }
  }

  /** `tail` and `head` are the pass's own copies; `limit` is what `tail` stands for. */
  datatype Consumer =
    | Resting
    | Looking(tail: nat, head: nat, limit: nat)
    | Holding(tail: nat, head: nat, limit: nat)  // the slot was ready; dispatching it
    | Done(tail: nat, head: nat, limit: nat)     // dispatched, slot still marked ready
    | Freed(tail: nat, head: nat, limit: nat)    // slot given back, head not yet moved

  datatype Reservation<+T> = Reservation(producer: nat, v: T)

  datatype State<+T> = State(
    head: nat,
    tail: nat,
    slots: seq<Slot<T>>,
    producers: map<nat, Producer<T>>,
    consumer: Consumer,
    queueFull: nat,
    history: seq<Reservation<T>>,
    popped: nat,
    dispatched: seq<Option<T>>,
    attempts: nat)
  {
    function Pc(p: nat): Producer<T> {
      if p in producers then producers[p] else Idle
    }

    function Cap(): nat { |slots| }

    /** The slot a word index selects. */
    function At(index: nat): nat
      requires |slots| > 0
      ensures At(index) < |slots|
    {
      SlotOf(index, |slots|)
    }

    function Move(p: nat, pc: Producer<T>): State<T> {
      this.(producers := producers[p := pc])
    }

    function Put(index: nat, slot: Slot<T>): State<T>
      requires |slots| > 0
    {
      this.(slots := slots[At(index) := slot])
    }
  }

  function Start<T>(cap: nat): State<T> {
    State(0, 0, seq(cap, _ => Slot(false, None)), map[], Resting, 0, [], 0, [], 0)
  }

  datatype Step<+T> =
    | Enter(p: nat, v: T)          // enqueue() is called and reads the tail
    | CheckRoom(p: nat)            // reads the head and compares
    | Swap(p: nat, spurious: bool) // compare_exchange_weak
    | BeginFill(p: nat)
    | EndFill(p: nat)
    | Publish(p: nat)
    | Snapshot                     // update() reads the tail and the head
    | Look                         // loop test and ready flag
    | Dispatch
    | Release                      // ready := false
    | Bump                         // head := head + 1

  predicate Enabled<T>(s: State<T>, step: Step<T>) {
    match step
    case Enter(p, _) => s.Pc(p).Idle?
    case CheckRoom(p) => s.Pc(p).Loaded?
    case Swap(p, _) => s.Pc(p).Checked?
    case BeginFill(p) => s.Pc(p).Claimed?
    case EndFill(p) => s.Pc(p).Filling?
    case Publish(p) => s.Pc(p).Filled?
    case Snapshot => s.consumer.Resting?
    case Look => s.consumer.Looking?
    case Dispatch => s.consumer.Holding?
    case Release => s.consumer.Done?
    case Bump => s.consumer.Freed?
  }

  function Do<T>(s: State<T>, step: Step<T>): State<T>
    requires Enabled(s, step) && s.Cap() > 0
  {
    match step
    case Enter(p, v) =>
      s.Move(p, Loaded(v, s.tail, |s.history|)).(attempts := s.attempts + 1)
    case CheckRoom(p) =>
      var pc := s.Pc(p);
      if Minus(pc.reserved, s.head) >= s.Cap()
      then s.Move(p, Idle).(queueFull := s.queueFull + 1)
      else s.Move(p, Checked(pc.v, pc.reserved, pc.seen))
    case Swap(p, spurious) =>
      var pc := s.Pc(p);
      if s.tail == pc.reserved && !spurious
      then s.Move(p, Claimed(pc.v, pc.reserved, |s.history|))
           .(tail := Word(s.tail + 1), history := s.history + [Reservation(p, pc.v)])
      else s.Move(p, Loaded(pc.v, s.tail, |s.history|))
    case BeginFill(p) =>
      var pc := s.Pc(p);
      s.Move(p, Filling(pc.v, pc.reserved, pc.seen)).Put(pc.reserved, s.slots[s.At(pc.reserved)].(content := None))
    case EndFill(p) =>
      var pc := s.Pc(p);
      s.Move(p, Filled(pc.v, pc.reserved, pc.seen)).Put(pc.reserved, s.slots[s.At(pc.reserved)].(content := Some(pc.v)))
    case Publish(p) =>
      var pc := s.Pc(p);
      s.Move(p, Idle).Put(pc.reserved, s.slots[s.At(pc.reserved)].(ready := true))
    case Snapshot =>
      s.(consumer := Looking(s.tail, s.head, |s.history|))
    case Look =>
      var c := s.consumer;
      if c.head == c.tail || !s.slots[s.At(c.head)].ready then s.(consumer := Resting)
      else s.(consumer := Holding(c.tail, c.head, c.limit))
    case Dispatch =>
      var c := s.consumer;
      s.(consumer := Done(c.tail, c.head, c.limit),
         dispatched := s.dispatched + [s.slots[s.At(c.head)].content])
    case Release =>
      var c := s.consumer;
      s.Put(c.head, s.slots[s.At(c.head)].(ready := false)).(consumer := Freed(c.tail, c.head, c.limit))
    case Bump =>
      var c := s.consumer;
      var head := Word(c.head + 1);
      s.(head := head, popped := s.popped + 1, consumer := Looking(c.tail, head, c.limit))
  }

  // --- The invariant ---

  /** The first reservation whose slot is still in use. */
  function FirstLive<T>(s: State<T>): nat {
    if s.consumer.Freed? then s.popped + 1 else s.popped
  }

  /** Words stand for the counters, and at most `cap` reservations are in flight. */
  ghost predicate Counted<T>(s: State<T>) {
    && 0 < s.Cap() < TWO32 && TWO32 % s.Cap() == 0
    && s.head == Word(s.popped) && s.tail == Word(|s.history|)
    && FirstLive(s) <= |s.history| <= s.popped + s.Cap()
  }

  ghost predicate ProducerOk<T>(s: State<T>, p: nat)
    requires s.Cap() > 0
  {
    var pc := s.Pc(p);
    && (!pc.Idle? ==> pc.reserved == Word(pc.seen))
    && (pc.Entering() ==> pc.seen <= |s.history|)
    && (pc.Checked? && pc.seen == |s.history| ==> |s.history| < s.popped + s.Cap())
    && (pc.Owning() ==>
          && FirstLive(s) <= pc.seen < |s.history|
          && s.history[pc.seen] == Reservation(p, pc.v)
          && !s.slots[SlotOf(pc.seen, s.Cap())].ready)
    && (pc.Filled? ==> s.slots[SlotOf(pc.seen, s.Cap())].content == Some(pc.v))
  }

  ghost predicate Owned<T>(s: State<T>, k: nat)
    requires k < |s.history|
  {
    var pc := s.Pc(s.history[k].producer);
    pc.Owning() && pc.seen == k
  }

  /** A live slot is being written by its owner, or holds what its owner wrote. */
  ghost predicate LiveOk<T>(s: State<T>, k: nat)
    requires s.Cap() > 0 && k < |s.history|
  {
    Owned(s, k) || s.slots[SlotOf(k, s.Cap())] == Slot(true, Some(s.history[k].v))
  }

  ghost predicate FreeOk<T>(s: State<T>, k: nat)
    requires s.Cap() > 0
  {
    !s.slots[SlotOf(k, s.Cap())].ready
  }

  ghost predicate SlotsOk<T>(s: State<T>)
    requires s.Cap() > 0
  {
    && (forall k :: FirstLive(s) <= k < |s.history| ==> LiveOk(s, k))
    && (forall k :: |s.history| <= k < s.popped + s.Cap() ==> FreeOk(s, k))
    && (s.consumer.Freed? ==> FreeOk(s, s.popped))
  }

  ghost predicate ConsumerOk<T>(s: State<T>)
    requires s.Cap() > 0
  {
    var c := s.consumer;
    && (!c.Resting? ==>
          && c.head == Word(s.popped) && c.tail == Word(c.limit)
          && s.popped <= c.limit <= |s.history|)
    && (c.Holding? || c.Done? || c.Freed? ==> s.popped < c.limit)
    && (c.Holding? || c.Done? ==> s.slots[SlotOf(s.popped, s.Cap())].ready)
    && |s.dispatched| == s.popped + (if c.Done? || c.Freed? then 1 else 0)
    && |s.dispatched| <= |s.history|
    && forall k :: 0 <= k < |s.dispatched| ==> s.dispatched[k] == Some(s.history[k].v)
  }

  /** The producers between entering `enqueue` and winning or being refused. */
  function Entering<T>(producers: map<nat, Producer<T>>): set<nat> {
    set p | p in producers && producers[p].Entering()
  }

  ghost predicate Accounted<T>(s: State<T>) {
    s.attempts == |s.history| + s.queueFull + |Entering(s.producers)|
  }

  ghost predicate Inv<T>(s: State<T>) {
    && Counted(s)
    && (forall p :: ProducerOk(s, p))
    && SlotsOk(s) && ConsumerOk(s) && Accounted(s)
  }

  /** No producer sleeps through 2^32 reservations before its compare-and-swap. */
  ghost predicate Timely<T>(s: State<T>, step: Step<T>) {
    step.Swap? && s.Pc(step.p).Checked? ==> |s.history| - s.Pc(step.p).seen < TWO32
  }

  // --- Words ---

  lemma WordSlot(k: nat, cap: nat)
    requires cap > 0 && TWO32 % cap == 0
    ensures SlotOf(Word(k), cap) == SlotOf(k, cap)
  {
    var c := TWO32 / cap;
    assert TWO32 == c * cap;
    var w := k / TWO32;
    var q := Word(k) / cap;
    assert k == w * TWO32 + Word(k);
    assert k == (w * c + q) * cap + Word(k) % cap by {
      assert w * (c * cap) == (w * c) * cap;
    }
    ModUnique(k, cap, w * c + q, Word(k) % cap);
  }

  lemma NearSlots(j: nat, k: nat, cap: nat)
    requires cap > 0 && j < k < j + cap
    ensures SlotOf(j, cap) != SlotOf(k, cap)
  {
    var q, r := j / cap, j % cap;
    assert j == q * cap + r;
    if r + (k - j) < cap {
      ModUnique(k, cap, q, r + (k - j));
    } else {
      assert k == (q + 1) * cap + (r + (k - j) - cap);
      ModUnique(k, cap, q + 1, r + (k - j) - cap);
    }
  }

  lemma SameSlot(j: nat, cap: nat)
    requires cap > 0
    ensures SlotOf(j + cap, cap) == SlotOf(j, cap)
  {
    ModUnique(j + cap, cap, j / cap + 1, j % cap);
  }

  lemma WordUnique(j: nat, k: nat)
    requires j <= k < j + TWO32 && Word(j) == Word(k)
    ensures j == k
  {
  }

  lemma WordNext(k: nat)
    ensures Word(Word(k) + 1) == Word(k + 1)
  {
  }

  lemma MinusExact(a: nat, b: nat)
    requires b <= a < b + TWO32
    ensures Minus(Word(a), Word(b)) == a - b
  {
  }

  lemma MinusBehind(a: nat, b: nat)
    requires a < b <= a + TWO32
    ensures Minus(Word(a), Word(b)) == (a + TWO32 - b) % TWO32
  {
  }

  /** In-flight reservations keep distinct slots across every wrap exactly when
      the capacity divides 2^32. */
  lemma SlotsDistinctIffDivides(cap: nat)
    requires 0 < cap < TWO32
    ensures (forall j: nat, k: nat :: j < k < j + cap ==> SlotOf(Word(j), cap) != SlotOf(Word(k), cap))
            <==> TWO32 % cap == 0
  {
    if TWO32 % cap == 0 {
      forall j: nat, k: nat | j < k < j + cap
        ensures SlotOf(Word(j), cap) != SlotOf(Word(k), cap)
      {
        WordSlot(j, cap);
        WordSlot(k, cap);
        NearSlots(j, k, cap);
      }
    } else {
      var j := TWO32 - TWO32 % cap;
      assert j < TWO32 < j + cap;
      assert j == (TWO32 / cap) * cap + 0;
      ModUnique(j, cap, TWO32 / cap, 0);
      assert SlotOf(Word(j), cap) == 0 == SlotOf(Word(TWO32), cap);
    }
  }

  // --- Every step keeps the invariant ---

  lemma EnteringMove<T>(s: State<T>, p: nat, pc: Producer<T>)
    ensures |Entering(s.Move(p, pc).producers)| + (if s.Pc(p).Entering() then 1 else 0)
            == |Entering(s.producers)| + (if pc.Entering() then 1 else 0)
  {
    var before, after := Entering(s.producers), Entering(s.Move(p, pc).producers);
    assert after - {p} == before - {p};
    assert (p in before) == s.Pc(p).Entering() && (p in after) == pc.Entering();
    hide Entering;
    CountWithout(before, p);
    CountWithout(after, p);
  }

  lemma CountWithout(s: set<nat>, p: nat)
    ensures |s| == |s - {p}| + if p in s then 1 else 0
  {
    assert s == if p in s then (s - {p}) + {p} else s - {p};
  }

  lemma StartOk<T>(cap: nat)
    requires 0 < cap < TWO32 && TWO32 % cap == 0
    ensures Inv(Start<T>(cap))
  {
  }

  lemma EnterKeeps<T>(s: State<T>, p: nat, v: T)
    requires Inv(s) && Enabled(s, Enter(p, v))
    ensures Inv(Do(s, Enter(p, v)))
  {
    hide SlotOf, Word;
    var t := Do(s, Enter(p, v));
    EnteringMove(s, p, t.Pc(p));
    forall q ensures ProducerOk(t, q) { assert ProducerOk(s, q); }
    forall k | FirstLive(t) <= k < |t.history| ensures LiveOk(t, k) { assert LiveOk(s, k); }
    forall k | |t.history| <= k < t.popped + t.Cap() ensures FreeOk(t, k) { assert FreeOk(s, k); }
  }

  lemma CheckRoomKeeps<T>(s: State<T>, p: nat)
    requires Inv(s) && Enabled(s, CheckRoom(p))
    ensures Inv(Do(s, CheckRoom(p)))
  {
    var t := Do(s, CheckRoom(p));
    assert ProducerOk(s, p);
    if s.Pc(p).seen == |s.history| && |s.history| < s.popped + TWO32 {
      MinusExact(|s.history|, s.popped);
    }
    hide SlotOf, Word, Minus;
    EnteringMove(s, p, t.Pc(p));
    forall q ensures ProducerOk(t, q) { assert ProducerOk(s, q); }
    forall k | FirstLive(t) <= k < |t.history| ensures LiveOk(t, k) { assert LiveOk(s, k); }
    forall k | |t.history| <= k < t.popped + t.Cap() ensures FreeOk(t, k) { assert FreeOk(s, k); }
  }

  lemma SwapKeeps<T>(s: State<T>, p: nat, spurious: bool)
    requires Inv(s) && Enabled(s, Swap(p, spurious)) && Timely(s, Swap(p, spurious))
    ensures Inv(Do(s, Swap(p, spurious)))
  {
    hide SlotOf, Word;
    var t := Do(s, Swap(p, spurious));
    assert ProducerOk(s, p);
    EnteringMove(s, p, t.Pc(p));
    if s.tail == s.Pc(p).reserved && !spurious {
      WordUnique(s.Pc(p).seen, |s.history|);
      WordNext(|s.history|);
      assert FreeOk(s, |s.history|);
    }
    forall q ensures ProducerOk(t, q) { assert ProducerOk(s, q); }
    forall k | FirstLive(t) <= k < |t.history| ensures LiveOk(t, k) {
      if k < |s.history| { assert LiveOk(s, k); }
    }
    forall k | |t.history| <= k < t.popped + t.Cap() ensures FreeOk(t, k) { assert FreeOk(s, k); }
  }

  /** Two reservations in one ring's length of each other never share a slot. */
  lemma Apart(j: nat, k: nat, first: nat, cap: nat)
    requires cap > 0 && first <= j < first + cap && first <= k < first + cap && j != k
    ensures SlotOf(j, cap) != SlotOf(k, cap)
  {
    if j < k { NearSlots(j, k, cap); } else { NearSlots(k, j, cap); }
  }

  /** Writing an owned slot disturbs no other reservation. */
  lemma FillKeeps<T>(s: State<T>, p: nat, pc: Producer<T>, slot: Slot<T>)
    requires Inv(s) && s.Pc(p).Owning() && pc.Owning()
    requires pc.v == s.Pc(p).v && pc.reserved == s.Pc(p).reserved && pc.seen == s.Pc(p).seen
    requires !slot.ready && (pc.Filled? ==> slot.content == Some(pc.v))
    ensures Inv(s.Move(p, pc).Put(pc.reserved, slot))
  {
    var t := s.Move(p, pc).Put(pc.reserved, slot);
    assert ProducerOk(s, p);
    WordSlot(pc.seen, s.Cap());
    hide SlotOf, Word;
    EnteringMove(s, p, pc);
    forall q ensures ProducerOk(t, q) {
      assert ProducerOk(s, q);
      if q != p && s.Pc(q).Owning() { Apart(s.Pc(q).seen, pc.seen, s.popped, s.Cap()); }
    }
    forall k | FirstLive(t) <= k < |t.history| ensures LiveOk(t, k) {
      assert LiveOk(s, k);
      if k != pc.seen { Apart(k, pc.seen, s.popped, s.Cap()); }
    }
    forall k | |t.history| <= k < t.popped + t.Cap() ensures FreeOk(t, k) { assert FreeOk(s, k); }
  }

  lemma PublishKeeps<T>(s: State<T>, p: nat)
    requires Inv(s) && Enabled(s, Publish(p))
    ensures Inv(Do(s, Publish(p)))
  {
    var t := Do(s, Publish(p));
    var pc := s.Pc(p);
    assert ProducerOk(s, p);
    WordSlot(pc.seen, s.Cap());
    hide SlotOf, Word;
    EnteringMove(s, p, Idle);
    forall q ensures ProducerOk(t, q) {
      assert ProducerOk(s, q);
      if q != p && s.Pc(q).Owning() { Apart(s.Pc(q).seen, pc.seen, s.popped, s.Cap()); }
    }
    forall k | FirstLive(t) <= k < |t.history| ensures LiveOk(t, k) {
      assert LiveOk(s, k);
      if k != pc.seen { Apart(k, pc.seen, s.popped, s.Cap()); }
    }
    forall k | |t.history| <= k < t.popped + t.Cap() ensures FreeOk(t, k) {
      assert FreeOk(s, k);
      Apart(k, pc.seen, s.popped, s.Cap());
    }
    if s.consumer.Freed? { Apart(s.popped, pc.seen, s.popped, s.Cap()); }
  }

  /** Steps of the pass that touch only its own variables. */
  lemma LookKeeps<T>(s: State<T>, step: Step<T>)
    requires Inv(s) && Enabled(s, step) && (step.Snapshot? || step.Look?)
    ensures Inv(Do(s, step))
  {
    var t := Do(s, step);
    WordSlot(s.popped, s.Cap());
    hide SlotOf, Word;
    forall q ensures ProducerOk(t, q) { assert ProducerOk(s, q); }
    forall k | FirstLive(t) <= k < |t.history| ensures LiveOk(t, k) { assert LiveOk(s, k); }
    forall k | |t.history| <= k < t.popped + t.Cap() ensures FreeOk(t, k) { assert FreeOk(s, k); }
  }

  lemma DispatchKeeps<T>(s: State<T>)
    requires Inv(s) && Enabled(s, Dispatch)
    ensures Inv(Do(s, Dispatch))
    ensures Do(s, Dispatch).dispatched == s.dispatched + [Some(s.history[s.popped].v)]
  {
    var t := Do(s, Dispatch);
    WordSlot(s.popped, s.Cap());
    hide SlotOf, Word;
    assert LiveOk(s, s.popped);
    assert ProducerOk(s, s.history[s.popped].producer);
    forall q ensures ProducerOk(t, q) { assert ProducerOk(s, q); }
    forall k | FirstLive(t) <= k < |t.history| ensures LiveOk(t, k) { assert LiveOk(s, k); }
    forall k | |t.history| <= k < t.popped + t.Cap() ensures FreeOk(t, k) { assert FreeOk(s, k); }
  }

  lemma ReleaseKeeps<T>(s: State<T>)
    requires Inv(s) && Enabled(s, Release)
    ensures Inv(Do(s, Release))
  {
    var t := Do(s, Release);
    WordSlot(s.popped, s.Cap());
    hide SlotOf, Word;
    forall q ensures ProducerOk(t, q) {
      assert ProducerOk(s, q);
      if s.Pc(q).Owning() && s.Pc(q).seen != s.popped { Apart(s.Pc(q).seen, s.popped, s.popped, s.Cap()); }
    }
    forall k | FirstLive(t) <= k < |t.history| ensures LiveOk(t, k) {
      assert LiveOk(s, k);
      Apart(k, s.popped, s.popped, s.Cap());
    }
    forall k | |t.history| <= k < t.popped + t.Cap() ensures FreeOk(t, k) { assert FreeOk(s, k); }
  }

  lemma BumpKeeps<T>(s: State<T>)
    requires Inv(s) && Enabled(s, Bump)
    ensures Inv(Do(s, Bump))
  {
    var t := Do(s, Bump);
    WordNext(s.popped);
    SameSlot(s.popped, s.Cap());
    hide SlotOf, Word;
    forall q ensures ProducerOk(t, q) { assert ProducerOk(s, q); }
    forall k | FirstLive(t) <= k < |t.history| ensures LiveOk(t, k) { assert LiveOk(s, k); }
    forall k | |t.history| <= k < t.popped + t.Cap() ensures FreeOk(t, k) {
      if k < s.popped + s.Cap() { assert FreeOk(s, k); } else { assert FreeOk(s, s.popped); }
    }
  }

  lemma StepKeeps<T>(s: State<T>, step: Step<T>)
    requires Inv(s) && Enabled(s, step) && Timely(s, step)
    ensures Inv(Do(s, step))
  {
    match step
    case Enter(p, v) => EnterKeeps(s, p, v);
    case CheckRoom(p) => CheckRoomKeeps(s, p);
    case Swap(p, spurious) => SwapKeeps(s, p, spurious);
    case BeginFill(p) => {
      assert ProducerOk(s, p);
      WordSlot(s.Pc(p).seen, s.Cap());
      FillKeeps(s, p, Do(s, step).Pc(p), s.slots[s.At(s.Pc(p).reserved)].(content := None));
    }
    case EndFill(p) => {
      assert ProducerOk(s, p);
      WordSlot(s.Pc(p).seen, s.Cap());
      FillKeeps(s, p, Do(s, step).Pc(p), s.slots[s.At(s.Pc(p).reserved)].(content := Some(s.Pc(p).v)));
    }
    case Publish(p) => PublishKeeps(s, p);
    case Snapshot => LookKeeps(s, step);
    case Look => LookKeeps(s, step);
    case Dispatch => DispatchKeeps(s);
    case Release => ReleaseKeeps(s);
    case Bump => BumpKeeps(s);
  }

  // --- Whole runs ---

  /** The state after a schedule; a step that is not enabled does nothing. */
  function After<T>(s: State<T>, steps: seq<Step<T>>): (t: State<T>)
    requires s.Cap() > 0
    ensures t.Cap() == s.Cap()
  {
    if steps == [] then s
    else
      var t := After(s, steps[..|steps| - 1]);
      if Enabled(t, steps[|steps| - 1]) then Do(t, steps[|steps| - 1]) else t
  }

  ghost predicate AllTimely<T>(s: State<T>, steps: seq<Step<T>>)
    requires s.Cap() > 0
  {
    steps == [] ||
    (AllTimely(s, steps[..|steps| - 1]) && Timely(After(s, steps[..|steps| - 1]), steps[|steps| - 1]))
  }

  lemma {:induction false} RunKeeps<T>(s: State<T>, steps: seq<Step<T>>)
    requires Inv(s) && AllTimely(s, steps)
    ensures Inv(After(s, steps))
  {
    if steps != [] {
      RunKeeps(s, steps[..|steps| - 1]);
      var t := After(s, steps[..|steps| - 1]);
      if Enabled(t, steps[|steps| - 1]) {
        StepKeeps(t, steps[|steps| - 1]);
      }
    }
  }

  /** The values one producer reserved, in reservation order. */
  function By<T>(p: nat, history: seq<Reservation<T>>): seq<T> {
    if history == [] then []
    else
      var last := history[|history| - 1];
      By(p, history[..|history| - 1]) + if last.producer == p then [last.v] else []
  }

  /** The values with which p's calls returned true during a schedule. */
  function Accepted<T>(s: State<T>, steps: seq<Step<T>>, p: nat): seq<T>
    requires s.Cap() > 0
  {
    if steps == [] then []
    else
      var t := After(s, steps[..|steps| - 1]);
      var step := steps[|steps| - 1];
      Accepted(s, steps[..|steps| - 1], p) +
      if step == Swap(p, false) && Enabled(t, step) && t.tail == t.Pc(p).reserved then [t.Pc(p).v] else []
  }

  lemma {:induction false} HistoryIsAccepted<T>(cap: nat, steps: seq<Step<T>>, p: nat)
    requires cap > 0
    ensures By(p, After(Start<T>(cap), steps).history) == Accepted(Start<T>(cap), steps, p)
  {
    if steps != [] {
      HistoryIsAccepted(cap, steps[..|steps| - 1], p);
      var t := After(Start<T>(cap), steps[..|steps| - 1]);
      var step := steps[|steps| - 1];
      if Enabled(t, step) {
        var u := Do(t, step);
        if u.history != t.history {
          assert u.history[..|u.history| - 1] == t.history;
        }
      }
    }
  }

  lemma {:induction false} ByPrefix<T>(p: nat, history: seq<Reservation<T>>, n: nat)
    requires n <= |history|
    ensures By(p, history[..n]) <= By(p, history)
  {
    if n < |history| {
      ByPrefix(p, history[..|history| - 1], n);
      assert history[..|history| - 1][..n] == history[..n];
    } else {
      assert history[..n] == history;
    }
  }

  /** In every interleaving, what is dispatched is exactly a prefix of what was
      reserved, in reservation order, each entry whole and once; per producer it
      is a prefix of its accepted calls; and every call is reserved, refused and
      counted, or still under way. */
  lemma EveryInterleaving<T>(cap: nat, steps: seq<Step<T>>, p: nat)
    requires 0 < cap < TWO32 && TWO32 % cap == 0 && AllTimely(Start<T>(cap), steps)
    ensures var s := After(Start<T>(cap), steps);
            var n := |s.dispatched|;
            && n <= |s.history|
            && (forall k :: 0 <= k < n ==> s.dispatched[k] == Some(s.history[k].v))
            && By(p, s.history[..n]) <= Accepted(Start<T>(cap), steps, p)
            && s.attempts == |s.history| + s.queueFull + |Entering(s.producers)|
  {
    StartOk<T>(cap);
    RunKeeps(Start<T>(cap), steps);
    var s := After(Start<T>(cap), steps);
    HistoryIsAccepted(cap, steps, p);
    ByPrefix(p, s.history, |s.dispatched|);
  }

  /** The slot being dispatched is nobody's to write, and no two producers write
      the same slot. */
  lemma NoSlotShared<T>(s: State<T>, p: nat, q: nat)
    requires Inv(s) && s.Pc(p).Owning()
    ensures s.consumer.Holding? || s.consumer.Done? ==> s.At(s.Pc(p).reserved) != s.At(s.consumer.head)
    ensures q != p && s.Pc(q).Owning() ==> s.At(s.Pc(p).reserved) != s.At(s.Pc(q).reserved)
  {
    assert ProducerOk(s, p) && ProducerOk(s, q);
    WordSlot(s.Pc(p).seen, s.Cap());
    WordSlot(s.popped, s.Cap());
    hide SlotOf, Word;
    if q != p && s.Pc(q).Owning() {
      WordSlot(s.Pc(q).seen, s.Cap());
      Apart(s.Pc(p).seen, s.Pc(q).seen, s.popped, s.Cap());
    }
  }

  /** The 32-bit difference of the indices is the number of entries in flight. */
  lemma OccupancyExact<T>(s: State<T>)
    requires Inv(s)
    ensures Minus(s.tail, s.head) == |s.history| - s.popped <= s.Cap()
  {
    MinusExact(|s.history|, s.popped);
  }

  /** Only an up-to-date reservation wins, and only where there is room. */
  lemma StaleNeverWins<T>(s: State<T>, p: nat)
    requires Inv(s) && s.Pc(p).Checked? && Timely(s, Swap(p, false))
    ensures s.tail == s.Pc(p).reserved <==> s.Pc(p).seen == |s.history|
    ensures s.tail == s.Pc(p).reserved ==> |s.history| - s.popped < s.Cap()
  {
    assert ProducerOk(s, p);
    if s.tail == s.Pc(p).reserved {
      WordUnique(s.Pc(p).seen, |s.history|);
    }
  }

  /** A call is refused exactly when its view of the tail is a full ring ahead of
      the head, or has fallen behind it: the second refusal is spurious, for the
      queue may have room. */
  lemma RefusedIff<T>(s: State<T>, p: nat)
    requires Inv(s) && s.Pc(p).Loaded? && s.popped - s.Pc(p).seen <= TWO32 - s.Cap()
    ensures Do(s, CheckRoom(p)).Pc(p).Idle? <==>
            s.Pc(p).seen == s.popped + s.Cap() || s.Pc(p).seen < s.popped
  {
    assert ProducerOk(s, p);
    DifferenceIff(s.Pc(p).seen, s.popped, s.Cap());
    hide Word, Minus;
  }

  lemma DifferenceIff(seen: nat, popped: nat, cap: nat)
    requires 0 < cap < TWO32 && seen <= popped + cap && popped - seen <= TWO32 - cap
    ensures Minus(Word(seen), Word(popped)) >= cap <==> seen == popped + cap || seen < popped
  {
    if seen < popped { MinusBehind(seen, popped); } else { MinusExact(seen, popped); }
  }

  /** A pass goes to rest exactly where its snapshot ends, or behind an entry its
      producer is still writing; anything published in between it dispatches. */
  lemma RestsIff<T>(s: State<T>)
    requires Inv(s) && s.consumer.Looking?
    ensures s.popped <= s.consumer.limit
    ensures Do(s, Look).consumer.Resting? <==> s.popped == s.consumer.limit || Owned(s, s.popped)
  {
    WordSlot(s.popped, s.Cap());
    if s.popped < s.consumer.limit {
      assert LiveOk(s, s.popped);
      assert ProducerOk(s, s.history[s.popped].producer);
      if s.consumer.head == s.consumer.tail { WordUnique(s.popped, s.consumer.limit); }
    }
    hide SlotOf, Word;
  }

  lemma AfterSnoc<T>(s: State<T>, steps: seq<Step<T>>, step: Step<T>)
    requires s.Cap() > 0
    ensures After(s, steps + [step]) ==
            if Enabled(After(s, steps), step) then Do(After(s, steps), step) else After(s, steps)
  {
    assert (steps + [step])[..|steps|] == steps;
  }

  /** A call whose tail another entry has overtaken, from reservation to release,
      is refused although the queue is empty. */
  lemma RefusesWithRoom()
    ensures exists steps: seq<Step<int>> ::
              var s := After(Start<int>(2), steps);
              s.Pc(0).Loaded? && |s.history| == s.popped && Do(s, CheckRoom(0)).Pc(0).Idle?
  {
    var steps, s := HeldEntry();
    hide After;
    AfterSnoc(Start<int>(2), steps, Dispatch);
    AfterSnoc(Start<int>(2), steps + [Dispatch], Release);
    AfterSnoc(Start<int>(2), steps + [Dispatch] + [Release], Bump);
    var t := After(Start<int>(2), steps + [Dispatch] + [Release] + [Bump]);
    assert t.Pc(0) == Loaded(7, 0, 0) && t.head == 1;
  }

  lemma HeldEntry() returns (steps: seq<Step<int>>, s: State<int>)
    ensures s == After(Start<int>(2), steps)
    ensures s.head == 0 && |s.slots| == 2 && s.consumer == Holding(1, 0, 1)
    ensures s.Pc(0) == Loaded(7, 0, 0) && s.popped == 0 && |s.history| == 1
  {
    steps, s := OvertakingEntry();
    hide After;
    AfterSnoc(Start<int>(2), steps, Snapshot);
    AfterSnoc(Start<int>(2), steps + [Snapshot], Look);
    steps := steps + [Snapshot] + [Look];
    s := Do(Do(s, Snapshot), Look);
  }

  lemma OvertakingCall() returns (steps: seq<Step<int>>, s: State<int>)
    ensures s == After(Start<int>(2), steps)
    ensures s.head == 0 && s.tail == 0 && |s.slots| == 2 && s.consumer == Resting
    ensures s.Pc(0) == Loaded(7, 0, 0) && s.Pc(1) == Checked(8, 0, 0) && s.popped == 0 && s.history == []
  {
    steps := [];
    s := Start<int>(2);
    assert s == After(Start<int>(2), []);
    hide After;
    AfterSnoc(Start<int>(2), [], Enter(0, 7));
    AfterSnoc(Start<int>(2), [] + [Enter(0, 7)], Enter(1, 8));
    AfterSnoc(Start<int>(2), [] + [Enter(0, 7)] + [Enter(1, 8)], CheckRoom(1));
    steps := [] + [Enter(0, 7)] + [Enter(1, 8)] + [CheckRoom(1)];
    s := Do(Do(Do(s, Enter(0, 7)), Enter(1, 8)), CheckRoom(1));
    assert s.Pc(1) == Checked(8, 0, 0);
  }

  lemma OvertakingEntry() returns (steps: seq<Step<int>>, s: State<int>)
    ensures s == After(Start<int>(2), steps)
    ensures s.head == 0 && s.tail == 1 && |s.slots| == 2 && s.slots[0].ready && s.consumer == Resting
    ensures s.Pc(0) == Loaded(7, 0, 0) && s.popped == 0 && |s.history| == 1
  {
    steps, s := OvertakingCall();
    hide After;
    AfterSnoc(Start<int>(2), steps, Swap(1, false));
    AfterSnoc(Start<int>(2), steps + [Swap(1, false)], BeginFill(1));
    AfterSnoc(Start<int>(2), steps + [Swap(1, false)] + [BeginFill(1)], EndFill(1));
    AfterSnoc(Start<int>(2), steps + [Swap(1, false)] + [BeginFill(1)] + [EndFill(1)], Publish(1));
    steps := steps + [Swap(1, false)] + [BeginFill(1)] + [EndFill(1)] + [Publish(1)];
    s := Do(Do(Do(Do(s, Swap(1, false)), BeginFill(1)), EndFill(1)), Publish(1));
  }

  lemma StepLimit<T>(s: State<T>, step: Step<T>)
    requires s.Cap() > 0 && Enabled(s, step) && !step.Snapshot?
    ensures var t := Do(s, step);
            if s.consumer.Resting? then t.consumer.Resting? && t.dispatched == s.dispatched
            else t.consumer.Resting? || t.consumer.limit == s.consumer.limit
  {
  }

  lemma InvLimit<T>(s: State<T>)
    requires Inv(s)
    ensures !s.consumer.Resting? ==> |s.dispatched| <= s.consumer.limit
  {
  }

  /** A pass never dispatches anything reserved after its own snapshot, however
      long the producers keep going. */
  lemma {:induction false} PassBounded<T>(s: State<T>, steps: seq<Step<T>>)
    requires Inv(s) && AllTimely(s, steps) && !s.consumer.Resting?
    requires forall i :: 0 <= i < |steps| ==> !steps[i].Snapshot?
    ensures var t := After(s, steps);
            && |t.dispatched| <= s.consumer.limit
            && (t.consumer.Resting? || t.consumer.limit == s.consumer.limit)
  {
    RunKeeps(s, steps);
    if steps != [] {
      PassBounded(s, steps[..|steps| - 1]);
      var t := After(s, steps[..|steps| - 1]);
      if Enabled(t, steps[|steps| - 1]) {
        StepLimit(t, steps[|steps| - 1]);
      }
      InvLimit(After(s, steps));
      hide Do, Inv;
    }
  }
}
