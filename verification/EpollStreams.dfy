/** struct epoll_stream as the object that rcn_stream.c updates in place, its queue in the byte store, and the relay
    program's receive loop. */
module EpollStreams {
  import opened Base
  import opened Wire
  import opened ByteStore
  import opened Streams
  import opened Slots
  import opened Framing

  /** Where stream->next points: at the fallback, or at the start of a block that holds the queue's slots. */
  datatype Pointer = ToFallback | ToSlot(block: array?<byte>)

  /** The state update at the end of stream_stream, its overflow check first. */
  method CountBytes(item: Item, moved: nat) returns (it: Item, ok: bool)
    ensures (it, ok) == Advance(item, moved)
  {
    var total := Total(item);
    it := item.(streamed := item.streamed + moved);
    if it.streamed > total {
      return it.(phase := Closed), false;
    }
    if it.streamed == total {
      it := it.(streamed := 0);
      if it.kind.Device? {
        it := it.(phase := Complete);
      }
      if it.phase.Body? || (it.kind.Socket? && SizeIn(it.hdr) == 0) {
        it := it.(phase := Complete);
      } else if it.phase.Header? {
        it := it.(phase := Body);
      }
    }
    ok := true;
  }

  /** stream_stream on the item that next points to. */
  method MoveBytes(item: Item, io: Io) returns (it: Item, out: seq<byte>, ok: bool)
    requires ItemOk(item) && IoFits(item, io)
    ensures Moved(it, out, ok) == TransferItem(item, io)
    ensures Live(item) && (io.Eof? || io.NoDev?) ==> ok && it.phase.Closed?
    ensures Live(item) && io.Again? ==> ok && it.phase == item.phase && it.streamed == item.streamed
  {
    it, out, ok := item, [], true;
    if !Live(it) {
      return it.(phase := Closed), [], false;
    }
    if it.kind.Socket? && it.phase.Body? && it.op.Reading? && it.buffer.None? {
      it := it.(buffer := Some(Zeros(SizeIn(it.hdr))));
    }
    match io {
      case Got(d) =>
        it, ok := CountBytes(Fill(it, d), |d|);
      case Put(n) =>
        out := Region(it)[it.streamed..it.streamed + n];
        it, ok := CountBytes(it, n);
      case Again =>
      case Eof =>
        it := it.(phase := Closed);
      case NoDev =>
        it := it.(phase := Closed);
      case Fault =>
        it, ok := it.(phase := Closed), false;
    }
  }

  /** calc_stream_info allocates a buffer for the body that is about to be read. */
  predicate NeedsBuffer(it: Item) {
    Prepare(it) != it
  }

  lemma TransferHolds(s: Slot, heap: Heap, io: Io, address: U64)
    requires 0 !in heap && (s.buffer == 0 || s.buffer in heap)
    requires ItemOk(View(s, heap)) && IoFits(View(s, heap), io)
    requires NeedsBuffer(View(s, heap)) ==> address != 0 && address !in heap
    ensures var now := TransferItem(View(s, heap), io).now;
      && CanHold(s, now, address, heap)
      && heap.Keys + (if now.buffer.None? then {} else {Home(s, now, address)})
         == heap.Keys + (if NeedsBuffer(View(s, heap)) then {address} else {})
  {
  }

  class EpollStream {
    var fallback: Slot
    const queue: UQueue      // of slots
    var heap: Heap           // the message buffers
    var next: Pointer
    var defaultOp: Op
    var defaultKind: Kind
    var armed: Op

    /** next is the queue's live head exactly when the queue is non-empty, and never points into freed memory: a block
        that a resize has replaced is no longer the store's. */
    ghost predicate Valid()
      reads this, queue, queue.store, queue.store.data
    {
      && queue.Valid() && queue.store.size == SLOT_SIZE
      && AllSlots(queue.Contents()) && Unshared(fallback, queue.Contents(), heap)
      && next == if queue.Contents() == [] then ToFallback else ToSlot(queue.store.data)
    }

    ghost function State(): Stream
      requires Valid()
      reads this, queue, queue.store, queue.store.data
    {
      Stream(View(fallback, heap), Views(queue.Contents(), heap), defaultOp, defaultKind, armed)
    }

    constructor (op: Op, kind: Kind)
      ensures Valid() && State() == NewStream(op, kind) && State().armed.Reading?
      ensures fresh(queue) && fresh(queue.store) && fresh(queue.store.data) && heap == map[]
    {
      fallback := Slot(Zeros(HEADER_SIZE), Zeros(EVENT_SIZE), 0, 0, kind, Header, op);
      queue := new UQueue(SLOT_SIZE, STD_CAPACITY);
      heap := map[];
      next := ToFallback;
      defaultOp, defaultKind, armed := op, kind, Reading;
    }

    /** *stream->next. */
    method LoadNext() returns (s: Slot)
      requires Valid()
      ensures s == if queue.Contents() == [] then fallback else Unpack(queue.Contents()[0])
      ensures View(s, heap) == Next(State()) && 0 !in heap && (s.buffer == 0 || s.buffer in heap)
    {
      if next.ToFallback? {
        s := fallback;
      } else {
        queue.FrontAt();
        s := Unpack(next.block[..SLOT_SIZE]);
        ViewsTail(queue.Contents(), heap);
      }
    }

    /** Writing the item that next points to, its body in the buffer it has or in a new one. */
    method StoreNext(s: Slot, it: Item, address: U64)
      requires Valid() && s == if queue.Contents() == [] then fallback else Unpack(queue.Contents()[0])
      requires CanHold(s, it, address, heap)
      modifies `fallback, `heap, queue.store.data
      ensures Valid() && State() == WithNext(old(State()), it)
      ensures heap.Keys == old(heap.Keys) + if it.buffer.None? then {} else {Home(s, it, address)}
    {
      var a := Home(s, it, address);
      var slot := SlotFor(it, a);
      if next.ToFallback? {
        StoreFallback(fallback, queue.Contents(), it, address, heap);
        fallback := slot;
      } else {
        StoreFirst(fallback, queue.Contents(), it, address, heap);
        queue.Poke(next.block, Pack(slot));
      }
      heap := Stored(heap, it, a);
    }

    method SyncEpoll()
      requires Valid()
      modifies `armed
      ensures Valid() && State() == Sync(old(State()))
    {
      var s := LoadNext();
      armed := s.op;
    }

    /** stream_queue_writing: the body is copied into a new buffer and the item pushed, which may move all slots to a
        larger block; then next is refreshed and epoll synced. */
    method QueueWriting(it: Item, address: U64)
      requires Valid() && Idle(it) && (it.buffer.Some? ==> address != 0 && address !in heap)
      modifies this, queue, queue.store, queue.store.data
      ensures Valid() && State() == Push(old(State()), it)
      ensures queue.store.data == old(queue.store.data) || fresh(queue.store.data)
      ensures old(queue.Contents()) != [] ==> queue.Contents()[0] == old(queue.Contents()[0])
    {
      var a := if it.buffer.None? then 0 else address;
      PushSlot(fallback, queue.Contents(), it, address, heap);
      heap := Stored(heap, it, a);
      queue.Push(Pack(SlotFor(it, a)));
      var block, _ := queue.Peek();
      next := ToSlot(block);
      SyncEpoll();
    }

    /** stream_stream; `address` is what calloc returns if a body needs a buffer. */
    method Transfer(io: Io, address: U64) returns (out: seq<byte>, ok: bool)
      requires Valid() && ItemOk(Next(State())) && IoFits(Next(State()), io)
      requires NeedsBuffer(Next(State())) ==> address != 0 && address !in heap
      modifies `fallback, `heap, queue.store.data
      ensures Valid() && Moved(State(), out, ok) == StreamStream(old(State()), io)
      ensures Live(old(Next(State()))) && (io.Eof? || io.NoDev?) ==> ok && Next(State()).phase.Closed?
      ensures heap.Keys == old(heap.Keys) + if NeedsBuffer(old(Next(State()))) then {address} else {}
    {
      hide TransferItem, NeedsBuffer, CanHold, Home, Unpack, Views, View, ItemOk, IoFits, AllSlots, Unshared;
      var s := LoadNext();
      TransferHolds(s, heap, io, address);
      var it;
      it, out, ok := MoveBytes(View(s, heap), io);
      StoreNext(s, it, address);
    }

    /** stream_collect. */
    method CollectItem() returns (item: Item)
      requires Valid()
      modifies this, queue, queue.store, queue.store.data
      ensures Valid() && State() == Collect(old(State())) && item == State().fallback
      ensures queue.store.data == old(queue.store.data) && heap == old(heap)
    {
      if !queue.isEmpty {
        PopSlot(fallback, queue.Contents(), heap);
        var slot, _ := queue.Pop();
        fallback := Unpack(slot);
      }
      if queue.isEmpty {
        next := ToFallback;
      } else {
        var block, _ := queue.Peek();
        next := ToSlot(block);
      }
      item := View(fallback, heap);
    }

    /** e_epoll_reset_stream: stream_set_default with the current defaults, then sync. */
    method ResetStream()
      requires Valid()
      modifies this
      ensures Valid() && State() == Reset(old(State()))
    {
      if fallback.kind.Socket? && fallback.buffer != 0 {
        FreeBuffer(fallback, queue.Contents(), heap);
        heap := heap - {fallback.buffer};
        fallback := fallback.(buffer := 0);
      }
      fallback := fallback.(streamed := 0, phase := Header, op := defaultOp, kind := defaultKind);
      SyncEpoll();
    }
  }

  // ---------------------------------------------------------------- the relay program

  function Min(a: nat, b: nat): nat { if a <= b then a else b }

  /** How many of the wake-ups had something to read. */
  function Useful(offers: seq<nat>): nat {
    if offers == [] then 0 else (if offers[0] > 0 then 1 else 0) + Useful(offers[1..])
  }

  lemma {:induction false} UsefulStep(offers: seq<nat>, i: nat)
    requires i < |offers|
    ensures Useful(offers[i..]) == (if offers[i] > 0 then 1 else 0) + Useful(offers[i + 1..])
  {
    assert offers[i..][1..] == offers[i + 1..];
  }

  /** A stream that has received exactly `taken` of a message, and queued nothing. */
  predicate Receiving(s: Stream, taken: seq<byte>) {
    Duplex(s) && s.queue == [] && ReadSoFar(s.fallback) == taken
  }

  lemma NothingReceived()
    ensures Receiving(NewStream(Reading, Socket), [])
  {
  }

  /** The address of the one buffer that the relay program ever needs. */
  const BODY_BUFFER: U64 := 1

  /** That buffer is in use only once the body has been allocated. */
  predicate OneBuffer(heap: Heap, it: Item) {
    heap.Keys <= {BODY_BUFFER} && (it.buffer.None? ==> heap.Keys == {})
  }

  method Poll(s: EpollStream, io: Io, ghost taken: seq<byte>) returns (it: Item)
    requires s.Valid() && Receiving(s.State(), taken) && Live(s.State().fallback)
    requires (io.Got? || io.Again?) && IoFits(s.State().fallback, io) && OneBuffer(s.heap, s.State().fallback)
    modifies s, s.queue.store.data
    ensures s.Valid() && Receiving(s.State(), taken + if io.Got? then io.data else [])
    ensures it == s.State().fallback && OneBuffer(s.heap, it) && s.queue.store.data == old(s.queue.store.data)
  {
    PollReads(s.State(), io);
    DuplexWake(s.State(), io);
    PollKeepsBuffer(s.State().fallback, io);
    var _, _ := s.Transfer(io, BODY_BUFFER);
    var slot := s.LoadNext();
    it := View(slot, s.heap);
  }

  lemma PollKeepsBuffer(it: Item, io: Io)
    requires ItemOk(it) && Live(it) && IoFits(it, io)
    ensures TransferItem(it, io).now.buffer.None? ==> it.buffer.None? && !NeedsBuffer(it)
  {
  }

  lemma PollReads(s: Stream, io: Io)
    requires Duplex(s) && s.queue == [] && Wakeable(s, io) && (io.Got? || io.Again?)
    ensures var t := StreamStream(s, io).now;
      t.queue == [] && ReadSoFar(t.fallback) == ReadSoFar(s.fallback) + if io.Got? then io.data else []
  {
    if io.Got? {
      ReadExtends(s.fallback, io.data);
    }
  }

  /** One wake-up at which the socket holds `offer` bytes. */
  method PollOffer(s: EpollStream, item: Item, arriving: seq<byte>, had: nat, offer: nat)
    returns (it: Item, taken: nat)
    requires s.Valid() && item == s.State().fallback && Live(item) && OneBuffer(s.heap, item)
    requires had <= |arriving| && Receiving(s.State(), arriving[..had])
    modifies s, s.queue.store.data
    ensures s.Valid() && it == s.State().fallback && !it.phase.Closed? && OneBuffer(s.heap, it)
    ensures s.queue.store.data == old(s.queue.store.data)
    ensures had <= taken <= |arriving| && Receiving(s.State(), arriving[..taken])
    ensures offer > 0 && had < |arriving| ==> had < taken
  {
    var left := Total(item) - item.streamed;
    var n := Min(Min(offer, left), |arriving| - had);
    var d := arriving[had..had + n];
    assert arriving[..had + n] == arriving[..had] + d;
    it := Poll(s, if n > 0 then Got(d) else Again, arriving[..had]);
    taken := had + n;
  }

  /** The receive loop of relay_start. The daemon's bytes arrive in `arriving`; at its k-th wake-up the socket
      holds offers[k] of them (none is EAGAIN). Whatever the chunks, the first message is received exactly,
      and it takes no more than one non-empty wake-up per byte. */
  method AwaitReply(arriving: seq<byte>, offers: seq<nat>) returns (reply: Option<Frame>)
    ensures forall f: Frame :: Fits(f) && Encode(f) <= arriving ==> reply == None || reply == Some(f)
    ensures forall f: Frame :: Fits(f) && Encode(f) <= arriving && |Encode(f)| <= Useful(offers) ==> reply == Some(f)
  {
    hide Unpack, Views, AllSlots, Unshared, ReadSoFar, Encode, View;
    var s := new EpollStream(Reading, Socket);
    var it := View(s.fallback, s.heap);
    var taken := 0;
    var i := 0;
    NothingReceived();
    assert offers[0..] == offers;
    while i < |offers|
      invariant 0 <= i <= |offers|
      invariant fresh(s) && fresh(s.queue) && fresh(s.queue.store) && fresh(s.queue.store.data)
      invariant s.Valid() && it == s.State().fallback && Live(it) && OneBuffer(s.heap, it)
      invariant 0 <= taken <= |arriving| && Receiving(s.State(), arriving[..taken])
      invariant taken < |arriving| ==> taken + Useful(offers[i..]) >= Useful(offers)
      decreases |offers| - i
    {
      UsefulStep(offers, i);
      it, taken := PollOffer(s, it, arriving, taken, offers[i]);
      i := i + 1;
      if it.phase.Complete? {
        FirstMessage(it, arriving, taken);
        var item := s.CollectItem();
        return Some(Received(item));
      }
    }
    assert offers[i..] == [];
    forall f: Frame | Fits(f) && Encode(f) <= arriving ensures taken < |Encode(f)| {
      Unfinished(it, arriving, taken, f);
    }
    return None;
  }

  lemma FirstMessage(it: Item, arriving: seq<byte>, taken: nat)
    requires taken <= |arriving| && ReadSoFar(it) == arriving[..taken]
    requires it.phase.Complete? && |BodyOf(it)| == SizeIn(it.hdr)
    ensures forall f: Frame :: Fits(f) && Encode(f) <= arriving ==> Received(it) == f
  {
    forall f: Frame | Fits(f) && Encode(f) <= arriving ensures Received(it) == f {
      HeaderRoundTrip(f.value, |f.body|);
      assert it.hdr == arriving[..HEADER_SIZE] == HeaderOf(f.value, |f.body|);
      assert BodyOf(it) == arriving[HEADER_SIZE..taken] == f.body;
    }
  }

  /** A message under construction is shorter than any message the bytes could start with. */
  lemma Unfinished(it: Item, arriving: seq<byte>, taken: nat, f: Frame)
    requires ItemOk(it) && Live(it) && it.kind.Socket? && it.op.Reading?
    requires taken <= |arriving| && ReadSoFar(it) == arriving[..taken]
    requires Fits(f) && Encode(f) <= arriving
    ensures taken < |Encode(f)|
  {
    if it.phase.Body? {
      HeaderRoundTrip(f.value, |f.body|);
      assert it.hdr == arriving[..HEADER_SIZE] == HeaderOf(f.value, |f.body|);
    }
  }
}
