/** The resumable stream of rcn_stream.c as a value, with one function for each of its operations. */
module Streams {
  import opened Base
  import opened Wire

  datatype Op = Writing | Reading
  datatype Kind = Socket | Device
  datatype Phase = Header | Body | Complete | Closed

  /** struct stream_item. The C union overlays msg and evt; `kind` says which of them is live. */
  datatype Item = Item(
    hdr: HeaderBytes, buffer: Option<seq<byte>>, evt: EventBytes,
    streamed: nat, kind: Kind, phase: Phase, op: Op)

  /** struct epoll_stream, with the direction last given to epoll_ctl. `next` is Next below. */
  datatype Stream = Stream(fallback: Item, queue: seq<Item>, defaultOp: Op, defaultKind: Kind, armed: Op)

  /** What one read or write system call did. */
  datatype Io = Got(data: seq<byte>) | Put(count: nat) | Again | Eof | NoDev | Fault

  // ---------------------------------------------------------------- items

  function SocketItem(f: Frame): Item {
    Item(HeaderOf(f.value, |f.body|), Some(f.body), Zeros(EVENT_SIZE), 0, Socket, Header, Writing)
  }

  function DeviceItem(e: Event): Item {
    Item(Zeros(HEADER_SIZE), None, EncodeEvent(e), 0, Device, Header, Writing)
  }

  function Total(it: Item): nat {
    if it.kind.Device? then EVENT_SIZE
    else if it.phase.Body? then SizeIn(it.hdr)
    else HEADER_SIZE
  }

  predicate Loaded(it: Item) {
    it.buffer.Some? && |it.buffer.value| == SizeIn(it.hdr)
  }

  predicate Idle(it: Item) {
    it.phase.Header? && it.streamed == 0
  }

  /** What every item satisfies between two calls. */
  predicate ItemOk(it: Item) {
    && (it.kind.Socket? && it.op.Writing? ==> Loaded(it))
    && match it.phase
       case Header =>
         it.streamed < Total(it) && (it.kind.Socket? && it.op.Reading? ==> it.buffer.None?)
       case Body =>
         && it.kind.Socket?
         && it.streamed < Total(it)
         && (Loaded(it) || (it.buffer.None? && it.streamed == 0))
       case Complete =>
         it.streamed == 0 && (it.kind.Socket? ==> Loaded(it) || (it.buffer.None? && SizeIn(it.hdr) == 0))
       case Closed => true
  }

  /** calc_stream_info: a body being read gets its buffer on first use. */
  function Prepare(it: Item): Item {
    if it.kind.Socket? && it.phase.Body? && it.op.Reading? && it.buffer.None?
    then it.(buffer := Some(Zeros(SizeIn(it.hdr)))) else it
  }

  predicate Live(it: Item) {
    it.phase.Header? || it.phase.Body?
  }

  /** The memory that a transfer reads from or writes into. */
  function Region(it: Item): (r: seq<byte>)
    requires ItemOk(it) && Live(it) && Prepare(it) == it
    ensures |r| == Total(it)
  {
    if it.kind.Device? then it.evt
    else if it.phase.Body? then it.buffer.value
    else it.hdr
  }

  function Fill(it: Item, data: seq<byte>): Item
    requires ItemOk(it) && Live(it) && Prepare(it) == it && it.streamed + |data| <= Total(it)
  {
    var r := Region(it);
    var r' := r[..it.streamed] + data + r[it.streamed + |data|..];
    if it.kind.Device? then it.(evt := r')
    else if it.phase.Body? then it.(buffer := Some(r'))
    else it.(hdr := r')
  }

  /** The tail of stream_stream after n > 0 bytes have moved; false is the overflow check firing. */
  function Advance(it: Item, n: nat): (Item, bool) {
    if it.streamed + n > Total(it) then (it.(streamed := it.streamed + n, phase := Closed), false)
    else if it.streamed + n < Total(it) then (it.(streamed := it.streamed + n), true)
    else
      var it' := it.(streamed := 0);
      if it.kind.Device? then (it'.(phase := Complete), true)
      else if it.phase.Body? || SizeIn(it.hdr) == 0 then (it'.(phase := Complete), true)
      else if it.phase.Header? then (it'.(phase := Body), true)
      else (it', true)
  }

  /** A system call moves between one byte and the number asked for, in the item's direction. */
  predicate IoFits(it: Item, io: Io) {
    match io
    case Got(d) => it.op.Reading? && 1 <= |d| && it.streamed + |d| <= Total(it)
    case Put(n) => it.op.Writing? && 1 <= n && it.streamed + n <= Total(it)
    case _ => true
  }

  /** The outcome of stream_stream: the new value, the bytes written, and false for a -1 return. */
  datatype Moved<T> = Moved(now: T, out: seq<byte>, ok: bool)

  function TransferItem(it: Item, io: Io): Moved<Item>
    requires ItemOk(it) && IoFits(it, io)
  {
    if !Live(it) then Moved(it.(phase := Closed), [], false)
    else
      var ready := Prepare(it);
      match io
      case Got(d) =>
        var (it', ok) := Advance(Fill(ready, d), |d|);
        Moved(it', [], ok)
      case Put(n) =>
        var (it', ok) := Advance(ready, n);
        Moved(it', Region(ready)[it.streamed..it.streamed + n], ok)
      case Again => Moved(ready, [], true)
      case Eof => Moved(ready.(phase := Closed), [], true)
      case NoDev => Moved(ready.(phase := Closed), [], true)
      case Fault => Moved(ready.(phase := Closed), [], false)
  }

  lemma AdvanceKeepsItem(it: Item, n: nat)
    requires ItemOk(it) && Live(it) && Prepare(it) == it && 1 <= n && it.streamed + n <= Total(it)
    ensures var (it', ok) := Advance(it, n);
      ok && ItemOk(it') && it'.kind == it.kind && it'.op == it.op && !it'.phase.Closed?
  {
  }

  lemma TransferKeepsItem(it: Item, io: Io)
    requires ItemOk(it) && IoFits(it, io) && Live(it)
    ensures var t := TransferItem(it, io);
      && ItemOk(t.now)
      && t.ok == !io.Fault?
      && t.now.kind == it.kind && t.now.op == it.op
      && (io.Got? || io.Put? || io.Again? ==> !t.now.phase.Closed?)
  {
    var ready := Prepare(it);
    if io.Got? {
      AdvanceKeepsItem(Fill(ready, io.data), |io.data|);
    } else if io.Put? {
      AdvanceKeepsItem(ready, io.count);
    }
    hide Advance;
  }

  /** What a system call makes of a live item. An end of file and a device that is gone close it, which is no error;
      EAGAIN leaves it where it was; any other error closes it and is one; bytes bring it on by their number. */
  lemma TransferOutcome(it: Item, io: Io)
    requires ItemOk(it) && IoFits(it, io) && Live(it)
    ensures var t := TransferItem(it, io);
      match io
      case Eof => t.ok && t.out == [] && t.now.phase.Closed?
      case NoDev => t.ok && t.out == [] && t.now.phase.Closed?
      case Again => t.ok && t.out == [] && t.now.phase == it.phase && t.now.streamed == it.streamed
      case Fault => !t.ok && t.out == [] && t.now.phase.Closed?
      case Got(d) => t.ok && t.out == [] && Moves(it, t.now, |d|)
      case Put(n) => t.ok && |t.out| == n && Moves(it, t.now, n)
  {
  }

  /** n bytes more of the same header, body or event; behind its last byte comes the body, if there is one. */
  predicate Moves(it: Item, it': Item, n: nat) {
    if it.streamed + n < Total(it) then it'.phase == it.phase && it'.streamed == it.streamed + n
    else
      && it'.streamed == 0
      && it'.phase == if it.kind.Socket? && it.phase.Header? && SizeIn(it'.hdr) > 0 then Body else Complete
  }

  // ---------------------------------------------------------------- streams

  /** stream->next: the head of the queue, or the fallback when nothing is queued. */
  function Next(s: Stream): Item {
    if s.queue == [] then s.fallback else s.queue[0]
  }

  function WithNext(s: Stream, it: Item): Stream {
    if s.queue == [] then s.(fallback := it) else s.(queue := [it] + s.queue[1..])
  }

  /** stream_init, and epoll's first registration for EPOLLIN. */
  function NewStream(op: Op, kind: Kind): Stream {
    Stream(Item(Zeros(HEADER_SIZE), None, Zeros(EVENT_SIZE), 0, kind, Header, op), [], op, kind, Reading)
  }

  /** e_epoll_sync_stream. */
  function Sync(s: Stream): Stream {
    s.(armed := Next(s).op)
  }

  function Push(s: Stream, it: Item): Stream {
    Sync(s.(queue := s.queue + [it]))
  }

  function StreamStream(s: Stream, io: Io): Moved<Stream>
    requires ItemOk(Next(s)) && IoFits(Next(s), io)
  {
    var t := TransferItem(Next(s), io);
    Moved(WithNext(s, t.now), t.out, t.ok)
  }

  /** stream_collect: a finished write is popped into the fallback. */
  function Collect(s: Stream): Stream {
    if s.queue == [] then s else s.(fallback := s.queue[0], queue := s.queue[1..])
  }

  /** stream_clear_fallback; the header and the event stay in place. */
  function ClearFallback(s: Stream): Stream {
    s.(fallback := s.fallback.(
       buffer := if s.fallback.kind.Socket? then None else s.fallback.buffer,
       streamed := 0, phase := Header, op := s.defaultOp, kind := s.defaultKind))
  }

  function Reset(s: Stream): Stream {
    Sync(ClearFallback(s))
  }

  /** Pushing a batch, one stream_queue_writing each. */
  function Append(s: Stream, items: seq<Item>): Stream {
    if items == [] then s else Sync(s.(queue := s.queue + items))
  }

  lemma AppendOneMore(s: Stream, items: seq<Item>, it: Item)
    ensures Append(s, items + [it]) == Push(Append(s, items), it)
  {
    assert s.queue + (items + [it]) == (s.queue + items) + [it];
    assert (s.queue + items + [it])[0] == Next(Append(s, items + [it]));
  }

  lemma AppendAppend(s: Stream, xs: seq<Item>, ys: seq<Item>)
    ensures Append(s, xs + ys) == Append(Append(s, xs), ys)
  {
    assert s.queue + (xs + ys) == (s.queue + xs) + ys;
    assert xs + [] == xs && [] + ys == ys;
  }

  /** A handler queues its answers on the very stream being resolved before that stream is reset;
      the order does not matter. */
  lemma ResetAfterAppend(s: Stream, items: seq<Item>)
    ensures Reset(Append(s, items)) == Append(Reset(s), items)
  {
  }

  // ---------------------------------------------------------------- the safety invariant

  /** A stream as the event loop leaves it. */
  predicate Safe(s: Stream) {
    && (s.defaultKind.Socket? ==> s.defaultOp.Reading?)
    && ItemOk(s.fallback)
    && s.fallback.kind == s.defaultKind
    && s.fallback.op == s.defaultOp
    && (forall i :: 0 <= i < |s.queue| ==>
          ItemOk(s.queue[i]) && s.queue[i].kind == s.defaultKind && s.queue[i].op == Writing)
    && (s.queue != [] ==> s.armed == Writing)
    && (s.queue == [] && s.defaultOp == Reading ==> s.armed == Reading)
  }

  /** A new stream has nothing queued and nothing half done, and waits for something to read, even a virtual device's,
      whose default is to write. */
  lemma NewStreamIs(op: Op, kind: Kind)
    requires kind.Socket? ==> op.Reading?
    ensures var s := NewStream(op, kind);
      && Safe(s) && s.queue == [] && Idle(s.fallback) && s.armed.Reading?
      && s.defaultOp == op && s.defaultKind == kind && s.fallback.evt == Zeros(EVENT_SIZE)
  {
  }

  /** The calls that the event loop makes on a stream. */
  datatype Call = Queue(item: Item) | Wake(io: Io) | Resolve

  predicate Legal(s: Stream, c: Call)
  {
    match c
    case Queue(it) =>
      ItemOk(it) && Idle(it) && it.op.Writing? && it.kind == s.defaultKind
    case Wake(io) =>
      ItemOk(Next(s)) && Live(Next(s)) && IoFits(Next(s), io)
    case Resolve =>
      Next(s).phase.Complete?
  }

  function Do(s: Stream, c: Call): Stream
    requires Legal(s, c)
  {
    match c
    case Queue(it) => Push(s, it)
    case Wake(io) => StreamStream(s, io).now
    case Resolve => Reset(Collect(s))
  }

  /** One call keeps the invariant; no transfer asks for zero bytes, none overflows, and a push leaves the
      head of a non-empty queue, half written or not, exactly as it was. */
  lemma CallKeepsSafe(s: Stream, c: Call)
    requires Safe(s) && Legal(s, c)
    ensures Safe(Do(s, c))
    ensures c.Wake? ==> Next(s).streamed < Total(Next(s))
    ensures c.Wake? ==> StreamStream(s, c.io).ok == !c.io.Fault?
    ensures c.Queue? && s.queue != [] ==> Next(Do(s, c)) == Next(s)
    ensures c.Queue? ==> Do(s, c).fallback == s.fallback
  {
    if c.Wake? {
      TransferKeepsItem(Next(s), c.io);
    }
  }

  /** Legal calls, one after the other. */
  predicate Runs(s: Stream, calls: seq<Call>, s': Stream)
    decreases |calls|
  {
    if calls == [] then s == s' else Legal(s, calls[0]) && Runs(Do(s, calls[0]), calls[1..], s')
  }

  /** However the loop's calls follow one another, the stream stays safe and the next transfer asks for a byte. */
  lemma {:induction false} RunKeepsSafe(s: Stream, calls: seq<Call>, s': Stream)
    requires Safe(s) && Runs(s, calls, s')
    ensures Safe(s')
    ensures Live(Next(s')) ==> Next(s').streamed < Total(Next(s'))
    decreases |calls|
  {
    if calls != [] {
      CallKeepsSafe(s, calls[0]);
      RunKeepsSafe(Do(s, calls[0]), calls[1..], s');
    }
  }
}
