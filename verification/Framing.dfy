/** Full-duplex framing: two socket streams joined by two FIFO byte channels. */
module Framing {
  import opened Base
  import opened Wire
  import opened Streams

  // ---------------------------------------------------------------- bytes on their way

  function Keep(b: seq<byte>, n: nat): seq<byte> { if n <= |b| then b[..n] else b }
  function Drop(b: seq<byte>, n: nat): seq<byte> { if n <= |b| then b[n..] else [] }

  function BodyOf(it: Item): seq<byte> { if it.buffer.None? then [] else it.buffer.value }

  /** The bytes of a message under construction that have arrived so far. */
  function ReadSoFar(it: Item): seq<byte> {
    match it.phase
    case Header => Keep(it.hdr, it.streamed)
    case Body => it.hdr + Keep(BodyOf(it), it.streamed)
    case Complete => it.hdr + BodyOf(it)
    case Closed => []
  }

  /** The bytes of a queued message that have not been written yet. */
  function WriteLeft(it: Item): seq<byte> {
    match it.phase
    case Header => Drop(it.hdr, it.streamed) + BodyOf(it)
    case Body => Drop(BodyOf(it), it.streamed)
    case Complete => []
    case Closed => []
  }

  function QueueLeft(q: seq<Item>): seq<byte> {
    if q == [] then [] else WriteLeft(q[0]) + QueueLeft(q[1..])
  }

  lemma {:induction false} QueueLeftAppend(q: seq<Item>, it: Item)
    ensures QueueLeft(q + [it]) == QueueLeft(q) + WriteLeft(it)
  {
    if q == [] {
      assert q + [it] == [it] && [it][1..] == [];
    } else {
      QueueLeftAppend(q[1..], it);
      assert (q + [it])[1..] == q[1..] + [it];
      Assoc(WriteLeft(q[0]), QueueLeft(q[1..]), WriteLeft(it));
    }
  }

  /** One direction, written from q into the channel ch and read into fb, with `pending` under way:
      the arrived part, the channel and the unwritten part together spell exactly the pending messages. */
  predicate Carries(q: seq<Item>, ch: seq<byte>, fb: Item, pending: seq<Frame>) {
    && AllFit(pending)
    && ReadSoFar(fb) + ch + QueueLeft(q) == EncodeAll(pending)
  }

  // ---------------------------------------------------------------- one item at a time

  lemma ReadExtends(it: Item, d: seq<byte>)
    requires ItemOk(it) && Live(it) && it.kind.Socket? && it.op.Reading? && IoFits(it, Got(d))
    ensures var it' := TransferItem(it, Got(d)).now;
      ItemOk(it') && !it'.phase.Closed? && ReadSoFar(it') == ReadSoFar(it) + d
  {
    var ready := Prepare(it);
    var r := Region(ready);
    var r' := r[..it.streamed] + d + r[it.streamed + |d|..];
    assert r'[..it.streamed + |d|] == r[..it.streamed] + d;
    if it.streamed + |d| == Total(it) {
      assert r' == r[..it.streamed] + d;
    }
    if it.phase.Body? {
      assert Keep(BodyOf(it), it.streamed) == r[..it.streamed];
      assert it.hdr + r[..it.streamed] + d == it.hdr + (r[..it.streamed] + d);
    } else {
      assert BodyOf(it) == [];
    }
  }

  lemma WriteShrinks(it: Item, n: nat)
    requires ItemOk(it) && Live(it) && it.kind.Socket? && it.op.Writing? && IoFits(it, Put(n))
    ensures var t := TransferItem(it, Put(n));
      t.out + WriteLeft(t.now) == WriteLeft(it)
  {
    var r := Region(it);
    var t := TransferItem(it, Put(n));
    assert r[it.streamed..] == t.out + r[it.streamed + n..];
    if it.phase.Header? {
      assert WriteLeft(it) == t.out + (it.hdr[it.streamed + n..] + BodyOf(it));
    }
  }

  /** The message in a completely read item. */
  function Received(it: Item): Frame {
    Frame(ValueIn(it.hdr), BodyOf(it))
  }

  // ---------------------------------------------------------------- one direction at a time

  lemma Regroup(a: seq<byte>, b: seq<byte>, c: seq<byte>, d: seq<byte>, e: seq<byte>)
    ensures a + (b + c) + (d + e) == a + b + ((c + d) + e)
  {
  }

  lemma FreshItem(f: Frame)
    ensures WriteLeft(SocketItem(f)) == Encode(f)
  {
  }

  lemma AllFitAppend(fs: seq<Frame>, f: Frame)
    requires AllFit(fs) && Fits(f)
    ensures AllFit(fs + [f])
  {
  }

  lemma QueueCarries(q: seq<Item>, ch: seq<byte>, fb: Item, pending: seq<Frame>, f: Frame, it: Item)
    requires Carries(q, ch, fb, pending) && Fits(f) && WriteLeft(it) == Encode(f)
    ensures Carries(q + [it], ch, fb, pending + [f])
  {
    AllFitAppend(pending, f);
    assert ReadSoFar(fb) + ch + QueueLeft(q + [it]) == EncodeAll(pending + [f]) by {
      QueueLeftAppend(q, it);
      EncodeAllAppend(pending, f);
      Assoc(ReadSoFar(fb) + ch, QueueLeft(q), Encode(f));
    }
  }

  lemma WriteCarries(q: seq<Item>, ch: seq<byte>, fb: Item, pending: seq<Frame>, head: Item, out: seq<byte>)
    requires Carries(q, ch, fb, pending) && q != []
    requires out + WriteLeft(head) == WriteLeft(q[0])
    ensures Carries([head] + q[1..], ch + out, fb, pending)
  {
    var q' := [head] + q[1..];
    assert q'[1..] == q[1..];
    var tail := QueueLeft(q[1..]);
    assert QueueLeft(q') == WriteLeft(head) + tail;
    Regroup(ReadSoFar(fb), ch, out, WriteLeft(head), tail);
  }

  lemma RetireCarries(q: seq<Item>, ch: seq<byte>, fb: Item, pending: seq<Frame>)
    requires Carries(q, ch, fb, pending) && q != [] && q[0].phase.Complete?
    ensures Carries(q[1..], ch, fb, pending)
  {
    assert WriteLeft(q[0]) == [];
    assert QueueLeft(q) == [] + QueueLeft(q[1..]) == QueueLeft(q[1..]);
  }

  lemma ReadCarries(q: seq<Item>, ch: seq<byte>, fb: Item, pending: seq<Frame>, fb': Item, d: seq<byte>)
    requires Carries(q, ch, fb, pending) && d <= ch
    requires ReadSoFar(fb') == ReadSoFar(fb) + d
    ensures Carries(q, ch[|d|..], fb', pending)
  {
    assert ch == d + ch[|d|..];
    Assoc(ReadSoFar(fb), d, ch[|d|..]);
  }

  /** A completely read message is the oldest one under way. */
  lemma CompleteIsFirst(q: seq<Item>, ch: seq<byte>, fb: Item, pending: seq<Frame>, next: Item)
    requires Carries(q, ch, fb, pending) && Idle(next)
    requires fb.phase.Complete? && |BodyOf(fb)| == SizeIn(fb.hdr)
    ensures pending != [] && Received(fb) == pending[0]
    ensures Carries(q, ch, next, pending[1..])
  {
    hide EncodeAll, SizeIn, ValueIn, QueueLeft, Fits;
    var rest := ch + QueueLeft(q);
    Regroup(fb.hdr, BodyOf(fb), [], ch, QueueLeft(q));
    assert BodyOf(fb) + [] == BodyOf(fb) && [] + ch == ch;
    FirstFrame(fb.hdr, BodyOf(fb), rest, pending);
    assert ReadSoFar(next) == [];
  }

  lemma DrainedIsEmpty(q: seq<Item>, fb: Item, pending: seq<Frame>)
    requires Carries(q, [], fb, pending) && q == [] && Idle(fb)
    ensures pending == []
  {
    assert EncodeAll(pending) == [];
  }

  // ---------------------------------------------------------------- both directions

  /** A socket stream that has not been closed. */
  predicate Open(s: Stream) {
    && Safe(s) && s.defaultKind.Socket?
    && !s.fallback.phase.Closed?
    && (forall i :: 0 <= i < |s.queue| ==> !s.queue[i].phase.Closed?)
  }

  /** One that keeps the two directions apart: nothing is half read while a write is queued. */
  predicate Duplex(s: Stream) {
    Open(s) && (s.queue != [] ==> Idle(s.fallback))
  }

  predicate Ordinary(io: Io) {
    io.Got? || io.Put? || io.Again?
  }

  predicate Wakeable(s: Stream, io: Io) {
    Live(Next(s)) && IoFits(Next(s), io) && Ordinary(io)
  }

  lemma DuplexQueue(s: Stream, f: Frame)
    requires Duplex(s) && Fits(f) && Idle(s.fallback)
    ensures Duplex(Push(s, SocketItem(f)))
  {
    HeaderRoundTrip(f.value, |f.body|);
  }

  lemma DuplexWake(s: Stream, io: Io)
    requires Duplex(s) && Wakeable(s, io)
    ensures Duplex(StreamStream(s, io).now)
  {
    TransferKeepsItem(Next(s), io);
  }

  lemma DuplexSettle(s: Stream)
    requires Duplex(s)
    ensures Duplex(Reset(Collect(s))) && Idle(Reset(Collect(s)).fallback)
  {
  }

  lemma WakeOutbound(s: Stream, io: Io, ch: seq<byte>, fb: Item, pending: seq<Frame>)
    requires Open(s) && Wakeable(s, io) && Carries(s.queue, ch, fb, pending)
    ensures var t := StreamStream(s, io); Carries(t.now.queue, ch + t.out, fb, pending)
  {
    var t := StreamStream(s, io);
    if io.Put? {
      WriteShrinks(s.queue[0], io.count);
      WriteCarries(s.queue, ch, fb, pending, t.now.queue[0], t.out);
    } else {
      assert t.now.queue == s.queue && ch + t.out == ch;
    }
  }

  lemma WakeInbound(s: Stream, io: Io, q: seq<Item>, ch: seq<byte>, pending: seq<Frame>)
    requires Open(s) && Wakeable(s, io) && Carries(q, ch, s.fallback, pending)
    requires io.Got? ==> io.data <= ch
    ensures var t := StreamStream(s, io);
      Carries(q, if io.Got? then ch[|io.data|..] else ch, t.now.fallback, pending)
  {
    var fb' := StreamStream(s, io).now.fallback;
    if io.Got? {
      ReadExtends(s.fallback, io.data);
      ReadCarries(q, ch, s.fallback, pending, fb', io.data);
    } else {
      assert ReadSoFar(fb') == ReadSoFar(s.fallback);
    }
  }

  /** Settling a finished write leaves both directions as they were. */
  lemma SettleWrite(s: Stream, ch: seq<byte>, fb: Item, pending: seq<Frame>)
    requires Duplex(s) && s.queue != [] && s.queue[0].phase.Complete?
    requires Carries(s.queue, ch, fb, pending)
    ensures Carries(Reset(Collect(s)).queue, ch, fb, pending)
    ensures ReadSoFar(Reset(Collect(s)).fallback) == ReadSoFar(s.fallback)
  {
    RetireCarries(s.queue, ch, fb, pending);
  }

  /** Settling a finished read delivers the oldest pending message. */
  lemma SettleRead(s: Stream, q: seq<Item>, ch: seq<byte>, pending: seq<Frame>)
    requires Open(s) && s.queue == [] && s.fallback.phase.Complete?
    requires Carries(q, ch, s.fallback, pending)
    ensures pending != [] && Received(s.fallback) == pending[0]
    ensures Carries(q, ch, Reset(Collect(s)).fallback, pending[1..])
  {
    CompleteIsFirst(q, ch, s.fallback, pending, Reset(Collect(s)).fallback);
  }

  datatype Side = A | B

  function Other(side: Side): Side { if side.A? then B else A }

  /** Two ends, what each has queued and collected so far, and the bytes between them. */
  datatype End = End(stream: Stream, sent: seq<Frame>, got: seq<Frame>)
  datatype Link = Link(a: End, b: End, toA: seq<byte>, toB: seq<byte>) {
    function At(side: Side): End { if side.A? then a else b }
    function Into(side: Side): seq<byte> { if side.A? then toA else toB }
    function With(side: Side, e: End, inbound: seq<byte>, outbound: seq<byte>): Link {
      if side.A? then Link(e, b, inbound, outbound) else Link(a, e, outbound, inbound)
    }
  }

  datatype Step = Send(side: Side, frame: Frame) | Wake(side: Side, io: Io) | Settle(side: Side)

  /** The one condition on the program: a message is queued only while nothing is half read on its stream. */
  predicate Calm(k: Link, step: Step) {
    step.Send? ==> Idle(k.At(step.side).stream.fallback)
  }

  predicate Allowed(k: Link, step: Step) {
    var s := k.At(step.side).stream;
    match step
    case Send(_, f) => Fits(f)
    case Wake(side, io) => ItemOk(Next(s)) && Wakeable(s, io) && (io.Got? ==> io.data <= k.Into(side))
    case Settle(_) => Next(s).phase.Complete?
  }

  function Take(k: Link, step: Step): Link
    requires Allowed(k, step)
  {
    var end := k.At(step.side);
    var s := end.stream;
    var inbound, outbound := k.Into(step.side), k.Into(Other(step.side));
    match step
    case Send(side, f) =>
      k.With(side, End(Push(s, SocketItem(f)), end.sent + [f], end.got), inbound, outbound)
    case Wake(side, io) =>
      var t := StreamStream(s, io);
      k.With(side, end.(stream := t.now), if io.Got? then inbound[|io.data|..] else inbound, outbound + t.out)
    case Settle(side) =>
      var got := if s.queue == [] then [Received(s.fallback)] else [];
      k.With(side, End(Reset(Collect(s)), end.sent, end.got + got), inbound, outbound)
  }

  /** What `writer` has sent and `reader` has not collected is exactly what lies between them. */
  predicate Delivers(writer: End, ch: seq<byte>, reader: End) {
    && reader.got <= writer.sent
    && Carries(writer.stream.queue, ch, reader.stream.fallback, writer.sent[|reader.got|..])
  }

  predicate Framed(k: Link) {
    && Duplex(k.a.stream) && Duplex(k.b.stream)
    && Delivers(k.a, k.toB, k.b) && Delivers(k.b, k.toA, k.a)
  }

  lemma StepKeepsDuplex(k: Link, step: Step)
    requires Framed(k) && Allowed(k, step) && Calm(k, step)
    ensures Duplex(Take(k, step).At(step.side).stream)
  {
    var s := k.At(step.side).stream;
    match step
    case Send(_, f) => DuplexQueue(s, f);
    case Wake(_, io) => DuplexWake(s, io);
    case Settle(_) => DuplexSettle(s);
  }

  lemma SendDelivers(me: End, ch: seq<byte>, peer: End, f: Frame)
    requires Delivers(me, ch, peer) && Fits(f)
    ensures Delivers(me.(stream := Push(me.stream, SocketItem(f)), sent := me.sent + [f]), ch, peer)
  {
    var pending := me.sent[|peer.got|..];
    FreshItem(f);
    QueueCarries(me.stream.queue, ch, peer.stream.fallback, pending, f, SocketItem(f));
    assert (me.sent + [f])[|peer.got|..] == pending + [f];
  }

  lemma NextCollected(sent: seq<Frame>, got: seq<Frame>)
    requires got <= sent && |got| < |sent|
    ensures got + [sent[|got|]] <= sent
    ensures sent[|got|..][0] == sent[|got|]
    ensures sent[|got|..][1..] == sent[|got + [sent[|got|]]|..]
  {
  }

  /** Settling a write over a message that the reader has read in part, or in full and not collected. */
  predicate Lossy(k: Link, step: Step, reader: Side) {
    step == Settle(reader) && k.At(reader).stream.queue != [] && !Idle(k.At(reader).stream.fallback)
  }

  predicate DeliversTo(k: Link, reader: Side) {
    Delivers(k.At(Other(reader)), k.Into(reader), k.At(reader))
  }

  lemma WriterDelivers(k: Link, step: Step)
    requires Open(k.At(step.side).stream) && Allowed(k, step) && DeliversTo(k, Other(step.side))
    ensures DeliversTo(Take(k, step), Other(step.side))
  {
    hide Carries, TransferItem, Received;
    var me, peer := k.At(step.side), k.At(Other(step.side));
    var s, ch, fb := me.stream, k.Into(Other(step.side)), peer.stream.fallback;
    var pending := me.sent[|peer.got|..];
    match step
    case Send(_, f) => SendDelivers(me, ch, peer, f);
    case Wake(_, io) => WakeOutbound(s, io, ch, fb, pending);
    case Settle(_) =>
      if s.queue != [] {
        RetireCarries(s.queue, ch, fb, pending);
      }
  }

  lemma ReaderDelivers(k: Link, step: Step)
    requires Open(k.At(step.side).stream) && Allowed(k, step) && DeliversTo(k, step.side)
    requires !Lossy(k, step, step.side)
    ensures DeliversTo(Take(k, step), step.side)
  {
    hide TransferItem, Received, EncodeAll, QueueLeft;
    var me, peer := k.At(step.side), k.At(Other(step.side));
    var s, ch, q := me.stream, k.Into(step.side), peer.stream.queue;
    var pending := peer.sent[|me.got|..];
    match step
    case Send(_, f) =>
    case Wake(_, io) => WakeInbound(s, io, q, ch, pending);
    case Settle(_) =>
      if s.queue == [] {
        SettleRead(s, q, ch, pending);
        NextCollected(peer.sent, me.got);
      } else {
        assert ReadSoFar(Reset(Collect(s)).fallback) == ReadSoFar(s.fallback);
        assert me.got + [] == me.got;
      }
  }

  lemma NoneIsLossy(k: Link, step: Step)
    requires Framed(k)
    ensures !Lossy(k, step, step.side)
  {
  }

  lemma StepKeepsFramed(k: Link, step: Step)
    requires Framed(k) && Allowed(k, step) && Calm(k, step)
    ensures Framed(Take(k, step))
  {
    hide Delivers, Lossy;
    StepKeepsDuplex(k, step);
    NoneIsLossy(k, step);
    WriterDelivers(k, step);
    ReaderDelivers(k, step);
    hide Duplex, Allowed;
  }

  function Connected(): Link {
    var s := NewStream(Reading, Socket);
    Link(End(s, [], []), End(s, [], []), [], [])
  }

  /** Allowed and calm steps, one after the other. */
  predicate Execution(k: Link, steps: seq<Step>, k': Link)
    decreases |steps|
  {
    if steps == [] then k == k' else
      Allowed(k, steps[0]) && Calm(k, steps[0]) && Execution(Take(k, steps[0]), steps[1..], k')
  }

  predicate Drained(writer: End, ch: seq<byte>, reader: End) {
    writer.stream.queue == [] && ch == [] && Idle(reader.stream.fallback)
  }

  lemma {:induction false} ExecutionStaysFramed(k: Link, steps: seq<Step>, k': Link)
    requires Framed(k) && Execution(k, steps, k')
    ensures Framed(k')
    decreases |steps|
  {
    hide Framed, Allowed, Calm, Take;
    if steps != [] {
      StepKeepsFramed(k, steps[0]);
      ExecutionStaysFramed(Take(k, steps[0]), steps[1..], k');
    }
  }

  /** The framing theorem. However sends, partial writes, partial reads and EAGAINs interleave on the two
      streams, each end has collected a prefix of what the other queued, value and body, and all of it
      once that direction is drained. */
  lemma FramingRoundTrip(steps: seq<Step>, k: Link)
    requires Execution(Connected(), steps, k)
    ensures k.b.got <= k.a.sent && k.a.got <= k.b.sent
    ensures Drained(k.a, k.toB, k.b) ==> k.b.got == k.a.sent
    ensures Drained(k.b, k.toA, k.a) ==> k.a.got == k.b.sent
  {
    ConnectedIsFramed();
    hide Execution, Connected, Carries, Duplex;
    ExecutionStaysFramed(Connected(), steps, k);
    if Drained(k.a, k.toB, k.b) {
      DrainedIsEmpty(k.a.stream.queue, k.b.stream.fallback, k.a.sent[|k.b.got|..]);
    }
    if Drained(k.b, k.toA, k.a) {
      DrainedIsEmpty(k.b.stream.queue, k.a.stream.fallback, k.b.sent[|k.a.got|..]);
    }
  }

  lemma ConnectedIsFramed()
    ensures Framed(Connected())
  {
  }

  // ---------------------------------------------------------------- without the condition

  /** The stream after queueing f and writing it out whole, header then body, before anything else happens. */
  function Flushed(s: Stream, f: Frame): Stream
    requires Duplex(s) && s.queue == [] && Fits(f)
  {
    HeaderRoundTrip(f.value, |f.body|);
    var s1 := StreamStream(Push(s, SocketItem(f)), Put(HEADER_SIZE)).now;
    var s2 := if f.body == [] then s1 else StreamStream(s1, Put(|f.body|)).now;
    Reset(Collect(s2))
  }

  /** Queueing a message while the fallback holds `pending`'s first bytes keeps the inbound direction
      framed if and only if the fallback was idle: the half-read message is otherwise lost. */
  lemma SharedFallback(s: Stream, f: Frame, q: seq<Item>, ch: seq<byte>, pending: seq<Frame>)
    requires Duplex(s) && s.queue == [] && Fits(f)
    requires Carries(q, ch, s.fallback, pending)
    ensures Carries(q, ch, Flushed(s, f).fallback, pending) <==> Idle(s.fallback)
  {
    HeaderRoundTrip(f.value, |f.body|);
    var s' := Flushed(s, f);
    assert Idle(s'.fallback) && ReadSoFar(s'.fallback) == [];
    if !Idle(s.fallback) {
      assert |ReadSoFar(s.fallback)| > 0;
      assert |EncodeAll(pending)| > |ch + QueueLeft(q)|;
    }
  }
}
