/** Exactly which runs lose messages: those in which a finished write is settled over a message that has been read
    in part, or read and not collected. */
module Loss {
  import opened Base
  import opened Wire
  import opened Streams
  import opened Framing

  predicate OpenEnds(k: Link) {
    Open(k.a.stream) && Open(k.b.stream)
  }

  /** Steps taken one after the other, calm or not. */
  predicate Follows(k: Link, steps: seq<Step>, k': Link)
    decreases |steps|
  {
    if steps == [] then k == k' else Allowed(k, steps[0]) && Follows(Take(k, steps[0]), steps[1..], k')
  }

  /** None of the steps loses what the reader has read. */
  predicate Lossless(k: Link, steps: seq<Step>, reader: Side)
    decreases |steps|
  {
    steps == [] ||
    (Allowed(k, steps[0]) && !Lossy(k, steps[0], reader) && Lossless(Take(k, steps[0]), steps[1..], reader))
  }

  lemma PushKeepsOpen(s: Stream, f: Frame)
    requires Open(s) && Fits(f)
    ensures Open(Push(s, SocketItem(f)))
  {
    HeaderRoundTrip(f.value, |f.body|);
    CallKeepsSafe(s, Queue(SocketItem(f)));
  }

  lemma WakeKeepsOpen(s: Stream, io: Io)
    requires Open(s) && Wakeable(s, io)
    ensures Open(StreamStream(s, io).now)
  {
    CallKeepsSafe(s, Call.Wake(io));
    TransferKeepsItem(Next(s), io);
  }

  lemma SettleKeepsOpen(s: Stream)
    requires Open(s) && Next(s).phase.Complete?
    ensures Open(Reset(Collect(s)))
  {
    CallKeepsSafe(s, Resolve);
  }

  lemma StepKeepsOpen(k: Link, step: Step)
    requires OpenEnds(k) && Allowed(k, step)
    ensures OpenEnds(Take(k, step))
  {
    hide Open;
    var s := k.At(step.side).stream;
    match step
    case Send(_, f) => PushKeepsOpen(s, f);
    case Wake(_, io) => WakeKeepsOpen(s, io);
    case Settle(_) => SettleKeepsOpen(s);
  }

  // ---------------------------------------------------------------- without a lossy step

  lemma StepDelivers(k: Link, step: Step, reader: Side)
    requires OpenEnds(k) && Allowed(k, step) && DeliversTo(k, reader) && !Lossy(k, step, reader)
    ensures DeliversTo(Take(k, step), reader)
  {
    if step.side == reader {
      ReaderDelivers(k, step);
    } else {
      WriterDelivers(k, step);
    }
  }

  lemma {:induction false} LosslessDelivers(k: Link, steps: seq<Step>, k': Link, reader: Side)
    requires OpenEnds(k) && DeliversTo(k, reader) && Follows(k, steps, k') && Lossless(k, steps, reader)
    ensures DeliversTo(k', reader)
    decreases |steps|
  {
    hide OpenEnds, DeliversTo, Allowed, Take, Lossy;
    if steps != [] {
      StepKeepsOpen(k, steps[0]);
      StepDelivers(k, steps[0], reader);
      LosslessDelivers(Take(k, steps[0]), steps[1..], k', reader);
    }
  }

  // ---------------------------------------------------------------- with one

  /** The bytes for the reader that it has not turned into messages. */
  function Weight(k: Link, reader: Side): nat {
    |ReadSoFar(k.At(reader).stream.fallback)| + |k.Into(reader)| + |QueueLeft(k.At(Other(reader)).stream.queue)|
  }

  /** The bytes sent to the reader that are neither under way nor in a message that it has collected. */
  function Missing(k: Link, reader: Side): int {
    |EncodeAll(k.At(Other(reader)).sent)| - |EncodeAll(k.At(reader).got)| - Weight(k, reader)
  }

  lemma WriterWeight(s: Stream, io: Io)
    requires Open(s) && Wakeable(s, io)
    ensures var t := StreamStream(s, io); |t.out| + |QueueLeft(t.now.queue)| == |QueueLeft(s.queue)|
  {
    var t := StreamStream(s, io);
    if io.Put? {
      WriteShrinks(s.queue[0], io.count);
      assert t.now.queue[1..] == s.queue[1..];
    } else {
      assert t.now.queue == s.queue;
    }
  }

  lemma ReaderWeight(s: Stream, io: Io)
    requires Open(s) && Wakeable(s, io)
    ensures |ReadSoFar(StreamStream(s, io).now.fallback)| == |ReadSoFar(s.fallback)| + if io.Got? then |io.data| else 0
  {
    if io.Got? {
      ReadExtends(s.fallback, io.data);
    }
  }

  lemma ReceivedWeight(s: Stream)
    requires Open(s) && s.queue == [] && s.fallback.phase.Complete?
    ensures |Encode(Received(s.fallback))| == |ReadSoFar(s.fallback)|
  {
  }

  lemma RetiredWeight(s: Stream)
    requires Next(s).phase.Complete?
    ensures |QueueLeft(Reset(Collect(s)).queue)| == |QueueLeft(s.queue)|
    ensures ReadSoFar(Reset(Collect(s)).fallback) == []
  {
  }

  lemma NothingReadWhenIdle(it: Item)
    requires ItemOk(it) && !it.phase.Closed?
    ensures |ReadSoFar(it)| == 0 <==> Idle(it)
  {
  }

  lemma SendMisses(k: Link, side: Side, f: Frame, reader: Side)
    requires Allowed(k, Send(side, f))
    ensures Missing(Take(k, Send(side, f)), reader) == Missing(k, reader)
  {
    var me := k.At(side);
    FreshItem(f);
    QueueLeftAppend(me.stream.queue, SocketItem(f));
    EncodeAllAppend(me.sent, f);
    hide QueueLeft, EncodeAll, ReadSoFar, WriteLeft, SocketItem, Encode;
  }

  lemma SettleMisses(k: Link, side: Side, reader: Side)
    requires OpenEnds(k) && Allowed(k, Settle(side))
    ensures Missing(k, reader) <= Missing(Take(k, Settle(side)), reader)
    ensures Lossy(k, Settle(side), reader) ==> Missing(k, reader) < Missing(Take(k, Settle(side)), reader)
  {
    hide Safe, QueueLeft, ReadSoFar, EncodeAll, Received, Collect, Reset, ItemOk;
    var me := k.At(side);
    RetiredWeight(me.stream);
    if side == reader {
      if me.stream.queue == [] {
        ReceivedWeight(me.stream);
        EncodeAllAppend(me.got, Received(me.stream.fallback));
      } else {
        assert me.got + [] == me.got;
        if !Idle(me.stream.fallback) {
          FallbackWeight(me.stream);
        }
      }
    }
  }

  lemma FallbackWeight(s: Stream)
    requires Open(s) && !Idle(s.fallback)
    ensures |ReadSoFar(s.fallback)| > 0
  {
    NothingReadWhenIdle(s.fallback);
  }

  /** No step of either end, calm or not, finds a missing byte again; a lossy one loses more. */
  lemma StepFindsNothing(k: Link, step: Step, reader: Side)
    requires OpenEnds(k) && Allowed(k, step)
    ensures Missing(k, reader) <= Missing(Take(k, step), reader)
    ensures Lossy(k, step, reader) ==> Missing(k, reader) < Missing(Take(k, step), reader)
  {
    match step
    case Send(side, f) => SendMisses(k, side, f, reader);
    case Wake(side, io) =>
      WriterWeight(k.At(side).stream, io);
      ReaderWeight(k.At(side).stream, io);
      hide Safe, QueueLeft, ReadSoFar, EncodeAll, StreamStream;
    case Settle(side) => SettleMisses(k, side, reader);
  }

  lemma {:induction false} RunFindsNothing(k: Link, steps: seq<Step>, k': Link, reader: Side)
    requires OpenEnds(k) && Follows(k, steps, k')
    ensures Missing(k, reader) <= Missing(k', reader)
    ensures !Lossless(k, steps, reader) ==> Missing(k, reader) < Missing(k', reader)
    ensures OpenEnds(k')
    decreases |steps|
  {
    hide Missing, Take, Allowed, OpenEnds, Lossy;
    if steps != [] {
      StepKeepsOpen(k, steps[0]);
      StepFindsNothing(k, steps[0], reader);
      RunFindsNothing(Take(k, steps[0]), steps[1..], k', reader);
    }
  }

  lemma NothingMissingYet(reader: Side)
    ensures OpenEnds(Connected()) && DeliversTo(Connected(), reader) && Missing(Connected(), reader) == 0
  {
    ConnectedIsFramed();
  }

  /** A message interrupted while half read, or read and not collected, is lost for good: from then on, whatever
      the two ends do, the reader never collects all that it has been sent. */
  lemma HalfReadMessageIsLost(before: seq<Step>, k: Link, after: seq<Step>, k': Link, reader: Side)
    requires Follows(Connected(), before, k) && Allowed(k, Settle(reader)) && Lossy(k, Settle(reader), reader)
    requires Follows(Take(k, Settle(reader)), after, k')
    ensures |EncodeAll(k'.At(reader).got)| < |EncodeAll(k'.At(Other(reader)).sent)|
    ensures k'.At(reader).got != k'.At(Other(reader)).sent
  {
    NothingMissingYet(reader);
    RunFindsNothing(Connected(), before, k, reader);
    StepKeepsOpen(k, Settle(reader));
    StepFindsNothing(k, Settle(reader), reader);
    hide Follows, Connected, OpenEnds, Take, Allowed, EncodeAll, Lossy, Weight;
    RunFindsNothing(Take(k, Settle(reader)), after, k', reader);
  }

  /** The framing theorem without its condition. Over every interleaving of sends, partial writes, partial reads,
      EAGAINs and settlings, the reader collects a prefix of what it is sent as long as no settling is lossy; and
      once everything is drained it has collected all of it if and only if none was. */
  lemma LossIsExact(steps: seq<Step>, k: Link, reader: Side)
    requires Follows(Connected(), steps, k)
    ensures Lossless(Connected(), steps, reader) ==> k.At(reader).got <= k.At(Other(reader)).sent
    ensures Drained(k.At(Other(reader)), k.Into(reader), k.At(reader)) ==>
      (k.At(reader).got == k.At(Other(reader)).sent <==> Lossless(Connected(), steps, reader))
  {
    NothingMissingYet(reader);
    RunFindsNothing(Connected(), steps, k, reader);
    hide Follows, Connected, Lossless, OpenEnds, Carries, EncodeAll;
    var writer, me := k.At(Other(reader)), k.At(reader);
    if Lossless(Connected(), steps, reader) {
      LosslessDelivers(Connected(), steps, k, reader);
      if Drained(writer, k.Into(reader), me) {
        DrainedIsEmpty(writer.stream.queue, me.stream.fallback, writer.sent[|me.got|..]);
      }
    }
  }

  // ---------------------------------------------------------------- a run that loses a message

  lemma StepThen(k: Link, step: Step, rest: seq<Step>, k': Link)
    requires Allowed(k, step) && Follows(Take(k, step), rest, k')
    ensures Follows(k, [step] + rest, k')
  {
    assert ([step] + rest)[1..] == rest;
    hide Allowed, Take;
  }

  /** A sends f, and B has read its first byte. */
  lemma HalfReadRun(f: Frame) returns (steps: seq<Step>, k: Link)
    requires Fits(f)
    ensures Follows(Connected(), steps, k) && Open(k.b.stream)
    ensures k.b.stream.queue == [] && !Idle(k.b.stream.fallback)
  {
    HeaderRoundTrip(f.value, |f.body|);
    var first := HeaderOf(f.value, |f.body|)[..1];
    var x, y, z := Send(A, f), Step.Wake(A, Put(1)), Step.Wake(B, Got(first));
    var k1 := Take(Connected(), x);
    var k2 := Take(k1, y);
    assert k2.toB == first;
    k := Take(k2, z);
    StepThen(k2, z, [], k);
    StepThen(k1, y, [z], k);
    StepThen(Connected(), x, [y] + [z], k);
    steps := [x] + ([y] + [z]);
  }

  /** B, having read part of a message, queues g and writes it out. */
  lemma InterruptedRun(k: Link, g: Frame) returns (steps: seq<Step>, k': Link)
    requires Open(k.b.stream) && k.b.stream.queue == [] && !Idle(k.b.stream.fallback) && Fits(g)
    ensures Follows(k, steps, k') && Allowed(k', Settle(B)) && Lossy(k', Settle(B), B)
  {
    HeaderRoundTrip(g.value, |g.body|);
    var x, y, z := Send(B, g), Step.Wake(B, Put(HEADER_SIZE)), Step.Wake(B, Put(|g.body|));
    var k1 := Take(k, x);
    var k2 := Take(k1, y);
    if g.body == [] {
      k' := k2;
      StepThen(k1, y, [], k');
      steps := [x] + [y];
    } else {
      k' := Take(k2, z);
      StepThen(k2, z, [], k');
      StepThen(k1, y, [z], k');
      steps := [x] + ([y] + [z]);
    }
    StepThen(k, x, steps[1..], k');
    assert steps == [x] + steps[1..];
  }

  lemma {:induction false} FollowsJoin(a: Link, xs: seq<Step>, b: Link, ys: seq<Step>, c: Link)
    requires Follows(a, xs, b) && Follows(b, ys, c)
    ensures Follows(a, xs + ys, c)
    decreases |xs|
  {
    hide Allowed, Take;
    if xs == [] {
      assert xs + ys == ys;
    } else {
      assert (xs + ys)[1..] == xs[1..] + ys;
      FollowsJoin(Take(a, xs[0]), xs[1..], b, ys, c);
    }
  }

  /** For any two messages there is a run of a new connection in which sending the one loses the other. */
  lemma LossHappens(f: Frame, g: Frame) returns (before: seq<Step>, k: Link)
    requires Fits(f) && Fits(g)
    ensures Follows(Connected(), before, k) && Allowed(k, Settle(B)) && Lossy(k, Settle(B), B)
    ensures forall after, k' :: Follows(Take(k, Settle(B)), after, k') ==> k'.b.got != k'.a.sent
  {
    hide Follows, Connected, Take, Allowed, Lossy, Open;
    var xs, k0 := HalfReadRun(f);
    var ys;
    ys, k := InterruptedRun(k0, g);
    FollowsJoin(Connected(), xs, k0, ys, k);
    before := xs + ys;
    forall after, k' | Follows(Take(k, Settle(B)), after, k') ensures k'.b.got != k'.a.sent {
      HalfReadMessageIsLost(before, k, after, k', B);
    }
  }
}
