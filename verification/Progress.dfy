/** Nothing gets stuck: what is under way to the server can always be delivered. */
module Progress {
  import opened Base
  import opened Wire
  import opened Streams
  import opened Framing
  import opened Loss
  import opened Daemons
  import opened Replay
  import opened Sessions
  import opened Tables
  import opened Invariants
  import Convergence
  import EpollStreams
  import Pausing
  import opened Network
  import OneWay
  import opened Theorems

  // ---------------------------------------------------------------- a stop is not under way unless sent

  /** A client that is not exiting has sent no stop. */
  predicate NoStop(m: Session) {
    !m.c.exit ==> forall x :: x in m.cs ==> !x.Stop?
  }

  lemma EffectNoStop(m: Session, side: Role, core: Core, e: Effect)
    requires NoStop(m) && m.c.role.Client? && Alike(core, Effected(m.At(side), e))
    ensures NoStop(Record(m, side, core, EffectOut(m.At(side), e)))
  {
  }

  lemma DevNoStop(m: Session, side: Role, i: nat, io: Io)
    requires Good(m) && NoStop(m) && Possible(m, DevMove(side, i, io))
    ensures After(m, DevMove(side, i, io)).Some? && NoStop(After(m, DevMove(side, i, io)).value)
  {
    DevMoveKeepsGood(m, side, i, io);
    DevKeepsExit(m.At(side), i, StreamStream(m.At(side).devices[i].stream, io));
    hide StreamStream, DevMoved, Good, CanHappen;
  }

  lemma DevKeepsExit(core: Core, i: nat, t: Moved<Stream>)
    requires i < |core.devices| && DevMoved(core, i, t).Done?
    ensures DevMoved(core, i, t).core.exit == core.exit
    ensures forall x :: x in DevMoved(core, i, t).out ==> x.Input?
  {
  }

  lemma HandlerExit(core: Core, x: PeerMsg)
    requires PeerHandler(core, x).Done?
    ensures core.exit ==> PeerHandler(core, x).core.exit
    ensures forall y :: y in PeerHandler(core, x).out ==> !y.Stop?
  {
  }

  lemma DeliverNoStop(m: Session, side: Role)
    requires Good(m) && NoStop(m) && Possible(m, Deliver(side))
    ensures After(m, Deliver(side)).Some? && NoStop(After(m, Deliver(side)).value)
  {
    DeliverMoveKeepsGood(m, side);
    HandlerExit(m.At(side), m.Inbound(side)[0]);
    hide PeerHandler, Good;
  }

  lemma MoveNoStop(m: Session, move: Move)
    requires Good(m) && NoStop(m) && Possible(m, move)
    ensures After(m, move).Some? && NoStop(After(m, move).value)
  {
    match move
    case DevMove(side, i, io) => DevNoStop(m, side, i, io);
    case RelayMove(side, r, io) =>
      Roles(m);
      Convergence.RequestEffect(m, side, r, io);
      var o := OutcomeOf(m, move);
      EffectNoStop(m, side, o.core, Convergence.Issues(m, move));
      hide CanHappen, RelayIo, NoStop, Good;
    case AcceptMove(side) =>
      Roles(m);
      EffectNoStop(m, side, Accept(m.At(side)), Nothing);
    case Deliver(side) => DeliverNoStop(m, side);
  }

  lemma {:induction false} RunNoStop(m: Session, moves: seq<Move>, m': Session)
    requires Good(m) && NoStop(m) && Reaches(m, moves, m')
    ensures NoStop(m')
    decreases |moves|
  {
    hide Good, NoStop, Possible, After;
    if moves != [] {
      MoveKeepsGood(m, moves[0]);
      MoveNoStop(m, moves[0]);
      RunNoStop(After(m, moves[0]).value, moves[1..], m');
    }
  }

  lemma ReachableNoStop(infos: seq<DeviceInfo>, m: Session)
    requires Reachable(infos, m)
    ensures NoStop(m)
  {
    hide Good, Reaches;
    StartIsGood(infos);
    Pausing.GreetingQuiet(infos);
    hide Greeting;
    var moves :| Reaches(Start(infos), moves, m);
    RunNoStop(Start(infos), moves, m);
  }

  // ---------------------------------------------------------------- one byte closer

  /** The bytes that must still move for everything to reach the server: a byte that waits in a queue moves twice,
      and the server must empty its own queue before it reads. */
  function Distance(n: Net): nat {
    2 * |QueueLeft(n.c.peer.queue)| + |n.toS| + 2 * |QueueLeft(n.s.peer.queue)|
  }

  /** epoll reports the stream only for the direction that it is armed for. */
  predicate Awaited(n: Net, t: Tick) {
    && t.ready.PeerReady?
    && (t.io.Put? ==> n.End(t.side).peer.armed == Writing)
    && (t.io.Got? ==> n.End(t.side).peer.armed == Reading)
  }

  /** A stream with something queued can write it. */
  function NextWrite(s: Stream): Io {
    Put(if Next(s).streamed < Streams.Total(Next(s)) then Streams.Total(Next(s)) - Next(s).streamed else 0)
  }

  lemma CanWrite(s: Stream)
    requires PeerStream(s) && s.queue != []
    ensures ItemOk(Next(s)) && Wakeable(s, NextWrite(s)) && s.armed == Writing
    ensures var t := StreamStream(s, NextWrite(s));
      && t.ok && !Next(t.now).phase.Closed? && Next(t.now).op != t.now.defaultOp
      && |t.out| >= 1 && |t.out| + |QueueLeft(t.now.queue)| == |QueueLeft(s.queue)|
      && !(t.now.queue == [] && t.now.fallback.phase.Complete?)
      && t.now.queue != []
  {
    WriterWeight(s, NextWrite(s));
    DuplexWake(s, NextWrite(s));
    TransferKeepsItem(Next(s), NextWrite(s));
    hide QueueLeft;
  }

  /** The peer's stream after such a write. */
  lemma WroteSome(d: Daemon, t: Moved<Stream>)
    requires t.ok && !Next(t.now).phase.Closed? && t.now.queue != [] && Next(t.now).op != t.now.defaultOp
    ensures PeerMoved(d, t).Turned? && PeerMoved(d, t).wrote == t.out
    ensures |QueueLeft(PeerMoved(d, t).daemon.peer.queue)| == |QueueLeft(t.now.queue)|
    ensures PeerMoved(d, t).daemon.core == d.core
  {
    if Next(t.now).phase.Complete? {
      RetiredWeight(t.now);
    }
    hide QueueLeft;
  }

  lemma WriteTick(n: Net, m: Session, side: Role) returns (t: Tick)
    requires Linked(n, m) && !CanExit(n.End(side).core) && n.End(side).peer.queue != []
    ensures Enabled(n, t) && CalmTick(n, t) && Awaited(n, t) && Ticked(n, t).Some?
    ensures Distance(Ticked(n, t).value) < Distance(n)
    ensures Ticked(n, t).value.c.core == n.c.core && Ticked(n, t).value.s.core == n.s.core
  {
    hide Carries, QueueLeft;
    var d := n.End(side);
    t := Tick(side, PeerReady, NextWrite(d.peer));
    CanWrite(d.peer);
    hide PeerStream, NextWrite;
    WroteSome(d, StreamStream(d.peer, t.io));
    hide PeerMoved, StreamStream, Wakeable;
  }

  // ---------------------------------------------------------------- the server reads

  /** What the server can read next: what is there, up to the end of the header or body. */
  function NextRead(s: Stream, ch: seq<byte>): Io {
    var left := if s.fallback.streamed < Streams.Total(s.fallback)
                then Streams.Total(s.fallback) - s.fallback.streamed else 0;
    Got(if |ch| <= left then ch else ch[..left])
  }

  lemma CanRead(s: Stream, ch: seq<byte>)
    requires PeerStream(s) && s.queue == [] && ch != []
    ensures ItemOk(Next(s)) && Wakeable(s, NextRead(s, ch)) && NextRead(s, ch).data <= ch && s.armed == Reading
    ensures NextRead(s, ch).data != []
  {
  }

  lemma ReadTick(n: Net, m: Session) returns (t: Tick)
    requires Linked(n, m) && Good(m) && NoStop(m) && !n.c.core.exit && !n.s.core.exit
    requires n.s.peer.queue == [] && n.toS != []
    ensures Enabled(n, t) && CalmTick(n, t) && Awaited(n, t) && Ticked(n, t).Some?
    ensures Distance(Ticked(n, t).value) < Distance(n)
    ensures Ticked(n, t).value.c.core == n.c.core && Ticked(n, t).value.s.core.exit == n.s.core.exit
  {
    Roles(m);
    hide Carries, QueueLeft, Good;
    var io := NextRead(n.s.peer, n.toS);
    t := Tick(Server, PeerReady, io);
    CanRead(n.s.peer, n.toS);
    NoStopArrives(n, m, io);
    var tr := StreamStream(n.s.peer, io);
    OneWay.ReaderStaysSilent(n.s.peer, io);
    var _, _ := PeerTickRefines(n, m, t);
    OneWay.ServerSendsNothing(n.s, tr);
    ServerKeepsExit(n.s, tr);
    hide PeerMoved, StreamStream, Wakeable, PeerStream, NextRead;
  }

  lemma ServerKeepsExit(d: Daemon, t: Moved<Stream>)
    requires d.core.role.Server? && PeerMoved(d, t).Turned?
    ensures PeerMoved(d, t).daemon.core.exit == d.core.exit
  {
    hide FromFrame, Received;
  }

  /** The message that this read may complete is no stop. */
  lemma NoStopArrives(n: Net, m: Session, io: Io)
    requires Linked(n, m) && NoStop(m) && !n.c.core.exit
    requires ItemOk(Next(n.s.peer)) && Wakeable(n.s.peer, io) && io.Got? && io.data <= n.toS
    ensures !StopArrives(Server, StreamStream(n.s.peer, io).now)
  {
    hide StreamStream, Carries, PeerStream, FromFrame, Received, Duplex, Frames, Collect, NoStop, TransferItem;
    TransferLinked(n, m, Server, io);
    TransferPhase(n.s.peer, io);
    var tr := StreamStream(n.s.peer, io);
    var n1 := AfterTransfer(n, Server, tr.now, tr.out, Taken(io));
    assert n1.s == n.s.(peer := tr.now);
    if Next(tr.now).phase.Complete? && tr.now.queue == [] {
      NoStopCompletes(n1, m);
    }
  }

  lemma NoStopCompletes(n: Net, m: Session)
    requires Unsettled(n, m, Server) && n.s.peer.queue == [] && NoStop(m) && !m.c.exit
    ensures FromFrame(Received(n.s.peer.fallback)) != Some(Stop)
  {
    hide Unsettled, FromFrame, Received, Linked;
    ReadSettles(n, m, Server);
    assert m.cs[0] in m.cs;
  }

  // ---------------------------------------------------------------- to the end

  /** With nothing written and nothing to write, no message can be half read. */
  lemma NothingHalfRead(n: Net, m: Session)
    requires Linked(n, m) && n.c.peer.queue == [] && n.toS == [] && n.s.peer.queue == []
    ensures Idle(n.s.peer.fallback)
  {
    var fb := n.s.peer.fallback;
    var pending := Frames(m.cs);
    assert ReadSoFar(fb) + [] + [] == ReadSoFar(fb);
    assert QueueLeft([]) == [];
    assert ReadSoFar(fb) == EncodeAll(pending);
    if pending == [] {
      NothingReadWhenIdle(fb);
    } else {
      IncompleteIsShort(fb, pending);
    }
    hide Frames;
  }

  lemma IncompleteIsShort(fb: Item, pending: seq<Frame>)
    requires ItemOk(fb) && Live(fb) && fb.kind.Socket? && fb.op.Reading? && AllFit(pending) && pending != []
    ensures ReadSoFar(fb) != EncodeAll(pending)
  {
    var f := pending[0];
    if ReadSoFar(fb) == EncodeAll(pending) {
      var all := EncodeAll(pending);
      assert all == Encode(f) + EncodeAll(pending[1..]);
      assert Encode(f) <= all;
      assert all[..|all|] == all;
      EpollStreams.Unfinished(fb, all, |all|, f);
    }
  }

  /** From every reachable net in which neither daemon is exiting, there are wake-ups, each in the direction that
      its stream is armed for, that deliver everything under way to the server. */
  lemma {:induction false} CanDrain(n: Net, m: Session) returns (ticks: seq<Tick>, n': Net, m': Session)
    requires Linked(n, m) && Good(m) && NoStop(m) && !n.c.core.exit && !n.s.core.exit
    ensures NetReaches(n, ticks, n') && Linked(n', m') && Good(m') && Delivered(n') && n'.s.peer.queue == []
    ensures AllAwaited(n, ticks)
    ensures n'.c.core == n.c.core
    decreases Distance(n)
  {
    hide Linked, Good, Enabled, Ticked, CalmTick, Awaited, Distance, NoStop;
    if n.c.peer.queue == [] && n.s.peer.queue == [] && n.toS == [] {
      NothingHalfRead(n, m);
      ticks, n', m' := [], n, m;
    } else {
      var t;
      if n.c.peer.queue != [] {
        t := WriteTick(n, m, Client);
      } else if n.s.peer.queue != [] {
        t := WriteTick(n, m, Server);
      } else {
        t := ReadTick(n, m);
      }
      var m1, moves := TickRefines(n, m, t);
      RunNoStop(m, moves, m1);
      var rest;
      rest, n', m' := CanDrain(Ticked(n, t).value, m1);
      ticks := [t] + rest;
      assert ticks[1..] == rest;
    }
  }

  predicate AllAwaited(n: Net, ticks: seq<Tick>)
    decreases |ticks|
  {
    ticks == [] ||
    (Enabled(n, ticks[0]) && Awaited(n, ticks[0]) && Ticked(n, ticks[0]).Some?
     && AllAwaited(Ticked(n, ticks[0]).value, ticks[1..]))
  }

  /** The same for every reachable net; the device tables are then equal. */
  lemma EverythingCanArrive(infos: seq<DeviceInfo>, n: Net) returns (ticks: seq<Tick>, n': Net)
    requires NetReachable(infos, n) && !n.c.core.exit && !n.s.core.exit
    ensures NetReaches(n, ticks, n') && AllAwaited(n, ticks)
    ensures Delivered(n') && Table(n'.s.core.devices) == Table(n.c.core.devices)
  {
    hide Linked, Good, NetReaches, AllAwaited, NetReachable, NoStop, Reachable, Table;
    var m := NetRefinesSession(infos, n);
    ReachableNoStop(infos, m);
    var m';
    ticks, n', m' := CanDrain(n, m);
    DrainedTables(n', m');
  }

  lemma DrainedTables(n: Net, m: Session)
    requires Linked(n, m) && Good(m) && Delivered(n)
    ensures Table(n.s.core.devices) == Table(n.c.core.devices)
  {
    DeliveredSession(n, m);
    hide Carries, Frames;
  }
}
