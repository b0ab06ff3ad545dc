/** The two daemons joined by two byte channels, and their refinement of the session of messages. */
module Network {
  import opened Base
  import opened Wire
  import opened Streams
  import opened Framing
  import opened Daemons
  import opened Replay
  import opened Sessions
  import opened Tables
  import opened Invariants

  datatype Net = Net(c: Daemon, s: Daemon, toS: seq<byte>, toC: seq<byte>) {
    function End(side: Role): Daemon { if side.Client? then c else s }
    function Into(side: Role): seq<byte> { if side.Client? then toC else toS }
  }

  /** One wake-up of one daemon with one ready stream. */
  datatype Tick = Tick(side: Role, ready: Ready, io: Io)

  function Opposite(side: Role): Role { if side.Client? then Server else Client }

  /** What the wake-up is to the session when no message from the peer completes in it. */
  function MoveOf(t: Tick): Move
    requires !t.ready.PeerReady?
  {
    match t.ready
    case RelayReady(r) => RelayMove(t.side, r, t.io)
    case DevReady(i) => DevMove(t.side, i, t.io)
    case UsockReady => AcceptMove(t.side)
  }

  /** The session's move in this wake-up, if it makes one. */
  function SessionMove(t: Tick): Move {
    if t.ready.PeerReady? then Deliver(t.side) else MoveOf(t)
  }

  /** The server is about to handle a stop: the modelled session ends here. */
  predicate StopArrives(side: Role, now: Stream) {
    side.Server? && now.queue == [] && now.fallback.phase.Complete? && FromFrame(Received(now.fallback)) == Some(Stop)
  }

  predicate Enabled(n: Net, t: Tick) {
    var d := n.End(t.side);
    && !CanExit(d.core)
    && if t.ready.PeerReady? then
         && ItemOk(Next(d.peer)) && Wakeable(d.peer, t.io)
         && (t.io.Got? ==> t.io.data <= n.Into(t.side))
         && !StopArrives(t.side, StreamStream(d.peer, t.io).now)
       else CanHappen(d.core, MoveOf(t))
  }

  function Update(n: Net, t: Tick, d: Daemon, wrote: seq<byte>): Net {
    var inbound := if t.ready.PeerReady? && t.io.Got? && |t.io.data| <= |n.Into(t.side)|
                   then n.Into(t.side)[|t.io.data|..] else n.Into(t.side);
    if t.side.Client? then Net(d, n.s, n.toS + wrote, inbound) else Net(n.c, d, inbound, n.toC + wrote)
  }

  /** None when the daemon ends with an error or leaves the modelled session. */
  function Ticked(n: Net, t: Tick): Option<Net>
    requires Enabled(n, t)
  {
    match WakeUp(n.End(t.side), t.ready, t.io)
    case Turned(d, wrote) => Some(Update(n, t, d, wrote))
    case _ => None
  }

  /** The one condition on the run: what a device or a relay makes a daemon queue for its peer is queued
      while nothing from the peer is half read. */
  predicate CalmTick(n: Net, t: Tick)
    requires Enabled(n, t)
  {
    var d := n.End(t.side);
    !t.ready.PeerReady? && Ticked(n, t).Some? && Ticked(n, t).value.End(t.side).peer != d.peer ==> Idle(d.peer.fallback)
  }

  /** The client has connected, captured its devices and queued the greeting; the server has accepted it. */
  function Begin(infos: seq<DeviceInfo>): Net {
    var blank := NewStream(Reading, Socket);
    Net(Daemon(Start(infos).c, Append(blank, Items(Greeting(infos)))), Daemon(Start(infos).s, blank), [], [])
  }

  // ---------------------------------------------------------------- the refinement

  /** A peer's stream between two wake-ups. */
  predicate PeerStream(s: Stream) {
    && Duplex(s) && Live(s.fallback)
    && forall i :: 0 <= i < |s.queue| ==> Live(s.queue[i])
  }

  /** The net carries the session: the daemons are the same, and the bytes under way are its messages. */
  predicate Linked(n: Net, m: Session) {
    && n.c.core == m.c && n.s.core == m.s
    && PeerStream(n.c.peer) && PeerStream(n.s.peer)
    && Carries(n.c.peer.queue, n.toS, n.s.peer.fallback, Frames(m.cs))
    && Carries(n.s.peer.queue, n.toC, n.c.peer.fallback, Frames(m.sc))
  }

  lemma FramesJoin(a: seq<PeerMsg>, b: seq<PeerMsg>)
    ensures Frames(a + b) == Frames(a) + Frames(b)
  {
    hide ToFrame;
  }

  lemma {:induction false} AppendCarries(q: seq<Item>, ch: seq<byte>, fb: Item, pending: seq<Frame>, out: seq<PeerMsg>)
    requires Carries(q, ch, fb, pending)
    ensures Carries(q + Items(out), ch, fb, pending + Frames(out))
    decreases |out|
  {
    hide ToFrame, SocketItem, Carries, WriteLeft, Encode;
    if out == [] {
      assert q + Items(out) == q && pending + Frames(out) == pending;
    } else {
      var x, rest := out[0], out[1..];
      var it, f := SocketItem(ToFrame(x)), ToFrame(x);
      PeerMsgRoundTrip(x);
      FreshItem(f);
      QueueCarries(q, ch, fb, pending, f, it);
      AppendCarries(q + [it], ch, fb, pending + [f], rest);
      assert out == [x] + rest;
      ItemsJoin([x], rest);
      FramesJoin([x], rest);
      assert Items([x]) == [it] && Frames([x]) == [f];
      Assoc(q, [it], Items(rest));
      Assoc(pending, [f], Frames(rest));
    }
  }

  lemma MessageItem(x: PeerMsg)
    ensures var it := SocketItem(ToFrame(x));
      ItemOk(it) && Live(it) && it.kind.Socket? && it.op.Writing?
  {
    PeerMsgRoundTrip(x);
    var f := ToFrame(x);
    HeaderRoundTrip(f.value, |f.body|);
  }

  lemma AppendKeepsPeer(s: Stream, out: seq<PeerMsg>)
    requires PeerStream(s) && (out != [] ==> Idle(s.fallback))
    ensures PeerStream(Append(s, Items(out)))
  {
    hide ToFrame, SocketItem, ItemOk;
    var items := Items(out);
    forall i | 0 <= i < |items|
      ensures ItemOk(items[i]) && Live(items[i]) && items[i].kind.Socket? && items[i].op.Writing?
    {
      MessageItem(out[i]);
    }
    hide Items;
    var s' := Append(s, items);
    forall i | 0 <= i < |s'.queue|
      ensures ItemOk(s'.queue[i]) && Live(s'.queue[i]) && s'.queue[i].kind.Socket? && s'.queue[i].op.Writing?
    {
      assert s'.queue[i] == if i < |s.queue| then s.queue[i] else items[i - |s.queue|];
    }
  }

  /** The session after `side` has changed to core and queued out. */
  lemma SendLinked(n: Net, m: Session, side: Role, core: Core, out: seq<PeerMsg>)
    requires Linked(n, m) && (out != [] ==> Idle(n.End(side).peer.fallback))
    ensures var d := Daemon(core, Append(n.End(side).peer, Items(out)));
      Linked(if side.Client? then n.(c := d) else n.(s := d), Record(m, side, core, out))
  {
    AppendKeepsPeer(n.End(side).peer, out);
    AppendCarries(n.c.peer.queue, n.toS, n.s.peer.fallback, Frames(m.cs), out);
    AppendCarries(n.s.peer.queue, n.toC, n.c.peer.fallback, Frames(m.sc), out);
    FramesJoin(m.cs, out);
    FramesJoin(m.sc, out);
    hide Items, Frames, Carries, PeerStream;
    assert n.End(side).peer.queue + [] == n.End(side).peer.queue;
  }

  lemma OwnMove(n: Net, m: Session, t: Tick)
    requires Linked(n, m) && Good(m) && Enabled(n, t) && !t.ready.PeerReady?
    ensures Possible(m, MoveOf(t)) && After(m, MoveOf(t)).Some?
    ensures var o := OutcomeOf(m, MoveOf(t));
      o.Done? && After(m, MoveOf(t)) == Some(Record(m, t.side, o.core, o.out))
  {
    hide CanHappen, Good, Carries, PeerStream;
    MoveKeepsGood(m, MoveOf(t));
    hide DevIo, RelayIo;
  }

  lemma OwnTick(n: Net, m: Session, t: Tick)
    requires Linked(n, m) && Enabled(n, t) && !t.ready.PeerReady?
    requires Possible(m, MoveOf(t)) && OutcomeOf(m, MoveOf(t)).Done?
    ensures var o := OutcomeOf(m, MoveOf(t));
      Ticked(n, t) == Some(Update(n, t, Daemon(o.core, Append(n.End(t.side).peer, Items(o.out))), []))
  {
    assert Items([]) == [];
    hide DevIo, RelayIo, Items, Carries, PeerStream, Update, KnownRequest;
  }

  lemma AppendChanges(s: Stream, out: seq<PeerMsg>)
    requires out != []
    ensures Append(s, Items(out)) != s
  {
    assert |Append(s, Items(out)).queue| == |s.queue| + |out|;
  }

  /** A wake-up that is not the peer's is the same move of the session. */
  lemma OwnTickRefines(n: Net, m: Session, t: Tick)
    requires Linked(n, m) && Good(m) && Enabled(n, t) && CalmTick(n, t) && !t.ready.PeerReady?
    ensures Ticked(n, t).Some?
    ensures Possible(m, MoveOf(t)) && After(m, MoveOf(t)).Some?
    ensures Linked(Ticked(n, t).value, After(m, MoveOf(t)).value)
  {
    hide Linked, Items, Possible, Good, Enabled, OutcomeOf, After, MoveOf, Ticked;
    OwnMove(n, m, t);
    OwnTick(n, m, t);
    var o := OutcomeOf(m, MoveOf(t));
    if o.out != [] {
      AppendChanges(n.End(t.side).peer, o.out);
    }
    SendLinked(n, m, t.side, o.core, o.out);
    assert n.toS + [] == n.toS && n.toC + [] == n.toC;
  }

  // ---------------------------------------------------------------- the peer's stream

  /** The net after a transfer on the peer's stream and, perhaps, its settling; no message handled yet. */
  function AfterTransfer(n: Net, side: Role, peer: Stream, out: seq<byte>, taken: nat): Net
    requires taken <= |n.Into(side)|
  {
    var inbound := n.Into(side)[taken..];
    if side.Client? then n.(c := n.c.(peer := peer), toS := n.toS + out, toC := inbound)
    else n.(s := n.s.(peer := peer), toC := n.toC + out, toS := inbound)
  }

  function Taken(io: Io): nat { if io.Got? then |io.data| else 0 }

  /** Both directions still carry the session once the bytes have moved. */
  lemma TransferLinked(n: Net, m: Session, side: Role, io: Io)
    requires Linked(n, m) && ItemOk(Next(n.End(side).peer)) && Wakeable(n.End(side).peer, io)
    requires io.Got? ==> io.data <= n.Into(side)
    ensures var t := StreamStream(n.End(side).peer, io);
      var n' := AfterTransfer(n, side, t.now, t.out, Taken(io));
      && t.ok && Duplex(t.now)
      && (Live(Next(t.now)) ==> PeerStream(t.now))
      && Carries(n'.c.peer.queue, n'.toS, n'.s.peer.fallback, Frames(m.cs))
      && Carries(n'.s.peer.queue, n'.toC, n'.c.peer.fallback, Frames(m.sc))
  {
    hide Carries, Frames, TransferItem, EncodeAll;
    var s := n.End(side).peer;
    DuplexWake(s, io);
    TransferKeepsItem(Next(s), io);
    hide Duplex, ItemOk;
    if side.Client? {
      WakeOutbound(s, io, n.toS, n.s.peer.fallback, Frames(m.cs));
      WakeInbound(s, io, n.s.peer.queue, n.toC, Frames(m.sc));
    } else {
      WakeOutbound(s, io, n.toC, n.c.peer.fallback, Frames(m.sc));
      WakeInbound(s, io, n.c.peer.queue, n.toS, Frames(m.cs));
    }
  }

  /** A net whose streams are in order except that `side` has an item to settle. */
  predicate Unsettled(n: Net, m: Session, side: Role) {
    && n.c.core == m.c && n.s.core == m.s
    && Duplex(n.End(side).peer) && PeerStream(n.End(Opposite(side)).peer)
    && Next(n.End(side).peer).phase.Complete?
    && (forall i :: 1 <= i < |n.End(side).peer.queue| ==> Live(n.End(side).peer.queue[i]))
    && Carries(n.c.peer.queue, n.toS, n.s.peer.fallback, Frames(m.cs))
    && Carries(n.s.peer.queue, n.toC, n.c.peer.fallback, Frames(m.sc))
  }

  function WithPeer(n: Net, side: Role, peer: Stream): Net {
    if side.Client? then n.(c := n.c.(peer := peer)) else n.(s := n.s.(peer := peer))
  }

  lemma SettledPeer(s: Stream)
    requires Duplex(s) && Next(s).phase.Complete?
    requires forall i :: 1 <= i < |s.queue| ==> Live(s.queue[i])
    ensures PeerStream(Reset(Collect(s))) && Idle(Reset(Collect(s)).fallback)
  {
    DuplexSettle(s);
  }

  lemma WriteSettles(n: Net, m: Session, side: Role)
    requires Unsettled(n, m, side) && n.End(side).peer.queue != []
    ensures Linked(WithPeer(n, side, Reset(Collect(n.End(side).peer))), m)
  {
    var s := n.End(side).peer;
    SettledPeer(s);
    if side.Client? {
      SettleWrite(s, n.toS, n.s.peer.fallback, Frames(m.cs));
    } else {
      SettleWrite(s, n.toC, n.c.peer.fallback, Frames(m.sc));
    }
    hide ReadSoFar, Frames;
  }

  function Inbox(m: Session, side: Role, ms: seq<PeerMsg>): Session {
    if side.Client? then m.(sc := ms) else m.(cs := ms)
  }

  lemma FramesTail(ms: seq<PeerMsg>)
    requires ms != []
    ensures Frames(ms)[0] == ToFrame(ms[0]) && Frames(ms)[1..] == Frames(ms[1..])
  {
    hide ToFrame;
  }

  /** A completely read message is the session's oldest one under way to that daemon. */
  lemma ReadSettles(n: Net, m: Session, side: Role)
    requires Unsettled(n, m, side) && n.End(side).peer.queue == []
    ensures m.Inbound(side) != []
    ensures FromFrame(Received(n.End(side).peer.fallback)) == Some(m.Inbound(side)[0])
    ensures Linked(WithPeer(n, side, Reset(Collect(n.End(side).peer))), Inbox(m, side, m.Inbound(side)[1..]))
  {
    var s := n.End(side).peer;
    SettledPeer(s);
    var ms := m.Inbound(side);
    if side.Client? {
      SettleRead(s, n.s.peer.queue, n.toC, Frames(ms));
    } else {
      SettleRead(s, n.c.peer.queue, n.toS, Frames(ms));
    }
    FramesTail(ms);
    PeerMsgRoundTrip(ms[0]);
    hide ReadSoFar, Frames, ToFrame, FromFrame, Received;
  }

  lemma HandledTurn(d: Daemon, x: PeerMsg, wrote: seq<byte>)
    requires d.peer.queue == [] && d.peer.fallback.op == d.peer.defaultOp
    requires FromFrame(Received(d.peer.fallback)) == Some(x) && PeerHandler(d.core, x).Done?
    ensures var o := PeerHandler(d.core, x);
      PeerSettled(d, wrote) == Turned(Daemon(o.core, Append(Reset(Collect(d.peer)), Items(o.out))), wrote)
  {
    hide Received, FromFrame, PeerHandler;
    var o := PeerHandler(d.core, x);
    ResetAfterAppend(Collect(d.peer), Items(o.out));
    hide Items, Reset, Append;
  }

  lemma DeliverMove(m: Session, side: Role)
    requires Good(m) && Possible(m, Deliver(side))
    ensures After(m, Deliver(side)).Some?
    ensures var o := PeerHandler(m.At(side), m.Inbound(side)[0]);
      o.Done? && After(m, Deliver(side)).value ==
        (var m' := Record(Inbox(m, side, m.Inbound(side)[1..]), side, o.core, o.out);
         if side.Client? then m' else m'.(acts := m.acts + [Handled(m.cs[0])]))
  {
    hide PeerHandler, Shape, Grabs, Replicated, Logs, Scripts;
    MoveKeepsGood(m, Deliver(side));
    if side.Server? {
      DeliverKeepsInv(m);
      DeliveredRecord(m);
      assert m.sc + [] == m.sc;
    }
  }

  /** Settling the peer's stream is a delivery of the session, or nothing to it. */
  lemma SettleRefines(n: Net, m: Session, side: Role, wrote: seq<byte>) returns (m': Session, moves: seq<Move>)
    requires Unsettled(n, m, side) && Good(m) && !CanExit(n.End(side).core)
    requires !StopArrives(side, n.End(side).peer)
    ensures var t := PeerSettled(n.End(side), wrote);
      t.Turned? && t.wrote == wrote
      && Linked(if side.Client? then n.(c := t.daemon) else n.(s := t.daemon), m')
    ensures Reaches(m, moves, m') && (moves == [] || moves == [Deliver(side)])
    ensures AllHandled(m.acts) ==> AllHandled(m'.acts)
  {
    hide Linked, Carries, Reset, Append, PeerHandler, Items, After, Good, PeerStream, Received, FromFrame;
    var d := n.End(side);
    if d.peer.queue != [] {
      WriteSettles(n, m, side);
      m', moves := m, [];
    } else {
      ReadSettles(n, m, side);
      var x := m.Inbound(side)[0];
      assert Possible(m, Deliver(side));
      DeliverMove(m, side);
      m', moves := After(m, Deliver(side)).value, [Deliver(side)];
      OneMove(m, Deliver(side), m');
      HandledTurn(d, x, wrote);
      var o := PeerHandler(d.core, x);
      var n1, m1 := WithPeer(n, side, Reset(Collect(d.peer))), Inbox(m, side, m.Inbound(side)[1..]);
      SettledPeer(d.peer);
      SendLinked(n1, m1, side, o.core, o.out);
      var d' := PeerSettled(d, wrote).daemon;
      ActsDoNotMatter(if side.Client? then n.(c := d') else n.(s := d'), Record(m1, side, o.core, o.out), m'.acts);
    }
  }

  lemma ActsDoNotMatter(n: Net, m: Session, acts: seq<Act>)
    requires Linked(n, m)
    ensures Linked(n, m.(acts := acts))
  {
  }

  /** A wake-up of the peer's stream is at most one delivery of the session. */
  lemma PeerTickRefines(n: Net, m: Session, t: Tick) returns (m': Session, moves: seq<Move>)
    requires Linked(n, m) && Good(m) && Enabled(n, t) && t.ready.PeerReady?
    ensures Ticked(n, t).Some? && Linked(Ticked(n, t).value, m') && Reaches(m, moves, m')
    ensures moves == [] || moves == [Deliver(t.side)]
    ensures AllHandled(m.acts) ==> AllHandled(m'.acts)
  {
    hide Carries, PeerStream, Good, PeerSettled, Duplex, TransferItem, CanHappen, Frames;
    var d, side := n.End(t.side), t.side;
    var tr := StreamStream(d.peer, t.io);
    TransferLinked(n, m, side, t.io);
    var n1 := AfterTransfer(n, side, tr.now, tr.out, Taken(t.io));
    assert n1.End(side) == d.(peer := tr.now);
    TransferPhase(d.peer, t.io);
    if Next(tr.now).phase.Complete? {
      m', moves := SettleRefines(n1, m, side, tr.out);
    } else {
      m', moves := m, [];
    }
  }

  lemma TransferPhase(s: Stream, io: Io)
    requires PeerStream(s) && Wakeable(s, io)
    ensures var now := StreamStream(s, io).now;
      !Next(now).phase.Closed? && forall i :: 1 <= i < |now.queue| ==> Live(now.queue[i])
  {
    TransferKeepsItem(Next(s), io);
    hide TransferItem, Duplex;
  }

  /** A relay commands the server nothing that reaches the peer. */
  predicate Mute(n: Net, t: Tick)
    requires Enabled(n, t)
  {
    t.side.Server? && t.ready.RelayReady? && Ticked(n, t).Some? ==> Ticked(n, t).value.s.peer == n.s.peer
  }

  lemma OwnActs(n: Net, m: Session, t: Tick)
    requires Linked(n, m) && Good(m) && Enabled(n, t) && !t.ready.PeerReady? && Mute(n, t)
    requires Possible(m, MoveOf(t))
    ensures After(m, MoveOf(t)).Some? && After(m, MoveOf(t)).value.acts == m.acts
  {
    Roles(m);
    hide Good, DevMoved, RelayIo, StreamStream, Items, Append, PeerStream, Carries, Update;
    OwnMove(n, m, t);
    OwnTick(n, m, t);
    var o := OutcomeOf(m, MoveOf(t));
    if t.side.Server? {
      if t.ready.DevReady? {
        ServerDevSilent(m.s, t.ready.i, StreamStream(m.s.devices[t.ready.i].stream, t.io));
      } else if t.ready.RelayReady? && o.out != [] {
        AppendChanges(n.s.peer, o.out);
      }
    }
    assert m.acts + Locals([]) == m.acts;
  }

  /** Every calm wake-up succeeds, and is at most one move of the session. */
  lemma TickRefines(n: Net, m: Session, t: Tick) returns (m': Session, moves: seq<Move>)
    requires Linked(n, m) && Good(m) && Enabled(n, t) && CalmTick(n, t)
    ensures Ticked(n, t).Some? && Linked(Ticked(n, t).value, m') && Good(m') && Reaches(m, moves, m')
    ensures moves == [] || moves == [SessionMove(t)]
    ensures AllHandled(m.acts) && Mute(n, t) ==> AllHandled(m'.acts)
  {
    hide Linked, Good, Reaches, Enabled, Possible, After, Ticked, CalmTick, Mute, AllHandled, MoveOf;
    if t.ready.PeerReady? {
      m', moves := PeerTickRefines(n, m, t);
    } else {
      OwnTickRefines(n, m, t);
      m', moves := After(m, MoveOf(t)).value, [MoveOf(t)];
      OneMove(m, MoveOf(t), m');
      if Mute(n, t) {
        OwnActs(n, m, t);
      }
    }
    RunKeepsGood(m, moves, m');
  }

  // ---------------------------------------------------------------- runs

  /** Calm wake-ups, one after the other. */
  predicate NetReaches(n: Net, ticks: seq<Tick>, n': Net)
    decreases |ticks|
  {
    if ticks == [] then n == n' else
      Enabled(n, ticks[0]) && CalmTick(n, ticks[0]) && Ticked(n, ticks[0]).Some?
      && NetReaches(Ticked(n, ticks[0]).value, ticks[1..], n')
  }

  ghost predicate NetReachable(infos: seq<DeviceInfo>, n: Net) {
    Startable(infos) && exists ticks :: NetReaches(Begin(infos), ticks, n)
  }

  lemma FreshPeer()
    ensures var s := NewStream(Reading, Socket);
      PeerStream(s) && Idle(s.fallback) && s.queue == [] && Carries([], [], s.fallback, [])
  {
  }

  lemma FreshCarries(fb: Item)
    requires Idle(fb)
    ensures Carries([], [], fb, Frames([]))
  {
  }

  lemma BeginLinked(infos: seq<DeviceInfo>)
    ensures Linked(Begin(infos), Start(infos))
  {
    hide Items, Frames, Greeting, Devices, PeerStream, Carries;
    var s := NewStream(Reading, Socket);
    FreshPeer();
    AppendKeepsPeer(s, Greeting(infos));
    AppendCarries([], [], s.fallback, [], Greeting(infos));
    FreshCarries(Append(s, Items(Greeting(infos))).fallback);
    assert [] + Items(Greeting(infos)) == Items(Greeting(infos));
    assert [] + Frames(Greeting(infos)) == Frames(Greeting(infos));
  }

  lemma {:induction false} RunRefines(n: Net, m: Session, ticks: seq<Tick>, n': Net)
    returns (m': Session, moves: seq<Move>)
    requires Linked(n, m) && Good(m) && NetReaches(n, ticks, n')
    ensures Linked(n', m') && Reaches(m, moves, m')
    decreases |ticks|
  {
    hide Linked, Good, Enabled, CalmTick, Ticked, Reaches;
    if ticks == [] {
      m', moves := m, [];
      NoMoves(m);
    } else {
      var m1, first := TickRefines(n, m, ticks[0]);
      var rest;
      m', rest := RunRefines(Ticked(n, ticks[0]).value, m1, ticks[1..], n');
      moves := first + rest;
      ReachesJoin(m, first, m1, rest, m');
    }
  }

  lemma NoMoves(m: Session)
    ensures Reaches(m, [], m)
  {
  }

  /** The refinement theorem: whatever a net of daemons and byte channels reaches, by wake-ups that read and
      write any number of bytes, is a reachable session. */
  lemma NetRefinesSession(infos: seq<DeviceInfo>, n: Net) returns (m: Session)
    requires NetReachable(infos, n)
    ensures Reachable(infos, m) && Good(m) && Linked(n, m)
  {
    hide Linked, Reaches, NetReaches, Begin, Start;
    BeginLinked(infos);
    StartIsGood(infos);
    var ticks :| NetReaches(Begin(infos), ticks, n);
    var moves;
    m, moves := RunRefines(Begin(infos), Start(infos), ticks, n);
    assert Reaches(Start(infos), moves, m);
    ReachableIsGood(infos, m);
  }

  /** No wake-up of a reachable net ends a daemon with an error or leaves the session. */
  lemma NetNeverFails(infos: seq<DeviceInfo>, n: Net, t: Tick)
    requires NetReachable(infos, n) && Enabled(n, t)
    ensures Ticked(n, t).Some?
  {
    hide Linked, Good, Enabled, Ticked;
    var m := NetRefinesSession(infos, n);
    if t.ready.PeerReady? {
      var _, _ := PeerTickRefines(n, m, t);
    } else {
      OwnMove(n, m, t);
      OwnTick(n, m, t);
    }
  }
}
