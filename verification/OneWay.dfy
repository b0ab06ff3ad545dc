/** Runs in which only the client's relays pause and resume: no condition on the run is left. */
module OneWay {
  import opened Base
  import opened Wire
  import opened Streams
  import opened Framing
  import opened Daemons
  import opened Replay
  import opened Sessions
  import opened Invariants
  import opened Network

  /** Nothing has been sent to the client. */
  predicate Silent(n: Net) {
    n.s.peer.queue == [] && n.toC == [] && Idle(n.c.peer.fallback)
  }

  lemma WriterStaysIdle(s: Stream, io: Io)
    requires Duplex(s) && Idle(s.fallback) && Wakeable(s, io) && !io.Got?
    ensures var now := StreamStream(s, io).now;
      Idle(now.fallback) && (Next(now).phase.Complete? ==> now.queue != [])
  {
  }

  lemma ReaderStaysSilent(s: Stream, io: Io)
    requires Duplex(s) && s.queue == [] && Wakeable(s, io)
    ensures StreamStream(s, io).out == [] && StreamStream(s, io).now.queue == []
  {
  }

  lemma ServerSendsNothing(d: Daemon, t: Moved<Stream>)
    requires d.core.role.Server? && t.now.queue == [] && PeerMoved(d, t).Turned?
    ensures PeerMoved(d, t).daemon.peer.queue == [] && PeerMoved(d, t).wrote == t.out
  {
    match FromFrame(Received(Collect(t.now).fallback))
    case None =>
    case Some(x) =>
      ServerHandlerSilent(d.core, x);
      assert Items([]) == [];
      hide FromFrame, Received, PeerHandler;
  }

  lemma ServerHandlerSilent(core: Core, x: PeerMsg)
    requires core.role.Server?
    ensures PeerHandler(core, x).Done? ==> PeerHandler(core, x).out == []
  {
  }

  lemma ClientWrites(d: Daemon, t: Moved<Stream>)
    requires Idle(t.now.fallback)
    requires Next(t.now).phase.Complete? ==> t.now.queue != [] && t.now.queue[0].op != t.now.defaultOp
    requires PeerMoved(d, t).Turned?
    ensures Idle(PeerMoved(d, t).daemon.peer.fallback)
  {
    hide FromFrame, Received, PeerHandler;
  }

  lemma OwnTickSilent(n: Net, m: Session, t: Tick)
    requires Linked(n, m) && Good(m) && Silent(n) && Enabled(n, t) && Mute(n, t) && !t.ready.PeerReady?
    ensures Ticked(n, t).Some? && CalmTick(n, t) && Silent(Ticked(n, t).value)
  {
    OwnMove(n, m, t);
    OwnTick(n, m, t);
    var o := OutcomeOf(m, MoveOf(t));
    if t.side.Server? && t.ready.DevReady? {
      ServerDevSilent(m.s, t.ready.i, StreamStream(m.s.devices[t.ready.i].stream, t.io));
    }
    hide Good, Linked, CanHappen, DevMoved, RelayIo, StreamStream, Possible, After, Enabled;
    assert Items([]) == [];
  }

  lemma ClientTickSilent(n: Net, t: Tick)
    requires PeerStream(n.c.peer) && Silent(n) && Enabled(n, t) && t.ready.PeerReady? && t.side.Client?
    requires Ticked(n, t).Some?
    ensures Silent(Ticked(n, t).value)
  {
    hide PeerMoved, TransferItem, StreamStream, ItemOk, CanHappen, StopArrives;
    WriterStaysIdle(n.c.peer, t.io);
    DuplexWake(n.c.peer, t.io);
    ClientWrites(n.c, StreamStream(n.c.peer, t.io));
  }

  lemma ServerTickSilent(n: Net, t: Tick)
    requires PeerStream(n.s.peer) && n.s.core.role.Server?
    requires Silent(n) && Enabled(n, t) && t.ready.PeerReady? && t.side.Server?
    requires Ticked(n, t).Some?
    ensures Silent(Ticked(n, t).value)
  {
    hide PeerMoved, TransferItem, StreamStream, ItemOk, CanHappen, StopArrives;
    ReaderStaysSilent(n.s.peer, t.io);
    ServerSendsNothing(n.s, StreamStream(n.s.peer, t.io));
  }

  lemma PeerTickSilent(n: Net, m: Session, t: Tick)
    requires Linked(n, m) && Good(m) && Silent(n) && Enabled(n, t) && t.ready.PeerReady?
    ensures Ticked(n, t).Some? && CalmTick(n, t) && Silent(Ticked(n, t).value)
  {
    Roles(m);
    var _, _ := PeerTickRefines(n, m, t);
    hide Good, Ticked, Enabled, Carries, PeerStream, Silent;
    if t.side.Client? {
      ClientTickSilent(n, t);
    } else {
      ServerTickSilent(n, t);
    }
  }

  /** With nothing sent to the client, every mute wake-up is calm and leaves it so. */
  lemma TickSilent(n: Net, m: Session, t: Tick)
    requires Linked(n, m) && Good(m) && Silent(n) && Enabled(n, t) && Mute(n, t)
    ensures Ticked(n, t).Some? && CalmTick(n, t) && Silent(Ticked(n, t).value)
  {
    if t.ready.PeerReady? {
      PeerTickSilent(n, m, t);
    } else {
      OwnTickSilent(n, m, t);
    }
  }

  /** Mute wake-ups, one after the other. */
  predicate MuteReaches(n: Net, ticks: seq<Tick>, n': Net)
    decreases |ticks|
  {
    if ticks == [] then n == n' else
      Enabled(n, ticks[0]) && Mute(n, ticks[0]) && Ticked(n, ticks[0]).Some?
      && MuteReaches(Ticked(n, ticks[0]).value, ticks[1..], n')
  }

  ghost predicate MuteReachable(infos: seq<DeviceInfo>, n: Net) {
    Startable(infos) && exists ticks :: MuteReaches(Begin(infos), ticks, n)
  }

  lemma {:induction false} MuteRunIsCalm(n: Net, m: Session, ticks: seq<Tick>, n': Net) returns (m': Session)
    requires Linked(n, m) && Good(m) && Silent(n) && AllHandled(m.acts) && MuteReaches(n, ticks, n')
    ensures NetReaches(n, ticks, n')
    ensures Linked(n', m') && Good(m') && AllHandled(m'.acts) && Silent(n')
    ensures exists moves :: Reaches(m, moves, m')
    decreases |ticks|
  {
    hide Linked, Good, Enabled, CalmTick, Ticked, Reaches, Mute, Silent, AllHandled;
    if ticks == [] {
      m' := m;
      NoMoves(m);
      assert Reaches(m, [], m');
    } else {
      TickSilent(n, m, ticks[0]);
      var m1, first := TickRefines(n, m, ticks[0]);
      m' := MuteRunIsCalm(Ticked(n, ticks[0]).value, m1, ticks[1..], n');
      var rest :| Reaches(m1, rest, m');
      ReachesJoin(m, first, m1, rest, m');
      assert Reaches(m, first + rest, m');
    }
  }

  /** The full-duplex condition is met by every run in which only the client commands: such a net is reachable
      with it, nothing is ever sent to the client, and everything that the server did was handling a message. */
  lemma OneWayNeedsNoCondition(infos: seq<DeviceInfo>, n: Net) returns (m: Session)
    requires MuteReachable(infos, n)
    ensures NetReachable(infos, n) && Silent(n)
    ensures Reachable(infos, m) && Good(m) && Linked(n, m) && AllHandled(m.acts)
  {
    hide Linked, Good, Reaches, NetReaches, MuteReaches;
    BeginLinked(infos);
    StartIsGood(infos);
    var ticks :| MuteReaches(Begin(infos), ticks, n);
    m := MuteRunIsCalm(Begin(infos), Start(infos), ticks, n);
    assert NetReaches(Begin(infos), ticks, n);
  }

  /** Nor can such a run fail: every enabled wake-up succeeds. */
  lemma OneWayNeverFails(infos: seq<DeviceInfo>, n: Net, t: Tick)
    requires MuteReachable(infos, n) && Enabled(n, t)
    ensures Ticked(n, t).Some?
  {
    hide Linked, Good, Enabled, Ticked, MuteReachable, NetReachable;
    var _ := OneWayNeedsNoCondition(infos, n);
    NetNeverFails(infos, n, t);
  }
}
