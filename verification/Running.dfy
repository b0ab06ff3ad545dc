/** The two daemon objects at work: what their methods do over a whole run is a run of the net. */
module Running {
  import opened Base
  import opened Wire
  import opened Streams
  import opened Framing
  import opened Daemons
  import opened DaemonContexts
  import opened Sessions
  import opened Invariants
  import opened Network

  ghost function NetOf(c: DaemonContext, s: DaemonContext, toS: seq<byte>, toC: seq<byte>): Net
    reads c, s
  {
    Net(Daemon(c.Snapshot(), c.peer), Daemon(s.Snapshot(), s.peer), toS, toC)
  }

  /** Both daemons up to the accepted connection: the client has captured its devices. */
  method Connect(infos: seq<DeviceInfo>) returns (c: DaemonContext, s: DaemonContext)
    ensures fresh(c) && fresh(s) && c != s
    ensures NetOf(c, s, [], []) == Begin(infos)
  {
    var blank := NewStream(Reading, Socket);
    c := new DaemonContext(Daemon(Core(Client, Running, false, true, [], []), blank));
    s := new DaemonContext(Daemon(Core(Server, Running, false, true, [], []), blank));
    c.CaptureDevices(infos);
  }

  lemma EnabledCanWake(n: Net, t: Tick)
    requires Enabled(n, t)
    ensures CanWake(n.End(t.side), t.ready, t.io)
  {
  }

  /** One pass of one daemon's loop. It takes what it reads from the one channel and leaves what it writes in the
      other. */
  method Pass(c: DaemonContext, s: DaemonContext, t: Tick, toS: seq<byte>, toC: seq<byte>)
    returns (toS': seq<byte>, toC': seq<byte>)
    requires c != s && Enabled(NetOf(c, s, toS, toC), t) && Ticked(NetOf(c, s, toS, toC), t).Some?
    modifies if t.side.Client? then c else s
    ensures Ticked(old(NetOf(c, s, toS, toC)), t) == Some(NetOf(c, s, toS', toC'))
  {
    EnabledCanWake(NetOf(c, s, toS, toC), t);
    hide Enabled, WakeUp, CanWake, CanHappen;
    var taken := if t.ready.PeerReady? && t.io.Got? then |t.io.data| else 0;
    if t.side == Client {
      var _, wrote := c.Wake(t.ready, t.io);
      toS', toC' := toS + wrote, toC[taken..];
    } else {
      var _, wrote := s.Wake(t.ready, t.io);
      toC', toS' := toC + wrote, toS[taken..];
    }
  }

  /** d_loop of both daemons, one pass after the other as the ticks say: the objects end exactly where the net does,
      so whatever holds of every reachable net holds of them. */
  method RunDaemons(infos: seq<DeviceInfo>, ticks: seq<Tick>, ghost end: Net)
    returns (c: DaemonContext, s: DaemonContext, toS: seq<byte>, toC: seq<byte>)
    requires Startable(infos) && NetReaches(Begin(infos), ticks, end)
    ensures NetOf(c, s, toS, toC) == end && NetReachable(infos, end)
  {
    hide Enabled, Ticked, CalmTick, Begin;
    c, s := Connect(infos);
    toS, toC := [], [];
    var i := 0;
    assert ticks[0..] == ticks;
    while i < |ticks|
      invariant 0 <= i <= |ticks| && fresh(c) && fresh(s) && c != s
      invariant NetReaches(NetOf(c, s, toS, toC), ticks[i..], end)
    {
      assert ticks[i..][0] == ticks[i] && ticks[i..][1..] == ticks[i + 1..];
      toS, toC := Pass(c, s, ticks[i], toS, toC);
      i := i + 1;
    }
    assert ticks[i..] == [];
  }
}
