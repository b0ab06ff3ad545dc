/** Two-way pausing and resuming: when the two daemons, joined by byte channels, end in the same state. */
module NetConvergence {
  import opened Base
  import opened Wire
  import opened Streams
  import opened Framing
  import opened Daemons
  import opened Replay
  import opened Sessions
  import opened Invariants
  import opened Convergence
  import opened Network
  import opened OneWay
  import opened PlainRuns
  import opened Theorems

  // ---------------------------------------------------------------- what the bytes under way say

  /** The bytes under way to `side` spell these messages. */
  predicate Spells(n: Net, side: Role, ms: seq<PeerMsg>) {
    Carries(n.End(Opposite(side)).peer.queue, n.Into(side), n.End(side).peer.fallback, Frames(ms))
  }

  lemma {:induction false} EncodingIsInjective(fs: seq<Frame>, gs: seq<Frame>)
    requires AllFit(fs) && AllFit(gs) && EncodeAll(fs) == EncodeAll(gs)
    ensures fs == gs
    decreases |fs|
  {
    if fs != [] {
      var f, rest := fs[0], EncodeAll(fs[1..]);
      HeaderRoundTrip(f.value, |f.body|);
      Assoc(HeaderOf(f.value, |f.body|), f.body, rest);
      FirstFrame(HeaderOf(f.value, |f.body|), f.body, rest, gs);
      EncodingIsInjective(fs[1..], gs[1..]);
      assert fs == [f] + fs[1..] && gs == [gs[0]] + gs[1..];
    }
  }

  /** They spell no others. */
  lemma SpellsOnce(n: Net, side: Role, a: seq<PeerMsg>, b: seq<PeerMsg>)
    requires Spells(n, side, a) && Spells(n, side, b)
    ensures a == b
  {
    EncodingIsInjective(Frames(a), Frames(b));
    assert |Frames(a)| == |Frames(b)|;
    hide FromFrame, EncodeAll;
    forall i | 0 <= i < |a| ensures a[i] == b[i] {
      assert Frames(a)[i] == Frames(b)[i];
      PeerMsgRoundTrip(a[i]);
      PeerMsgRoundTrip(b[i]);
    }
    hide ToFrame;
  }

  lemma LinkedSpells(n: Net, m: Session, side: Role)
    requires Linked(n, m)
    ensures Spells(n, side, m.Inbound(side))
    ensures forall ms :: Spells(n, side, ms) ==> ms == m.Inbound(side)
  {
    hide Carries, Frames, PeerStream;
    forall ms | Spells(n, side, ms) ensures ms == m.Inbound(side) {
      SpellsOnce(n, side, ms, m.Inbound(side));
    }
  }

  /** Draining both channels leaves both daemons in the same state. */
  ghost predicate NetConverges(n: Net) {
    exists toC, toS :: Spells(n, Client, toC) && Spells(n, Server, toS)
      && Settled(n.c.core.state, toC) == Settled(n.s.core.state, toS)
  }

  lemma LinkedConverges(n: Net, m: Session)
    requires Linked(n, m)
    ensures NetConverges(n) <==> Converges(m)
  {
    hide Spells, Settled, Carries, Frames, PeerStream;
    LinkedSpells(n, m, Client);
    LinkedSpells(n, m, Server);
  }

  // ---------------------------------------------------------------- one wake-up

  /** A relay pauses or resumes the daemon in this wake-up. */
  predicate Toggled(n: Net, t: Tick)
    requires Enabled(n, t)
  {
    !Untoggled(n, t)
  }

  /** It does so while the last command under way to that daemon is the opposite one. */
  ghost predicate CrossingTick(n: Net, t: Tick)
    requires Enabled(n, t)
  {
    Toggled(n, t) && exists ms :: Spells(n, t.side, ms) && LastCommand(ms) == Some(n.End(t.side).core.state)
  }

  lemma RelayChangesState(m: Session, move: Move)
    requires Good(m) && Possible(m, move) && move.RelayMove?
    ensures After(m, move).Some?
    ensures Issues(m, move).Toggling? <==> After(m, move).value.At(move.side).state != m.At(move.side).state
  {
    hide CanHappen, RelayIo, Good, StreamStream, ItemOk, KnownRequest;
    RequestEffect(m, move.side, move.r, move.io);
  }

  lemma TickToggles(n: Net, m: Session, t: Tick, m': Session)
    requires Linked(n, m) && Good(m) && Enabled(n, t) && Possible(m, SessionMove(t))
    requires After(m, SessionMove(t)) == Some(m') && Ticked(n, t).Some? && Linked(Ticked(n, t).value, m')
    ensures Toggled(n, t) <==> Issues(m, SessionMove(t)).Toggling?
    ensures CrossingTick(n, t) <==> Crosses(m, SessionMove(t))
  {
    hide Good, Possible, After, Carries, PeerStream, Ticked, Enabled, Spells, LastCommand;
    if t.ready.RelayReady? {
      RelayChangesState(m, SessionMove(t));
    }
    if Toggled(n, t) {
      CommandChangesState(m, SessionMove(t));
      LinkedSpells(n, m, t.side);
      CrossingIsLast(n, t, m.Inbound(t.side), Commanded(Issues(m, SessionMove(t)).pause));
    }
  }

  lemma CrossingIsLast(n: Net, t: Tick, inbound: seq<PeerMsg>, state: RcnState)
    requires Enabled(n, t) && Toggled(n, t) && n.End(t.side).core.state != state
    requires Spells(n, t.side, inbound) && forall ms :: Spells(n, t.side, ms) ==> ms == inbound
    ensures CrossingTick(n, t) <==> !Uncrossed(inbound, state)
  {
    hide Toggled, Enabled, Spells, LastCommand;
    if !Uncrossed(inbound, state) {
      assert LastCommand(inbound) == Some(n.End(t.side).core.state) by {
        assert LastCommand(inbound).value != state;
      }
    }
  }

  /** Every calm wake-up keeps the daemons converging or not, except a relay's pause or resume: that leaves them
      converging if and only if it does not cross its opposite. */
  lemma TickConverges(infos: seq<DeviceInfo>, n: Net, t: Tick)
    requires NetReachable(infos, n) && Enabled(n, t) && CalmTick(n, t)
    ensures Ticked(n, t).Some?
    ensures if Toggled(n, t) then NetConverges(Ticked(n, t).value) <==> !CrossingTick(n, t)
            else NetConverges(Ticked(n, t).value) <==> NetConverges(n)
  {
    hide NetReachable, Reachable, Linked, Good, Enabled, CalmTick, Ticked, NetConverges, Converges, Toggled,
      CrossingTick;
    var m := NetRefinesSession(infos, n);
    var _, _ := StepConverges(n, m, t);
  }

  lemma StepConverges(n: Net, m: Session, t: Tick) returns (m': Session, moves: seq<Move>)
    requires Linked(n, m) && Good(m) && Enabled(n, t) && CalmTick(n, t)
    ensures Ticked(n, t).Some? && Linked(Ticked(n, t).value, m') && Good(m') && Reaches(m, moves, m')
    ensures if Toggled(n, t) then NetConverges(Ticked(n, t).value) <==> !CrossingTick(n, t)
            else NetConverges(Ticked(n, t).value) <==> NetConverges(n)
  {
    hide Linked, Good, Enabled, CalmTick, Ticked, NetConverges, Converges, Toggled, CrossingTick, Possible, After,
      Issues, Crosses, SessionMove;
    m', moves := TickRefines(n, m, t);
    LinkedConverges(n, m);
    LinkedConverges(Ticked(n, t).value, m');
    if moves != [] {
      OneMoveOnly(m, SessionMove(t), m');
      TickToggles(n, m, t, m');
      MoveConverges(m, SessionMove(t));
    } else {
      StillUntoggled(n, m, t);
    }
  }

  /** Without a move of the session, the states stay. */
  lemma StillUntoggled(n: Net, m: Session, t: Tick)
    requires Linked(n, m) && Enabled(n, t) && Ticked(n, t).Some? && Linked(Ticked(n, t).value, m)
    ensures !Toggled(n, t)
  {
    hide Ticked, Enabled, PeerStream, Carries;
  }

  // ---------------------------------------------------------------- runs

  /** No relay pauses or resumes against the last command under way to its daemon. */
  ghost predicate NeverCrossing(n: Net, ticks: seq<Tick>)
    decreases |ticks|
  {
    ticks == [] ||
    (Enabled(n, ticks[0]) && Ticked(n, ticks[0]).Some?
     && !CrossingTick(n, ticks[0]) && NeverCrossing(Ticked(n, ticks[0]).value, ticks[1..]))
  }

  lemma {:induction false} RunStaysConverging(n: Net, m: Session, ticks: seq<Tick>, n': Net)
    requires Linked(n, m) && Good(m) && NetReaches(n, ticks, n') && NeverCrossing(n, ticks) && NetConverges(n)
    ensures NetConverges(n')
    decreases |ticks|
  {
    hide Linked, Good, Enabled, CalmTick, Ticked, NetConverges, Toggled, CrossingTick, Reaches;
    if ticks != [] {
      var m1, _ := StepConverges(n, m, ticks[0]);
      RunStaysConverging(Ticked(n, ticks[0]).value, m1, ticks[1..], n');
    }
  }

  lemma DrainedAgree(n: Net)
    requires NetConverges(n) && Delivered(n) && Silent(n)
    ensures n.c.core.state == n.s.core.state
  {
    var toC, toS :| Spells(n, Client, toC) && Spells(n, Server, toS)
      && Settled(n.c.core.state, toC) == Settled(n.s.core.state, toS);
    DrainedIsEmpty(n.s.peer.queue, n.c.peer.fallback, Frames(toC));
    DrainedIsEmpty(n.c.peer.queue, n.s.peer.fallback, Frames(toS));
    assert toC == [] && toS == [];
  }

  /** Relays of both daemons may pause and resume at any time: as long as no command is issued against the last one
      under way to its daemon, the daemons agree whenever nothing is under way. */
  lemma NetRunConverges(infos: seq<DeviceInfo>, ticks: seq<Tick>, n: Net)
    requires Startable(infos) && NetReaches(Begin(infos), ticks, n) && NeverCrossing(Begin(infos), ticks)
    ensures NetConverges(n)
    ensures Delivered(n) && Silent(n) ==> n.c.core.state == n.s.core.state
  {
    hide Linked, Good, NetReaches, NeverCrossing, NetConverges, Begin, Startable;
    BeginLinked(infos);
    StartIsGood(infos);
    StartConverges(infos);
    LinkedConverges(Begin(infos), Start(infos));
    RunStaysConverging(Begin(infos), Start(infos), ticks, n);
    if Delivered(n) && Silent(n) {
      DrainedAgree(n);
    }
  }

  lemma StartConverges(infos: seq<DeviceInfo>)
    ensures Converges(Start(infos))
  {
    SettledQuiet(Running, Greeting(infos));
  }
}
