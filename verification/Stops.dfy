/** A stop commanded at either daemon reaches the other, and a daemon's loop ends when its relays are gone. */
module Stops {
  import opened Base
  import opened Wire
  import opened Streams
  import opened Framing
  import opened Daemons
  import opened Sessions
  import opened Invariants
  import Convergence
  import opened Endings
  import opened Network
  import opened OneWay
  import ByteStore
  import Ownership

  /** Once the server is to exit, the client is too, or a stop is under way to it; and the client is to exit only when
      the server is, or when it has sent the server a stop of its own. */
  predicate StopsReach(m: Session) {
    && (m.s.exit ==> m.c.exit || Stop in m.sc)
    && (Stop in m.sc ==> m.s.exit)
    && (m.c.exit ==> m.s.exit || Stop in m.cs)
  }

  lemma StartReaches(infos: seq<DeviceInfo>)
    ensures StopsReach(Start(infos))
  {
  }

  lemma EffectReaches(m: Session, side: Role, core: Core, e: Effect)
    requires StopsReach(m) && m.c.role.Client? && m.s.role.Server? && Alike(core, Effected(m.At(side), e))
    ensures StopsReach(Record(m, side, core, EffectOut(m.At(side), e)))
  {
    if e.Stopping? {
      var m' := Record(m, side, core, [Stop]);
      assert side.Client? ==> m'.cs[|m.cs|] == Stop;
      assert side.Server? ==> m'.sc[|m.sc|] == Stop;
    }
  }

  lemma DevReaches(m: Session, side: Role, i: nat, io: Io)
    requires Good(m) && StopsReach(m) && Possible(m, DevMove(side, i, io))
    ensures After(m, DevMove(side, i, io)).Some? && StopsReach(After(m, DevMove(side, i, io)).value)
  {
    DevMoveKeepsGood(m, side, i, io);
    DeviceWakes(m.At(side), i, io);
    Convergence.DevOut(m.At(side), i, StreamStream(m.At(side).devices[i].stream, io));
    hide StreamStream, DevMoved, Good, CanHappen;
  }

  lemma DeliverReaches(m: Session, side: Role)
    requires Good(m) && StopsReach(m) && Possible(m, Deliver(side))
    ensures After(m, Deliver(side)).Some? && StopsReach(After(m, Deliver(side)).value)
  {
    DeliverMove(m, side);
    var x, rest := m.Inbound(side)[0], m.Inbound(side)[1..];
    MessageEffect(m.At(side), x);
    hide PeerHandler, Good;
    assert m.Inbound(side) == [x] + rest;
    assert Stop in m.Inbound(side) <==> x == Stop || Stop in rest;
  }

  lemma MoveReaches(m: Session, move: Move)
    requires Good(m) && StopsReach(m) && Possible(m, move)
    ensures After(m, move).Some? && StopsReach(After(m, move).value)
  {
    match move
    case DevMove(side, i, io) => DevReaches(m, side, i, io);
    case RelayMove(side, r, io) =>
      Roles(m);
      Convergence.RequestEffect(m, side, r, io);
      var o := OutcomeOf(m, move);
      EffectReaches(m, side, o.core, Convergence.Issues(m, move));
      hide CanHappen, RelayIo, StopsReach, Good;
    case AcceptMove(side) =>
      Roles(m);
      EffectReaches(m, side, Accept(m.At(side)), Nothing);
    case Deliver(side) => DeliverReaches(m, side);
  }

  lemma {:induction false} RunReaches(m: Session, moves: seq<Move>, m': Session)
    requires Good(m) && StopsReach(m) && Reaches(m, moves, m')
    ensures StopsReach(m')
    decreases |moves|
  {
    hide Good, StopsReach, Possible, After;
    if moves != [] {
      MoveKeepsGood(m, moves[0]);
      MoveReaches(m, moves[0]);
      RunReaches(After(m, moves[0]).value, moves[1..], m');
    }
  }

  lemma ReachableStops(infos: seq<DeviceInfo>, m: Session)
    requires Reachable(infos, m)
    ensures StopsReach(m)
  {
    hide Good, Reaches, StopsReach;
    StartIsGood(infos);
    StartReaches(infos);
    var moves :| Reaches(Start(infos), moves, m);
    RunReaches(Start(infos), moves, m);
  }

  /** A stop commanded at the server ends the client too: once everything for the client has been handled, the client
      is to exit, and its loop ends exactly when it has no relay left. */
  lemma StopReachesClient(infos: seq<DeviceInfo>, n: Net)
    requires NetReachable(infos, n) && n.s.core.exit && Silent(n)
    ensures n.c.core.exit && (CanExit(n.c.core) <==> |n.c.core.relays| == 0)
  {
    var m := NetRefinesSession(infos, n);
    ReachableStops(infos, m);
    hide Good, NetReachable, Reachable;
    DrainedIsEmpty(n.s.peer.queue, n.c.peer.fallback, Frames(m.sc));
    assert m.sc == [];
  }

  /** Nobody stops uncommanded: when the client is to exit and the server is not, the bytes under way to the server
      spell a stop. */
  lemma StopIsUnderWay(infos: seq<DeviceInfo>, n: Net) returns (ms: seq<PeerMsg>)
    requires NetReachable(infos, n) && n.c.core.exit && !n.s.core.exit
    ensures Carries(n.c.peer.queue, n.toS, n.s.peer.fallback, Frames(ms)) && Stop in ms
  {
    var m := NetRefinesSession(infos, n);
    ReachableStops(infos, m);
    hide Good, NetReachable, Reachable;
    ms := m.cs;
  }

  // ---------------------------------------------------------------- the end of the loop

  /** The daemon's relays are those of the registry's relay_streams, one by one. */
  ghost predicate Counted(core: Core, o: Ownership.Owners) {
    Ownership.Owned(o) && |core.relays| == |o.relayStreams|
  }

  lemma AcceptCounts(core: Core, o: Ownership.Owners, p: Ownership.Ptr)
    requires Counted(core, o) && p !in o.live
    ensures Counted(Accept(core), Ownership.Accepted(o, p))
  {
    Ownership.AddKeepsOwned(o, p, Ownership.FdRelay);
  }

  /** A relay that hangs up leaves the same place in both, and its stream is freed. */
  lemma HangUpCounts(core: Core, o: Ownership.Owners, r: nat, io: Io)
    requires Counted(core, o) && r < |core.relays| && HangsUp(io)
    requires ItemOk(Next(core.relays[r])) && Live(Next(core.relays[r]))
    ensures RelayIo(core, r, io).Done? && o.relayStreams[r] in o.live
    ensures var o' := Ownership.Closed(o, o.relayStreams[r]);
      o'.Some? && Counted(RelayIo(core, r, io).core, o'.value)
      && o'.value.relayStreams == ByteStore.Removed(o.relayStreams, r) && o.relayStreams[r] !in o'.value.live
  {
    var p := o.relayStreams[r];
    assert p in o.relayStreams;
    RelayGone(core, r, io);
    Ownership.CloseKeepsOwned(o, p);
    assert p !in o.relayStreams[..r];
    ByteStore.IndexIsFirst(o.relayStreams, p, r);
    hide RelayIo;
  }

  /** When the loop ends there is no relay left to tell, nor a relay's stream to free. */
  lemma ExitIsClean(core: Core, o: Ownership.Owners)
    requires Counted(core, o) && CanExit(core)
    ensures core.relays == [] && o.relayStreams == []
    ensures forall p :: p in o.streamPtrs ==> o.live[p] != Ownership.FdRelay
  {
    LoopGoesOn(core);
    Ownership.ExitLeavesNoRelays(o);
  }
}
