/** Pausing, and the keys it leaves pressed on the server's virtual devices. */
module Pausing {
  import opened Base
  import opened Wire
  import opened Streams
  import opened Framing
  import opened Daemons
  import opened Replay
  import opened Sessions
  import opened Tables
  import opened Invariants
  import opened Convergence

  // ---------------------------------------------------------------- drained devices

  /** Once a device's queue is drained, the keys it holds are those pressed since the last pause or resume that
      the server did, by message or by command. */
  lemma HeldWhenDrained(m: Session, j: nat)
    requires Good(m) && j < |m.s.devices| && m.s.devices[j].stream.queue == []
    ensures var dev := m.s.devices[j]; Held(dev.info, dev.log) == Held(dev.info, Recent(m.acts, dev.info))
  {
    var dev := m.s.devices[j];
    var script := Script(m.acts, dev.info);
    assert Replaying(dev, script);
    assert script[..|script|] == script;
    ReplayKeepsHeld(dev.info, dev.log, script);
    HeldIsRecent(m.acts, dev.info);
  }

  // ---------------------------------------------------------------- only the client commands

  /** No input is sent between a pause and the next resume. */
  predicate Quiet(ms: seq<PeerMsg>) {
    ms == [] || (Quiet(Front(ms)) && (Last(ms).Input? ==> Settled(Running, Front(ms)).Running?))
  }

  lemma {:induction false} QuietPrefix(a: seq<PeerMsg>, b: seq<PeerMsg>)
    requires Quiet(a + b)
    ensures Quiet(a)
    decreases |b|
  {
    if b == [] {
      assert a + b == a;
    } else {
      assert Front(a + b) == a + Front(b);
      QuietPrefix(a, Front(b));
    }
  }

  lemma {:induction false} QuietJoin(a: seq<PeerMsg>, b: seq<PeerMsg>)
    requires Quiet(a) && forall x :: x in b ==> !x.Input?
    ensures Quiet(a + b)
    decreases |b|
  {
    if b == [] {
      assert a + b == a;
    } else {
      assert Front(a + b) == a + Front(b);
      QuietJoin(a, Front(b));
    }
  }

  /** While the server has done nothing of its own accord, the client has been sent nothing, both states are what
      the client's commands made them, and the client sends no input while paused. */
  predicate Paced(m: Session) {
    AllHandled(m.acts) ==>
      && m.sc == []
      && m.c.state == Settled(Running, m.sent)
      && m.s.state == Settled(Running, HandledMsgs(m.acts))
      && Quiet(m.sent)
  }

  lemma StartPaced(infos: seq<DeviceInfo>)
    ensures Paced(Start(infos))
  {
    hide Devices, Creations, GrabMsgs;
    GreetingQuiet(infos);
    SettledQuiet(Running, Greeting(infos));
    QuietJoin([], Greeting(infos));
    assert [] + Greeting(infos) == Greeting(infos);
  }

  lemma GreetingQuiet(infos: seq<DeviceInfo>)
    ensures forall x :: x in Greeting(infos) ==> x.DevCrt? || x.UpdGrab?
  {
  }

  lemma EffectPaced(m: Session, side: Role, core: Core, e: Effect)
    requires Paced(m) && m.c.role.Client? && m.s.role.Server? && Alike(core, Effected(m.At(side), e))
    ensures Paced(Record(m, side, core, EffectOut(m.At(side), e)))
  {
    var out := EffectOut(m.At(side), e);
    if side.Client? {
      QuietOut(m.c, e);
      SettledJoin(Running, m.sent, out);
      if AllHandled(m.acts) {
        QuietJoin(m.sent, out);
      }
      EffectState(m.c, e);
      hide EffectOut, Quiet;
    } else {
      if e.Nothing? {
        assert m.acts + Locals(out) == m.acts && m.sc + out == m.sc;
      } else {
        var acts' := m.acts + Locals(out);
        assert acts'[|m.acts|] in acts' && acts'[|m.acts|].Local?;
      }
    }
  }

  lemma QuietOut(core: Core, e: Effect)
    ensures forall x :: x in EffectOut(core, e) ==> !x.Input?
  {
  }

  lemma EffectState(core: Core, e: Effect)
    ensures Effected(core, e).state == Settled(core.state, EffectOut(core, e))
  {
    if e.Toggling? {
      var out := ToggleOut(core, e.pause) + [Command(e.pause)];
      assert Last(out) == Command(e.pause);
    } else {
      SettledQuiet(core.state, EffectOut(core, e));
    }
  }

  lemma ReadPaced(m: Session, i: nat, io: Io)
    requires Good(m) && Paced(m) && Possible(m, DevMove(Client, i, io))
    ensures After(m, DevMove(Client, i, io)).Some? && Paced(After(m, DevMove(Client, i, io)).value)
  {
    DevMoveKeepsGood(m, Client, i, io);
    assert m.c.state.Running?;
    var o := DevIo(m.c, i, io);
    DevOut(m.c, i, StreamStream(m.c.devices[i].stream, io));
    DevOutShort(m.c, i, StreamStream(m.c.devices[i].stream, io));
    hide DevIo, Good, CanHappen;
    SettledJoin(Running, m.sent, o.out);
    SettledQuiet(Settled(Running, m.sent), o.out);
    if o.out == [] {
      assert m.sent + o.out == m.sent;
    } else {
      assert Front(m.sent + o.out) == m.sent;
    }
  }

  lemma DevOutShort(core: Core, i: nat, t: Moved<Stream>)
    requires i < |core.devices| && DevMoved(core, i, t).Done?
    ensures |DevMoved(core, i, t).out| <= 1
  {
  }

  lemma WritePaced(m: Session, j: nat, io: Io)
    requires Good(m) && Paced(m) && Possible(m, DevMove(Server, j, io))
    ensures After(m, DevMove(Server, j, io)).Some? && Paced(After(m, DevMove(Server, j, io)).value)
  {
    DevMoveKeepsGood(m, Server, j, io);
    var t := StreamStream(m.s.devices[j].stream, io);
    ServerDevSilent(m.s, j, t);
    DevOut(m.s, j, t);
    hide StreamStream, DevMoved, Good, CanHappen;
    assert m.acts + Locals([]) == m.acts && m.sc + [] == m.sc;
  }

  lemma DeliverPaced(m: Session, side: Role)
    requires Good(m) && Paced(m) && Possible(m, Deliver(side))
    ensures After(m, Deliver(side)).Some? && Paced(After(m, Deliver(side)).value)
  {
    DeliverMoveKeepsGood(m, side);
    if side.Client? {
      assert !AllHandled(m.acts);
    } else {
      DeliverKeepsInv(m);
      DeliveredRecord(m);
      var x := m.cs[0];
      HandledState(m.s, x);
      HandledJoin(m.acts, Handled(x));
      SettledJoin(Running, HandledMsgs(m.acts), [x]);
      var acts' := m.acts + [Handled(x)];
      assert AllHandled(acts') ==> AllHandled(m.acts) by {
        forall a | a in m.acts ensures a in acts' {}
      }
      hide PeerHandler, Good, Settled, Quiet;
    }
  }

  lemma MovePaced(m: Session, move: Move)
    requires Good(m) && Paced(m) && Possible(m, move)
    ensures After(m, move).Some? && Paced(After(m, move).value)
  {
    match move
    case DevMove(side, i, io) =>
      if side.Client? {
        ReadPaced(m, i, io);
      } else {
        WritePaced(m, i, io);
      }
    case RelayMove(side, r, io) =>
      RequestEffect(m, side, r, io);
      var o := OutcomeOf(m, move);
      EffectPaced(m, side, o.core, Issues(m, move));
      hide CanHappen, RelayIo, Paced, Good;
    case AcceptMove(side) => EffectPaced(m, side, Accept(m.At(side)), Nothing);
    case Deliver(side) => DeliverPaced(m, side);
  }

  lemma {:induction false} RunPaced(m: Session, moves: seq<Move>, m': Session)
    requires Good(m) && Paced(m) && Reaches(m, moves, m')
    ensures Paced(m')
    decreases |moves|
  {
    hide Good, Paced, Possible, After;
    if moves != [] {
      MoveKeepsGood(m, moves[0]);
      MovePaced(m, moves[0]);
      RunPaced(After(m, moves[0]).value, moves[1..], m');
    }
  }

  lemma ReachableIsPaced(infos: seq<DeviceInfo>, m: Session)
    requires Reachable(infos, m)
    ensures Paced(m)
  {
    hide Good, Paced, Reaches;
    StartIsGood(infos);
    StartPaced(infos);
    var moves :| Reaches(Start(infos), moves, m);
    RunPaced(Start(infos), moves, m);
  }

  /** After a pause that the client commanded nothing recent is pressed. */
  lemma {:induction false} PausedIsRecent(acts: seq<Act>, info: DeviceInfo)
    requires AllHandled(acts) && Quiet(HandledMsgs(acts)) && Settled(Running, HandledMsgs(acts)).Paused?
    ensures Recent(acts, info) == []
  {
    if acts != [] && !Toggles(Last(acts)) {
      var ms, x := HandledMsgs(Front(acts)), Last(acts).m;
      assert Last(acts) in acts && forall a :: a in Front(acts) ==> a in acts;
      assert HandledMsgs(acts) == ms + [x] && Front(ms + [x]) == ms && Last(ms + [x]) == x;
      LastCommandJoin(ms, [x]);
      PausedIsRecent(Front(acts), info);
    }
  }

  /** The client's pause reaches every key: while only the client has commanded, no virtual device whose queue is
      drained holds a key while the server is paused, whatever was replayed before. */
  lemma NoStuckKeys(m: Session, j: nat)
    requires Good(m) && Paced(m) && AllHandled(m.acts)
    requires m.s.state.Paused? && j < |m.s.devices| && m.s.devices[j].stream.queue == []
    ensures Held(m.s.devices[j].info, m.s.devices[j].log) == {}
  {
    HeldWhenDrained(m, j);
    QuietPrefix(HandledMsgs(m.acts), m.cs);
    PausedIsRecent(m.acts, m.s.devices[j].info);
  }

  /** While only the client has commanded, the server handles no input between a pause and a resume. */
  lemma NoInputWhilePaused(m: Session)
    requires Good(m) && Paced(m) && AllHandled(m.acts) && m.cs != [] && m.cs[0].Input?
    ensures m.s.state.Running?
  {
    var ms, x := HandledMsgs(m.acts), m.cs[0];
    assert ms + m.cs == (ms + [x]) + m.cs[1..];
    QuietPrefix(ms + [x], m.cs[1..]);
    assert Front(ms + [x]) == ms && Last(ms + [x]) == x;
  }

  // ---------------------------------------------------------------- when the server pauses

  /** A key press that is under way when a relay pauses the server is replayed afterwards: the key stays held
      while both the server's state and its relays say that it is paused. */
  lemma ServerPauseLeavesKeyHeld(m: Session, r: nat, io: Io, j: nat) returns (m': Session)
    requires Good(m) && Possible(m, RelayMove(Server, r, io)) && Issues(m, RelayMove(Server, r, io)) == Toggling(true)
    requires !m.s.exit
    requires m.cs != [] && m.cs[0].Input? && j < |m.s.devices| && m.cs[0].id == m.s.devices[j].info.id
    requires var e := m.cs[0].event; e.etype == EV_KEY && e.value != 0 && Supported(m.s.devices[j].info, e.code)
    ensures Reaches(m, [RelayMove(Server, r, io), Deliver(Server)], m') && m'.s.state.Paused?
    ensures j < |m'.s.devices| && m'.s.devices[j].info == m.s.devices[j].info
    ensures m.cs[0].event.code in Held(m.s.devices[j].info, Script(m'.acts, m.s.devices[j].info))
  {
    hide Possible, After, Good, Held, Script, Reaches, Supported, Issues;
    var first := RelayMove(Server, r, io);
    ServerPauses(m, r, io);
    MoveKeepsGood(m, first);
    var m1 := After(m, first).value;
    m' := PressArrives(m1, j);
    TwoMoves(m, first, m1, Deliver(Server), m');
  }

  lemma ServerPauses(m: Session, r: nat, io: Io)
    requires Good(m) && Possible(m, RelayMove(Server, r, io)) && Issues(m, RelayMove(Server, r, io)) == Toggling(true)
    ensures After(m, RelayMove(Server, r, io)).Some? &&
      var m1 := After(m, RelayMove(Server, r, io)).value;
      m1.s.state.Paused? && m1.cs == m.cs && m1.s.exit == m.s.exit
      && |m1.s.devices| == |m.s.devices|
      && forall k :: 0 <= k < |m.s.devices| ==> m1.s.devices[k].info == m.s.devices[k].info
  {
    RequestEffect(m, Server, r, io);
    hide CanHappen, RelayIo;
  }

  lemma PressArrives(m: Session, j: nat) returns (m': Session)
    requires Good(m) && !CanExit(m.s) && m.s.state.Paused?
    requires m.cs != [] && m.cs[0].Input? && j < |m.s.devices| && m.cs[0].id == m.s.devices[j].info.id
    requires var e := m.cs[0].event; e.etype == EV_KEY && e.value != 0 && Supported(m.s.devices[j].info, e.code)
    ensures Possible(m, Deliver(Server)) && After(m, Deliver(Server)) == Some(m')
    ensures m'.c == m.c && m'.cs == m.cs[1..] && m'.sc == m.sc && m'.s.exit == m.s.exit
    ensures m'.s.state.Paused? && j < |m'.s.devices| && m'.s.devices[j].info == m.s.devices[j].info
    ensures m.cs[0].event.code in Held(m.s.devices[j].info, Script(m'.acts, m.s.devices[j].info))
  {
    hide Held, Script, Replicated, Shape, Scripts, Logs, Grabs, HandledMsgs, Supported;
    DeliverKeepsInv(m);
    DeliveredRecord(m);
    m' := After(m, Deliver(Server)).value;
    HeldAfterPress(m, j, m.cs[0]);
  }

  /** A delivered key press is the last thing in the device's script. */
  lemma HeldAfterPress(m: Session, j: nat, x: PeerMsg)
    requires Good(m) && m.cs != [] && x == m.cs[0] && x.Input? && j < |m.s.devices|
    requires x.id == m.s.devices[j].info.id
    requires x.event.etype == EV_KEY && x.event.value != 0 && Supported(m.s.devices[j].info, x.event.code)
    ensures var info := m.s.devices[j].info; x.event.code in Held(info, Script(m.acts + [Handled(x)], info))
  {
    var info := m.s.devices[j].info;
    assert Ids(m.s.devices)[j] == info.id;
    ScriptJoin(m.acts, Handled(x), info);
    HeldAfter(info, Script(m.acts, info), x.event);
  }
}
