/** A run, for any devices, after which a paused server holds a key. */
module HeldKeys {
  import opened Base
  import opened Wire
  import opened Streams
  import opened Framing
  import opened Daemons
  import opened Replay
  import opened Sessions
  import opened Tables
  import opened Invariants
  import opened Convergence
  import opened Names
  import opened Pausing

  // ---------------------------------------------------------------- everything is delivered to the server

  /** Nothing about the session but the server's table and its virtual devices has changed. */
  predicate Handed(m: Session, m': Session) {
    && m'.c == m.c && m'.sc == m.sc && m'.sent == m.sent
    && m'.s.exit == m.s.exit && m'.s.state == m.s.state
  }

  predicate Announcements(ms: seq<PeerMsg>) {
    forall x :: x in ms ==> x.DevCrt? || x.UpdGrab?
  }

  lemma ScriptUnchanged(acts: seq<Act>, a: Act, info: DeviceInfo)
    requires Contribution(a, info) == []
    ensures Script(acts + [a], info) == Script(acts, info)
  {
    hide Created, Contribution;
    ScriptJoin(acts, a, info);
    if acts != [] && Created(Front(acts), info.id) {
      assert acts == Front(acts) + [Last(acts)];
      CreatedJoin(Front(acts), Last(acts), info.id);
    }
  }

  lemma DeliverOne(m: Session, info: DeviceInfo) returns (m': Session)
    requires Good(m) && !m.s.exit && m.cs != [] && (m.cs[0].DevCrt? || m.cs[0].UpdGrab?)
    ensures Possible(m, Deliver(Server)) && After(m, Deliver(Server)) == Some(m') && Good(m')
    ensures Handed(m, m') && m'.cs == m.cs[1..]
    ensures Infos(m'.s.devices) == Infos(m.s.devices) + NewInfos([m.cs[0]])
    ensures m.cs[0].UpdGrab? ==> Script(m'.acts, info) == Script(m.acts, info)
  {
    hide Shape, Grabs, Replicated, Logs, Scripts, Script, Infos, NewInfos, Created, PeerHandler;
    DeliverMoveKeepsGood(m, Server);
    DeliverKeepsInv(m);
    DeliveredRecord(m);
    HandlerInfos(m.s, m.cs[0]);
    MessageEffect(m.s, m.cs[0]);
    m' := After(m, Deliver(Server)).value;
    if m.cs[0].UpdGrab? {
      ScriptUnchanged(m.acts, Handled(m.cs[0]), info);
    }
  }

  /** Creations and updates of grabs can be delivered one after the other. */
  lemma {:induction false} DeliverAll(m: Session, info: DeviceInfo) returns (moves: seq<Move>, m': Session)
    requires Good(m) && !m.s.exit && Announcements(m.cs)
    ensures Reaches(m, moves, m') && Good(m') && Handed(m, m') && m'.cs == []
    ensures Infos(m'.s.devices) == Infos(m.s.devices) + NewInfos(m.cs)
    ensures (forall x :: x in m.cs ==> x.UpdGrab?) ==> Script(m'.acts, info) == Script(m.acts, info)
    decreases |m.cs|
  {
    hide Good, Possible, After, Script, Infos;
    if m.cs == [] {
      moves, m' := [], m;
      assert Infos(m.s.devices) + [] == Infos(m.s.devices);
    } else {
      var m1 := DeliverOne(m, info);
      var rest;
      rest, m' := DeliverAll(m1, info);
      moves := [Deliver(Server)] + rest;
      assert moves[1..] == rest;
      assert NewInfos(m.cs) == NewInfos([m.cs[0]]) + NewInfos(m.cs[1..]) by {
        assert [m.cs[0]][1..] == [];
        assert NewInfos([m.cs[0]]) == (if m.cs[0].DevCrt? then [NewUdev(m.cs[0].info).info] else []) + NewInfos([]);
      }
    }
  }

  /** The server has created every device of the client, and nothing is under way. */
  lemma Introduced(infos: seq<DeviceInfo>, i: nat) returns (moves: seq<Move>, m: Session)
    requires Startable(infos) && i < |infos|
    ensures Reaches(Start(infos), moves, m) && Good(m) && Handed(Start(infos), m) && m.cs == []
    ensures |m.s.devices| == |infos| && m.s.devices[i].info == NewUdev(infos[i]).info
  {
    StartIsGood(infos);
    GreetingQuiet(infos);
    hide Good, Reaches, Greeting;
    moves, m := DeliverAll(Start(infos), infos[i]);
    assert Reachable(infos, m);
    ReachableIsNamed(infos, m);
    assert (Infos(m.s.devices) + [])[i] == m.s.devices[i].info;
  }

  // ---------------------------------------------------------------- a key is pressed

  function KeyPress(code: U16): Event {
    Event(Zeros(16), EV_KEY, code, 1)
  }

  lemma WholeRead(s: Stream, e: Event)
    requires s == NewStream(Reading, Device)
    ensures var io := Got(EncodeEvent(e));
      ItemOk(Next(s)) && IoFits(Next(s), io)
      && var t := StreamStream(s, io);
         t.ok && Next(t.now).phase.Complete? && t.now.queue == [] && DecodeEvent(t.now.fallback.evt) == e
  {
    EventRoundTrip(e);
    var z := Zeros(EVENT_SIZE);
    assert z[..0] + EncodeEvent(e) + z[EVENT_SIZE..] == EncodeEvent(e);
  }

  /** The client reads the event from its device, and queues it for the server. */
  lemma KeyIsRead(m: Session, i: nat, e: Event) returns (m': Session)
    requires Good(m) && !m.c.exit && m.c.state.Running? && i < |m.c.devices|
    requires m.c.devices[i].stream == NewStream(Reading, Device)
    ensures var move := DevMove(Client, i, Got(EncodeEvent(e)));
      Possible(m, move) && After(m, move) == Some(m') && Good(m')
    ensures m'.cs == m.cs + [Input(m.c.devices[i].info.id, e)] && m'.sc == m.sc && m'.s == m.s && m'.acts == m.acts
    ensures m'.c.state == m.c.state && m'.c.exit == m.c.exit
  {
    var move := DevMove(Client, i, Got(EncodeEvent(e)));
    WholeRead(m.c.devices[i].stream, e);
    assert m.c.devices[i].listening;
    hide NewStream, StreamStream, ItemOk, IoFits, Shape, Replicated, Logs, Scripts, DecodeEvent;
    assert Possible(m, move);
    DevMoveKeepsGood(m, Client, i, Got(EncodeEvent(e)));
    m' := After(m, move).value;
  }

  // ---------------------------------------------------------------- a virtual device is drained

  lemma WriteMove(m: Session, j: nat)
    requires Good(m) && !CanExit(m.s) && j < |m.s.devices|
    ensures Possible(m, DevMove(Server, j, Put(EVENT_SIZE)))
    ensures ItemOk(Next(m.s.devices[j].stream)) && IoFits(Next(m.s.devices[j].stream), Put(EVENT_SIZE))
    ensures After(m, DevMove(Server, j, Put(EVENT_SIZE)))
         == Some(m.(s := WithDev(m.s, j, Wrote(m.s.devices[j]))))
  {
    var dev := m.s.devices[j];
    assert Replaying(dev, Script(m.acts, dev.info));
    WriteReplays(dev, Script(m.acts, dev.info));
    WriteCompletes(m.s, j);
    hide Replaying, Shape, Grabs, Replicated, Logs, Script, DevIo, Wrote;
    assert m.acts + Locals([]) == m.acts && m.sc + [] == m.sc;
  }

  lemma WroteShrinks(dev: Dev, script: seq<Event>)
    requires Replaying(dev, script)
    ensures ItemOk(Next(dev.stream)) && IoFits(Next(dev.stream), Put(EVENT_SIZE))
    ensures Wrote(dev).info == dev.info
    ensures dev.stream.queue != [] ==> |Wrote(dev).stream.queue| == |dev.stream.queue| - 1
  {
    WriteReplays(dev, script);
    WroteStream(dev);
  }

  lemma {:induction false} DrainDevice(m: Session, j: nat) returns (moves: seq<Move>, m': Session)
    requires Good(m) && !CanExit(m.s) && j < |m.s.devices|
    ensures Reaches(m, moves, m') && Good(m')
    ensures m' == m.(s := m.s.(devices := m'.s.devices)) && |m'.s.devices| == |m.s.devices|
    ensures m'.s.devices[j].info == m.s.devices[j].info && m'.s.devices[j].stream.queue == []
    decreases |m.s.devices[j].stream.queue|
  {
    hide Good, Possible, After, Wrote, Replaying;
    if m.s.devices[j].stream.queue == [] {
      moves, m' := [], m;
    } else {
      var move := DevMove(Server, j, Put(EVENT_SIZE));
      WriteMove(m, j);
      MoveKeepsGood(m, move);
      DeviceReplays(m, j);
      WroteShrinks(m.s.devices[j], Script(m.acts, m.s.devices[j].info));
      var m1 := After(m, move).value;
      var rest;
      rest, m' := DrainDevice(m1, j);
      moves := [move] + rest;
      assert moves[1..] == rest;
    }
  }

  lemma DeviceReplays(m: Session, j: nat)
    requires Good(m) && j < |m.s.devices|
    ensures Replaying(m.s.devices[j], Script(m.acts, m.s.devices[j].info))
  {
  }

  // ---------------------------------------------------------------- the run

  lemma ServerObeys(m: Session, m': Session)
    requires m.s.role.Server? && m.s.state.Running? && Obeyed(m, Server, RELAY_PAUSE, m')
    ensures m'.c == m.c && m'.cs == m.cs && m'.sc == m.sc + [Pause]
    ensures m'.s.state.Paused? && m'.s.exit == m.s.exit && Infos(m'.s.devices) == Infos(m.s.devices)
  {
    var e := Toggling(true);
    var core :| Alike(core, Effected(m.s, e)) && m' == Record(m, Server, core, EffectOut(m.s, e));
    assert EffectOut(m.s, e) == [Pause];
  }

  lemma ClientPauses(m: Session) returns (m': Session)
    requires Good(m) && !m.c.exit && m.cs == [] && m.sc == [Pause]
    ensures Possible(m, Deliver(Client)) && After(m, Deliver(Client)) == Some(m') && Good(m')
    ensures m'.sc == [] && m'.s == m.s && m'.acts == m.acts && m'.c.state.Paused?
    ensures forall x :: x in m'.cs ==> x.UpdGrab?
  {
    DeliverMoveKeepsGood(m, Client);
    m' := After(m, Deliver(Client)).value;
  }

  lemma MoveThen(m: Session, move: Move, m1: Session, rest: seq<Move>, m': Session)
    requires Possible(m, move) && After(m, move) == Some(m1) && Reaches(m1, rest, m')
    ensures Reaches(m, [move] + rest, m')
  {
    hide Possible, After;
    assert ([move] + rest)[1..] == rest;
  }

  /** A key press that the client has sent before it hears of the server's pause. */
  lemma PressCrossesPause(infos: seq<DeviceInfo>, i: nat, code: U16) returns (moves: seq<Move>, m: Session)
    requires Startable(infos) && i < |infos| && Supported(infos[i], code)
    ensures Reaches(Start(infos), moves, m) && Good(m)
    ensures m.cs == [] && m.sc == [Pause] && !m.c.exit && !m.s.exit && m.s.state.Paused?
    ensures i < |m.s.devices| && m.s.devices[i].info == NewUdev(infos[i]).info
    ensures code in Held(m.s.devices[i].info, Script(m.acts, m.s.devices[i].info))
  {
    hide Good, Reaches, Possible, After, Held, Script, Obeyed, Request, Infos, Supported;
    var xs, a := Introduced(infos, i);
    var press := DevMove(Client, i, Got(EncodeEvent(KeyPress(code))));
    var b := KeyIsRead(a, i, KeyPress(code));
    var c := RequestRuns(b, Server, RELAY_PAUSE);
    GoodRoles(b);
    ServerObeys(b, c);
    SameInfo(b.s.devices, c.s.devices, i);
    SameSupport(infos[i], code);
    m := PressArrives(c, i);
    MoveKeepsGood(c, Deliver(Server));
    var ys := Request(b, Server, RELAY_PAUSE);
    OneMove(c, Deliver(Server), m);
    ReachesJoin(b, ys, c, [Deliver(Server)], m);
    MoveThen(a, press, b, ys + [Deliver(Server)], m);
    moves := xs + ([press] + (ys + [Deliver(Server)]));
    ReachesJoin(Start(infos), xs, a, [press] + (ys + [Deliver(Server)]), m);
  }

  lemma GoodRoles(m: Session)
    requires Good(m)
    ensures m.s.role.Server? && m.c.role.Client?
  {
  }

  lemma SameInfo(devs: seq<Dev>, devs': seq<Dev>, i: nat)
    requires Infos(devs) == Infos(devs') && i < |devs|
    ensures |devs'| == |devs| && devs'[i].info == devs[i].info
  {
    assert |Infos(devs)| == |Infos(devs')|;
    assert Infos(devs)[i] == Infos(devs')[i];
  }

  lemma SameSupport(info: DeviceInfo, code: U16)
    requires Supported(info, code)
    ensures Supported(NewUdev(info).info, code)
  {
  }

  /** Whatever the devices, and for every key of each of them, there is a run that ends with both daemons paused,
      nothing under way and the device's queue written out, and the key held on the virtual device. */
  lemma PausedServerHoldsKey(infos: seq<DeviceInfo>, i: nat, code: U16) returns (moves: seq<Move>, m: Session)
    requires Startable(infos) && i < |infos| && Supported(infos[i], code)
    ensures Reaches(Start(infos), moves, m)
    ensures m.c.state.Paused? && m.s.state.Paused? && m.cs == [] && m.sc == []
    ensures i < |m.s.devices| && m.s.devices[i].info.id == infos[i].id && m.s.devices[i].stream.queue == []
    ensures code in Held(m.s.devices[i].info, m.s.devices[i].log)
  {
    hide Good, Reaches, Possible, After, Held, Script, Supported, Infos, NewInfos;
    var xs, a := PressCrossesPause(infos, i, code);
    var info := a.s.devices[i].info;
    var b := ClientPauses(a);
    var ys, c := DeliverAll(b, info);
    NothingCreated(b.cs);
    assert Infos(b.s.devices) + [] == Infos(b.s.devices);
    SameInfo(b.s.devices, c.s.devices, i);
    var zs;
    zs, m := DrainDevice(c, i);
    MoveThen(a, Deliver(Client), b, ys, c);
    ReachesJoin(Start(infos), xs, a, [Deliver(Client)] + ys, c);
    ReachesJoin(Start(infos), xs + ([Deliver(Client)] + ys), c, zs, m);
    moves := xs + ([Deliver(Client)] + ys) + zs;
    HeldWhenDrained(m, i);
    HeldIsRecent(m.acts, info);
  }
}
