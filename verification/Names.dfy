/** The server's devices are the client's, under their virtual names. */
module Names {
  import opened Base
  import opened Wire
  import opened Streams
  import opened Framing
  import opened Daemons
  import opened Replay
  import opened Sessions
  import opened Tables
  import opened Invariants
  import Convergence
  import opened Endings
  import opened Relays
  import opened Network
  import opened Theorems

  // ---------------------------------------------------------------- names

  const PREFIX: string := "(rcn-virt) "

  lemma {:induction false} TextOfText(text: seq<byte>, rest: seq<byte>)
    requires 0 !in text && (rest == [] || rest[0] == 0)
    ensures Text(text + rest) == text
    decreases |text|
  {
    if text == [] {
      assert text + rest == rest;
    } else {
      assert (text + rest)[1..] == text[1..] + rest;
      TextOfText(text[1..], rest);
    }
  }

  lemma {:induction false} TextHasNoZero(name: seq<byte>)
    ensures 0 !in Text(name)
  {
    if name != [] && name[0] != 0 {
      TextHasNoZero(name[1..]);
    }
  }

  /** A virtual device's name, read as text, is the prefix and the physical device's name, cut off after 80 bytes. */
  lemma VirtualName(name: Name)
    ensures forall k :: 0 <= k < |PREFIX| ==> VirtName(name)[k] == PREFIX[k] as int
    ensures |Text(VirtName(name))| >= |PREFIX| && Text(VirtName(name))[|PREFIX|..] == Keep(Text(name), 80 - |PREFIX|)
    ensures Text(VirtName(name))[..|PREFIX|] == VirtName(name)[..|PREFIX|]
  {
    TextHasNoZero(name);
    var text := VIRT_PREFIX + Text(name);
    assert 0 !in text;
    if |text| >= 80 {
      assert text[..80] + [] == text[..80];
      TextOfText(text[..80], []);
    } else {
      TextOfText(text, Zeros(80 - |text|));
    }
  }

  // ---------------------------------------------------------------- the session

  function Infos(devs: seq<Dev>): (r: seq<DeviceInfo>)
    ensures |r| == |devs|
  {
    seq(|devs|, i requires 0 <= i < |devs| => devs[i].info)
  }

  /** The devices that the messages create. */
  function NewInfos(ms: seq<PeerMsg>): seq<DeviceInfo> {
    if ms == [] then [] else
      (if ms[0].DevCrt? then [NewUdev(ms[0].info).info] else []) + NewInfos(ms[1..])
  }

  lemma {:induction false} NewInfosJoin(a: seq<PeerMsg>, b: seq<PeerMsg>)
    ensures NewInfos(a + b) == NewInfos(a) + NewInfos(b)
    decreases |a|
  {
    if a == [] {
      assert a + b == b;
    } else {
      assert (a + b)[1..] == a[1..] + b;
      NewInfosJoin(a[1..], b);
      Assoc(if a[0].DevCrt? then [NewUdev(a[0].info).info] else [], NewInfos(a[1..]), NewInfos(b));
    }
  }

  lemma {:induction false} NothingCreated(ms: seq<PeerMsg>)
    requires forall x :: x in ms ==> !x.DevCrt?
    ensures NewInfos(ms) == []
  {
    if ms != [] {
      assert ms[0] in ms;
      NothingCreated(ms[1..]);
    }
  }

  function Renamed(info: DeviceInfo): DeviceInfo {
    info.(name := VirtName(info.name))
  }

  /** The server's devices, then those whose creation is under way, are the client's under their virtual names. */
  predicate Named(m: Session) {
    var all := Infos(m.s.devices) + NewInfos(m.cs);
    |all| == |m.c.devices| && forall i :: 0 <= i < |all| ==> all[i] == Renamed(m.c.devices[i].info)
  }

  lemma {:induction false} CreationsAre(infos: seq<DeviceInfo>)
    ensures |NewInfos(Creations(infos))| == |infos|
    ensures forall i :: 0 <= i < |infos| ==> NewInfos(Creations(infos))[i] == Renamed(infos[i])
    decreases |infos|
  {
    if infos != [] {
      assert Creations(infos)[0] == DevCrt(infos[0]);
      assert Creations(infos)[1..] == Creations(infos[1..]);
      CreationsAre(infos[1..]);
    }
  }

  lemma StartNamed(infos: seq<DeviceInfo>)
    ensures Named(Start(infos))
  {
    var m, grabs := Start(infos), GrabMsgs(Devices(infos), true);
    CreationsAre(infos);
    NothingCreated(grabs);
    NewInfosJoin(Creations(infos), grabs);
    assert NewInfos(Creations(infos)) + [] == NewInfos(Creations(infos));
    assert Infos([]) + NewInfos(m.cs) == NewInfos(m.cs);
  }

  lemma HandlerInfos(core: Core, x: PeerMsg)
    requires PeerHandler(core, x).Done?
    ensures Infos(PeerHandler(core, x).core.devices) == Infos(core.devices) + NewInfos([x])
  {
    assert NewInfos([x]) == (if x.DevCrt? then [NewUdev(x.info).info] else []) + NewInfos([x][1..]);
  }

  /** Neither daemon's devices change but in what Infos leaves out, and nothing is created. */
  lemma RecordNamed(m: Session, side: Role, core: Core, out: seq<PeerMsg>)
    requires Named(m) && Infos(core.devices) == Infos(m.At(side).devices) && forall x :: x in out ==> !x.DevCrt?
    ensures Named(Record(m, side, core, out))
  {
    assert forall i :: 0 <= i < |core.devices| ==> Infos(core.devices)[i] == core.devices[i].info;
    assert forall i :: 0 <= i < |m.c.devices| ==> Infos(m.c.devices)[i] == m.c.devices[i].info;
    assert |Infos(core.devices)| == |Infos(m.At(side).devices)|;
    NothingCreated(out);
    NewInfosJoin(m.cs, out);
    assert NewInfos(m.cs) + [] == NewInfos(m.cs);
  }

  lemma EffectInfos(core: Core, e: Effect)
    ensures Infos(Effected(core, e).devices) == Infos(core.devices)
    ensures forall x :: x in EffectOut(core, e) ==> !x.DevCrt?
  {
  }

  lemma DevNamed(m: Session, side: Role, i: nat, io: Io)
    requires Good(m) && Named(m) && Possible(m, DevMove(side, i, io))
    ensures After(m, DevMove(side, i, io)).Some? && Named(After(m, DevMove(side, i, io)).value)
  {
    hide DevIo, Good, CanHappen, Named, Infos;
    DevMoveKeepsGood(m, side, i, io);
    var o := OutcomeOf(m, DevMove(side, i, io));
    DevInfos(m, side, i, io);
    RecordNamed(m, side, o.core, o.out);
  }

  lemma DevInfos(m: Session, side: Role, i: nat, io: Io)
    requires Possible(m, DevMove(side, i, io)) && DevIo(m.At(side), i, io).Done?
    ensures Infos(DevIo(m.At(side), i, io).core.devices) == Infos(m.At(side).devices)
    ensures forall x :: x in DevIo(m.At(side), i, io).out ==> !x.DevCrt?
  {
    DeviceWakes(m.At(side), i, io);
    Convergence.DevOut(m.At(side), i, StreamStream(m.At(side).devices[i].stream, io));
    hide StreamStream, DevMoved;
  }

  lemma OnlyCommands(m: Session)
    requires Good(m) && m.sc != []
    ensures !m.sc[0].DevCrt?
  {
    assert m.sc[0] in m.sc;
  }

  lemma DeliverNamed(m: Session, side: Role)
    requires Good(m) && Named(m) && Possible(m, Deliver(side))
    ensures After(m, Deliver(side)).Some? && Named(After(m, Deliver(side)).value)
  {
    hide PeerHandler, Good, NewInfos, Infos, Toggle;
    DeliverMove(m, side);
    var x, rest := m.Inbound(side)[0], m.Inbound(side)[1..];
    var o := PeerHandler(m.At(side), x);
    HandlerInfos(m.At(side), x);
    MessageEffect(m.At(side), x);
    assert m.Inbound(side) == [x] + rest;
    if side.Client? {
      OnlyCommands(m);
      NothingCreated([x]);
      assert Infos(m.c.devices) + [] == Infos(m.c.devices);
      RecordNamed(m.(sc := rest), Client, o.core, o.out);
    } else {
      NewInfosJoin([x], rest);
      Assoc(Infos(m.s.devices), NewInfos([x]), NewInfos(rest));
    }
  }

  lemma MoveNamed(m: Session, move: Move)
    requires Good(m) && Named(m) && Possible(m, move)
    ensures After(m, move).Some? && Named(After(m, move).value)
  {
    match move
    case DevMove(side, i, io) => DevNamed(m, side, i, io);
    case RelayMove(side, r, io) =>
      Convergence.RequestEffect(m, side, r, io);
      var o := OutcomeOf(m, move);
      EffectInfos(m.At(side), Convergence.Issues(m, move));
      RecordNamed(m, side, o.core, o.out);
      hide CanHappen, RelayIo, Named, Good;
    case AcceptMove(side) => RecordNamed(m, side, Accept(m.At(side)), []);
    case Deliver(side) => DeliverNamed(m, side);
  }

  lemma {:induction false} RunNamed(m: Session, moves: seq<Move>, m': Session)
    requires Good(m) && Named(m) && Reaches(m, moves, m')
    ensures Named(m')
    decreases |moves|
  {
    hide Good, Named, Possible, After;
    if moves != [] {
      MoveKeepsGood(m, moves[0]);
      MoveNamed(m, moves[0]);
      RunNamed(After(m, moves[0]).value, moves[1..], m');
    }
  }

  lemma ReachableIsNamed(infos: seq<DeviceInfo>, m: Session)
    requires Reachable(infos, m)
    ensures Named(m)
  {
    hide Good, Reaches, Named;
    StartIsGood(infos);
    StartNamed(infos);
    var moves :| Reaches(Start(infos), moves, m);
    RunNamed(Start(infos), moves, m);
  }

  // ---------------------------------------------------------------- the net

  /** Each device of the server is the client's at the same place, with its keys, bitmaps and id, under its virtual
      name; all of them are there once everything is delivered. */
  lemma NamesReplicate(infos: seq<DeviceInfo>, n: Net, j: nat)
    requires NetReachable(infos, n) && j < |n.s.core.devices|
    ensures j < |n.c.core.devices|
    ensures n.s.core.devices[j].info == n.c.core.devices[j].info.(name := VirtName(n.c.core.devices[j].info.name))
    ensures Delivered(n) ==> |n.s.core.devices| == |n.c.core.devices|
  {
    hide NetReachable, Reachable, Good, Carries, PeerStream, Delivered, NewInfos;
    var m := NetRefinesSession(infos, n);
    ReachableIsNamed(infos, m);
    assert (Infos(m.s.devices) + NewInfos(m.cs))[j] == m.s.devices[j].info;
    if Delivered(n) {
      DeliveredSession(n, m);
      assert NewInfos([]) == [] by { NothingCreated([]); }
    }
  }

  /** So the lists of both sides, once everything is delivered, show the same devices: entry by entry, the server's
      name is the client's with the prefix. */
  lemma ListedNamesAgree(infos: seq<DeviceInfo>, n: Net, j: nat)
    requires NetReachable(infos, n) && Delivered(n) && j < |n.c.core.devices|
    ensures var c, s := ListBody(n.c.core.devices), ListBody(n.s.core.devices);
      |c| == |s| == 81 * |n.c.core.devices| && s[81 * j..81 * j + 80] == VirtName(c[81 * j..81 * j + 80])
  {
    hide NetReachable, Delivered, ListBody;
    ListsAgree(infos, n, j);
    ListBodyLength(n.s.core.devices);
    NamesReplicate(infos, n, j);
    ListEntry(n.c.core.devices, j);
    ListEntry(n.s.core.devices, j);
  }
}
