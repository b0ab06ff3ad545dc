/** What holds in every reachable session. */
module Invariants {
  import opened Base
  import opened Wire
  import opened Streams
  import opened Framing
  import opened Daemons
  import opened Replay
  import opened Sessions
  import opened Tables

  // ---------------------------------------------------------------- the invariant

  predicate ReadingStream(s: Stream) {
    Safe(s) && s.defaultKind.Device? && s.defaultOp.Reading? && s.queue == [] && Live(s.fallback)
  }

  predicate Shape(m: Session) {
    && m.c.role.Client? && m.s.role.Server? && m.c.connected && m.s.connected
    && RelaysOk(m.c) && RelaysOk(m.s)
    && ListFits(m.c.devices)
    && (forall i :: 0 <= i < |m.c.devices| ==> ReadingStream(m.c.devices[i].stream))
  }

  /** RUNNING means every device is grabbed and listened to, PAUSED that none is. */
  predicate Grabs(c: Core) {
    forall i :: 0 <= i < |c.devices| ==> c.devices[i].grabbed == c.devices[i].listening == c.state.Running?
  }

  /** Every event read from a device has been queued for the server, in order. */
  predicate Logs(devs: seq<Dev>, sent: seq<PeerMsg>) {
    forall i :: 0 <= i < |devs| ==> InputsFor(sent, devs[i].info.id) == devs[i].log
  }

  predicate Scripts(devs: seq<Dev>, acts: seq<Act>) {
    && (forall j :: 0 <= j < |devs| ==> Replaying(devs[j], Script(acts, devs[j].info)))
    && (forall id :: Created(acts, id) <==> id in Ids(devs))
    && (forall id :: InOrder(acts, id))
  }

  predicate Inv(m: Session) {
    && Shape(m)
    && Grabs(m.c)
    && Replicated(m.c.devices, m.s.devices, m.cs)
    && Logs(m.c.devices, m.sent)
    && m.sent == HandledMsgs(m.acts) + m.cs
    && Scripts(m.s.devices, m.acts)
  }

  // ---------------------------------------------------------------- histories grow at the end

  lemma HandledJoin(acts: seq<Act>, a: Act)
    ensures HandledMsgs(acts + [a]) == HandledMsgs(acts) + if a.Handled? then [a.m] else []
  {
    assert Front(acts + [a]) == acts;
  }

  lemma ScriptJoin(acts: seq<Act>, a: Act, info: DeviceInfo)
    ensures Script(acts + [a], info)
         == if Created(acts, info.id) then Script(acts, info) + Contribution(a, info) else []
  {
    assert Front(acts + [a]) == acts;
  }

  predicate Creates(a: Act, id: U64) {
    a.Handled? && a.m.DevCrt? && a.m.info.id == id
  }

  lemma CreatedJoin(acts: seq<Act>, a: Act, id: U64)
    ensures Created(acts + [a], id) <==> Created(acts, id) || Creates(a, id)
  {
    var all := acts + [a];
    if Created(acts, id) {
      var i :| 0 <= i < |acts| && acts[i].Handled? && acts[i].m.DevCrt? && acts[i].m.info.id == id;
      assert all[i] == acts[i];
    } else if Creates(a, id) {
      assert all[|acts|] == a;
    }
  }

  lemma InOrderJoin(acts: seq<Act>, a: Act, id: U64)
    requires InOrder(acts, id)
    requires a.Handled? && a.m.Input? && a.m.id == id ==> Created(acts, id)
    ensures InOrder(acts + [a], id)
  {
    var all := acts + [a];
    forall i | 0 <= i < |all| && all[i].Handled? && all[i].m.Input? && all[i].m.id == id
      ensures Created(all[..i], id)
    {
      if i == |acts| {
        assert all[..i] == acts;
      } else {
        assert all[..i] == acts[..i];
      }
    }
  }

  lemma {:induction false} NoInputs(ms: seq<PeerMsg>, id: U64)
    requires forall m :: m in ms ==> !m.Input?
    ensures InputsFor(ms, id) == []
  {
    if ms != [] {
      NoInputs(Front(ms), id);
    }
  }

  // ---------------------------------------------------------------- the client

  lemma ReadingTransfers(s: Stream, io: Io)
    requires ReadingStream(s) && IoFits(Next(s), io) && Ordinary(io)
    ensures var t := StreamStream(s, io);
      && t.ok && t.now.queue == [] && !t.now.fallback.phase.Closed?
      && (!t.now.fallback.phase.Complete? ==> ReadingStream(t.now))
      && (t.now.fallback.phase.Complete? ==> ReadingStream(Reset(Collect(t.now))))
  {
    CallKeepsSafe(s, Call.Wake(io));
    if Next(StreamStream(s, io).now).phase.Complete? {
      CallKeepsSafe(StreamStream(s, io).now, Resolve);
    }
  }

  lemma SentLogs(devs: seq<Dev>, sent: seq<PeerMsg>, out: seq<PeerMsg>)
    requires Logs(devs, sent) && forall m :: m in out ==> !m.Input?
    ensures Logs(devs, sent + out)
  {
    forall i | 0 <= i < |devs| ensures InputsFor(sent + out, devs[i].info.id) == devs[i].log {
      InputsForJoin(sent, out, devs[i].info.id);
      NoInputs(out, devs[i].info.id);
    }
  }

  lemma ReadLogs(devs: seq<Dev>, sent: seq<PeerMsg>, i: nat, dev: Dev, e: Event)
    requires i < |devs| && Logs(devs, sent) && Distinct(Ids(devs))
    requires dev.info == devs[i].info && dev.log == devs[i].log + [e]
    ensures Logs(devs[i := dev], sent + [Input(dev.info.id, e)])
  {
    var one := [Input(dev.info.id, e)];
    assert Front(one) == [];
    forall k | 0 <= k < |devs| ensures InputsFor(sent + one, devs[k].info.id) == devs[i := dev][k].log {
      InputsForJoin(sent, one, devs[k].info.id);
      assert Ids(devs)[k] == devs[k].info.id && Ids(devs)[i] == devs[i].info.id;
    }
  }

  lemma Sent(m: Session, out: seq<PeerMsg>)
    requires m.sent == HandledMsgs(m.acts) + m.cs
    ensures m.sent + out == HandledMsgs(m.acts) + (m.cs + out)
  {
  }

  /** A wake-up of a captured device. */
  lemma ReadKeepsInv(m: Session, i: nat, io: Io)
    requires Inv(m) && i < |m.c.devices|
    requires IoFits(Next(m.c.devices[i].stream), io) && Ordinary(io)
    ensures var o := DevIo(m.c, i, io); o.Done? && Inv(Record(m, Client, o.core, o.out))
  {
    hide TransferItem, Replicated, Logs, Scripts, HandledMsgs, Grabs, AllRelayStreams, ItemOk;
    var dev := m.c.devices[i];
    ReadingTransfers(dev.stream, io);
    var t := StreamStream(dev.stream, io);
    if Next(t.now).phase.Complete? {
      var c := Collect(t.now);
      var e := DecodeEvent(c.fallback.evt);
      ReadEventKeepsInv(m, i, dev.(stream := Reset(c), log := dev.log + [e]), e);
      var mid := WithDev(m.c, i, dev.(stream := t.now));
      assert DevSettled(mid, i).core == WithDev(m.c, i, dev.(stream := Reset(c), log := dev.log + [e]));
    } else {
      ReadNothingKeepsInv(m, i, t.now);
    }
  }

  lemma ReadNothingKeepsInv(m: Session, i: nat, s: Stream)
    requires Inv(m) && i < |m.c.devices| && ReadingStream(s)
    ensures Inv(Record(m, Client, WithDev(m.c, i, m.c.devices[i].(stream := s)), []))
  {
    var dev := m.c.devices[i].(stream := s);
    WrittenKeepsTable(m.c.devices, i, dev);
    assert Ids(m.c.devices[i := dev]) == Ids(m.c.devices);
    assert m.cs + [] == m.cs && m.sent + [] == m.sent;
  }

  lemma ReadEventKeepsInv(m: Session, i: nat, dev: Dev, e: Event)
    requires Inv(m) && i < |m.c.devices| && ReadingStream(dev.stream)
    requires dev == m.c.devices[i].(stream := dev.stream, log := m.c.devices[i].log + [e])
    ensures Inv(Record(m, Client, WithDev(m.c, i, dev), [Input(dev.info.id, e)]))
  {
    var core, one := WithDev(m.c, i, dev), [Input(dev.info.id, e)];
    ReadLogs(m.c.devices, m.sent, i, dev, e);
    WrittenKeepsTable(m.c.devices, i, dev);
    assert Ids(core.devices) == Ids(m.c.devices);
    assert Ids(m.c.devices)[i] == dev.info.id;
    PlayQuiet(Table(m.c.devices), one);
    SendKeepsReplicated(m.c.devices, m.s.devices, m.cs, core.devices, one);
    Sent(m, one);
  }

  lemma ToggleOutQuiet(core: Core, pause: bool)
    ensures forall m :: m in ToggleOut(core, pause) ==> m.UpdGrab?
  {
  }

  /** The client pauses or resumes, telling the server `extra` besides. */
  lemma ClientToggleKeepsInv(m: Session, pause: bool, extra: seq<PeerMsg>, core: Core)
    requires Inv(m) && (forall x :: x in extra ==> x.Pause? || x.Resume?)
    requires Alike(core, Toggle(m.c, pause)) && RelaysOk(core)
    ensures Inv(Record(m, Client, core, ToggleOut(m.c, pause) + extra))
  {
    var out := ToggleOut(m.c, pause) + extra;
    ToggleKeepsReplicated(m.c, m.s.devices, m.cs, pause, extra);
    ToggleOutQuiet(m.c, pause);
    SentLogs(m.c.devices, m.sent, out);
    assert Logs(core.devices, m.sent + out) by {
      forall i | 0 <= i < |core.devices|
        ensures InputsFor(m.sent + out, core.devices[i].info.id) == core.devices[i].log
      {
        assert core.devices[i].info == m.c.devices[i].info && core.devices[i].log == m.c.devices[i].log;
      }
    }
    Sent(m, out);
  }

  /** Nothing changes at the client but its relays, its exit flag, and a stop sent. */
  lemma ClientIdleKeepsInv(m: Session, core: Core, out: seq<PeerMsg>)
    requires Inv(m) && Alike(core.(exit := m.c.exit), m.c) && RelaysOk(core)
    requires forall x :: x in out ==> x.Stop?
    ensures Inv(Record(m, Client, core, out))
  {
    SentLogs(m.c.devices, m.sent, out);
    PlayQuiet(Table(m.c.devices), out);
    SendKeepsReplicated(m.c.devices, m.s.devices, m.cs, core.devices, out);
    Sent(m, out);
  }

  // ---------------------------------------------------------------- the server

  lemma ScriptsGrow(acts: seq<Act>, a: Act, devs: seq<Dev>)
    requires Scripts(devs, acts)
    requires a.Handled? && a.m.Input? ==> a.m.id in Ids(devs)
    ensures forall id :: InOrder(acts + [a], id)
    ensures forall id :: Created(acts + [a], id) <==> id in Ids(devs) || Creates(a, id)
    ensures forall j :: 0 <= j < |devs| ==>
      Script(acts + [a], devs[j].info) == Script(acts, devs[j].info) + Contribution(a, devs[j].info)
  {
    forall id ensures InOrder(acts + [a], id) && (Created(acts + [a], id) <==> id in Ids(devs) || Creates(a, id)) {
      CreatedJoin(acts, a, id);
      InOrderJoin(acts, a, id);
    }
    forall j | 0 <= j < |devs|
      ensures Script(acts + [a], devs[j].info) == Script(acts, devs[j].info) + Contribution(a, devs[j].info)
    {
      assert Ids(devs)[j] == devs[j].info.id;
      ScriptJoin(acts, a, devs[j].info);
    }
  }

  lemma CreateKeepsScripts(acts: seq<Act>, devs: seq<Dev>, info: DeviceInfo)
    requires Scripts(devs, acts) && info.id !in Ids(devs)
    ensures Scripts(devs + [NewUdev(info)], acts + [Handled(DevCrt(info))])
  {
    var a, devs' := Handled(DevCrt(info)), devs + [NewUdev(info)];
    ScriptsGrow(acts, a, devs);
    NewUdevReplays(info);
    ScriptJoin(acts, a, NewUdev(info).info);
    assert Ids(devs') == Ids(devs) + [info.id];
    forall j | 0 <= j < |devs'| ensures Replaying(devs'[j], Script(acts + [a], devs'[j].info)) {
      if j < |devs| {
        assert Script(acts, devs[j].info) + [] == Script(acts, devs[j].info);
      }
    }
  }

  /** Every device gets its own contribution, and nothing is created. */
  lemma PushKeepsScripts(acts: seq<Act>, a: Act, devs: seq<Dev>, devs': seq<Dev>)
    requires Scripts(devs, acts) && !(a.Handled? && a.m.DevCrt?)
    requires a.Handled? && a.m.Input? ==> a.m.id in Ids(devs)
    requires |devs'| == |devs|
    requires forall j :: 0 <= j < |devs| ==> Alter(devs[j], devs'[j], Contribution(a, devs[j].info))
    ensures Scripts(devs', acts + [a])
  {
    ScriptsGrow(acts, a, devs);
    assert Ids(devs') == Ids(devs);
    forall j | 0 <= j < |devs'| ensures Replaying(devs'[j], Script(acts + [a], devs'[j].info)) {
      var es := Contribution(a, devs[j].info);
      ContributionGuarded(a, devs[j].info);
      PushReplays(devs[j], Script(acts, devs[j].info), es);
    }
  }

  /** dev' is dev with es pushed, and perhaps another grabbed flag. */
  predicate Alter(dev: Dev, dev': Dev, es: seq<Event>) {
    dev'.(grabbed := dev.grabbed) == PushEvents(dev, es)
  }

  lemma ContributionGuarded(a: Act, info: DeviceInfo)
    ensures Guarded(Contribution(a, info))
  {
    ScriptsAreGuarded(info, if a.m.Input? then a.m.event else SYN_REPORT);
  }

  lemma EmitAlters(devs: seq<Dev>, id: U64, e: Event, j: nat)
    requires Distinct(Ids(devs)) && id in Ids(devs) && j < |devs|
    ensures Alter(devs[j], Emit(devs, id, e)[j], Contribution(Handled(Input(id, e)), devs[j].info))
  {
    var k := FindById(Ids(devs), id).value;
    assert Ids(devs)[j] == devs[j].info.id && Ids(devs)[k] == id;
    if j != k {
      PushNothing(devs[j]);
    }
  }

  lemma InputKeepsScripts(acts: seq<Act>, devs: seq<Dev>, id: U64, e: Event)
    requires Scripts(devs, acts) && Distinct(Ids(devs)) && id in Ids(devs)
    ensures Scripts(Emit(devs, id, e), acts + [Handled(Input(id, e))])
  {
    var a := Handled(Input(id, e));
    forall j | 0 <= j < |devs| ensures Alter(devs[j], Emit(devs, id, e)[j], Contribution(a, devs[j].info)) {
      EmitAlters(devs, id, e, j);
    }
    PushKeepsScripts(acts, a, devs, Emit(devs, id, e));
  }

  lemma ReleaseKeepsScripts(acts: seq<Act>, a: Act, devs: seq<Dev>)
    requires Scripts(devs, acts) && Toggles(a)
    ensures Scripts(ReleaseAll(devs), acts + [a])
  {
    PushKeepsScripts(acts, a, devs, ReleaseAll(devs));
  }

  /** An act that queues no events. */
  lemma SilentKeepsScripts(acts: seq<Act>, a: Act, devs: seq<Dev>, devs': seq<Dev>)
    requires Scripts(devs, acts) && !Toggles(a)
    requires a.Handled? ==> !a.m.DevCrt? && !a.m.Input?
    requires |devs'| == |devs| && forall j :: 0 <= j < |devs| ==> devs'[j].(grabbed := devs[j].grabbed) == devs[j]
    ensures Scripts(devs', acts + [a])
  {
    forall j | 0 <= j < |devs| ensures Alter(devs[j], devs'[j], Contribution(a, devs[j].info)) {
      PushNothing(devs[j]);
    }
    PushKeepsScripts(acts, a, devs, devs');
  }

  /** The server handles a message. */
  lemma HandleKeepsScripts(core: Core, m: PeerMsg, acts: seq<Act>)
    requires core.role.Server? && Scripts(core.devices, acts) && Distinct(Ids(core.devices))
    requires Refers(Ids(core.devices), m) && !m.Stop?
    requires m.DevCrt? ==> m.info.id !in Ids(core.devices)
    requires PeerHandler(core, m).Done?
    ensures Scripts(PeerHandler(core, m).core.devices, acts + [Handled(m)])
  {
    var devs := core.devices;
    match m
    case DevCrt(info) => CreateKeepsScripts(acts, devs, info);
    case UpdGrab(id, g) => SilentKeepsScripts(acts, Handled(m), devs, SetGrab(devs, id, g));
    case Input(id, e) => InputKeepsScripts(acts, devs, id, e);
    case Pause => ReleaseKeepsScripts(acts, Handled(m), devs);
    case Resume => ReleaseKeepsScripts(acts, Handled(m), devs);
    case Stop =>
  }

  lemma NewIdIsNew(cdevs: seq<Dev>, sdevs: seq<Dev>, cs: seq<PeerMsg>)
    requires Replicated(cdevs, sdevs, cs) && cs != [] && cs[0].DevCrt?
    ensures cs[0].info.id !in Ids(sdevs)
  {
    KeysOfTable(sdevs);
    KeysOfTable(cdevs);
    var t' := Play1(Table(sdevs), cs[0]);
    KeysAfterPlay(t', cs[1..]);
    assert Keys(t') == Ids(sdevs) + [cs[0].info.id];
    var ids := Ids(cdevs);
    assert ids[|sdevs|] == cs[0].info.id;
    forall j | 0 <= j < |sdevs| ensures Ids(sdevs)[j] != cs[0].info.id {
      assert ids[j] == Ids(sdevs)[j] && ids[j] != ids[|sdevs|];
    }
  }

  lemma HandlerKeepsRelayList(core: Core, m: PeerMsg)
    requires RelaysOk(core) && PeerHandler(core, m).Done?
    ensures RelaysOk(PeerHandler(core, m).core)
    ensures PeerHandler(core, m).core.role == core.role && PeerHandler(core, m).core.connected == core.connected
  {
    var relays := PeerHandler(core, m).core.relays;
    match m
    case Pause => BroadcastKeepsRelays(core.relays, RELAY_PAUSE);
    case Resume => BroadcastKeepsRelays(core.relays, RELAY_RESUME);
    case Stop => BroadcastKeepsRelays(core.relays, RELAY_STOP);
    case _ => assert relays == core.relays;
  }

  /** The server handles the oldest message under way. */
  lemma DeliverKeepsInv(m: Session)
    requires Inv(m) && m.cs != [] && !m.cs[0].Stop?
    ensures var o := PeerHandler(m.s, m.cs[0]);
      o.Done? && o.out == []
      && Inv(m.(s := o.core, cs := m.cs[1..], acts := m.acts + [Handled(m.cs[0])]))
  {
    var x := m.cs[0];
    DeliverKeepsReplicated(m.c.devices, m.s, m.cs);
    ServerPrefix(m.c.devices, m.s.devices, m.cs);
    if x.DevCrt? {
      NewIdIsNew(m.c.devices, m.s.devices, m.cs);
    }
    HandleKeepsScripts(m.s, x, m.acts);
    HandlerKeepsRelayList(m.s, x);
    HandledJoin(m.acts, Handled(x));
    assert m.cs == [x] + m.cs[1..];
    assert HandledMsgs(m.acts) + m.cs == HandledMsgs(m.acts) + [x] + m.cs[1..];
  }

  /** The server changes its devices without touching its table, and does the acts `locals` of its own. */
  lemma ServerKeepsInv(m: Session, core: Core, out: seq<PeerMsg>)
    requires Inv(m) && core.role.Server? && core.connected && RelaysOk(core)
    requires Table(core.devices) == Table(m.s.devices) && Ids(core.devices) == Ids(m.s.devices)
    requires Scripts(core.devices, m.acts + Locals(out)) && |out| <= 1
    ensures Inv(Record(m, Server, core, out))
  {
    if |out| == 1 {
      assert Locals(out) == [Local(out[0])];
      HandledJoin(m.acts, Local(out[0]));
      assert HandledMsgs(m.acts) + [] == HandledMsgs(m.acts);
    } else {
      assert m.acts + Locals(out) == m.acts;
    }
  }

  /** The server pauses or resumes by a relay's command. */
  lemma ServerToggleKeepsInv(m: Session, pause: bool, core: Core)
    requires Inv(m) && Alike(core, Toggle(m.s, pause)) && RelaysOk(core)
    ensures Inv(Record(m, Server, core, [Command(pause)]))
  {
    ReleaseKeepsScripts(m.acts, Local(Command(pause)), m.s.devices);
    assert Locals([Command(pause)]) == [Local(Command(pause))];
    assert Table(core.devices) == Table(m.s.devices) && Ids(core.devices) == Ids(m.s.devices);
    ServerKeepsInv(m, core, [Command(pause)]);
  }

  lemma ServerIdleKeepsInv(m: Session, core: Core, out: seq<PeerMsg>)
    requires Inv(m) && Alike(core.(exit := m.s.exit), m.s) && RelaysOk(core)
    requires out == [] || out == [Stop]
    ensures Inv(Record(m, Server, core, out))
  {
    if out == [] {
      assert m.acts + Locals(out) == m.acts;
    } else {
      assert Locals(out) == [Local(Stop)];
      SilentKeepsScripts(m.acts, Local(Stop), m.s.devices, m.s.devices);
    }
    ServerKeepsInv(m, core, out);
  }

  /** EAGAIN on a virtual device. */
  lemma AgainChangesNothing(core: Core, j: nat)
    requires j < |core.devices|
    requires var it := Next(core.devices[j].stream); ItemOk(it) && Idle(it) && it.kind.Device?
    ensures DevIo(core, j, Again) == Done(core, [])
  {
    var s := core.devices[j].stream;
    assert WithNext(s, Next(s)) == s;
    assert core.devices[j := core.devices[j]] == core.devices;
  }

  /** A wake-up of a virtual device. */
  lemma WriteKeepsInv(m: Session, j: nat, io: Io)
    requires Inv(m) && j < |m.s.devices|
    requires IoFits(Next(m.s.devices[j].stream), io) && Ordinary(io) && (io.Put? ==> io.count == EVENT_SIZE)
    ensures var o := DevIo(m.s, j, io); o.Done? && Inv(Record(m, Server, o.core, o.out))
  {
    hide AllRelayStreams, Replicated, Logs, HandledMsgs, Grabs, Tracks, ReadingStream;
    Roles(m);
    var dev := m.s.devices[j];
    WriteReplays(dev, Script(m.acts, dev.info));
    if io == Put(EVENT_SIZE) {
      WriteCompletes(m.s, j);
      WrittenKeepsInv(m, j, Wrote(dev));
    } else {
      assert io == Again;
      AgainChangesNothing(m.s, j);
      WrittenKeepsInv(m, j, dev);
      assert WithDev(m.s, j, dev) == m.s;
    }
  }

  lemma WrittenKeepsScripts(devs: seq<Dev>, acts: seq<Act>, j: nat, dev: Dev)
    requires Scripts(devs, acts) && j < |devs| && dev.info == devs[j].info
    requires Replaying(dev, Script(acts, dev.info))
    ensures Scripts(devs[j := dev], acts)
    ensures Ids(devs[j := dev]) == Ids(devs)
  {
    assert Ids(devs[j := dev]) == Ids(devs);
  }

  lemma WrittenKeepsTable(devs: seq<Dev>, j: nat, dev: Dev)
    requires j < |devs| && dev.info == devs[j].info && dev.grabbed == devs[j].grabbed
    ensures Table(devs[j := dev]) == Table(devs)
  {
  }

  lemma WrittenKeepsInv(m: Session, j: nat, dev: Dev)
    requires Inv(m) && j < |m.s.devices|
    requires dev == m.s.devices[j].(stream := dev.stream, log := dev.log)
    requires Replaying(dev, Script(m.acts, dev.info))
    ensures Inv(Record(m, Server, WithDev(m.s, j, dev), []))
  {
    WrittenKeepsScripts(m.s.devices, m.acts, j, dev);
    WrittenKeepsTable(m.s.devices, j, dev);
    assert m.acts + Locals([]) == m.acts;
    ServerKeepsInv(m, WithDev(m.s, j, dev), []);
  }

  // ---------------------------------------------------------------- every move

  lemma EffectKeepsInv(m: Session, side: Role, core: Core, e: Effect)
    requires Inv(m) && Alike(core, Effected(m.At(side), e)) && RelaysOk(core)
    ensures Inv(Record(m, side, core, EffectOut(m.At(side), e)))
  {
    if side.Client? {
      match e
      case Nothing => ClientIdleKeepsInv(m, core, []);
      case Stopping => ClientIdleKeepsInv(m, core, [Stop]);
      case Toggling(pause) => ClientToggleKeepsInv(m, pause, [Command(pause)], core);
    } else {
      match e
      case Nothing => ServerIdleKeepsInv(m, core, []);
      case Stopping => ServerIdleKeepsInv(m, core, [Stop]);
      case Toggling(pause) =>
        assert ToggleOut(m.s, pause) + [Command(pause)] == [Command(pause)];
        ServerToggleKeepsInv(m, pause, core);
    }
  }

  /** The client handles the oldest message under way. */
  lemma ReceiveKeepsInv(m: Session)
    requires Inv(m) && m.sc != []
    requires m.sc[0].Pause? || m.sc[0].Resume? || m.sc[0].Stop?
    ensures var o := PeerHandler(m.c, m.sc[0]);
      o.Done? && Inv(Record(m.(sc := m.sc[1..]), Client, o.core, o.out))
  {
    var x, m' := m.sc[0], m.(sc := m.sc[1..]);
    var o := PeerHandler(m.c, x);
    HandlerKeepsRelayList(m.c, x);
    if x.Stop? {
      ClientIdleKeepsInv(m', o.core, []);
    } else {
      ClientToggleKeepsInv(m', x.Pause?, [], o.core);
      assert ToggleOut(m.c, x.Pause?) + [] == ToggleOut(m.c, x.Pause?);
    }
  }

  /** The server sends the client nothing but commands. */
  predicate Commands(ms: seq<PeerMsg>) {
    forall x :: x in ms ==> x.Pause? || x.Resume? || x.Stop?
  }

  predicate Good(m: Session) {
    Inv(m) && Commands(m.sc)
  }

  lemma Roles(m: Session)
    requires Inv(m)
    ensures m.c.role.Client? && m.s.role.Server?
  {
  }

  lemma RelayMoveKeepsInv(m: Session, side: Role, r: nat, io: Io)
    requires Inv(m) && Possible(m, RelayMove(side, r, io))
    ensures var o, e := RelayIo(m.At(side), r, io), WakeEffect(m.At(side), StreamStream(m.At(side).relays[r], io).now);
      o.Done? && o.out == EffectOut(m.At(side), e) && Inv(Record(m, side, o.core, o.out))
  {
    var core := m.At(side);
    RelayTransfers(core.relays[r], io);
    var t := StreamStream(core.relays[r], io);
    ServerPrefix(m.c.devices, m.s.devices, m.cs);
    RelayEffect(core, r, t);
    RelayKeepsRelays(core, r, t);
    EffectKeepsInv(m, side, RelayMoved(core, r, t).core, WakeEffect(core, t.now));
  }

  lemma AcceptKeepsInv(m: Session, side: Role)
    requires Inv(m)
    ensures Inv(Record(m, side, Accept(m.At(side)), []))
  {
    AcceptKeepsRelays(m.At(side));
    EffectKeepsInv(m, side, Accept(m.At(side)), Nothing);
  }

  /** What the server queues for the client by a relay's command is a command. */
  lemma ServerSendsCommands(m: Session, core: Core, e: Effect)
    requires Commands(m.sc) && m.s.role.Server?
    ensures Commands(Record(m, Server, core, EffectOut(m.s, e)).sc)
  {
  }

  lemma DevMoveKeepsGood(m: Session, side: Role, i: nat, io: Io)
    requires Good(m) && Possible(m, DevMove(side, i, io))
    ensures var a := After(m, DevMove(side, i, io)); a.Some? && Good(a.value)
  {
    if side.Client? {
      ReadKeepsInv(m, i, io);
    } else {
      WriteKeepsInv(m, i, io);
      ServerDevSilent(m.s, i, StreamStream(m.s.devices[i].stream, io));
    }
  }

  lemma ServerDevSilent(core: Core, j: nat, t: Moved<Stream>)
    requires j < |core.devices| && core.role.Server?
    ensures DevMoved(core, j, t).Done? ==> DevMoved(core, j, t).out == []
  {
  }

  lemma RelayMoveKeepsGood(m: Session, side: Role, r: nat, io: Io)
    requires Good(m) && Possible(m, RelayMove(side, r, io))
    ensures var a := After(m, RelayMove(side, r, io)); a.Some? && Good(a.value)
  {
    RelayMoveKeepsInv(m, side, r, io);
    if side.Server? {
      var o := RelayIo(m.s, r, io);
      ServerSendsCommands(m, o.core, WakeEffect(m.s, StreamStream(m.s.relays[r], io).now));
    }
  }

  lemma DeliverMoveKeepsGood(m: Session, side: Role)
    requires Good(m) && Possible(m, Deliver(side))
    ensures var a := After(m, Deliver(side)); a.Some? && Good(a.value)
  {
    if side.Client? {
      ReceiveKeepsInv(m);
    } else {
      DeliverKeepsInv(m);
      DeliveredRecord(m);
    }
  }

  /** No possible move fails or leaves the session, and every one keeps the invariant. */
  lemma MoveKeepsGood(m: Session, move: Move)
    requires Good(m) && Possible(m, move)
    ensures After(m, move).Some? && Good(After(m, move).value)
  {
    match move
    case DevMove(side, i, io) => DevMoveKeepsGood(m, side, i, io);
    case RelayMove(side, r, io) => RelayMoveKeepsGood(m, side, r, io);
    case AcceptMove(side) => AcceptKeepsInv(m, side);
    case Deliver(side) => DeliverMoveKeepsGood(m, side);
  }

  lemma DeliveredRecord(m: Session)
    requires Possible(m, Deliver(Server)) && PeerHandler(m.s, m.cs[0]).Done? && PeerHandler(m.s, m.cs[0]).out == []
    ensures After(m, Deliver(Server)) ==
      Some(m.(s := PeerHandler(m.s, m.cs[0]).core, cs := m.cs[1..], acts := m.acts + [Handled(m.cs[0])]))
  {
    var acts := m.acts + [Handled(m.cs[0])];
    assert acts + Locals([]) == acts && m.sc + [] == m.sc;
  }

  // ---------------------------------------------------------------- runs

  predicate Startable(infos: seq<DeviceInfo>) {
    Distinct(Ids(Devices(infos))) && ListFits(Devices(infos))
  }

  lemma StartShape(infos: seq<DeviceInfo>)
    requires Startable(infos)
    ensures Shape(Start(infos)) && Grabs(Start(infos).c)
  {
    hide Greeting;
  }

  lemma StartLogs(infos: seq<DeviceInfo>)
    ensures Logs(Start(infos).c.devices, Greeting(infos))
  {
    var devs := Devices(infos);
    forall i | 0 <= i < |devs| ensures InputsFor(Greeting(infos), devs[i].info.id) == devs[i].log {
      NoInputs(Greeting(infos), devs[i].info.id);
    }
  }

  lemma NothingDone()
    ensures Scripts([], []) && HandledMsgs([]) == []
  {
  }

  lemma StartIsGood(infos: seq<DeviceInfo>)
    requires Startable(infos)
    ensures Good(Start(infos))
  {
    hide Shape, Grabs, Logs, Scripts, Replicated, Greeting, Devices, HandledMsgs, Startable, ListFits, Distinct;
    StartShape(infos);
    StartableIds(infos);
    StartReplicated(infos);
    StartLogs(infos);
    NothingDone();
    assert [] + Greeting(infos) == Greeting(infos);
  }

  lemma StartableIds(infos: seq<DeviceInfo>)
    requires Startable(infos)
    ensures Distinct(Ids(Devices(infos)))
  {
  }

  /** Possible moves, one after the other, none of which fails. */
  predicate Reaches(m: Session, moves: seq<Move>, m': Session)
    decreases |moves|
  {
    if moves == [] then m == m' else
      Possible(m, moves[0]) && After(m, moves[0]).Some? && Reaches(After(m, moves[0]).value, moves[1..], m')
  }

  lemma {:induction false} RunKeepsGood(m: Session, moves: seq<Move>, m': Session)
    requires Good(m) && Reaches(m, moves, m')
    ensures Good(m')
    decreases |moves|
  {
    if moves != [] {
      MoveKeepsGood(m, moves[0]);
      RunKeepsGood(After(m, moves[0]).value, moves[1..], m');
    }
  }

  lemma {:induction false} ReachesJoin(a: Session, xs: seq<Move>, b: Session, ys: seq<Move>, c: Session)
    requires Reaches(a, xs, b) && Reaches(b, ys, c)
    ensures Reaches(a, xs + ys, c)
    decreases |xs|
  {
    hide Possible, After;
    if xs == [] {
      assert xs + ys == ys;
    } else {
      assert (xs + ys)[1..] == xs[1..] + ys;
      ReachesJoin(After(a, xs[0]).value, xs[1..], b, ys, c);
    }
  }

  lemma OneMove(m: Session, move: Move, m': Session)
    requires Possible(m, move) && After(m, move) == Some(m')
    ensures Reaches(m, [move], m')
  {
    hide Possible, After;
    assert [move][1..] == [];
    assert Reaches(m', [], m');
  }

  ghost predicate Reachable(infos: seq<DeviceInfo>, m: Session) {
    Startable(infos) && exists moves :: Reaches(Start(infos), moves, m)
  }

  lemma ReachableIsGood(infos: seq<DeviceInfo>, m: Session)
    requires Reachable(infos, m)
    ensures Good(m)
  {
    StartIsGood(infos);
    var moves :| Reaches(Start(infos), moves, m);
    RunKeepsGood(Start(infos), moves, m);
  }
}
