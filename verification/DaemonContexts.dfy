/** struct d_context as the object that the handlers of rcn_device.c, rcn_peer.c and rcn_relay.c, and the event loop
    of rcn_daemon.c, update in place. Every method is proved against its function in Daemons. */
module DaemonContexts {
  import opened Base
  import opened Wire
  import opened Streams
  import opened Framing
  import opened Daemons
  import opened Sessions

  /** A method's return: 0, -1, or a step past the modelled session. */
  datatype Status = Fine | Error | Past

  /** What the functions of Daemons call Done, Failed and Beyond, for a method that has changed the state itself. */
  ghost predicate Matches(o: Outcome, status: Status, core: Core, out: seq<PeerMsg>) {
    match status
    case Fine => o == Done(core, out)
    case Error => o == Failed
    case Past => o == Beyond
  }

  class DaemonContext {
    var role: Role
    var state: RcnState
    var exit: bool
    var connected: bool
    var devices: seq<Dev>
    var relays: seq<Stream>
    var peer: Stream

    ghost function Snapshot(): Core
      reads this
    {
      Core(role, state, exit, connected, devices, relays)
    }

    constructor (d: Daemon)
      ensures Snapshot() == d.core && peer == d.peer
    {
      role, state, exit, connected := d.core.role, d.core.state, d.core.exit, d.core.connected;
      devices, relays, peer := d.core.devices, d.core.relays, d.peer;
    }

    // -------------------------------------------------------------- rcn_device.c

    method QueuePeer(m: PeerMsg)
      modifies `peer
      ensures peer == Append(old(peer), Items([m]))
    {
      peer := Push(peer, SocketItem(ToFrame(m)));
      assert Items([m]) == [SocketItem(ToFrame(m))];
      AppendOneMore(old(peer), [], SocketItem(ToFrame(m)));
    }

    /** dev_grab_device_by_ptr and the epoll_ctl call that follows it. */
    method CtrlDevice(i: nat, capture: bool)
      requires i < |devices|
      modifies `devices, `peer
      ensures devices == old(devices)[i := old(devices[i]).(grabbed := capture, listening := capture)]
      ensures peer == Append(old(peer), Items([UpdGrab(old(devices[i]).info.id, capture)]))
    {
      devices := devices[i := devices[i].(grabbed := capture)];
      QueuePeer(UpdGrab(devices[i].info.id, capture));
      devices := devices[i := devices[i].(listening := capture)];
    }

    /** dev_ctrl_devices. */
    method CtrlDevices(capture: bool)
      modifies `devices, `peer
      ensures devices == Controlled(old(devices), capture)
      ensures peer == Append(old(peer), Items(GrabMsgs(old(devices), capture)))
    {
      ghost var msgs := GrabMsgs(devices, capture);
      var i := 0;
      while i < |devices|
        invariant i <= |devices| == |old(devices)|
        invariant forall k :: 0 <= k < i ==> devices[k] == Controlled(old(devices), capture)[k]
        invariant forall k :: i <= k < |devices| ==> devices[k] == old(devices)[k]
        invariant peer == Append(old(peer), Items(msgs[..i]))
      {
        CtrlDevice(i, capture);
        AppendAppend(old(peer), Items(msgs[..i]), Items([msgs[i]]));
        ItemsJoin(msgs[..i], [msgs[i]]);
        assert msgs[..i + 1] == msgs[..i] + [msgs[i]];
        i := i + 1;
      }
      assert msgs[..i] == msgs;
    }

    /** dev_init_device_ctx of the client: each device is opened and announced, then all are grabbed. */
    method CaptureDevices(infos: seq<DeviceInfo>)
      requires devices == []
      modifies `devices, `peer
      ensures devices == Devices(infos)
      ensures peer == Append(old(peer), Items(Greeting(infos)))
    {
      var i := 0;
      assert Items([]) == [];
      while i < |infos|
        invariant i <= |infos| == |Creations(infos)|
        invariant devices == Opened(infos[..i])
        invariant peer == Append(old(peer), Items(Creations(infos)[..i]))
      {
        devices := devices + [Dev(infos[i], false, true, NewStream(Reading, Device), [])];
        QueuePeer(DevCrt(infos[i]));
        assert infos[..i + 1] == infos[..i] + [infos[i]];
        AppendMessages(old(peer), Creations(infos)[..i], [DevCrt(infos[i])]);
        assert Creations(infos)[..i + 1] == Creations(infos)[..i] + [DevCrt(infos[i])];
        i := i + 1;
      }
      assert infos[..i] == infos && Creations(infos)[..i] == Creations(infos);
      CtrlDevices(true);
      AppendMessages(old(peer), Creations(infos), GrabMsgs(Opened(infos), true));
      assert GrabMsgs(Opened(infos), true) == GrabMsgs(Devices(infos), true);
    }

    /** dev_find_by_id. */
    method FindDevice(id: U64) returns (found: Option<nat>)
      ensures found == FindById(Ids(devices), id)
    {
      found := None;
      var i := 0;
      while i < |devices|
        invariant i <= |devices|
        invariant i < |devices| ==> ScanById(Ids(devices), id, 0) == ScanById(Ids(devices), id, i)
        invariant i == |devices| ==> found == FindById(Ids(devices), id)
      {
        found := Some(i);
        if devices[i].info.id == id {
          return;
        }
        i := i + 1;
      }
    }

    method QueueEvent(i: nat, e: Event)
      requires i < |devices|
      modifies `devices
      ensures devices == old(devices)[i := PushEvents(old(devices[i]), [e])]
    {
      AppendOneMore(devices[i].stream, [], DeviceItem(e));
      assert EventItems([e]) == [DeviceItem(e)];
      devices := devices[i := devices[i].(stream := Push(devices[i].stream, DeviceItem(e)))];
    }

    /** dev_emit_event_msg. */
    method EmitEvent(id: U64, e: Event) returns (ok: bool)
      modifies `devices
      ensures ok == (old(devices) != [])
      ensures devices == if ok then Emit(old(devices), id, e) else old(devices)
    {
      var found := FindDevice(id);
      if found == None {
        return false;
      }
      var k := found.value;
      QueueEvent(k, e);
      if e.etype == EV_REL {
        PushTwice(old(devices[k]), [e], [SYN_REPORT]);
        assert [e] + [SYN_REPORT] == EmitScript(e);
        QueueEvent(k, SYN_REPORT);
      }
      ok := true;
    }

    method ReleaseKey(i: nat, code: nat)
      requires i < |devices| && code < KEY_MAX
      modifies `devices
      ensures devices == old(devices)[i := PushEvents(old(devices[i]), KeyUpAt(old(devices[i]).info, code))]
    {
      if HasBit(devices[i].info.keybit, code) {
        QueueEvent(i, KeyUp(code));
      }
    }

    /** dev_release_virt_keys. */
    method ReleaseKeys(i: nat)
      requires i < |devices|
      modifies `devices
      ensures devices == old(devices)[i := PushEvents(old(devices[i]), ReleaseScript(old(devices[i]).info))]
      ensures HasKeys(old(devices[i]).info) ==>
        devices[i].stream.queue != []
        && Last(devices[i].stream.queue) == DeviceItem(Event(Zeros(16), EV_SYN, 0, 0))
    {
      hide KeyUps, KeyUpAt, Append, EventItems;
      ghost var was := devices[i];
      PushNothing(was);
      ReleaseEnds(was);
      if !HasBit(devices[i].info.evtbit, EV_KEY) {
        return;
      }
      hide HasBit;
      ghost var es := [];
      for code := 0 to KEY_MAX
        invariant |devices| == |old(devices)| && devices == old(devices)[i := PushEvents(was, es)]
        invariant es + KeyUps(was.info, code) == KeyUps(was.info, 0)
      {
        ghost var key := KeyUpAt(was.info, code);
        NextKeyUp(was.info, code);
        ReleaseKey(i, code);
        PushTwice(was, es, key);
        Assoc(es, key, KeyUps(was.info, code + 1));
        es := es + key;
      }
      NoMoreKeyUps(was.info);
      assert es + [] == es;
      QueueEvent(i, SYN_REPORT);
      PushTwice(was, es, [SYN_REPORT]);
    }

    /** dev_release_virt_keys_all. */
    method ReleaseKeysAll()
      modifies `devices
      ensures devices == ReleaseAll(old(devices))
    {
      var i := 0;
      while i < |devices|
        invariant i <= |devices| == |old(devices)|
        invariant forall k :: 0 <= k < i ==> devices[k] == ReleaseAll(old(devices))[k]
        invariant forall k :: i <= k < |devices| ==> devices[k] == old(devices)[k]
      {
        ReleaseKeys(i);
        i := i + 1;
      }
    }

    /** The part of a pause or resume that the role decides. */
    method ControlOrRelease(pause: bool)
      modifies `devices, `peer
      ensures devices == Toggle(old(Snapshot()), pause).devices
      ensures peer == Append(old(peer), Items(ToggleOut(old(Snapshot()), pause)))
    {
      if role == Client {
        CtrlDevices(!pause);
      } else {
        ReleaseKeysAll();
        assert Items([]) == [];
      }
    }

    // -------------------------------------------------------------- rcn_relay.c

    /** r_broadcast_relay_header. */
    method BroadcastHeader(value: U32)
      modifies `relays
      ensures relays == Broadcast(old(relays), value)
    {
      var i := 0;
      while i < |relays|
        invariant i <= |relays| == |old(relays)|
        invariant forall k :: 0 <= k < i ==> relays[k] == Broadcast(old(relays), value)[k]
        invariant forall k :: i <= k < |relays| ==> relays[k] == old(relays)[k]
      {
        relays := relays[i := Tell(relays[i], value, [])];
        i := i + 1;
      }
    }

    method Answer(r: nat, value: U32, body: seq<byte>)
      requires r < |relays|
      modifies `relays
      ensures Snapshot() == Reply(old(Snapshot()), r, value, body)
    {
      relays := relays[r := Tell(relays[r], value, body)];
    }

    /** handler_pause of rcn_relay.c. */
    method PauseCommand(r: nat) returns (status: Status, ghost out: seq<PeerMsg>)
      requires r < |relays|
      modifies this
      ensures Matches(RelayPause(old(Snapshot()), r), status, Snapshot(), out)
      ensures status.Fine? ==> peer == Append(old(peer), Items(out))
    {
      status, out := Fine, [];
      assert Items([]) == [];
      if state == Paused {
        Answer(r, RELAY_PAUSE_AGAIN, []);
        return;
      }
      if role == Client && !connected {
        return Past, [];
      }
      ControlOrRelease(true);
      if connected {
        BroadcastHeader(RELAY_PAUSE);
        QueuePeer(Pause);
        state := Paused;
        out := ToggleOut(old(Snapshot()), true) + [Pause];
        AppendMessages(old(peer), ToggleOut(old(Snapshot()), true), [Pause]);
      } else {
        BroadcastHeader(RELAY_NO_PEER);
      }
    }

    /** handler_resume of rcn_relay.c. */
    method ResumeCommand(r: nat) returns (status: Status, ghost out: seq<PeerMsg>)
      requires r < |relays|
      modifies this
      ensures Matches(RelayResume(old(Snapshot()), r), status, Snapshot(), out)
      ensures status.Fine? ==> peer == Append(old(peer), Items(out))
    {
      status, out := Fine, [];
      assert Items([]) == [];
      if state == Running {
        Answer(r, RELAY_RESUME_AGAIN, []);
        return;
      }
      if !connected {
        return Past, [];
      }
      ControlOrRelease(false);
      QueuePeer(Resume);
      state := Running;
      out := ToggleOut(old(Snapshot()), false) + [Resume];
      AppendMessages(old(peer), ToggleOut(old(Snapshot()), false), [Resume]);
    }

    /** handler_stop of rcn_relay.c. */
    method StopCommand() returns (status: Status, ghost out: seq<PeerMsg>)
      modifies this
      ensures Matches(RelayStop(old(Snapshot())), status, Snapshot(), out)
      ensures status.Fine? ==> peer == Append(old(peer), Items(out))
    {
      if !connected {
        return Past, [];
      }
      exit := true;
      BroadcastHeader(RELAY_STOP);
      QueuePeer(Stop);
      status, out := Fine, [Stop];
    }

    /** The loop of handler_list. */
    method ListDevices() returns (body: seq<byte>)
      ensures body == ListBody(devices)
    {
      body := [];
      var i := 0;
      assert devices[0..] == devices;
      while i < |devices|
        invariant i <= |devices|
        invariant ListBody(devices) == body + ListBody(devices[i..])
      {
        var entry := devices[i].info.name + [if devices[i].grabbed then 1 else 0];
        assert devices[i..][1..] == devices[i + 1..];
        Assoc(body, entry, ListBody(devices[i + 1..]));
        body := body + entry;
        i := i + 1;
      }
    }

    /** handler_list. */
    method ListCommand(r: nat)
      requires r < |relays|
      modifies `relays
      ensures Snapshot() == Reply(old(Snapshot()), r, RELAY_LIST, ListBody(devices))
    {
      var body := ListDevices();
      Answer(r, RELAY_LIST, body);
    }

    /** r_handler. */
    method HandleCommand(r: nat, value: U32) returns (status: Status, ghost out: seq<PeerMsg>)
      requires r < |relays|
      modifies this
      ensures Matches(RelayHandler(old(Snapshot()), r, value), status, Snapshot(), out)
      ensures status.Fine? ==> peer == Append(old(peer), Items(out))
    {
      status, out := Fine, [];
      assert Items([]) == [];
      if value == RELAY_IDLE {
        // the relay hangs on its read
      } else if value == RELAY_START {
        Answer(r, RELAY_START, []);
      } else if value == RELAY_PAUSE {
        status, out := PauseCommand(r);
      } else if value == RELAY_RESUME {
        status, out := ResumeCommand(r);
      } else if value == RELAY_STOP {
        status, out := StopCommand();
      } else if value == RELAY_SWITCH {
        if state == Running {
          status, out := PauseCommand(r);
        } else {
          status, out := ResumeCommand(r);
        }
      } else if value == RELAY_LIST {
        ListCommand(r);
      } else {
        status := Error;
      }
    }

    // -------------------------------------------------------------- rcn_peer.c

    /** p_handler. */
    method HandleMessage(m: PeerMsg) returns (status: Status, ghost out: seq<PeerMsg>)
      modifies this
      ensures Matches(PeerHandler(old(Snapshot()), m), status, Snapshot(), out)
      ensures status.Fine? ==> exit == (old(exit) || m.Stop?)
      ensures status.Fine? ==> peer == Append(old(peer), Items(out))
    {
      status, out := Fine, [];
      assert Items([]) == [];
      match m {
        case DevCrt(info) =>
          devices := devices + [NewUdev(info)];
        case UpdGrab(id, grab) =>
          var found := FindDevice(id);
          if found == None {
            return Error, [];
          }
          devices := devices[found.value := devices[found.value].(grabbed := grab)];
        case Input(id, e) =>
          var ok := EmitEvent(id, e);
          status := if ok then Fine else Error;
        case Pause =>
          ControlOrRelease(true);
          BroadcastHeader(RELAY_PAUSE);
          state := Paused;
          out := ToggleOut(old(Snapshot()), true);
        case Resume =>
          ControlOrRelease(false);
          BroadcastHeader(RELAY_RESUME);
          state := Running;
          out := ToggleOut(old(Snapshot()), false);
        case Stop =>
          if role == Server {
            return Past, [];
          }
          exit := true;
          BroadcastHeader(RELAY_STOP);
      }
    }

    // -------------------------------------------------------------- rcn_daemon.c

    /** The turn that a method's status stands for. */
    ghost function TurnFor(status: Status, wrote: seq<byte>): Turn
      reads this
    {
      match status
      case Fine => Turned(Daemon(Snapshot(), peer), wrote)
      case Error => Died
      case Past => Left
    }

    /** resolve_fd_streams for the peer's stream once it has completed an item. */
    method SettlePeer(wrote: seq<byte>) returns (status: Status)
      modifies this
      ensures TurnFor(status, wrote) == PeerSettled(old(Daemon(Snapshot(), peer)), wrote)
    {
      peer := Collect(peer);
      if peer.fallback.op != peer.defaultOp {
        peer := Reset(peer);
        return Fine;
      }
      var m := FromFrame(Received(peer.fallback));
      if m == None {
        return Error;
      }
      ghost var out;
      status, out := HandleMessage(m.value);
      peer := Reset(peer);
    }

    method WakePeer(io: Io) returns (status: Status, wrote: seq<byte>)
      requires ItemOk(Next(peer)) && IoFits(Next(peer), io)
      modifies this
      ensures TurnFor(status, wrote) == PeerIo(old(Daemon(Snapshot(), peer)), io)
    {
      var t := StreamStream(peer, io);
      peer, wrote, status := t.now, t.out, Fine;
      if !t.ok {
        return Error, wrote;
      }
      if Next(peer).phase == Closed {
        return Past, wrote;
      }
      if Next(peer).phase == Complete {
        status := SettlePeer(wrote);
      }
    }

    /** resolve_fd_streams for a relay whose stream has completed an item. */
    method SettleRelay(r: nat) returns (status: Status)
      requires r < |relays|
      modifies this
      ensures TurnFor(status, []) ==
              AfterHandler(old(Daemon(Snapshot(), peer)), RelaySettled(old(Snapshot()), r), [])
    {
      assert Items([]) == [];
      var c := Collect(relays[r]);
      if c.fallback.op != c.defaultOp {
        relays := relays[r := Reset(c)];
        return Fine;
      }
      relays := relays[r := c];
      ghost var core := Snapshot();
      assert core == WithRelay(old(Snapshot()), r, c);
      ghost var out;
      status, out := HandleCommand(r, ValueIn(c.fallback.hdr));
      if status == Fine {
        HandlerKeepsRelays(core, r, ValueIn(c.fallback.hdr));
        relays := relays[r := Reset(relays[r])];
      }
    }

    method WakeRelay(r: nat, io: Io) returns (status: Status)
      requires r < |relays| && ItemOk(Next(relays[r])) && IoFits(Next(relays[r]), io)
      modifies this
      ensures TurnFor(status, []) == AfterHandler(old(Daemon(Snapshot(), peer)), RelayIo(old(Snapshot()), r, io), [])
    {
      assert Items([]) == [];
      var t := StreamStream(relays[r], io);
      if !t.ok {
        return Error;
      }
      if Next(t.now).phase == Closed {
        relays := relays[..r] + relays[r + 1..];
        return Fine;
      }
      relays := relays[r := t.now];
      if Next(relays[r]).phase != Complete {
        return Fine;
      }
      status := SettleRelay(r);
    }

    /** resolve_fd_streams for a device whose stream has completed an event. */
    method SettleDevice(i: nat)
      requires i < |devices|
      modifies `devices, `peer
      ensures TurnFor(Fine, []) == AfterHandler(old(Daemon(Snapshot(), peer)), DevSettled(old(Snapshot()), i), [])
    {
      assert Items([]) == [];
      var c := Collect(devices[i].stream);
      var e := DecodeEvent(c.fallback.evt);
      if role == Client {
        QueuePeer(Input(devices[i].info.id, e));
      }
      devices := devices[i := devices[i].(stream := Reset(c), log := devices[i].log + [e])];
    }

    method WakeDevice(i: nat, io: Io) returns (status: Status)
      requires i < |devices| && ItemOk(Next(devices[i].stream)) && IoFits(Next(devices[i].stream), io)
      modifies this
      ensures TurnFor(status, []) == AfterHandler(old(Daemon(Snapshot(), peer)), DevIo(old(Snapshot()), i, io), [])
    {
      var t := StreamStream(devices[i].stream, io);
      if !t.ok {
        return Error;
      }
      if Next(t.now).phase == Closed {
        return if role == Client then Past else Error;
      }
      StoreDevice(i, t.now);
      if Next(t.now).phase == Complete {
        SettleDevice(i);
      } else {
        assert Items([]) == [];
      }
      status := Fine;
    }

    method StoreDevice(i: nat, s: Stream)
      requires i < |devices|
      modifies `devices
      ensures Snapshot() == WithDev(old(Snapshot()), i, old(devices[i]).(stream := s))
    {
      devices := devices[i := devices[i].(stream := s)];
    }

    /** One pass of d_loop with one ready stream: dispatch_epoll, then resolve_fd_streams. */
    method Wake(ready: Ready, io: Io) returns (status: Status, wrote: seq<byte>)
      requires CanWake(Daemon(Snapshot(), peer), ready, io)
      modifies this
      ensures TurnFor(status, wrote) == WakeUp(old(Daemon(Snapshot(), peer)), ready, io)
    {
      wrote := [];
      match ready {
        case PeerReady => status, wrote := WakePeer(io);
        case RelayReady(r) => status := WakeRelay(r, io);
        case DevReady(i) => status := WakeDevice(i, io);
        case UsockReady =>
          relays := relays + [NewStream(Reading, Socket)];
          status := Fine;
      }
    }
  }

  /** Devices that have been opened and not grabbed yet. */
  function Opened(infos: seq<DeviceInfo>): (r: seq<Dev>)
    ensures |r| == |infos|
  {
    seq(|infos|, i requires 0 <= i < |infos| => Dev(infos[i], false, true, NewStream(Reading, Device), []))
  }

  lemma NextKeyUp(info: DeviceInfo, code: nat)
    requires code < KEY_MAX
    ensures KeyUps(info, code) == KeyUpAt(info, code) + KeyUps(info, code + 1)
  {
  }

  lemma NoMoreKeyUps(info: DeviceInfo)
    ensures KeyUps(info, KEY_MAX) == []
  {
  }

  /** The last thing that a release queues is a SYN. */
  lemma ReleaseEnds(dev: Dev)
    ensures HasKeys(dev.info) ==>
      var q := PushEvents(dev, ReleaseScript(dev.info)).stream.queue;
      q != [] && Last(q) == DeviceItem(Event(Zeros(16), EV_SYN, 0, 0))
  {
    hide KeyUps, HasBit;
  }

  lemma PushTwice(dev: Dev, xs: seq<Event>, ys: seq<Event>)
    ensures PushEvents(PushEvents(dev, xs), ys) == PushEvents(dev, xs + ys)
  {
    assert EventItems(xs + ys) == EventItems(xs) + EventItems(ys);
    AppendAppend(dev.stream, EventItems(xs), EventItems(ys));
  }

  lemma AppendMessages(s: Stream, xs: seq<PeerMsg>, ys: seq<PeerMsg>)
    ensures Append(Append(s, Items(xs)), Items(ys)) == Append(s, Items(xs + ys))
  {
    ItemsJoin(xs, ys);
    AppendAppend(s, Items(xs), Items(ys));
  }

  lemma HandlerKeepsRelays(core: Core, r: nat, value: U32)
    requires r < |core.relays|
    ensures var o := RelayHandler(core, r, value); o.Done? ==> |o.core.relays| == |core.relays|
  {
  }
}
