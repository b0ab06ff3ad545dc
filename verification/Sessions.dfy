/** The two daemons and the messages under way between them, from the client's start until a stop is handled. */
module Sessions {
  import opened Base
  import opened Wire
  import opened Streams
  import opened Framing
  import opened Daemons
  import opened Replay

  /** cs and sc are the messages under way to the server and to the client. `sent` is everything the client has
      queued for the server, and `acts` what the server has done, in order. */
  datatype Session = Session(
    c: Core, s: Core, cs: seq<PeerMsg>, sc: seq<PeerMsg>, sent: seq<PeerMsg>, acts: seq<Act>)
  {
    function At(side: Role): Core { if side.Client? then c else s }
    function Inbound(side: Role): seq<PeerMsg> { if side.Client? then sc else cs }
  }

  datatype Move =
    | DevMove(side: Role, i: nat, io: Io)     // a device's fd is ready
    | RelayMove(side: Role, r: nat, io: Io)   // a relay's fd is ready
    | AcceptMove(side: Role)                  // a relay connects
    | Deliver(side: Role)                     // a message from the peer is complete

  // ---------------------------------------------------------------- the start

  function Captured(info: DeviceInfo): Dev {
    Dev(info, true, true, NewStream(Reading, Device), [])
  }

  function Devices(infos: seq<DeviceInfo>): (r: seq<Dev>)
    ensures |r| == |infos|
  {
    seq(|infos|, i requires 0 <= i < |infos| => Captured(infos[i]))
  }

  function Creations(infos: seq<DeviceInfo>): (r: seq<PeerMsg>)
    ensures |r| == |infos|
  {
    seq(|infos|, i requires 0 <= i < |infos| => DevCrt(infos[i]))
  }

  /** What dev_init_device_ctx queues: dev_init_devices_arg, then dev_ctrl_devices. */
  function Greeting(infos: seq<DeviceInfo>): seq<PeerMsg> {
    Creations(infos) + GrabMsgs(Devices(infos), true)
  }

  /** The client has connected and captured its devices; the server has accepted it. */
  function Start(infos: seq<DeviceInfo>): Session {
    Session(
      Core(Client, Running, false, true, Devices(infos), []),
      Core(Server, Running, false, true, [], []),
      Greeting(infos), [], Greeting(infos), [])
  }

  // ---------------------------------------------------------------- moves

  const REQUESTS: set<U32> :=
    {RELAY_IDLE, RELAY_START, RELAY_PAUSE, RELAY_RESUME, RELAY_STOP, RELAY_SWITCH, RELAY_LIST}

  /** A relay program sends none but its own requests. */
  predicate KnownRequest(now: Stream) {
    now.queue == [] && now.fallback.phase.Complete? ==> ValueIn(now.fallback.hdr) in REQUESTS
  }

  /** A wake-up that a device, a relay or the relay socket can cause at one daemon. */
  predicate CanHappen(core: Core, move: Move) {
    match move
    case DevMove(side, i, io) =>
      && i < |core.devices| && core.devices[i].listening
      && var it := Next(core.devices[i].stream);
         ItemOk(it) && IoFits(it, io) && Ordinary(io)
         && (side.Server? && io.Put? ==> io.count == EVENT_SIZE)
    case RelayMove(_, r, io) =>
      && r < |core.relays|
      && ItemOk(Next(core.relays[r])) && IoFits(Next(core.relays[r]), io) && !io.Fault?
      && KnownRequest(StreamStream(core.relays[r], io).now)
    case AcceptMove(_) => true
    case Deliver(_) => false
  }

  predicate Possible(m: Session, move: Move) {
    && !CanExit(m.At(move.side))
    && if move.Deliver?
       then m.Inbound(move.side) != [] && !(move.side.Server? && m.Inbound(move.side)[0].Stop?)
       else CanHappen(m.At(move.side), move)
  }

  function OutcomeOf(m: Session, move: Move): Outcome
    requires Possible(m, move)
  {
    var core := m.At(move.side);
    match move
    case DevMove(_, i, io) => DevIo(core, i, io)
    case RelayMove(_, r, io) => RelayIo(core, r, io)
    case AcceptMove(_) => Done(Accept(core), [])
    case Deliver(side) => PeerHandler(core, m.Inbound(side)[0])
  }

  function Locals(out: seq<PeerMsg>): (r: seq<Act>)
    ensures |r| == |out|
  {
    seq(|out|, i requires 0 <= i < |out| => Local(out[i]))
  }

  /** The session after a handler at one side is done. */
  function Record(m: Session, side: Role, core: Core, out: seq<PeerMsg>): Session {
    if side.Client? then m.(c := core, cs := m.cs + out, sent := m.sent + out)
    else m.(s := core, sc := m.sc + out, acts := m.acts + Locals(out))
  }

  function Consume(m: Session, move: Move): Session
    requires Possible(m, move)
  {
    if !move.Deliver? then m
    else if move.side.Client? then m.(sc := m.sc[1..])
    else m.(cs := m.cs[1..], acts := m.acts + [Handled(m.cs[0])])
  }

  /** None when the daemon ends with an error or leaves the modelled session. */
  function After(m: Session, move: Move): Option<Session>
    requires Possible(m, move)
  {
    match OutcomeOf(m, move)
    case Done(core, out) => Some(Record(Consume(m, move), move.side, core, out))
    case _ => None
  }

  // ---------------------------------------------------------------- what a move changes

  /** Equal but for the relays. */
  predicate Alike(a: Core, b: Core) {
    a.(relays := b.relays) == b
  }

  datatype Effect = Nothing | Stopping | Toggling(pause: bool)

  function Command(pause: bool): PeerMsg { if pause then Pause else Resume }

  function Effected(core: Core, e: Effect): Core {
    match e
    case Nothing => core
    case Stopping => core.(exit := true)
    case Toggling(pause) => Toggle(core, pause)
  }

  function EffectOut(core: Core, e: Effect): seq<PeerMsg> {
    match e
    case Nothing => []
    case Stopping => [Stop]
    case Toggling(pause) => ToggleOut(core, pause) + [Command(pause)]
  }

  /** The effect of a relay's request on everything but the relays. */
  function Obeys(core: Core, value: U32): Effect {
    if value in {RELAY_PAUSE, RELAY_SWITCH} && core.state.Running? then Toggling(true)
    else if value in {RELAY_RESUME, RELAY_SWITCH} && core.state.Paused? then Toggling(false)
    else if value == RELAY_STOP then Stopping
    else Nothing
  }

  /** The relays have no part in an effect. */
  lemma EffectIgnoresRelays(core: Core, relays: seq<Stream>, e: Effect)
    ensures Alike(Effected(core.(relays := relays), e), Effected(core, e))
    ensures EffectOut(core.(relays := relays), e) == EffectOut(core, e)
  {
  }

  lemma HandlerEffect(core: Core, r: nat, value: U32)
    requires r < |core.relays| && core.connected && value in REQUESTS
    ensures var o := RelayHandler(core, r, value);
      o.Done? && Alike(o.core, Effected(core, Obeys(core, value))) && o.out == EffectOut(core, Obeys(core, value))
      && |o.core.relays| == |core.relays|
  {
  }

  /** The effect of a peer's command on everything but the relays. */
  function Demands(x: PeerMsg): Effect {
    match x
    case Pause => Toggling(true)
    case Resume => Toggling(false)
    case Stop => Stopping
    case _ => Nothing
  }

  /** What a message from the peer does to a daemon. It is handled unless it is a stop for the server, or an update or
      input without any device. A stop makes the client exit; a pause or resume sets the state, and makes the client say
      which devices it has released or grabbed; all else changes nothing but devices. */
  lemma MessageEffect(core: Core, x: PeerMsg)
    ensures PeerHandler(core, x).Done? <==>
      !(x.Stop? && core.role.Server?) && (x.UpdGrab? || x.Input? ==> core.devices != [])
    ensures PeerHandler(core, x).Done? ==>
      var o := PeerHandler(core, x);
      && o.core.role == core.role && o.core.connected == core.connected
      && o.core.state == (if x.Pause? then Paused else if x.Resume? then Running else core.state)
      && o.core.exit == (core.exit || x.Stop?)
      && o.out == (if core.role.Client? && (x.Pause? || x.Resume?) then GrabMsgs(core.devices, x.Resume?) else [])
      && (Demands(x) != Nothing ==> Alike(o.core, Effected(core, Demands(x))))
      && (Demands(x) == Nothing ==> o.core == core.(devices := o.core.devices))
  {
  }

  /** A client that handles a stop is done as soon as it has no relay left, and not before. */
  lemma StoppedClientExits(core: Core)
    requires core.role.Client?
    ensures var o := PeerHandler(core, Stop);
      && o.Done? && o.out == [] && o.core.exit && |o.core.relays| == |core.relays|
      && (CanExit(o.core) <==> |core.relays| == 0)
  {
    MessageEffect(core, Stop);
  }

  /** The loop of a daemon goes on until it is told to stop and its last relay has hung up. */
  lemma LoopGoesOn(core: Core)
    ensures !CanExit(core) <==> !core.exit || |core.relays| > 0
  {
  }

  /** An unknown request is an error. Without a peer a pause of the server lifts the keys and changes nothing else: the
      server goes on in the state it was in, and no message is queued. */
  lemma RequestAlone(core: Core, r: nat, value: U32)
    requires r < |core.relays|
    ensures value !in REQUESTS ==> RelayHandler(core, r, value).Failed?
    ensures value in REQUESTS && !core.connected && RelayHandler(core, r, value).Done? ==>
      var o := RelayHandler(core, r, value);
      && o.out == [] && o.core == core.(devices := o.core.devices, relays := o.core.relays)
      && o.core.devices == (if Obeys(core, value) == Toggling(true) then ReleaseAll(core.devices) else core.devices)
    ensures value in REQUESTS && !core.connected ==>
      (RelayHandler(core, r, value).Beyond? <==>
         Obeys(core, value) in {Stopping, Toggling(false)} || (Obeys(core, value).Toggling? && core.role.Client?))
  {
  }

  /** A stream between a daemon and one of its relays. */
  predicate RelayStream(s: Stream) {
    && Safe(s) && s.defaultKind.Socket?
    && Live(s.fallback)
    && forall i :: 0 <= i < |s.queue| ==> Live(s.queue[i])
  }

  predicate AllRelayStreams(relays: seq<Stream>) {
    forall r :: 0 <= r < |relays| ==> RelayStream(relays[r])
  }

  predicate RelaysOk(core: Core) {
    AllRelayStreams(core.relays)
  }

  /** The effect of a wake-up that leaves a relay's stream as `now`. */
  function WakeEffect(core: Core, now: Stream): Effect {
    if now.queue == [] && now.fallback.phase.Complete? then Obeys(core, ValueIn(now.fallback.hdr)) else Nothing
  }

  lemma SettledEffect(core: Core, r: nat)
    requires r < |core.relays| && core.connected && Safe(core.relays[r]) && core.relays[r].defaultKind.Socket?
    requires Next(core.relays[r]).phase.Complete? && KnownRequest(core.relays[r])
    ensures var o, e := RelaySettled(core, r), WakeEffect(core, core.relays[r]);
      o.Done? && Alike(o.core, Effected(core, e)) && o.out == EffectOut(core, e)
  {
    hide ItemOk, Toggle, ToggleOut, ListBody, Tell;
    var s := core.relays[r];
    var c := Collect(s);
    if s.queue == [] {
      var mid := WithRelay(core, r, c);
      var value := ValueIn(c.fallback.hdr);
      HandlerEffect(mid, r, value);
      EffectIgnoresRelays(core, mid.relays, Obeys(core, value));
    }
  }

  /** A relay's stream between its transfer and its settling. */
  predicate RelayMidway(s: Stream) {
    && Safe(s) && s.defaultKind.Socket?
    && (s.queue != [] ==> Live(s.fallback))
    && (forall i :: 1 <= i < |s.queue| ==> Live(s.queue[i]))
  }

  lemma RelayTransfers(s: Stream, io: Io)
    requires RelayStream(s) && IoFits(Next(s), io) && !io.Fault?
    ensures var t := StreamStream(s, io);
      t.ok && RelayMidway(t.now) && (Live(Next(t.now)) ==> RelayStream(t.now))
  {
    CallKeepsSafe(s, Call.Wake(io));
  }

  lemma AlikeTransitive(a: Core, b: Core, c: Core)
    requires Alike(a, b) && Alike(b, c)
    ensures Alike(a, c)
  {
  }

  lemma RelayEffect(core: Core, r: nat, t: Moved<Stream>)
    requires r < |core.relays| && core.connected && t.ok && RelayMidway(t.now) && KnownRequest(t.now)
    ensures var o, e := RelayMoved(core, r, t), WakeEffect(core, t.now);
      o.Done? && Alike(o.core, Effected(core, e)) && o.out == EffectOut(core, e)
  {
    if Next(t.now).phase.Complete? {
      var mid, e := WithRelay(core, r, t.now), WakeEffect(core, t.now);
      assert WakeEffect(mid, t.now) == e;
      SettledEffect(mid, r);
      EffectIgnoresRelays(core, mid.relays, e);
      AlikeTransitive(RelaySettled(mid, r).core, Effected(mid, e), Effected(core, e));
    } else {
      assert WakeEffect(core, t.now) == Nothing;
    }
  }

  // ---------------------------------------------------------------- the relays' streams

  lemma TellKeepsRelay(s: Stream, value: U32, body: seq<byte>)
    requires Fits(Frame(value, body))
    ensures RelayStream(s) ==> RelayStream(Tell(s, value, body))
    ensures RelayStream(Reset(s)) ==> RelayStream(Reset(Tell(s, value, body)))
  {
    HeaderRoundTrip(value, |body|);
    var it := SocketItem(Frame(value, body));
    assert ItemOk(it) && Live(it);
    AppendOneMore(s, [], it);
    AppendOneMore(Reset(s), [], it);
    ResetAfterAppend(s, [it]);
  }

  /** While relay r's request is being answered its stream is in order except for the fallback, which the
      final reset clears. */
  predicate Answering(core: Core, r: nat) {
    && r < |core.relays|
    && RelayStream(Reset(core.relays[r]))
    && forall q :: 0 <= q < |core.relays| && q != r ==> RelayStream(core.relays[q])
  }

  lemma BroadcastKeeps(core: Core, r: nat, value: U32)
    requires Answering(core, r)
    ensures Answering(core.(relays := Broadcast(core.relays, value)), r)
  {
    forall q | 0 <= q < |core.relays|
      ensures q != r ==> RelayStream(Tell(core.relays[q], value, []))
      ensures q == r ==> RelayStream(Reset(Tell(core.relays[q], value, [])))
    {
      TellKeepsRelay(core.relays[q], value, []);
    }
  }

  lemma ReplyKeeps(core: Core, r: nat, value: U32, body: seq<byte>)
    requires Answering(core, r) && Fits(Frame(value, body))
    ensures Answering(Reply(core, r, value, body), r)
  {
    TellKeepsRelay(core.relays[r], value, body);
  }

  /** size_t can hold the length of the device list. */
  predicate ListFits(devs: seq<Dev>) {
    81 * |devs| < 0x1_0000_0000_0000_0000
  }

  lemma {:induction false} ListBodyLength(devs: seq<Dev>)
    ensures |ListBody(devs)| == 81 * |devs|
  {
    if devs != [] {
      ListBodyLength(devs[1..]);
    }
  }

  lemma HandlerAnswers(core: Core, r: nat, value: U32)
    requires Answering(core, r) && core.connected && ListFits(core.devices) && value in REQUESTS
    ensures Answering(RelayHandler(core, r, value).core, r)
  {
    hide RelayStream, Toggle, ListBody;
    HandlerEffect(core, r, value);
    if value == RELAY_LIST {
      ListBodyLength(core.devices);
      ReplyKeeps(core, r, RELAY_LIST, ListBody(core.devices));
    } else if value == RELAY_STOP {
      BroadcastKeeps(core, r, RELAY_STOP);
    } else if value == RELAY_START {
      ReplyKeeps(core, r, RELAY_START, []);
    } else if value != RELAY_IDLE {
      CommandAnswers(core, r);
    }
  }

  lemma CommandAnswers(core: Core, r: nat)
    requires Answering(core, r) && core.connected
    ensures Answering(RelayPause(core, r).core, r) && Answering(RelayResume(core, r).core, r)
  {
    BroadcastKeeps(core, r, RELAY_PAUSE);
    ReplyKeeps(core, r, RELAY_PAUSE_AGAIN, []);
    ReplyKeeps(core, r, RELAY_RESUME_AGAIN, []);
  }

  lemma SettleKeepsRelay(s: Stream)
    requires Safe(s) && s.defaultKind.Socket? && Next(s).phase.Complete?
    requires forall i :: 1 <= i < |s.queue| ==> Live(s.queue[i])
    ensures RelayStream(Reset(Collect(s)))
  {
    CallKeepsSafe(s, Resolve);
  }

  lemma SettledKeepsRelays(core: Core, r: nat)
    requires r < |core.relays| && core.connected && ListFits(core.devices)
    requires RelayMidway(core.relays[r]) && Next(core.relays[r]).phase.Complete? && KnownRequest(core.relays[r])
    requires forall q :: 0 <= q < |core.relays| && q != r ==> RelayStream(core.relays[q])
    ensures RelaysOk(RelaySettled(core, r).core)
  {
    var c := Collect(core.relays[r]);
    assert (core.relays[r].queue == []) == (c.fallback.op == c.defaultOp);
    hide Safe, RelayHandler;
    SettledEffect(core, r);
    SettleKeepsRelay(core.relays[r]);
    var mid := WithRelay(core, r, c);
    assert Answering(mid, r);
    if core.relays[r].queue == [] {
      var value := ValueIn(c.fallback.hdr);
      HandlerEffect(mid, r, value);
      HandlerAnswers(mid, r, value);
    }
  }

  lemma RelayKeepsRelays(core: Core, r: nat, t: Moved<Stream>)
    requires RelaysOk(core) && core.connected && ListFits(core.devices) && r < |core.relays|
    requires t.ok && RelayMidway(t.now) && KnownRequest(t.now) && (Live(Next(t.now)) ==> RelayStream(t.now))
    ensures RelaysOk(RelayMoved(core, r, t).core)
  {
    RelayEffect(core, r, t);
    if Next(t.now).phase.Complete? {
      SettledKeepsRelays(WithRelay(core, r, t.now), r);
    }
  }

  lemma AcceptKeepsRelays(core: Core)
    requires RelaysOk(core)
    ensures RelaysOk(Accept(core))
  {
  }

  lemma BroadcastKeepsRelays(relays: seq<Stream>, value: U32)
    requires AllRelayStreams(relays)
    ensures AllRelayStreams(Broadcast(relays, value))
  {
    forall q | 0 <= q < |relays| ensures RelayStream(Tell(relays[q], value, [])) {
      TellKeepsRelay(relays[q], value, []);
    }
  }
}
