/** One daemon as a value, with one function for each message, command and wake-up it handles. */
module Daemons {
  import opened Base
  import opened Wire
  import opened Streams
  import opened Framing

  datatype Role = Client | Server
  datatype RcnState = Running | Paused

  /** struct device. `listening` says whether its fd is registered with epoll, and `log` lists the events that
      have passed through the fd: read from a physical device, written to a virtual one. */
  datatype Dev = Dev(info: DeviceInfo, grabbed: bool, listening: bool, stream: Stream, log: seq<Event>)

  /** struct d_context, all but the peer's stream; `connected` is PEER_CONNECTED. */
  datatype Core = Core(
    role: Role, state: RcnState, exit: bool, connected: bool, devices: seq<Dev>, relays: seq<Stream>)

  /** What a handler does: the new daemon and the messages queued for the peer; an error that ends the daemon;
      or a step past the session that is modelled (the peer's stream is gone or about to be torn down). */
  datatype Outcome = Done(core: Core, out: seq<PeerMsg>) | Failed | Beyond

  // ---------------------------------------------------------------- devices

  const VIRT_PREFIX: seq<byte> := [40, 114, 99, 110, 45, 118, 105, 114, 116, 41, 32]   // "(rcn-virt) "

  function Text(name: seq<byte>): seq<byte> {
    if name == [] || name[0] == 0 then [] else [name[0]] + Text(name[1..])
  }

  function VirtName(name: Name): Name {
    var text := VIRT_PREFIX + Text(name);
    if |text| >= 80 then text[..80] else text + Zeros(80 - |text|)
  }

  /** dev_init_udev. */
  function NewUdev(info: DeviceInfo): Dev {
    Dev(info.(name := VirtName(info.name)), false, true, NewStream(Writing, Device), [])
  }

  function Ids(devs: seq<Dev>): (ids: seq<U64>)
    ensures |ids| == |devs|
  {
    seq(|devs|, i requires 0 <= i < |devs| => devs[i].info.id)
  }

  /** dev_find_by_id from slot i on: the first match, or the last device when there is none. */
  function ScanById(ids: seq<U64>, id: U64, i: nat): (k: nat)
    requires i < |ids|
    ensures i <= k < |ids|
    ensures ids[k] == id || (k == |ids| - 1 && id !in ids[i..])
    ensures id !in ids[i..k]
    decreases |ids| - i
  {
    if ids[i] == id || i == |ids| - 1 then i else ScanById(ids, id, i + 1)
  }

  function FindById(ids: seq<U64>, id: U64): (r: Option<nat>)
    ensures r.None? <==> ids == []
    ensures r.Some? ==> r.value < |ids| && (ids[r.value] == id <==> id in ids)
  {
    if ids == [] then None else Some(ScanById(ids, id, 0))
  }

  function EventItems(es: seq<Event>): (items: seq<Item>)
    ensures |items| == |es|
  {
    seq(|es|, i requires 0 <= i < |es| => DeviceItem(es[i]))
  }

  function PushEvents(dev: Dev, es: seq<Event>): Dev {
    dev.(stream := Append(dev.stream, EventItems(es)))
  }

  lemma PushNothing(dev: Dev)
    ensures PushEvents(dev, []) == dev
  {
    assert EventItems([]) == [];
  }

  predicate IsRel(e: Event) { e.etype == EV_REL }

  /** What dev_emit_event_msg queues. */
  function EmitScript(e: Event): seq<Event> {
    if IsRel(e) then [e, SYN_REPORT] else [e]
  }

  predicate HasKeys(info: DeviceInfo) {
    HasBit(info.evtbit, EV_KEY)
  }

  function KeyUpAt(info: DeviceInfo, code: nat): seq<Event>
    requires code < KEY_MAX
  {
    if HasBit(info.keybit, code) then [KeyUp(code)] else []
  }

  function KeyUps(info: DeviceInfo, code: nat): seq<Event>
    decreases KEY_MAX - code, info
  {
    if code >= KEY_MAX then [] else KeyUpAt(info, code) + KeyUps(info, code + 1)
  }

  /** What dev_release_virt_keys queues. */
  function ReleaseScript(info: DeviceInfo): seq<Event> {
    if HasKeys(info) then KeyUps(info, 0) + [SYN_REPORT] else []
  }

  function ReleaseAll(devs: seq<Dev>): (r: seq<Dev>)
    ensures |r| == |devs|
  {
    seq(|devs|, i requires 0 <= i < |devs| => PushEvents(devs[i], ReleaseScript(devs[i].info)))
  }

  /** dev_ctrl_devices: grab and listen, or release and stop listening. */
  function Controlled(devs: seq<Dev>, capture: bool): (r: seq<Dev>)
    ensures |r| == |devs|
  {
    seq(|devs|, i requires 0 <= i < |devs| => devs[i].(grabbed := capture, listening := capture))
  }

  function GrabMsgs(devs: seq<Dev>, capture: bool): (r: seq<PeerMsg>)
    ensures |r| == |devs|
  {
    seq(|devs|, i requires 0 <= i < |devs| => UpdGrab(devs[i].info.id, capture))
  }

  // ---------------------------------------------------------------- relays

  const RELAY_IDLE: U32 := 0
  const RELAY_START: U32 := 1
  const RELAY_PAUSE: U32 := 2
  const RELAY_PAUSE_AGAIN: U32 := 3
  const RELAY_RESUME: U32 := 4
  const RELAY_RESUME_AGAIN: U32 := 5
  const RELAY_NO_PEER: U32 := 6
  const RELAY_STOP: U32 := 7
  const RELAY_SWITCH: U32 := 8
  const RELAY_LIST: U32 := 9

  function Tell(relay: Stream, value: U32, body: seq<byte>): Stream {
    Push(relay, SocketItem(Frame(value, body)))
  }

  function Broadcast(relays: seq<Stream>, value: U32): (r: seq<Stream>)
    ensures |r| == |relays|
  {
    seq(|relays|, i requires 0 <= i < |relays| => Tell(relays[i], value, []))
  }

  function Reply(core: Core, r: nat, value: U32, body: seq<byte>): Core
    requires r < |core.relays|
  {
    core.(relays := core.relays[r := Tell(core.relays[r], value, body)])
  }

  function ListBody(devs: seq<Dev>): seq<byte> {
    if devs == [] then [] else
      devs[0].info.name + [if devs[0].grabbed then 1 else 0] + ListBody(devs[1..])
  }

  // ---------------------------------------------------------------- pause and resume

  /** The change of state common to a relay's command and the peer's message. */
  function Toggle(core: Core, pause: bool): Core {
    core.(
      devices := if core.role.Client? then Controlled(core.devices, !pause) else ReleaseAll(core.devices),
      state := if pause then Paused else Running)
  }

  function ToggleOut(core: Core, pause: bool): seq<PeerMsg> {
    if core.role.Client? then GrabMsgs(core.devices, !pause) else []
  }

  function RelayPause(core: Core, r: nat): Outcome
    requires r < |core.relays|
  {
    if core.state.Paused? then Done(Reply(core, r, RELAY_PAUSE_AGAIN, []), [])
    else if core.connected then
      Done(Toggle(core, true).(relays := Broadcast(core.relays, RELAY_PAUSE)), ToggleOut(core, true) + [Pause])
    else if core.role.Client? then Beyond
    else Done(core.(devices := ReleaseAll(core.devices), relays := Broadcast(core.relays, RELAY_NO_PEER)), [])
  }

  /** No relay is told that the resume succeeded. */
  function RelayResume(core: Core, r: nat): Outcome
    requires r < |core.relays|
  {
    if core.state.Running? then Done(Reply(core, r, RELAY_RESUME_AGAIN, []), [])
    else if !core.connected then Beyond
    else Done(Toggle(core, false), ToggleOut(core, false) + [Resume])
  }

  function RelayStop(core: Core): Outcome {
    if !core.connected then Beyond
    else Done(core.(exit := true, relays := Broadcast(core.relays, RELAY_STOP)), [Stop])
  }

  /** r_handler. */
  function RelayHandler(core: Core, r: nat, value: U32): Outcome
    requires r < |core.relays|
  {
    if value == RELAY_IDLE then Done(core, [])
    else if value == RELAY_START then Done(Reply(core, r, RELAY_START, []), [])
    else if value == RELAY_PAUSE then RelayPause(core, r)
    else if value == RELAY_RESUME then RelayResume(core, r)
    else if value == RELAY_STOP then RelayStop(core)
    else if value == RELAY_SWITCH then (if core.state.Running? then RelayPause(core, r) else RelayResume(core, r))
    else if value == RELAY_LIST then Done(Reply(core, r, RELAY_LIST, ListBody(core.devices)), [])
    else Failed
  }

  // ---------------------------------------------------------------- messages from the peer

  function SetGrab(devs: seq<Dev>, id: U64, grab: bool): (r: seq<Dev>)
    requires devs != []
    ensures |r| == |devs|
  {
    var k := FindById(Ids(devs), id).value;
    devs[k := devs[k].(grabbed := grab)]
  }

  function Emit(devs: seq<Dev>, id: U64, e: Event): (r: seq<Dev>)
    requires devs != []
    ensures |r| == |devs|
  {
    var k := FindById(Ids(devs), id).value;
    devs[k := PushEvents(devs[k], EmitScript(e))]
  }

  /** p_handler. */
  function PeerHandler(core: Core, m: PeerMsg): Outcome {
    match m
    case DevCrt(info) => Done(core.(devices := core.devices + [NewUdev(info)]), [])
    case UpdGrab(id, g) =>
      if core.devices == [] then Failed else Done(core.(devices := SetGrab(core.devices, id, g)), [])
    case Input(id, e) =>
      if core.devices == [] then Failed else Done(core.(devices := Emit(core.devices, id, e)), [])
    case Pause => Done(Toggle(core, true).(relays := Broadcast(core.relays, RELAY_PAUSE)), ToggleOut(core, true))
    case Resume => Done(Toggle(core, false).(relays := Broadcast(core.relays, RELAY_RESUME)), ToggleOut(core, false))
    case Stop =>
      if core.role.Server? then Beyond
      else Done(core.(exit := true, relays := Broadcast(core.relays, RELAY_STOP)), [])
  }

  // ---------------------------------------------------------------- one ready stream

  function WithDev(core: Core, i: nat, dev: Dev): Core
    requires i < |core.devices|
  {
    core.(devices := core.devices[i := dev])
  }

  /** resolve_fd_streams for a device whose stream has completed an event. The client sends it to the peer
      (dev_handler); on the server it has been written, and the stream keeps it for the next wake-up. */
  function DevSettled(core: Core, i: nat): (o: Outcome)
    requires i < |core.devices|
    ensures o.Done?
  {
    var dev := core.devices[i];
    var c := Collect(dev.stream);
    var e := DecodeEvent(c.fallback.evt);
    Done(WithDev(core, i, dev.(stream := Reset(c), log := dev.log + [e])),
         if core.role.Client? then [Input(dev.info.id, e)] else [])
  }

  /** After a device's transfer t. */
  function DevMoved(core: Core, i: nat, t: Moved<Stream>): Outcome
    requires i < |core.devices|
  {
    if !t.ok then Failed
    else if Next(t.now).phase.Closed? then (if core.role.Client? then Beyond else Failed)
    else
      var core' := WithDev(core, i, core.devices[i].(stream := t.now));
      if Next(t.now).phase.Complete? then DevSettled(core', i) else Done(core', [])
  }

  /** A device's fd is ready. */
  function DevIo(core: Core, i: nat, io: Io): Outcome
    requires i < |core.devices| && ItemOk(Next(core.devices[i].stream)) && IoFits(Next(core.devices[i].stream), io)
  {
    DevMoved(core, i, StreamStream(core.devices[i].stream, io))
  }

  function WithoutRelay(relays: seq<Stream>, r: nat): seq<Stream>
    requires r < |relays|
  {
    relays[..r] + relays[r + 1..]
  }

  function WithRelay(core: Core, r: nat, s: Stream): Core
    requires r < |core.relays|
  {
    core.(relays := core.relays[r := s])
  }

  /** What becomes of a relay's stream once its handler has run. */
  function Rearm(o: Outcome, r: nat): Outcome {
    match o
    case Done(core, out) => if r < |core.relays| then Done(WithRelay(core, r, Reset(core.relays[r])), out) else o
    case _ => o
  }

  /** resolve_fd_streams for a relay whose stream has completed an item. */
  function RelaySettled(core: Core, r: nat): Outcome
    requires r < |core.relays|
  {
    var c := Collect(core.relays[r]);
    if c.fallback.op != c.defaultOp then Done(WithRelay(core, r, Reset(c)), [])
    else Rearm(RelayHandler(WithRelay(core, r, c), r, ValueIn(c.fallback.hdr)), r)
  }

  /** After a relay's transfer t. */
  function RelayMoved(core: Core, r: nat, t: Moved<Stream>): Outcome
    requires r < |core.relays|
  {
    if !t.ok then Failed
    else if Next(t.now).phase.Closed? then Done(core.(relays := WithoutRelay(core.relays, r)), [])
    else
      var core' := WithRelay(core, r, t.now);
      if Next(t.now).phase.Complete? then RelaySettled(core', r) else Done(core', [])
  }

  /** A relay's fd is ready. */
  function RelayIo(core: Core, r: nat, io: Io): Outcome
    requires r < |core.relays| && ItemOk(Next(core.relays[r])) && IoFits(Next(core.relays[r]), io)
  {
    RelayMoved(core, r, StreamStream(core.relays[r], io))
  }

  /** accept_usock. */
  function Accept(core: Core): Core {
    core.(relays := core.relays + [NewStream(Reading, Socket)])
  }

  // ---------------------------------------------------------------- with the peer's stream

  datatype Daemon = Daemon(core: Core, peer: Stream)

  /** One wake-up of the event loop: what the daemon becomes and the bytes it wrote to the peer. */
  datatype Turn = Turned(daemon: Daemon, wrote: seq<byte>) | Died | Left

  datatype Ready = PeerReady | RelayReady(r: nat) | DevReady(i: nat) | UsockReady

  function Items(ms: seq<PeerMsg>): (items: seq<Item>)
    ensures |items| == |ms|
  {
    seq(|ms|, i requires 0 <= i < |ms| => SocketItem(ToFrame(ms[i])))
  }

  lemma ItemsJoin(xs: seq<PeerMsg>, ys: seq<PeerMsg>)
    ensures Items(xs + ys) == Items(xs) + Items(ys)
  {
    hide ToFrame, SocketItem;
    forall i | 0 <= i < |xs + ys| ensures Items(xs + ys)[i] == (Items(xs) + Items(ys))[i] {
      assert (xs + ys)[i] == if i < |xs| then xs[i] else ys[i - |xs|];
    }
  }

  function AfterHandler(d: Daemon, o: Outcome, wrote: seq<byte>): Turn {
    match o
    case Done(core, out) => Turned(Daemon(core, Append(d.peer, Items(out))), wrote)
    case Failed => Died
    case Beyond => Left
  }

  function ResetPeer(t: Turn): Turn {
    match t
    case Turned(d, wrote) => Turned(d.(peer := Reset(d.peer)), wrote)
    case _ => t
  }

  /** resolve_fd_streams for the peer's stream once it has completed an item. */
  function PeerSettled(d: Daemon, wrote: seq<byte>): Turn {
    var c := Collect(d.peer);
    if c.fallback.op != c.defaultOp then Turned(d.(peer := Reset(c)), wrote)
    else
      match FromFrame(Received(c.fallback))
      case None => Died
      case Some(m) => ResetPeer(AfterHandler(d.(peer := c), PeerHandler(d.core, m), wrote))
  }

  /** After the peer's transfer t. */
  function PeerMoved(d: Daemon, t: Moved<Stream>): Turn {
    if !t.ok then Died
    else if Next(t.now).phase.Closed? then Left
    else
      var d' := d.(peer := t.now);
      if Next(t.now).phase.Complete? then PeerSettled(d', t.out) else Turned(d', t.out)
  }

  /** The peer's fd is ready. */
  function PeerIo(d: Daemon, io: Io): Turn
    requires ItemOk(Next(d.peer)) && IoFits(Next(d.peer), io)
  {
    PeerMoved(d, StreamStream(d.peer, io))
  }

  predicate CanWake(d: Daemon, ready: Ready, io: Io) {
    match ready
    case PeerReady => ItemOk(Next(d.peer)) && IoFits(Next(d.peer), io)
    case RelayReady(r) => r < |d.core.relays| && ItemOk(Next(d.core.relays[r])) && IoFits(Next(d.core.relays[r]), io)
    case DevReady(i) =>
      && i < |d.core.devices|
      && ItemOk(Next(d.core.devices[i].stream)) && IoFits(Next(d.core.devices[i].stream), io)
    case UsockReady => true
  }

  /** dispatch_epoll followed by resolve_fd_streams when one stream is ready. */
  function WakeUp(d: Daemon, ready: Ready, io: Io): Turn
    requires CanWake(d, ready, io)
  {
    match ready
    case PeerReady => PeerIo(d, io)
    case RelayReady(r) => AfterHandler(d, RelayIo(d.core, r, io), [])
    case DevReady(i) => AfterHandler(d, DevIo(d.core, i, io), [])
    case UsockReady => Turned(d.(core := Accept(d.core)), [])
  }

  /** can_exit. */
  predicate CanExit(core: Core) {
    core.exit && core.relays == []
  }
}
