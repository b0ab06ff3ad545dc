/** What holds of every net of two daemons and byte channels, however its reads and writes are chunked. */
module Theorems {
  import opened Base
  import opened Wire
  import opened Streams
  import opened Framing
  import opened Daemons
  import opened Relays
  import opened Replay
  import opened Sessions
  import opened Tables
  import opened Invariants
  import opened Convergence
  import opened Pausing
  import opened Network
  import opened OneWay

  /** Everything that the client has queued for the server has been handled. */
  predicate Delivered(n: Net) {
    n.c.peer.queue == [] && n.toS == [] && Idle(n.s.peer.fallback)
  }

  lemma DeliveredSession(n: Net, m: Session)
    requires Linked(n, m) && Delivered(n)
    ensures m.cs == []
  {
    DrainedIsEmpty(n.c.peer.queue, n.s.peer.fallback, Frames(m.cs));
  }

  // ---------------------------------------------------------------- the device table

  /** The bytes under way spell messages which, applied in order to the server's table, give the client's. */
  lemma TablesReplicate(infos: seq<DeviceInfo>, n: Net) returns (ms: seq<PeerMsg>)
    requires NetReachable(infos, n)
    ensures Carries(n.c.peer.queue, n.toS, n.s.peer.fallback, Frames(ms))
    ensures Play(Table(n.s.core.devices), ms) == Table(n.c.core.devices)
    ensures Delivered(n) ==> Table(n.s.core.devices) == Table(n.c.core.devices)
  {
    var m := NetRefinesSession(infos, n);
    ms := m.cs;
    if Delivered(n) {
      DeliveredSession(n, m);
    }
    hide Frames, Carries, NetReachable, Reachable, PeerStream;
  }

  /** Once everything is delivered, a list asked for on either side shows the same devices, grabbed alike. */
  lemma ListsAgree(infos: seq<DeviceInfo>, n: Net, j: nat)
    requires NetReachable(infos, n) && Delivered(n) && j < |n.c.core.devices|
    ensures var c, s := ListBody(n.c.core.devices), ListBody(n.s.core.devices);
      |c| == |s| == 81 * |n.c.core.devices| && c[81 * j + 80] == s[81 * j + 80]
  {
    hide NetReachable, Carries, ListBody;
    var _ := TablesReplicate(infos, n);
    assert Table(n.c.core.devices)[j] == Table(n.s.core.devices)[j];
    ListEntry(n.c.core.devices, j);
    ListEntry(n.s.core.devices, j);
  }

  /** RUNNING means every device of the client is grabbed and read from, PAUSED that none is. */
  lemma GrabsMatchState(infos: seq<DeviceInfo>, n: Net)
    requires NetReachable(infos, n)
    ensures Grabs(n.c.core)
  {
    var _ := NetRefinesSession(infos, n);
  }

  /** The lookup of a device that exists finds it, not the last one by default. */
  lemma LookupIsExact(ids: seq<U64>, id: U64)
    requires Distinct(ids) && id in ids
    ensures var k := FindById(ids, id);
      k.Some? && ids[k.value] == id && forall j :: 0 <= j < |ids| && ids[j] == id ==> j == k.value
  {
  }

  /** The lookup of an id that no device has returns the last device. */
  lemma LookupOfUnknown(ids: seq<U64>, id: U64)
    requires ids != [] && id !in ids
    ensures FindById(ids, id) == Some(|ids| - 1)
  {
  }

  /** The message that the server is about to handle, if this wake-up completes one. */
  function Arriving(n: Net, t: Tick): Option<PeerMsg>
    requires Enabled(n, t) && t.ready.PeerReady?
  {
    var now := StreamStream(n.End(t.side).peer, t.io).now;
    if now.queue == [] && now.fallback.phase.Complete? then FromFrame(Received(now.fallback)) else None
  }

  lemma ArrivingIsFirst(n: Net, m: Session, t: Tick)
    requires Linked(n, m) && Enabled(n, t) && t.ready.PeerReady? && Arriving(n, t).Some?
    ensures m.Inbound(t.side) != [] && Arriving(n, t) == Some(m.Inbound(t.side)[0])
  {
    var d := n.End(t.side);
    TransferLinked(n, m, t.side, t.io);
    var tr := StreamStream(d.peer, t.io);
    var n1 := AfterTransfer(n, t.side, tr.now, tr.out, Taken(t.io));
    assert n1.End(t.side) == d.(peer := tr.now);
    TransferPhase(d.peer, t.io);
    hide StreamStream, Carries, PeerStream, FromFrame, Received, Duplex, Frames;
    ReadSettles(n1, m, t.side);
  }

  /** Every update or input that the server handles names one of its devices, so the lookup finds exactly it. */
  lemma Causality(infos: seq<DeviceInfo>, n: Net, t: Tick)
    requires NetReachable(infos, n) && Enabled(n, t) && t.side.Server? && t.ready.PeerReady?
    requires Arriving(n, t).Some? && (Arriving(n, t).value.UpdGrab? || Arriving(n, t).value.Input?)
    ensures var ids, id := Ids(n.s.core.devices), Arriving(n, t).value.id;
      Distinct(ids) && id in ids && ids[FindById(ids, id).value] == id
  {
    var m := NetRefinesSession(infos, n);
    ArrivingIsFirst(n, m, t);
    ServerPrefix(m.c.devices, m.s.devices, m.cs);
    hide Arriving, Enabled, PeerStream, Carries, NetReachable, Reachable;
  }

  // ---------------------------------------------------------------- replay

  lemma {:induction false} RelsPrefix(a: seq<Event>, b: seq<Event>)
    requires a <= b
    ensures Rels(a) <= Rels(b)
  {
    assert b == a + b[|a|..];
    RelsJoin(a, b[|a|..]);
  }

  /** The part of a device's script that has left its queue. */
  function Played(dev: Dev, script: seq<Event>): seq<Event> {
    if |dev.stream.queue| <= |script| then script[..|script| - |dev.stream.queue|] else []
  }

  lemma PlayedIsReplayed(m: Session, j: nat)
    requires Good(m) && j < |m.s.devices|
    ensures var dev := m.s.devices[j]; var script := Script(m.acts, dev.info);
      Replays(dev.log, Played(dev, script)) && Played(dev, script) <= script
      && (dev.stream.queue == [] ==> Played(dev, script) == script)
  {
    var dev := m.s.devices[j];
    assert Replaying(dev, Script(m.acts, dev.info));
  }

  /** The inputs that the server has handled for a device are the first that the client has read from it. */
  lemma InputsArePrefix(m: Session, j: nat)
    requires Good(m) && j < |m.s.devices|
    ensures j < |m.c.devices| && m.c.devices[j].info.id == m.s.devices[j].info.id
    ensures InputsFor(HandledMsgs(m.acts), m.s.devices[j].info.id) <= m.c.devices[j].log
    ensures m.cs == [] ==> InputsFor(HandledMsgs(m.acts), m.s.devices[j].info.id) == m.c.devices[j].log
  {
    ServerPrefix(m.c.devices, m.s.devices, m.cs);
    assert Ids(m.s.devices)[j] == Ids(m.c.devices)[j];
    InputsForJoin(HandledMsgs(m.acts), m.cs, m.s.devices[j].info.id);
    assert m.cs == [] ==> HandledMsgs(m.acts) + m.cs == HandledMsgs(m.acts);
  }

  lemma SessionMotion(m: Session, j: nat)
    requires Good(m) && j < |m.s.devices|
    ensures j < |m.c.devices| && Rels(m.s.devices[j].log) <= Rels(m.c.devices[j].log)
    ensures m.cs == [] && m.s.devices[j].stream.queue == [] ==> Rels(m.s.devices[j].log) == Rels(m.c.devices[j].log)
  {
    hide Rels, InputsFor, HandledMsgs, Replays, Played, Script;
    var dev := m.s.devices[j];
    var script := Script(m.acts, dev.info);
    var inputs := InputsFor(HandledMsgs(m.acts), dev.info.id);
    PlayedIsReplayed(m, j);
    InputsArePrefix(m, j);
    ReplayKeepsMotion(dev.log, Played(dev, script));
    RelsPrefix(Played(dev, script), script);
    ScriptMotion(m.acts, dev.info);
    RelsPrefix(inputs, m.c.devices[j].log);
  }

  lemma SameDisplacement(a: seq<Event>, b: seq<Event>)
    requires Rels(a) == Rels(b)
    ensures forall axis {:trigger Displacement(a, axis)} :: Displacement(a, axis) == Displacement(b, axis)
  {
    forall axis: U16 ensures Displacement(a, axis) == Displacement(b, axis) {
      DisplacementOfRels(a, axis);
      DisplacementOfRels(b, axis);
    }
  }

  /** Conservation of motion, whoever pauses and resumes: the relative motions written to a virtual device are
      a prefix of those read from the physical one, each exactly once, and all of them once everything is drained. */
  lemma MotionIsConserved(infos: seq<DeviceInfo>, n: Net, j: nat)
    requires NetReachable(infos, n) && j < |n.s.core.devices|
    ensures j < |n.c.core.devices| && n.c.core.devices[j].info.id == n.s.core.devices[j].info.id
    ensures Rels(n.s.core.devices[j].log) <= Rels(n.c.core.devices[j].log)
    ensures Delivered(n) && n.s.core.devices[j].stream.queue == [] ==>
      Rels(n.s.core.devices[j].log) == Rels(n.c.core.devices[j].log)
      && forall axis {:trigger Displacement(n.s.core.devices[j].log, axis)} ::
           Displacement(n.s.core.devices[j].log, axis) == Displacement(n.c.core.devices[j].log, axis)
  {
    hide NetReachable, Reachable, Good, Rels, Displacement, Carries, PeerStream, Delivered;
    var m := NetRefinesSession(infos, n);
    InputsArePrefix(m, j);
    SessionMotion(m, j);
    if Delivered(n) && n.s.core.devices[j].stream.queue == [] {
      DeliveredSession(n, m);
      SameDisplacement(n.s.core.devices[j].log, n.c.core.devices[j].log);
    }
  }

  /** End-to-end replay. m is the session that the net carries, and m.acts what its server has done. What has been
      written to each virtual device is the part of its script that has left the queue, up to immediate repeats of
      events that are not relative motions; the inputs in the script are the first that were read from the physical
      device, in order. All of it arrives once drained. */
  lemma EndToEndReplay(infos: seq<DeviceInfo>, n: Net, j: nat) returns (m: Session)
    requires NetReachable(infos, n) && j < |n.s.core.devices|
    ensures Reachable(infos, m) && Linked(n, m)
    ensures j < |n.c.core.devices| && n.c.core.devices[j].info.id == n.s.core.devices[j].info.id
    ensures var v, d := n.s.core.devices[j], n.c.core.devices[j];
      var script, inputs := Script(m.acts, v.info), InputsFor(HandledMsgs(m.acts), v.info.id);
      && Replays(v.log, Played(v, script)) && Played(v, script) <= script
      && (v.stream.queue == [] ==> Played(v, script) == script)
      && inputs <= d.log
      && (Delivered(n) ==> inputs == d.log)
  {
    hide NetReachable, Reachable, Good, Script, InputsFor, Replays, Carries, PeerStream, Played, HandledMsgs, Delivered;
    m := NetRefinesSession(infos, n);
    PlayedIsReplayed(m, j);
    InputsArePrefix(m, j);
    if Delivered(n) {
      DeliveredSession(n, m);
    }
  }

  /** After a pause or resume, whoever commands it: what is written to a virtual device is, up to stuttering, what its
      script was before, then the key-ups of all its keys and a SYN, then the inputs handled since; a reader is told of
      the releases before it sees another input. All of it is written once the queue is empty. */
  lemma ReplayAfterToggle(infos: seq<DeviceInfo>, n: Net, m: Session, j: nat, before: seq<Act>, toggle: Act,
                          since: seq<Act>)
    requires Reachable(infos, m) && Linked(n, m) && m.acts == before + [toggle] + since
    requires Toggles(toggle) && forall a :: a in since ==> !Toggles(a)
    requires j < |n.s.core.devices| && Created(before, n.s.core.devices[j].info.id)
    ensures var v := n.s.core.devices[j];
      var all := Script(before, v.info) + ReleaseScript(v.info) + Scripted(InputsFor(HandledMsgs(since), v.info.id));
      Replays(v.log, Played(v, all)) && Played(v, all) <= all && (v.stream.queue == [] ==> Played(v, all) == all)
    ensures HasKeys(n.s.core.devices[j].info) ==> Last(ReleaseScript(n.s.core.devices[j].info)) == SYN_REPORT
  {
    hide Reachable, Good, Script, InputsFor, Replays, Carries, PeerStream, Played, HandledMsgs, ReleaseScript, Scripted;
    ReachableIsGood(infos, m);
    PlayedIsReplayed(m, j);
    ScriptAtToggle(before, toggle, since, n.s.core.devices[j].info);
    ReleaseIs(n.s.core.devices[j].info);
  }

  // ---------------------------------------------------------------- keys

  /** While only the client commands, no drained virtual device holds a key while the server is paused. */
  lemma PausedHoldsNoKeys(infos: seq<DeviceInfo>, n: Net, j: nat)
    requires MuteReachable(infos, n) && n.s.core.state.Paused?
    requires j < |n.s.core.devices| && n.s.core.devices[j].stream.queue == []
    ensures Held(n.s.core.devices[j].info, n.s.core.devices[j].log) == {}
  {
    var m := OneWayNeedsNoCondition(infos, n);
    ReachableIsPaced(infos, m);
    hide Good, Paced, AllHandled, MuteReachable, Reachable;
    NoStuckKeys(m, j);
  }

  /** While only the client commands, the server handles no input between a pause and the next resume. */
  lemma PausedHandlesNoInput(infos: seq<DeviceInfo>, n: Net, t: Tick)
    requires MuteReachable(infos, n) && Enabled(n, t) && t.side.Server? && t.ready.PeerReady?
    requires Arriving(n, t).Some? && Arriving(n, t).value.Input?
    ensures n.s.core.state.Running?
  {
    var m := OneWayNeedsNoCondition(infos, n);
    ReachableIsPaced(infos, m);
    ArrivingIsFirst(n, m, t);
    hide Good, Paced, AllHandled, MuteReachable, Reachable, Arriving, Enabled, NetReachable;
    NoInputWhilePaused(m);
  }

  /** While only the client commands, the daemons agree whenever everything has been delivered. */
  lemma OneWayConverges(infos: seq<DeviceInfo>, n: Net)
    requires MuteReachable(infos, n) && Delivered(n)
    ensures n.c.core.state == n.s.core.state
  {
    var m := OneWayNeedsNoCondition(infos, n);
    ReachableIsPaced(infos, m);
    DeliveredSession(n, m);
    hide Shape, Grabs, Replicated, Logs, Scripts, Settled, MuteReachable, Reachable, Quiet, NetReachable;
    assert HandledMsgs(m.acts) + m.cs == HandledMsgs(m.acts);
  }
}
