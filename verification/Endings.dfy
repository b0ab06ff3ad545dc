/** What whole wake-ups do to the relays, and how streams end: a relay that hangs up, a device that is gone, a peer that
    is lost or sends nonsense. */
module Endings {
  import opened Base
  import opened Wire
  import opened Streams
  import opened Framing
  import opened Daemons
  import opened Sessions
  import opened Relays

  /** The other end has hung up, or the device has been unplugged. */
  predicate HangsUp(io: Io) {
    io.Eof? || io.NoDev?
  }

  lemma StreamCloses(s: Stream, io: Io)
    requires ItemOk(Next(s)) && Live(Next(s)) && HangsUp(io)
    ensures var t := StreamStream(s, io); t.ok && t.out == [] && Next(t.now).phase.Closed?
  {
    TransferOutcome(Next(s), io);
    hide TransferItem;
  }

  lemma StreamFails(s: Stream)
    requires ItemOk(Next(s)) && Live(Next(s))
    ensures !StreamStream(s, Fault).ok
  {
    TransferOutcome(Next(s), Fault);
    hide TransferItem;
  }

  // ---------------------------------------------------------------- a relay hangs up

  /** A relay that hangs up is gone, and it alone: the relays before it keep their places, those behind it move up, and
      nothing else about the daemon changes. */
  lemma RelayGone(core: Core, r: nat, io: Io)
    requires r < |core.relays| && ItemOk(Next(core.relays[r])) && Live(Next(core.relays[r])) && HangsUp(io)
    ensures IoFits(Next(core.relays[r]), io) && RelayIo(core, r, io).Done?
    ensures var o := RelayIo(core, r, io);
      && o.out == [] && o.core == core.(relays := o.core.relays)
      && |o.core.relays| == |core.relays| - 1
      && (forall q :: 0 <= q < r ==> o.core.relays[q] == core.relays[q])
      && (forall q :: r <= q < |core.relays| - 1 ==> o.core.relays[q] == core.relays[q + 1])
  {
    StreamCloses(core.relays[r], io);
    hide StreamStream;
  }

  /** Any other error on a relay's socket ends the daemon. */
  lemma RelayFails(core: Core, r: nat)
    requires r < |core.relays| && ItemOk(Next(core.relays[r])) && Live(Next(core.relays[r]))
    ensures RelayIo(core, r, Fault).Failed?
  {
    StreamFails(core.relays[r]);
    hide StreamStream;
  }

  /** A daemon that is to exit does so when its last relay has hung up, and no sooner. */
  lemma LastRelayGone(core: Core, r: nat, io: Io)
    requires core.exit && r < |core.relays| && ItemOk(Next(core.relays[r])) && Live(Next(core.relays[r])) && HangsUp(io)
    ensures !CanExit(core)
    ensures RelayIo(core, r, io).Done? && (CanExit(RelayIo(core, r, io).core) <==> |core.relays| == 1)
  {
    RelayGone(core, r, io);
    hide RelayIo;
  }

  // ---------------------------------------------------------------- a relay reads or is written to

  /** What a wake-up that leaves relay r's stream as `now` makes the daemon tell relay q. */
  function Told(core: Core, r: nat, now: Stream, q: nat): seq<Frame> {
    if now.queue == [] && now.fallback.phase.Complete? then Answers(core, r, ValueIn(now.fallback.hdr), q) else []
  }

  lemma WritesWhatIsLeft(s: Stream, io: Io)
    requires RelayStream(s) && IoFits(Next(s), io) && Ordinary(io)
    ensures var t := StreamStream(s, io); t.out + QueueLeft(t.now.queue) == QueueLeft(s.queue)
  {
    var t := StreamStream(s, io);
    if io.Put? {
      WriteShrinks(s.queue[0], io.count);
      assert t.now.queue == [TransferItem(s.queue[0], io).now] + s.queue[1..];
      assert t.now.queue[1..] == s.queue[1..];
      Assoc(t.out, WriteLeft(t.now.queue[0]), QueueLeft(s.queue[1..]));
      hide TransferItem, WriteLeft;
    } else {
      assert t.now.queue == s.queue && t.out == [];
    }
  }

  lemma RetiringLeaves(s: Stream)
    requires s.queue != [] && s.queue[0].phase.Complete?
    ensures QueueLeft(Reset(Collect(s)).queue) == QueueLeft(s.queue)
  {
    assert WriteLeft(s.queue[0]) == [];
  }

  /** Settling a relay's stream leaves what each relay still has to read as it was, but for the answers. */
  lemma SettledTells(core: Core, r: nat, q: nat)
    requires r < |core.relays| && q < |core.relays| && Safe(core.relays[r]) && core.relays[r].defaultKind.Socket?
    requires Next(core.relays[r]).phase.Complete? && KnownRequest(core.relays[r]) && RelaySettled(core, r).Done?
    ensures var relays' := RelaySettled(core, r).core.relays;
      |relays'| == |core.relays| &&
      QueueLeft(relays'[q].queue) == QueueLeft(core.relays[q].queue) + EncodeAll(Told(core, r, core.relays[r], q))
  {
    hide QueueLeft, EncodeAll, ItemOk, RelayHandler, Answers;
    var s := core.relays[r];
    if s.queue == [] {
      var mid, value := WithRelay(core, r, Collect(s)), ValueIn(s.fallback.hdr);
      assert Collect(s) == s && mid == core;
      HandlerCounts(mid, r, value);
      RelaysAreAnswered(mid, r, value, q);
    } else {
      RetiringLeaves(s);
      assert EncodeAll([]) == [] by { NoFrames(); }
    }
  }

  lemma NoFrames()
    ensures EncodeAll([]) == []
  {
  }

  lemma HandlerCounts(core: Core, r: nat, value: U32)
    requires r < |core.relays|
    ensures RelayHandler(core, r, value).Done? ==> |RelayHandler(core, r, value).core.relays| == |core.relays|
  {
  }

  /** A whole wake-up of relay r, reading or writing: the bytes written to relay q, then what it has still to read, are
      what it had to read before, then exactly what it has now been told. */
  lemma RelayWakes(core: Core, r: nat, io: Io, q: nat)
    requires RelaysOk(core) && r < |core.relays| && q < |core.relays|
    requires IoFits(Next(core.relays[r]), io) && Ordinary(io)
    requires KnownRequest(StreamStream(core.relays[r], io).now) && RelayIo(core, r, io).Done?
    ensures var t, relays' := StreamStream(core.relays[r], io), RelayIo(core, r, io).core.relays;
      |relays'| == |core.relays| &&
      (if q == r then t.out else []) + QueueLeft(relays'[q].queue)
      == QueueLeft(core.relays[q].queue) + EncodeAll(Told(core, r, t.now, q))
  {
    hide QueueLeft, EncodeAll, ItemOk, RelaySettled, Answers, StreamStream;
    WritesWhatIsLeft(core.relays[r], io);
    RelayTransfers(core.relays[r], io);
    var t := StreamStream(core.relays[r], io);
    var mid := WithRelay(core, r, t.now);
    NoFrames();
    StaysOpen(core.relays[r], io);
    if Next(t.now).phase.Complete? {
      SettledTells(mid, r, q);
      TellsTheSame(core, mid, r, t.now, q);
      if q == r {
        Assoc(t.out, QueueLeft(t.now.queue), EncodeAll(Told(core, r, t.now, q)));
      }
    }
  }

  lemma StaysOpen(s: Stream, io: Io)
    requires RelayStream(s) && IoFits(Next(s), io) && Ordinary(io)
    ensures !Next(StreamStream(s, io).now).phase.Closed?
  {
    TransferKeepsItem(Next(s), io);
  }

  lemma TellsTheSame(core: Core, mid: Core, r: nat, now: Stream, q: nat)
    requires mid == core.(relays := mid.relays)
    ensures Told(mid, r, now, q) == Told(core, r, now, q)
  {
  }

  /** A relay that connects has nothing to read yet, and changes nothing for the others. */
  lemma AcceptAdds(core: Core)
    ensures var core' := Accept(core);
      && core' == core.(relays := core'.relays) && |core'.relays| == |core.relays| + 1
      && core'.relays[..|core.relays|] == core.relays
      && RelayStream(Last(core'.relays)) && QueueLeft(Last(core'.relays).queue) == []
      && Idle(Last(core'.relays).fallback) && Last(core'.relays).armed.Reading?
  {
  }

  // ---------------------------------------------------------------- devices

  /** A wake-up of a device changes nothing but that device. */
  lemma DeviceWakes(core: Core, i: nat, io: Io)
    requires i < |core.devices| && ItemOk(Next(core.devices[i].stream)) && IoFits(Next(core.devices[i].stream), io)
    requires DevIo(core, i, io).Done?
    ensures var core' := DevIo(core, i, io).core;
      && core' == core.(devices := core'.devices) && |core'.devices| == |core.devices|
      && (forall k :: 0 <= k < |core.devices| && k != i ==> core'.devices[k] == core.devices[k])
      && core'.devices[i] == core.devices[i].(stream := core'.devices[i].stream, log := core'.devices[i].log)
  {
    hide StreamStream;
  }

  /** A physical device that is unplugged is beyond the session; a virtual one that is gone ends the server. */
  lemma DeviceGone(core: Core, i: nat, io: Io)
    requires i < |core.devices| && HangsUp(io)
    requires ItemOk(Next(core.devices[i].stream)) && Live(Next(core.devices[i].stream))
    ensures if core.role.Client? then DevIo(core, i, io).Beyond? else DevIo(core, i, io).Failed?
  {
    StreamCloses(core.devices[i].stream, io);
    hide StreamStream;
  }

  // ---------------------------------------------------------------- the peer

  /** Losing the peer ends the session that is modelled; an error on its socket ends the daemon. */
  lemma PeerGone(d: Daemon, io: Io)
    requires ItemOk(Next(d.peer)) && Live(Next(d.peer)) && (HangsUp(io) || io.Fault?)
    ensures PeerIo(d, io) == if io.Fault? then Died else Left
  {
    if io.Fault? {
      StreamFails(d.peer);
    } else {
      StreamCloses(d.peer, io);
    }
    hide StreamStream;
  }

  /** A message that no handler knows ends the daemon. */
  lemma NonsenseEndsDaemon(d: Daemon, t: Moved<Stream>)
    requires t.ok && t.now.queue == [] && t.now.fallback.phase.Complete? && t.now.fallback.op == t.now.defaultOp
    requires ValueIn(t.now.fallback.hdr) > 5
    ensures PeerMoved(d, t) == Died
  {
  }

  /** The message that a transfer of the peer's stream has completed. */
  function Heard(now: Stream): Option<PeerMsg> {
    if now.queue == [] && now.fallback.phase.Complete? then FromFrame(Received(now.fallback)) else None
  }

  /** A wake-up of the peer's stream tells the relays what its message announces, and nothing else. */
  lemma PeerWakes(d: Daemon, t: Moved<Stream>, q: nat)
    requires q < |d.core.relays| && PeerMoved(d, t).Turned?
    requires t.now.queue != [] ==> t.now.queue[0].op != t.now.defaultOp
    requires t.now.queue == [] ==> t.now.fallback.op == t.now.defaultOp
    ensures var relays' := PeerMoved(d, t).daemon.core.relays;
      |relays'| == |d.core.relays| &&
      QueueLeft(relays'[q].queue) == QueueLeft(d.core.relays[q].queue)
                                     + EncodeAll(if Heard(t.now).Some? then Announced(Heard(t.now).value) else [])
  {
    hide QueueLeft, EncodeAll, FromFrame, Received, PeerHandler;
    NoFrames();
    if Heard(t.now).Some? {
      PeerCommandsAreAnnounced(d.core, Heard(t.now).value, q);
    }
  }
}
