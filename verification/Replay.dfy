/** What a virtual device is told to replay, and what the stuttering of its stream does to it. */
module Replay {
  import opened Base
  import opened Wire
  import opened Streams
  import opened Daemons

  // ---------------------------------------------------------------- stuttering

  /** The event in a virtual device's fallback once q has been written: its last event, or at first all zeros. */
  function Current(q: seq<Event>): Event {
    if q == [] then SYN_REPORT else Last(q)
  }

  /** w is q, in order, with any number of immediate repeats of events that are not EV_REL
      (before the first event, repeats of the all-zero one). */
  predicate Replays(w: seq<Event>, q: seq<Event>) {
    if w == [] then q == [] else
      && Last(w) == Current(q)
      && ((!IsRel(Current(q)) && Replays(Front(w), q)) || (q != [] && Replays(Front(w), Front(q))))
  }

  lemma ReplayAgain(w: seq<Event>, q: seq<Event>)
    requires Replays(w, q) && !IsRel(Current(q))
    ensures Replays(w + [Current(q)], q)
  {
    assert Front(w + [Current(q)]) == w;
  }

  lemma ReplayNext(w: seq<Event>, q: seq<Event>, e: Event)
    requires Replays(w, q)
    ensures Replays(w + [e], q + [e])
  {
    assert Front(w + [e]) == w && Front(q + [e]) == q;
  }

  function Rels(q: seq<Event>): seq<Event> {
    if q == [] then [] else Rels(Front(q)) + if IsRel(Last(q)) then [Last(q)] else []
  }

  /** Every relative motion is written exactly once, in order. */
  lemma {:induction false} ReplayKeepsMotion(w: seq<Event>, q: seq<Event>)
    requires Replays(w, q)
    ensures Rels(w) == Rels(q)
    decreases |w|
  {
    if w != [] {
      if !IsRel(Current(q)) && Replays(Front(w), q) {
        ReplayKeepsMotion(Front(w), q);
      } else {
        ReplayKeepsMotion(Front(w), Front(q));
      }
    }
  }

  function Displacement(q: seq<Event>, axis: U16): int {
    if q == [] then 0 else
      Displacement(Front(q), axis) + if IsRel(Last(q)) && Last(q).code == axis then Last(q).value else 0
  }

  lemma {:induction false} DisplacementOfRels(q: seq<Event>, axis: U16)
    ensures Displacement(q, axis) == Displacement(Rels(q), axis)
  {
    if q != [] {
      DisplacementOfRels(Front(q), axis);
      if IsRel(Last(q)) {
        var r := Rels(Front(q)) + [Last(q)];
        assert Rels(q) == r && Front(r) == Rels(Front(q)) && Last(r) == Last(q);
      } else {
        assert Rels(q) == Rels(Front(q));
      }
    }
  }

  // ---------------------------------------------------------------- keys

  /** A key that the virtual device was created with; the kernel drops events for any other. */
  predicate Supported(info: DeviceInfo, code: U16) {
    HasKeys(info) && code < KEY_MAX && HasBit(info.keybit, code)
  }

  function Press(info: DeviceInfo, held: set<U16>, e: Event): set<U16> {
    if e.etype != EV_KEY || !Supported(info, e.code) then held
    else if e.value == 0 then held - {e.code}
    else held + {e.code}
  }

  /** The keys down after the events q. */
  function Held(info: DeviceInfo, q: seq<Event>): set<U16> {
    if q == [] then {} else Press(info, Held(info, Front(q)), Last(q))
  }

  lemma HeldAfter(info: DeviceInfo, q: seq<Event>, e: Event)
    ensures Held(info, q + [e]) == Press(info, Held(info, q), e)
  {
    assert Front(q + [e]) == q;
  }

  lemma {:induction false} ReplayKeepsHeld(info: DeviceInfo, w: seq<Event>, q: seq<Event>)
    requires Replays(w, q)
    ensures Held(info, w) == Held(info, q)
    decreases |w|
  {
    if w != [] {
      if !IsRel(Current(q)) && Replays(Front(w), q) {
        ReplayKeepsHeld(info, Front(w), q);
      } else {
        ReplayKeepsHeld(info, Front(w), Front(q));
      }
    }
  }

  lemma {:induction false} HeldSupported(info: DeviceInfo, q: seq<Event>)
    ensures forall c :: c in Held(info, q) ==> Supported(info, c)
  {
    if q != [] {
      HeldSupported(info, Front(q));
    }
  }

  lemma KeyUpReleases(info: DeviceInfo, q: seq<Event>, code: nat)
    requires code < KEY_MAX && HasKeys(info)
    ensures Held(info, q + KeyUpAt(info, code)) == Held(info, q) - {code}
  {
    HeldSupported(info, q);
    if HasBit(info.keybit, code) {
      HeldAfter(info, q, KeyUp(code));
    } else {
      assert q + KeyUpAt(info, code) == q;
      assert !Supported(info, code);
    }
  }

  lemma {:induction false} KeyUpsRelease(info: DeviceInfo, q: seq<Event>, code: nat)
    requires code <= KEY_MAX && HasKeys(info)
    ensures forall c :: c in Held(info, q + KeyUps(info, code)) ==> c in Held(info, q) && c < code
    decreases KEY_MAX - code
  {
    hide HasBit, KeyUpAt, Held, HasKeys;
    if code == KEY_MAX {
      HeldSupported(info, q);
      assert q + KeyUps(info, code) == q;
    } else {
      var key := KeyUpAt(info, code);
      KeyUpReleases(info, q, code);
      KeyUpsRelease(info, q + key, code + 1);
      assert q + (key + KeyUps(info, code + 1)) == q + key + KeyUps(info, code + 1);
    }
  }

  /** dev_release_virt_keys lifts every key, whatever was replayed before. */
  lemma ReleaseLiftsAll(info: DeviceInfo, q: seq<Event>)
    ensures Held(info, q + ReleaseScript(info)) == {}
  {
    hide KeyUps;
    HeldSupported(info, q);
    if HasKeys(info) {
      KeyUpsRelease(info, q, 0);
      assert q + ReleaseScript(info) == (q + KeyUps(info, 0)) + [SYN_REPORT];
      HeldAfter(info, q + KeyUps(info, 0), SYN_REPORT);
    } else {
      assert q + ReleaseScript(info) == q;
    }
  }

  lemma {:induction false} KeyUpsAreSupported(info: DeviceInfo, code: nat)
    requires code <= KEY_MAX && HasKeys(info)
    ensures forall k :: 0 <= k < |KeyUps(info, code)| ==> var e := KeyUps(info, code)[k];
      e == Event(Zeros(16), EV_KEY, e.code, 0) && code <= e.code && Supported(info, e.code)
    ensures forall k, l :: 0 <= k < l < |KeyUps(info, code)| ==> KeyUps(info, code)[k].code < KeyUps(info, code)[l].code
    decreases KEY_MAX - code
  {
    hide HasBit;
    if code < KEY_MAX {
      KeyUpsAreSupported(info, code + 1);
    }
  }

  lemma {:induction false} KeyUpsAreAll(info: DeviceInfo, code: nat)
    requires code <= KEY_MAX && HasKeys(info)
    ensures forall c: U16 :: code <= c && Supported(info, c) ==> KeyUp(c) in KeyUps(info, code)
    decreases KEY_MAX - code
  {
    hide HasBit;
    if code < KEY_MAX {
      KeyUpsAreAll(info, code + 1);
    }
  }

  /** What dev_release_virt_keys queues is nothing for a device without keys; for any other it is one key-up for each
      supported key, in ascending order, and then the SYN that makes readers take notice. */
  lemma ReleaseIs(info: DeviceInfo)
    ensures ReleaseScript(info) == [] <==> !HasKeys(info)
    ensures HasKeys(info) ==>
      var ups := Front(ReleaseScript(info));
      && Last(ReleaseScript(info)) == Event(Zeros(16), EV_SYN, 0, 0)
      && (forall k :: 0 <= k < |ups| ==>
            ups[k] == Event(Zeros(16), EV_KEY, ups[k].code, 0) && Supported(info, ups[k].code))
      && (forall k, l :: 0 <= k < l < |ups| ==> ups[k].code < ups[l].code)
      && (forall c: U16 :: Supported(info, c) ==> KeyUp(c) in ups)
  {
    hide KeyUps;
    if HasKeys(info) {
      KeyUpsAreSupported(info, 0);
      KeyUpsAreAll(info, 0);
      assert Front(ReleaseScript(info)) == KeyUps(info, 0);
    }
  }

  // ---------------------------------------------------------------- the shape of the queue

  /** A relative motion has a SYN directly behind it. */
  predicate Guarded(q: seq<Event>) {
    forall i :: 0 <= i < |q| && IsRel(q[i]) ==> i + 1 < |q| && q[i + 1] == SYN_REPORT
  }

  lemma GuardedJoin(a: seq<Event>, b: seq<Event>)
    requires Guarded(a) && Guarded(b)
    ensures Guarded(a + b)
  {
  }

  lemma {:induction false} KeyUpsAreKeys(info: DeviceInfo, code: nat)
    ensures forall e :: e in KeyUps(info, code) ==> e.etype == EV_KEY
    decreases KEY_MAX - code
  {
    if code < KEY_MAX {
      KeyUpsAreKeys(info, code + 1);
    }
  }

  lemma ScriptsAreGuarded(info: DeviceInfo, e: Event)
    ensures Guarded(EmitScript(e)) && Guarded(ReleaseScript(info))
    ensures forall r :: r in ReleaseScript(info) ==> !IsRel(r)
  {
    hide KeyUps;
    KeyUpsAreKeys(info, 0);
  }

  /** `script` has been queued so far; q is still queued, and the prefix before it has been replayed as w,
      ending with the event `last`. */
  predicate Tracks(q: seq<Item>, last: Event, w: seq<Event>, script: seq<Event>) {
    && |q| <= |script|
    && var k := |script| - |q|;
    && q == EventItems(script[k..])
    && last == Current(script[..k])
    && Replays(w, script[..k])
  }

  lemma TracksPush(q: seq<Item>, last: Event, w: seq<Event>, script: seq<Event>, es: seq<Event>)
    requires Tracks(q, last, w, script)
    ensures Tracks(q + EventItems(es), last, w, script + es)
  {
    var k := |script| - |q|;
    assert (script + es)[k..] == script[k..] + es;
    assert (script + es)[..k] == script[..k];
    assert EventItems(script[k..] + es) == EventItems(script[k..]) + EventItems(es);
  }

  lemma TracksNext(q: seq<Item>, last: Event, w: seq<Event>, script: seq<Event>)
    requires Tracks(q, last, w, script) && q != []
    ensures var e := DecodeEvent(q[0].evt); Tracks(q[1..], e, w + [e], script)
  {
    var k := |script| - |q|;
    var e := script[k];
    assert q[0] == DeviceItem(e);
    EventRoundTrip(e);
    assert script[k..][1..] == script[k + 1..];
    assert EventItems(script[k..])[1..] == EventItems(script[k + 1..]);
    assert script[..k + 1] == script[..k] + [e];
    ReplayNext(w, script[..k], e);
  }

  lemma TracksAgain(last: Event, w: seq<Event>, script: seq<Event>)
    requires Tracks([], last, w, script) && Guarded(script)
    ensures Tracks([], last, w + [last], script)
  {
    assert script[..|script|] == script;
    ReplayAgain(w, script);
  }

  /** A virtual device between two wake-ups. */
  predicate Replaying(dev: Dev, script: seq<Event>) {
    && dev.listening
    && Safe(dev.stream) && dev.stream.defaultKind.Device? && dev.stream.defaultOp.Writing?
    && Idle(dev.stream.fallback)
    && Guarded(script)
    && Tracks(dev.stream.queue, DecodeEvent(dev.stream.fallback.evt), dev.log, script)
  }

  lemma BlankEvent()
    ensures DecodeEvent(Zeros(EVENT_SIZE)) == SYN_REPORT
  {
    EventRoundTrip(SYN_REPORT);
    assert EncodeEvent(SYN_REPORT) == Zeros(EVENT_SIZE) by {
      assert LittleEndian(0, 2) == [0, 0];
      assert LittleEndian(0, 4) == [0, 0] + LittleEndian(0, 2);
    }
  }

  lemma NewUdevReplays(info: DeviceInfo)
    ensures Replaying(NewUdev(info), [])
  {
    BlankEvent();
    assert EventItems([]) == [];
  }

  lemma PushKeepsSafe(s: Stream, es: seq<Event>)
    requires Safe(s) && s.defaultKind.Device?
    ensures Safe(Append(s, EventItems(es)))
  {
  }

  lemma PushReplays(dev: Dev, script: seq<Event>, es: seq<Event>)
    requires Replaying(dev, script) && Guarded(es)
    ensures Replaying(PushEvents(dev, es), script + es)
  {
    PushKeepsSafe(dev.stream, es);
    GuardedJoin(script, es);
    TracksPush(dev.stream.queue, DecodeEvent(dev.stream.fallback.evt), dev.log, script, es);
    assert dev.stream.queue + [] == dev.stream.queue;
  }

  /** The virtual device after writing one whole event. */
  function Wrote(dev: Dev): Dev
    requires ItemOk(Next(dev.stream)) && IoFits(Next(dev.stream), Put(EVENT_SIZE))
  {
    var c := Collect(StreamStream(dev.stream, Put(EVENT_SIZE)).now);
    dev.(stream := Reset(c), log := dev.log + [DecodeEvent(c.fallback.evt)])
  }

  lemma WholeEvent(it: Item)
    requires ItemOk(it) && Idle(it) && it.kind.Device? && it.op.Writing?
    ensures IoFits(it, Put(EVENT_SIZE))
    ensures TransferItem(it, Put(EVENT_SIZE)) == Moved(it.(phase := Complete), it.evt, true)
  {
  }

  lemma WriteCompletes(core: Core, i: nat)
    requires i < |core.devices| && core.role.Server?
    requires var s := core.devices[i].stream; var it := Next(s);
      ItemOk(it) && Idle(it) && it.kind.Device? && it.op.Writing?
    ensures IoFits(Next(core.devices[i].stream), Put(EVENT_SIZE))
    ensures DevIo(core, i, Put(EVENT_SIZE)) == Done(WithDev(core, i, Wrote(core.devices[i])), [])
  {
    var dev := core.devices[i];
    WholeEvent(Next(dev.stream));
    var t := StreamStream(dev.stream, Put(EVENT_SIZE));
    assert Next(t.now) == Next(dev.stream).(phase := Complete);
    var mid := WithDev(core, i, dev.(stream := t.now));
    assert WithDev(mid, i, Wrote(dev)) == WithDev(core, i, Wrote(dev));
  }

  lemma WroteStream(dev: Dev)
    requires Safe(dev.stream) && dev.stream.defaultKind.Device? && dev.stream.defaultOp.Writing?
    requires Idle(Next(dev.stream))
    ensures var it := Next(dev.stream); ItemOk(it) && it.kind.Device? && it.op.Writing? && IoFits(it, Put(EVENT_SIZE))
    ensures var s, s' := dev.stream, Wrote(dev).stream;
      && Safe(s') && s'.defaultKind.Device? && s'.defaultOp.Writing? && Idle(s'.fallback)
      && s'.queue == (if s.queue == [] then [] else s.queue[1..])
      && s'.fallback.evt == Next(s).evt
    ensures Wrote(dev).log == dev.log + [DecodeEvent(Next(dev.stream).evt)]
  {
    WholeEvent(Next(dev.stream));
  }

  /** Writing one whole event: the head of the queue, or the fallback's event once more. */
  lemma WriteReplays(dev: Dev, script: seq<Event>)
    requires Replaying(dev, script)
    ensures var it := Next(dev.stream);
      ItemOk(it) && Idle(it) && it.kind.Device? && it.op.Writing? && IoFits(it, Put(EVENT_SIZE))
    ensures Replaying(Wrote(dev), script)
  {
    var q := dev.stream.queue;
    assert q != [] ==> Idle(q[0]);
    WroteStream(dev);
    var last := DecodeEvent(dev.stream.fallback.evt);
    if q == [] {
      TracksAgain(last, dev.log, script);
    } else {
      TracksNext(q, last, dev.log, script);
    }
  }

  // ---------------------------------------------------------------- what the server did

  /** One act of the server: a message it handled, or one it sent because a relay commanded it. */
  datatype Act = Handled(m: PeerMsg) | Local(m: PeerMsg)

  function HandledMsgs(acts: seq<Act>): seq<PeerMsg> {
    if acts == [] then [] else HandledMsgs(Front(acts)) + if Last(acts).Handled? then [Last(acts).m] else []
  }

  /** The server has done nothing of its own accord. */
  predicate AllHandled(acts: seq<Act>) {
    forall a :: a in acts ==> a.Handled?
  }

  predicate Created(acts: seq<Act>, id: U64) {
    exists i :: 0 <= i < |acts| && acts[i].Handled? && acts[i].m.DevCrt? && acts[i].m.info.id == id
  }

  predicate Toggles(a: Act) {
    a.m.Pause? || a.m.Resume?
  }

  /** What one act queues on an existing virtual device. */
  function Contribution(a: Act, info: DeviceInfo): seq<Event> {
    if Toggles(a) then ReleaseScript(info)
    else if a.Handled? && a.m.Input? && a.m.id == info.id then EmitScript(a.m.event)
    else []
  }

  /** Everything that the acts queue on the virtual device. */
  function Script(acts: seq<Act>, info: DeviceInfo): seq<Event> {
    if acts == [] || !Created(Front(acts), info.id) then []
    else Script(Front(acts), info) + Contribution(Last(acts), info)
  }

  /** The part of it since the last pause or resume. */
  function Recent(acts: seq<Act>, info: DeviceInfo): seq<Event> {
    if acts == [] || !Created(Front(acts), info.id) || Toggles(Last(acts)) then []
    else Recent(Front(acts), info) + Contribution(Last(acts), info)
  }

  /** The events that the messages carry for one device. */
  function InputsFor(ms: seq<PeerMsg>, id: U64): seq<Event> {
    if ms == [] then [] else
      InputsFor(Front(ms), id) + if Last(ms).Input? && Last(ms).id == id then [Last(ms).event] else []
  }

  lemma {:induction false} InputsForJoin(a: seq<PeerMsg>, b: seq<PeerMsg>, id: U64)
    ensures InputsFor(a + b, id) == InputsFor(a, id) + InputsFor(b, id)
  {
    if b == [] {
      assert a + b == a;
    } else {
      assert Front(a + b) == a + Front(b);
      InputsForJoin(a, Front(b), id);
      Assoc(InputsFor(a, id), InputsFor(Front(b), id),
            if Last(b).Input? && Last(b).id == id then [Last(b).event] else []);
    }
  }

  lemma HeldJoin(info: DeviceInfo, a: seq<Event>, a': seq<Event>, b: seq<Event>)
    requires Held(info, a) == Held(info, a')
    ensures Held(info, a + b) == Held(info, a' + b)
  {
    if b == [] {
      assert a + b == a && a' + b == a';
    } else {
      assert Front(a + b) == a + Front(b) && Front(a' + b) == a' + Front(b);
      HeldJoin(info, a, a', Front(b));
    }
  }

  /** Exactly the keys pressed since the last pause or resume are held. */
  lemma {:induction false} HeldIsRecent(acts: seq<Act>, info: DeviceInfo)
    ensures Held(info, Script(acts, info)) == Held(info, Recent(acts, info))
  {
    if acts != [] && Created(Front(acts), info.id) {
      HeldIsRecent(Front(acts), info);
      if Toggles(Last(acts)) {
        ReleaseLiftsAll(info, Script(Front(acts), info));
      } else {
        HeldJoin(info, Script(Front(acts), info), Recent(Front(acts), info), Contribution(Last(acts), info));
      }
    }
  }

  lemma {:induction false} RelsJoin(a: seq<Event>, b: seq<Event>)
    ensures Rels(a + b) == Rels(a) + Rels(b)
  {
    if b == [] {
      assert a + b == a;
    } else {
      assert Front(a + b) == a + Front(b);
      RelsJoin(a, Front(b));
      Assoc(Rels(a), Rels(Front(b)), if IsRel(Last(b)) then [Last(b)] else []);
    }
  }

  lemma {:induction false} NoRels(q: seq<Event>)
    requires forall e :: e in q ==> !IsRel(e)
    ensures Rels(q) == []
  {
    if q != [] {
      NoRels(Front(q));
    }
  }

  /** No input for a device is handled before the device exists. */
  predicate InOrder(acts: seq<Act>, id: U64) {
    forall i :: 0 <= i < |acts| && acts[i].Handled? && acts[i].m.Input? && acts[i].m.id == id ==> Created(acts[..i], id)
  }

  lemma InOrderFront(acts: seq<Act>, id: U64)
    requires acts != [] && InOrder(acts, id)
    ensures InOrder(Front(acts), id)
    ensures Last(acts).Handled? && Last(acts).m.Input? && Last(acts).m.id == id ==> Created(Front(acts), id)
  {
    forall i | 0 <= i < |Front(acts)| && acts[i].Handled? && acts[i].m.Input? && acts[i].m.id == id
      ensures Created(Front(acts)[..i], id)
    {
      assert Front(acts)[..i] == acts[..i];
    }
  }

  lemma {:induction false} NoInputsBefore(acts: seq<Act>, id: U64)
    requires InOrder(acts, id) && !Created(acts, id)
    ensures InputsFor(HandledMsgs(acts), id) == []
  {
    if acts != [] {
      InOrderFront(acts, id);
      assert forall i :: 0 <= i < |Front(acts)| ==> Front(acts)[i] == acts[i];
      NoInputsBefore(Front(acts), id);
      InputsSplit(acts, id);
    }
  }

  /** The input that an act handles for a device, if it does. */
  function InputIn(a: Act, id: U64): seq<Event> {
    if a.Handled? && a.m.Input? && a.m.id == id then [a.m.event] else []
  }

  lemma InputsSplit(acts: seq<Act>, id: U64)
    requires acts != []
    ensures InputsFor(HandledMsgs(acts), id) == InputsFor(HandledMsgs(Front(acts)), id) + InputIn(Last(acts), id)
  {
    var a, ms := Last(acts), HandledMsgs(Front(acts));
    if a.Handled? {
      assert HandledMsgs(acts) == ms + [a.m] && Front(ms + [a.m]) == ms;
    } else {
      assert HandledMsgs(acts) == ms + [] == ms;
      assert InputsFor(ms, id) + [] == InputsFor(ms, id);
    }
  }

  lemma EmitMotion(e: Event)
    ensures Rels(EmitScript(e)) == Rels([e])
  {
    if IsRel(e) {
      var q := [e, SYN_REPORT];
      assert Front(q) == [e] && Last(q) == SYN_REPORT;
      assert Rels(q) == Rels([e]) + [];
    }
  }

  lemma ContributionMotion(a: Act, info: DeviceInfo)
    ensures Rels(Contribution(a, info)) == Rels(InputIn(a, info.id))
  {
    if Toggles(a) {
      ScriptsAreGuarded(info, SYN_REPORT);
      NoRels(ReleaseScript(info));
      assert InputIn(a, info.id) == [];
    } else if a.m.Input? {
      EmitMotion(a.m.event);
    }
  }

  /** The relative motions queued for a device are those of the inputs handled for it. */
  lemma {:induction false} ScriptMotion(acts: seq<Act>, info: DeviceInfo)
    requires InOrder(acts, info.id)
    ensures Rels(Script(acts, info)) == Rels(InputsFor(HandledMsgs(acts), info.id))
  {
    if acts != [] {
      InOrderFront(acts, info.id);
      InputsSplit(acts, info.id);
      if Created(Front(acts), info.id) {
        ScriptMotion(Front(acts), info);
        ContributionMotion(Last(acts), info);
        RelsJoin(Script(Front(acts), info), Contribution(Last(acts), info));
        RelsJoin(InputsFor(HandledMsgs(Front(acts)), info.id), InputIn(Last(acts), info.id));
      } else {
        NoInputsBefore(Front(acts), info.id);
      }
    }
  }

  function NonSyn(q: seq<Event>): seq<Event> {
    if q == [] then [] else NonSyn(Front(q)) + if Last(q).etype != EV_SYN then [Last(q)] else []
  }

  lemma {:induction false} NonSynJoin(a: seq<Event>, b: seq<Event>)
    ensures NonSyn(a + b) == NonSyn(a) + NonSyn(b)
  {
    if b == [] {
      assert a + b == a && NonSyn(a) + [] == NonSyn(a);
    } else {
      assert Front(a + b) == a + Front(b) && Last(a + b) == Last(b);
      NonSynJoin(a, Front(b));
      Assoc(NonSyn(a), NonSyn(Front(b)), if Last(b).etype != EV_SYN then [Last(b)] else []);
    }
  }

  /** What the events of a physical device become on its virtual device: each is queued as it was read, and a
      relative motion with a SYN directly behind it. */
  function Scripted(es: seq<Event>): seq<Event> {
    if es == [] then [] else Scripted(Front(es)) + EmitScript(Last(es))
  }

  lemma {:induction false} ScriptedPrefix(a: seq<Event>, b: seq<Event>)
    requires a <= b
    ensures Scripted(a) <= Scripted(b)
    decreases |b|
  {
    if a == b {
    } else {
      assert a <= Front(b);
      ScriptedPrefix(a, Front(b));
    }
  }

  lemma EmitInputs(e: Event)
    ensures NonSyn(EmitScript(e)) == if e.etype != EV_SYN then [e] else []
  {
    assert Front([e]) == [] && Last([e]) == e;
    if IsRel(e) {
      var q := [e, SYN_REPORT];
      assert Front(q) == [e] && Last(q) == SYN_REPORT;
      assert NonSyn(q) == NonSyn([e]) + [];
    }
  }

  /** Nothing but SYN events is added. */
  lemma {:induction false} ScriptedInputs(es: seq<Event>)
    ensures NonSyn(Scripted(es)) == NonSyn(es)
  {
    if es != [] {
      var e := Last(es);
      ScriptedInputs(Front(es));
      EmitInputs(e);
      NonSynJoin(Scripted(Front(es)), EmitScript(e));
    }
  }

  lemma ScriptedOneMore(es: seq<Event>, e: Event)
    ensures Scripted(es + [e]) == Scripted(es) + EmitScript(e)
  {
    assert Front(es + [e]) == es;
  }

  /** While nothing is paused or resumed, exactly the script of the inputs handled for a device is queued on it. */
  lemma {:induction false} ScriptInputs(acts: seq<Act>, info: DeviceInfo)
    requires InOrder(acts, info.id)
    requires forall a :: a in acts ==> !Toggles(a)
    ensures Script(acts, info) == Scripted(InputsFor(HandledMsgs(acts), info.id))
  {
    if acts != [] {
      InOrderFront(acts, info.id);
      InputsSplit(acts, info.id);
      var inputs := InputsFor(HandledMsgs(Front(acts)), info.id);
      if Created(Front(acts), info.id) {
        ScriptInputs(Front(acts), info);
        if InputIn(Last(acts), info.id) == [] {
          assert inputs + [] == inputs;
        } else {
          ScriptedOneMore(inputs, Last(acts).m.event);
        }
      } else {
        NoInputsBefore(Front(acts), info.id);
      }
    }
  }

  lemma {:induction false} HandledMsgsJoin(a: seq<Act>, b: seq<Act>)
    ensures HandledMsgs(a + b) == HandledMsgs(a) + HandledMsgs(b)
    decreases |b|
  {
    if b == [] {
      assert a + b == a;
    } else {
      assert Front(a + b) == a + Front(b);
      HandledMsgsJoin(a, Front(b));
      Assoc(HandledMsgs(a), HandledMsgs(Front(b)), if Last(b).Handled? then [Last(b).m] else []);
    }
  }

  lemma CreatedGrows(a: seq<Act>, b: seq<Act>, id: U64)
    requires Created(a, id)
    ensures Created(a + b, id)
  {
    var i :| 0 <= i < |a| && a[i].Handled? && a[i].m.DevCrt? && a[i].m.info.id == id;
    assert (a + b)[i] == a[i];
  }

  /** Once a device exists, acts without a pause or resume queue the script of their inputs behind what there was. */
  lemma {:induction false} ScriptGrows(a: seq<Act>, b: seq<Act>, info: DeviceInfo)
    requires Created(a, info.id) && forall x :: x in b ==> !Toggles(x)
    ensures Script(a + b, info) == Script(a, info) + Scripted(InputsFor(HandledMsgs(b), info.id))
    decreases |b|
  {
    hide Created;
    if b == [] {
      assert a + b == a;
    } else {
      assert Front(a + b) == a + Front(b) && Last(a + b) == Last(b);
      CreatedGrows(a, Front(b), info.id);
      ScriptGrows(a, Front(b), info);
      InputsSplit(b, info.id);
      var inputs := InputsFor(HandledMsgs(Front(b)), info.id);
      if InputIn(Last(b), info.id) == [] {
        assert inputs + [] == inputs;
      } else {
        ScriptedOneMore(inputs, Last(b).m.event);
        Assoc(Script(a, info), Scripted(inputs), EmitScript(Last(b).m.event));
      }
    }
  }

  /** A script falls apart at each pause or resume: what was queued before it, the release of the keys with its SYN, and
      the script of the inputs handled since. */
  lemma ScriptAtToggle(before: seq<Act>, toggle: Act, since: seq<Act>, info: DeviceInfo)
    requires Created(before, info.id) && Toggles(toggle) && forall x :: x in since ==> !Toggles(x)
    ensures Script(before + [toggle] + since, info)
         == Script(before, info) + ReleaseScript(info) + Scripted(InputsFor(HandledMsgs(since), info.id))
  {
    CreatedGrows(before, [toggle], info.id);
    assert Front(before + [toggle]) == before;
    ScriptGrows(before + [toggle], since, info);
  }
}
