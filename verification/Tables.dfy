/** The replicated device table and the order of creations, updates and inputs. */
module Tables {
  import opened Base
  import opened Wire
  import opened Daemons
  import opened Sessions

  /** What the two daemons share about a device: everything but the name, which the server changes. */
  datatype Entry = Entry(info: DeviceInfo, grabbed: bool)

  function Nameless(info: DeviceInfo): DeviceInfo {
    info.(name := Zeros(80))
  }

  function Table(devs: seq<Dev>): (t: seq<Entry>)
    ensures |t| == |devs|
  {
    seq(|devs|, i requires 0 <= i < |devs| => Entry(Nameless(devs[i].info), devs[i].grabbed))
  }

  function Keys(t: seq<Entry>): (ids: seq<U64>)
    ensures |ids| == |t|
  {
    seq(|t|, i requires 0 <= i < |t| => t[i].info.id)
  }

  predicate Distinct(ids: seq<U64>) {
    forall i, j :: 0 <= i < j < |ids| ==> ids[i] != ids[j]
  }

  /** What one message does to the table of the daemon that handles it. */
  function Play1(t: seq<Entry>, m: PeerMsg): seq<Entry> {
    match m
    case DevCrt(info) => t + [Entry(Nameless(info), false)]
    case UpdGrab(id, g) =>
      if t == [] then t else
        var k := FindById(Keys(t), id).value;
        t[k := t[k].(grabbed := g)]
    case _ => t
  }

  function Play(t: seq<Entry>, ms: seq<PeerMsg>): seq<Entry>
    decreases |ms|
  {
    if ms == [] then t else Play(Play1(t, ms[0]), ms[1..])
  }

  lemma {:induction false} PlayJoin(t: seq<Entry>, a: seq<PeerMsg>, b: seq<PeerMsg>)
    ensures Play(t, a + b) == Play(Play(t, a), b)
    decreases |a|
  {
    if a == [] {
      assert a + b == b;
    } else {
      assert (a + b)[1..] == a[1..] + b;
      PlayJoin(Play1(t, a[0]), a[1..], b);
    }
  }

  lemma PlayOne(t: seq<Entry>, m: PeerMsg)
    ensures Play(t, [m]) == Play1(t, m)
  {
    assert [m][1..] == [];
  }

  /** Messages that say nothing about devices leave the table alone. */
  lemma {:induction false} PlayQuiet(t: seq<Entry>, ms: seq<PeerMsg>)
    requires forall m :: m in ms ==> !m.DevCrt? && !m.UpdGrab?
    ensures Play(t, ms) == t
  {
    if ms != [] {
      PlayQuiet(t, ms[1..]);
    }
  }

  lemma KeysOfTable(devs: seq<Dev>)
    ensures Keys(Table(devs)) == Ids(devs)
  {
  }

  lemma FindDistinct(ids: seq<U64>, k: nat)
    requires Distinct(ids) && k < |ids|
    ensures FindById(ids, ids[k]) == Some(k)
  {
    var r := FindById(ids, ids[k]).value;
    assert ids[r] == ids[k];
  }

  /** The table after the first n devices have been given the grab state g. */
  function Partly(devs: seq<Dev>, g: bool, n: nat): (t: seq<Entry>)
    ensures |t| == |devs|
  {
    seq(|devs|, i requires 0 <= i < |devs| => Entry(Nameless(devs[i].info), if i < n then g else devs[i].grabbed))
  }

  lemma {:induction false} PlayGrabs(devs: seq<Dev>, g: bool, n: nat)
    requires Distinct(Ids(devs)) && n <= |devs|
    ensures Play(Table(devs), GrabMsgs(devs, g)[..n]) == Partly(devs, g, n)
  {
    hide FindById;
    var msgs := GrabMsgs(devs, g);
    if n == 0 {
      assert Partly(devs, g, 0) == Table(devs);
    } else {
      PlayGrabs(devs, g, n - 1);
      assert msgs[..n] == msgs[..n - 1] + [msgs[n - 1]];
      PlayJoin(Table(devs), msgs[..n - 1], [msgs[n - 1]]);
      PlayOne(Partly(devs, g, n - 1), msgs[n - 1]);
      assert Keys(Partly(devs, g, n - 1)) == Ids(devs);
      FindDistinct(Ids(devs), n - 1);
      assert Partly(devs, g, n - 1)[n - 1 := Entry(Nameless(devs[n - 1].info), g)] == Partly(devs, g, n);
    }
  }

  /** The updates sent by dev_ctrl_devices replicate what it does to the client's own table. */
  lemma PlayControl(devs: seq<Dev>, g: bool)
    requires Distinct(Ids(devs))
    ensures Play(Table(devs), GrabMsgs(devs, g)) == Table(Controlled(devs, g))
  {
    PlayGrabs(devs, g, |devs|);
    assert GrabMsgs(devs, g)[..|devs|] == GrabMsgs(devs, g);
    assert Partly(devs, g, |devs|) == Table(Controlled(devs, g));
  }

  lemma {:induction false} PlayCreations(infos: seq<DeviceInfo>, n: nat)
    requires n <= |infos|
    ensures var t := Play([], Creations(infos)[..n]);
      t == seq(n, i requires 0 <= i < n => Entry(Nameless(infos[i]), false))
  {
    var msgs := Creations(infos);
    if n > 0 {
      PlayCreations(infos, n - 1);
      assert msgs[..n] == msgs[..n - 1] + [msgs[n - 1]];
      PlayJoin([], msgs[..n - 1], [msgs[n - 1]]);
      PlayOne(Play([], msgs[..n - 1]), msgs[n - 1]);
    }
  }

  // ---------------------------------------------------------------- the handlers and the table

  /** One message handled by the server changes its table as Play1 says. */
  lemma HandlerPlays(core: Core, m: PeerMsg)
    requires core.role.Server?
    ensures var o := PeerHandler(core, m);
      (o.Done? ==> Table(o.core.devices) == Play1(Table(core.devices), m))
      && (o.Failed? ==> core.devices == [] && (m.UpdGrab? || m.Input?))
      && (o.Beyond? ==> m.Stop?)
  {
    hide FindById, ReleaseScript, EmitScript, EventItems, Broadcast;
    var o := PeerHandler(core, m);
    KeysOfTable(core.devices);
    if o.Done? {
      assert |Table(o.core.devices)| == |Play1(Table(core.devices), m)|;
      assert Table(o.core.devices) == Play1(Table(core.devices), m);
    }
  }

  // ---------------------------------------------------------------- causality

  /** The ids of the devices that exist after the messages have been handled. */
  function IdsAfter(ids: seq<U64>, m: PeerMsg): seq<U64> {
    if m.DevCrt? then ids + [m.info.id] else ids
  }

  /** The message names no device that does not exist when it is handled. */
  predicate Refers(ids: seq<U64>, m: PeerMsg) {
    (m.UpdGrab? || m.Input?) ==> m.id in ids
  }

  predicate Known(ids: seq<U64>, ms: seq<PeerMsg>)
    decreases |ms|
  {
    ms == [] || (Refers(ids, ms[0]) && Known(IdsAfter(ids, ms[0]), ms[1..]))
  }

  function IdsAfterAll(ids: seq<U64>, ms: seq<PeerMsg>): seq<U64>
    decreases |ms|
  {
    if ms == [] then ids else IdsAfterAll(IdsAfter(ids, ms[0]), ms[1..])
  }

  lemma {:induction false} KnownJoin(ids: seq<U64>, a: seq<PeerMsg>, b: seq<PeerMsg>)
    requires Known(ids, a) && Known(IdsAfterAll(ids, a), b)
    ensures Known(ids, a + b)
    decreases |a|
  {
    if a == [] {
      assert a + b == b;
    } else {
      assert (a + b)[1..] == a[1..] + b;
      KnownJoin(IdsAfter(ids, a[0]), a[1..], b);
    }
  }

  lemma {:induction false} KeysAfterPlay(t: seq<Entry>, ms: seq<PeerMsg>)
    ensures Keys(Play(t, ms)) == IdsAfterAll(Keys(t), ms)
    ensures Keys(t) <= Keys(Play(t, ms))
    decreases |ms|
  {
    if ms != [] {
      var t' := Play1(t, ms[0]);
      assert Keys(t') == IdsAfter(Keys(t), ms[0]);
      KeysAfterPlay(t', ms[1..]);
    }
  }

  /** Messages that create nothing and name only existing devices. */
  lemma {:induction false} KnownQuiet(ids: seq<U64>, ms: seq<PeerMsg>)
    requires forall m :: m in ms ==> !m.DevCrt? && Refers(ids, m)
    ensures Known(ids, ms)
  {
    if ms != [] {
      KnownQuiet(ids, ms[1..]);
    }
  }

  // ---------------------------------------------------------------- the invariant

  /** The messages under way, applied to the server's table, give the client's; and each names a device that
      will exist when it is handled. */
  predicate Replicated(cdevs: seq<Dev>, sdevs: seq<Dev>, cs: seq<PeerMsg>) {
    && Distinct(Ids(cdevs))
    && Play(Table(sdevs), cs) == Table(cdevs)
    && Known(Ids(sdevs), cs)
  }

  lemma StartReplicated(infos: seq<DeviceInfo>)
    requires Distinct(Ids(Devices(infos)))
    ensures Replicated(Start(infos).c.devices, [], Start(infos).cs)
  {
    var devs, crts := Devices(infos), Creations(infos);
    PlayCreations(infos, |infos|);
    assert crts[..|infos|] == crts;
    var released := Controlled(devs, false);
    assert Ids(released) == Ids(devs);
    assert Play([], crts) == Table(released);
    assert GrabMsgs(released, true) == GrabMsgs(devs, true);
    PlayControl(released, true);
    PlayJoin([], crts, GrabMsgs(devs, true));
    assert Table(Controlled(released, true)) == Table(devs);
    assert Table([]) == [] && Keys([]) == [] && Ids([]) == [];
    KeysAfterPlay([], crts);
    KeysOfTable(released);
    forall m | m in crts ensures m.DevCrt? {}
    CreationsKnown([], crts);
    forall m | m in GrabMsgs(devs, true) ensures !m.DevCrt? && Refers(Ids(devs), m) {
      var i :| 0 <= i < |devs| && GrabMsgs(devs, true)[i] == m;
      assert Ids(devs)[i] == devs[i].info.id;
    }
    KnownQuiet(Ids(devs), GrabMsgs(devs, true));
    KnownJoin([], crts, GrabMsgs(devs, true));
  }

  lemma {:induction false} CreationsKnown(ids: seq<U64>, ms: seq<PeerMsg>)
    requires forall m :: m in ms ==> m.DevCrt?
    ensures Known(ids, ms)
    decreases |ms|
  {
    if ms != [] {
      CreationsKnown(IdsAfter(ids, ms[0]), ms[1..]);
    }
  }

  /** New messages whose effect is exactly the client's own change keep the tables replicated. */
  lemma SendKeepsReplicated(cdevs: seq<Dev>, sdevs: seq<Dev>, cs: seq<PeerMsg>, cdevs': seq<Dev>, out: seq<PeerMsg>)
    requires Replicated(cdevs, sdevs, cs)
    requires Ids(cdevs') == Ids(cdevs)
    requires Play(Table(cdevs), out) == Table(cdevs')
    requires forall m :: m in out ==> !m.DevCrt? && Refers(Ids(cdevs), m)
    ensures Replicated(cdevs', sdevs, cs + out)
  {
    PlayJoin(Table(sdevs), cs, out);
    KeysOfTable(sdevs);
    KeysOfTable(cdevs);
    KeysAfterPlay(Table(sdevs), cs);
    KnownQuiet(Ids(cdevs), out);
    KnownJoin(Ids(sdevs), cs, out);
  }

  lemma ToggleKeepsReplicated(core: Core, sdevs: seq<Dev>, cs: seq<PeerMsg>, pause: bool, extra: seq<PeerMsg>)
    requires core.role.Client? && Replicated(core.devices, sdevs, cs)
    requires forall m :: m in extra ==> m.Pause? || m.Resume?
    ensures Replicated(Toggle(core, pause).devices, sdevs, cs + (ToggleOut(core, pause) + extra))
  {
    var devs, grabs := core.devices, GrabMsgs(core.devices, !pause);
    var devs' := Controlled(devs, !pause);
    PlayControl(devs, !pause);
    PlayJoin(Table(devs), grabs, extra);
    PlayQuiet(Table(devs'), extra);
    assert Ids(devs') == Ids(devs);
    forall m | m in grabs ensures !m.DevCrt? && Refers(Ids(devs), m) {
      var i :| 0 <= i < |devs| && grabs[i] == m;
      assert Ids(devs)[i] == devs[i].info.id;
    }
    SendKeepsReplicated(devs, sdevs, cs, devs', grabs + extra);
  }

  lemma DeliverKeepsReplicated(cdevs: seq<Dev>, core: Core, cs: seq<PeerMsg>)
    requires core.role.Server? && cs != [] && !cs[0].Stop?
    requires Replicated(cdevs, core.devices, cs)
    ensures var o := PeerHandler(core, cs[0]);
      o.Done? && o.out == [] && Replicated(cdevs, o.core.devices, cs[1..])
  {
    HandlerPlays(core, cs[0]);
    var o := PeerHandler(core, cs[0]);
    KeysOfTable(core.devices);
    KeysOfTable(o.core.devices);
    PlayOne(Table(core.devices), cs[0]);
    KeysAfterPlay(Table(core.devices), [cs[0]]);
    assert [cs[0]][1..] == [];
    assert IdsAfterAll(Ids(core.devices), [cs[0]]) == IdsAfter(Ids(core.devices), cs[0]);
  }

  /** The server's devices are the first of the client's, in the same order. */
  lemma ServerPrefix(cdevs: seq<Dev>, sdevs: seq<Dev>, cs: seq<PeerMsg>)
    requires Replicated(cdevs, sdevs, cs)
    ensures Ids(sdevs) <= Ids(cdevs) && Distinct(Ids(sdevs))
    ensures cs == [] ==> Table(sdevs) == Table(cdevs)
  {
    KeysOfTable(sdevs);
    KeysOfTable(cdevs);
    KeysAfterPlay(Table(sdevs), cs);
  }
}
