/** A daemon that hears of a pause or resume has already heard which devices were released or grabbed for it. */
module Reports {
  import opened Base
  import opened Wire
  import opened Streams
  import opened Framing
  import opened Daemons
  import opened Sessions
  import opened Tables
  import opened Invariants
  import Convergence
  import opened Endings
  import opened Network
  import opened Theorems

  predicate AllGrabbed(t: seq<Entry>, g: bool) {
    forall i :: 0 <= i < |t| ==> t[i].grabbed == g
  }

  /** Where a pause comes to be handled every device in the table is released, where a resume does, grabbed. */
  predicate Reported(t: seq<Entry>, ms: seq<PeerMsg>)
    decreases |ms|
  {
    ms == [] ||
    ((ms[0].Pause? ==> AllGrabbed(t, false)) && (ms[0].Resume? ==> AllGrabbed(t, true))
     && Reported(Play1(t, ms[0]), ms[1..]))
  }

  lemma {:induction false} ReportedJoin(t: seq<Entry>, a: seq<PeerMsg>, b: seq<PeerMsg>)
    requires Reported(t, a) && Reported(Play(t, a), b)
    ensures Reported(t, a + b)
    decreases |a|
  {
    hide AllGrabbed, Play1;
    if a == [] {
      assert a + b == b;
    } else {
      assert (a + b)[1..] == a[1..] + b;
      ReportedJoin(Play1(t, a[0]), a[1..], b);
    }
  }

  lemma {:induction false} NothingToReport(t: seq<Entry>, ms: seq<PeerMsg>)
    requires forall x :: x in ms ==> !x.Pause? && !x.Resume?
    ensures Reported(t, ms)
    decreases |ms|
  {
    hide AllGrabbed, Play1;
    if ms != [] {
      assert ms[0] in ms;
      NothingToReport(Play1(t, ms[0]), ms[1..]);
    }
  }

  /** What a command makes the client send. */
  lemma ToggleReported(core: Core, pause: bool)
    requires core.role.Client? && Distinct(Ids(core.devices))
    ensures Reported(Table(core.devices), EffectOut(core, Toggling(pause)))
  {
    var grabs := GrabMsgs(core.devices, !pause);
    var t' := Table(Controlled(core.devices, !pause));
    NothingToReport(Table(core.devices), grabs);
    PlayControl(core.devices, !pause);
    assert AllGrabbed(t', !pause);
    assert [Command(pause)][1..] == [];
    assert Reported(t', [Command(pause)]);
    ReportedJoin(Table(core.devices), grabs, [Command(pause)]);
  }

  // ---------------------------------------------------------------- runs

  predicate InReports(m: Session) {
    Reported(Table(m.s.devices), m.cs)
  }

  lemma StartInReports(infos: seq<DeviceInfo>)
    ensures InReports(Start(infos))
  {
    NothingToReport([], Greeting(infos));
    assert Table([]) == [];
  }

  lemma ClientSends(m: Session, core: Core, out: seq<PeerMsg>)
    requires Good(m) && InReports(m) && Reported(Table(m.c.devices), out)
    ensures InReports(Record(m, Client, core, out))
  {
    ReportedJoin(Table(m.s.devices), m.cs, out);
  }

  lemma ServerKeepsTable(m: Session, core: Core, out: seq<PeerMsg>)
    requires InReports(m) && Table(core.devices) == Table(m.s.devices)
    ensures InReports(Record(m, Server, core, out))
  {
  }

  lemma EffectInReports(m: Session, side: Role, core: Core, e: Effect)
    requires Good(m) && InReports(m) && Alike(core, Effected(m.At(side), e))
    ensures InReports(Record(m, side, core, EffectOut(m.At(side), e)))
  {
    Roles(m);
    if side.Client? {
      if e.Toggling? {
        ToggleReported(m.c, e.pause);
      } else {
        NothingToReport(Table(m.c.devices), EffectOut(m.c, e));
      }
      ClientSends(m, core, EffectOut(m.c, e));
    } else {
      assert Table(core.devices) == Table(m.s.devices);
      ServerKeepsTable(m, core, EffectOut(m.s, e));
    }
  }

  lemma DevInReports(m: Session, side: Role, i: nat, io: Io)
    requires Good(m) && InReports(m) && Possible(m, DevMove(side, i, io))
    ensures After(m, DevMove(side, i, io)).Some? && InReports(After(m, DevMove(side, i, io)).value)
  {
    hide Good, InReports, CanHappen, DevIo, Reported;
    DevMoveKeepsGood(m, side, i, io);
    var o := OutcomeOf(m, DevMove(side, i, io));
    DevQuiet(m, side, i, io);
    if side.Client? {
      NothingToReport(Table(m.c.devices), o.out);
      ClientSends(m, o.core, o.out);
    } else {
      ServerKeepsTable(m, o.core, o.out);
    }
  }

  lemma DevQuiet(m: Session, side: Role, i: nat, io: Io)
    requires Possible(m, DevMove(side, i, io)) && DevIo(m.At(side), i, io).Done?
    ensures forall x :: x in DevIo(m.At(side), i, io).out ==> x.Input?
    ensures Table(DevIo(m.At(side), i, io).core.devices) == Table(m.At(side).devices)
  {
    DeviceWakes(m.At(side), i, io);
    Convergence.DevOut(m.At(side), i, StreamStream(m.At(side).devices[i].stream, io));
    hide StreamStream, DevMoved;
  }

  lemma DeliverInReports(m: Session, side: Role)
    requires Good(m) && InReports(m) && Possible(m, Deliver(side))
    ensures After(m, Deliver(side)).Some? && InReports(After(m, Deliver(side)).value)
  {
    Roles(m);
    DeliverMove(m, side);
    var x := m.Inbound(side)[0];
    var o := PeerHandler(m.At(side), x);
    MessageEffect(m.At(side), x);
    if side.Client? {
      NothingToReport(Table(m.c.devices), o.out);
      ClientSends(m.(sc := m.sc[1..]), o.core, o.out);
    } else {
      HandlerPlays(m.s, x);
    }
    hide PeerHandler, Good, Reported;
  }

  lemma MoveInReports(m: Session, move: Move)
    requires Good(m) && InReports(m) && Possible(m, move)
    ensures After(m, move).Some? && InReports(After(m, move).value)
  {
    match move
    case DevMove(side, i, io) => DevInReports(m, side, i, io);
    case RelayMove(side, r, io) =>
      Convergence.RequestEffect(m, side, r, io);
      var o := OutcomeOf(m, move);
      EffectInReports(m, side, o.core, Convergence.Issues(m, move));
      hide CanHappen, RelayIo, InReports, Good;
    case AcceptMove(side) => EffectInReports(m, side, Accept(m.At(side)), Nothing);
    case Deliver(side) => DeliverInReports(m, side);
  }

  lemma {:induction false} RunInReports(m: Session, moves: seq<Move>, m': Session)
    requires Good(m) && InReports(m) && Reaches(m, moves, m')
    ensures InReports(m')
    decreases |moves|
  {
    hide Good, InReports, Possible, After;
    if moves != [] {
      MoveKeepsGood(m, moves[0]);
      MoveInReports(m, moves[0]);
      RunInReports(After(m, moves[0]).value, moves[1..], m');
    }
  }

  lemma ReachableInReports(infos: seq<DeviceInfo>, m: Session)
    requires Reachable(infos, m)
    ensures InReports(m)
  {
    hide Good, Reaches, InReports;
    StartIsGood(infos);
    StartInReports(infos);
    var moves :| Reaches(Start(infos), moves, m);
    RunInReports(Start(infos), moves, m);
  }

  /** Whenever the server is about to handle a pause from the client, its table shows every device released, and every
      device grabbed when it is about to handle a resume; whoever else pauses and resumes. */
  lemma GrabsAreReportedFirst(infos: seq<DeviceInfo>, n: Net, t: Tick, j: nat)
    requires NetReachable(infos, n) && Enabled(n, t) && t.side.Server? && t.ready.PeerReady?
    requires Arriving(n, t) == Some(Pause) || Arriving(n, t) == Some(Resume)
    requires j < |n.s.core.devices|
    ensures n.s.core.devices[j].grabbed == Arriving(n, t).value.Resume?
  {
    hide NetReachable, Reachable, Good, PeerStream, Carries, Arriving, Enabled;
    var m := NetRefinesSession(infos, n);
    ArrivingIsFirst(n, m, t);
    ReachableInReports(infos, m);
    assert Table(m.s.devices)[j].grabbed == m.s.devices[j].grabbed;
  }
}
