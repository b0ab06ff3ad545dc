/** Runs in which no relay pauses or resumes: the virtual devices replay exactly what the physical ones report. */
module PlainRuns {
  import opened Base
  import opened Wire
  import opened Streams
  import opened Framing
  import opened Daemons
  import opened Replay
  import opened Sessions
  import opened Tables
  import opened Invariants
  import opened Convergence
  import opened Network
  import opened Theorems

  // ---------------------------------------------------------------- the session

  predicate NoCommand(ms: seq<PeerMsg>) {
    forall x :: x in ms ==> !x.Pause? && !x.Resume?
  }

  /** Nothing has been paused or resumed, and nothing is about to be. */
  predicate Plain(m: Session) {
    && m.c.state.Running? && m.s.state.Running?
    && NoCommand(m.cs) && NoCommand(m.sc)
    && forall a :: a in m.acts ==> !Toggles(a)
  }

  lemma StartIsPlain(infos: seq<DeviceInfo>)
    ensures Plain(Start(infos))
  {
  }

  lemma RecordPlain(m: Session, side: Role, core: Core, out: seq<PeerMsg>)
    requires Plain(m) && core.state.Running? && NoCommand(out)
    ensures Plain(Record(m, side, core, out))
  {
  }

  lemma DevPlain(m: Session, side: Role, i: nat, io: Io)
    requires Good(m) && Plain(m) && Possible(m, DevMove(side, i, io))
    ensures After(m, DevMove(side, i, io)).Some? && Plain(After(m, DevMove(side, i, io)).value)
  {
    DevMoveKeepsGood(m, side, i, io);
    var o := OutcomeOf(m, DevMove(side, i, io));
    DevOut(m.At(side), i, StreamStream(m.At(side).devices[i].stream, io));
    RecordPlain(m, side, o.core, o.out);
    hide StreamStream, DevMoved, Good, CanHappen, Plain;
  }

  lemma RelayPlain(m: Session, side: Role, r: nat, io: Io)
    requires Good(m) && Plain(m) && Possible(m, RelayMove(side, r, io)) && !Issues(m, RelayMove(side, r, io)).Toggling?
    ensures After(m, RelayMove(side, r, io)).Some? && Plain(After(m, RelayMove(side, r, io)).value)
  {
    RequestEffect(m, side, r, io);
    var o := OutcomeOf(m, RelayMove(side, r, io));
    RecordPlain(m, side, o.core, o.out);
    hide CanHappen, RelayIo, Good, Plain;
  }

  lemma HandledPlain(core: Core, x: PeerMsg)
    requires PeerHandler(core, x).Done? && !x.Pause? && !x.Resume?
    ensures PeerHandler(core, x).core.state == core.state && PeerHandler(core, x).out == []
  {
  }

  lemma DeliverPlain(m: Session, side: Role)
    requires Good(m) && Plain(m) && Possible(m, Deliver(side))
    ensures After(m, Deliver(side)).Some? && Plain(After(m, Deliver(side)).value)
  {
    hide PeerHandler, Good;
    DeliverMove(m, side);
    var x := m.Inbound(side)[0];
    HandledPlain(m.At(side), x);
    var o := PeerHandler(m.At(side), x);
    assert m.acts + Locals([]) == m.acts;
  }

  /** A move that issues no pause or resume keeps the session plain. */
  lemma MovePlain(m: Session, move: Move)
    requires Good(m) && Plain(m) && Possible(m, move) && !Issues(m, move).Toggling?
    ensures After(m, move).Some? && Plain(After(m, move).value)
  {
    match move
    case DevMove(side, i, io) => DevPlain(m, side, i, io);
    case RelayMove(side, r, io) => RelayPlain(m, side, r, io);
    case AcceptMove(side) => RecordPlain(m, side, Accept(m.At(side)), []);
    case Deliver(side) => DeliverPlain(m, side);
  }

  /** A pause or resume that a relay commands changes the daemon's state. */
  lemma CommandChangesState(m: Session, move: Move)
    requires Good(m) && Possible(m, move) && Issues(m, move).Toggling?
    ensures After(m, move).Some? && After(m, move).value.At(move.side).state == Commanded(Issues(m, move).pause)
    ensures m.At(move.side).state != Commanded(Issues(m, move).pause)
  {
    RequestEffect(m, move.side, move.r, move.io);
    hide CanHappen, RelayIo, Good;
  }

  // ---------------------------------------------------------------- the net

  /** No relay changes the daemon's state in this wake-up. */
  predicate Untoggled(n: Net, t: Tick)
    requires Enabled(n, t)
  {
    t.ready.RelayReady? && Ticked(n, t).Some? ==> Ticked(n, t).value.End(t.side).core.state == n.End(t.side).core.state
  }

  /** Calm wake-ups in which no relay pauses or resumes, one after the other. */
  predicate PlainReaches(n: Net, ticks: seq<Tick>, n': Net)
    decreases |ticks|
  {
    if ticks == [] then n == n' else
      Enabled(n, ticks[0]) && CalmTick(n, ticks[0]) && Untoggled(n, ticks[0]) && Ticked(n, ticks[0]).Some?
      && PlainReaches(Ticked(n, ticks[0]).value, ticks[1..], n')
  }

  ghost predicate PlainReachable(infos: seq<DeviceInfo>, n: Net) {
    Startable(infos) && exists ticks :: PlainReaches(Begin(infos), ticks, n)
  }

  lemma OneMoveOnly(m: Session, move: Move, m': Session)
    requires Reaches(m, [move], m')
    ensures Possible(m, move) && After(m, move) == Some(m')
  {
    hide Possible, After;
    assert [move][1..] == [];
  }

  /** The session's move in an untoggled wake-up issues no pause or resume. */
  lemma UntoggledIssues(n: Net, m: Session, t: Tick, m': Session)
    requires Linked(n, m) && Good(m) && Enabled(n, t) && Untoggled(n, t) && Possible(m, SessionMove(t))
    requires After(m, SessionMove(t)) == Some(m') && Ticked(n, t).Some? && Linked(Ticked(n, t).value, m')
    ensures !Issues(m, SessionMove(t)).Toggling?
  {
    hide Good, Possible, After, Carries, PeerStream, Ticked, Enabled;
    if Issues(m, SessionMove(t)).Toggling? {
      CommandChangesState(m, SessionMove(t));
    }
  }

  lemma TickPlain(n: Net, m: Session, t: Tick) returns (m': Session, moves: seq<Move>)
    requires Linked(n, m) && Good(m) && Plain(m) && Enabled(n, t) && CalmTick(n, t) && Untoggled(n, t)
    ensures Ticked(n, t).Some? && Linked(Ticked(n, t).value, m') && Good(m') && Plain(m') && Reaches(m, moves, m')
  {
    hide Linked, Good, Plain, Enabled, Possible, After, Ticked, CalmTick, Untoggled, Issues, SessionMove;
    m', moves := TickRefines(n, m, t);
    if moves != [] {
      OneMoveOnly(m, SessionMove(t), m');
      UntoggledIssues(n, m, t, m');
      MovePlain(m, SessionMove(t));
    }
  }

  lemma {:induction false} PlainRunRefines(n: Net, m: Session, ticks: seq<Tick>, n': Net)
    returns (m': Session, moves: seq<Move>)
    requires Linked(n, m) && Good(m) && Plain(m) && PlainReaches(n, ticks, n')
    ensures Linked(n', m') && Good(m') && Plain(m') && Reaches(m, moves, m') && NetReaches(n, ticks, n')
    decreases |ticks|
  {
    hide Linked, Good, Plain, Enabled, CalmTick, Ticked, Untoggled, Reaches;
    if ticks == [] {
      m', moves := m, [];
      NoMoves(m);
    } else {
      var m1, first := TickPlain(n, m, ticks[0]);
      var rest;
      m', rest := PlainRunRefines(Ticked(n, ticks[0]).value, m1, ticks[1..], n');
      moves := first + rest;
      ReachesJoin(m, first, m1, rest, m');
    }
  }

  /** Such a run is carried by a session in which nothing has been paused or resumed. */
  lemma PlainSession(infos: seq<DeviceInfo>, n: Net) returns (m: Session)
    requires PlainReachable(infos, n)
    ensures NetReachable(infos, n) && Reachable(infos, m) && Good(m) && Linked(n, m) && Plain(m)
  {
    hide Linked, Good, Plain, Reaches, NetReaches, PlainReaches, Begin, Start;
    BeginLinked(infos);
    StartIsGood(infos);
    StartIsPlain(infos);
    var ticks :| PlainReaches(Begin(infos), ticks, n);
    var moves;
    m, moves := PlainRunRefines(Begin(infos), Start(infos), ticks, n);
    assert NetReaches(Begin(infos), ticks, n) && Reaches(Start(infos), moves, m);
  }

  // ---------------------------------------------------------------- what is replayed

  lemma {:induction false} NonSynPrefix(a: seq<Event>, b: seq<Event>)
    requires a <= b
    ensures NonSyn(a) <= NonSyn(b)
  {
    assert b == a + b[|a|..];
    NonSynJoin(a, b[|a|..]);
  }

  lemma SessionReplay(m: Session, j: nat) returns (q: seq<Event>)
    requires Good(m) && Plain(m) && j < |m.s.devices|
    ensures j < |m.c.devices| && m.c.devices[j].info.id == m.s.devices[j].info.id
    ensures Replays(m.s.devices[j].log, q) && q <= Scripted(m.c.devices[j].log)
    ensures m.cs == [] && m.s.devices[j].stream.queue == [] ==> q == Scripted(m.c.devices[j].log)
  {
    hide Replays, Played, Script, InputsFor, HandledMsgs, Scripted, Shape, Grabs, Replicated, Logs, Commands;
    var v := m.s.devices[j];
    PlayedIsReplayed(m, j);
    InputsArePrefix(m, j);
    ScriptInputs(m.acts, v.info);
    q := Played(v, Script(m.acts, v.info));
    ScriptedPrefix(InputsFor(HandledMsgs(m.acts), v.info.id), m.c.devices[j].log);
  }

  /** End-to-end replay, while no relay pauses or resumes. What has been written to a virtual device is, up to
      immediate repeats of events that are not relative motions, a prefix of what was read from its physical device,
      each relative motion followed by a SYN; so the events other than SYN are a prefix of those read, in order. Once
      everything is drained all of them have been written. */
  lemma PlainReplay(infos: seq<DeviceInfo>, n: Net, j: nat) returns (q: seq<Event>)
    requires PlainReachable(infos, n) && j < |n.s.core.devices|
    ensures j < |n.c.core.devices| && n.c.core.devices[j].info.id == n.s.core.devices[j].info.id
    ensures var v, d := n.s.core.devices[j], n.c.core.devices[j];
      && Replays(v.log, q)
      && q <= Scripted(d.log) && NonSyn(q) <= NonSyn(d.log)
      && (Delivered(n) && v.stream.queue == [] ==> q == Scripted(d.log) && NonSyn(q) == NonSyn(d.log))
  {
    hide PlainReachable, NetReachable, Reachable, Good, Plain, Replays, NonSyn, Carries, PeerStream, Delivered,
      Scripted;
    var m := PlainSession(infos, n);
    q := SessionReplay(m, j);
    var log := n.c.core.devices[j].log;
    ScriptedInputs(log);
    NonSynPrefix(q, Scripted(log));
    if Delivered(n) {
      DeliveredSession(n, m);
    }
  }
}
