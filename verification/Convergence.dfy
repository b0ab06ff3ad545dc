/** Whether the two daemons end in the same state once every message under way has been handled. */
module Convergence {
  import opened Base
  import opened Wire
  import opened Streams
  import opened Framing
  import opened Daemons
  import opened Sessions
  import opened Invariants

  /** The state that the last command among the messages asks for. */
  function LastCommand(ms: seq<PeerMsg>): Option<RcnState> {
    if ms == [] then None
    else if Last(ms).Pause? then Some(Paused)
    else if Last(ms).Resume? then Some(Running)
    else LastCommand(Front(ms))
  }

  /** The state that handling the messages leaves a daemon in. */
  function Settled(state: RcnState, ms: seq<PeerMsg>): RcnState {
    if LastCommand(ms).None? then state else LastCommand(ms).value
  }

  /** Draining both channels leaves both daemons in the same state. */
  predicate Converges(m: Session) {
    Settled(m.c.state, m.sc) == Settled(m.s.state, m.cs)
  }

  /** The last command inbound to a daemon is not the opposite of the one it issues. */
  predicate Uncrossed(inbound: seq<PeerMsg>, state: RcnState) {
    LastCommand(inbound) == None || LastCommand(inbound) == Some(state)
  }

  lemma {:induction false} LastCommandJoin(a: seq<PeerMsg>, b: seq<PeerMsg>)
    ensures LastCommand(a + b) == if LastCommand(b).Some? then LastCommand(b) else LastCommand(a)
    decreases |b|
  {
    if b == [] {
      assert a + b == a;
    } else {
      assert Front(a + b) == a + Front(b);
      LastCommandJoin(a, Front(b));
    }
  }

  lemma SettledJoin(state: RcnState, a: seq<PeerMsg>, b: seq<PeerMsg>)
    ensures Settled(state, a + b) == Settled(Settled(state, a), b)
  {
    LastCommandJoin(a, b);
  }

  lemma {:induction false} SettledQuiet(state: RcnState, ms: seq<PeerMsg>)
    requires forall x :: x in ms ==> !x.Pause? && !x.Resume?
    ensures Settled(state, ms) == state && LastCommand(ms) == None
  {
    if ms != [] {
      SettledQuiet(state, Front(ms));
    }
  }

  function Commanded(pause: bool): RcnState { if pause then Paused else Running }

  /** The outcome of a daemon's command, at the other daemon once it arrives. */
  lemma SettledCommand(core: Core, pause: bool, state: RcnState, ms: seq<PeerMsg>)
    ensures Settled(state, ms + (ToggleOut(core, pause) + [Command(pause)])) == Commanded(pause)
  {
    var out := ToggleOut(core, pause) + [Command(pause)];
    SettledJoin(state, ms, out);
    assert Last(out) == Command(pause);
  }

  /** A command leaves the daemons converging if and only if the last command inbound to the daemon that issues
      it, if there is one, is the same command; whether they were converging before does not matter. */
  lemma CommandConverges(m: Session, side: Role, pause: bool, core: Core)
    requires m.c.role.Client? && m.s.role.Server?
    requires Alike(core, Toggle(m.At(side), pause))
    ensures Converges(Record(m, side, core, EffectOut(m.At(side), Toggling(pause))))
            <==> Uncrossed(m.Inbound(side), Commanded(pause))
  {
    SettledCommand(m.At(side), pause, m.At(if side.Client? then Server else Client).state,
                   m.Inbound(if side.Client? then Server else Client));
  }

  /** With nothing inbound, any command restores convergence. */
  lemma FreshCommandConverges(m: Session, side: Role, pause: bool, core: Core)
    requires m.c.role.Client? && m.s.role.Server?
    requires Alike(core, Toggle(m.At(side), pause)) && m.Inbound(side) == []
    ensures Converges(Record(m, side, core, EffectOut(m.At(side), Toggling(pause))))
  {
    CommandConverges(m, side, pause, core);
  }

  lemma HandledState(core: Core, x: PeerMsg)
    requires PeerHandler(core, x).Done?
    ensures PeerHandler(core, x).core.state == Settled(core.state, [x])
    ensures core.role.Client? ==> forall y :: y in PeerHandler(core, x).out ==> y.UpdGrab?
    ensures core.role.Server? ==> PeerHandler(core, x).out == []
  {
    assert Front([x]) == [];
    assert Settled(core.state, []) == core.state;
  }

  /** Handling a message changes neither daemon's final state. */
  lemma DeliveryConverges(m: Session, side: Role)
    requires Good(m) && Possible(m, Deliver(side))
    ensures After(m, Deliver(side)).Some? &&
      var m' := After(m, Deliver(side)).value;
      Settled(m'.c.state, m'.sc) == Settled(m.c.state, m.sc)
      && Settled(m'.s.state, m'.cs) == Settled(m.s.state, m.cs)
  {
    MoveKeepsGood(m, Deliver(side));
    var x, core := m.Inbound(side)[0], m.At(side);
    var rest := m.Inbound(side)[1..];
    assert m.Inbound(side) == [x] + rest;
    SettledJoin(core.state, [x], rest);
    HandledState(core, x);
    var out := PeerHandler(core, x).out;
    if side.Client? {
      SettledJoin(m.s.state, m.cs, out);
      SettledQuiet(Settled(m.s.state, m.cs), out);
    } else {
      DeliveredRecord(m);
    }
  }

  lemma IdleConverges(m: Session, side: Role, core: Core, out: seq<PeerMsg>)
    requires core.state == m.At(side).state
    requires forall x :: x in out ==> !x.Pause? && !x.Resume?
    ensures Converges(Record(m, side, core, out)) <==> Converges(m)
  {
    SettledJoin(m.s.state, m.cs, out);
    SettledQuiet(Settled(m.s.state, m.cs), out);
    SettledJoin(m.c.state, m.sc, out);
    SettledQuiet(Settled(m.c.state, m.sc), out);
  }

  /** The command that a move issues, if it issues one. */
  function Issues(m: Session, move: Move): Effect
    requires Possible(m, move)
  {
    match move
    case RelayMove(side, r, io) => WakeEffect(m.At(side), StreamStream(m.At(side).relays[r], io).now)
    case _ => Nothing
  }

  predicate Crosses(m: Session, move: Move)
    requires Possible(m, move)
  {
    var e := Issues(m, move);
    e.Toggling? && !Uncrossed(m.Inbound(move.side), Commanded(e.pause))
  }

  /** Every move keeps the daemons converging, except a command issued against the last inbound one; a command
      issued otherwise makes them converge. */
  lemma MoveConverges(m: Session, move: Move)
    requires Good(m) && Possible(m, move)
    ensures After(m, move).Some?
    ensures var m' := After(m, move).value;
      if Issues(m, move).Toggling? then Converges(m') <==> !Crosses(m, move)
      else Converges(m') <==> Converges(m)
  {
    MoveKeepsGood(m, move);
    match move
    case DevMove(side, i, io) =>
      var t := StreamStream(m.At(side).devices[i].stream, io);
      DevOut(m.At(side), i, t);
      IdleConverges(m, side, DevMoved(m.At(side), i, t).core, DevMoved(m.At(side), i, t).out);
    case RelayMove(side, r, io) =>
      RelayMoveKeepsInv(m, side, r, io);
      RelayMoveConverges(m, side, r, io);
    case AcceptMove(side) => IdleConverges(m, side, Accept(m.At(side)), []);
    case Deliver(side) => DeliveryConverges(m, side);
  }

  lemma DevOut(core: Core, i: nat, t: Moved<Stream>)
    requires i < |core.devices| && DevMoved(core, i, t).Done?
    ensures DevMoved(core, i, t).core.state == core.state
    ensures forall x :: x in DevMoved(core, i, t).out ==> x.Input?
  {
  }

  lemma RelayMoveConverges(m: Session, side: Role, r: nat, io: Io)
    requires Good(m) && Possible(m, RelayMove(side, r, io))
    ensures var move := RelayMove(side, r, io);
      After(m, move).Some? &&
      var m' := After(m, move).value;
      if Issues(m, move).Toggling? then Converges(m') <==> !Crosses(m, move)
      else Converges(m') <==> Converges(m)
  {
    RequestEffect(m, side, r, io);
    RelayMoveKeepsGood(m, side, r, io);
    hide CanHappen, RelayIo;
    var o, e := OutcomeOf(m, RelayMove(side, r, io)), Issues(m, RelayMove(side, r, io));
    if e.Toggling? {
      CommandConverges(m, side, e.pause, o.core);
    } else {
      IdleConverges(m, side, o.core, o.out);
    }
  }

  /** A run in which no command is issued while the last inbound command is its opposite. */
  predicate NeverCrosses(m: Session, moves: seq<Move>)
    decreases |moves|
  {
    moves == [] ||
    (Possible(m, moves[0]) && After(m, moves[0]).Some?
     && !Crosses(m, moves[0]) && NeverCrosses(After(m, moves[0]).value, moves[1..]))
  }

  lemma {:induction false} RunConverges(m: Session, moves: seq<Move>, m': Session)
    requires Good(m) && Converges(m) && Reaches(m, moves, m') && NeverCrosses(m, moves)
    ensures Converges(m')
    decreases |moves|
  {
    if moves != [] {
      MoveKeepsGood(m, moves[0]);
      MoveConverges(m, moves[0]);
      RunConverges(After(m, moves[0]).value, moves[1..], m');
    }
  }

  /** From the start, such a run always ends with daemons that agree once nothing is under way. */
  lemma SessionConverges(infos: seq<DeviceInfo>, moves: seq<Move>, m: Session)
    requires Startable(infos) && Reaches(Start(infos), moves, m) && NeverCrosses(Start(infos), moves)
    ensures Converges(m)
    ensures m.cs == [] && m.sc == [] ==> m.c.state == m.s.state
  {
    StartIsGood(infos);
    SettledQuiet(Running, Greeting(infos));
    RunConverges(Start(infos), moves, m);
  }

  // ---------------------------------------------------------------- a run that diverges

  /** A relay program connects and sends its request in one write. */
  function Request(m: Session, side: Role, value: U32): seq<Move> {
    [AcceptMove(side), RelayMove(side, |m.At(side).relays|, Got(HeaderOf(value, 0)))]
  }

  lemma RequestArrives(value: U32)
    requires value in REQUESTS
    ensures var s := NewStream(Reading, Socket); var io := Got(HeaderOf(value, 0));
      ItemOk(Next(s)) && IoFits(Next(s), io)
      && var now := StreamStream(s, io).now;
         now.queue == [] && now.fallback.phase.Complete? && ValueIn(now.fallback.hdr) == value
  {
    HeaderRoundTrip(value, 0);
    var s := NewStream(Reading, Socket);
    var h := HeaderOf(value, 0);
    assert s.fallback.hdr[..0] + h + s.fallback.hdr[16..] == h;
  }

  lemma RequestPossible(m: Session, side: Role, r: nat, value: U32)
    requires !m.At(side).exit && value in REQUESTS
    requires r < |m.At(side).relays| && m.At(side).relays[r] == NewStream(Reading, Socket)
    ensures Possible(m, RelayMove(side, r, Got(HeaderOf(value, 0))))
    ensures Issues(m, RelayMove(side, r, Got(HeaderOf(value, 0)))) == Obeys(m.At(side), value)
  {
    hide StreamStream, NewStream;
    RequestArrives(value);
  }

  /** m' is m after `side` has obeyed the request, whatever happened to its relays. */
  ghost predicate Obeyed(m: Session, side: Role, value: U32, m': Session) {
    exists core :: Alike(core, Effected(m.At(side), Obeys(m.At(side), value)))
      && m' == Record(m, side, core, EffectOut(m.At(side), Obeys(m.At(side), value)))
  }

  lemma RequestEffect(m: Session, side: Role, r: nat, io: Io)
    requires Good(m) && Possible(m, RelayMove(side, r, io))
    ensures var e := Issues(m, RelayMove(side, r, io));
      var o := OutcomeOf(m, RelayMove(side, r, io));
      o.Done? && Alike(o.core, Effected(m.At(side), e)) && o.out == EffectOut(m.At(side), e)
      && After(m, RelayMove(side, r, io)) == Some(Record(m, side, o.core, o.out))
  {
    var core := m.At(side);
    RelayTransfers(core.relays[r], io);
    RelayEffect(core, r, StreamStream(core.relays[r], io));
  }

  lemma AcceptIsOne(m: Session, side: Role)
    requires Good(m) && !m.At(side).exit
    ensures Possible(m, AcceptMove(side))
    ensures After(m, AcceptMove(side)) == Some(Record(m, side, Accept(m.At(side)), []))
    ensures Good(Record(m, side, Accept(m.At(side)), []))
  {
    MoveKeepsGood(m, AcceptMove(side));
  }

  lemma TwoMoves(a: Session, x: Move, b: Session, y: Move, c: Session)
    requires Possible(a, x) && After(a, x) == Some(b) && Possible(b, y) && After(b, y) == Some(c)
    ensures Reaches(a, [x, y], c)
  {
    hide Possible, After;
    assert [x, y][1..] == [y] && [y][1..] == [];
    assert Reaches(c, [], c);
    assert Reaches(b, [y], c);
  }

  lemma RequestRuns(m: Session, side: Role, value: U32) returns (m': Session)
    requires Good(m) && !m.At(side).exit && value in REQUESTS
    ensures Good(m') && Reaches(m, Request(m, side, value), m') && Obeyed(m, side, value, m')
  {
    hide Possible, After, OutcomeOf, Good, Reaches, Obeyed, Issues, Effected, EffectOut, NewStream;
    var r, e := |m.At(side).relays|, Obeys(m.At(side), value);
    var move := RelayMove(side, r, Got(HeaderOf(value, 0)));
    AcceptIsOne(m, side);
    var m1 := Record(m, side, Accept(m.At(side)), []);
    RequestPossible(m1, side, r, value);
    MoveKeepsGood(m1, move);
    RequestEffect(m1, side, r, move.io);
    m' := After(m1, move).value;
    TwoMoves(m, AcceptMove(side), m1, move, m');
    ObeyedAfterAccept(m, side, value, OutcomeOf(m1, move).core);
  }

  lemma ObeyedAfterAccept(m: Session, side: Role, value: U32, core: Core)
    requires var m1 := Record(m, side, Accept(m.At(side)), []);
      Alike(core, Effected(m1.At(side), Obeys(m.At(side), value)))
    ensures var m1, e := Record(m, side, Accept(m.At(side)), []), Obeys(m.At(side), value);
      Obeyed(m, side, value, Record(m1, side, core, EffectOut(m1.At(side), e)))
  {
    var m1, e := Record(m, side, Accept(m.At(side)), []), Obeys(m.At(side), value);
    EffectIgnoresRelays(m.At(side), m1.At(side).relays, e);
    AlikeTransitive(core, Effected(m1.At(side), e), Effected(m.At(side), e));
    RecordTwice(m, side, Accept(m.At(side)), core, EffectOut(m.At(side), e));
  }

  lemma RecordTwice(m: Session, side: Role, core0: Core, core: Core, out: seq<PeerMsg>)
    ensures Record(Record(m, side, core0, []), side, core, out) == Record(m, side, core, out)
  {
    assert m.cs + [] == m.cs && m.sent + [] == m.sent && m.sc + [] == m.sc;
    assert Locals([]) == [] && m.acts + [] == m.acts;
  }

  /** What obeying a pause or resume does to the session's states and commands. */
  lemma ObeyedToggle(m: Session, side: Role, pause: bool, m': Session)
    requires m.c.role.Client? && m.s.role.Server? && m.At(side).state != Commanded(pause)
    requires Obeyed(m, side, if pause then RELAY_PAUSE else RELAY_RESUME, m')
    ensures m'.c.role.Client? && m'.s.role.Server?
    ensures m'.At(side).state == Commanded(pause) && m'.At(side).exit == m.At(side).exit
    ensures side.Client? ==> m'.s == m.s && m'.sc == m.sc && LastCommand(m'.cs) == Some(Commanded(pause))
    ensures Converges(m') <==> Uncrossed(m.Inbound(side), Commanded(pause))
  {
    var e := Toggling(pause);
    var core :| Alike(core, Effected(m.At(side), e)) && m' == Record(m, side, core, EffectOut(m.At(side), e));
    CommandConverges(m, side, pause, core);
    var out := ToggleOut(m.At(side), pause) + [Command(pause)];
    assert Last(out) == Command(pause);
    LastCommandJoin(m.cs, out);
  }

  lemma ThreeRequests(m0: Session) returns (moves: seq<Move>, m: Session)
    requires Good(m0) && m0.c.role.Client? && m0.s.role.Server? && !m0.c.exit && !m0.s.exit
    requires m0.c.state.Running? && m0.s.state.Running?
    ensures Reaches(m0, moves, m) && !Converges(m)
  {
    hide Good, Reaches, Obeyed, Converges, Request;
    var m1 := RequestRuns(m0, Client, RELAY_PAUSE);
    ObeyedToggle(m0, Client, true, m1);
    var m2 := RequestRuns(m1, Client, RELAY_RESUME);
    ObeyedToggle(m1, Client, false, m2);
    m := RequestRuns(m2, Server, RELAY_PAUSE);
    ObeyedToggle(m2, Server, true, m);
    var x, y := Request(m0, Client, RELAY_PAUSE), Request(m1, Client, RELAY_RESUME);
    var z := Request(m2, Server, RELAY_PAUSE);
    ReachesJoin(m0, x, m1, y, m2);
    ReachesJoin(m0, x + y, m2, z, m);
    moves := x + y + z;
  }

  /** Whatever devices are captured: the client is paused and resumed, and the server is paused before either
      message arrives. The daemons then do not agree once the messages under way have been handled. */
  lemma CrossingDiverges(infos: seq<DeviceInfo>) returns (m: Session)
    requires Startable(infos)
    ensures Reachable(infos, m) && !Converges(m)
  {
    hide Good, Converges;
    StartIsGood(infos);
    var moves;
    moves, m := ThreeRequests(Start(infos));
  }
}
