/** What a relay reads from its connection until it hangs up, in any run of the session. */
module RelayRuns {
  import opened Base
  import opened Wire
  import opened Streams
  import opened Framing
  import opened Daemons
  import opened Sessions
  import opened Relays
  import opened Endings
  import opened Invariants
  import opened Network

  /** Relay q of `side` hangs up. */
  predicate Leaves(move: Move, side: Role, q: nat) {
    move.RelayMove? && move.side == side && move.r == q && HangsUp(move.io)
  }

  /** Where relay q of `side` is found after the move. */
  function Place(move: Move, side: Role, q: nat): nat {
    if move.RelayMove? && move.side == side && HangsUp(move.io) && move.r < q then q - 1 else q
  }

  /** The bytes that the move writes to it. */
  function Written(m: Session, move: Move, side: Role, q: nat): seq<byte>
    requires Possible(m, move)
  {
    if move.RelayMove? && move.side == side && move.r == q then StreamStream(m.At(side).relays[q], move.io).out else []
  }

  /** The messages that the move has for it. */
  function Said(m: Session, move: Move, side: Role, q: nat): seq<Frame>
    requires Possible(m, move)
  {
    if move.side != side then [] else
      match move
      case RelayMove(_, r, io) =>
        if HangsUp(io) then [] else Told(m.At(side), r, StreamStream(m.At(side).relays[r], io).now, q)
      case Deliver(_) => Announced(m.Inbound(side)[0])
      case _ => []
  }

  function Unread(core: Core, q: nat): seq<byte>
    requires q < |core.relays|
  {
    QueueLeft(core.relays[q].queue)
  }

  lemma OtherSide(m: Session, move: Move, side: Role)
    requires Possible(m, move) && move.side != side && After(m, move).Some?
    ensures After(m, move).value.At(side) == m.At(side)
  {
    hide DevIo, RelayIo, PeerHandler, CanHappen;
  }

  lemma OwnSide(m: Session, move: Move)
    requires Possible(m, move) && After(m, move).Some?
    ensures OutcomeOf(m, move).Done? && After(m, move).value.At(move.side) == OutcomeOf(m, move).core
  {
    hide DevIo, RelayIo, PeerHandler, CanHappen;
  }

  lemma NothingSaid(left: seq<byte>)
    ensures [] + left == left + EncodeAll([])
  {
  }

  lemma GoneTells(core: Core, r: nat, io: Io, q: nat)
    requires r < |core.relays| && q < |core.relays| && r != q && HangsUp(io)
    requires ItemOk(Next(core.relays[r])) && Live(Next(core.relays[r]))
    ensures RelayIo(core, r, io).Done?
    ensures var core', q' := RelayIo(core, r, io).core, if r < q then q - 1 else q;
      q' < |core'.relays| && [] + Unread(core', q') == Unread(core, q) + EncodeAll([])
  {
    hide QueueLeft, EncodeAll, RelayIo, ItemOk;
    RelayGone(core, r, io);
    NothingSaid(Unread(core, q));
  }

  lemma WakeTells(core: Core, r: nat, io: Io, q: nat)
    requires RelaysOk(core) && r < |core.relays| && q < |core.relays| && !(r == q && HangsUp(io)) && !io.Fault?
    requires IoFits(Next(core.relays[r]), io) && KnownRequest(StreamStream(core.relays[r], io).now)
    requires RelayIo(core, r, io).Done?
    ensures var core', q' := RelayIo(core, r, io).core, if HangsUp(io) && r < q then q - 1 else q;
      q' < |core'.relays| &&
      (if q == r then StreamStream(core.relays[r], io).out else []) + Unread(core', q') == Unread(core, q)
      + EncodeAll(if HangsUp(io) then [] else Told(core, r, StreamStream(core.relays[r], io).now, q))
  {
    hide QueueLeft, EncodeAll, RelayIo, Told, StreamStream, RelayStream, KnownRequest, ItemOk, IoFits;
    StillLive(core.relays[r]);
    if HangsUp(io) {
      GoneTells(core, r, io, q);
    } else {
      RelayWakes(core, r, io, q);
    }
  }

  lemma StillLive(s: Stream)
    requires RelayStream(s)
    ensures ItemOk(Next(s)) && Live(Next(s))
  {
  }

  lemma RelayMoveTells(m: Session, r: nat, io: Io, side: Role, q: nat)
    requires Good(m) && Possible(m, RelayMove(side, r, io)) && q < |m.At(side).relays| && !(r == q && HangsUp(io))
    requires RelayIo(m.At(side), r, io).Done?
    ensures var move, core' := RelayMove(side, r, io), RelayIo(m.At(side), r, io).core;
      Place(move, side, q) < |core'.relays| &&
      Written(m, move, side, q) + Unread(core', Place(move, side, q))
      == Unread(m.At(side), q) + EncodeAll(Said(m, move, side, q))
  {
    GoodRelays(m, side);
    WakeTells(m.At(side), r, io, q);
    hide Good, QueueLeft, EncodeAll, RelayIo, Told, StreamStream, RelaysOk, Unread;
  }

  lemma GoodRelays(m: Session, side: Role)
    requires Good(m)
    ensures RelaysOk(m.At(side))
  {
  }

  lemma DeliverTells(m: Session, side: Role, q: nat)
    requires Possible(m, Deliver(side)) && q < |m.At(side).relays| && PeerHandler(m.At(side), m.Inbound(side)[0]).Done?
    ensures var core' := PeerHandler(m.At(side), m.Inbound(side)[0]).core;
      q < |core'.relays| && [] + Unread(core', q) == Unread(m.At(side), q) + EncodeAll(Announced(m.Inbound(side)[0]))
  {
    PeerCommandsAreAnnounced(m.At(side), m.Inbound(side)[0], q);
    hide QueueLeft, EncodeAll, PeerHandler;
  }

  lemma DevTells(m: Session, side: Role, i: nat, io: Io, q: nat)
    requires Possible(m, DevMove(side, i, io)) && q < |m.At(side).relays| && DevIo(m.At(side), i, io).Done?
    ensures var core' := DevIo(m.At(side), i, io).core;
      q < |core'.relays| && Unread(core', q) == Unread(m.At(side), q)
  {
    DeviceWakes(m.At(side), i, io);
    hide DevIo, QueueLeft;
  }

  lemma AcceptTells(core: Core, q: nat)
    requires q < |core.relays|
    ensures q < |Accept(core).relays| && Unread(Accept(core), q) == Unread(core, q)
  {
    AcceptAdds(core);
    assert Accept(core).relays[..|core.relays|][q] == core.relays[q];
  }

  /** One move: what is written to a relay, then what it has still to read, are what it had to read before, then
      exactly what the move has for it. */
  lemma MoveTells(m: Session, move: Move, side: Role, q: nat)
    requires Good(m) && Possible(m, move) && q < |m.At(side).relays| && !Leaves(move, side, q)
    ensures After(m, move).Some? &&
      var m', q' := After(m, move).value, Place(move, side, q);
      q' < |m'.At(side).relays| &&
      Written(m, move, side, q) + Unread(m'.At(side), q') == Unread(m.At(side), q) + EncodeAll(Said(m, move, side, q))
  {
    hide QueueLeft, EncodeAll, Good, CanHappen, RelayIo, DevIo, PeerHandler, StreamStream, Told, Unread;
    MoveKeepsGood(m, move);
    NothingSaid(Unread(m.At(side), q));
    if move.side != side {
      OtherSide(m, move, side);
    } else {
      OwnSide(m, move);
      match move
      case RelayMove(_, r, io) => RelayMoveTells(m, r, io, side, q);
      case DevMove(_, i, io) => DevTells(m, side, i, io, q);
      case AcceptMove(_) => AcceptTells(m.At(side), q);
      case Deliver(_) => DeliverTells(m, side, q);
    }
  }

  // ---------------------------------------------------------------- runs

  /** Relay q does not hang up in the run. */
  predicate Stays(m: Session, moves: seq<Move>, side: Role, q: nat)
    decreases |moves|
  {
    moves == [] ||
    (Possible(m, moves[0]) && After(m, moves[0]).Some? && !Leaves(moves[0], side, q)
     && Stays(After(m, moves[0]).value, moves[1..], side, Place(moves[0], side, q)))
  }

  function LastPlace(moves: seq<Move>, side: Role, q: nat): nat
    decreases |moves|
  {
    if moves == [] then q else LastPlace(moves[1..], side, Place(moves[0], side, q))
  }

  function AllWritten(m: Session, moves: seq<Move>, side: Role, q: nat): seq<byte>
    requires Stays(m, moves, side, q)
    decreases |moves|
  {
    if moves == [] then [] else
      Written(m, moves[0], side, q)
      + AllWritten(After(m, moves[0]).value, moves[1..], side, Place(moves[0], side, q))
  }

  function AllSaid(m: Session, moves: seq<Move>, side: Role, q: nat): seq<Frame>
    requires Stays(m, moves, side, q)
    decreases |moves|
  {
    if moves == [] then [] else
      Said(m, moves[0], side, q) + AllSaid(After(m, moves[0]).value, moves[1..], side, Place(moves[0], side, q))
  }

  lemma {:induction false} EncodeAllJoin(a: seq<Frame>, b: seq<Frame>)
    ensures EncodeAll(a + b) == EncodeAll(a) + EncodeAll(b)
    decreases |a|
  {
    if a == [] {
      assert a + b == b;
    } else {
      assert (a + b)[1..] == a[1..] + b;
      EncodeAllJoin(a[1..], b);
      Assoc(Encode(a[0]), EncodeAll(a[1..]), EncodeAll(b));
    }
  }

  lemma Chain(w: seq<byte>, u1: seq<byte>, u: seq<byte>, s: seq<byte>, ws: seq<byte>, u2: seq<byte>, ss: seq<byte>)
    requires w + u1 == u + s && ws + u2 == u1 + ss
    ensures (w + ws) + u2 == u + (s + ss)
  {
    calc {
      (w + ws) + u2;
    == { Assoc(w, ws, u2); }
      w + (ws + u2);
    == { Assoc(w, u1, ss); }
      (w + u1) + ss;
    == { Assoc(u, s, ss); }
      u + (s + ss);
    }
  }

  lemma {:induction false} RunTells(m: Session, moves: seq<Move>, m': Session, side: Role, q: nat)
    requires Good(m) && Reaches(m, moves, m') && q < |m.At(side).relays| && Stays(m, moves, side, q)
    ensures LastPlace(moves, side, q) < |m'.At(side).relays|
    ensures AllWritten(m, moves, side, q) + Unread(m'.At(side), LastPlace(moves, side, q))
         == Unread(m.At(side), q) + EncodeAll(AllSaid(m, moves, side, q))
    decreases |moves|
  {
    hide Good, Possible, After, Unread, Written, Said, Place, Leaves, EncodeAll;
    if moves == [] {
      NothingSaid(Unread(m.At(side), q));
    } else {
      var m1, q1, rest := After(m, moves[0]).value, Place(moves[0], side, q), moves[1..];
      MoveKeepsGood(m, moves[0]);
      MoveTells(m, moves[0], side, q);
      RunTells(m1, rest, m', side, q1);
      EncodeAllJoin(Said(m, moves[0], side, q), AllSaid(m1, rest, side, q1));
      Chain(Written(m, moves[0], side, q), Unread(m1.At(side), q1), Unread(m.At(side), q),
            EncodeAll(Said(m, moves[0], side, q)), AllWritten(m1, rest, side, q1),
            Unread(m'.At(side), LastPlace(moves, side, q)), EncodeAll(AllSaid(m1, rest, side, q1)));
    }
  }

  /** A relay has connected to the daemon. */
  function Joined(m: Session, side: Role): Session {
    Record(m, side, Accept(m.At(side)), [])
  }

  /** From the moment it connects, in any run in which it does not hang up, a relay is sent exactly the messages that
      the daemon has for it: the bytes written to it are the first of their encoding, in order, and all of it once
      its queue is empty. */
  lemma RelayHears(infos: seq<DeviceInfo>, m: Session, side: Role, moves: seq<Move>, m': Session)
    requires Reachable(infos, m) && !CanExit(m.At(side))
    requires Reaches(Joined(m, side), moves, m') && Stays(Joined(m, side), moves, side, |m.At(side).relays|)
    ensures After(m, AcceptMove(side)) == Some(Joined(m, side))
    ensures var m0, q := Joined(m, side), |m.At(side).relays|;
      && LastPlace(moves, side, q) < |m'.At(side).relays|
      && AllWritten(m0, moves, side, q) <= EncodeAll(AllSaid(m0, moves, side, q))
      && (m'.At(side).relays[LastPlace(moves, side, q)].queue == [] ==>
            AllWritten(m0, moves, side, q) == EncodeAll(AllSaid(m0, moves, side, q)))
  {
    var m0, q := Joined(m, side), |m.At(side).relays|;
    ReachableIsGood(infos, m);
    MoveKeepsGood(m, AcceptMove(side));
    AcceptAdds(m.At(side));
    assert Unread(m0.At(side), q) == [];
    hide Good, Reachable, Reaches, Stays, AllWritten, AllSaid, EncodeAll, LastPlace;
    RunTells(m0, moves, m', side, q);
    var said := EncodeAll(AllSaid(m0, moves, side, q));
    assert [] + said == said;
    assert AllWritten(m0, moves, side, q) + [] == AllWritten(m0, moves, side, q);
  }
}
