/** What each relay is told when one of them sends a request. */
module Relays {
  import opened Base
  import opened Wire
  import opened Streams
  import opened Framing
  import opened Daemons
  import opened Sessions

  /** The messages sent to relay q when relay r's request is handled. A pause or a stop that takes effect is
      announced to every relay; one that changes nothing is answered to its sender only; a resume that takes
      effect is announced to nobody. */
  function Answers(core: Core, r: nat, value: U32, q: nat): seq<Frame> {
    var pausing := value == RELAY_PAUSE || (value == RELAY_SWITCH && core.state.Running?);
    var resuming := value == RELAY_RESUME || (value == RELAY_SWITCH && core.state.Paused?);
    if pausing && core.state.Running? then [Frame(if core.connected then RELAY_PAUSE else RELAY_NO_PEER, [])]
    else if value == RELAY_STOP then [Frame(RELAY_STOP, [])]
    else if q != r || (resuming && core.state.Paused?) || value == RELAY_IDLE then []
    else if pausing then [Frame(RELAY_PAUSE_AGAIN, [])]
    else if resuming then [Frame(RELAY_RESUME_AGAIN, [])]
    else if value == RELAY_LIST then [Frame(RELAY_LIST, ListBody(core.devices))]
    else [Frame(value, [])]
  }

  /** Exactly one message has been added to what is still to be written to a relay. */
  lemma ToldOne(s: Stream, value: U32, body: seq<byte>)
    ensures QueueLeft(Tell(s, value, body).queue) == QueueLeft(s.queue) + EncodeAll([Frame(value, body)])
  {
    QueueLeftAppend(s.queue, SocketItem(Frame(value, body)));
    FreshItem(Frame(value, body));
    OneFrame(Frame(value, body));
  }

  lemma OneFrame(f: Frame)
    ensures EncodeAll([f]) == Encode(f)
  {
    assert [f][1..] == [];
    assert Encode(f) + [] == Encode(f);
  }

  lemma ToldNothing(s: Stream)
    ensures QueueLeft(s.queue) == QueueLeft(s.queue) + EncodeAll([])
  {
  }

  /** The bytes still to be written to each relay grow by exactly its answers. */
  lemma RelaysAreAnswered(core: Core, r: nat, value: U32, q: nat)
    requires r < |core.relays| && q < |core.relays| && value in REQUESTS
    requires RelayHandler(core, r, value).Done?
    ensures var core' := RelayHandler(core, r, value).core;
      q < |core'.relays|
      && QueueLeft(core'.relays[q].queue) == QueueLeft(core.relays[q].queue) + EncodeAll(Answers(core, r, value, q))
  {
    hide QueueLeft, EncodeAll, Tell, ListBody, Controlled, ReleaseAll, GrabMsgs;
    var told := Answers(core, r, value, q);
    if told == [] {
      ToldNothing(core.relays[q]);
    } else {
      ToldOne(core.relays[q], told[0].value, told[0].body);
      assert told == [Frame(told[0].value, told[0].body)];
    }
  }

  /** A relay that has just connected and asks for a pause, a stop, a start or a list, finds its answer first. */
  lemma FirstAnswer(core: Core, r: nat, value: U32, f: Frame)
    requires r < |core.relays| && value in REQUESTS && RelayHandler(core, r, value).Done?
    requires core.relays[r].queue == [] && Answers(core, r, value, r) == [f]
    ensures Encode(f) == QueueLeft(RelayHandler(core, r, value).core.relays[r].queue)
  {
    RelaysAreAnswered(core, r, value, r);
    OneFrame(f);
    assert QueueLeft([]) + Encode(f) == Encode(f);
  }

  /** What the peer's message makes a daemon tell each of its relays. */
  function Announced(x: PeerMsg): seq<Frame> {
    match x
    case Pause => [Frame(RELAY_PAUSE, [])]
    case Resume => [Frame(RELAY_RESUME, [])]
    case Stop => [Frame(RELAY_STOP, [])]
    case _ => []
  }

  /** The peer's command is announced to every relay, the client's stop as well. */
  lemma PeerCommandsAreAnnounced(core: Core, x: PeerMsg, q: nat)
    requires q < |core.relays| && PeerHandler(core, x).Done?
    ensures var core' := PeerHandler(core, x).core;
      |core'.relays| == |core.relays|
      && QueueLeft(core'.relays[q].queue) == QueueLeft(core.relays[q].queue) + EncodeAll(Announced(x))
  {
    hide QueueLeft, EncodeAll, Tell, Controlled, ReleaseAll, GrabMsgs;
    ToldNothing(core.relays[q]);
    ToldOne(core.relays[q], RELAY_PAUSE, []);
    ToldOne(core.relays[q], RELAY_RESUME, []);
    ToldOne(core.relays[q], RELAY_STOP, []);
  }

  /** Entry j of the list is the device's name and grab state. */
  lemma {:induction false} ListEntry(devs: seq<Dev>, j: nat)
    requires j < |devs|
    ensures |ListBody(devs)| == 81 * |devs|
    ensures ListBody(devs)[81 * j..81 * j + 80] == devs[j].info.name
    ensures ListBody(devs)[81 * j + 80] == if devs[j].grabbed then 1 else 0
    decreases |devs|
  {
    var first := devs[0].info.name + [if devs[0].grabbed then 1 else 0];
    var rest := ListBody(devs[1..]);
    assert ListBody(devs) == first + rest && |first| == 81;
    ListBodyLength(devs);
    if j > 0 {
      ListEntry(devs[1..], j - 1);
      assert (first + rest)[81 * j..81 * j + 80] == rest[81 * (j - 1)..81 * (j - 1) + 80];
    }
  }
}
