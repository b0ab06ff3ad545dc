/** What travels between the daemons: framed messages, input events and the peer protocol. */
module Wire {
  import opened Base

  const HEADER_SIZE: nat := 16
  const EVENT_SIZE: nat := 24

  type HeaderBytes = b: seq<byte> | |b| == HEADER_SIZE witness Zeros(16)
  type EventBytes = b: seq<byte> | |b| == EVENT_SIZE witness Zeros(24)

  /** A message: the header's value and size (the body's length), then the body. */
  datatype Frame = Frame(value: U32, body: seq<byte>)

  /** size_t bounds the body. */
  predicate Fits(f: Frame) {
    |f.body| < 0x1_0000_0000_0000_0000
  }

  /** struct stream_header: size_t size, int value, four bytes of padding. */
  function HeaderOf(value: U32, size: nat): (h: HeaderBytes)
  {
    LittleEndian(size, 8) + LittleEndian(value, 4) + Zeros(4)
  }

  function SizeIn(h: HeaderBytes): (n: nat)
    ensures n < 0x1_0000_0000_0000_0000
  {
    Powers();
    Value(h[..8])
  }

  function ValueIn(h: HeaderBytes): (n: U32)
  {
    Powers();
    Value(h[8..12])
  }

  lemma HeaderRoundTrip(value: U32, size: U64)
    ensures SizeIn(HeaderOf(value, size)) == size
    ensures ValueIn(HeaderOf(value, size)) == value
  {
    Powers();
    ValueOfLittleEndian(size, 8);
    ValueOfLittleEndian(value, 4);
    var h := HeaderOf(value, size);
    assert h[..8] == LittleEndian(size, 8);
    assert h[8..12] == LittleEndian(value, 4);
  }

  function Encode(f: Frame): seq<byte> {
    HeaderOf(f.value, |f.body|) + f.body
  }

  function EncodeAll(fs: seq<Frame>): seq<byte> {
    if fs == [] then [] else Encode(fs[0]) + EncodeAll(fs[1..])
  }

  predicate AllFit(fs: seq<Frame>) {
    forall i :: 0 <= i < |fs| ==> Fits(fs[i])
  }

  lemma {:induction false} EncodeAllAppend(fs: seq<Frame>, f: Frame)
    ensures EncodeAll(fs + [f]) == EncodeAll(fs) + Encode(f)
  {
    if fs == [] {
      assert [f][1..] == [];
      assert EncodeAll([f]) == Encode(f);
      assert fs + [f] == [f];
    } else {
      EncodeAllAppend(fs[1..], f);
      assert (fs + [f])[1..] == fs[1..] + [f];
    }
  }

  /** A complete header and as many body bytes as it announces, found at the front of a stream of
      encoded messages, are the first of those messages: framing is prefix-free. */
  lemma FirstFrame(h: HeaderBytes, body: seq<byte>, rest: seq<byte>, fs: seq<Frame>)
    requires AllFit(fs)
    requires |body| == SizeIn(h)
    requires h + body + rest == EncodeAll(fs)
    ensures fs != [] && fs[0] == Frame(ValueIn(h), body)
    ensures rest == EncodeAll(fs[1..])
  {
    var all := h + body + rest;
    assert |all| >= HEADER_SIZE;
    var f := fs[0];
    var tail := EncodeAll(fs[1..]);
    var h' := HeaderOf(f.value, |f.body|);
    assert Fits(f);
    HeaderRoundTrip(f.value, |f.body|);
    assert all == h' + f.body + tail;
    assert h == all[..HEADER_SIZE] == h';
    assert body == all[HEADER_SIZE..HEADER_SIZE + |body|] == f.body;
    assert rest == all[HEADER_SIZE + |body|..] == tail;
  }

  // ---------------------------------------------------------------- input events

  const EV_SYN: U16 := 0
  const EV_KEY: U16 := 1
  const EV_REL: U16 := 2
  const KEY_MAX: nat := 767

  type Stamp = b: seq<byte> | |b| == 16 witness Zeros(16)

  /** struct input_event. */
  datatype Event = Event(time: Stamp, etype: U16, code: U16, value: I32)

  const SYN_REPORT := Event(Zeros(16), EV_SYN, 0, 0)

  function KeyUp(code: U16): Event {
    Event(Zeros(16), EV_KEY, code, 0)
  }

  function Unsigned(v: I32): U32 { if v < 0 then v + 0x1_0000_0000 else v }
  function Signed(v: U32): I32 { if v < 0x8000_0000 then v else v - 0x1_0000_0000 }

  function EncodeEvent(e: Event): (b: EventBytes) {
    e.time + LittleEndian(e.etype, 2) + LittleEndian(e.code, 2) + LittleEndian(Unsigned(e.value), 4)
  }

  function DecodeEvent(b: EventBytes): Event {
    Powers();
    Event(b[..16], Value(b[16..18]), Value(b[18..20]), Signed(Value(b[20..24])))
  }

  lemma EventRoundTrip(e: Event)
    ensures DecodeEvent(EncodeEvent(e)) == e
  {
    Powers();
    ValueOfLittleEndian(e.etype, 2);
    ValueOfLittleEndian(e.code, 2);
    ValueOfLittleEndian(Unsigned(e.value), 4);
    var b := EncodeEvent(e);
    assert b[..16] == e.time;
    assert b[16..18] == LittleEndian(e.etype, 2);
    assert b[18..20] == LittleEndian(e.code, 2);
    assert b[20..24] == LittleEndian(Unsigned(e.value), 4);
  }

  // ---------------------------------------------------------------- devices and the peer protocol

  type EventBits = b: seq<byte> | |b| == 4 witness Zeros(4)
  type KeyBits = b: seq<byte> | |b| == 96 witness Zeros(96)
  type Name = b: seq<byte> | |b| == 80 witness Zeros(80)
  type OtherBits = b: seq<byte> | |b| == 1564 witness Zeros(1564)

  /** struct device_info; `other` holds the abs, rel and prop bitmaps, absinfo and dev_id. */
  datatype DeviceInfo = DeviceInfo(evtbit: EventBits, keybit: KeyBits, other: OtherBits, name: Name, id: U64)

  datatype PeerMsg =
    | DevCrt(info: DeviceInfo)
    | UpdGrab(id: U64, grab: bool)
    | Input(id: U64, event: Event)
    | Pause
    | Resume
    | Stop

  /** The header value is the enum constant and the body is the struct. */
  function ToFrame(m: PeerMsg): Frame {
    match m
    case DevCrt(i) => Frame(0, i.evtbit + i.keybit + i.other + i.name + LittleEndian(i.id, 8))
    case UpdGrab(id, g) => Frame(1, LittleEndian(id, 8) + LittleEndian(if g then 1 else 0, 8))
    case Input(id, e) => Frame(2, EncodeEvent(e) + LittleEndian(id, 8))
    case Pause => Frame(3, [])
    case Resume => Frame(4, [])
    case Stop => Frame(5, [])
  }

  /** p_handler's view of a received message; None is an unknown value or a body too short for its struct. */
  function FromFrame(f: Frame): Option<PeerMsg> {
    Powers();
    match f.value
    case 0 => if |f.body| != 1752 then None else
      Some(DevCrt(DeviceInfo(
        f.body[..4], f.body[4..100], f.body[100..1664], f.body[1664..1744], Value(f.body[1744..]))))
    case 1 => if |f.body| != 16 then None else Some(UpdGrab(Value(f.body[..8]), f.body[8] != 0))
    case 2 => if |f.body| != 32 then None else Some(Input(Value(f.body[24..]), DecodeEvent(f.body[..24])))
    case 3 => Some(Pause)
    case 4 => Some(Resume)
    case 5 => Some(Stop)
    case _ => None
  }

  lemma DevCrtRoundTrip(i: DeviceInfo)
    ensures FromFrame(ToFrame(DevCrt(i))) == Some(DevCrt(i))
  {
    Powers();
    ValueOfLittleEndian(i.id, 8);
    var b := ToFrame(DevCrt(i)).body;
    assert b[..4] == i.evtbit;
    assert b[4..100] == i.keybit;
    assert b[100..1664] == i.other;
    assert b[1664..1744] == i.name;
    assert b[1744..] == LittleEndian(i.id, 8);
  }

  lemma UpdGrabRoundTrip(id: U64, g: bool)
    ensures FromFrame(ToFrame(UpdGrab(id, g))) == Some(UpdGrab(id, g))
  {
    Powers();
    ValueOfLittleEndian(id, 8);
    var b := ToFrame(UpdGrab(id, g)).body;
    assert b[..8] == LittleEndian(id, 8);
    assert b[8] == LittleEndian(if g then 1 else 0, 8)[0];
  }

  lemma InputRoundTrip(id: U64, e: Event)
    ensures FromFrame(ToFrame(Input(id, e))) == Some(Input(id, e))
  {
    Powers();
    ValueOfLittleEndian(id, 8);
    EventRoundTrip(e);
    var b := ToFrame(Input(id, e)).body;
    assert b[..24] == EncodeEvent(e);
    assert b[24..] == LittleEndian(id, 8);
  }

  lemma PeerMsgRoundTrip(m: PeerMsg)
    ensures Fits(ToFrame(m))
    ensures FromFrame(ToFrame(m)) == Some(m)
  {
    match m
    case DevCrt(i) => DevCrtRoundTrip(i);
    case UpdGrab(id, g) => UpdGrabRoundTrip(id, g);
    case Input(id, e) => InputRoundTrip(id, e);
    case _ =>
  }

  function Frames(ms: seq<PeerMsg>): (fs: seq<Frame>)
    ensures |fs| == |ms|
  {
    seq(|ms|, i requires 0 <= i < |ms| => ToFrame(ms[i]))
  }
}
