/** struct stream_item as it lies in memory: in the slots of a queue, with its body in a buffer of its own. */
module Slots {
  import opened Base
  import opened Wire
  import opened Streams

  /** `buffer` is an address, 0 for NULL. */
  datatype Slot = Slot(
    hdr: HeaderBytes, evt: EventBytes, buffer: U64, streamed: U64, kind: Kind, phase: Phase, op: Op)

  /** The buffers that calloc has handed out. */
  type Heap = map<U64, seq<byte>>

  const SLOT_SIZE: nat := 68

  type SlotBytes = b: seq<byte> | |b| == SLOT_SIZE witness Zeros(68)

  // ---------------------------------------------------------------- bytes

  function KindCode(k: Kind): U32 { if k.Socket? then 0 else 1 }
  function OpCode(op: Op): U32 { if op.Writing? then 0 else 1 }

  function PhaseCode(p: Phase): U32 {
    match p
    case Header => 0
    case Body => 1
    case Complete => 2
    case Closed => 3
  }

  function PhaseOf(code: nat): Phase {
    if code == 0 then Header else if code == 1 then Body else if code == 2 then Complete else Closed
  }

  function Pack(s: Slot): (b: SlotBytes) {
    s.hdr + s.evt + LittleEndian(s.buffer, 8) + LittleEndian(s.streamed, 8)
    + LittleEndian(KindCode(s.kind), 4) + LittleEndian(PhaseCode(s.phase), 4) + LittleEndian(OpCode(s.op), 4)
  }

  function Unpack(b: SlotBytes): Slot {
    Powers();
    Slot(b[..16], b[16..40], Value(b[40..48]), Value(b[48..56]),
         if Value(b[56..60]) == 0 then Socket else Device,
         PhaseOf(Value(b[60..64])),
         if Value(b[64..68]) == 0 then Writing else Reading)
  }

  /** Where the fields lie. */
  lemma Fields(a: seq<byte>, b: seq<byte>, c: seq<byte>, d: seq<byte>, e: seq<byte>, f: seq<byte>, g: seq<byte>)
    requires |a| == 16 && |b| == 24 && |c| == |d| == 8 && |e| == |f| == |g| == 4
    ensures var all := a + b + c + d + e + f + g;
      && |all| == SLOT_SIZE && all[..16] == a && all[16..40] == b && all[40..48] == c && all[48..56] == d
      && all[56..60] == e && all[60..64] == f && all[64..68] == g
  {
  }

  lemma PackRoundTrip(s: Slot)
    ensures Unpack(Pack(s)) == s
  {
    hide LittleEndian, Value;
    Powers();
    ValueOfLittleEndian(s.buffer, 8);
    ValueOfLittleEndian(s.streamed, 8);
    ValueOfLittleEndian(KindCode(s.kind), 4);
    ValueOfLittleEndian(PhaseCode(s.phase), 4);
    ValueOfLittleEndian(OpCode(s.op), 4);
    Fields(s.hdr, s.evt, LittleEndian(s.buffer, 8), LittleEndian(s.streamed, 8),
           LittleEndian(KindCode(s.kind), 4), LittleEndian(PhaseCode(s.phase), 4), LittleEndian(OpCode(s.op), 4));
  }

  // ---------------------------------------------------------------- items

  /** The item that a slot and its buffer make up. */
  function View(s: Slot, heap: Heap): Item {
    Item(s.hdr, if s.buffer in heap then Some(heap[s.buffer]) else None, s.evt, s.streamed, s.kind, s.phase, s.op)
  }

  /** The slot for an item whose body is at the address. */
  function SlotFor(it: Item, address: U64): Slot
    requires it.streamed < 0x1_0000_0000_0000_0000
  {
    Slot(it.hdr, it.evt, address, it.streamed, it.kind, it.phase, it.op)
  }

  predicate AllSlots(slots: seq<seq<byte>>) {
    forall i :: 0 <= i < |slots| ==> |slots[i]| == SLOT_SIZE
  }

  function Views(slots: seq<seq<byte>>, heap: Heap): (items: seq<Item>)
    requires AllSlots(slots)
    ensures |items| == |slots|
  {
    seq(|slots|, i requires 0 <= i < |slots| => View(Unpack(slots[i]), heap))
  }

  /** No buffer is used by two items, nor freed while one uses it. */
  predicate Unshared(fallback: Slot, slots: seq<seq<byte>>, heap: Heap)
    requires AllSlots(slots)
  {
    && 0 !in heap
    && (fallback.buffer == 0 || fallback.buffer in heap)
    && (forall i :: 0 <= i < |slots| ==> var a := Unpack(slots[i]).buffer;
          a == 0 || (a in heap && a != fallback.buffer))
    && (forall i, j :: 0 <= i < j < |slots| ==>
          Unpack(slots[i]).buffer == 0 || Unpack(slots[i]).buffer != Unpack(slots[j]).buffer)
  }

  /** Changing, allocating or freeing a buffer that none of these slots uses does not change their items. */
  lemma ViewsIgnore(slots: seq<seq<byte>>, heap: Heap, heap': Heap)
    requires AllSlots(slots)
    requires forall i :: 0 <= i < |slots| ==> var a := Unpack(slots[i]).buffer;
      (a in heap <==> a in heap') && (a in heap ==> heap'[a] == heap[a])
    ensures Views(slots, heap') == Views(slots, heap)
  {
    hide Unpack;
  }

  lemma ViewsTail(slots: seq<seq<byte>>, heap: Heap)
    requires AllSlots(slots) && slots != []
    ensures Views(slots, heap) == [View(Unpack(slots[0]), heap)] + Views(slots[1..], heap)
  {
    hide Unpack;
  }

  lemma ViewsAppend(slots: seq<seq<byte>>, slot: SlotBytes, heap: Heap)
    requires AllSlots(slots)
    ensures AllSlots(slots + [slot])
    ensures Views(slots + [slot], heap) == Views(slots, heap) + [View(Unpack(slot), heap)]
  {
    hide Unpack;
  }

  // ---------------------------------------------------------------- what the stream does to its slots

  /** Storing an item's body: in the buffer that the item has, or else in the one that calloc hands out. */
  function Home(s: Slot, it: Item, address: U64): U64 {
    if it.buffer.None? then 0 else if s.buffer != 0 then s.buffer else address
  }

  function Stored(heap: Heap, it: Item, at: U64): Heap {
    if it.buffer.None? then heap else heap[at := it.buffer.value]
  }

  /** The slot s may become the item: calloc's address is not in use, if it is needed at all. */
  predicate CanHold(s: Slot, it: Item, address: U64, heap: Heap) {
    && it.streamed < 0x1_0000_0000_0000_0000
    && (s.buffer != 0 ==> it.buffer.Some?)
    && (s.buffer == 0 && it.buffer.Some? ==> address != 0 && address !in heap)
  }

  lemma PushSlot(fallback: Slot, slots: seq<seq<byte>>, it: Item, address: U64, heap: Heap)
    requires AllSlots(slots) && Unshared(fallback, slots, heap)
    requires it.streamed < 0x1_0000_0000_0000_0000 && (it.buffer.Some? ==> address != 0 && address !in heap)
    ensures var a := if it.buffer.None? then 0 else address;
      var slots', heap' := slots + [Pack(SlotFor(it, a))], Stored(heap, it, a);
      && AllSlots(slots') && Unshared(fallback, slots', heap')
      && Views(slots', heap') == Views(slots, heap) + [it] && View(fallback, heap') == View(fallback, heap)
  {
    var a := if it.buffer.None? then 0 else address;
    var heap' := Stored(heap, it, a);
    PackRoundTrip(SlotFor(it, a));
    hide Views;
    ViewsIgnore(slots, heap, heap');
    ViewsAppend(slots, Pack(SlotFor(it, a)), heap');
    hide Pack, Unpack;
  }

  /** The first slot becomes the item. */
  lemma StoreFirst(fallback: Slot, slots: seq<seq<byte>>, it: Item, address: U64, heap: Heap)
    requires AllSlots(slots) && Unshared(fallback, slots, heap) && slots != []
    requires CanHold(Unpack(slots[0]), it, address, heap)
    ensures var a := Home(Unpack(slots[0]), it, address);
      var slots', heap' := [Pack(SlotFor(it, a))] + slots[1..], Stored(heap, it, a);
      && AllSlots(slots') && Unshared(fallback, slots', heap')
      && Views(slots', heap') == [it] + Views(slots, heap)[1..] && View(fallback, heap') == View(fallback, heap)
  {
    var a := Home(Unpack(slots[0]), it, address);
    var heap' := Stored(heap, it, a);
    var slots' := [Pack(SlotFor(it, a))] + slots[1..];
    PackRoundTrip(SlotFor(it, a));
    hide Pack, Unpack;
    ViewsTail(slots, heap);
    ViewsIgnore(slots[1..], heap, heap');
    ViewsTail(slots', heap');
    assert slots'[1..] == slots[1..];
    StaysUnshared(fallback, slots, slots', heap, heap');
    hide Views, Unshared;
  }

  /** Only the first slot has changed; its buffer is the one it had, or a new one, or none. */
  lemma StaysUnshared(fallback: Slot, slots: seq<seq<byte>>, slots': seq<seq<byte>>, heap: Heap, heap': Heap)
    requires AllSlots(slots) && AllSlots(slots') && Unshared(fallback, slots, heap)
    requires |slots'| == |slots| >= 1 && slots'[1..] == slots[1..]
    requires 0 !in heap' && heap.Keys <= heap'.Keys
    requires var a, a' := Unpack(slots[0]).buffer, Unpack(slots'[0]).buffer;
      a' == 0 || (a' in heap' && (a' == a || a' !in heap))
    ensures Unshared(fallback, slots', heap')
  {
    hide Unpack;
    assert forall i :: 1 <= i < |slots| ==> slots'[i] == slots'[1..][i - 1] == slots[i];
  }

  /** The fallback becomes the item. */
  lemma StoreFallback(fallback: Slot, slots: seq<seq<byte>>, it: Item, address: U64, heap: Heap)
    requires AllSlots(slots) && Unshared(fallback, slots, heap) && CanHold(fallback, it, address, heap)
    ensures var a := Home(fallback, it, address);
      var heap' := Stored(heap, it, a);
      && Unshared(SlotFor(it, a), slots, heap')
      && Views(slots, heap') == Views(slots, heap) && View(SlotFor(it, a), heap') == it
  {
    ViewsIgnore(slots, heap, Stored(heap, it, Home(fallback, it, address)));
    hide Unpack;
  }

  /** The first slot is copied over the fallback; whatever buffer that had is no longer anyone's. */
  lemma PopSlot(fallback: Slot, slots: seq<seq<byte>>, heap: Heap)
    requires AllSlots(slots) && Unshared(fallback, slots, heap) && slots != []
    ensures AllSlots(slots[1..]) && Unshared(Unpack(slots[0]), slots[1..], heap)
    ensures Views(slots, heap) == [View(Unpack(slots[0]), heap)] + Views(slots[1..], heap)
  {
    ViewsTail(slots, heap);
    hide Unpack;
  }

  /** The fallback's buffer is freed. */
  lemma FreeBuffer(fallback: Slot, slots: seq<seq<byte>>, heap: Heap)
    requires AllSlots(slots) && Unshared(fallback, slots, heap)
    ensures var fallback', heap' := fallback.(buffer := 0), heap - {fallback.buffer};
      && Unshared(fallback', slots, heap') && Views(slots, heap') == Views(slots, heap)
      && View(fallback', heap') == View(fallback, heap).(buffer := None)
  {
    ViewsIgnore(slots, heap, heap - {fallback.buffer});
    hide Unpack;
  }
}
