/** The type-erased array and queue of rcn_util.c: elements of one positive size, side by side in a byte buffer. */
module ByteStore {
  import opened Base

  const STD_CAPACITY: nat := 10   // RCN_STD_CAPACITY

  // ---------------------------------------------------------------- offsets

  lemma OffsetFits(i: nat, n: nat, capacity: nat, size: nat)
    requires i + n <= capacity
    ensures 0 <= i * size <= i * size + n * size <= capacity * size
    ensures i * size + n * size == (i + n) * size
  {
    assert i * size + n * size == (i + n) * size;
    assert capacity * size == (i + n) * size + (capacity - i - n) * size;
  }

  /** The elements stored in the first n slots of a buffer. */
  ghost function Elements(data: seq<byte>, size: nat, n: nat): (es: seq<seq<byte>>)
    requires n * size <= |data|
    ensures |es| == n
  {
    if n == 0 then [] else
      OffsetFits(n - 1, 1, n, size);
      Elements(data, size, n - 1) + [data[(n - 1) * size..n * size]]
  }

  lemma {:induction false} ElementAt(data: seq<byte>, size: nat, n: nat, i: nat)
    requires i < n && n * size <= |data|
    ensures 0 <= i * size <= (i + 1) * size <= |data|
    ensures Elements(data, size, n)[i] == data[i * size..(i + 1) * size]
  {
    OffsetFits(i, 1, n, size);
    if i < n - 1 {
      OffsetFits(n - 1, 1, n, size);
      ElementAt(data, size, n - 1, i);
    }
  }

  /** Two buffers that agree on their first n slots hold the same elements there. */
  lemma {:induction false} SamePrefix(a: seq<byte>, b: seq<byte>, size: nat, n: nat)
    requires n * size <= |a| && n * size <= |b|
    requires a[..n * size] == b[..n * size]
    ensures Elements(a, size, n) == Elements(b, size, n)
  {
    if n > 0 {
      OffsetFits(n - 1, 1, n, size);
      assert a[..(n - 1) * size] == a[..n * size][..(n - 1) * size] == b[..(n - 1) * size];
      assert a[(n - 1) * size..n * size] == a[..n * size][(n - 1) * size..];
      assert b[(n - 1) * size..n * size] == b[..n * size][(n - 1) * size..];
      SamePrefix(a, b, size, n - 1);
    }
  }

  function Removed<T>(s: seq<T>, i: nat): seq<T>
    requires i < |s|
  {
    s[..i] + s[i + 1..]
  }

  /** The first index of x in s, or -1. */
  function IndexOf<T(==)>(s: seq<T>, x: T): (r: int)
    ensures -1 <= r < |s|
    ensures r >= 0 ==> s[r] == x && x !in s[..r]
    ensures r == -1 <==> x !in s
  {
    if x !in s then -1
    else if s[0] == x then 0
    else 1 + IndexOf(s[1..], x)
  }

  lemma IndexIsFirst<T>(s: seq<T>, x: T, i: nat)
    requires i < |s| && s[i] == x && x !in s[..i]
    ensures IndexOf(s, x) == i
  {
    assert x in s;
  }

  lemma Slice(a: seq<byte>, lo: nat, hi: nat, from: nat, to: nat)
    requires lo + from <= lo + to <= hi <= |a|
    ensures a[lo..hi][from..to] == a[lo + from..lo + to]
  {
    var window := a[lo..hi];
    forall k | 0 <= k < to - from ensures window[from..to][k] == a[lo + from..lo + to][k] {
      assert window[from..to][k] == window[from + k] == a[lo + from + k];
    }
  }

  /** Slot k of a window of slots [lo, hi) is slot lo + k of the buffer. */
  lemma SlotOfWindow(a: seq<byte>, size: nat, lo: nat, hi: nat, k: nat)
    requires lo + k < hi && hi * size <= |a|
    ensures lo * size <= hi * size && k * size + size <= hi * size - lo * size
    ensures (lo + k + 1) * size <= |a| && (lo + k) * size <= (lo + k + 1) * size
    ensures a[lo * size..hi * size][k * size..k * size + size] == a[(lo + k) * size..(lo + k + 1) * size]
  {
    OffsetFits(lo, k, hi, size);
    OffsetFits(lo + k, 1, hi, size);
    OffsetFits(lo + k + 1, hi - lo - k - 1, hi, size);
    Slice(a, lo * size, hi * size, k * size, k * size + size);
  }

  /** Moving everything behind slot i down by one slot, in place, deletes element i. */
  lemma ShiftRemoves(a: seq<byte>, b: seq<byte>, size: nat, n: nat, i: nat)
    requires i < n && n * size <= |a| && |b| == |a|
    requires 0 <= i * size <= (n - 1) * size <= |b| && 0 <= (i + 1) * size <= n * size
    requires b[0 * size..i * size] == a[0 * size..i * size]
    requires b[i * size..(n - 1) * size] == a[(i + 1) * size..n * size]
    ensures Elements(b, size, n - 1) == Removed(Elements(a, size, n), i)
  {
    var before, after := Elements(a, size, n), Elements(b, size, n - 1);
    forall k | 0 <= k < n - 1 ensures after[k] == Removed(before, i)[k] {
      ElementAt(b, size, n - 1, k);
      if k < i {
        ElementAt(a, size, n, k);
        SlotOfWindow(a, size, 0, i, k);
        SlotOfWindow(b, size, 0, i, k);
      } else {
        ElementAt(a, size, n, k + 1);
        SlotOfWindow(b, size, i, n - 1, k - i);
        SlotOfWindow(a, size, i + 1, n, k - i);
      }
    }
  }

  lemma SameTail(a: seq<byte>, b: seq<byte>, from: nat, lo: nat, hi: nat)
    requires from <= lo <= hi <= |a| == |b| && a[from..] == b[from..]
    ensures a[lo..hi] == b[lo..hi]
  {
    assert forall k :: lo <= k < hi ==> a[k] == a[from..][k - from] == b[k];
  }

  lemma SlotBehindFirst(a: seq<byte>, b: seq<byte>, size: nat, n: nat, k: nat)
    requires 1 <= k < n && n * size <= |a| == |b| && size <= |a| && b[size..] == a[size..]
    ensures Elements(b, size, n)[k] == Elements(a, size, n)[k]
  {
    ElementAt(b, size, n, k);
    ElementAt(a, size, n, k);
    OffsetFits(1, k - 1, n, size);
    SameTail(a, b, size, k * size, (k + 1) * size);
  }

  /** Overwriting slot 0, in place, replaces the first element. */
  lemma FirstOverwritten(a: seq<byte>, b: seq<byte>, size: nat, n: nat, e: seq<byte>)
    requires 1 <= n && n * size <= |a| && |e| == size <= |a| && b == e + a[size..]
    ensures |b| == |a| && Elements(b, size, n) == [e] + Elements(a, size, n)[1..]
  {
    assert |b| == |a| && b[size..] == a[size..] && b[..size] == e;
    ElementAt(b, size, n, 0);
    assert b[0 * size..(0 + 1) * size] == b[..size];
    forall k | 1 <= k < n ensures Elements(b, size, n)[k] == Elements(a, size, n)[k] {
      SlotBehindFirst(a, b, size, n, k);
    }
    hide Elements;
  }

  /** The slots that memmove leaves behind. */
  lemma Moved(a: seq<byte>, b: seq<byte>, dest: nat, src: nat, n: nat)
    requires dest + n <= |a| && src + n <= |a|
    requires b == a[..dest] + a[src..src + n] + a[dest + n..]
    ensures |b| == |a| && b[..dest] == a[..dest] && b[dest..dest + n] == a[src..src + n]
  {
  }

  /** u_array_remove's memmove deletes element i; its offsets are in bounds. */
  lemma MemMoveRemoves(a: seq<byte>, b: seq<byte>, size: nat, n: nat, i: nat)
    requires i < n && n * size <= |a|
    requires var m := (n - i - 1) * size;
      && 0 <= m && size * i + m <= |a| && size * (i + 1) + m <= |a|
      && b == a[..size * i] + a[size * (i + 1)..size * (i + 1) + m] + a[size * i + m..]
    ensures (n - 1) * size <= |b| == |a|
    ensures Elements(b, size, n - 1) == Removed(Elements(a, size, n), i)
  {
    OffsetFits(i, n - i - 1, n - 1, size);
    OffsetFits(i + 1, n - i - 1, n, size);
    Moved(a, b, size * i, size * (i + 1), (n - i - 1) * size);
    ShiftRemoves(a, b, size, n, i);
  }

  // ---------------------------------------------------------------- memory primitives

  /** memcpy into a buffer. */
  method MemCopyIn(a: array<byte>, at: nat, src: seq<byte>)
    requires at + |src| <= a.Length
    modifies a
    ensures a[..] == old(a[..at]) + src + old(a[at + |src|..])
  {
    forall k | 0 <= k < |src| {
      a[at + k] := src[k];
    }
  }

  /** memmove within a buffer: the ranges may overlap. */
  method MemMove(a: array<byte>, dest: nat, src: nat, n: nat)
    requires dest + n <= a.Length && src + n <= a.Length
    modifies a
    ensures a[..] == old(a[..dest]) + old(a[src..src + n]) + old(a[dest + n..])
  {
    forall k | 0 <= k < n {
      a[dest + k] := a[src + k];
    }
  }

  /** The memcpy of u_array_add. */
  method CopySlot(a: array<byte>, size: nat, length: nat, element: seq<byte>)
    requires |element| == size && length * size <= (length + 1) * size <= a.Length
    modifies a
    ensures Elements(a[..], size, length + 1) == old(Elements(a[..], size, length)) + [element]
  {
    OffsetFits(length, 1, length + 1, size);
    ghost var was := a[..];
    MemCopyIn(a, size * length, element);
    assert a[..][..length * size] == was[..length * size];
    SamePrefix(a[..], was, size, length);
    assert a[..][length * size..(length + 1) * size] == element;
  }

  /** The memmove of u_array_remove. */
  method ShiftDown(a: array<byte>, size: nat, length: nat, i: nat)
    requires i < length && length * size <= a.Length
    modifies a
    ensures (length - 1) * size <= a.Length
    ensures Elements(a[..], size, length - 1) == Removed(old(Elements(a[..], size, length)), i)
  {
    var n := (length - i - 1) * size;
    OffsetFits(i, length - i - 1, length - 1, size);
    OffsetFits(i + 1, length - i - 1, length, size);
    ghost var was := a[..];
    MemMove(a, size * i, size * (i + 1), n);
    MemMoveRemoves(was, a[..], size, length, i);
  }

  // ---------------------------------------------------------------- amortised growth

  /** Capacity and copied elements after one more add to an array of the given length. */
  function Grown(capacity: nat, copied: nat, length: nat): (nat, nat) {
    if length == capacity then (2 * capacity, copied + length) else (capacity, copied)
  }

  /** The same after n adds to an empty array of capacity c. */
  function Growth(c: nat, n: nat): (nat, nat) {
    if n == 0 then (c, 0) else
      var (capacity, copied) := Growth(c, n - 1);
      Grown(capacity, copied, n - 1)
  }

  /** The capacity is c doubled some number of times, never more than max(c, 2n), and all the resizes
      together have copied fewer than 2n elements. */
  lemma {:induction false} GrowthIsAmortised(c: nat, n: nat)
    requires c >= 1
    ensures var (capacity, copied) := Growth(c, n);
      && n <= capacity
      && (capacity == c || capacity < 2 * n)
      && copied + c <= capacity
      && (n >= 1 ==> copied < 2 * n)
      && exists k: nat :: capacity == c * Shift(k)
  {
    if n == 0 {
      assert c == c * Shift(0);
    } else {
      GrowthIsAmortised(c, n - 1);
      var (capacity, copied) := Growth(c, n - 1);
      var k: nat :| capacity == c * Shift(k);
      if n - 1 == capacity {
        Doubled(c, k);
        assert Growth(c, n).0 == c * Shift(k + 1);
      } else {
        assert Growth(c, n).0 == c * Shift(k);
      }
    }
  }

  lemma Doubled(c: nat, k: nat)
    ensures 2 * (c * Shift(k)) == c * Shift(k + 1)
  {
  }

  // ---------------------------------------------------------------- struct u_array

  class UArray {
    var data: array?<byte>   // null once freed
    var size: nat
    var capacity: nat
    var length: nat
    ghost var copied: nat    // elements that resizing has copied so far

    ghost predicate Valid()
      reads this, data
    {
      && 1 <= size && 1 <= capacity && length <= capacity
      && (data != null ==> data.Length == capacity * size && length * size <= data.Length)
    }

    ghost function Contents(): (es: seq<seq<byte>>)
      requires Valid() && data != null
      reads this, data
      ensures |es| == length
    {
      Elements(data[..], size, length)
    }

    /** u_array_init. */
    constructor (elementSize: nat, initial: nat)
      requires elementSize > 0 && initial > 0
      ensures Valid() && data != null && fresh(data)
      ensures Contents() == [] && size == elementSize && capacity == initial && length == 0 && copied == 0
    {
      data := new byte[initial * elementSize](_ => 0);
      size, capacity, length, copied := elementSize, initial, 0, 0;
    }

    /** u_array_resize: realloc moves the bytes to a larger buffer. */
    method Resize(extra: nat)
      requires Valid() && data != null
      modifies this
      ensures Valid() && data != null && fresh(data)
      ensures capacity == old(capacity) + extra && size == old(size) && length == old(length)
      ensures Contents() == old(Contents())
      ensures copied == old(copied) + old(length)
    {
      var was := data;
      OffsetFits(capacity, extra, capacity + extra, size);
      OffsetFits(length, capacity - length, capacity, size);
      data := new byte[(capacity + extra) * size](k requires 0 <= k reads was => if k < was.Length then was[k] else 0);
      capacity := capacity + extra;
      copied := copied + length;
      assert data[..length * size] == was[..length * size];
      assert data[..][..length * size] == was[..][..length * size];
      SamePrefix(data[..], was[..], size, length);
    }

    /** u_array_add: a full array doubles. */
    method Add(element: seq<byte>) returns (ok: bool)
      requires Valid() && |element| == size
      modifies this, data
      ensures Valid() && ok == (old(data) != null) && (data == null) == !ok
      ensures size == old(size) && (data == old(data) || fresh(data))
      ensures ok ==> Contents() == old(if data == null then [] else Contents()) + [element]
      ensures ok ==> (capacity, copied) == Grown(old(capacity), old(copied), old(length))
      ensures !ok ==> length == old(length)
    {
      if data == null {
        return false;
      }
      if length == capacity {
        Resize(capacity);
      }
      OffsetFits(length, 1, capacity, size);
      CopySlot(data, size, length, element);
      length := length + 1;
      ok := true;
    }

    /** u_array_remove: the elements behind slot i move down over it. */
    method Remove(i: nat) returns (ok: bool)
      requires Valid()
      modifies this, data
      ensures Valid() && data == old(data) && size == old(size) && capacity == old(capacity)
      ensures ok == (data != null && i < old(length))
      ensures ok ==> Contents() == Removed(old(if data == null then [] else Contents()), i)
      ensures !ok ==> length == old(length) && (data != null ==> data[..] == old(if data == null then [] else data[..]))
    {
      if data == null || length == 0 || i >= length {
        return false;
      }
      ShiftDown(data, size, length, i);
      length := length - 1;
      ok := true;
    }

    /** u_array_getv. */
    method GetV(i: nat) returns (element: seq<byte>, ok: bool)
      requires Valid()
      ensures ok == (data != null && i < length)
      ensures ok ==> element == Contents()[i]
    {
      if data == null || i >= length {
        return [], false;
      }
      ElementAt(data[..], size, length, i);
      OffsetFits(i, 1, capacity, size);
      var offset := size * i;
      element, ok := data[offset..offset + size], true;
    }

    /** u_array_remove_get. */
    method RemoveGet(i: nat) returns (element: seq<byte>, ok: bool)
      requires Valid()
      modifies this, data
      ensures Valid() && data == old(data) && size == old(size) && capacity == old(capacity)
      ensures ok == (data != null && i < old(length))
      ensures ok ==> element == old(if data == null || i >= length then [] else Contents()[i])
      ensures ok ==> Contents() == Removed(old(if data == null then [] else Contents()), i)
      ensures !ok ==> length == old(length)
    {
      element, ok := GetV(i);
      if ok {
        ok := Remove(i);
      }
    }

    /** u_array_find_index: the first element with the same bytes, or -1. */
    method FindIndex(element: seq<byte>) returns (index: int)
      requires Valid() && |element| == size
      ensures index == if data == null then -1 else IndexOf(Contents(), element)
    {
      if data == null {
        return -1;
      }
      var i := 0;
      while i < length
        invariant i <= length
        invariant element !in Contents()[..i]
      {
        var candidate, _ := GetV(i);
        if candidate == element {
          IndexIsFirst(Contents(), element, i);
          return i;
        }
        i := i + 1;
      }
      return -1;
    }

    /** u_array_free. */
    method Free()
      requires Valid()
      modifies this
      ensures Valid() && data == null
    {
      data := null;
    }
  }

  /** Any number of adds: the contents are the elements in order, and the growth is as computed by Growth. */
  method AddAll(elementSize: nat, initial: nat, elements: seq<seq<byte>>) returns (arr: UArray)
    requires elementSize > 0 && initial > 0
    requires forall e :: e in elements ==> |e| == elementSize
    ensures arr.Valid() && arr.data != null && arr.Contents() == elements
    ensures (arr.capacity, arr.copied) == Growth(initial, |elements|)
    ensures elements != [] ==> arr.copied < 2 * |elements|
  {
    arr := new UArray(elementSize, initial);
    for i := 0 to |elements|
      invariant arr.Valid() && arr.data != null && fresh(arr) && fresh(arr.data) && arr.size == elementSize
      invariant arr.Contents() == elements[..i]
      invariant (arr.capacity, arr.copied) == Growth(initial, i)
    {
      var _ := arr.Add(elements[i]);
    }
    GrowthIsAmortised(initial, |elements|);
  }

  // ---------------------------------------------------------------- struct u_queue

  class UQueue {
    var isEmpty: bool
    const store: UArray

    ghost predicate Valid()
      reads this, store, store.data
    {
      store.Valid() && store.data != null && (isEmpty <==> store.length == 0)
    }

    ghost function Contents(): seq<seq<byte>>
      requires Valid()
      reads this, store, store.data
    {
      store.Contents()
    }

    /** u_queue_init. */
    constructor (elementSize: nat, initial: nat)
      requires elementSize > 0 && initial > 0
      ensures Valid() && fresh(store) && fresh(store.data)
      ensures Contents() == [] && store.size == elementSize
    {
      store := new UArray(elementSize, initial);
      isEmpty := true;
    }

    /** u_queue_push. */
    method Push(element: seq<byte>)
      requires Valid() && |element| == store.size
      modifies this, store, store.data
      ensures Valid() && store.size == old(store.size) && (store.data == old(store.data) || fresh(store.data))
      ensures Contents() == old(Contents()) + [element]
    {
      var _ := store.Add(element);
      isEmpty := false;
    }

    /** u_queue_peek: the front's address, which is the start of the block that holds the elements. */
    method Peek() returns (block: array?<byte>, ok: bool)
      requires Valid()
      ensures ok == (Contents() != [])
      ensures ok ==> block == store.data && store.size <= block.Length && block[..store.size] == Contents()[0]
    {
      if isEmpty {
        return null, false;
      }
      FrontAt();
      block, ok := store.data, true;
    }

    /** The front lies at the start of the block. */
    lemma FrontAt()
      requires Valid() && Contents() != []
      ensures store.size <= store.data.Length && store.data[..store.size] == Contents()[0]
    {
      ElementAt(store.data[..], store.size, store.length, 0);
      assert store.data[..][0 * store.size..(0 + 1) * store.size] == store.data[..store.size];
    }

    /** A write through that address replaces the front, and nothing else. */
    method Poke(block: array<byte>, element: seq<byte>)
      requires Valid() && Contents() != [] && block == store.data && |element| == store.size
      modifies store.data
      ensures Valid() && Contents() == [element] + old(Contents())[1..]
    {
      FrontAt();
      ghost var was := block[..];
      MemCopyIn(block, 0, element);
      assert block[..] == element + was[store.size..];
      FirstOverwritten(was, block[..], store.size, store.length, element);
    }

    /** u_queue_pop. */
    method Pop() returns (element: seq<byte>, ok: bool)
      requires Valid()
      modifies this, store, store.data
      ensures Valid() && store.size == old(store.size) && store.data == old(store.data)
      ensures ok == (old(Contents()) != [])
      ensures ok ==> old(Contents()) == [element] + Contents()
      ensures !ok ==> Contents() == old(Contents())
    {
      if isEmpty {
        return [], false;
      }
      element, ok := store.RemoveGet(0);
      isEmpty := store.length == 0;
    }
  }

  datatype QueueOp = DoPush(element: seq<byte>) | DoPeek | DoPop

  function Pushed(ops: seq<QueueOp>): seq<seq<byte>> {
    if ops == [] then [] else
      Pushed(ops[..|ops| - 1]) + if ops[|ops| - 1].DoPush? then [ops[|ops| - 1].element] else []
  }

  /** Takes everything out of a queue. */
  method Drain(q: UQueue) returns (left: seq<seq<byte>>)
    requires q.Valid()
    modifies q, q.store, q.store.data
    ensures q.Valid() && left == old(q.Contents()) && q.isEmpty
  {
    left := [];
    while !q.isEmpty
      invariant q.Valid() && q.store.data == old(q.store.data)
      invariant left + q.Contents() == old(q.Contents())
      decreases |q.Contents()|
    {
      var head, _ := q.Pop();
      left := left + [head];
    }
  }

  /** Any run of operations on a queue: the popped elements, then what is left, are the pushed elements in order;
      isEmpty tells the truth. */
  method RunQueue(elementSize: nat, initial: nat, ops: seq<QueueOp>)
    returns (popped: seq<seq<byte>>, left: seq<seq<byte>>, isEmpty: bool)
    requires elementSize > 0 && initial > 0
    requires forall op :: op in ops && op.DoPush? ==> |op.element| == elementSize
    ensures popped + left == Pushed(ops)
    ensures isEmpty <==> left == []
  {
    var q := new UQueue(elementSize, initial);
    popped := [];
    for i := 0 to |ops|
      invariant q.Valid() && q.store.size == elementSize && fresh(q) && fresh(q.store) && fresh(q.store.data)
      invariant popped + q.Contents() == Pushed(ops[..i])
    {
      assert ops[..i + 1][..i] == ops[..i];
      if ops[i].DoPush? {
        q.Push(ops[i].element);
      } else if ops[i].DoPeek? {
        var _, _ := q.Peek();
      } else {
        var head, ok := q.Pop();
        popped := if ok then popped + [head] else popped;
      }
    }
    assert ops[..|ops|] == ops;
    isEmpty := q.isEmpty;
    left := Drain(q);
  }
}
