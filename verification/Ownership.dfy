/** Who owns which stream: epoll's stream_ptrs, the relay context's relay_streams, and what is allocated. */
module Ownership {
  import opened Base
  import opened ByteStore

  datatype FdType = FdUsock | FdRelay | FdIsock | FdPeer | FdUdev | FdDev

  /** A stream's address. */
  type Ptr = U64

  /** The two pointer arrays and the streams that are allocated, with their types. */
  datatype Owners = Owners(streamPtrs: seq<Ptr>, relayStreams: seq<Ptr>, live: map<Ptr, FdType>)

  predicate NoDuplicates(s: seq<Ptr>) {
    forall i, j :: 0 <= i < j < |s| ==> s[i] != s[j]
  }

  /** Both arrays are free of duplicates; stream_ptrs holds exactly the allocated streams, and relay_streams
      exactly the relays among them. */
  ghost predicate Owned(o: Owners) {
    && NoDuplicates(o.streamPtrs) && NoDuplicates(o.relayStreams)
    && (forall p :: p in o.streamPtrs <==> p in o.live)
    && (forall p :: p in o.relayStreams <==> p in o.live && o.live[p] == FdRelay)
  }

  // ---------------------------------------------------------------- operations

  /** u_array_find_index, then u_array_remove; an absent pointer changes nothing. */
  function Without(s: seq<Ptr>, p: Ptr): seq<Ptr> {
    if IndexOf(s, p) < 0 then s else Removed(s, IndexOf(s, p))
  }

  /** e_epoll_add_getr, given the address that calloc returns. */
  function Added(o: Owners, p: Ptr, t: FdType): Owners {
    o.(streamPtrs := o.streamPtrs + [p], live := o.live[p := t])
  }

  /** accept_usock. */
  function Accepted(o: Owners, p: Ptr): Owners {
    var o' := Added(o, p, FdRelay);
    o'.(relayStreams := o'.relayStreams + [p])
  }

  /** e_epoll_close_remove_simple; None when stream_ptrs does not hold the stream. */
  function Freed(o: Owners, p: Ptr): Option<Owners> {
    if p !in o.streamPtrs then None
    else Some(o.(streamPtrs := Without(o.streamPtrs, p), live := o.live - {p}))
  }

  /** e_epoll_close_remove of a stream of a type that it accepts; the result of r_close_relay is ignored. */
  function Closed(o: Owners, p: Ptr): Option<Owners>
    requires p in o.live
  {
    if o.live[p] == FdRelay then Freed(o.(relayStreams := Without(o.relayStreams, p)), p)
    else if o.live[p] in {FdPeer, FdDev} then Freed(o, p)
    else None
  }

  // ---------------------------------------------------------------- what they keep

  lemma WithoutRemoves(s: seq<Ptr>, p: Ptr)
    requires NoDuplicates(s)
    ensures NoDuplicates(Without(s, p))
    ensures forall q :: q in Without(s, p) <==> q in s && q != p
    ensures p in s ==> |Without(s, p)| == |s| - 1
  {
    var k := IndexOf(s, p);
    if k >= 0 {
      var s' := Without(s, p);
      forall i | 0 <= i < |s'| ensures s'[i] == (if i < k then s[i] else s[i + 1]) && s'[i] != p {}
      forall q | q in s && q != p ensures q in s' {
        var i :| 0 <= i < |s| && s[i] == q;
        assert s'[if i < k then i else i - 1] == q;
      }
    }
  }

  lemma AddKeepsOwned(o: Owners, p: Ptr, t: FdType)
    requires Owned(o) && p !in o.live
    ensures t != FdRelay ==> Owned(Added(o, p, t))
    ensures Owned(Accepted(o, p))
  {
    var a := Accepted(o, p);
    forall q ensures q in a.relayStreams <==> q in a.live && a.live[q] == FdRelay {}
  }

  /** Closing a relay takes it out of both arrays and frees it, once, and touches no other stream. */
  lemma CloseKeepsOwned(o: Owners, p: Ptr)
    requires Owned(o) && p in o.live && o.live[p] in {FdRelay, FdPeer, FdDev}
    ensures Closed(o, p).Some? && Owned(Closed(o, p).value)
    ensures var o' := Closed(o, p).value;
      && p !in o'.streamPtrs && p !in o'.relayStreams && p !in o'.live
      && |o'.streamPtrs| == |o.streamPtrs| - 1
      && (o.live[p] == FdRelay ==> |o'.relayStreams| == |o.relayStreams| - 1)
      && (forall q :: q != p ==> (q in o'.live <==> q in o.live) && (q in o.live ==> o'.live[q] == o.live[q]))
  {
    WithoutRemoves(o.streamPtrs, p);
    WithoutRemoves(o.relayStreams, p);
  }

  /** Freeing any other stream takes it out of stream_ptrs and touches nothing else. */
  lemma FreeKeepsOwned(o: Owners, p: Ptr)
    requires Owned(o) && p in o.live && o.live[p] != FdRelay
    ensures Freed(o, p).Some? && Owned(Freed(o, p).value)
    ensures Freed(o, p).value.relayStreams == o.relayStreams && Freed(o, p).value.live == o.live - {p}
    ensures |Freed(o, p).value.streamPtrs| == |o.streamPtrs| - 1
  {
    WithoutRemoves(o.streamPtrs, p);
  }

  // ---------------------------------------------------------------- runs

  /** Close is e_epoll_close_remove, CloseSimple e_epoll_close_remove_simple. */
  datatype Op = Add(p: Ptr, t: FdType) | AcceptRelay(p: Ptr) | Close(p: Ptr) | CloseSimple(p: Ptr)

  /** calloc returns an address that is not in use; the loop closes only streams that it has been given. */
  predicate Sensible(o: Owners, op: Op) {
    match op
    case Add(p, t) => p !in o.live && t != FdRelay
    case AcceptRelay(p) => p !in o.live
    case Close(p) => p in o.live && o.live[p] in {FdRelay, FdPeer, FdDev}
    case CloseSimple(p) => p in o.live && o.live[p] != FdRelay
  }

  function Perform(o: Owners, op: Op): Option<Owners>
    requires Sensible(o, op)
  {
    match op
    case Add(p, t) => Some(Added(o, p, t))
    case AcceptRelay(p) => Some(Accepted(o, p))
    case Close(p) => Closed(o, p)
    case CloseSimple(p) => Freed(o, p)
  }

  predicate Performs(o: Owners, ops: seq<Op>, o': Owners)
    decreases |ops|
  {
    if ops == [] then o == o' else
      Sensible(o, ops[0]) && Perform(o, ops[0]).Some? && Performs(Perform(o, ops[0]).value, ops[1..], o')
  }

  /** How often the run puts p into relay_streams, and how often it takes it out. */
  function Accepts(ops: seq<Op>, p: Ptr): nat {
    if ops == [] then 0 else (if ops[0] == AcceptRelay(p) then 1 else 0) + Accepts(ops[1..], p)
  }

  function Closes(o: Owners, ops: seq<Op>, p: Ptr): nat
    decreases |ops|
  {
    if ops == [] || !Sensible(o, ops[0]) || Perform(o, ops[0]).None? then 0 else
      (if ops[0] == Close(p) && o.live[p] == FdRelay then 1 else 0) + Closes(Perform(o, ops[0]).value, ops[1..], p)
  }

  /** One operation succeeds, keeps ownership, and changes p's place in relay_streams as it is counted. */
  lemma PerformCounts(o: Owners, op: Op, p: Ptr)
    requires Owned(o) && Sensible(o, op)
    ensures Perform(o, op).Some? && Owned(Perform(o, op).value)
    ensures (if p in o.relayStreams then 1 else 0) + (if op == AcceptRelay(p) then 1 else 0)
         == (if p in Perform(o, op).value.relayStreams then 1 else 0)
            + (if op == Close(p) && o.live[p] == FdRelay then 1 else 0)
  {
    match op
    case Add(q, t) => AddKeepsOwned(o, q, t);
    case AcceptRelay(q) => AddKeepsOwned(o, q, FdRelay);
    case Close(q) =>
      CloseKeepsOwned(o, q);
      WithoutRemoves(o.relayStreams, q);
    case CloseSimple(q) => FreeKeepsOwned(o, q);
  }

  /** Over any run of accepts, other registrations and closes, ownership holds, nothing fails, and each relay has
      been accepted as often as it has been closed, once more while it is open. */
  lemma {:induction false} RunKeepsOwned(o: Owners, ops: seq<Op>, o': Owners, p: Ptr)
    requires Owned(o) && Performs(o, ops, o')
    ensures Owned(o')
    ensures (if p in o.relayStreams then 1 else 0) + Accepts(ops, p)
         == (if p in o'.relayStreams then 1 else 0) + Closes(o, ops, p)
    decreases |ops|
  {
    hide Owned, Perform;
    if ops != [] {
      PerformCounts(o, ops[0], p);
      RunKeepsOwned(Perform(o, ops[0]).value, ops[1..], o', p);
    }
  }

  /** The cleanup after a normal end of the loop (can_exit) finds no relay: none is allocated any more. */
  lemma ExitLeavesNoRelays(o: Owners)
    requires Owned(o) && |o.relayStreams| == 0
    ensures forall p :: p in o.live ==> o.live[p] != FdRelay
    ensures forall p :: p in o.streamPtrs ==> o.live[p] != FdRelay
  {
    forall p | p in o.live ensures o.live[p] != FdRelay {
      assert p !in o.relayStreams;
    }
  }

  // ---------------------------------------------------------------- the arrays

  const POINTER_SIZE: nat := 8

  function Bytes(p: Ptr): (b: seq<byte>)
    ensures |b| == POINTER_SIZE
  {
    LittleEndian(p, POINTER_SIZE)
  }

  predicate AllPointers(es: seq<seq<byte>>) {
    forall i :: 0 <= i < |es| ==> |es[i]| == POINTER_SIZE
  }

  function Ptrs(es: seq<seq<byte>>): (ps: seq<Ptr>)
    requires AllPointers(es)
    ensures |ps| == |es|
  {
    Powers();
    seq(|es|, i requires 0 <= i < |es| => Value(es[i]))
  }

  lemma PtrsAppend(es: seq<seq<byte>>, p: Ptr)
    requires AllPointers(es)
    ensures AllPointers(es + [Bytes(p)]) && Ptrs(es + [Bytes(p)]) == Ptrs(es) + [p]
  {
    Powers();
    ValueOfLittleEndian(p, POINTER_SIZE);
  }

  lemma PtrsRemoved(es: seq<seq<byte>>, i: nat)
    requires AllPointers(es) && i < |es|
    ensures AllPointers(Removed(es, i)) && Ptrs(Removed(es, i)) == Removed(Ptrs(es), i)
  {
  }

  /** Comparing the bytes of two pointers compares the pointers. */
  lemma {:induction false} FindsPointer(es: seq<seq<byte>>, p: Ptr)
    requires AllPointers(es)
    ensures IndexOf(es, Bytes(p)) == IndexOf(Ptrs(es), p)
  {
    Powers();
    ValueOfLittleEndian(p, POINTER_SIZE);
    forall i | 0 <= i < |es| ensures es[i] == Bytes(p) <==> Ptrs(es)[i] == p {
      LittleEndianOfValue(es[i]);
    }
    var k := IndexOf(es, Bytes(p));
    if k >= 0 {
      IndexIsFirst(Ptrs(es), p, k);
    }
  }

  class StreamRegistry {
    const streamPtrs: UArray
    const relayStreams: UArray
    var live: map<Ptr, FdType>   // what calloc has handed out and not got back

    ghost predicate Valid()
      reads this, streamPtrs, streamPtrs.data, relayStreams, relayStreams.data
    {
      && streamPtrs != relayStreams && streamPtrs.data != relayStreams.data
      && streamPtrs.Valid() && streamPtrs.data != null && streamPtrs.size == POINTER_SIZE
      && relayStreams.Valid() && relayStreams.data != null && relayStreams.size == POINTER_SIZE
      && AllPointers(streamPtrs.Contents()) && AllPointers(relayStreams.Contents())
    }

    ghost function State(): Owners
      requires Valid()
      reads this, streamPtrs, streamPtrs.data, relayStreams, relayStreams.data
    {
      Owners(Ptrs(streamPtrs.Contents()), Ptrs(relayStreams.Contents()), live)
    }

    constructor ()
      ensures Valid() && State() == Owners([], [], map[]) && Owned(State())
      ensures fresh(streamPtrs) && fresh(streamPtrs.data) && fresh(relayStreams) && fresh(relayStreams.data)
    {
      streamPtrs := new UArray(POINTER_SIZE, STD_CAPACITY);
      relayStreams := new UArray(POINTER_SIZE, STD_CAPACITY);
      live := map[];
    }

    /** e_epoll_add_getr; `address` is what calloc returns. */
    method AddGetr(address: Ptr, t: FdType)
      requires Valid() && address !in live
      modifies `live, streamPtrs, streamPtrs.data
      ensures Valid() && State() == Added(old(State()), address, t)
      ensures streamPtrs.data == old(streamPtrs.data) || fresh(streamPtrs.data)
    {
      live := live[address := t];
      PtrsAppend(streamPtrs.Contents(), address);
      var _ := streamPtrs.Add(Bytes(address));
    }

    /** accept_usock. */
    method AcceptUsock(address: Ptr)
      requires Valid() && Owned(State()) && address !in live
      modifies `live, streamPtrs, streamPtrs.data, relayStreams, relayStreams.data
      ensures Valid() && State() == Accepted(old(State()), address) && Owned(State())
    {
      AddKeepsOwned(State(), address, FdRelay);
      AddGetr(address, FdRelay);
      PtrsAppend(relayStreams.Contents(), address);
      var _ := relayStreams.Add(Bytes(address));
    }

    /** r_close_relay. */
    method CloseRelay(p: Ptr) returns (ok: bool)
      requires Valid()
      modifies relayStreams, relayStreams.data
      ensures Valid() && State() == old(State()).(relayStreams := Without(old(State()).relayStreams, p))
      ensures ok == (p in old(State()).relayStreams)
    {
      FindsPointer(relayStreams.Contents(), p);
      var index := relayStreams.FindIndex(Bytes(p));
      if index == -1 {
        return false;
      }
      PtrsRemoved(relayStreams.Contents(), index);
      ok := relayStreams.Remove(index);
    }

    /** e_epoll_close_remove_simple. */
    method CloseRemoveSimple(p: Ptr) returns (ok: bool)
      requires Valid()
      modifies `live, streamPtrs, streamPtrs.data
      ensures Valid() && ok == Freed(old(State()), p).Some?
      ensures State() == if ok then Freed(old(State()), p).value else old(State())
      ensures streamPtrs.data == old(streamPtrs.data)
    {
      FindsPointer(streamPtrs.Contents(), p);
      var index := streamPtrs.FindIndex(Bytes(p));
      if index == -1 {
        return false;
      }
      PtrsRemoved(streamPtrs.Contents(), index);
      ok := streamPtrs.Remove(index);
      live := live - {p};
    }

    /** e_epoll_close_remove: an error for a stream of any other type, which stays as it is. */
    method CloseRemove(p: Ptr) returns (ok: bool)
      requires Valid() && Owned(State()) && p in live
      modifies `live, streamPtrs, streamPtrs.data, relayStreams, relayStreams.data
      ensures Valid() && Owned(State()) && ok == (old(live[p]) in {FdRelay, FdPeer, FdDev})
      ensures Closed(old(State()), p) == if ok then Some(State()) else None
      ensures !ok ==> State() == old(State())
    {
      match live[p] {
        case FdRelay =>
          CloseKeepsOwned(State(), p);
          var _ := CloseRelay(p);
        case FdDev => CloseKeepsOwned(State(), p);
        case FdPeer => CloseKeepsOwned(State(), p);
        case _ => return false;
      }
      ok := CloseRemoveSimple(p);
    }

    /** e_close_epoll_ctx, at the end of a daemon that has no relays left: every stream is freed, once, and the arrays
        are empty. */
    method CloseEpollCtx() returns (ok: bool)
      requires Valid() && Owned(State()) && State().relayStreams == []
      modifies `live, streamPtrs, streamPtrs.data
      ensures ok && Valid() && State() == Owners([], [], map[])
    {
      ok := true;
      while ok && streamPtrs.length > 0
        invariant Valid() && Owned(State()) && State().relayStreams == [] && ok
        invariant streamPtrs.data == old(streamPtrs.data)
        decreases streamPtrs.length
      {
        var first, _ := streamPtrs.GetV(0);
        Powers();
        var p: Ptr := Value(first);
        assert p == State().streamPtrs[0];
        FreeKeepsOwned(State(), p);
        ok := CloseRemoveSimple(p);
      }
    }
  }
}
