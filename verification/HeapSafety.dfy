/**
 * nc_free and nc_realloc (numaplace/ncalloc.c), and the safety of the allocator over all runs of calls
 * by all threads.
 */
module HeapSafety {
  import opened SizeClasses
  import opened ListMoves
  import opened HeapBlocks
  import opened HeapModel
  import opened HeapInvariant
  import opened HeapRuns

  // ---------------------------------------------------------------- nc_free

  /** The heap in whose memory a block lies. */
  function OwnerFrom(heaps: seq<Heap>, blk: nat, t: nat): (owner: nat)
    requires t <= |heaps|
    ensures t <= owner <= |heaps|
    ensures owner < |heaps| ==> blk in heaps[owner].recs
    ensures owner == |heaps| ==> forall u :: t <= u < |heaps| ==> blk !in heaps[u].recs
    decreases |heaps| - t
  {
    if t == |heaps| || blk in heaps[t].recs then t else OwnerFrom(heaps, blk, t + 1)
  }

  /** The chunk of a buffer, by the header in front of it (lines 626-634). */
  function ChunkOf(s: Process, ptr: nat): int
    requires ptr - HDR_BYTES in s.hdrs
  {
    ptr - HDR_BYTES - s.hdrs[ptr - HDR_BYTES].alignment
  }

  /** What nc_free reads: the block of the header, and in it the thread (lines 626-656). */
  ghost predicate Freeable(s: Process, ptr: nat, t: nat, b: nat, x: nat) {
    && ptr - HDR_BYTES in s.hdrs && s.hdrs[ptr - HDR_BYTES].blk == b
    && ChunkOf(s, ptr) == x && x in s.hdrs
    && OwnerFrom(s.heaps, b, 0) == t < |s.heaps| && s.heaps[t].recs[b].tid == t
    && LiveIn(s.heaps[t], b, x)
  }

  lemma OwnerIs(heaps: seq<Heap>, t: nat, blk: nat)
    requires HeapsOk(heaps) && HeapsApart(heaps) && t < |heaps| && blk in heaps[t].recs
    ensures OwnerFrom(heaps, blk, 0) == t
  {
    var u := OwnerFrom(heaps, blk, 0);
    if u < t {
      BlockHasBytes(heaps, u, blk);
      BlockHasBytes(heaps, t, blk);
      assert false;
    }
  }

  lemma BlockHasBytes(heaps: seq<Heap>, t: nat, blk: nat)
    requires HeapsOk(heaps) && t < |heaps| && blk in heaps[t].recs
    ensures Bytes(heaps[t].recs[blk]) > 0
  {
    assert RecOk(blk, heaps[t].recs[blk], t);
  }

  lemma FindsChunk(s: Process, x: nat)
    requires HeapsOk(s.heaps) && HeapsApart(s.heaps) && BufferOk(s, x)
    ensures Freeable(s, s.bufs[x].ptr, s.bufs[x].tid, s.bufs[x].blk, x)
  {
    var b := s.bufs[x];
    OwnerIs(s.heaps, b.tid, b.blk);
    assert HeapOk(s.heaps[b.tid], b.tid);
    assert RecOk(b.blk, s.heaps[b.tid].recs[b.blk], b.tid);
  }

  /** Whatever thread frees a buffer, memalign or not, nc_free finds its block, its heap and its chunk. */
  lemma FreeFindsChunk(s: Process, x: nat)
    requires ProcessOk(s) && x in s.bufs
    ensures Freeable(s, s.bufs[x].ptr, s.bufs[x].tid, s.bufs[x].blk, x)
  {
    assert BufferOk(s, x);
    FindsChunk(s, x);
  }

  /** Block b has its place in the heap's lists. */
  predicate Placed(h: Heap, b: nat) {
    b in h.recs &&
    if h.recs[b].small then h.recs[b].bin < |h.bins| && b in h.bins[h.recs[b].bin]
    else b in h.used && forall i :: 0 <= i < |h.big| ==> h.big[i] in h.recs
  }

  /** The critical section of nc_free in the owner's heap (lines 636-675). */
  function FreeIn(h: Heap, b: nat, x: nat): Heap
    requires Placed(h, b)
  {
    if h.recs[b].small then FreeSmall(h, b, x) else FreeBig(h, b)
  }

  lemma FreeInOk(h: Heap, tid: nat, b: nat, x: nat)
    requires HeapOk(h, tid) && LiveIn(h, b, x)
    ensures Placed(h, b) && HeapOk(FreeIn(h, b, x), tid) && Loses(h, FreeIn(h, b, x), b, x)
    ensures KeepsRoom(h, FreeIn(h, b, x)) && OnlyNew(h, FreeIn(h, b, x), 0, 0) && StacksGain(h, FreeIn(h, b, x), b, x)
  {
    if h.recs[b].small {
      FreeSmallOk(h, tid, b, x);
      FreeSmallRoom(h, tid, b, x);
      FreeSmallStacks(h, b, x);
    } else {
      FreeBigOk(h, tid, b, x);
      FreeBigRoom(h, tid, b, x);
      FreeBigStacks(h, b, x);
    }
  }

  /** The process after heap t gave up chunk x (line 633, and the critical section). */
  function Freed(s: Process, t: nat, h': Heap, ptr: nat, x: nat): Process
    requires t < |s.heaps|
  {
    var hdrs := if x in s.hdrs && ptr != x + HDR_BYTES then s.hdrs[x := s.hdrs[x].(alignment := 0)] else s.hdrs;
    Process(s.heaps[t := h'], hdrs, s.bufs - {x})
  }

  /** What nc_free follows the pointer to is there. */
  predicate Followed(s: Process, ptr: nat) {
    && ptr - HDR_BYTES in s.hdrs && ChunkOf(s, ptr) >= 0 && ChunkOf(s, ptr) in s.hdrs
    && var b := s.hdrs[ptr - HDR_BYTES].blk;
       var owner := OwnerFrom(s.heaps, b, 0);
       owner < |s.heaps| && s.heaps[owner].recs[b].tid < |s.heaps| && Placed(s.heaps[s.heaps[owner].recs[b].tid], b)
  }

  /** nc_free (lines 613-676); the pointer alone leads to everything it needs. */
  function Free(s: Process, ptr: nat): Process {
    if ptr == 0 || !Followed(s, ptr) then s
    else
    var b := s.hdrs[ptr - HDR_BYTES].blk;
    var t := s.heaps[OwnerFrom(s.heaps, b, 0)].recs[b].tid;
    var chunk := ChunkOf(s, ptr);
    Freed(s, t, FreeIn(s.heaps[t], b, chunk), ptr, chunk)
  }

  /** What the owner's heap does when it takes back chunk x of block b. */
  ghost predicate TakesBack(s: Process, t: nat, h': Heap, b: nat, x: nat) {
    && BufferOk(s, x) && s.bufs[x].tid == t && s.bufs[x].blk == b
    && HeapOk(h', t) && Loses(s.heaps[t], h', b, x) && KeepsRoom(s.heaps[t], h')
    && StacksGain(s.heaps[t], h', b, x)
  }

  lemma FreedOthers(s: Process, t: nat, h': Heap, b: nat, x: nat, ptr: nat, y: nat)
    requires HeapsOk(s.heaps) && HeapsApart(s.heaps) && TakesBack(s, t, h', b, x)
    requires BufferOk(s, y) && y != x
    ensures BufferOk(Freed(s, t, h', ptr, x), y)
  {
    var s' := Freed(s, t, h', ptr, x);
    HeaderElsewhere(s, s.heaps, y, t, b, x);
    ChunkPlace(s.heaps[t], t, b, x);
    FreedStays(s, t, h', b, x, ptr, y);
  }

  lemma FreedStays(s: Process, t: nat, h': Heap, b: nat, x: nat, ptr: nat, y: nat)
    requires TakesBack(s, t, h', b, x)
    requires BufferOk(s, y) && y != x && s.bufs[y].ptr - HDR_BYTES != x
    ensures BufferOk(Freed(s, t, h', ptr, x), y)
  {
    var s' := Freed(s, t, h', ptr, x);
    if s.bufs[y].tid == t {
      assert LiveIn(h', s.bufs[y].blk, y);
    }
    BufferStays(s, s', y);
  }

  lemma FreedLeaks(s: Process, t: nat, h': Heap, b: nat, x: nat, ptr: nat)
    requires NoLeaks(s) && TakesBack(s, t, h', b, x)
    ensures NoLeaks(Freed(s, t, h', ptr, x))
  {
    var s' := Freed(s, t, h', ptr, x);
    forall u, c, y | 0 <= u < |s'.heaps| && LiveIn(s'.heaps[u], c, y) ensures y in s'.bufs && s'.bufs[y].tid == u
        && s'.bufs[y].blk == c {
      assert LiveIn(s.heaps[u], c, y);
      assert y in s.bufs && s.bufs[y].tid == u && s.bufs[y].blk == c;
    }
  }

  /**
   * The freed chunk is on a stack now, with the header that the next owner needs: line 633 has reset it after memalign.
   */
  lemma FreedReady(s: Process, t: nat, h': Heap, b: nat, x: nat, ptr: nat)
    requires HeadersReady(s) && TakesBack(s, t, h', b, x) && ptr == s.bufs[x].ptr && OffStacks(s.heaps, x, x + 1)
    ensures HeadersReady(Freed(s, t, h', ptr, x))
  {
    var s' := Freed(s, t, h', ptr, x);
    assert s'.hdrs[x] == Hdr(b, 0);
    forall u, c: nat, y: nat | 0 <= u < |s'.heaps| && Stacked(s'.heaps[u], c, y)
        ensures y in s'.hdrs && s'.hdrs[y] == Hdr(c, 0) {
      assert Stacked(s.heaps[u], c, y) || (c == b && y == x);
    }
  }

  lemma FreedKeeps(s: Process, t: nat, h': Heap, b: nat, x: nat, ptr: nat)
    requires ProcessOk(s) && TakesBack(s, t, h', b, x) && HeapsApart(s.heaps[t := h']) && ptr == s.bufs[x].ptr
    ensures ProcessOk(Freed(s, t, h', ptr, x))
  {
    var s' := Freed(s, t, h', ptr, x);
    FreedLeaks(s, t, h', b, x, ptr);
    LiveOffStacks(s.heaps, t, b, x);
    FreedReady(s, t, h', b, x, ptr);
    forall y | y in s'.bufs ensures BufferOk(s', y) {
      assert BufferOk(s, y);
      FreedOthers(s, t, h', b, x, ptr, y);
    }
  }

  lemma OwnerTakesBack(s: Process, x: nat, b: Buffer)
    requires HeapsOk(s.heaps) && HeapsApart(s.heaps) && BufferOk(s, x) && b == s.bufs[x]
    ensures b.tid < |s.heaps| && Placed(s.heaps[b.tid], b.blk)
    ensures TakesBack(s, b.tid, FreeIn(s.heaps[b.tid], b.blk, x), b.blk, x)
    ensures HeapsApart(s.heaps[b.tid := FreeIn(s.heaps[b.tid], b.blk, x)])
  {
    assert HeapOk(s.heaps[b.tid], b.tid);
    FreeInOk(s.heaps[b.tid], b.tid, b.blk, x);
    StillApart(s.heaps, b.tid, FreeIn(s.heaps[b.tid], b.blk, x), 0, 0);
  }

  lemma FreeIs(s: Process, x: nat, b: Buffer)
    requires Freeable(s, b.ptr, b.tid, b.blk, x) && Placed(s.heaps[b.tid], b.blk)
    ensures Followed(s, b.ptr)
    ensures Free(s, b.ptr) == Freed(s, b.tid, FreeIn(s.heaps[b.tid], b.blk, x), b.ptr, x)
  {
  }

  lemma OwnerKeeps(s: Process, x: nat, b: Buffer)
    requires ProcessOk(s) && x in s.bufs && b == s.bufs[x] && BufferOk(s, x)
    ensures b.tid < |s.heaps| && Placed(s.heaps[b.tid], b.blk)
    ensures ProcessOk(Freed(s, b.tid, FreeIn(s.heaps[b.tid], b.blk, x), b.ptr, x))
  {
    OwnerTakesBack(s, x, b);
    var h' := FreeIn(s.heaps[b.tid], b.blk, x);
    FreedKeeps(s, b.tid, h', b.blk, x, b.ptr);
  }

  /**
   * Free takes back exactly the chunk of the buffer, in its owner's heap, and resets the header that memalign marked.
   */
  lemma FreeKeeps(s: Process, x: nat, b: Buffer)
    requires ProcessOk(s) && x in s.bufs && b == s.bufs[x]
    ensures Followed(s, b.ptr)
    ensures ProcessOk(Free(s, b.ptr)) && Free(s, b.ptr).bufs == s.bufs - {x}
    ensures b.ptr != x + HDR_BYTES ==> x in Free(s, b.ptr).hdrs && Free(s, b.ptr).hdrs[x] == Hdr(b.blk, 0)
  {
    assert BufferOk(s, x);
    OwnerKeeps(s, x, b);
    FreeFindsChunk(s, x);
    FreeIs(s, x, b);
  }

  // ---------------------------------------------------------------- nc_realloc

  /** The record that a pointer leads to. */
  function RecordOf(s: Process, ptr: nat): Rec
    requires Followed(s, ptr)
  {
    var b := s.hdrs[ptr - HDR_BYTES].blk;
    s.heaps[OwnerFrom(s.heaps, b, 0)].recs[b]
  }

  /** The buffer keeps its chunk and now has newsize bytes. */
  function Resized(s: Process, x: nat, newsize: nat): Process {
    if x in s.bufs then s.(bufs := s.bufs[x := s.bufs[x].(size := newsize)]) else s
  }

  /** nc_realloc by thread t (lines 679-710). */
  function Realloc(s: Process, t: nat, ptr: nat, newsize: nat, newbase: nat): Served
    requires t < |s.heaps| && |s.heaps[t].bins| == BINCNT && (ptr != 0 ==> Followed(s, ptr))
  {
    if ptr == 0 then Malloc(s, t, newsize, newbase)
    else if newsize > OldSize(RecordOf(s, ptr)) then
      var m := Malloc(s, t, newsize, newbase);
      Served(Free(m.s, ptr), m.ptr)
    else Served(Resized(s, ChunkOf(s, ptr), newsize), ptr)
  }

  /** The block's record of a held buffer. */
  predicate HasRecord(s: Process, b: Buffer) { b.tid < |s.heaps| && b.blk in s.heaps[b.tid].recs }

  /** With newsize bytes the buffer would still be inside the space of its chunk. */
  predicate Fits(s: Process, x: nat, b: Buffer, newsize: nat)
    requires HasRecord(s, b)
  {
    b.ptr + newsize <= ChunkEnd(b.blk, s.heaps[b.tid].recs[b.blk], x)
  }

  lemma HeldInside(s: Process, x: nat, b: Buffer)
    requires ProcessOk(s) && x in s.bufs && b == s.bufs[x]
    ensures HasRecord(s, b) && LiveIn(s.heaps[b.tid], b.blk, x) && HeapOk(s.heaps[b.tid], b.tid)
    ensures x + HDR_BYTES <= b.ptr && b.ptr + b.size <= ChunkEnd(b.blk, s.heaps[b.tid].recs[b.blk], x)
    ensures b.size <= OldSize(s.heaps[b.tid].recs[b.blk])
  {
    assert BufferOk(s, x);
  }

  lemma OwnBytes(h: Heap, tid: nat, b: nat, x: nat, p: nat, n: nat)
    requires HeapOk(h, tid) && LiveIn(h, b, x) && x <= p <= ChunkEnd(b, h.recs[b], x)
    ensures p + n <= ChunkEnd(b, h.recs[b], x) <==> forall a: int :: p <= a < p + n ==> !Foreign(b, h.recs[b], x, a)
  {
    var r := h.recs[b];
    ChunkPlace(h, tid, b, x);
    forall a: int | x <= a < ChunkEnd(b, r, x) ensures !Foreign(b, r, x, a) {
      if r.small { SpaceIsOwn(b, r, x, a); }
    }
    assert Foreign(b, r, x, ChunkEnd(b, r, x)) by {
      if r.small { EndIsForeign(b, r, x); }
    }
  }

  /**
   * A buffer can have newsize bytes where it is exactly when it ends before the next chunk of its block, the lowest
   * free pointer or the end of a big block: that is when no byte of it is another chunk's, a free pointer's or outside.
   */
  lemma InPlaceIff(s: Process, x: nat, b: Buffer, newsize: nat)
    requires ProcessOk(s) && x in s.bufs && b == s.bufs[x]
    ensures HasRecord(s, b)
    ensures Fits(s, x, b, newsize) <==> forall a: int :: b.ptr <= a < b.ptr + newsize ==>
            !Foreign(b.blk, s.heaps[b.tid].recs[b.blk], x, a)
  {
    HeldInside(s, x, b);
    OwnBytes(s.heaps[b.tid], b.tid, b.blk, x, b.ptr, newsize);
  }

  /** The buffer starts at its chunk's front, and the block's size is what its chunks are really apart. */
  predicate Plain(s: Process, x: nat, b: Buffer)
    requires HasRecord(s, b)
  {
    var r := s.heaps[b.tid].recs[b.blk];
    b.ptr == x + HDR_BYTES && (r.small && r.bin == 24 ==> r.size == 64 * 1024)
  }

  lemma PlainRoom(h: Heap, tid: nat, b: nat, x: nat)
    requires HeapOk(h, tid) && LiveIn(h, b, x)
    requires (h.recs[b].small && h.recs[b].bin == 24 ==> h.recs[b].size == 64 * 1024)
    ensures x + HDR_BYTES + OldSize(h.recs[b]) <= ChunkEnd(b, h.recs[b], x)
  {
    var r := h.recs[b];
    if r.small {
      InItsBin(h, tid, b, x);
      ChunkSpace(b, r, x);
      StepBounds(r.bin, r.size);
      if r.bin == 24 { LargeRooms(24); }
    }
  }

  /**
   * Every size that nc_realloc accepts in place fits, unless the buffer is from memalign or its block from a request of
   * 64 KiB.
   */
  lemma PlainFits(s: Process, x: nat, b: Buffer, newsize: nat)
    requires ProcessOk(s) && x in s.bufs && b == s.bufs[x]
    ensures HasRecord(s, b)
    ensures Plain(s, x, b) && newsize <= OldSize(s.heaps[b.tid].recs[b.blk]) ==> Fits(s, x, b, newsize)
  {
    HeldInside(s, x, b);
    if Plain(s, x, b) { PlainRoom(s.heaps[b.tid], b.tid, b.blk, x); }
  }

  lemma ResizedOk(s: Process, x: nat, b: Buffer, newsize: nat)
    requires BufferOk(s, x) && b == s.bufs[x] && Fits(s, x, b, newsize)
    requires newsize <= OldSize(s.heaps[b.tid].recs[b.blk])
    ensures OwnHeaders(s, Resized(s, x, newsize), x) && BufferOk(Resized(s, x, newsize), x)
  {
  }

  /** A buffer is well formed in its chunk, with its new size, if and only if that size fits. */
  lemma ResizedIff(s: Process, x: nat, b: Buffer, newsize: nat)
    requires ProcessOk(s) && x in s.bufs && b == s.bufs[x]
    requires HasRecord(s, b) && newsize <= OldSize(s.heaps[b.tid].recs[b.blk])
    ensures ProcessOk(Resized(s, x, newsize)) <==> Fits(s, x, b, newsize)
  {
    assert BufferOk(s, x);
    if Fits(s, x, b, newsize) {
      ResizedOk(s, x, b, newsize);
      OwnHeadersKeep(s, Resized(s, x, newsize), x);
    } else {
      ResizedBad(s, Resized(s, x, newsize), x, b, newsize);
    }
  }

  /**
   * What nc_realloc does in place keeps the process well formed if and only if no byte of the buffer is then another
   * chunk's, a free pointer's or outside.
   */
  lemma InPlaceExact(s: Process, x: nat, b: Buffer, newsize: nat)
    requires ProcessOk(s) && x in s.bufs && b == s.bufs[x]
    requires HasRecord(s, b) && newsize <= OldSize(s.heaps[b.tid].recs[b.blk])
    ensures ProcessOk(Resized(s, x, newsize)) <==>
            forall a: int :: b.ptr <= a < b.ptr + newsize ==> !Foreign(b.blk, s.heaps[b.tid].recs[b.blk], x, a)
  {
    ResizedIff(s, x, b, newsize);
    InPlaceIff(s, x, b, newsize);
  }

  lemma ResizedBad(s: Process, s': Process, x: nat, b: Buffer, newsize: nat)
    requires BufferOk(s, x) && b == s.bufs[x] && !Fits(s, x, b, newsize) && s' == Resized(s, x, newsize)
    ensures x in s'.bufs && !BufferOk(s', x)
  {
  }

  /** The record that a held buffer's pointer leads to is its block's. */
  lemma RecordIs(s: Process, x: nat, b: Buffer)
    requires Freeable(s, b.ptr, b.tid, b.blk, x) && Placed(s.heaps[b.tid], b.blk)
    ensures Followed(s, b.ptr) && ChunkOf(s, b.ptr) == x
    ensures RecordOf(s, b.ptr) == s.heaps[b.tid].recs[b.blk]
  {
  }

  lemma HeldIsFreeable(s: Process, x: nat, b: Buffer)
    requires ProcessOk(s) && x in s.bufs && b == s.bufs[x]
    ensures Freeable(s, b.ptr, b.tid, b.blk, x) && Placed(s.heaps[b.tid], b.blk) && b.ptr != 0 && BufferOk(s, x)
  {
    assert BufferOk(s, x);
    FreeFindsChunk(s, x);
    OwnerTakesBack(s, x, b);
  }

  /** Instead of the buffer in chunk x there is one in chunk y, of the new size; nothing else is held or given up. */
  ghost predicate Replaced(s: Process, s': Process, x: nat, y: nat, ptr: nat, newsize: nat) {
    && y in s'.bufs && s'.bufs[y].ptr == ptr && s'.bufs[y].size == newsize
    && (y == x || y !in s.bufs) && s'.bufs.Keys == s.bufs.Keys - {x} + {y} && SameBuffers(s, s', x)
  }

  lemma MoveKeeps(s: Process, m: Process, t: nat, x: nat, b: Buffer, y: nat, ptr: nat, newsize: nat)
    requires x in s.bufs && b == s.bufs[x] && ProcessOk(m) && NewBuffer(s, m, t, y, ptr, newsize) && x in m.bufs
    requires m.bufs[x] == b
    ensures ProcessOk(Free(m, b.ptr)) && Replaced(s, Free(m, b.ptr), x, y, ptr, newsize)
  {
    FreeKeeps(m, x, b);
    NewForOld(s, m, Free(m, b.ptr), t, x, y, ptr, newsize);
  }

  lemma NewForOld(s: Process, m: Process, s': Process, t: nat, x: nat, y: nat, ptr: nat, newsize: nat)
    requires x in s.bufs && NewBuffer(s, m, t, y, ptr, newsize) && s'.bufs == m.bufs - {x}
    ensures Replaced(s, s', x, y, ptr, newsize)
  {
    assert m.bufs.Keys - {x} == s.bufs.Keys - {x} + {y};
    forall z | z in s.bufs && z != x ensures SameBuffer(s, s', z) {
      assert SameBuffer(s, m, z);
    }
  }

  lemma ReallocMoves(s: Process, t: nat, x: nat, b: Buffer, newsize: nat, g: Granted, m: Served)
    requires CanServe(s, t, newsize, g) && x in s.bufs && b == s.bufs[x] && m == Serve(s, t, newsize, g)
    ensures ProcessOk(Free(m.s, b.ptr)) && Replaced(s, Free(m.s, b.ptr), x, g.hdr, m.ptr, newsize)
    ensures g.hdr !in s.bufs
  {
    ServeKeeps(s, t, newsize, g);
    MoveKeeps(s, m.s, t, x, b, g.hdr, m.ptr, newsize);
  }

  lemma ReallocStays(s: Process, x: nat, b: Buffer, newsize: nat)
    requires ProcessOk(s) && x in s.bufs && b == s.bufs[x] && HasRecord(s, b)
    requires newsize <= OldSize(s.heaps[b.tid].recs[b.blk]) && Fits(s, x, b, newsize)
    ensures ProcessOk(Resized(s, x, newsize)) && Replaced(s, Resized(s, x, newsize), x, x, b.ptr, newsize)
  {
    ResizedIff(s, x, b, newsize);
    OneResized(s, x, b, newsize);
  }

  lemma OneResized(s: Process, x: nat, b: Buffer, newsize: nat)
    requires x in s.bufs && b == s.bufs[x]
    ensures Replaced(s, Resized(s, x, newsize), x, x, b.ptr, newsize)
  {
    assert Resized(s, x, newsize).bufs.Keys == s.bufs.Keys - {x} + {x};
  }

  /** The two ways of nc_realloc, once the pointer has led to the record r. */
  lemma ReallocIs(s: Process, t: nat, x: nat, b: Buffer, r: Rec, newsize: nat, newbase: nat)
    requires Freeable(s, b.ptr, b.tid, b.blk, x) && Placed(s.heaps[b.tid], b.blk) && b.ptr != 0
    requires r == s.heaps[b.tid].recs[b.blk]
    requires t < |s.heaps| && |s.heaps[t].bins| == BINCNT
    ensures Followed(s, b.ptr)
    ensures newsize > OldSize(r) ==>
              var m := Serve(s, t, newsize, MallocIn(s.heaps[t], t, newsize, newbase));
              Realloc(s, t, b.ptr, newsize, newbase) == Served(Free(m.s, b.ptr), m.ptr)
    ensures newsize <= OldSize(r) ==> Realloc(s, t, b.ptr, newsize, newbase) == Served(Resized(s, x, newsize), b.ptr)
  {
    RecordIs(s, x, b);
  }

  /**
   * Realloc gives a buffer of the new size and frees the old one, or keeps it; the process stays well formed. In place
   * that needs the condition of InPlaceIff.
   */
  lemma ReallocKeeps(s: Process, t: nat, x: nat, b: Buffer, newsize: nat, newbase: nat)
    requires ProcessOk(s) && t < |s.heaps| && x in s.bufs && b == s.bufs[x]
    requires AllFresh(s.heaps, newbase, MapBytes(newsize))
    requires HasRecord(s, b) && (newsize > OldSize(s.heaps[b.tid].recs[b.blk]) || Fits(s, x, b, newsize))
    ensures Followed(s, b.ptr) && |s.heaps[t].bins| == BINCNT
    ensures var m := Realloc(s, t, b.ptr, newsize, newbase);
            ProcessOk(m.s) && Reallocated(s, m, x, b, newsize)
  {
    HeldIsFreeable(s, x, b);
    assert HeapOk(s.heaps[t], t);
    ReallocIs(s, t, x, b, s.heaps[b.tid].recs[b.blk], newsize, newbase);
    if newsize > OldSize(s.heaps[b.tid].recs[b.blk]) {
      MallocCanServe(s, t, newsize, newbase);
      MoveIs(s, t, x, b, newsize, MallocIn(s.heaps[t], t, newsize, newbase));
    } else {
      StayIs(s, x, b, newsize);
    }
  }

  /** A larger size than the chunk's moves the buffer to a chunk that nobody held; any other size leaves it in place. */
  ghost predicate Reallocated(s: Process, m: Served, x: nat, b: Buffer, newsize: nat)
    requires HasRecord(s, b)
  {
    if newsize > OldSize(s.heaps[b.tid].recs[b.blk])
    then exists y :: y !in s.bufs && Replaced(s, m.s, x, y, m.ptr, newsize)
    else m.ptr == b.ptr && Replaced(s, m.s, x, x, m.ptr, newsize)
  }

  lemma MoveIs(s: Process, t: nat, x: nat, b: Buffer, newsize: nat, g: Granted)
    requires CanServe(s, t, newsize, g) && x in s.bufs && b == s.bufs[x] && HasRecord(s, b)
    requires newsize > OldSize(s.heaps[b.tid].recs[b.blk])
    ensures var m := Serve(s, t, newsize, g);
            ProcessOk(Free(m.s, b.ptr)) && Reallocated(s, Served(Free(m.s, b.ptr), m.ptr), x, b, newsize)
  {
    ReallocMoves(s, t, x, b, newsize, g, Serve(s, t, newsize, g));
  }

  lemma StayIs(s: Process, x: nat, b: Buffer, newsize: nat)
    requires ProcessOk(s) && x in s.bufs && b == s.bufs[x] && HasRecord(s, b)
    requires newsize <= OldSize(s.heaps[b.tid].recs[b.blk]) && Fits(s, x, b, newsize)
    ensures ProcessOk(Resized(s, x, newsize)) && Reallocated(s, Served(Resized(s, x, newsize), b.ptr), x, b, newsize)
  {
    ReallocStays(s, x, b, newsize);
  }

  /** Realloc of a null pointer is malloc: a new buffer, and all others as they were. */
  lemma ReallocNullKeeps(s: Process, t: nat, newsize: nat, newbase: nat)
    requires ProcessOk(s) && t < |s.heaps| && AllFresh(s.heaps, newbase, MapBytes(newsize))
    ensures |s.heaps[t].bins| == BINCNT
    ensures var m := Realloc(s, t, 0, newsize, newbase);
            ProcessOk(m.s) && GoodPointer(m.ptr) && exists x :: NewBuffer(s, m.s, t, x, m.ptr, newsize)
  {
    assert HeapOk(s.heaps[t], t);
    MallocKeeps(s, t, newsize, newbase);
  }

  /** Free of a null pointer changes nothing. */
  lemma FreeNull(s: Process)
    ensures Free(s, 0) == s
  {
  }
}
