/**
 * What the small allocator of numaplace/ncalloc.c takes from the system and what it gives back (lines 258-323,
 * 408-477): memory is mapped only when nothing else is left, and what was freed last is used first.
 */
module HeapReuse {
  import opened SizeClasses
  import opened ListMoves
  import opened HeapBlocks
  import opened HeapModel
  import opened HeapInvariant
  import opened HeapRuns
  import opened HeapSafety
  import opened HeapTheorems

  /** Block b has a chunk for a request of the bin. */
  predicate HasChunk(h: Heap, bin: nat, b: nat) {
    b in h.recs && h.recs[b].small && !Idle(h.recs[b]) && h.recs[b].bin == bin && !Full(h.recs[b])
  }

  /** An unused block that the heap has kept. */
  predicate Kept(h: Heap, b: nat) { b in h.recs && Idle(h.recs[b]) }

  /** The heap has the same memory as before. */
  predicate SameMemory(h: Heap, h': Heap) { h'.recs.Keys == h.recs.Keys && h'.mapped == h.mapped }

  lemma HeadOf(h: Heap, tid: nat, bin: nat)
    requires HeapOk(h, tid) && bin < BINCNT && h.bins[bin] != []
    ensures h.bins[bin][0] in h.recs && (!Full(h.recs[h.bins[bin][0]]) ==> HasChunk(h, bin, h.bins[bin][0]))
  {
    assert BinOk(h.recs, h.bins[bin], bin);
    assert InBin(h.recs, h.bins[bin][0], bin);
  }

  /** When some block of the bin has a chunk, the head has one. */
  lemma HeadServes(h: Heap, tid: nat, bin: nat, b: nat)
    requires HeapOk(h, tid) && bin < BINCNT && HasChunk(h, bin, b)
    ensures h.bins[bin] != [] && HasChunk(h, bin, h.bins[bin][0])
  {
    assert Listed(h, b);
    HeadOf(h, tid, bin);
    HeadDecides(h, tid, bin);
  }

  lemma KeptIsCached(h: Heap, tid: nat, b: nat)
    requires HeapOk(h, tid)
    ensures Kept(h, b) <==> b in h.cache
  {
    if b in h.recs { assert Listed(h, b); }
  }

  /** How a request of the bin is served. */
  ghost predicate ServedBest(h: Heap, g: Granted, bin: nat, newbase: nat) {
    && ((exists b :: HasChunk(h, bin, b)) ==> HasChunk(h, bin, g.blk) && SameMemory(h, g.heap))
    && ((forall b :: !HasChunk(h, bin, b)) && (exists b :: Kept(h, b)) ==> Kept(h, g.blk) && SameMemory(h, g.heap))
    && ((forall b :: !HasChunk(h, bin, b) && !Kept(h, b)) ==>
          g.blk == newbase && g.heap.recs.Keys == h.recs.Keys + {newbase} && g.heap.mapped == h.mapped + BLKSIZE)
  }

  lemma HeadIsBest(h: Heap, tid: nat, bin: nat, binsize: nat, newbase: nat)
    requires HeapOk(h, tid) && bin < BINCNT && h.bins[bin] != [] && HasChunk(h, bin, h.bins[bin][0])
    ensures ServedBest(h, MallocFromHead(h, bin, binsize), bin, newbase)
  {
    var g := MallocFromHead(h, bin, binsize);
    assert g.heap.recs.Keys == h.recs.Keys;
  }

  lemma BlockIsBest(h: Heap, tid: nat, bin: nat, binsize: nat, newbase: nat)
    requires HeapOk(h, tid) && bin < BINCNT && forall b :: !HasChunk(h, bin, b)
    ensures ServedBest(h, MallocFromBlock(h, tid, bin, binsize, newbase), bin, newbase)
  {
    var g := MallocFromBlock(h, tid, bin, binsize, newbase);
    forall b ensures Kept(h, b) <==> b in h.cache {
      KeptIsCached(h, tid, b);
    }
    if h.cache != [] {
      assert h.cache[0] in h.cache;
      assert g.heap.recs.Keys == h.recs.Keys;
    } else {
      assert g.heap.recs.Keys == h.recs.Keys + {newbase};
    }
  }

  /**
   * A small request is served by a block that has a chunk of its bin, if there is one; if there is none, by an unused
   * block that was kept; and only if there is no such block either, a new one is mapped.
   */
  lemma MapsOnlyWhenNeeded(h: Heap, tid: nat, size: nat, newbase: nat)
    requires HeapOk(h, tid) && size <= SMALL_MAX
    ensures ServedBest(h, MallocSmall(h, tid, size, newbase), BinOf(size + HDR_BYTES), newbase)
  {
    var bin := BinOf(size + HDR_BYTES);
    var binsize := ChunkSize(size + HDR_BYTES, bin);
    ClassIsGood(size + HDR_BYTES, bin);
    if b :| HasChunk(h, bin, b) {
      HeadServes(h, tid, bin, b);
      HeadIsBest(h, tid, bin, binsize, newbase);
    } else {
      if h.bins[bin] != [] { HeadOf(h, tid, bin); }
      BlockIsBest(h, tid, bin, binsize, newbase);
    }
  }

  /** x is the only chunk of its block that is held, and no chunk of the block is still to be carved. */
  predicate IsLast(r: Rec, x: nat) { LiveChunks(r) == {x} && RestCount(r) == 0 }

  lemma LastCounts(b: nat, r: Rec, x: nat)
    requires BlockOk(b, r) && Live(r, x)
    ensures IsLast(r, x) <==> FreeCount(r) + 1 == r.cnt
    ensures FreeCount(r) + 1 <= r.cnt
  {
    ChunksConserved(b, r);
    assert x in LiveChunks(r);
    if |LiveChunks(r)| == 1 {
      OnlyOne(LiveChunks(r), x);
    }
    if LiveChunks(r) != {x} {
      assert LiveChunks(r) - {x} != {};
      assert |LiveChunks(r) - {x}| == |LiveChunks(r)| - 1;
    }
  }

  lemma OnlyOne(s: set<nat>, x: nat)
    requires x in s && |s| == 1
    ensures s == {x}
  {
    assert |s - {x}| == 0;
  }

  /**
   * Freeing a small chunk unmaps nothing, unless it was the last one of its block and 64 unused blocks are kept
   * already: then exactly this block goes. A block whose last chunk was freed is kept as unused.
   */
  lemma UnmapsOnlySurplus(h: Heap, tid: nat, b: nat, x: nat)
    requires HeapOk(h, tid) && LiveIn(h, b, x) && h.recs[b].small
    ensures h.recs[b].bin < BINCNT && b in h.bins[h.recs[b].bin]
    ensures var h' := FreeSmall(h, b, x);
            && (IsLast(h.recs[b], x) && |h.cache| == PAGE_BLK_MAP_TRESH ==>
                  h'.recs == h.recs - {b} && h'.mapped == h.mapped - BLKSIZE)
            && (!IsLast(h.recs[b], x) || |h.cache| < PAGE_BLK_MAP_TRESH ==> SameMemory(h, h'))
            && (IsLast(h.recs[b], x) && |h.cache| < PAGE_BLK_MAP_TRESH ==> Kept(h', b))
            && (!IsLast(h.recs[b], x) ==> HasChunk(h', h.recs[b].bin, b))
  {
    InItsBin(h, tid, b, x);
    LastCounts(b, h.recs[b], x);
    var h' := FreeSmall(h, b, x);
    if SameMemory(h, h') { assert h'.recs.Keys == h.recs.Keys; }
  }

  /**
   * The next request of the same bin is served by the block that a chunk was freed in, and by this very chunk if no
   * chunk of the block is still to be carved.
   */
  lemma FreedIsTakenNext(h: Heap, tid: nat, b: nat, x: nat, size: nat, newbase: nat)
    requires HeapOk(h, tid) && LiveIn(h, b, x) && h.recs[b].small && !IsLast(h.recs[b], x)
    requires size <= SMALL_MAX && BinOf(size + HDR_BYTES) == h.recs[b].bin
    ensures h.recs[b].bin < BINCNT && b in h.bins[h.recs[b].bin] && |FreeSmall(h, b, x).bins| == BINCNT
    ensures var g := MallocSmall(FreeSmall(h, b, x), tid, size, newbase);
            g.blk == b && (RestCount(h.recs[b]) == 0 ==> g.hdr == x && !g.written)
  {
    InItsBin(h, tid, b, x);
    LastCounts(b, h.recs[b], x);
  }

  /** A block that became unused last is the first to be used again, for any bin that has no chunk. */
  lemma UnusedIsTakenNext(h: Heap, tid: nat, b: nat, x: nat, bin: nat, size: nat, newbase: nat)
    requires HeapOk(h, tid) && LiveIn(h, b, x) && h.recs[b].small && IsLast(h.recs[b], x)
    requires |h.cache| < PAGE_BLK_MAP_TRESH && size <= SMALL_MAX && bin == BinOf(size + HDR_BYTES)
    ensures h.recs[b].bin < BINCNT && b in h.bins[h.recs[b].bin] && |FreeSmall(h, b, x).bins| == BINCNT
    ensures var h' := FreeSmall(h, b, x);
            (forall c :: !HasChunk(h', bin, c)) ==> MallocSmall(h', tid, size, newbase).blk == b
  {
    InItsBin(h, tid, b, x);
    LastCounts(b, h.recs[b], x);
    FreeSmallOk(h, tid, b, x);
    ClassIsGood(size + HDR_BYTES, bin);
    var h' := FreeSmall(h, b, x);
    if h'.bins[bin] != [] { HeadOf(h', tid, bin); }
  }

  // ---------------------------------------------------------------- which block serves a request

  /** Block b is of the kind that a request of so many bytes asks for: the least bin that is large enough, or big. */
  ghost predicate RightKind(h: Heap, b: nat, size: nat) {
    b in h.recs && if size <= SMALL_MAX then h.recs[b].small && LeastBin(size + HDR_BYTES, h.recs[b].bin)
                   else !h.recs[b].small
  }

  lemma MallocRightKind(h: Heap, tid: nat, size: nat, newbase: nat, g: Granted)
    requires HeapOk(h, tid) && Fresh(h, newbase, MapBytes(size)) && g == MallocIn(h, tid, size, newbase)
    ensures RightKind(g.heap, g.blk, size)
  {
    if size <= SMALL_MAX {
      MallocSmallOk(h, tid, size, newbase);
    } else {
      var f := FirstFit(h.recs, h.big, size + BLK_BYTES + HDR_BYTES);
      FreshIsNew(h, tid, newbase, MapBytes(size));
    }
  }

  /** The blocks of the buffers that thread t got are of the kind that so many bytes ask for. */
  ghost predicate ServedRight(s: Process, s': Process, t: nat, size: nat) {
    t < |s'.heaps| && forall x :: x in s'.bufs && x !in s.bufs ==> RightKind(s'.heaps[t], s'.bufs[x].blk, size)
  }

  lemma ServeRight(s: Process, t: nat, size: nat, all: nat, g: Granted)
    requires t < |s.heaps| && RightKind(g.heap, g.blk, size)
    ensures ServedRight(s, Serve(s, t, all, g).s, t, size)
  {
  }

  lemma ShiftRight(s: Process, m: Process, t: nat, x: nat, alignment: nat, size: nat, all: nat)
    requires x in m.bufs && alignment > 0 && ServedRight(s, m, t, all)
    ensures ServedRight(s, Shifted(m, x, alignment, size).s, t, all)
  {
  }

  /** Malloc looks for the size asked for. */
  lemma MallocServesRight(s: Process, t: nat, size: nat, newbase: nat)
    requires ProcessOk(s) && t < |s.heaps| && AllFresh(s.heaps, newbase, MapBytes(size))
    ensures |s.heaps[t].bins| == BINCNT && ServedRight(s, Malloc(s, t, size, newbase).s, t, size)
  {
    BinsThere(s, t);
    assert HeapOk(s.heaps[t], t);
    var g := MallocIn(s.heaps[t], t, size, newbase);
    MallocRightKind(s.heaps[t], t, size, newbase, g);
    ServeRight(s, t, size, size, g);
  }

  lemma MemalignInRight(s: Process, t: nat, alignment: nat, size: nat, all: nat, g: Granted)
    requires t < |s.heaps| && PowerOfTwo(alignment) && all == AlignedSize(alignment, size)
    requires RightKind(g.heap, g.blk, all)
    ensures ServedRight(s, MemalignIn(s, t, alignment, size, g).s, t, all)
  {
    ServeRight(s, t, all, all, g);
    if alignment > 16 { ShiftRight(s, Serve(s, t, all, g).s, t, g.hdr, alignment, size, all); }
  }

  /** Memalign does too, up to an alignment of 16; beyond it looks for as many bytes more as the alignment. */
  lemma MemalignServesRight(s: Process, t: nat, alignment: nat, size: nat, newbase: nat, all: nat)
    requires ProcessOk(s) && t < |s.heaps| && PowerOfTwo(alignment)
    requires all == (if alignment <= 16 then size else alignment + size) && AllFresh(s.heaps, newbase, MapBytes(all))
    ensures |s.heaps[t].bins| == BINCNT && ServedRight(s, Memalign(s, t, alignment, size, newbase).s, t, all)
  {
    BinsThere(s, t);
    assert HeapOk(s.heaps[t], t);
    var g := MallocIn(s.heaps[t], t, all, newbase);
    MallocRightKind(s.heaps[t], t, all, newbase, g);
    MemalignInRight(s, t, alignment, size, all, g);
  }
}
