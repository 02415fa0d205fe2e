/**
 * The whole allocator (numaplace/ncalloc.c): one heap for each thread, the headers in front of the
 * buffers, and the buffers that callers hold. Runs are sequences of calls by any threads; a buffer
 * may be freed by a thread that did not allocate it.
 */
module HeapRuns {
  import opened SizeClasses
  import opened ListMoves
  import opened HeapBlocks
  import opened HeapModel
  import opened HeapInvariant

  const MAX_THREADS := 4096

  /** hdr_t: the owning block, and how far memalign moved the buffer. */
  datatype Hdr = Hdr(blk: nat, alignment: nat)

  /** A buffer that a caller holds: the block and thread it came from, its address and the bytes asked for. */
  datatype Buffer = Buffer(tid: nat, blk: nat, ptr: nat, size: nat)

  /** hdrs are the headers in memory by address; bufs the held buffers, by the header address of their chunks. */
  datatype Process = Process(heaps: seq<Heap>, hdrs: map<nat, Hdr>, bufs: map<nat, Buffer>)

  // ---------------------------------------------------------------- the invariant

  /** The bytes from the header of chunk x of block b on that belong to the chunk. */
  function Capacity(b: nat, r: Rec, x: nat): int { ChunkEnd(b, r, x) - x }

  /** What nc_realloc takes for the size of a buffer in a block (lines 691-694). */
  function OldSize(r: Rec): int { r.size - HDR_BYTES - (if r.small then 0 else BLK_BYTES) }

  ghost predicate HeapsOk(heaps: seq<Heap>) {
    forall t :: 0 <= t < |heaps| ==> HeapOk(heaps[t], t)
  }

  predicate Clear(b: nat, n: int, c: nat, m: int) { b + n <= c || c + m <= b }

  /** No two heaps own the same memory. */
  ghost predicate HeapsApart(heaps: seq<Heap>) {
    forall t, u, b, c :: 0 <= t < u < |heaps| && b in heaps[t].recs && c in heaps[u].recs ==>
      Clear(b, Bytes(heaps[t].recs[b]), c, Bytes(heaps[u].recs[c]))
  }

  /** A buffer lies in its chunk, behind a header that leads back to the chunk. */
  ghost predicate BufferOk(s: Process, x: nat) {
    x in s.bufs &&
    var b := s.bufs[x];
    && b.tid < |s.heaps| && LiveIn(s.heaps[b.tid], b.blk, x)
    && x in s.hdrs && s.hdrs[x].blk == b.blk
    && b.ptr >= x + HDR_BYTES && b.ptr % 16 == 0
    && b.ptr - HDR_BYTES in s.hdrs && s.hdrs[b.ptr - HDR_BYTES] == Hdr(b.blk, b.ptr - HDR_BYTES - x)
    && b.ptr + b.size <= ChunkEnd(b.blk, s.heaps[b.tid].recs[b.blk], x) && b.size <= OldSize(s.heaps[b.tid].recs[b.blk])
  }

  /** Every chunk that a heap counts as held belongs to a buffer. */
  ghost predicate NoLeaks(s: Process) {
    forall t, b, x :: 0 <= t < |s.heaps| && LiveIn(s.heaps[t], b, x) ==>
      x in s.bufs && s.bufs[x].tid == t && s.bufs[x].blk == b
  }

  /** A chunk on a free stack has the header that it will be handed out with. */
  ghost predicate HeadersReady(s: Process) {
    forall t, b: nat, x: nat {:trigger Stacked(s.heaps[t], b, x)} ::
      0 <= t < |s.heaps| && Stacked(s.heaps[t], b, x) ==> x in s.hdrs && s.hdrs[x] == Hdr(b, 0)
  }

  ghost predicate ProcessOk(s: Process) {
    && HeapsOk(s.heaps)
    && HeapsApart(s.heaps)
    && (forall x :: x in s.bufs ==> BufferOk(s, x))
    && NoLeaks(s)
    && HeadersReady(s)
  }

  // ---------------------------------------------------------------- safety

  lemma SmallChunkPlace(b: nat, r: Rec, x: nat)
    requires BlockOk(b, r) && x in r.starts
    ensures b + BLK_BYTES <= x && x % 16 == 0 && x + 16 <= ChunkEnd(b, r, x)
    ensures ChunkEnd(b, r, x) + PTR_BYTES * FreeCount(r) <= b + BLKSIZE
  {
    ChunkSpace(b, r, x);
    StepBounds(r.bin, r.size);
  }

  lemma BigChunkPlace(b: nat, r: Rec, tid: nat)
    requires RecOk(b, r, tid) && !r.small
    ensures (b + BLK_BYTES) % 16 == 0 && b + BLK_BYTES + 16 <= ChunkEnd(b, r, b + BLK_BYTES) == b + r.size
  {
    assert r.size == BLKSIZE * (r.size / BLKSIZE);
    Sum16(16 * (256 * (b / PAGE)), BLK_BYTES);
  }

  /** A chunk lies in its block, behind the block's header and clear of the free-pointer stack in use. */
  lemma ChunkPlace(h: Heap, tid: nat, b: nat, x: nat)
    requires HeapOk(h, tid) && LiveIn(h, b, x)
    ensures h.recs[b].small ==> BlockOk(b, h.recs[b])
    ensures b + BLK_BYTES <= x && x % 16 == 0 && x + 16 <= ChunkEnd(b, h.recs[b], x)
    ensures ChunkEnd(b, h.recs[b], x) + (if h.recs[b].small then PTR_BYTES * FreeCount(h.recs[b]) else 0)
            <= b + Bytes(h.recs[b])
  {
    if h.recs[b].small {
      InItsBin(h, tid, b, x);
      SmallChunkPlace(b, h.recs[b], x);
    } else {
      assert RecOk(b, h.recs[b], tid);
      BigChunkPlace(b, h.recs[b], tid);
    }
  }

  /** Two chunks held from one heap do not overlap. */
  lemma ChunksClear(h: Heap, tid: nat, b: nat, x: nat, c: nat, y: nat)
    requires HeapOk(h, tid) && LiveIn(h, b, x) && LiveIn(h, c, y) && (b != c || x != y)
    ensures Clear(x, Capacity(b, h.recs[b], x), y, Capacity(c, h.recs[c], y))
  {
    ChunkPlace(h, tid, b, x);
    ChunkPlace(h, tid, c, y);
    if b == c && h.recs[b].small {
      SpacesApart(b, h.recs[b], x, y);
    }
  }

  /** Two chunks held in a process do not overlap, whatever heaps they are from. */
  lemma AllChunksClear(heaps: seq<Heap>, t: nat, b: nat, x: nat, u: nat, c: nat, y: nat)
    requires HeapsOk(heaps) && HeapsApart(heaps) && t < |heaps| && u < |heaps|
    requires LiveIn(heaps[t], b, x) && LiveIn(heaps[u], c, y) && (t != u || b != c || x != y)
    ensures Clear(x, Capacity(b, heaps[t].recs[b], x), y, Capacity(c, heaps[u].recs[c], y))
  {
    if t == u {
      ChunksClear(heaps[t], t, b, x, c, y);
    } else {
      ChunkPlace(heaps[t], t, b, x);
      ChunkPlace(heaps[u], u, c, y);
      assert Clear(b, Bytes(heaps[t].recs[b]), c, Bytes(heaps[u].recs[c])) by {
        if u < t { assert Clear(c, Bytes(heaps[u].recs[c]), b, Bytes(heaps[t].recs[b])); }
      }
    }
  }

  lemma StackedInside(h: Heap, tid: nat, b: nat, y: nat)
    requires HeapOk(h, tid) && Stacked(h, b, y)
    ensures BlockOk(b, h.recs[b]) && y in h.recs[b].starts && b <= y < b + Bytes(h.recs[b])
  {
    StackedPlace(h, tid, b, y);
    SmallChunkPlace(b, h.recs[b], y);
  }

  lemma StackedClearHere(h: Heap, tid: nat, b: nat, x: nat, c: nat, y: nat)
    requires HeapOk(h, tid) && LiveIn(h, b, x) && Stacked(h, c, y)
    ensures !(x <= y < ChunkEnd(b, h.recs[b], x))
  {
    ChunkPlace(h, tid, b, x);
    StackedInside(h, tid, c, y);
    if b == c {
      SpacesApart(b, h.recs[b], x, y);
      SmallChunkPlace(c, h.recs[c], y);
    }
  }

  /** The space of a held chunk has no header of a chunk on a stack. */
  lemma StackedClear(heaps: seq<Heap>, t: nat, b: nat, x: nat, u: nat, c: nat, y: nat)
    requires HeapsOk(heaps) && HeapsApart(heaps) && t < |heaps| && u < |heaps|
    requires LiveIn(heaps[t], b, x) && Stacked(heaps[u], c, y)
    ensures !(x <= y < ChunkEnd(b, heaps[t].recs[b], x))
  {
    if t == u {
      StackedClearHere(heaps[t], t, b, x, c, y);
    } else {
      ChunkPlace(heaps[t], t, b, x);
      StackedInside(heaps[u], u, c, y);
      assert Clear(b, Bytes(heaps[t].recs[b]), c, Bytes(heaps[u].recs[c])) by {
        if u < t { assert Clear(c, Bytes(heaps[u].recs[c]), b, Bytes(heaps[t].recs[b])); }
      }
    }
  }

  /**
   * Held buffers do not overlap each other, nor each other's headers; they are aligned and as long as was asked for.
   */
  lemma BuffersDisjoint(s: Process, x: nat, y: nat)
    requires ProcessOk(s) && x in s.bufs && y in s.bufs && x != y
    ensures s.bufs[x].ptr % 16 == 0 && s.bufs[x].ptr >= HDR_BYTES && s.bufs[y].ptr >= HDR_BYTES
    ensures Clear(s.bufs[x].ptr - HDR_BYTES, HDR_BYTES + s.bufs[x].size, s.bufs[y].ptr - HDR_BYTES,
            HDR_BYTES + s.bufs[y].size)
  {
    assert BufferOk(s, x) && BufferOk(s, y);
    AllChunksClear(s.heaps, s.bufs[x].tid, s.bufs[x].blk, x, s.bufs[y].tid, s.bufs[y].blk, y);
  }

  /** A held buffer lies in its block, behind the block's header, and before the free-pointer stack in use. */
  lemma BufferInBlock(s: Process, x: nat)
    requires ProcessOk(s) && x in s.bufs
    ensures var b := s.bufs[x];
            && b.tid < |s.heaps| && b.blk in s.heaps[b.tid].recs
            && var r := s.heaps[b.tid].recs[b.blk];
               && b.blk + BLK_BYTES + HDR_BYTES <= b.ptr
               && b.ptr + b.size + (if r.small then PTR_BYTES * FreeCount(r) else 0) <= b.blk + Bytes(r)
  {
    assert BufferOk(s, x);
    ChunkPlace(s.heaps[s.bufs[x].tid], s.bufs[x].tid, s.bufs[x].blk, x);
  }

  // ---------------------------------------------------------------- one heap changes

  ghost predicate AllFresh(heaps: seq<Heap>, newbase: nat, bytes: nat) {
    forall t :: 0 <= t < |heaps| ==> Fresh(heaps[t], newbase, bytes)
  }

  lemma StillApart(heaps: seq<Heap>, t: nat, h': Heap, newbase: nat, bytes: nat)
    requires HeapsApart(heaps) && t < |heaps| && OnlyNew(heaps[t], h', newbase, bytes)
    requires newbase in h'.recs && newbase !in heaps[t].recs ==> AllFresh(heaps, newbase, bytes)
    ensures HeapsApart(heaps[t := h'])
  {
    var heaps' := heaps[t := h'];
    forall i, j, b, c | 0 <= i < j < |heaps'| && b in heaps'[i].recs && c in heaps'[j].recs
      ensures Clear(b, Bytes(heaps'[i].recs[b]), c, Bytes(heaps'[j].recs[c])) {
      if i == t {
        if b !in heaps[t].recs { assert Fresh(heaps[j], newbase, bytes); }
      } else if j == t {
        if c !in heaps[t].recs { assert Fresh(heaps[i], newbase, bytes); }
      }
    }
  }

  /** Chunk x of block b has the same space, in a block of the same size. */
  predicate SameSpace(b: nat, r: Rec, r': Rec, x: nat) {
    ChunkEnd(b, r', x) == ChunkEnd(b, r, x) && OldSize(r') == OldSize(r)
  }

  /** A chunk that stays held keeps its space. */
  ghost predicate KeepsRoom(h: Heap, h': Heap) {
    forall b, x :: LiveIn(h, b, x) && LiveIn(h', b, x) ==> SameSpace(b, h.recs[b], h'.recs[b], x)
  }

  lemma MallocHeadRoom(h: Heap, bin: nat, binsize: nat)
    requires bin < |h.bins| && h.bins[bin] != [] && h.bins[bin][0] in h.recs && !Full(h.recs[h.bins[bin][0]])
    ensures KeepsRoom(h, MallocFromHead(h, bin, binsize).heap)
  {
    var b := h.bins[bin][0];
    forall x | x in h.recs[b].starts ensures SameSpace(b, h.recs[b], Take(h.recs[b], binsize), x) {
      TakeSpace(b, h.recs[b], binsize, x);
    }
  }

  lemma MallocBlockRoom(h: Heap, tid: nat, bin: nat, binsize: nat, newbase: nat)
    requires HeapOk(h, tid) && bin < BINCNT && (h.cache == [] ==> Fresh(h, newbase, BLKSIZE))
    ensures KeepsRoom(h, MallocFromBlock(h, tid, bin, binsize, newbase).heap)
  {
    if h.cache == [] { FreshIsNew(h, tid, newbase, BLKSIZE); }
    assert h.cache != [] ==> h.cache[0] in h.recs && Idle(h.recs[h.cache[0]]);
  }

  lemma MallocSmallRoom(h: Heap, tid: nat, size: nat, newbase: nat)
    requires HeapOk(h, tid) && size <= SMALL_MAX && Fresh(h, newbase, BLKSIZE)
    ensures KeepsRoom(h, MallocSmall(h, tid, size, newbase).heap)
  {
    var bin := BinOf(size + HDR_BYTES);
    var binsize := ChunkSize(size + HDR_BYTES, bin);
    MallocBlockRoom(h, tid, bin, binsize, newbase);
    if h.bins[bin] != [] && h.bins[bin][0] in h.recs && !Full(h.recs[h.bins[bin][0]]) {
      MallocHeadRoom(h, bin, binsize);
    }
  }

  lemma MallocBigRoom(h: Heap, tid: nat, size: nat, newbase: nat)
    requires HeapOk(h, tid) && Fresh(h, newbase, RoundUp(size + BLK_BYTES + HDR_BYTES))
    ensures KeepsRoom(h, MallocBig(h, tid, size, newbase).heap)
  {
    FreshIsNew(h, tid, newbase, RoundUp(size + BLK_BYTES + HDR_BYTES));
  }

  lemma FreeSmallRoom(h: Heap, tid: nat, b: nat, x: nat)
    requires HeapOk(h, tid) && LiveIn(h, b, x) && h.recs[b].small
    requires h.recs[b].bin < BINCNT && b in h.bins[h.recs[b].bin]
    ensures KeepsRoom(h, FreeSmall(h, b, x)) && OnlyNew(h, FreeSmall(h, b, x), 0, 0)
  {
    FreeSmallRecs(h, b, x);
    OneRecordGiven(h, FreeSmall(h, b, x), b, x);
  }

  /** Freeing rewrites one record, or drops it. */
  lemma FreeSmallRecs(h: Heap, b: nat, x: nat)
    requires b in h.recs && h.recs[b].bin < |h.bins| && b in h.bins[h.recs[b].bin]
    ensures var h' := FreeSmall(h, b, x);
            h'.used == h.used
                && (h'.recs == h.recs[b := Give(h.recs[b], x)] || h'.recs == h.recs[b := Emptied(h.recs[b])]
                    || h'.recs == h.recs - {b})
  {
  }

  lemma OneRecordGiven(h: Heap, h': Heap, b: nat, x: nat)
    requires b in h.recs && h.recs[b].small && h'.used == h.used
    requires h'.recs == h.recs[b := Give(h.recs[b], x)] || h'.recs == h.recs[b := Emptied(h.recs[b])]
             || h'.recs == h.recs - {b}
    ensures KeepsRoom(h, h') && OnlyNew(h, h', 0, 0)
  {
  }

  lemma FreeBigRoom(h: Heap, tid: nat, b: nat, x: nat)
    requires HeapOk(h, tid) && LiveIn(h, b, x) && !h.recs[b].small
    requires b in h.used && (forall i :: 0 <= i < |h.big| ==> h.big[i] in h.recs)
    ensures KeepsRoom(h, FreeBig(h, b)) && OnlyNew(h, FreeBig(h, b), 0, 0)
  {
  }

  // ---------------------------------------------------------------- nc_malloc

  /** The memory that an allocation may map. */
  function MapBytes(size: nat): nat { if size <= SMALL_MAX then BLKSIZE else RoundUp(size + BLK_BYTES + HDR_BYTES) }

  /** Which allocator serves a request (lines 553-558). */
  function MallocIn(h: Heap, tid: nat, size: nat, newbase: nat): Granted
    requires |h.bins| == BINCNT
  {
    if size <= SMALL_MAX then MallocSmall(h, tid, size, newbase) else MallocBig(h, tid, size, newbase)
  }

  /**
   * What an allocation gives: a chunk that nobody held, with room for the header and the request; if its header is not
   * written, the chunk was on a stack.
   */
  ghost predicate Grants(h: Heap, tid: nat, g: Granted, size: nat) {
    && HeapOk(g.heap, tid) && Gains(h, g.heap, g.blk, g.hdr) && KeepsRoom(h, g.heap)
    && StacksShrink(h, g.heap) && (!g.written ==> Stacked(h, g.blk, g.hdr))
    && g.blk in g.heap.recs && Capacity(g.blk, g.heap.recs[g.blk], g.hdr) >= size + HDR_BYTES
    && OldSize(g.heap.recs[g.blk]) >= size
  }

  /** The chunk that nc_malloc_small gives has the room of its bin. */
  lemma SmallRoomEnough(h: Heap, tid: nat, b: nat, x: nat, size0: nat)
    requires HeapOk(h, tid) && LiveIn(h, b, x) && h.recs[b].small && 16 <= size0 <= SIZE0_MAX
    requires h.recs[b].bin == BinOf(size0)
    ensures Capacity(b, h.recs[b], x) >= size0 && OldSize(h.recs[b]) >= size0 - HDR_BYTES
  {
    InItsBin(h, tid, b, x);
    StepBounds(h.recs[b].bin, h.recs[b].size);
    ChunkSpace(b, h.recs[b], x);
    ClassIsGood(size0, BinOf(size0));
  }

  lemma MallocSmallGrants(h: Heap, tid: nat, size: nat, newbase: nat, g: Granted)
    requires HeapOk(h, tid) && size <= SMALL_MAX && Fresh(h, newbase, BLKSIZE)
    requires g == MallocSmall(h, tid, size, newbase)
    ensures Grants(h, tid, g, size)
  {
    MallocSmallOk(h, tid, size, newbase);
    MallocSmallRoom(h, tid, size, newbase);
    MallocSmallStacks(h, tid, size, newbase);
    SmallRoomEnough(g.heap, tid, g.blk, g.hdr, size + HDR_BYTES);
  }

  lemma MallocBigGrants(h: Heap, tid: nat, size: nat, newbase: nat, g: Granted)
    requires HeapOk(h, tid) && Fresh(h, newbase, RoundUp(size + BLK_BYTES + HDR_BYTES))
    requires g == MallocBig(h, tid, size, newbase)
    ensures Grants(h, tid, g, size)
  {
    MallocBigOk(h, tid, size, newbase);
    MallocBigRoom(h, tid, size, newbase);
    MallocBigStacks(h, tid, size, newbase);
    assert LiveIn(g.heap, g.blk, g.hdr);
  }

  /** Either allocator keeps its promise. */
  lemma MallocInOk(h: Heap, tid: nat, size: nat, newbase: nat)
    requires HeapOk(h, tid) && Fresh(h, newbase, MapBytes(size))
    ensures var g := MallocIn(h, tid, size, newbase);
            Grants(h, tid, g, size) && OnlyNew(h, g.heap, newbase, MapBytes(size))
  {
    var g := MallocIn(h, tid, size, newbase);
    if size <= SMALL_MAX {
      MallocSmallGrants(h, tid, size, newbase, g);
      MallocSmallMemory(h, tid, size, newbase);
    } else {
      MallocBigGrants(h, tid, size, newbase, g);
      MallocBigMemory(h, tid, size, newbase);
    }
  }

  /** The process after a call, and the pointer it returned. */
  datatype Served = Served(s: Process, ptr: nat)

  /**
   * A chunk becomes a buffer. Its header is written when it was carved, or is that of a big block (lines 418-419,
   * 463-464, 532-534); a chunk from a stack keeps the header that it has (lines 422-426).
   */
  function Serve(s: Process, t: nat, size: nat, g: Granted): Served
    requires t < |s.heaps|
  {
    var hdrs := if g.written then s.hdrs[g.hdr := Hdr(g.blk, 0)] else s.hdrs;
    Served(Process(s.heaps[t := g.heap], hdrs, s.bufs[g.hdr := Buffer(t, g.blk, g.hdr + HDR_BYTES, size)]),
        g.hdr + HDR_BYTES)
  }

  /** nc_malloc by thread t (lines 542-571). */
  function Malloc(s: Process, t: nat, size: nat, newbase: nat): Served
    requires t < |s.heaps| && |s.heaps[t].bins| == BINCNT
  {
    Serve(s, t, size, MallocIn(s.heaps[t], t, size, newbase))
  }

  ghost predicate CanServe(s: Process, t: nat, size: nat, g: Granted) {
    ProcessOk(s) && t < |s.heaps| && Grants(s.heaps[t], t, g, size) && HeapsApart(s.heaps[t := g.heap])
  }

  lemma MallocCanServe(s: Process, t: nat, size: nat, newbase: nat)
    requires ProcessOk(s) && t < |s.heaps| && AllFresh(s.heaps, newbase, MapBytes(size))
    ensures CanServe(s, t, size, MallocIn(s.heaps[t], t, size, newbase))
  {
    MallocInOk(s.heaps[t], t, size, newbase);
    StillApart(s.heaps, t, MallocIn(s.heaps[t], t, size, newbase).heap, newbase, MapBytes(size));
  }

  lemma BufferStays(s: Process, s': Process, y: nat)
    requires BufferOk(s, y) && y in s'.bufs && s'.bufs[y] == s.bufs[y]
    requires s.bufs[y].tid < |s'.heaps| && LiveIn(s'.heaps[s.bufs[y].tid], s.bufs[y].blk, y)
    requires SameSpace(s.bufs[y].blk, s.heaps[s.bufs[y].tid].recs[s.bufs[y].blk],
             s'.heaps[s.bufs[y].tid].recs[s.bufs[y].blk], y)
    requires s.bufs[y].ptr - HDR_BYTES in s'.hdrs
    requires s'.hdrs[s.bufs[y].ptr - HDR_BYTES] == s.hdrs[s.bufs[y].ptr - HDR_BYTES]
    requires y in s'.hdrs && s'.hdrs[y] == s.hdrs[y]
    ensures BufferOk(s', y)
  {
  }

  /** Only heap t, the chunk x and the header at x change. */
  ghost predicate OneChunk(s: Process, s': Process, t: nat, x: nat) {
    && t < |s.heaps| == |s'.heaps| && s'.heaps == s.heaps[t := s'.heaps[t]]
    && KeepsRoom(s.heaps[t], s'.heaps[t])
    && (forall c, y :: LiveIn(s.heaps[t], c, y) && y != x ==> LiveIn(s'.heaps[t], c, y))
    && (forall y :: y in s.bufs && y != x ==> y in s'.bufs && s'.bufs[y] == s.bufs[y])
    && (forall a :: a in s.hdrs && a != x ==> a in s'.hdrs && s'.hdrs[a] == s.hdrs[a])
  }

  lemma OtherStays(s: Process, s': Process, t: nat, x: nat, y: nat)
    requires OneChunk(s, s', t, x) && BufferOk(s, y) && y != x && s.bufs[y].ptr != x + HDR_BYTES
    ensures BufferOk(s', y)
  {
    var b := s.bufs[y];
    if b.tid == t {
      assert LiveIn(s'.heaps[t], b.blk, y);
    }
    BufferStays(s, s', y);
  }

  /** A chunk of a process is not where another buffer has its header. */
  lemma HeaderElsewhere(s: Process, heaps': seq<Heap>, y: nat, t: nat, b: nat, x: nat)
    requires BufferOk(s, y) && HeapsOk(heaps') && HeapsApart(heaps') && t < |heaps'| && LiveIn(heaps'[t], b, x)
    requires x != y
    requires s.bufs[y].tid < |heaps'| && LiveIn(heaps'[s.bufs[y].tid], s.bufs[y].blk, y)
    requires ChunkEnd(s.bufs[y].blk, heaps'[s.bufs[y].tid].recs[s.bufs[y].blk], y)
             == ChunkEnd(s.bufs[y].blk, s.heaps[s.bufs[y].tid].recs[s.bufs[y].blk], y)
    ensures !(x <= s.bufs[y].ptr - HDR_BYTES < ChunkEnd(b, heaps'[t].recs[b], x))
  {
    AllChunksClear(heaps', t, b, x, s.bufs[y].tid, s.bufs[y].blk, y);
    ChunkPlace(heaps'[t], t, b, x);
    ChunkPlace(heaps'[s.bufs[y].tid], s.bufs[y].tid, s.bufs[y].blk, y);
  }

  /** What another buffer's chunk is after the allocation. */
  lemma ServedStays(s: Process, t: nat, size: nat, g: Granted, y: nat)
    requires t < |s.heaps| && Grants(s.heaps[t], t, g, size) && BufferOk(s, y)
    ensures var u, c, heaps' := s.bufs[y].tid, s.bufs[y].blk, s.heaps[t := g.heap];
            && u < |heaps'| && LiveIn(heaps'[u], c, y)
            && ChunkEnd(c, heaps'[u].recs[c], y) == ChunkEnd(c, s.heaps[u].recs[c], y)
            && !(u == t && c == g.blk && y == g.hdr)
  {
  }

  lemma ServeOther(s: Process, heaps': seq<Heap>, t: nat, b: nat, x: nat, y: nat)
    requires BufferOk(s, y) && HeapsOk(heaps') && HeapsApart(heaps') && t < |heaps'| && LiveIn(heaps'[t], b, x)
    requires var u, c := s.bufs[y].tid, s.bufs[y].blk;
             && u < |heaps'| && LiveIn(heaps'[u], c, y)
             && ChunkEnd(c, heaps'[u].recs[c], y) == ChunkEnd(c, s.heaps[u].recs[c], y)
             && !(u == t && c == b && y == x)
    ensures y != x && s.bufs[y].ptr != x + HDR_BYTES
  {
    ChunkPlace(heaps'[t], t, b, x);
    if y == x {
      SameChunk(s, heaps', t, b, y);
    } else {
      HeaderElsewhere(s, heaps', y, t, b, x);
    }
  }

  lemma ServedHeapsOk(s: Process, t: nat, size: nat, g: Granted)
    requires HeapsOk(s.heaps) && t < |s.heaps| && Grants(s.heaps[t], t, g, size)
    ensures HeapsOk(s.heaps[t := g.heap]) && LiveIn(g.heap, g.blk, g.hdr)
  {
  }

  lemma ServeElsewhere(s: Process, t: nat, size: nat, g: Granted, heaps': seq<Heap>, y: nat)
    requires t < |s.heaps| && Grants(s.heaps[t], t, g, size) && BufferOk(s, y) && heaps' == s.heaps[t := g.heap]
    requires HeapsOk(heaps') && HeapsApart(heaps') && LiveIn(heaps'[t], g.blk, g.hdr)
    ensures y != g.hdr && s.bufs[y].ptr != g.hdr + HDR_BYTES
  {
    ServedStays(s, t, size, g, y);
    ServeOther(s, heaps', t, g.blk, g.hdr, y);
  }

  lemma ServeOthers(s: Process, t: nat, size: nat, g: Granted)
    requires CanServe(s, t, size, g)
    ensures HeapsOk(s.heaps[t := g.heap])
    ensures g.hdr !in s.bufs && forall y :: y in s.bufs ==> s.bufs[y].ptr != g.hdr + HDR_BYTES
  {
    ServedHeapsOk(s, t, size, g);
    forall y | y in s.bufs ensures y != g.hdr && s.bufs[y].ptr != g.hdr + HDR_BYTES {
      assert BufferOk(s, y);
      ServeElsewhere(s, t, size, g, s.heaps[t := g.heap], y);
    }
  }

  /** A chunk address belongs to one block. */
  lemma SameChunk(s: Process, heaps': seq<Heap>, t: nat, b: nat, y: nat)
    requires BufferOk(s, y) && HeapsOk(heaps') && HeapsApart(heaps') && t < |heaps'| && LiveIn(heaps'[t], b, y)
    requires s.bufs[y].tid < |heaps'| && LiveIn(heaps'[s.bufs[y].tid], s.bufs[y].blk, y)
    ensures t == s.bufs[y].tid && b == s.bufs[y].blk
  {
    if t != s.bufs[y].tid || b != s.bufs[y].blk {
      AllChunksClear(heaps', t, b, y, s.bufs[y].tid, s.bufs[y].blk, y);
      ChunkPlace(heaps'[t], t, b, y);
      ChunkPlace(heaps'[s.bufs[y].tid], s.bufs[y].tid, s.bufs[y].blk, y);
      assert false;
    }
  }

  lemma ServeOneChunk(s: Process, t: nat, size: nat, g: Granted)
    requires CanServe(s, t, size, g) && g.hdr !in s.bufs
    ensures OneChunk(s, Serve(s, t, size, g).s, t, g.hdr)
  {
  }

  /** A buffer at the front of its chunk. */
  lemma FrontBuffer(s: Process, t: nat, b: nat, x: nat, size: nat)
    requires t < |s.heaps| && LiveIn(s.heaps[t], b, x) && x % 16 == 0
    requires x in s.hdrs && s.hdrs[x] == Hdr(b, 0) && x in s.bufs && s.bufs[x] == Buffer(t, b, x + HDR_BYTES, size)
    requires Capacity(b, s.heaps[t].recs[b], x) >= size + HDR_BYTES && OldSize(s.heaps[t].recs[b]) >= size
    ensures BufferOk(s, x)
  {
    Sum16(x, HDR_BYTES);
    assert s.bufs[x].ptr - HDR_BYTES == x;
  }

  /** Written now or kept since before: the header leads to the block. */
  lemma HeaderThere(s: Process, t: nat, size: nat, g: Granted)
    requires t < |s.heaps| && (!g.written ==> Stacked(s.heaps[t], g.blk, g.hdr)) && HeadersReady(s)
    ensures var s' := Serve(s, t, size, g).s;
            g.hdr in s'.hdrs && s'.hdrs[g.hdr] == Hdr(g.blk, 0)
  {
  }

  lemma ServeNew(s: Process, t: nat, size: nat, g: Granted)
    requires t < |s.heaps| && Grants(s.heaps[t], t, g, size) && HeadersReady(s)
    ensures BufferOk(Serve(s, t, size, g).s, g.hdr)
  {
    assert LiveIn(g.heap, g.blk, g.hdr);
    ChunkPlace(g.heap, t, g.blk, g.hdr);
    HeaderThere(s, t, size, g);
    FrontBuffer(Serve(s, t, size, g).s, t, g.blk, g.hdr, size);
  }

  lemma ServeNoLeaks(s: Process, t: nat, size: nat, g: Granted)
    requires NoLeaks(s) && t < |s.heaps| && Gains(s.heaps[t], g.heap, g.blk, g.hdr) && g.hdr !in s.bufs
    ensures NoLeaks(Serve(s, t, size, g).s)
  {
    var s' := Serve(s, t, size, g).s;
    forall u, b, x | 0 <= u < |s'.heaps| && LiveIn(s'.heaps[u], b, x) ensures x in s'.bufs && s'.bufs[x].tid == u
        && s'.bufs[x].blk == b {
      assert x != g.hdr || u != t ==> LiveIn(s.heaps[u], b, x);
    }
  }

  /** No chunk on a stack has its header from a on before end. */
  ghost predicate OffStacks(heaps: seq<Heap>, a: nat, end: int) {
    forall u, c: nat, y: nat :: 0 <= u < |heaps| && Stacked(heaps[u], c, y) ==> !(a <= y < end)
  }

  lemma LiveOffStacks(heaps: seq<Heap>, t: nat, b: nat, x: nat)
    requires HeapsOk(heaps) && HeapsApart(heaps) && t < |heaps| && LiveIn(heaps[t], b, x)
    ensures OffStacks(heaps, x, ChunkEnd(b, heaps[t].recs[b], x)) && x < ChunkEnd(b, heaps[t].recs[b], x)
  {
    ChunkPlace(heaps[t], t, b, x);
    forall u, c: nat, y: nat | 0 <= u < |heaps| && Stacked(heaps[u], c, y)
        ensures !(x <= y < ChunkEnd(b, heaps[t].recs[b], x)) {
      StackedClear(heaps, t, b, x, u, c, y);
    }
  }

  lemma ServeReady(s: Process, t: nat, size: nat, g: Granted)
    requires t < |s.heaps| && HeadersReady(s) && StacksShrink(s.heaps[t], g.heap)
    requires OffStacks(s.heaps[t := g.heap], g.hdr, g.hdr + 1)
    ensures HeadersReady(Serve(s, t, size, g).s)
  {
    var s' := Serve(s, t, size, g).s;
    forall u, b: nat, x: nat | 0 <= u < |s'.heaps| && Stacked(s'.heaps[u], b, x)
        ensures x in s'.hdrs && s'.hdrs[x] == Hdr(b, 0) {
      assert Stacked(s.heaps[u], b, x);
    }
  }

  lemma ServeHeaders(s: Process, t: nat, size: nat, g: Granted)
    requires CanServe(s, t, size, g) && HeapsOk(s.heaps[t := g.heap])
    ensures HeadersReady(Serve(s, t, size, g).s)
  {
    assert LiveIn(g.heap, g.blk, g.hdr);
    LiveOffStacks(s.heaps[t := g.heap], t, g.blk, g.hdr);
    ServeReady(s, t, size, g);
  }

  lemma ServeBuffers(s: Process, t: nat, size: nat, g: Granted)
    requires CanServe(s, t, size, g)
    ensures var s' := Serve(s, t, size, g).s;
            g.hdr !in s.bufs && HeapsOk(s'.heaps) && BufferOk(s', g.hdr) && forall y :: y in s'.bufs ==> BufferOk(s', y)
  {
    var s' := Serve(s, t, size, g).s;
    ServeOthers(s, t, size, g);
    ServeOneChunk(s, t, size, g);
    ServeNew(s, t, size, g);
    forall y | y in s'.bufs ensures BufferOk(s', y) {
      if y != g.hdr {
        assert BufferOk(s, y);
        OtherStays(s, s', t, g.hdr, y);
      }
    }
  }

  predicate SameBuffer(s: Process, s': Process, y: nat) {
    y in s.bufs && y in s'.bufs && s'.bufs[y] == s.bufs[y]
  }

  /** All buffers but the one in chunk x are as they were. */
  ghost predicate SameBuffers(s: Process, s': Process, x: nat) {
    forall y {:trigger SameBuffer(s, s', y)} :: y in s.bufs && y != x ==> SameBuffer(s, s', y)
  }

  /** s' holds one more buffer, in a chunk of its own from the heap of thread t; all others are as they were. */
  ghost predicate NewBuffer(s: Process, s': Process, t: nat, x: nat, ptr: nat, size: nat) {
    && x !in s.bufs && x in s'.bufs && s'.bufs.Keys == s.bufs.Keys + {x} && SameBuffers(s, s', x)
    && s'.bufs[x].ptr == ptr && s'.bufs[x].size == size && s'.bufs[x].tid == t
  }

  lemma ServeIsNew(s: Process, t: nat, size: nat, g: Granted, m: Served)
    requires t < |s.heaps| && g.hdr !in s.bufs && m == Serve(s, t, size, g)
    ensures NewBuffer(s, m.s, t, g.hdr, m.ptr, size)
  {
  }

  /** Neither null nor unaligned. */
  predicate GoodPointer(ptr: nat) { ptr >= HDR_BYTES && ptr % 16 == 0 }

  lemma ServeAligned(s: Process, t: nat, size: nat, g: Granted)
    requires t < |s.heaps| && Grants(s.heaps[t], t, g, size)
    ensures GoodPointer(Serve(s, t, size, g).ptr)
  {
    assert LiveIn(g.heap, g.blk, g.hdr);
    ChunkPlace(g.heap, t, g.blk, g.hdr);
    Sum16(g.hdr, HDR_BYTES);
  }

  lemma ServeOk(s: Process, t: nat, size: nat, g: Granted)
    requires CanServe(s, t, size, g)
    ensures var m := Serve(s, t, size, g);
            ProcessOk(m.s) && BufferOk(m.s, g.hdr) && g.hdr !in s.bufs
  {
    ServeBuffers(s, t, size, g);
    ServeNoLeaks(s, t, size, g);
    ServeHeaders(s, t, size, g);
  }

  lemma ServeKeeps(s: Process, t: nat, size: nat, g: Granted)
    requires CanServe(s, t, size, g)
    ensures var m := Serve(s, t, size, g);
            ProcessOk(m.s) && NewBuffer(s, m.s, t, g.hdr, m.ptr, size) && BufferOk(m.s, g.hdr)
  {
    ServeOk(s, t, size, g);
    ServeIsNew(s, t, size, g, Serve(s, t, size, g));
  }

  /** Malloc keeps the process well formed; the buffer it returns is in a chunk of its own. */
  lemma MallocKeeps(s: Process, t: nat, size: nat, newbase: nat)
    requires ProcessOk(s) && t < |s.heaps| && AllFresh(s.heaps, newbase, MapBytes(size))
    ensures var m := Malloc(s, t, size, newbase);
            ProcessOk(m.s) && GoodPointer(m.ptr) && exists x :: NewBuffer(s, m.s, t, x, m.ptr, size)
  {
    MallocCanServe(s, t, size, newbase);
    ServeAligned(s, t, size, MallocIn(s.heaps[t], t, size, newbase));
    ServeKeeps(s, t, size, MallocIn(s.heaps[t], t, size, newbase));
  }

  // ---------------------------------------------------------------- nc_memalign

  /** The test of line 720. */
  predicate PowerOfTwo(n: nat) { n == 1 || (n > 1 && n % 2 == 0 && PowerOfTwo(n / 2)) }

  lemma {:induction false} SixteenDivides(n: nat)
    requires PowerOfTwo(n) && n >= 16
    ensures n % 16 == 0
  {
    if n >= 32 {
      SixteenDivides(n / 2);
    } else {
      assert PowerOfTwo(n / 2) && PowerOfTwo(n / 2 / 2) && PowerOfTwo(n / 2 / 2 / 2);
    }
  }

  /** The least multiple of a power of two from p on (line 735). */
  function RoundTo(p: nat, offs: nat): (r: nat)
    requires offs > 0
    ensures p <= r < p + offs && r % offs == 0
  {
    RoundToIs(p, offs);
    (p + (offs - 1)) / offs * offs
  }

  lemma RoundToIs(p: nat, offs: nat)
    requires offs > 0
    ensures var r := (p + (offs - 1)) / offs * offs;
            p <= r < p + offs && r % offs == 0
  {
    var q := (p + (offs - 1)) / offs;
    assert p + (offs - 1) == q * offs + (p + (offs - 1)) % offs;
    MultipleOf(q, offs);
  }

  lemma {:induction false} MultipleOf(q: nat, m: nat)
    requires m > 0
    ensures q * m % m == 0
  {
    if q > 0 {
      MultipleOf(q - 1, m);
      assert q * m == (q - 1) * m + m;
      assert ((q - 1) * m + m) % m == 0 by { StepMod((q - 1) * m, m); }
    }
  }

  lemma StepMod(x: nat, m: nat)
    requires m > 0 && x % m == 0
    ensures (x + m) % m == 0
  {
    var q := x / m;
    assert x == m * q;
    assert x + m == m * (q + 1);
    DivIs(x + m, m, q + 1);
  }

  /** The buffer of chunk x moves up to its alignment, with a copy of its header in front (lines 735-746). */
  function Shifted(s: Process, x: nat, alignment: nat, size: nat): Served
    requires x in s.bufs && alignment > 0
  {
    var p0 := x + HDR_BYTES;
    var p1 := RoundTo(p0, alignment);
    var shift := p1 - p0;
    var moved := Hdr(if x in s.hdrs then s.hdrs[x].blk else 0, shift);
    var hdrs := if shift > 0 then s.hdrs[x := moved][p1 - HDR_BYTES := moved] else s.hdrs;
    Served(s.(hdrs := hdrs, bufs := s.bufs[x := s.bufs[x].(ptr := p1, size := size)]), p1)
  }

  function MemalignIn(s: Process, t: nat, alignment: nat, size: nat, g: Granted): Served
    requires t < |s.heaps| && PowerOfTwo(alignment)
  {
    if alignment <= 16 then Serve(s, t, size, g)
    else Shifted(Serve(s, t, alignment + size, g).s, g.hdr, alignment, size)
  }

  /** The bytes that memalign asks for (lines 726-733). */
  function AlignedSize(alignment: nat, size: nat): nat { if alignment <= 16 then size else alignment + size }

  /** nc_memalign by thread t (lines 713-750). */
  function Memalign(s: Process, t: nat, alignment: nat, size: nat, newbase: nat): Served
    requires t < |s.heaps| && |s.heaps[t].bins| == BINCNT
  {
    if !PowerOfTwo(alignment) then Served(s, 0)
    else MemalignIn(s, t, alignment, size, MallocIn(s.heaps[t], t, AlignedSize(alignment, size), newbase))
  }

  /** Only the headers inside one chunk change, and the buffer in it. */
  ghost predicate OwnHeaders(s: Process, s': Process, x: nat) {
    && x in s.bufs && s.bufs[x].tid < |s.heaps| && LiveIn(s.heaps[s.bufs[x].tid], s.bufs[x].blk, x)
    && s'.heaps == s.heaps && x in s'.bufs && s'.bufs == s.bufs[x := s'.bufs[x]]
    && s'.bufs[x].tid == s.bufs[x].tid && s'.bufs[x].blk == s.bufs[x].blk
    && var end := ChunkEnd(s.bufs[x].blk, s.heaps[s.bufs[x].tid].recs[s.bufs[x].blk], x);
       forall a :: a in s.hdrs && !(x <= a < end) ==> a in s'.hdrs && s'.hdrs[a] == s.hdrs[a]
  }

  lemma OwnHeadersOther(s: Process, s': Process, x: nat, y: nat)
    requires HeapsOk(s.heaps) && HeapsApart(s.heaps) && OwnHeaders(s, s', x) && BufferOk(s, y) && x != y
    ensures BufferOk(s', y)
  {
    var b, c := s.bufs[x], s.bufs[y];
    HeaderElsewhere(s, s.heaps, y, b.tid, b.blk, x);
    AllChunksClear(s.heaps, b.tid, b.blk, x, c.tid, c.blk, y);
    ChunkPlace(s.heaps[c.tid], c.tid, c.blk, y);
    BufferStays(s, s', y);
  }

  lemma OwnHeadersLeaks(s: Process, s': Process, x: nat)
    requires NoLeaks(s) && OwnHeaders(s, s', x)
    ensures NoLeaks(s')
  {
  }

  lemma OwnHeadersReady(s: Process, s': Process, x: nat)
    requires HeadersReady(s) && OwnHeaders(s, s', x)
    requires OffStacks(s.heaps, x, ChunkEnd(s.bufs[x].blk, s.heaps[s.bufs[x].tid].recs[s.bufs[x].blk], x))
    ensures HeadersReady(s')
  {
  }

  lemma OwnHeadersKeep(s: Process, s': Process, x: nat)
    requires ProcessOk(s) && OwnHeaders(s, s', x) && BufferOk(s', x)
    ensures ProcessOk(s')
  {
    OwnHeadersLeaks(s, s', x);
    LiveOffStacks(s.heaps, s.bufs[x].tid, s.bufs[x].blk, x);
    OwnHeadersReady(s, s', x);
    forall y | y in s'.bufs ensures BufferOk(s', y) {
      if y != x {
        assert y in s.bufs && BufferOk(s, y);
        OwnHeadersOther(s, s', x, y);
      }
    }
  }

  lemma ShiftedOk(s: Process, x: nat, alignment: nat, size: nat)
    requires BufferOk(s, x) && s.bufs[x].ptr == x + HDR_BYTES && s.bufs[x].size == alignment + size
    requires alignment % 16 == 0 && alignment > 16
    ensures var s' := Shifted(s, x, alignment, size).s;
            OwnHeaders(s, s', x) && BufferOk(s', x)
  {
    Multiple16(RoundTo(x + HDR_BYTES, alignment), alignment);
  }

  lemma ShiftedKeeps(s: Process, x: nat, alignment: nat, size: nat)
    requires ProcessOk(s) && BufferOk(s, x) && s.bufs[x].ptr == x + HDR_BYTES && s.bufs[x].size == alignment + size
    requires alignment % 16 == 0 && alignment > 16
    ensures ProcessOk(Shifted(s, x, alignment, size).s)
  {
    ShiftedOk(s, x, alignment, size);
    OwnHeadersKeep(s, Shifted(s, x, alignment, size).s, x);
  }

  lemma Multiple16(p: nat, offs: nat)
    requires offs > 0 && p % offs == 0 && offs % 16 == 0
    ensures p % 16 == 0
  {
    var q, k := p / offs, offs / 16;
    assert p == offs * q && offs == 16 * k;
    assert p == 16 * (k * q);
  }

  lemma ShiftedIsNew(s: Process, m: Process, t: nat, x: nat, alignment: nat, size: nat)
    requires NewBuffer(s, m, t, x, x + HDR_BYTES, alignment + size) && alignment > 0
    ensures var m' := Shifted(m, x, alignment, size);
            NewBuffer(s, m'.s, t, x, m'.ptr, size)
  {
    var s' := Shifted(m, x, alignment, size).s;
    assert s'.bufs.Keys == m.bufs.Keys;
    forall y | y in s.bufs ensures SameBuffer(s, s', y) {
      assert SameBuffer(s, m, y);
    }
  }

  lemma ShiftedServes(s: Process, m: Served, t: nat, x: nat, alignment: nat, size: nat, all: nat, m': Served)
    requires ProcessOk(m.s) && BufferOk(m.s, x) && NewBuffer(s, m.s, t, x, m.ptr, all)
    requires m.ptr == x + HDR_BYTES && all == alignment + size && alignment % 16 == 0 && alignment > 16
    requires m' == Shifted(m.s, x, alignment, size)
    ensures ProcessOk(m'.s) && NewBuffer(s, m'.s, t, x, m'.ptr, size)
  {
    ShiftedKeeps(m.s, x, alignment, size);
    ShiftedIsNew(s, m.s, t, x, alignment, size);
  }

  lemma ServedOne(s: Process, t: nat, size: nat, g: Granted) returns (m: Served)
    requires CanServe(s, t, size, g)
    ensures m == Serve(s, t, size, g) && m.ptr == g.hdr + HDR_BYTES && ProcessOk(m.s) && BufferOk(m.s, g.hdr)
    ensures NewBuffer(s, m.s, t, g.hdr, m.ptr, size)
  {
    m := Serve(s, t, size, g);
    ServeKeeps(s, t, size, g);
  }

  lemma MovedServes(s: Process, t: nat, alignment: nat, size: nat, g: Granted, all: nat, m: Served, m': Served)
    requires alignment % 16 == 0 && alignment > 16 && all == alignment + size && CanServe(s, t, all, g)
    requires m == Serve(s, t, all, g) && g.hdr in m.s.bufs && m.ptr == g.hdr + HDR_BYTES
    requires m' == Shifted(m.s, g.hdr, alignment, size)
    ensures ProcessOk(m'.s) && NewBuffer(s, m'.s, t, g.hdr, m'.ptr, size)
  {
    ServeKeeps(s, t, all, g);
    ShiftedServes(s, m, t, g.hdr, alignment, size, all, m');
  }

  lemma MemalignInKeeps(s: Process, t: nat, alignment: nat, size: nat, g: Granted, all: nat, m: Served, m': Served)
    requires all == AlignedSize(alignment, size) && CanServe(s, t, all, g) && (alignment > 16 ==> alignment % 16 == 0)
    requires m == Serve(s, t, all, g) && g.hdr in m.s.bufs && m.ptr == g.hdr + HDR_BYTES
    requires m' == if alignment <= 16 then m else Shifted(m.s, g.hdr, alignment, size)
    ensures ProcessOk(m'.s) && NewBuffer(s, m'.s, t, g.hdr, m'.ptr, size)
  {
    if alignment <= 16 {
      ServeKeeps(s, t, all, g);
    } else {
      MovedServes(s, t, alignment, size, g, all, m, m');
    }
  }

  lemma MemalignInIs(s: Process, t: nat, alignment: nat, size: nat, g: Granted)
    requires t < |s.heaps| && PowerOfTwo(alignment)
    ensures var m := Serve(s, t, AlignedSize(alignment, size), g);
            && g.hdr in m.s.bufs && m.ptr == g.hdr + HDR_BYTES
            && MemalignIn(s, t, alignment, size, g)
               == (if alignment <= 16 then m else Shifted(m.s, g.hdr, alignment, size))
            && (alignment > 16 ==> alignment % 16 == 0)
  {
    if alignment > 16 { SixteenDivides(alignment); }
  }

  /** ptr is the first multiple of the alignment behind the header of chunk x. */
  predicate FirstAligned(x: nat, alignment: nat, ptr: nat) {
    alignment > 0 && ptr % alignment == 0 && x + HDR_BYTES <= ptr < x + HDR_BYTES + alignment
  }

  lemma FrontIsAligned(x: nat, ptr: nat, alignment: nat)
    requires PowerOfTwo(alignment) && alignment <= 16 && ptr == x + HDR_BYTES && GoodPointer(ptr)
    ensures FirstAligned(x, alignment, ptr)
  {
    Multiple16Divides(ptr, alignment);
  }

  lemma MovedIsGood(x: nat, alignment: nat)
    requires alignment % 16 == 0 && alignment > 16
    ensures GoodPointer(RoundTo(x + HDR_BYTES, alignment))
  {
    Multiple16(RoundTo(x + HDR_BYTES, alignment), alignment);
  }

  lemma MemalignAligned(s: Process, t: nat, alignment: nat, size: nat, g: Granted)
    requires t < |s.heaps| && PowerOfTwo(alignment) && GoodPointer(g.hdr + HDR_BYTES)
    ensures var p := MemalignIn(s, t, alignment, size, g).ptr;
            FirstAligned(g.hdr, alignment, p) && GoodPointer(p)
  {
    if alignment <= 16 {
      FrontIsAligned(g.hdr, g.hdr + HDR_BYTES, alignment);
    } else {
      SixteenDivides(alignment);
      MovedIsGood(g.hdr, alignment);
    }
  }

  lemma GrantKept(s: Process, t: nat, alignment: nat, size: nat, g: Granted, all: nat, m: Served)
    requires PowerOfTwo(alignment) && all == AlignedSize(alignment, size) && CanServe(s, t, all, g)
    requires m == MemalignIn(s, t, alignment, size, g)
    ensures ProcessOk(m.s) && NewBuffer(s, m.s, t, g.hdr, m.ptr, size)
  {
    MemalignInIs(s, t, alignment, size, g);
    MemalignInKeeps(s, t, alignment, size, g, all, Serve(s, t, all, g), m);
  }

  lemma GrantAligned(s: Process, t: nat, alignment: nat, size: nat, g: Granted, all: nat)
    requires PowerOfTwo(alignment) && t < |s.heaps| && Grants(s.heaps[t], t, g, all)
    ensures var p := MemalignIn(s, t, alignment, size, g).ptr;
            FirstAligned(g.hdr, alignment, p) && GoodPointer(p)
  {
    ServeAligned(s, t, all, g);
    MemalignAligned(s, t, alignment, size, g);
  }

  /**
   * Memalign keeps the process well formed; the buffer it returns is in a chunk of its own, at the first aligned
   * address behind the chunk's header.
   */
  lemma MemalignKeeps(s: Process, t: nat, alignment: nat, size: nat, newbase: nat)
    requires ProcessOk(s) && t < |s.heaps| && AllFresh(s.heaps, newbase, MapBytes(AlignedSize(alignment, size)))
    ensures var m := Memalign(s, t, alignment, size, newbase);
            && ProcessOk(m.s)
            && (!PowerOfTwo(alignment) ==> m.ptr == 0 && m.s == s)
            && (PowerOfTwo(alignment) ==> GoodPointer(m.ptr) && exists x ::
                NewBuffer(s, m.s, t, x, m.ptr, size) && FirstAligned(x, alignment, m.ptr))
  {
    if PowerOfTwo(alignment) {
      var all := AlignedSize(alignment, size);
      var g := MallocIn(s.heaps[t], t, all, newbase);
      MallocCanServe(s, t, all, newbase);
      GrantKept(s, t, alignment, size, g, all, MemalignIn(s, t, alignment, size, g));
      GrantAligned(s, t, alignment, size, g, all);
    }
  }

  lemma Multiple16Divides(p: nat, alignment: nat)
    requires PowerOfTwo(alignment) && alignment <= 16 && p % 16 == 0
    ensures p % alignment == 0
  {
    SmallPowers(alignment);
    DividesSixteen(p, alignment);
  }

  lemma SmallPowers(n: nat)
    requires PowerOfTwo(n) && n <= 16
    ensures n in {1, 2, 4, 8, 16}
  {
    if n > 1 {
      var m := n / 2;
      assert PowerOfTwo(m) && n == 2 * m;
      if m > 1 {
        assert PowerOfTwo(m / 2) && m == 2 * (m / 2);
        if m / 2 > 1 { assert PowerOfTwo(m / 2 / 2) && m / 2 == 2 * (m / 2 / 2); }
      }
    }
  }

  lemma DividesSixteen(p: nat, d: nat)
    requires d in {1, 2, 4, 8, 16} && p % 16 == 0
    ensures p % d == 0
  {
    var q := p / 16;
    assert p == 16 * q;
    if d == 2 { MultipleOf(8 * q, 2); }
    if d == 4 { MultipleOf(4 * q, 4); }
    if d == 8 { MultipleOf(2 * q, 8); }
  }
}
