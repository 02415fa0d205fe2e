/** What the allocator of numaplace/ncalloc.c promises over every run of calls by all threads. */
module HeapTheorems {
  import opened SizeClasses
  import opened ListMoves
  import opened HeapBlocks
  import opened HeapModel
  import opened HeapInvariant
  import opened HeapRuns
  import opened HeapSafety

  // ---------------------------------------------------------------- runs

  /** A thread's first call makes its heap; x names the chunk of the buffer that a pointer was returned for. */
  datatype Event =
    | NewThread
    | DoMalloc(t: nat, size: nat, newbase: nat)
    | DoMemalign(t: nat, alignment: nat, size: nat, newbase: nat)
    | DoFree(x: nat)
    | DoFreeNull
    | DoRealloc(t: nat, x: nat, newsize: nat, newbase: nat)
    | DoReallocNull(t: nat, size: nat, newbase: nat)

  /**
   * Callers free and reallocate what they hold, mmap returns unused pages, and what realloc leaves in place fits there.
   */
  ghost predicate Enabled(s: Process, e: Event) {
    match e
    case NewThread => |s.heaps| < MAX_THREADS
    case DoMalloc(t, size, newbase) => t < |s.heaps| && AllFresh(s.heaps, newbase, MapBytes(size))
    case DoMemalign(t, alignment, size, newbase) => t < |s.heaps|
        && AllFresh(s.heaps, newbase, MapBytes(AlignedSize(alignment, size)))
    case DoFree(x) => x in s.bufs
    case DoFreeNull => true
    case DoReallocNull(t, size, newbase) => t < |s.heaps| && AllFresh(s.heaps, newbase, MapBytes(size))
    case DoRealloc(t, x, newsize, newbase) =>
      && t < |s.heaps| && x in s.bufs && AllFresh(s.heaps, newbase, MapBytes(newsize))
      && HasRecord(s, s.bufs[x])
      && (newsize > OldSize(s.heaps[s.bufs[x].tid].recs[s.bufs[x].blk]) || Fits(s, x, s.bufs[x], newsize))
  }

  /** The calls. The tests that stand in for null pointers in C always succeed in a run. */
  function Next(s: Process, e: Event): Process
    requires Enabled(s, e)
  {
    match e
    case NewThread => s.(heaps := s.heaps + [EmptyHeap()])
    case DoMalloc(t, size, newbase) => if |s.heaps[t].bins| == BINCNT then Malloc(s, t, size, newbase).s else s
    case DoMemalign(t, alignment, size, newbase) => if |s.heaps[t].bins| == BINCNT
        then Memalign(s, t, alignment, size, newbase).s else s
    case DoFree(x) => Free(s, s.bufs[x].ptr)
    case DoFreeNull => Free(s, 0)
    case DoRealloc(t, x, newsize, newbase) =>
      if |s.heaps[t].bins| == BINCNT && Followed(s, s.bufs[x].ptr)
      then Realloc(s, t, s.bufs[x].ptr, newsize, newbase).s else s
    case DoReallocNull(t, size, newbase) => if |s.heaps[t].bins| == BINCNT
        then Realloc(s, t, 0, size, newbase).s else s
  }

  function NoHeaps(): Process { Process([], map[], map[]) }

  /** The states of a run: each follows from the one before by an event that is enabled there. */
  ghost predicate Run(states: seq<Process>, events: seq<Event>) {
    && |states| == |events| + 1 && states[0] == NoHeaps()
    && forall i :: 0 <= i < |events| ==> FollowsAt(states, events, i)
  }

  ghost predicate FollowsAt(states: seq<Process>, events: seq<Event>, i: nat)
    requires i < |events| && |states| == |events| + 1
  {
    Follows(states[i], events[i], states[i + 1])
  }

  ghost predicate Follows(s: Process, e: Event, s': Process) { Enabled(s, e) && s' == Next(s, e) }

  lemma NewThreadHeaps(s: Process)
    requires HeapsOk(s.heaps) && HeapsApart(s.heaps)
    ensures HeapsOk(s.heaps + [EmptyHeap()]) && HeapsApart(s.heaps + [EmptyHeap()])
  {
    EmptyHeapOk(|s.heaps|);
  }

  lemma NewThreadRest(s: Process, s': Process)
    requires NoLeaks(s) && HeadersReady(s) && s' == s.(heaps := s.heaps + [EmptyHeap()])
    ensures NoLeaks(s') && HeadersReady(s')
  {
  }

  lemma NewThreadBuffer(s: Process, s': Process, y: nat)
    requires BufferOk(s, y) && s' == s.(heaps := s.heaps + [EmptyHeap()])
    ensures BufferOk(s', y)
  {
    BufferStays(s, s', y);
  }

  lemma NewThreadKeeps(s: Process)
    requires ProcessOk(s)
    ensures ProcessOk(s.(heaps := s.heaps + [EmptyHeap()]))
  {
    var s' := s.(heaps := s.heaps + [EmptyHeap()]);
    NewThreadHeaps(s);
    NewThreadRest(s, s');
    forall y | y in s'.bufs ensures BufferOk(s', y) {
      assert BufferOk(s, y);
      NewThreadBuffer(s, s', y);
    }
  }

  lemma BinsThere(s: Process, t: nat)
    requires ProcessOk(s) && t < |s.heaps|
    ensures |s.heaps[t].bins| == BINCNT
  {
    assert HeapOk(s.heaps[t], t);
  }

  /** Every call keeps the process well formed. */
  lemma NextKeeps(s: Process, e: Event)
    requires ProcessOk(s) && Enabled(s, e)
    ensures ProcessOk(Next(s, e))
  {
    match e
    case NewThread => NewThreadKeeps(s);
    case DoMalloc(t, size, newbase) =>
      BinsThere(s, t);
      MallocKeeps(s, t, size, newbase);
    case DoMemalign(t, alignment, size, newbase) =>
      BinsThere(s, t);
      MemalignKeeps(s, t, alignment, size, newbase);
    case DoFree(x) => FreeKeeps(s, x, s.bufs[x]);
    case DoFreeNull => FreeNull(s);
    case DoRealloc(t, x, newsize, newbase) => ReallocKeeps(s, t, x, s.bufs[x], newsize, newbase);
    case DoReallocNull(t, size, newbase) => ReallocNullKeeps(s, t, size, newbase);
  }

  /** Every state of every run is well formed. */
  lemma {:induction false} RunKeeps(states: seq<Process>, events: seq<Event>, i: nat)
    requires Run(states, events) && i < |states|
    ensures ProcessOk(states[i])
  {
    if i > 0 {
      RunKeeps(states, events, i - 1);
      assert FollowsAt(states, events, i - 1);
      NextKeeps(states[i - 1], events[i - 1]);
    }
  }

  lemma FirstMalloc(newbase: nat, s1: Process, s2: Process)
    requires newbase % PAGE == 0 && s1 == Next(NoHeaps(), NewThread) && s2 == Malloc(s1, 0, 1, newbase).s
    ensures ProcessOk(s1) && Follows(s1, DoMalloc(0, 1, newbase), s2) && s2.bufs != map[]
  {
    NextKeeps(NoHeaps(), NewThread);
    MallocKeeps(s1, 0, 1, newbase);
    BinsThere(s1, 0);
    var x :| NewBuffer(s1, s2, 0, x, Malloc(s1, 0, 1, newbase).ptr, 1);
    assert x in s2.bufs;
  }

  /** There are runs in which buffers are held. */
  lemma SomeBufferIsHeld(newbase: nat) returns (states: seq<Process>, events: seq<Event>)
    requires newbase % PAGE == 0
    ensures Run(states, events) && states[|states| - 1].bufs != map[]
  {
    var s1 := Next(NoHeaps(), NewThread);
    var s2 := Malloc(s1, 0, 1, newbase).s;
    FirstMalloc(newbase, s1, s2);
    states, events := [NoHeaps(), s1, s2], [NewThread, DoMalloc(0, 1, newbase)];
  }

  /** In every state of every run the held buffers are aligned and do not overlap each other or each other's headers. */
  lemma RunDisjoint(states: seq<Process>, events: seq<Event>, i: nat, x: nat, y: nat)
    requires Run(states, events) && i < |states| && x in states[i].bufs && y in states[i].bufs && x != y
    ensures states[i].bufs[x].ptr % 16 == 0 && states[i].bufs[x].ptr >= HDR_BYTES && states[i].bufs[y].ptr >= HDR_BYTES
    ensures Clear(states[i].bufs[x].ptr - HDR_BYTES, HDR_BYTES + states[i].bufs[x].size,
            states[i].bufs[y].ptr - HDR_BYTES, HDR_BYTES + states[i].bufs[y].size)
  {
    RunKeeps(states, events, i);
    BuffersDisjoint(states[i], x, y);
  }

  // ---------------------------------------------------------------- the allocator's own bytes

  /** The headers of blocks, with the pointers of the lists, and the stacks of free pointers. */
  ghost predicate BlockByte(s: Process, a: nat) {
    exists t, b :: 0 <= t < |s.heaps| && b in s.heaps[t].recs && OwnByte(s.heaps[t].recs[b], b, a)
  }

  predicate OwnByte(r: Rec, b: nat, a: nat) {
    || b <= a < b + BLK_BYTES
    || (r.small && b + BLKSIZE - PTR_BYTES * FreeCount(r) <= a < b + BLKSIZE)
  }

  /** The headers that nc_free and nc_realloc will read, in front of buffers and of chunks. */
  ghost predicate HeaderByte(s: Process, a: nat) {
    exists x :: x in s.bufs && HeaderOf(s.bufs[x].ptr, x, a)
  }

  predicate HeaderOf(ptr: nat, x: nat, a: nat) { ptr - HDR_BYTES <= a < ptr || x <= a < x + HDR_BYTES }

  lemma NotInBlock(s: Process, x: nat, a: nat, t: nat, b: nat)
    requires HeapsOk(s.heaps) && HeapsApart(s.heaps) && BufferOk(s, x)
    requires s.bufs[x].ptr <= a < s.bufs[x].ptr + s.bufs[x].size
    requires t < |s.heaps| && b in s.heaps[t].recs
    requires b <= a < b + Bytes(s.heaps[t].recs[b])
    ensures !OwnByte(s.heaps[t].recs[b], b, a)
  {
    var u, c := s.bufs[x].tid, s.bufs[x].blk;
    ChunkPlace(s.heaps[u], u, c, x);
    assert HeapOk(s.heaps[t], t);
    assert RecOk(b, s.heaps[t].recs[b], t);
    if t == u && b != c {
      assert Separate(s.heaps[t].recs);
      BlocksClear(s.heaps[t].recs, b, c);
    }
    if t != u {
      HeapsClear(s.heaps, t, u, b, c);
    }
  }

  lemma HeapsClear(heaps: seq<Heap>, t: nat, u: nat, b: nat, c: nat)
    requires HeapsApart(heaps) && t < |heaps| && u < |heaps| && t != u && b in heaps[t].recs && c in heaps[u].recs
    ensures Clear(b, Bytes(heaps[t].recs[b]), c, Bytes(heaps[u].recs[c]))
  {
    if u < t { assert Clear(c, Bytes(heaps[u].recs[c]), b, Bytes(heaps[t].recs[b])); }
  }

  lemma BlocksClear(recs: map<nat, Rec>, b: nat, c: nat)
    requires Separate(recs) && b in recs && c in recs && b != c
    ensures Clear(b, Bytes(recs[b]), c, Bytes(recs[c]))
  {
  }

  /** The allocator's bytes of a block are inside it. */
  lemma OwnInside(h: Heap, tid: nat, b: nat, a: nat)
    requires HeapOk(h, tid) && b in h.recs && OwnByte(h.recs[b], b, a)
    ensures b <= a < b + Bytes(h.recs[b])
  {
    var r := h.recs[b];
    assert RecOk(b, r, tid) && Listed(h, b);
    if !r.small {
      assert r.size == BLKSIZE * (r.size / BLKSIZE);
    } else if !Idle(r) {
      assert BinOk(h.recs, h.bins[r.bin], r.bin);
      var i :| 0 <= i < |h.bins[r.bin]| && h.bins[r.bin][i] == b;
      assert InBin(h.recs, h.bins[r.bin][i], r.bin);
      ChunkInside(b, r, 0);
    }
  }

  /**
   * A buffer's bytes are its caller's alone: no block header, no stack of free pointers, no chunk header is among them.
   */
  lemma BufferIsPrivate(s: Process, x: nat, a: nat)
    requires ProcessOk(s) && x in s.bufs && s.bufs[x].ptr <= a < s.bufs[x].ptr + s.bufs[x].size
    ensures !BlockByte(s, a) && !HeaderByte(s, a)
  {
    assert BufferOk(s, x);
    var u, c := s.bufs[x].tid, s.bufs[x].blk;
    ChunkPlace(s.heaps[u], u, c, x);
    forall t, b | 0 <= t < |s.heaps| && b in s.heaps[t].recs ensures !OwnByte(s.heaps[t].recs[b], b, a) {
      if OwnByte(s.heaps[t].recs[b], b, a) {
        OwnInside(s.heaps[t], t, b, a);
        NotInBlock(s, x, a, t, b);
      }
    }
    forall y | y in s.bufs ensures !HeaderOf(s.bufs[y].ptr, y, a) {
      NotInHeader(s, x, a, y);
    }
  }

  lemma NotInHeader(s: Process, x: nat, a: nat, y: nat)
    requires HeapsOk(s.heaps) && HeapsApart(s.heaps) && BufferOk(s, x) && BufferOk(s, y)
    requires s.bufs[x].ptr <= a < s.bufs[x].ptr + s.bufs[x].size
    ensures !HeaderOf(s.bufs[y].ptr, y, a)
  {
    if x != y {
      AllChunksClear(s.heaps, s.bufs[x].tid, s.bufs[x].blk, x, s.bufs[y].tid, s.bufs[y].blk, y);
      ChunkPlace(s.heaps[s.bufs[y].tid], s.bufs[y].tid, s.bufs[y].blk, y);
    }
  }

  // ---------------------------------------------------------------- conservation

  /** The lists of a heap that name block b. */
  ghost predicate InSomeBin(h: Heap, b: nat) { exists k :: 0 <= k < |h.bins| && b in h.bins[k] }

  /** Every owned block is in exactly one place, and the counts and sizes add up. */
  lemma BlocksConserved(h: Heap, tid: nat, b: nat)
    requires HeapOk(h, tid) && b in h.recs
    ensures h.mapped == OwnedBytes(h) && |h.cache| <= PAGE_BLK_MAP_TRESH && |h.big| <= BIG_BLK_MAP_TRESH
    ensures h.recs[b].small && !Idle(h.recs[b]) ==>
              && b !in h.cache && b !in h.big && b !in h.used && h.recs[b].bin < BINCNT && b in h.bins[h.recs[b].bin]
              && (forall k :: 0 <= k < |h.bins| && k != h.recs[b].bin ==> b !in h.bins[k])
              && |LiveChunks(h.recs[b])| + FreeCount(h.recs[b]) + RestCount(h.recs[b]) == h.recs[b].cnt
              && 0 <= FreeCount(h.recs[b]) < h.recs[b].cnt && 0 <= RestCount(h.recs[b]) < h.recs[b].cnt
    ensures Idle(h.recs[b]) ==> b in h.cache && b !in h.big && b !in h.used && !InSomeBin(h, b)
    ensures !h.recs[b].small ==> b !in h.cache && !InSomeBin(h, b) && (b in h.big <==> b !in h.used)
  {
    assert Listed(h, b);
    var r := h.recs[b];
    forall k | 0 <= k < |h.bins| && b in h.bins[k] ensures r.small && !Idle(r) && r.bin == k && BlockOk(b, r) {
      assert BinOk(h.recs, h.bins[k], k);
      var i :| 0 <= i < |h.bins[k]| && h.bins[k][i] == b;
      assert InBin(h.recs, h.bins[k][i], k);
    }
    if r.small && !Idle(r) {
      ChunksConserved(b, r);
    }
  }

  /** The tests of lines 411-412 never fail, and when the head is full no block of the bin has a chunk. */
  lemma HeadDecides(h: Heap, tid: nat, bin: nat)
    requires HeapOk(h, tid) && bin < BINCNT && h.bins[bin] != []
    ensures var b := h.bins[bin][0];
            && b in h.recs && 0 <= FreeCount(h.recs[b]) < h.recs[b].cnt && 0 <= RestCount(h.recs[b]) < h.recs[b].cnt
            && (Full(h.recs[b]) ==> forall i :: 0 <= i < |h.bins[bin]| ==>
                h.bins[bin][i] in h.recs && Full(h.recs[h.bins[bin][i]]))
  {
    assert BinOk(h.recs, h.bins[bin], bin);
    assert InBin(h.recs, h.bins[bin][0], bin);
    if Full(h.recs[h.bins[bin][0]]) { FullHead(h, tid, bin); }
  }

  // ---------------------------------------------------------------- bklalloc

  /** Where bklalloc puts a block of the bytes that mmap returned at m (lines 330-338): it adds the offset once more. */
  function BlockBase(m: nat): nat { m + m % BLKSIZE }

  /**
   * The block lies in the mapping, what is left over on both sides is one huge page in all, and the block is aligned
   * to pages; to huge pages, as the comment wants it, exactly when the mapping was aligned to half of one.
   */
  lemma BlockIsKept(m: nat, size: nat)
    requires m % PAGE == 0
    ensures m <= BlockBase(m) && BlockBase(m) + size <= m + size + BLKSIZE
    ensures (BlockBase(m) - m) + (m + size + BLKSIZE - (BlockBase(m) + size)) == BLKSIZE
    ensures BlockBase(m) % PAGE == 0
    ensures BlockBase(m) % BLKSIZE == 0 <==> m % (BLKSIZE / 2) == 0
  {
    var q, r := m / BLKSIZE, m % BLKSIZE;
    assert m == BLKSIZE * q + r;
    PageParts(q, r);
    HalfParts(q, r);
  }

  lemma PageParts(q: nat, r: nat)
    requires r < BLKSIZE && (BLKSIZE * q + r) % PAGE == 0
    ensures (BLKSIZE * q + r + r) % PAGE == 0
  {
    var p := r / PAGE;
    assert BLKSIZE * q + r == PAGE * (512 * q + p) + r % PAGE;
    assert r % PAGE == 0;
    assert BLKSIZE * q + r + r == PAGE * (512 * q + 2 * p);
  }

  lemma HalfParts(q: nat, r: nat)
    requires r < BLKSIZE
    ensures (BLKSIZE * q + r + r) % BLKSIZE == 0 <==> r == 0 || r == BLKSIZE / 2
    ensures (BLKSIZE * q + r) % (BLKSIZE / 2) == 0 <==> r == 0 || r == BLKSIZE / 2
  {
    HalfMod(q, r);
    HalfRest(q, r);
  }

  lemma HalfRest(q: nat, r: nat)
    requires r < BLKSIZE
    ensures (BLKSIZE * q + r) % (BLKSIZE / 2) == if r < BLKSIZE / 2 then r else r - BLKSIZE / 2
  {
    if r < BLKSIZE / 2 {
      assert BLKSIZE * q + r == 0x10_0000 * (2 * q) + r;
    } else {
      assert BLKSIZE * q + r == 0x10_0000 * (2 * q + 1) + (r - 0x10_0000);
    }
  }

  lemma HalfMod(q: nat, r: nat)
    requires r < BLKSIZE
    ensures (BLKSIZE * q + r + r) % BLKSIZE == if r < BLKSIZE / 2 then 2 * r else 2 * r - BLKSIZE
  {
    if r < BLKSIZE / 2 {
      assert BLKSIZE * q + r + r == BLKSIZE * q + 2 * r;
    } else {
      assert BLKSIZE * q + r + r == BLKSIZE * (q + 1) + (2 * r - BLKSIZE);
    }
  }
}
