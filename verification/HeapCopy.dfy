/** What nc_realloc does to the bytes of buffers (numaplace/ncalloc.c:679-710). */
module HeapCopy {
  import opened SizeClasses
  import opened ListMoves
  import opened HeapBlocks
  import opened HeapModel
  import opened HeapInvariant
  import opened HeapRuns
  import opened HeapSafety
  import opened HeapTheorems

  // ---------------------------------------------------------------- what memcpy reads

  predicate InBlock(r: Rec, b: nat, a: int) { b <= a < b + Bytes(r) }

  /** The source of the copy is inside the buffer's block. */
  ghost predicate ReadsInside(b: Buffer, r: Rec) {
    forall a: int :: b.ptr <= a < b.ptr + OldSize(r) ==> InBlock(r, b.blk, a)
  }

  /** A chunk of the block's own size always ends in the block. */
  lemma WholeChunkInside(b: nat, r: Rec, x: nat)
    requires BlockOk(b, r) && x in r.starts
    ensures x + r.size <= b + BLKSIZE && r.size >= HDR_BYTES
  {
    var k := IndexOf(r.starts, x);
    StepBounds(r.bin, r.size);
    StartBounds(b, r.starts, r.rest, Room(r.bin), MaxStep(r.bin), k);
    TimesGrowsLeft(k, r.cnt - 1, MaxStep(r.bin));
    if r.bin == 24 {
      LargeNominals();
      DivIs(BLKSIZE - BLK_BYTES, 65536 + PTR_BYTES, 31);
      DivIs(BLKSIZE - BLK_BYTES, 67648 + PTR_BYTES, 30);
    } else {
      BlockHolds(r.bin, r.size, MaxStep(r.bin));
    }
  }

  lemma FrontReadsInside(h: Heap, tid: nat, b: nat, x: nat)
    requires HeapOk(h, tid) && LiveIn(h, b, x)
    ensures 0 <= OldSize(h.recs[b]) && x + HDR_BYTES + OldSize(h.recs[b]) <= b + Bytes(h.recs[b])
    ensures !h.recs[b].small ==> x + HDR_BYTES + OldSize(h.recs[b]) == b + Bytes(h.recs[b]) && OldSize(h.recs[b]) > 0
  {
    var r := h.recs[b];
    if r.small {
      InItsBin(h, tid, b, x);
      WholeChunkInside(b, r, x);
    } else {
      assert RecOk(b, r, tid);
      assert r.size == BLKSIZE * (r.size / BLKSIZE);
    }
  }

  /**
   * memcpy takes the size of the chunk from where the buffer starts. It stays inside the block exactly when the
   * distance that memalign moved the buffer by is not more than what the block has behind the chunk; a big block has
   * nothing there.
   */
  lemma CopyReadsIff(s: Process, x: nat, b: Buffer)
    requires ProcessOk(s) && x in s.bufs && b == s.bufs[x]
    ensures HasRecord(s, b)
    ensures var r := s.heaps[b.tid].recs[b.blk];
            && (ReadsInside(b, r) <==> b.ptr - (x + HDR_BYTES) <= b.blk + Bytes(r) - (x + HDR_BYTES + OldSize(r)))
            && (!r.small ==> (ReadsInside(b, r) <==> b.ptr == x + HDR_BYTES))
            && (b.ptr == x + HDR_BYTES ==> ReadsInside(b, r))
  {
    HeldInside(s, x, b);
    var r := s.heaps[b.tid].recs[b.blk];
    ChunkPlace(s.heaps[b.tid], b.tid, b.blk, x);
    FrontReadsInside(s.heaps[b.tid], b.tid, b.blk, x);
    LastByteDecides(b, r);
  }

  lemma LastByteDecides(b: Buffer, r: Rec)
    requires b.blk <= b.ptr <= b.blk + Bytes(r) && OldSize(r) >= 0
    ensures ReadsInside(b, r) <==> b.ptr + OldSize(r) <= b.blk + Bytes(r)
  {
    var last := b.ptr + OldSize(r) - 1;
    if b.ptr <= last && last >= b.blk + Bytes(r) {
      assert !InBlock(r, b.blk, last);
    }
  }

  // ---------------------------------------------------------------- a copy that reads too far

  const MIB := 0x10_0000

  lemma AlignedFirst(newbase: nat)
    requires newbase % PAGE == 0
    ensures RoundTo(newbase + BLK_BYTES + HDR_BYTES, PAGE) == newbase + PAGE
  {
    var q := newbase / PAGE;
    var r := RoundTo(newbase + BLK_BYTES + HDR_BYTES, PAGE);
    assert newbase == PAGE * q && r == PAGE * (r / PAGE);
  }

  lemma FourPowers()
    ensures PowerOfTwo(PAGE) && RoundUp(PAGE + 3 * MIB + BLK_BYTES + HDR_BYTES) == 4 * MIB
  {
    assert PowerOfTwo(1) && PowerOfTwo(2) && PowerOfTwo(4) && PowerOfTwo(8) && PowerOfTwo(16) && PowerOfTwo(32)
        && PowerOfTwo(64);
    assert PowerOfTwo(128) && PowerOfTwo(256) && PowerOfTwo(512) && PowerOfTwo(1024) && PowerOfTwo(2048);
  }

  /** The buffer of 3 MiB aligned to pages: a block of 4 MiB, with the buffer moved up by 4016 bytes. */
  lemma AlignedBuffer(newbase: nat, s1: Process, m: Served)
    requires newbase % PAGE == 0 && s1 == Next(NoHeaps(), NewThread) && m == Memalign(s1, 0, PAGE, 3 * MIB, newbase)
    ensures m.ptr == newbase + PAGE && newbase + BLK_BYTES in m.s.bufs
    ensures m.s.bufs[newbase + BLK_BYTES] == Buffer(0, newbase, newbase + PAGE, 3 * MIB)
    ensures m.s.heaps[0].recs == map[newbase := BigRec(0, 4 * MIB)]
  {
    FourPowers();
    AlignedFirst(newbase);
  }

  lemma OneThread(s1: Process)
    requires s1 == Next(NoHeaps(), NewThread)
    ensures ProcessOk(s1) && s1.heaps == [EmptyHeap()]
  {
    NewThreadKeeps(NoHeaps());
  }

  lemma AlignedIsNext(newbase: nat, s1: Process, m: Served)
    requires newbase % PAGE == 0 && s1 == Next(NoHeaps(), NewThread) && m == Memalign(s1, 0, PAGE, 3 * MIB, newbase)
    ensures Follows(s1, DoMemalign(0, PAGE, 3 * MIB, newbase), m.s) && ProcessOk(m.s)
  {
    OneThread(s1);
    MemalignKeeps(s1, 0, PAGE, 3 * MIB, newbase);
  }

  /**
   * A buffer of 3 MiB from memalign with the alignment of a page starts 4096 bytes into a block of 4 MiB. When realloc
   * moves it to 5 MiB, it copies up to 4016 bytes behind that block.
   */
  lemma CopyBehindBlock(newbase: nat, s1: Process, m: Served)
    requires newbase % PAGE == 0 && s1 == Next(NoHeaps(), NewThread) && m == Memalign(s1, 0, PAGE, 3 * MIB, newbase)
    ensures Follows(s1, DoMemalign(0, PAGE, 3 * MIB, newbase), m.s) && ProcessOk(m.s)
    ensures var x := newbase + BLK_BYTES;
            && x in m.s.bufs && m.s.bufs[x] == Buffer(0, newbase, m.ptr, 3 * MIB) && HasRecord(m.s, m.s.bufs[x])
            && var r := m.s.heaps[0].recs[newbase];
               5 * MIB > OldSize(r) && Bytes(r) == 4 * MIB && m.ptr + OldSize(r) == newbase + 4 * MIB + 4016
                   && !ReadsInside(m.s.bufs[x], r)
  {
    AlignedIsNext(newbase, s1, m);
    AlignedBuffer(newbase, s1, m);
    LastByteDecides(m.s.bufs[newbase + BLK_BYTES], BigRec(0, 4 * MIB));
  }

  // ---------------------------------------------------------------- realloc keeps contents

  /** A byte of memory that was mapped between s and m. */
  ghost predicate NewByte(s: Process, m: Process, a: nat) {
    exists t, c :: 0 <= t < |m.heaps| && c in m.heaps[t].recs && (t >= |s.heaps| || c !in s.heaps[t].recs)
                   && InBlock(m.heaps[t].recs[c], c, a)
  }

  /** From s to m, allocating writes no more than the allocator's own bytes and memory that is new. */
  ghost predicate WritesOwn(s: Process, m: Process, before: seq<int>, after: seq<int>) {
    |before| == |after| && forall a :: 0 <= a < |before| ==>
      before[a] == after[a] || BlockByte(m, a) || HeaderByte(m, a) || NewByte(s, m, a)
  }

  /**
   * A byte of the chunk that nc_free takes back, or of a block that leaves the heap: the chunk's own block when that is
   * small and unused now, and the least recently used of the big blocks when a big one is freed.
   */
  ghost predicate GivenUp(s: Process, x: nat, s': Process, a: nat) {
    x in s.bufs && s.bufs[x].tid < |s.heaps| && s.bufs[x].tid < |s'.heaps|
        && s.bufs[x].blk in s.heaps[s.bufs[x].tid].recs &&
    var recs, recs' := s.heaps[s.bufs[x].tid].recs, s'.heaps[s.bufs[x].tid].recs;
    || x <= a < ChunkEnd(s.bufs[x].blk, recs[s.bufs[x].blk], x)
    || exists c :: c in recs && c !in recs' && InBlock(recs[c], c, a)
  }

  ghost predicate WritesFreed(s: Process, x: nat, s': Process, before: seq<int>, after: seq<int>) {
    |before| == |after| && forall a :: 0 <= a < |before| ==>
      before[a] == after[a] || BlockByte(s', a) || HeaderByte(s', a) || GivenUp(s, x, s', a)
  }

  /** Buffer y, which is still held in s', is not in a block that left its heap. */
  lemma GoneElsewhere(s: Process, s': Process, y: nat, a: nat, t: nat, c: nat)
    requires HeapsOk(s.heaps) && HeapsApart(s.heaps) && BufferOk(s, y) && BufferOk(s', y) && s'.bufs[y] == s.bufs[y]
    requires s.bufs[y].ptr <= a < s.bufs[y].ptr + s.bufs[y].size
    requires t < |s.heaps| && t < |s'.heaps| && c in s.heaps[t].recs && c !in s'.heaps[t].recs
    ensures !InBlock(s.heaps[t].recs[c], c, a)
  {
    if InBlock(s.heaps[t].recs[c], c, a) { BlockOfByte(s, y, a, t, c); }
  }

  /** What freeing buffer x gives up has no byte of buffer y. */
  lemma FreeSpares(s: Process, x: nat, s': Process, y: nat, a: nat)
    requires HeapsOk(s.heaps) && HeapsApart(s.heaps) && BufferOk(s, x) && BufferOk(s, y) && BufferOk(s', y)
    requires x != y && s'.bufs[y] == s.bufs[y] && s.bufs[y].ptr <= a < s.bufs[y].ptr + s.bufs[y].size
    ensures !GivenUp(s, x, s', a)
  {
    var t := s.bufs[x].tid;
    AllChunksClear(s.heaps, t, s.bufs[x].blk, x, s.bufs[y].tid, s.bufs[y].blk, y);
    if t < |s'.heaps| {
      forall c | c in s.heaps[t].recs && c !in s'.heaps[t].recs ensures !InBlock(s.heaps[t].recs[c], c, a) {
        GoneElsewhere(s, s', y, a, t, c);
      }
    }
  }

  lemma FreeSparesHeld(s: Process, x: nat, s': Process, y: nat, a: nat)
    requires ProcessOk(s) && ProcessOk(s') && x in s.bufs && y in s.bufs && y in s'.bufs && x != y
    requires s'.bufs[y] == s.bufs[y]
    requires s.bufs[y].ptr <= a < s.bufs[y].ptr + s.bufs[y].size
    ensures !GivenUp(s, x, s', a)
  {
    assert BufferOk(s, x) && BufferOk(s, y) && BufferOk(s', y);
    FreeSpares(s, x, s', y, a);
  }

  /** Realloc moves buffer x: m is the process after the inner malloc, which gave chunk y of another block. */
  ghost predicate Moving(s: Process, x: nat, b: Buffer, m: Process, y: nat, newsize: nat) {
    && ProcessOk(s) && x in s.bufs && s.bufs[x] == b
    && ProcessOk(m) && x in m.bufs && m.bufs[x] == b
    && y !in s.bufs && y in m.bufs && m.bufs[y].ptr == y + HDR_BYTES && m.bufs[y].size == newsize
    && (m.bufs[y].tid != b.tid || m.bufs[y].blk != b.blk)
  }

  /** A chunk that is large enough for more than the old size is of another block than the old one. */
  lemma AnotherBlock(s: Process, t: nat, x: nat, b: Buffer, newsize: nat, g: Granted)
    requires BufferOk(s, x) && b == s.bufs[x] && t < |s.heaps| && Grants(s.heaps[t], t, g, newsize)
    requires newsize > OldSize(s.heaps[b.tid].recs[b.blk])
    ensures t != b.tid || g.blk != b.blk
  {
    assert t == b.tid ==> LiveIn(g.heap, b.blk, x);
  }

  lemma NewMoves(s: Process, x: nat, b: Buffer, m: Process, t: nat, y: nat, newsize: nat)
    requires ProcessOk(s) && x in s.bufs && s.bufs[x] == b && ProcessOk(m)
    requires NewBuffer(s, m, t, y, y + HDR_BYTES, newsize) && (t != b.tid || m.bufs[y].blk != b.blk)
    ensures Moving(s, x, b, m, y, newsize)
  {
    assert SameBuffer(s, m, x);
  }

  lemma NewBlock(s: Process, t: nat, x: nat, b: Buffer, newsize: nat, g: Granted)
    requires CanServe(s, t, newsize, g) && x in s.bufs && b == s.bufs[x] && HasRecord(s, b)
    requires newsize > OldSize(s.heaps[b.tid].recs[b.blk])
    ensures t != b.tid || g.blk != b.blk
  {
    assert BufferOk(s, x);
    AnotherBlock(s, t, x, b, newsize, g);
  }

  lemma ServeMoves(s: Process, t: nat, x: nat, b: Buffer, newsize: nat, g: Granted)
    requires CanServe(s, t, newsize, g) && x in s.bufs && b == s.bufs[x] && HasRecord(s, b)
    requires newsize > OldSize(s.heaps[b.tid].recs[b.blk])
    ensures Moving(s, x, b, Serve(s, t, newsize, g).s, g.hdr, newsize)
  {
    var m := ServedOne(s, t, newsize, g);
    assert m.s.bufs[g.hdr].blk == g.blk;
    NewBlock(s, t, x, b, newsize, g);
    NewMoves(s, x, b, m.s, t, g.hdr, newsize);
  }

  /** Only one block has the bytes of a buffer. */
  lemma BlockOfByte(m: Process, x: nat, a: nat, t: nat, c: nat)
    requires HeapsOk(m.heaps) && HeapsApart(m.heaps) && BufferOk(m, x)
    requires m.bufs[x].ptr <= a < m.bufs[x].ptr + m.bufs[x].size
    requires t < |m.heaps| && c in m.heaps[t].recs && InBlock(m.heaps[t].recs[c], c, a)
    ensures t == m.bufs[x].tid && c == m.bufs[x].blk
  {
    var u, d := m.bufs[x].tid, m.bufs[x].blk;
    ChunkPlace(m.heaps[u], u, d, x);
    if t != u {
      HeapsClear(m.heaps, t, u, c, d);
    } else if c != d {
      assert HeapOk(m.heaps[t], t);
      BlocksClear(m.heaps[t].recs, c, d);
    }
  }

  lemma SourceIsOld(s: Process, x: nat, b: Buffer, m: Process, a: nat)
    requires HeapsOk(m.heaps) && HeapsApart(m.heaps) && BufferOk(m, x) && BufferOk(s, x) && s.bufs[x] == m.bufs[x] == b
    requires b.ptr <= a < b.ptr + b.size
    ensures !NewByte(s, m, a)
  {
    if NewByte(s, m, a) {
      var t, c :| 0 <= t < |m.heaps| && c in m.heaps[t].recs && (t >= |s.heaps| || c !in s.heaps[t].recs)
          && InBlock(m.heaps[t].recs[c], c, a);
      BlockOfByte(m, x, a, t, c);
    }
  }

  lemma SourceIsPrivate(s: Process, x: nat, b: Buffer, m: Process, y: nat, newsize: nat, a: nat)
    requires Moving(s, x, b, m, y, newsize) && b.ptr <= a < b.ptr + b.size
    ensures !BlockByte(m, a) && !HeaderByte(m, a) && !NewByte(s, m, a)
  {
    BufferIsPrivate(m, x, a);
    assert BufferOk(s, x) && BufferOk(m, x);
    SourceIsOld(s, x, b, m, a);
  }

  lemma TargetHeld(m: Process, x: nat, b: Buffer, y: nat) returns (s': Process)
    requires ProcessOk(m) && x in m.bufs && m.bufs[x] == b && y in m.bufs && y != x
    ensures s' == Free(m, b.ptr) && ProcessOk(s') && y in s'.bufs && s'.bufs[y] == m.bufs[y]
  {
    FreeKeeps(m, x, b);
    s' := Free(m, b.ptr);
  }

  lemma TargetIsPrivate(s: Process, x: nat, b: Buffer, m: Process, y: nat, newsize: nat, a: nat)
    requires Moving(s, x, b, m, y, newsize) && y + HDR_BYTES <= a < y + HDR_BYTES + newsize
    ensures !BlockByte(Free(m, b.ptr), a) && !HeaderByte(Free(m, b.ptr), a)
  {
    var s' := TargetHeld(m, x, b, y);
    BufferIsPrivate(s', y, a);
  }

  lemma TargetIsSpared(s: Process, x: nat, b: Buffer, m: Process, y: nat, newsize: nat, a: nat)
    requires Moving(s, x, b, m, y, newsize) && y + HDR_BYTES <= a < y + HDR_BYTES + newsize
    ensures !GivenUp(m, x, Free(m, b.ptr), a)
  {
    var s' := TargetHeld(m, x, b, y);
    FreeSparesHeld(m, x, s', y, a);
  }

  lemma SourceByte(s: Process, x: nat, b: Buffer, m: Process, y: nat, newsize: nat, a: nat, mem0: seq<int>,
                   mem1: seq<int>)
    requires Moving(s, x, b, m, y, newsize) && b.ptr <= a < b.ptr + b.size && a < |mem0| && WritesOwn(s, m, mem0, mem1)
    ensures a < |mem1| && mem1[a] == mem0[a]
  {
    SourceIsPrivate(s, x, b, m, y, newsize, a);
  }

  lemma TargetByte(s: Process, x: nat, b: Buffer, m: Process, s': Process, y: nat, newsize: nat, a: nat, mem2: seq<int>,
                   mem3: seq<int>)
    requires Moving(s, x, b, m, y, newsize) && y + HDR_BYTES <= a < y + HDR_BYTES + newsize
    requires s' == Free(m, b.ptr) && a < |mem2| && WritesFreed(m, x, s', mem2, mem3)
    ensures a < |mem3| && mem3[a] == mem2[a]
  {
    TargetIsPrivate(s, x, b, m, y, newsize, a);
    TargetIsSpared(s, x, b, m, y, newsize, a);
  }

  /** memcpy, whose source and target must not overlap. */
  function Memcpy(mem: seq<int>, to: nat, from: nat, n: nat): (r: seq<int>)
    requires from + n <= |mem| && to + n <= |mem|
    ensures |r| == |mem|
  {
    mem[..to] + mem[from..from + n] + mem[to + n..]
  }

  lemma BlocksApart(m: Process, x: nat, b: Buffer, y: nat, c: Buffer, n: nat)
    requires HeapsOk(m.heaps) && HeapsApart(m.heaps) && BufferOk(m, x) && b == m.bufs[x] && BufferOk(m, y)
    requires c == m.bufs[y]
    requires (c.tid != b.tid || c.blk != b.blk) && n <= c.size && b.ptr + n <= b.blk + Bytes(m.heaps[b.tid].recs[b.blk])
    ensures Clear(b.ptr, n, c.ptr, n)
  {
    ChunkPlace(m.heaps[b.tid], b.tid, b.blk, x);
    ChunkPlace(m.heaps[c.tid], c.tid, c.blk, y);
    if b.tid != c.tid {
      HeapsClear(m.heaps, b.tid, c.tid, b.blk, c.blk);
    } else {
      assert HeapOk(m.heaps[b.tid], b.tid);
      BlocksClear(m.heaps[b.tid].recs, b.blk, c.blk);
    }
  }

  /** As long as memcpy reads inside the block, its source and target do not overlap. */
  lemma SourceAndTarget(s: Process, x: nat, b: Buffer, m: Process, y: nat, newsize: nat, n: nat)
    requires Moving(s, x, b, m, y, newsize) && HasRecord(m, b) && n == OldSize(m.heaps[b.tid].recs[b.blk]) < newsize
    requires b.ptr + n <= b.blk + Bytes(m.heaps[b.tid].recs[b.blk])
    ensures Clear(b.ptr, n, y + HDR_BYTES, n) && b.size <= n
  {
    HeldInside(m, x, b);
    assert BufferOk(m, x) && BufferOk(m, y);
    BlocksApart(m, x, b, y, m.bufs[y], n);
  }

  /** From lo on, n bytes are the same. */
  ghost predicate Kept(before: seq<int>, after: seq<int>, lo: nat, n: nat) {
    |before| == |after| && forall a: nat :: lo <= a < lo + n && a < |before| ==> after[a] == before[a]
  }

  lemma SourceKept(s: Process, x: nat, b: Buffer, m: Process, y: nat, newsize: nat, mem0: seq<int>, mem1: seq<int>)
    requires Moving(s, x, b, m, y, newsize) && WritesOwn(s, m, mem0, mem1)
    ensures Kept(mem0, mem1, b.ptr, b.size)
  {
    forall a: nat | b.ptr <= a < b.ptr + b.size && a < |mem0| ensures mem1[a] == mem0[a] {
      SourceByte(s, x, b, m, y, newsize, a, mem0, mem1);
    }
  }

  lemma TargetKept(s: Process, x: nat, b: Buffer, m: Process, y: nat, newsize: nat, mem2: seq<int>, mem3: seq<int>)
    requires Moving(s, x, b, m, y, newsize) && WritesFreed(m, x, Free(m, b.ptr), mem2, mem3)
    ensures Kept(mem2, mem3, y + HDR_BYTES, newsize)
  {
    forall a: nat | y + HDR_BYTES <= a < y + HDR_BYTES + newsize && a < |mem2| ensures mem3[a] == mem2[a] {
      TargetByte(s, x, b, m, Free(m, b.ptr), y, newsize, a, mem2, mem3);
    }
  }

  function Contents(mem: seq<int>, ptr: nat, n: nat): seq<int>
    requires ptr + n <= |mem|
  {
    mem[ptr..ptr + n]
  }

  lemma CopyArrives(mem0: seq<int>, mem1: seq<int>, mem3: seq<int>, from: nat, to: nat, n: nat, size: nat)
    requires from + n <= |mem0| && to + n <= |mem0| && size <= n && Kept(mem0, mem1, from, size)
    requires Kept(Memcpy(mem1, to, from, n), mem3, to, n)
    ensures |mem3| == |mem0| && Contents(mem3, to, size) == Contents(mem0, from, size)
  {
    var mem2 := Memcpy(mem1, to, from, n);
    var was, now := mem0[from..from + size], mem3[to..to + size];
    forall j | 0 <= j < size ensures now[j] == was[j] {
      assert mem3[to + j] == mem2[to + j] == mem1[from + j] == mem0[from + j];
    }
  }

  /** The memory from before malloc until after free: what was copied is not touched before, nor after. */
  ghost predicate Copied(s: Process, x: nat, b: Buffer, m: Process, y: nat, n: nat, mem0: seq<int>, mem1: seq<int>,
                         mem3: seq<int>) {
    && b.ptr + n <= |mem0| == |mem1| && y + HDR_BYTES + n <= |mem1|
    && WritesOwn(s, m, mem0, mem1) && WritesFreed(m, x, Free(m, b.ptr), Memcpy(mem1, y + HDR_BYTES, b.ptr, n), mem3)
  }

  lemma BothKept(s: Process, x: nat, b: Buffer, m: Process, y: nat, newsize: nat, n: nat, mem0: seq<int>,
                 mem1: seq<int>, mem3: seq<int>)
    requires Moving(s, x, b, m, y, newsize) && n < newsize && Copied(s, x, b, m, y, n, mem0, mem1, mem3)
    ensures Kept(mem0, mem1, b.ptr, b.size) && Kept(Memcpy(mem1, y + HDR_BYTES, b.ptr, n), mem3, y + HDR_BYTES, n)
  {
    SourceKept(s, x, b, m, y, newsize, mem0, mem1);
    TargetKept(s, x, b, m, y, newsize, Memcpy(mem1, y + HDR_BYTES, b.ptr, n), mem3);
  }

  /**
   * When realloc moves a buffer and memcpy reads inside the block, the new buffer has the contents of the old: mem0,
   * mem1 and mem3 are the memory before and after the inner malloc and after free, which may write whatever is the
   * allocator's own.
   */
  lemma ReallocKeepsContents(s: Process, x: nat, b: Buffer, m: Process, y: nat, newsize: nat, n: nat,
                             mem0: seq<int>, mem1: seq<int>, mem3: seq<int>)
    requires Moving(s, x, b, m, y, newsize) && HasRecord(m, b) && n == OldSize(m.heaps[b.tid].recs[b.blk]) < newsize
    requires b.ptr + n <= b.blk + Bytes(m.heaps[b.tid].recs[b.blk])
    requires Copied(s, x, b, m, y, n, mem0, mem1, mem3)
    ensures Clear(b.ptr, n, y + HDR_BYTES, n) && b.size <= n && |mem3| == |mem0|
    ensures Contents(mem3, y + HDR_BYTES, b.size) == Contents(mem0, b.ptr, b.size)
  {
    SourceAndTarget(s, x, b, m, y, newsize, n);
    BothKept(s, x, b, m, y, newsize, n, mem0, mem1, mem3);
    CopyArrives(mem0, mem1, mem3, b.ptr, y + HDR_BYTES, n, b.size);
  }

  // ---------------------------------------------------------------- where realloc in place goes wrong

  /** The heap of one block of bin 24. */
  function OneBlock(base: nat, r: Rec): Heap {
    Heap(map[base := r], EmptyHeap().bins[24 := [base]], [], [], [], BLKSIZE)
  }

  lemma BothInBin24()
    ensures BinOf(65520 + HDR_BYTES) == 24 && ChunkSize(65520 + HDR_BYTES, 24) == 67648
    ensures BinOf(60000 + HDR_BYTES) == 24 && ChunkSize(60000 + HDR_BYTES, 24) == 65536
  {
    BinRange(65520 + HDR_BYTES, BinOf(65520 + HDR_BYTES));
    BinRange(60000 + HDR_BYTES, BinOf(60000 + HDR_BYTES));
    LargeNominals();
  }

  /** The block that a request of 64 KiB with its header sets up, and two requests of 60000 bytes served from it. */
  function Block1(base: nat): Rec { FirstChunk(base, 0, 24, 67648) }

  function Block2(base: nat): Rec { Block1(base).(starts := [base + 64, base + 67712], rest := base + 133248) }

  function Block3(base: nat): Rec {
    Block1(base).(starts := [base + 64, base + 67712, base + 133248], rest := base + 198784)
  }

  lemma SetsUp(base: nat)
    ensures MallocIn(EmptyHeap(), 0, 65520, base) == Granted(OneBlock(base, Block1(base)), base, base + 64, true)
    ensures Block1(base).cnt == 30
  {
    BothInBin24();
    CountIs(67648, 30);
    var h := EmptyHeap();
    assert h.bins[24] == [] && [base] + [] == [base];
    assert h.recs[base := Block1(base)] == map[base := Block1(base)];
  }

  lemma Serves60000(base: nat, r: Rec, r': Rec, newbase: nat)
    requires r.cnt == 30 && 0 < |r.starts| < 29 && r.freed == []
    requires r' == r.(starts := r.starts + [r.rest], rest := r.rest + 65536)
    ensures |OneBlock(base, r).bins| == BINCNT
    ensures MallocIn(OneBlock(base, r), 0, 60000, newbase) == Granted(OneBlock(base, r'), base, r.rest, true)
  {
    BothInBin24();
    var h := OneBlock(base, r);
    assert h.bins[24] == [base] && h.bins[24 := [base]] == h.bins;
    assert h.recs[base := r'] == map[base := r'];
  }

  lemma StillFresh(base: nat, r: Rec)
    requires base % PAGE == 0 && r.small
    ensures AllFresh([OneBlock(base, r)], base + BLKSIZE, BLKSIZE)
  {
    assert base + BLKSIZE == PAGE * (base / PAGE + 512);
  }

  /** The process after some of the three requests: bufs are the buffers so far. */
  ghost predicate Served60000(s: Process, base: nat, r: Rec, x: nat) {
    s.heaps == [OneBlock(base, r)] && x in s.bufs && s.bufs[x] == Buffer(0, base, x + HDR_BYTES, 60000)
  }

  lemma FirstRequest(base: nat, s1: Process, s2: Process)
    requires base % PAGE == 0 && s1.heaps == [EmptyHeap()] && s2 == Malloc(s1, 0, 65520, base).s
    ensures Follows(s1, DoMalloc(0, 65520, base), s2) && s2.heaps == [OneBlock(base, Block1(base))]
  {
    SetsUp(base);
  }

  lemma NextRequest(base: nat, r: Rec, r': Rec, s: Process, s': Process)
    requires base % PAGE == 0 && r.small && r.cnt == 30 && 0 < |r.starts| < 29 && r.freed == []
    requires r' == r.(starts := r.starts + [r.rest], rest := r.rest + 65536) && s.heaps == [OneBlock(base, r)]
    requires s' == Malloc(s, 0, 60000, base + BLKSIZE).s
    ensures Follows(s, DoMalloc(0, 60000, base + BLKSIZE), s') && Served60000(s', base, r', r.rest)
    ensures forall y :: y in s.bufs && y != r.rest ==> y in s'.bufs && s'.bufs[y] == s.bufs[y]
  {
    Serves60000(base, r, r', base + BLKSIZE);
    StillFresh(base, r);
  }

  lemma Overlaps(base: nat, s: Process, x: nat, y: nat)
    requires Served60000(s, base, Block3(base), x) && x == base + 67712 && y == base + 133248
    ensures HasRecord(s, s.bufs[x]) && 67000 <= OldSize(s.heaps[0].recs[base]) && !Fits(s, x, s.bufs[x], 67000)
    ensures s.bufs[x].ptr + 67000 > y
  {
    var r := Block3(base);
    assert r.starts[1] == x && r.starts[0] != x && r.starts[1..][0] == x;
    CountIs(67648, 30);
    assert ChunkEnd(base, r, x) == y;
  }

  /** One more call of a run. */
  lemma RunGrows(states: seq<Process>, events: seq<Event>, e: Event, s': Process)
    requires Run(states, events) && Follows(states[|events|], e, s')
    ensures Run(states + [s'], events + [e])
  {
    var states', events' := states + [s'], events + [e];
    forall i | 0 <= i < |events'| ensures FollowsAt(states', events', i) {
      assert i < |events| ==> FollowsAt(states, events, i);
    }
  }

  lemma RunFirst(base: nat) returns (states: seq<Process>, events: seq<Event>)
    requires base % PAGE == 0
    ensures Run(states, events) && |events| == 2 && states[2].heaps == [OneBlock(base, Block1(base))]
  {
    var s1 := Next(NoHeaps(), NewThread);
    OneThread(s1);
    RunGrows([NoHeaps()], [], NewThread, s1);
    var s2 := Malloc(s1, 0, 65520, base).s;
    FirstRequest(base, s1, s2);
    states, events := [NoHeaps()] + [s1], [] + [NewThread];
    RunGrows(states, events, DoMalloc(0, 65520, base), s2);
    states, events := states + [s2], events + [DoMalloc(0, 65520, base)];
  }

  lemma RunNext(base: nat, r: Rec, r': Rec, states: seq<Process>, events: seq<Event>)
      returns (states': seq<Process>, events': seq<Event>)
    requires base % PAGE == 0 && r.small && r.cnt == 30 && 0 < |r.starts| < 29 && r.freed == []
    requires r' == r.(starts := r.starts + [r.rest], rest := r.rest + 65536)
    requires Run(states, events) && states[|events|].heaps == [OneBlock(base, r)]
    ensures Run(states', events') && |events'| == |events| + 1 && Served60000(states'[|events'|], base, r', r.rest)
    ensures var s, s' := states[|events|], states'[|events'|];
            forall y :: y in s.bufs && y != r.rest ==> y in s'.bufs && s'.bufs[y] == s.bufs[y]
  {
    var s := states[|events|];
    Serves60000(base, r, r', base + BLKSIZE);
    var s' := Malloc(s, 0, 60000, base + BLKSIZE).s;
    NextRequest(base, r, r', s, s');
    RunGrows(states, events, DoMalloc(0, 60000, base + BLKSIZE), s');
    states', events' := states + [s'], events + [DoMalloc(0, 60000, base + BLKSIZE)];
  }

  /**
   * Three requests, for 65520, 60000 and 60000 bytes: the first sets up a block of bin 24 that claims 67648 bytes for
   * every chunk, the others are carved from it 65536 bytes apart. Growing the buffer in x in place to 67000 bytes,
   * which nc_realloc accepts, runs into the chunk y of the last one.
   */
  lemma InPlaceOverlap(base: nat) returns (states: seq<Process>, events: seq<Event>, x: nat, y: nat)
    requires base % PAGE == 0
    ensures Run(states, events) && |events| == 4
    ensures var s := states[4];
            && x in s.bufs && y in s.bufs && y > x && s.bufs[x].size == s.bufs[y].size == 60000
            && HasRecord(s, s.bufs[x]) && 67000 <= OldSize(s.heaps[s.bufs[x].tid].recs[s.bufs[x].blk])
            && !Fits(s, x, s.bufs[x], 67000) && s.bufs[x].ptr + 67000 > y
  {
    SetsUp(base);
    x, y := base + 67712, base + 133248;
    states, events := RunFirst(base);
    states, events := RunNext(base, Block1(base), Block2(base), states, events);
    states, events := RunNext(base, Block2(base), Block3(base), states, events);
    Overlaps(base, states[4], x, y);
  }
}
