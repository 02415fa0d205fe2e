/**
 * One thread's heap (numaplace/ncalloc.c) as values: the blocks it owns and the lists that hold them.
 * Each function is one critical section under the heap's lock.
 */
module HeapModel {
  import opened Sequences
  import opened SizeClasses
  import opened ListMoves
  import opened HeapBlocks

  const PAGE_BLK_MAP_TRESH := 64
  const BIG_BLK_MAP_TRESH := 16

  /**
   * heap_t, and the block records in the memory that it owns. Blocks are named by their addresses, and lists
   * start at their heads: bins holds the blocks of small chunks, cache the unused blocks, big the unused big
   * blocks, used the big blocks that callers hold. mapped counts from the heap's creation.
   */
  datatype Heap = Heap(recs: map<nat, Rec>, bins: seq<seq<nat>>, cache: seq<nat>, big: seq<nat>, used: seq<nat>,
      mapped: int)

  /**
   * The heap after an allocation, the block that serves it and the header of the chunk; and whether the header is
   * written, which it is not for a chunk from the free stack.
   */
  datatype Granted = Granted(heap: Heap, blk: nat, hdr: nat, written: bool)

  // ---------------------------------------------------------------- the invariant

  /** A block that waits in the cache has no chunks. */
  predicate Idle(r: Rec) { r.small && r.starts == [] && r.freed == [] }

  ghost predicate InBin(recs: map<nat, Rec>, b: nat, k: nat) {
    b in recs && recs[b].bin == k && BlockOk(b, recs[b])
  }

  /** Blocks with space come before full ones. */
  ghost predicate SpaceFirst(recs: map<nat, Rec>, list: seq<nat>)
    requires forall i :: 0 <= i < |list| ==> list[i] in recs
  {
    forall i, j :: 0 <= i < j < |list| && Full(recs[list[i]]) ==> Full(recs[list[j]])
  }

  ghost predicate BinOk(recs: map<nat, Rec>, list: seq<nat>, k: nat) {
    && Distinct(list)
    && (forall i :: 0 <= i < |list| ==> InBin(recs, list[i], k))
    && SpaceFirst(recs, list)
  }

  ghost predicate BinsOk(recs: map<nat, Rec>, bins: seq<seq<nat>>) {
    |bins| == BINCNT && forall k :: 0 <= k < BINCNT ==> BinOk(recs, bins[k], k)
  }

  ghost predicate CacheOk(recs: map<nat, Rec>, cache: seq<nat>) {
    && Distinct(cache) && |cache| <= PAGE_BLK_MAP_TRESH
    && forall i :: 0 <= i < |cache| ==> cache[i] in recs && Idle(recs[cache[i]])
  }

  ghost predicate AllBig(recs: map<nat, Rec>, list: seq<nat>) {
    Distinct(list) && forall i :: 0 <= i < |list| ==> list[i] in recs && !recs[list[i]].small
  }

  ghost predicate BigOk(recs: map<nat, Rec>, big: seq<nat>, used: seq<nat>) {
    && AllBig(recs, big) && |big| <= BIG_BLK_MAP_TRESH
    && AllBig(recs, used)
    && forall i :: 0 <= i < |big| ==> big[i] !in used
  }

  /** Every owned block is in a list: a bin, the cache, the big cache or the big blocks in use. */
  ghost predicate Listed(h: Heap, b: nat)
    requires b in h.recs
  {
    var r := h.recs[b];
    if !r.small then b in h.big || b in h.used
    else if Idle(r) then b in h.cache
    else r.bin < |h.bins| && b in h.bins[r.bin]
  }

  predicate RecOk(b: nat, r: Rec, tid: nat) {
    && b % PAGE == 0 && r.tid == tid
    && (!r.small ==> r.size > 0 && r.size % BLKSIZE == 0)
  }

  ghost predicate Separate(recs: map<nat, Rec>) {
    forall b, c :: b in recs && c in recs && b < c ==> b + Bytes(recs[b]) <= c
  }

  function Total(bins: seq<seq<nat>>): nat {
    if bins == [] then 0 else Total(bins[..|bins| - 1]) + |bins[|bins| - 1]|
  }

  function SizeSum(recs: map<nat, Rec>, list: seq<nat>): nat {
    if list == [] then 0 else (if list[0] in recs then recs[list[0]].size else 0) + SizeSum(recs, list[1..])
  }

  /** The bytes of all owned blocks. */
  function OwnedBytes(h: Heap): nat {
    BLKSIZE * (Total(h.bins) + |h.cache|) + SizeSum(h.recs, h.big) + SizeSum(h.recs, h.used)
  }

  ghost predicate HeapOk(h: Heap, tid: nat) {
    && BinsOk(h.recs, h.bins)
    && CacheOk(h.recs, h.cache)
    && BigOk(h.recs, h.big, h.used)
    && (forall b :: b in h.recs ==> RecOk(b, h.recs[b], tid) && Listed(h, b))
    && Separate(h.recs)
    && h.mapped == OwnedBytes(h)
  }

  /** A chunk that a caller holds: of a small block, or the one chunk of a big block in use. */
  predicate LiveIn(h: Heap, b: nat, x: nat) {
    b in h.recs && if h.recs[b].small then Live(h.recs[b], x) else b in h.used && x == b + BLK_BYTES
  }

  /** A chunk on the stack of free pointers of a small block. */
  predicate Stacked(h: Heap, b: nat, x: nat) { b in h.recs && h.recs[b].small && x in h.recs[b].freed }

  /** What mmap returns: pages that overlap no block. */
  ghost predicate Fresh(h: Heap, base: nat, bytes: nat) {
    base % PAGE == 0 && forall b :: b in h.recs ==> b + Bytes(h.recs[b]) <= base || base + bytes <= b
  }

  // ---------------------------------------------------------------- nc_malloc_small

  function EmptyHeap(): Heap { Heap(map[], seq(BINCNT, _ => []), [], [], [], 0) }

  /** A full head goes to the tail (lines 428-440). */
  function Rotated(list: seq<nat>, full: bool): seq<nat> { if full && |list| > 1 then ToTail(list) else list }

  /** The head has a chunk (lines 410-441). */
  function MallocFromHead(h: Heap, bin: nat, binsize: nat): Granted
    requires bin < |h.bins| && h.bins[bin] != [] && h.bins[bin][0] in h.recs && !Full(h.recs[h.bins[bin][0]])
  {
    var b := h.bins[bin][0];
    var r := Take(h.recs[b], binsize);
    Granted(h.(recs := h.recs[b := r], bins := h.bins[bin := Rotated(h.bins[bin], Full(r))]), b, TakenChunk(h.recs[b]),
        RestCount(h.recs[b]) != 0)
  }

  /** No block of the bin has a chunk: the head, if any, is full and rotates, and a block is added (lines 428-477). */
  function MallocFromBlock(h: Heap, tid: nat, bin: nat, binsize: nat, newbase: nat): Granted
    requires bin < |h.bins|
  {
    var b := if h.cache != [] then h.cache[0] else newbase;
    var bins := h.bins[bin := [b] + Rotated(h.bins[bin], true)];
    var recs := h.recs[b := FirstChunk(b, tid, bin, binsize)];
    var h' := if h.cache != [] then h.(recs := recs, bins := bins, cache := h.cache[1..])
              else h.(recs := recs, bins := bins, mapped := h.mapped + BLKSIZE);
    Granted(h', b, b + BLK_BYTES, true)
  }

  /** Lines 408-477: a null head and a full one both lead to another block. */
  function MallocSmall(h: Heap, tid: nat, size: nat, newbase: nat): Granted
    requires size <= SMALL_MAX && |h.bins| == BINCNT
  {
    var bin := BinOf(size + HDR_BYTES);
    var binsize := ChunkSize(size + HDR_BYTES, bin);
    if h.bins[bin] != [] && h.bins[bin][0] in h.recs && !Full(h.recs[h.bins[bin][0]])
        then MallocFromHead(h, bin, binsize)
    else MallocFromBlock(h, tid, bin, binsize, newbase)
  }

  // ---------------------------------------------------------------- nc_free_small

  function Emptied(r: Rec): Rec { r.(starts := [], freed := []) }

  function FreeSmall(h: Heap, b: nat, x: nat): Heap
    requires b in h.recs && h.recs[b].bin < |h.bins| && b in h.bins[h.recs[b].bin]
  {
    var r := h.recs[b];
    var list := h.bins[r.bin];
    if FreeCount(r) + 1 < r.cnt then
      h.(recs := h.recs[b := Give(r, x)], bins := h.bins[r.bin := ToFront(list, IndexOf(list, b))])
    else
      var bins := h.bins[r.bin := Without(list, IndexOf(list, b))];
      if |h.cache| < PAGE_BLK_MAP_TRESH then
        h.(recs := h.recs[b := Emptied(r)], bins := bins, cache := [b] + h.cache)
      else
        h.(recs := h.recs - {b}, bins := bins, mapped := h.mapped - BLKSIZE)
  }

  // ---------------------------------------------------------------- nc_malloc_big, nc_free_big

  /** The first block from the head that is large enough, or the length of the list (lines 495-501). */
  function FirstFit(recs: map<nat, Rec>, big: seq<nat>, size0: nat): (i: nat)
    ensures i <= |big|
    ensures i < |big| ==> big[i] in recs && recs[big[i]].size >= size0
    ensures forall j :: 0 <= j < i && big[j] in recs ==> recs[big[j]].size < size0
  {
    if big == [] || (big[0] in recs && recs[big[0]].size >= size0) then 0 else 1 + FirstFit(recs, big[1..], size0)
  }

  function RoundUp(size0: nat): (r: nat)
    ensures r >= size0 && r % BLKSIZE == 0 && r < size0 + BLKSIZE
  {
    (size0 + (BLKSIZE - 1)) / BLKSIZE * BLKSIZE
  }

  function BigRec(tid: nat, size: nat): Rec { Rec(tid, false, 0, size, 0, [], 0, []) }

  function MallocBig(h: Heap, tid: nat, size: nat, newbase: nat): Granted {
    var size0 := size + BLK_BYTES + HDR_BYTES;
    var i := FirstFit(h.recs, h.big, size0);
    if i < |h.big| then
      Granted(h.(big := Without(h.big, i), used := h.used + [h.big[i]]), h.big[i], h.big[i] + BLK_BYTES, true)
    else
      var bytes := RoundUp(size0);
      var h' := h.(recs := h.recs[newbase := BigRec(tid, bytes)], used := h.used + [newbase],
          mapped := h.mapped + bytes);
      Granted(h', newbase, newbase + BLK_BYTES, true)
  }

  function FreeBig(h: Heap, b: nat): Heap
    requires b in h.used
    requires forall i :: 0 <= i < |h.big| ==> h.big[i] in h.recs
  {
    var used := Without(h.used, IndexOf(h.used, b));
    if |h.big| < BIG_BLK_MAP_TRESH then h.(big := [b] + h.big, used := used)
    else
      var tail := h.big[|h.big| - 1];
      h.(recs := h.recs - {tail}, big := ([b] + h.big)[..|h.big|], used := used, mapped := h.mapped - h.recs[tail].size)
  }
}
