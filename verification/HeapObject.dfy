/**
 * heap_t of numaplace/ncalloc.c as an object that its methods change in place. Each method is proved
 * against the function of the same name in HeapModel: it takes an object that represents a model heap m
 * to one that represents what the function makes of m. What an object represents has four parts that
 * change at different times: who owns the blocks (Owned), the links (Linking), the names in the lists
 * (BinNames, CacheNames, BigNames), and the fields of the block headers (Records). A change is proved for
 * the links first, then for the names, and then the parts that it does not touch are carried along.
 */
module HeapObject {
  import opened Sequences
  import opened SizeClasses
  import opened ListMoves
  import opened HeapBlocks
  import HeapModel
  import opened HeapInvariant
  import opened HeapLists

  type Model = HeapModel.Heap

  /** The nodes are owned blocks, and bases are their addresses. */
  ghost predicate Names(nodes: seq<Blk>, bases: seq<nat>) {
    |nodes| == |bases| && forall i :: 0 <= i < |nodes| ==> nodes[i].base == bases[i]
  }

  ghost predicate Among(nodes: seq<Blk>, blocks: set<Blk>) {
    forall i :: 0 <= i < |nodes| ==> nodes[i] in blocks
  }

  /** The lists and records after a block was added to a bin. */
  ghost function WithBlock(m: Model, tid: nat, bin: nat, binsize: nat, newbase: nat): (m': Model)
    requires bin < |m.bins|
  {
    var b := if m.cache != [] then m.cache[0] else newbase;
    m.(recs := m.recs[b := FirstChunk(b, tid, bin, binsize)], bins := m.bins[bin := [b] + m.bins[bin]],
       cache := if m.cache != [] then m.cache[1..] else m.cache,
       mapped := m.mapped + if m.cache != [] then 0 else BLKSIZE)
  }

  lemma SplitMalloc(m: Model, m0: Model, tid: nat, bin: nat, binsize: nat, newbase: nat)
    requires bin < |m.bins| && m0 == m.(bins := m.bins[bin := HeapModel.Rotated(m.bins[bin], true)])
    ensures HeapModel.MallocFromBlock(m, tid, bin, binsize, newbase).heap == WithBlock(m0, tid, bin, binsize, newbase)
  {
  }

  class HeapT {
    const tid: nat
    const bins: seq<BlkList>
    const biglru: BlkList
    var blkfree: Blk?
    var blkfreecnt: int
    var biglrucnt: int
    var mapped: int
    ghost var cache: seq<Blk>
    ghost var used: seq<Blk>
    ghost var blocks: set<Blk>

    ghost predicate Owned()
      reads this`blocks, this`cache, this`used, bins`nodes, biglru`nodes
    {
      && |bins| == BINCNT && Distinct(bins) && biglru !in bins
      && (forall k :: 0 <= k < |bins| ==> Among(bins[k].nodes, blocks))
      && Among(biglru.nodes, blocks) && Among(cache, blocks) && Among(used, blocks)
    }

    ghost predicate NextInCache(i: nat)
      requires i < |cache|
      reads this`cache, cache`next
    {
      cache[i].next == if i + 1 < |cache| then cache[i + 1] else null
    }

    ghost predicate Linking()
      requires Owned()
      reads this`blocks, this`cache, this`used, this`blkfree, bins, biglru, blocks`prev, blocks`next
    {
      && (forall k :: 0 <= k < |bins| ==> bins[k].Linked())
      && biglru.Linked()
      && blkfree == (if cache == [] then null else cache[0])
      && forall i :: 0 <= i < |cache| ==> NextInCache(i)
    }

    /** The lists have no node in common with bin k. */
    ghost predicate Apart(k: nat)
      requires k < |bins|
      reads this`cache, bins`nodes, biglru`nodes
    {
      && (forall j, i :: 0 <= j < |bins| && j != k && 0 <= i < |bins[j].nodes| ==> bins[j].nodes[i] !in bins[k].nodes)
      && (forall i :: 0 <= i < |biglru.nodes| ==> biglru.nodes[i] !in bins[k].nodes)
      && (forall i :: 0 <= i < |cache| ==> cache[i] !in bins[k].nodes)
    }

    /** The lists name the blocks that the model's lists name. */
    ghost predicate BinNames(names: seq<seq<nat>>)
      reads bins`nodes
    {
      |bins| == BINCNT == |names| && forall k :: 0 <= k < BINCNT ==> Names(bins[k].nodes, names[k])
    }

    ghost predicate CacheNames(names: seq<nat>)
      reads this`cache, this`blkfreecnt
    {
      Names(cache, names) && blkfreecnt == |names|
    }

    ghost predicate BigNames(big: seq<nat>, inUse: seq<nat>)
      reads this`used, this`biglrucnt, biglru`nodes
    {
      Names(biglru.nodes, big) && biglrucnt == |big| && Names(used, inUse)
    }

    ghost predicate Lists(m: Model)
      reads this`cache, this`used, this`blkfreecnt, this`biglrucnt, bins`nodes, biglru`nodes
    {
      BinNames(m.bins) && CacheNames(m.cache) && BigNames(m.big, m.used)
    }

    ghost predicate RecordsOf(bs: set<Blk>, recs: map<nat, Rec>)
      reads bs`tid, bs`small, bs`binndx, bs`restcnt, bs`freecnt, bs`cnt, bs`rest, bs`free, bs`size, bs`cells
    {
      && (forall b, c :: b in bs && c in bs && b.base == c.base ==> b == c)
      && (forall b :: b in bs ==> b.base in recs && b.Reps(recs[b.base]))
      && (forall a :: a in recs ==> exists b :: b in bs && b.base == a)
    }

    ghost predicate Records(recs: map<nat, Rec>)
      reads this`blocks, blocks`tid, blocks`small, blocks`binndx, blocks`restcnt, blocks`freecnt, blocks`cnt,
          blocks`rest, blocks`free, blocks`size, blocks`cells
    {
      RecordsOf(blocks, recs)
    }

    /** The fields represent the heap m, which is well formed. */
    ghost predicate Valid(m: Model)
      reads this, bins, biglru, blocks
    {
      Owned() && Linking() && Lists(m) && Records(m.recs) && mapped == m.mapped && HeapModel.HeapOk(m, tid)
    }

    /** A thread's first call makes an empty heap (lines 216-230). */
    constructor (tid: nat)
      ensures Valid(HeapModel.EmptyHeap()) && this.tid == tid && blocks == {}
    {
      this.tid := tid;
      var lists: seq<BlkList> := [];
      while |lists| < BINCNT
        invariant |lists| <= BINCNT && Distinct(lists)
        invariant forall k :: 0 <= k < |lists| ==> lists[k].Linked() && lists[k].nodes == [] && fresh(lists[k])
      {
        var l := new BlkList();
        lists := lists + [l];
      }
      var lru := new BlkList();
      bins, biglru := lists, lru;
      blkfree, blkfreecnt, biglrucnt, mapped := null, 0, 0, 0;
      cache, used, blocks := [], [], {};
      EmptyHeapOk(tid);
    }

    // -------------------------------------------------------------- nodes and records

    /** A block of bin k, by its record. */
    lemma BinNode(m: Model, k: nat, i: nat)
      requires Owned() && Lists(m) && Records(m.recs) && HeapModel.HeapOk(m, tid)
      requires k < BINCNT && i < |bins[k].nodes|
      ensures var n := bins[k].nodes[i];
              n in blocks && n.base in m.recs && n.small && m.recs[n.base].bin == k && m.recs[n.base].starts != []
              && n.Chunks(m.recs[n.base]) && n.base == m.bins[k][i] && BlockOk(n.base, m.recs[n.base])
    {
      assert Names(bins[k].nodes, m.bins[k]) && Among(bins[k].nodes, blocks);
      var n := bins[k].nodes[i];
      assert HeapModel.BinOk(m.recs, m.bins[k], k);
      assert HeapModel.InBin(m.recs, m.bins[k][i], k);
      assert n.Reps(m.recs[n.base]);
    }

    lemma CacheNode(m: Model, i: nat)
      requires Owned() && Lists(m) && Records(m.recs) && HeapModel.HeapOk(m, tid) && i < |cache|
      ensures cache[i] in blocks && cache[i].base in m.recs && HeapModel.Idle(m.recs[cache[i].base])
      ensures cache[i].base == m.cache[i]
    {
    }

    lemma BigNode(m: Model, i: nat)
      requires Owned() && Lists(m) && Records(m.recs) && HeapModel.HeapOk(m, tid) && i < |biglru.nodes|
      ensures var n := biglru.nodes[i];
              n in blocks && n.base in m.recs && !m.recs[n.base].small && n.base == m.big[i]
                  && n.size == m.recs[n.base].size
    {
      var n := biglru.nodes[i];
      assert n.Reps(m.recs[n.base]);
    }

    lemma NodesApart(m: Model, k: nat)
      requires Owned() && Lists(m) && Records(m.recs) && HeapModel.HeapOk(m, tid) && k < BINCNT
      ensures Apart(k)
    {
      forall i | 0 <= i < |bins[k].nodes| ensures bins[k].nodes[i].small && m.recs[bins[k].nodes[i].base].bin == k
          && !HeapModel.Idle(m.recs[bins[k].nodes[i].base]) {
        BinNode(m, k, i);
      }
      forall j, i | 0 <= j < BINCNT && j != k && 0 <= i < |bins[j].nodes| ensures bins[j].nodes[i] !in bins[k].nodes {
        BinNode(m, j, i);
      }
      forall i | 0 <= i < |biglru.nodes| ensures biglru.nodes[i] !in bins[k].nodes {
        BigNode(m, i);
      }
      forall i | 0 <= i < |cache| ensures cache[i] !in bins[k].nodes {
        CacheNode(m, i);
      }
    }

    // -------------------------------------------------------------- one bin changes its order

    method RotateLinks(k: nat)
      requires Owned() && Linking() && k < |bins| && Apart(k) && bins[k].nodes != []
      modifies bins[k], bins[k].nodes`prev, bins[k].nodes`next
      ensures Owned() && Linking()
      ensures bins[k].nodes == ToTail(old(bins[k].nodes)) && forall j :: 0 <= j < |bins| && j != k ==>
              bins[j].nodes == old(bins[j].nodes)
    {
      ToTailKeeps(bins[k].nodes);
      bins[k].HeadToTail();
    }

    method Rotate(k: nat, ghost names: seq<seq<nat>>)
      requires Owned() && Linking() && k < |bins| && Apart(k) && bins[k].nodes != [] && BinNames(names)
      modifies bins[k], bins[k].nodes`prev, bins[k].nodes`next
      ensures Owned() && Linking() && BinNames(names[k := ToTail(names[k])])
      ensures bins[k].nodes == ToTail(old(bins[k].nodes)) && Apart(k)
    {
      ghost var was := bins[k].nodes;
      ToTailKeeps(was);
      assert bins[k] != biglru;
      RotateLinks(k);
      assert forall x :: x in bins[k].nodes ==> x in was;
      forall j | 0 <= j < BINCNT && j != k ensures Names(bins[j].nodes, names[j]) {
        assert old(Names(bins[j].nodes, names[j]));
      }
      assert old(Names(bins[k].nodes, names[k]));
    }

    /** Rotating changes no record. */
    method RotateOnly(k: nat, ghost names: seq<seq<nat>>, ghost recs: map<nat, Rec>)
      requires Owned() && Linking() && k < |bins| && Apart(k) && bins[k].nodes != [] && BinNames(names) && Records(recs)
      modifies bins[k], bins[k].nodes`prev, bins[k].nodes`next
      ensures Owned() && Linking() && BinNames(names[k := ToTail(names[k])]) && Records(recs)
      ensures bins[k].nodes == ToTail(old(bins[k].nodes)) && Apart(k)
    {
      Rotate(k, names);
    }

    // -------------------------------------------------------------- one record changes

    method TakeChunk(blk: Blk, binsize: nat, ghost recs: map<nat, Rec>) returns (hdr: nat)
      requires Records(recs) && blk in blocks && blk.base in recs
      requires blk.small && recs[blk.base].starts != [] && !Full(recs[blk.base]) && RestCount(recs[blk.base]) >= 0
      modifies blk`restcnt, blk`rest, blk`freecnt, blk`free
      ensures Records(recs[blk.base := Take(recs[blk.base], binsize)])
      ensures blk.restcnt + blk.freecnt == 0 <==> Full(Take(recs[blk.base], binsize))
      ensures hdr == TakenChunk(recs[blk.base])
    {
      hdr := blk.TakeChunk(binsize, recs[blk.base]);
      forall b | b in blocks && b != blk ensures b.base in recs && b.Reps(recs[b.base]) {
        assert old(b.Reps(recs[b.base]));
      }
    }

    method GiveChunk(blk: Blk, hdr: nat, ghost recs: map<nat, Rec>)
      requires Records(recs) && blk in blocks && blk.base in recs && blk.small && recs[blk.base].starts != []
      modifies blk`freecnt, blk`free, blk`cells
      ensures Records(recs[blk.base := Give(recs[blk.base], hdr)])
    {
      blk.GiveChunk(hdr, recs[blk.base]);
      forall b | b in blocks && b != blk ensures b.base in recs && b.Reps(recs[b.base]) {
        assert old(b.Reps(recs[b.base]));
      }
    }

    // -------------------------------------------------------------- nc_malloc_small

    /** The head of a bin that is not full. */
    ghost predicate HeadReady(bin: nat, recs: map<nat, Rec>, names: seq<seq<nat>>)
      reads this`blocks, this`cache, bins`nodes, biglru`nodes, bins`head, blocks`small
    {
      && bin < |bins| && bin < |names| && Apart(bin) && bins[bin].nodes != [] && bins[bin].head == bins[bin].nodes[0]
      && bins[bin].nodes[0] in blocks && bins[bin].nodes[0].small
      && names[bin] != [] && names[bin][0] == bins[bin].nodes[0].base && names[bin][0] in recs
      && recs[names[bin][0]].starts != [] && !Full(recs[names[bin][0]]) && 0 <= RestCount(recs[names[bin][0]])
    }

    lemma HeadIsReady(m: Model, bin: nat, binsize: nat)
      requires Valid(m) && IsBin(bin) && SizeOfBin(binsize, bin)
      requires m.bins[bin] != [] && m.bins[bin][0] in m.recs && !Full(m.recs[m.bins[bin][0]])
      ensures HeadReady(bin, m.recs, m.bins)
      ensures HeapModel.HeapOk(HeapModel.MallocFromHead(m, bin, binsize).heap, tid)
    {
      HeadHasChunk(m, tid, bin, binsize);
      assert Names(bins[bin].nodes, m.bins[bin]);
      NodesApart(m, bin);
      BinNode(m, bin, 0);
    }

    /** Taking a chunk changes no list. */
    method TakeOnly(bin: nat, binsize: nat, ghost recs: map<nat, Rec>, ghost names: seq<seq<nat>>)
          returns (hdr: nat, emptied: bool)
      requires Owned() && Linking() && BinNames(names) && Records(recs) && HeadReady(bin, recs, names)
      modifies blocks
      ensures Owned() && Linking() && BinNames(names) && Apart(bin) && bins[bin].nodes != []
      ensures Records(recs[names[bin][0] := Take(recs[names[bin][0]], binsize)])
      ensures hdr == TakenChunk(recs[names[bin][0]]) && emptied == Full(Take(recs[names[bin][0]], binsize))
    {
      var blk := bins[bin].head;
      hdr := TakeChunk(blk, binsize, recs);
      emptied := blk.restcnt + blk.freecnt == 0;
    }

    /** Lines 410-441, as far as they change fields. */
    method TakeAndRotate(bin: nat, binsize: nat, ghost recs: map<nat, Rec>, ghost names: seq<seq<nat>>,
                         ghost recs': map<nat, Rec>, ghost names': seq<seq<nat>>)
        returns (hdr: nat)
      requires Owned() && Linking() && BinNames(names) && Records(recs) && HeadReady(bin, recs, names)
      requires recs' == recs[names[bin][0] := Take(recs[names[bin][0]], binsize)]
      requires names' == if Full(Take(recs[names[bin][0]], binsize)) then names[bin := ToTail(names[bin])] else names
      modifies bins[bin], blocks
      ensures Owned() && Linking() && Records(recs') && BinNames(names')
      ensures hdr == TakenChunk(recs[names[bin][0]])
    {
      var emptied;
      hdr, emptied := TakeOnly(bin, binsize, recs, names);
      if emptied {
        RotateOnly(bin, names, recs');
      }
    }

    lemma HeadMoves(bin: nat, r: Rec, names: seq<seq<nat>>)
      requires bin < |names|
      ensures names[bin := HeapModel.Rotated(names[bin], Full(r))] == if Full(r) then names[bin := ToTail(names[bin])]
              else names
    {
      assert names[bin := names[bin]] == names;
      assert |names[bin]| <= 1 ==> ToTail(names[bin]) == names[bin];
    }

    /** Lines 410-441: the head of the bin has a chunk. */
    method TakeFromHead(bin: nat, binsize: nat, ghost m: Model) returns (hdr: nat)
      requires Owned() && Linking() && Lists(m) && Records(m.recs) && HeadReady(bin, m.recs, m.bins)
      modifies bins[bin], blocks
      ensures Owned() && Linking() && Lists(HeapModel.MallocFromHead(m, bin, binsize).heap)
      ensures Records(HeapModel.MallocFromHead(m, bin, binsize).heap.recs)
      ensures hdr == HeapModel.MallocFromHead(m, bin, binsize).hdr
    {
      ghost var m' := HeapModel.MallocFromHead(m, bin, binsize).heap;
      HeadMoves(bin, Take(m.recs[m.bins[bin][0]], binsize), m.bins);
      hdr := TakeAndRotate(bin, binsize, m.recs, m.bins, m'.recs, m'.bins);
      assert CacheNames(m'.cache);
      assert BigNames(m'.big, m'.used);
    }

    // -------------------------------------------------------------- a block enters a bin

    /** blk is in none of the linked lists. */
    ghost predicate Loose(blk: Blk)
      reads this`blocks, this`cache, bins`nodes, biglru`nodes
    {
      && blk in blocks && blk !in biglru.nodes && blk !in cache
      && forall k :: 0 <= k < |bins| ==> blk !in bins[k].nodes
    }

    method PushBin(k: nat, blk: Blk, ghost names: seq<seq<nat>>)
      requires Owned() && Linking() && k < |bins| && Apart(k) && Loose(blk) && BinNames(names)
      modifies bins[k], blk`prev, blk`next, bins[k].nodes`prev
      ensures Owned() && Linking() && BinNames(names[k := [blk.base] + names[k]])
    {
      bins[k].PushFront(blk);
      forall j | 0 <= j < BINCNT && j != k ensures Names(bins[j].nodes, names[j]) {
        assert old(Names(bins[j].nodes, names[j]));
      }
      assert old(Names(bins[k].nodes, names[k]));
    }

    method PushBinOnly(k: nat, blk: Blk, ghost names: seq<seq<nat>>, ghost recs: map<nat, Rec>)
      requires Owned() && Linking() && k < |bins| && Apart(k) && Loose(blk) && BinNames(names) && Records(recs)
      modifies bins[k], blk`prev, blk`next, bins[k].nodes`prev
      ensures Owned() && Linking() && BinNames(names[k := [blk.base] + names[k]]) && Records(recs)
    {
      PushBin(k, blk, names);
    }

    /** Nor does it change the other lists. */
    method PushBinAll(k: nat, blk: Blk, ghost names: seq<seq<nat>>, ghost unused: seq<nat>, ghost big: seq<nat>,
                      ghost inUse: seq<nat>, ghost recs: map<nat, Rec>)
      requires Owned() && Linking() && k < |bins| && Apart(k) && Loose(blk) && BinNames(names) && Records(recs)
      requires CacheNames(unused) && BigNames(big, inUse)
      modifies bins[k], blk`prev, blk`next, bins[k].nodes`prev
      ensures Owned() && Linking() && BinNames(names[k := [blk.base] + names[k]]) && Records(recs) && CacheNames(unused)
      ensures BigNames(big, inUse)
    {
      assert bins[k] != biglru;
      PushBinOnly(k, blk, names, recs);
    }

    /** Lines 444-450: an unused block is reused. */
    method PopCache(ghost names: seq<nat>) returns (blk: Blk)
      requires Owned() && Linking() && CacheNames(names) && cache != []
      modifies this`blkfree, this`blkfreecnt, this`cache
      ensures Owned() && Linking() && CacheNames(names[1..]) && blk == old(cache[0]) && cache == old(cache[1..])
    {
      assert NextInCache(0);
      blk := blkfree;
      blkfree := blk.next;
      blkfreecnt := blkfreecnt - 1;
      ghost var was := cache;
      cache := cache[1..];
      forall i | 0 <= i < |cache| ensures NextInCache(i) {
        assert cache[i] == was[i + 1] && old(NextInCache(i + 1));
      }
    }

    method InitRecord(blk: Blk, bin: nat, binsize: nat, ghost recs: map<nat, Rec>) returns (hdr: nat)
      requires Records(recs) && blk in blocks && blk.base in recs
      modifies blk`small, blk`tid, blk`binndx, blk`restcnt, blk`freecnt, blk`cnt, blk`rest, blk`free, blk`size
      ensures Records(recs[blk.base := FirstChunk(blk.base, tid, bin, binsize)]) && hdr == blk.base + BLK_BYTES
    {
      hdr := blk.Init(tid, bin, binsize);
      forall b | b in blocks && b != blk ensures b.base in recs && b.Reps(recs[b.base]) {
        assert old(b.Reps(recs[b.base]));
      }
    }

    /** bklalloc and initblk (lines 451-462). */
    method MapBlock(newbase: nat, bin: nat, binsize: nat, ghost recs: map<nat, Rec>) returns (blk: Blk, hdr: nat)
      requires Records(recs) && newbase !in recs
      modifies this`blocks, this`mapped
      ensures fresh(blk) && blk.base == newbase && blocks == old(blocks) + {blk} && mapped == old(mapped) + BLKSIZE
      ensures Records(recs[newbase := FirstChunk(newbase, tid, bin, binsize)]) && hdr == newbase + BLK_BYTES
    {
      blk := new Blk(newbase, tid);
      mapped := mapped + BLKSIZE;
      hdr := blk.Init(tid, bin, binsize);
      blocks := blocks + {blk};
      ghost var recs' := recs[newbase := FirstChunk(newbase, tid, bin, binsize)];
      forall b | b in blocks ensures b.base in recs' && b.Reps(recs'[b.base]) {
        if b != blk { assert old(b.Reps(recs[b.base])); }
      }
    }

    /** The first unused block is in no other list. */
    ghost predicate CacheReady(recs: map<nat, Rec>)
      reads this`blocks, this`cache, bins`nodes, biglru`nodes
    {
      && cache != [] && cache[0] in blocks && cache[0].base in recs && cache[0] !in biglru.nodes
      && cache[0] !in cache[1..]
      && forall k :: 0 <= k < |bins| ==> cache[0] !in bins[k].nodes
    }

    lemma CacheIsReady(m: Model)
      requires Valid(m) && cache != []
      ensures CacheReady(m.recs)
    {
      CacheNode(m, 0);
      forall k | 0 <= k < |bins| ensures cache[0] !in bins[k].nodes {
        NodesApart(m, k);
      }
      forall i | 0 <= i < |biglru.nodes| ensures biglru.nodes[i] != cache[0] {
        BigNode(m, i);
      }
      assert Names(cache, m.cache) && Distinct(m.cache);
    }

    method PopOnly(ghost m: Model, bin: nat) returns (blk: Blk)
      requires Owned() && Linking() && Lists(m) && Records(m.recs) && CacheReady(m.recs) && bin < |bins| && Apart(bin)
      modifies this`blkfree, this`blkfreecnt, this`cache
      ensures Owned() && Linking() && BinNames(m.bins) && CacheNames(m.cache[1..]) && BigNames(m.big, m.used)
      ensures Records(m.recs)
      ensures blk.base == m.cache[0] && blk in blocks && blk.base in m.recs && Loose(blk) && Apart(bin)
    {
      blk := PopCache(m.cache);
    }

    method InitOnly(blk: Blk, bin: nat, binsize: nat, ghost m: Model, ghost names: seq<nat>) returns (hdr: nat)
      requires Owned() && Linking() && BinNames(m.bins) && CacheNames(names) && BigNames(m.big, m.used)
      requires Records(m.recs)
      requires blk in blocks && blk.base in m.recs && Loose(blk) && bin < |bins| && Apart(bin)
      modifies blk`small, blk`tid, blk`binndx, blk`restcnt, blk`freecnt, blk`cnt, blk`rest, blk`free, blk`size
      ensures Owned() && Linking() && BinNames(m.bins) && CacheNames(names) && BigNames(m.big, m.used) && Loose(blk)
      ensures Apart(bin)
      ensures Records(m.recs[blk.base := FirstChunk(blk.base, tid, bin, binsize)]) && hdr == blk.base + BLK_BYTES
    {
      hdr := InitRecord(blk, bin, binsize, m.recs);
    }

    method PopAndInit(bin: nat, binsize: nat, ghost m: Model, ghost base: nat, ghost unused: seq<nat>)
          returns (blk: Blk, hdr: nat)
      requires Owned() && Linking() && Lists(m) && Records(m.recs) && CacheReady(m.recs) && bin < |bins| && Apart(bin)
      requires m.cache == [base] + unused
      modifies this`blkfree, this`blkfreecnt, this`cache, blocks
      ensures Owned() && Linking() && BinNames(m.bins) && CacheNames(unused) && BigNames(m.big, m.used) && Loose(blk)
      ensures Apart(bin)
      ensures blk.base == base && Records(m.recs[base := FirstChunk(base, tid, bin, binsize)])
      ensures hdr == base + BLK_BYTES
    {
      assert m.cache[1..] == unused;
      blk := PopOnly(m, bin);
      hdr := InitOnly(blk, bin, binsize, m, unused);
    }

    /** Lines 443-477, when there is an unused block. */
    method ReuseBlock(bin: nat, binsize: nat, ghost m: Model, ghost base: nat, ghost unused: seq<nat>)
          returns (hdr: nat)
      requires Owned() && Linking() && Lists(m) && Records(m.recs) && CacheReady(m.recs) && bin < |bins| && Apart(bin)
      requires m.cache == [base] + unused
      modifies this`blkfree, this`blkfreecnt, this`cache, bins[bin], blocks
      ensures Owned() && Linking() && Records(m.recs[base := FirstChunk(base, tid, bin, binsize)])
      ensures BinNames(m.bins[bin := [base] + m.bins[bin]]) && CacheNames(unused) && BigNames(m.big, m.used)
      ensures hdr == base + BLK_BYTES
    {
      var blk;
      blk, hdr := PopAndInit(bin, binsize, m, base, unused);
      PushBinAll(bin, blk, m.bins, unused, m.big, m.used, m.recs[base := FirstChunk(base, tid, bin, binsize)]);
    }

    method MapLinks(bin: nat, binsize: nat, newbase: nat, ghost recs: map<nat, Rec>) returns (blk: Blk, hdr: nat)
      requires Owned() && Linking() && Records(recs) && newbase !in recs
      modifies this`blocks, this`mapped
      ensures fresh(blk) && blk.base == newbase && blocks == old(blocks) + {blk} && mapped == old(mapped) + BLKSIZE
      ensures Owned() && Linking() && Records(recs[newbase := FirstChunk(newbase, tid, bin, binsize)])
      ensures hdr == newbase + BLK_BYTES
    {
      ghost var was := blocks;
      blk, hdr := MapBlock(newbase, bin, binsize, recs);
      assert forall b :: b in was ==> b in blocks;
    }

    method MapOnly(bin: nat, binsize: nat, newbase: nat, ghost m: Model) returns (blk: Blk, hdr: nat)
      requires Owned() && Linking() && Lists(m) && Records(m.recs) && newbase !in m.recs && bin < |bins| && Apart(bin)
      modifies this`blocks, this`mapped
      ensures fresh(blk) && blk.base == newbase && blocks == old(blocks) + {blk} && mapped == old(mapped) + BLKSIZE
      ensures Owned() && Linking() && Lists(m) && Loose(blk) && Apart(bin)
      ensures Records(m.recs[newbase := FirstChunk(newbase, tid, bin, binsize)]) && hdr == newbase + BLK_BYTES
    {
      blk, hdr := MapLinks(bin, binsize, newbase, m.recs);
    }

    /** Lines 443-477, when memory has to be mapped. */
    method NewBlock(bin: nat, binsize: nat, newbase: nat, ghost m: Model) returns (hdr: nat)
      requires Owned() && Linking() && Lists(m) && Records(m.recs) && newbase !in m.recs && bin < |bins| && Apart(bin)
      modifies this`blocks, this`mapped, bins[bin], blocks
      ensures mapped == old(mapped) + BLKSIZE
      ensures Owned() && Linking() && Records(m.recs[newbase := FirstChunk(newbase, tid, bin, binsize)])
      ensures BinNames(m.bins[bin := [newbase] + m.bins[bin]]) && CacheNames(m.cache) && BigNames(m.big, m.used)
      ensures hdr == newbase + BLK_BYTES
    {
      ghost var nodes := bins[bin].nodes;
      assert Among(nodes, blocks);
      var blk;
      blk, hdr := MapOnly(bin, binsize, newbase, m);
      assert bins[bin].nodes == nodes;
      PushBinAll(bin, blk, m.bins, m.cache, m.big, m.used, m.recs[newbase := FirstChunk(newbase, tid, bin, binsize)]);
    }

    method RotateLists(k: nat, ghost m: Model)
      requires Owned() && Linking() && Lists(m) && Records(m.recs) && k < |bins| && Apart(k) && bins[k].nodes != []
      modifies bins[k], bins[k].nodes`prev, bins[k].nodes`next
      ensures Owned() && Linking() && BinNames(m.bins[k := ToTail(m.bins[k])]) && CacheNames(m.cache)
      ensures BigNames(m.big, m.used) && Records(m.recs)
      ensures bins[k].nodes == ToTail(old(bins[k].nodes)) && Apart(k)
    {
      assert bins[k] != biglru;
      RotateOnly(k, m.bins, m.recs);
    }

    /** Rotating changes no other list. */
    method RotateAll(k: nat, ghost m: Model)
      requires Owned() && Linking() && Lists(m) && Records(m.recs) && k < |bins| && Apart(k) && bins[k].nodes != []
      modifies bins[k], bins[k].nodes`prev, bins[k].nodes`next
      ensures Owned() && Linking() && BinNames(m.bins[k := ToTail(m.bins[k])]) && CacheNames(m.cache)
      ensures BigNames(m.big, m.used) && Records(m.recs)
      ensures Apart(k) && (old(CacheReady(m.recs)) ==> CacheReady(m.recs))
    {
      assert bins[k] != biglru;
      ToTailKeeps(bins[k].nodes);
      RotateLists(k, m);
    }

    /** Lines 443-477: a block is added. */
    method AddBlock(bin: nat, binsize: nat, newbase: nat, ghost m: Model, ghost m': Model) returns (hdr: nat)
      requires Owned() && Linking() && Lists(m) && Records(m.recs) && bin < |bins| && Apart(bin) && mapped == m.mapped
      requires if cache != [] then CacheReady(m.recs) else newbase !in m.recs
      requires bin < |m.bins| && m' == WithBlock(m, tid, bin, binsize, newbase)
      modifies this`blkfree, this`blkfreecnt, this`cache, this`blocks, this`mapped, bins[bin], blocks
      ensures Owned() && Linking() && Lists(m') && Records(m'.recs) && mapped == m'.mapped
      ensures hdr == (if m.cache != [] then m.cache[0] else newbase) + BLK_BYTES
    {
      if blkfree != null {
        assert m.cache == [m.cache[0]] + m.cache[1..];
        hdr := ReuseBlock(bin, binsize, m, m.cache[0], m.cache[1..]);
      } else {
        hdr := NewBlock(bin, binsize, newbase, m);
      }
    }

    /** Lines 428-477: the head of the bin, if any, is full, and a block is added. */
    method TakeFromBlock(bin: nat, binsize: nat, newbase: nat, ghost m: Model, ghost m0: Model, ghost m': Model)
          returns (hdr: nat)
      requires Owned() && Linking() && Lists(m) && Records(m.recs) && bin < |bins| && Apart(bin) && mapped == m.mapped
      requires if cache != [] then CacheReady(m.recs) else newbase !in m.recs
      requires bin < |m.bins| && m0 == m.(bins := m.bins[bin := HeapModel.Rotated(m.bins[bin], true)])
      requires m' == WithBlock(m0, tid, bin, binsize, newbase)
      modifies this`blkfree, this`blkfreecnt, this`cache, this`blocks, this`mapped, bins[bin], blocks
      ensures Owned() && Linking() && Lists(m') && Records(m'.recs) && mapped == m'.mapped
      ensures hdr == (if m.cache != [] then m.cache[0] else newbase) + BLK_BYTES
    {
      RotateHead(bin, m, m0);
      hdr := AddBlock(bin, binsize, newbase, m0, m');
    }

    method RotateHead(bin: nat, ghost m: Model, ghost m0: Model)
      requires Owned() && Linking() && Lists(m) && Records(m.recs) && bin < |bins| && Apart(bin)
      requires (cache != [] ==> CacheReady(m.recs))
      requires bin < |m.bins| && m0 == m.(bins := m.bins[bin := HeapModel.Rotated(m.bins[bin], true)])
      modifies bins[bin], bins[bin].nodes`prev, bins[bin].nodes`next
      ensures Owned() && Linking() && Lists(m0) && Records(m0.recs) && Apart(bin)
      ensures (cache != [] ==> CacheReady(m0.recs))
    {
      RotationOf(m.bins[bin]);
      if bins[bin].head != null {
        RotateAll(bin, m);
      } else {
        assert m0 == m;
      }
    }

    lemma RotationOf(names: seq<nat>)
      ensures HeapModel.Rotated(names, true) == ToTail(names)
    {
    }

    /** The head of bin k, as the branches of nc_malloc_small see it. */
    lemma HeadTells(m: Model, bin: nat)
      requires Valid(m) && IsBin(bin)
      ensures Apart(bin) && (bins[bin].head == null <==> m.bins[bin] == [])
      ensures bins[bin].head != null ==>
                && m.bins[bin][0] in m.recs && HeapModel.InBin(m.recs, m.bins[bin][0], bin)
                && (bins[bin].head.restcnt + bins[bin].head.freecnt == 0 <==> Full(m.recs[m.bins[bin][0]]))
    {
      NodesApart(m, bin);
      assert Names(bins[bin].nodes, m.bins[bin]);
      assert bins[bin].Linked();
      assert HeapModel.BinOk(m.recs, m.bins[bin], bin);
      if bins[bin].nodes != [] {
        BinNode(m, bin, 0);
      }
    }

    /** What the branches of nc_malloc_small find. */
    ghost predicate MallocReady(bin: nat, newbase: nat, m: Model)
      reads this`blocks, this`cache, bins`nodes, biglru`nodes, bins`head, blocks`small, blocks`restcnt, blocks`freecnt
    {
      && bin < |bins| && bin < |m.bins| && Apart(bin)
      && (bins[bin].head != null ==> bins[bin].head in blocks)
      && if bins[bin].head != null && bins[bin].head.restcnt + bins[bin].head.freecnt != 0
          then HeadReady(bin, m.recs, m.bins)
         else if cache != [] then CacheReady(m.recs) else newbase !in m.recs
    }

    lemma MallocIsReady(m: Model, size: nat, bin: nat, binsize: nat, newbase: nat)
      requires Valid(m) && size <= SMALL_MAX && HeapModel.Fresh(m, newbase, BLKSIZE)
      requires bin == BinOf(size + HDR_BYTES) && binsize == ChunkSize(size + HDR_BYTES, bin)
      ensures MallocReady(bin, newbase, m)
      ensures var g := HeapModel.MallocSmall(m, tid, size, newbase);
              && HeapModel.HeapOk(g.heap, tid)
              && g == if bins[bin].head != null && bins[bin].head.restcnt + bins[bin].head.freecnt != 0
                  then HeapModel.MallocFromHead(m, bin, binsize)
                      else HeapModel.MallocFromBlock(m, tid, bin, binsize, newbase)
    {
      ClassIsGood(size + HDR_BYTES, bin);
      HeadTells(m, bin);
      MallocSmallOk(m, tid, size, newbase);
      if bins[bin].head != null && bins[bin].head.restcnt + bins[bin].head.freecnt != 0 {
        HeadIsReady(m, bin, binsize);
      } else if cache != [] {
        CacheIsReady(m);
      } else {
        FreshIsNew(m, tid, newbase, BLKSIZE);
      }
    }

    /** Lines 408-477: one of the two ways. */
    method MallocIn(bin: nat, binsize: nat, newbase: nat, ghost m: Model) returns (hdr: nat, ghost g: HeapModel.Granted)
      requires Owned() && Linking() && Lists(m) && Records(m.recs) && MallocReady(bin, newbase, m) && mapped == m.mapped
      modifies this`blkfree, this`blkfreecnt, this`cache, this`blocks, this`mapped, bins[bin], blocks
      ensures Owned() && Linking() && Lists(g.heap) && Records(g.heap.recs) && mapped == g.heap.mapped && hdr == g.hdr
      ensures g == if old(bins[bin].head != null && bins[bin].head.restcnt + bins[bin].head.freecnt != 0)
              then HeapModel.MallocFromHead(m, bin, binsize)
                   else HeapModel.MallocFromBlock(m, tid, bin, binsize, newbase)
    {
      var blk := bins[bin].head;
      if blk != null && blk.restcnt + blk.freecnt != 0 {
        g := HeapModel.MallocFromHead(m, bin, binsize);
        hdr := TakeFromHead(bin, binsize, m);
      } else {
        g := HeapModel.MallocFromBlock(m, tid, bin, binsize, newbase);
        ghost var m0 := m.(bins := m.bins[bin := HeapModel.Rotated(m.bins[bin], true)]);
        SplitMalloc(m, m0, tid, bin, binsize, newbase);
        hdr := TakeFromBlock(bin, binsize, newbase, m, m0, g.heap);
      }
    }

    /** nc_malloc_small (lines 368-482). */
    method MallocSmall(size: nat, newbase: nat, ghost m: Model) returns (hdr: nat)
      requires Valid(m) && size <= SMALL_MAX && HeapModel.Fresh(m, newbase, BLKSIZE)
      modifies this, bins, blocks
      ensures Valid(HeapModel.MallocSmall(m, tid, size, newbase).heap)
      ensures hdr == HeapModel.MallocSmall(m, tid, size, newbase).hdr
    {
      var binndx, binsize := SizeClass(size);
      LeastIsUnique(size + HDR_BYTES, binndx, BinOf(size + HDR_BYTES));
      MallocIsReady(m, size, binndx, binsize, newbase);
      ghost var g;
      hdr, g := MallocIn(binndx, binsize, newbase, m);
    }

    // -------------------------------------------------------------- nc_free_small

    method MoveLinks(k: nat, blk: Blk, ghost i: nat)
      requires Owned() && Linking() && k < |bins| && Apart(k) && i < |bins[k].nodes| && bins[k].nodes[i] == blk
      modifies bins[k], bins[k].nodes`prev, bins[k].nodes`next
      ensures Owned() && Linking()
      ensures bins[k].nodes == ToFront(old(bins[k].nodes), i) && forall j :: 0 <= j < |bins| && j != k ==>
              bins[j].nodes == old(bins[j].nodes)
    {
      ToFrontKeeps(bins[k].nodes, i);
      assert bins[k] != biglru;
      bins[k].MoveToFront(blk, i);
    }

    method MoveNames(k: nat, blk: Blk, ghost i: nat, ghost names: seq<seq<nat>>)
      requires Owned() && Linking() && k < |bins| && Apart(k) && i < |bins[k].nodes| && bins[k].nodes[i] == blk
      requires BinNames(names)
      modifies bins[k], bins[k].nodes`prev, bins[k].nodes`next
      ensures Owned() && Linking() && i < |names[k]| && BinNames(names[k := ToFront(names[k], i)])
    {
      MoveLinks(k, blk, i);
      forall j | 0 <= j < BINCNT && j != k ensures Names(bins[j].nodes, names[j]) {
        assert old(Names(bins[j].nodes, names[j]));
      }
      assert old(Names(bins[k].nodes, names[k]));
    }

    method MoveAll(k: nat, blk: Blk, ghost i: nat, ghost m: Model, ghost recs: map<nat, Rec>)
      requires Owned() && Linking() && Lists(m) && Records(recs) && k < |bins| && Apart(k) && i < |bins[k].nodes|
      requires bins[k].nodes[i] == blk
      modifies bins[k], bins[k].nodes`prev, bins[k].nodes`next
      ensures Owned() && Linking() && i < |m.bins[k]| && BinNames(m.bins[k := ToFront(m.bins[k], i)])
      ensures CacheNames(m.cache) && BigNames(m.big, m.used) && Records(recs)
    {
      assert bins[k] != biglru;
      MoveNames(k, blk, i, m.bins);
    }

    method RemoveLinks(k: nat, blk: Blk, ghost i: nat)
      requires Owned() && Linking() && k < |bins| && Apart(k) && i < |bins[k].nodes| && bins[k].nodes[i] == blk
      modifies bins[k], bins[k].nodes`prev, bins[k].nodes`next
      ensures Owned() && Linking() && Loose(blk)
      ensures bins[k].nodes == Without(old(bins[k].nodes), i) && forall j :: 0 <= j < |bins| && j != k ==>
              bins[j].nodes == old(bins[j].nodes)
    {
      WithoutKeeps(bins[k].nodes, i);
      assert bins[k] != biglru && blk in bins[k].nodes;
      bins[k].Remove(blk, i);
    }

    method RemoveNames(k: nat, blk: Blk, ghost i: nat, ghost names: seq<seq<nat>>)
      requires Owned() && Linking() && k < |bins| && Apart(k) && i < |bins[k].nodes| && bins[k].nodes[i] == blk
      requires BinNames(names)
      modifies bins[k], bins[k].nodes`prev, bins[k].nodes`next
      ensures Owned() && Linking() && Loose(blk) && i < |names[k]| && BinNames(names[k := Without(names[k], i)])
    {
      RemoveLinks(k, blk, i);
      forall j | 0 <= j < BINCNT && j != k ensures Names(bins[j].nodes, names[j]) {
        assert old(Names(bins[j].nodes, names[j]));
      }
      assert old(Names(bins[k].nodes, names[k]));
    }

    method RemoveAll(k: nat, blk: Blk, ghost i: nat, ghost m: Model)
      requires Owned() && Linking() && Lists(m) && Records(m.recs) && k < |bins| && Apart(k) && i < |bins[k].nodes|
      requires bins[k].nodes[i] == blk
      modifies bins[k], bins[k].nodes`prev, bins[k].nodes`next
      ensures Owned() && Linking() && Loose(blk) && i < |m.bins[k]| && BinNames(m.bins[k := Without(m.bins[k], i)])
      ensures CacheNames(m.cache) && BigNames(m.big, m.used) && Records(m.recs)
    {
      assert bins[k] != biglru;
      RemoveNames(k, blk, i, m.bins);
    }

    /** Lines 307-312. */
    method PushCache(blk: Blk, ghost names: seq<nat>)
      requires Owned() && Linking() && Loose(blk) && CacheNames(names)
      modifies this`blkfree, this`blkfreecnt, this`cache, blk`next
      ensures Owned() && Linking() && CacheNames([blk.base] + names)
    {
      blkfreecnt := blkfreecnt + 1;
      blk.next := blkfree;
      blkfree := blk;
      ghost var was := cache;
      cache := [blk] + cache;
      forall i | 0 <= i < |cache| ensures NextInCache(i) {
        if i > 0 {
          assert cache[i] == was[i - 1] && old(NextInCache(i - 1));
        }
      }
    }

    /** blk is the i-th block of its bin. */
    ghost predicate FreeReady(blk: Blk, bin: nat, i: nat, m: Model)
      reads this`blocks, this`cache, this`used, bins`nodes, biglru`nodes, blk`small, blk`binndx, blk`freecnt, blk`cnt
    {
      && bin < |bins| && bin < |m.bins| && Apart(bin) && blk in blocks && blk !in used && blk.small && blk.binndx == bin
      && i < |bins[bin].nodes| && bins[bin].nodes[i] == blk && i < |m.bins[bin]|
      && blk.base in m.recs && m.recs[blk.base].starts != [] && m.recs[blk.base].bin == bin && m.recs[blk.base].small
      && blk.freecnt == FreeCount(m.recs[blk.base]) && blk.cnt == m.recs[blk.base].cnt
    }

    lemma UsedNode(m: Model, i: nat)
      requires Owned() && Lists(m) && Records(m.recs) && HeapModel.HeapOk(m, tid) && i < |used|
      ensures used[i].base in m.recs && !m.recs[used[i].base].small
    {
      assert Names(used, m.used) && HeapModel.AllBig(m.recs, m.used);
    }

    lemma FreeIsReady(m: Model, blk: Blk, x: nat)
      requires Valid(m) && blk in blocks && HeapModel.LiveIn(m, blk.base, x) && m.recs[blk.base].small
      ensures var bin := m.recs[blk.base].bin;
              && bin < BINCNT && blk.base in m.bins[bin]
              && FreeReady(blk, bin, IndexOf(m.bins[bin], blk.base), m)
      ensures HeapModel.HeapOk(HeapModel.FreeSmall(m, blk.base, x), tid)
    {
      InItsBin(m, tid, blk.base, x);
      FreeSmallOk(m, tid, blk.base, x);
      var bin := m.recs[blk.base].bin;
      var i := IndexOf(m.bins[bin], blk.base);
      NodesApart(m, bin);
      assert Names(bins[bin].nodes, m.bins[bin]);
      BinNode(m, bin, i);
      assert bins[bin].nodes[i] == blk;
      forall j | 0 <= j < |used| ensures used[j] != blk {
        UsedNode(m, j);
      }
    }

    method GiveListed(blk: Blk, hdr: nat, ghost m: Model)
      requires Owned() && Linking() && Lists(m) && Records(m.recs)
      requires blk in blocks && blk.base in m.recs && blk.small && m.recs[blk.base].starts != []
      modifies blk`freecnt, blk`free, blk`cells
      ensures Owned() && Linking() && Lists(m) && Records(m.recs[blk.base := Give(m.recs[blk.base], hdr)])
    {
      GiveChunk(blk, hdr, m.recs);
    }

    method GiveOnly(blk: Blk, hdr: nat, bin: nat, ghost i: nat, ghost m: Model)
      requires Owned() && Linking() && Lists(m) && Records(m.recs) && FreeReady(blk, bin, i, m)
      modifies blk`freecnt, blk`free, blk`cells
      ensures Owned() && Linking() && Lists(m) && Records(m.recs[blk.base := Give(m.recs[blk.base], hdr)])
      ensures Apart(bin) && i < |bins[bin].nodes| && bins[bin].nodes[i] == blk
    {
      GiveListed(blk, hdr, m);
    }

    /** Lines 262-286: the block still has chunks in use. */
    method GiveBack(blk: Blk, hdr: nat, bin: nat, ghost i: nat, ghost m: Model)
      requires Owned() && Linking() && Lists(m) && Records(m.recs) && FreeReady(blk, bin, i, m)
      modifies bins[bin], blocks
      ensures Owned() && Linking() && BinNames(m.bins[bin := ToFront(m.bins[bin], i)]) && CacheNames(m.cache)
      ensures BigNames(m.big, m.used)
      ensures Records(m.recs[blk.base := Give(m.recs[blk.base], hdr)])
    {
      GiveOnly(blk, hdr, bin, i, m);
      MoveAll(bin, blk, i, m, m.recs[blk.base := Give(m.recs[blk.base], hdr)]);
    }

    method CountOut(blk: Blk, ghost recs: map<nat, Rec>)
      requires Records(recs) && blk in blocks && blk.base in recs && blk.small && recs[blk.base].small
      modifies blk`freecnt
      ensures Records(recs[blk.base := HeapModel.Emptied(recs[blk.base])])
    {
      blk.freecnt := blk.freecnt + 1;
      forall b | b in blocks && b != blk ensures b.base in recs && b.Reps(recs[b.base]) {
        assert old(b.Reps(recs[b.base]));
      }
      assert old(blk.Reps(recs[blk.base]));
    }

    ghost method ForgetOwned(blk: Blk)
      requires Owned() && Loose(blk) && blk !in used
      modifies this`blocks
      ensures Owned() && blocks == old(blocks) - {blk}
    {
      LinkedWithout(blk);
      blocks := blocks - {blk};
    }

    ghost method ForgetLinks(blk: Blk)
      requires Owned() && Linking() && Loose(blk) && blk !in used
      modifies this`blocks
      ensures Owned() && Linking() && blocks == old(blocks) - {blk}
    {
      ForgetOwned(blk);
    }

    /** The block is no longer owned. */
    ghost method Forget(blk: Blk, recs: map<nat, Rec>)
      requires Owned() && Linking() && Records(recs) && Loose(blk) && blk !in used && blk.base in recs
      modifies this`blocks
      ensures Owned() && Linking() && Records(recs - {blk.base})
    {
      RecordsWithout(blk, recs);
      ForgetLinks(blk);
    }

    /** Lines 313-321, without munmap: the block is no longer owned. */
    method Disown(blk: Blk, ghost recs: map<nat, Rec>)
      requires Owned() && Linking() && Records(recs) && Loose(blk) && blk !in used && blk.base in recs
      modifies this`blocks, this`mapped
      ensures Owned() && Linking() && Records(recs - {blk.base}) && mapped == old(mapped) - BLKSIZE
    {
      Forget(blk, recs);
      mapped := mapped - BLKSIZE;
    }

    /** The records of the other blocks. */
    lemma RecordsWithout(blk: Blk, recs: map<nat, Rec>)
      requires Records(recs) && blk in blocks && blk.base in recs
      ensures RecordsOf(blocks - {blk}, recs - {blk.base})
    {
    }

    /** A loose block that nobody uses is in no list. */
    lemma LinkedWithout(blk: Blk)
      requires Owned() && Loose(blk) && blk !in used
      ensures forall k :: 0 <= k < |bins| ==> Among(bins[k].nodes, blocks - {blk})
      ensures Among(biglru.nodes, blocks - {blk}) && Among(cache, blocks - {blk}) && Among(used, blocks - {blk})
    {
    }

    /** Lines 307-312 for a block that has left its bin. */
    method KeepUnused(blk: Blk, ghost names: seq<seq<nat>>, ghost m: Model)
      requires Owned() && Linking() && BinNames(names) && CacheNames(m.cache) && BigNames(m.big, m.used)
      requires Records(m.recs)
      requires Loose(blk) && blk.base in m.recs && m.recs[blk.base].small && blk.small
      modifies this`blkfree, this`blkfreecnt, this`cache, blk`next, blk`freecnt
      ensures Owned() && Linking() && BinNames(names) && CacheNames([blk.base] + m.cache) && BigNames(m.big, m.used)
      ensures Records(m.recs[blk.base := HeapModel.Emptied(m.recs[blk.base])])
    {
      CountOutOnly(blk, names, m);
      PushCacheOnly(blk, names, m, m.recs[blk.base := HeapModel.Emptied(m.recs[blk.base])]);
    }

    method CountOutOnly(blk: Blk, ghost names: seq<seq<nat>>, ghost m: Model)
      requires Owned() && Linking() && BinNames(names) && CacheNames(m.cache) && BigNames(m.big, m.used)
      requires Records(m.recs)
      requires Loose(blk) && blk.base in m.recs && m.recs[blk.base].small && blk.small
      modifies blk`freecnt
      ensures Owned() && Linking() && BinNames(names) && CacheNames(m.cache) && BigNames(m.big, m.used) && Loose(blk)
      ensures Records(m.recs[blk.base := HeapModel.Emptied(m.recs[blk.base])])
    {
      CountOut(blk, m.recs);
    }

    method PushCacheOnly(blk: Blk, ghost names: seq<seq<nat>>, ghost m: Model, ghost recs: map<nat, Rec>)
      requires Owned() && Linking() && BinNames(names) && CacheNames(m.cache) && BigNames(m.big, m.used)
      requires Records(recs) && Loose(blk)
      modifies this`blkfree, this`blkfreecnt, this`cache, blk`next
      ensures Owned() && Linking() && BinNames(names) && CacheNames([blk.base] + m.cache) && BigNames(m.big, m.used)
      ensures Records(recs)
    {
      PushCache(blk, m.cache);
    }

    /** Lines 313-321 for a block that has left its bin. */
    method GiveAway(blk: Blk, ghost names: seq<seq<nat>>, ghost m: Model)
      requires Owned() && Linking() && BinNames(names) && CacheNames(m.cache) && BigNames(m.big, m.used)
      requires Records(m.recs)
      requires Loose(blk) && blk !in used && blk.base in m.recs
      modifies this`blocks, this`mapped
      ensures Owned() && Linking() && BinNames(names) && CacheNames(m.cache) && BigNames(m.big, m.used)
      ensures Records(m.recs - {blk.base}) && mapped == old(mapped) - BLKSIZE
    {
      Disown(blk, m.recs);
    }

    /** Lines 307-321 for a block that has left its bin. */
    method KeepOrGiveAway(blk: Blk, ghost names: seq<seq<nat>>, ghost m: Model)
      requires Owned() && Linking() && BinNames(names) && CacheNames(m.cache) && BigNames(m.big, m.used)
      requires Records(m.recs) && mapped == m.mapped
      requires Loose(blk) && blk !in used && blk.base in m.recs && m.recs[blk.base].small && blk.small
      modifies this`blkfree, this`blkfreecnt, this`cache, this`blocks, this`mapped, blk`next, blk`freecnt
      ensures Owned() && Linking() && BinNames(names) && BigNames(m.big, m.used)
      ensures |m.cache| < HeapModel.PAGE_BLK_MAP_TRESH ==>
                CacheNames([blk.base] + m.cache) && Records(m.recs[blk.base := HeapModel.Emptied(m.recs[blk.base])])
                    && mapped == m.mapped
      ensures |m.cache| >= HeapModel.PAGE_BLK_MAP_TRESH ==>
                CacheNames(m.cache) && Records(m.recs - {blk.base}) && mapped == m.mapped - BLKSIZE
    {
      if blkfreecnt < HeapModel.PAGE_BLK_MAP_TRESH {
        KeepUnused(blk, names, m);
      } else {
        GiveAway(blk, names, m);
      }
    }

    /** Lines 287-322: no chunk of the block is in use. */
    method GiveLast(blk: Blk, bin: nat, ghost i: nat, ghost m: Model)
      requires Owned() && Linking() && Lists(m) && Records(m.recs) && FreeReady(blk, bin, i, m) && mapped == m.mapped
      modifies this`blkfree, this`blkfreecnt, this`cache, this`blocks, this`mapped, bins[bin], blocks
      ensures Owned() && Linking() && BinNames(m.bins[bin := Without(m.bins[bin], i)]) && BigNames(m.big, m.used)
      ensures |m.cache| < HeapModel.PAGE_BLK_MAP_TRESH ==>
                CacheNames([blk.base] + m.cache) && Records(m.recs[blk.base := HeapModel.Emptied(m.recs[blk.base])])
                    && mapped == m.mapped
      ensures |m.cache| >= HeapModel.PAGE_BLK_MAP_TRESH ==>
                CacheNames(m.cache) && Records(m.recs - {blk.base}) && mapped == m.mapped - BLKSIZE
    {
      RemoveAll(bin, blk, i, m);
      KeepOrGiveAway(blk, m.bins[bin := Without(m.bins[bin], i)], m);
    }

    /** nc_free_small (lines 258-323). */
    method FreeSmall(blk: Blk, hdr: nat, ghost m: Model)
      requires Valid(m) && blk in blocks && HeapModel.LiveIn(m, blk.base, hdr) && m.recs[blk.base].small
      modifies this, bins, blocks
      ensures m.recs[blk.base].bin < |m.bins| && blk.base in m.bins[m.recs[blk.base].bin]
      ensures Valid(HeapModel.FreeSmall(m, blk.base, hdr))
    {
      FreeIsReady(m, blk, hdr);
      ghost var i := IndexOf(m.bins[m.recs[blk.base].bin], blk.base);
      FreeEither(blk, hdr, blk.binndx, i, m, HeapModel.FreeSmall(m, blk.base, hdr));
    }

    method FreeEither(blk: Blk, hdr: nat, bin: nat, ghost i: nat, ghost m: Model, ghost m': Model)
      requires Owned() && Linking() && Lists(m) && Records(m.recs) && FreeReady(blk, bin, i, m) && mapped == m.mapped
      requires blk.base in m.bins[bin] && i == IndexOf(m.bins[bin], blk.base)
      requires m' == HeapModel.FreeSmall(m, blk.base, hdr)
      modifies this`blkfree, this`blkfreecnt, this`cache, this`blocks, this`mapped, bins[bin], blocks
      ensures Owned() && Linking() && Lists(m') && Records(m'.recs) && mapped == m'.mapped
    {
      if blk.freecnt + 1 < blk.cnt {
        GiveBackTo(blk, hdr, bin, i, m, m');
      } else {
        GiveLastTo(blk, hdr, bin, i, m, m');
      }
    }

    method GiveBackTo(blk: Blk, hdr: nat, bin: nat, ghost i: nat, ghost m: Model, ghost m': Model)
      requires Owned() && Linking() && Lists(m) && Records(m.recs) && FreeReady(blk, bin, i, m) && mapped == m.mapped
      requires FreeCount(m.recs[blk.base]) + 1 < m.recs[blk.base].cnt
      requires m' == m.(recs := m.recs[blk.base := Give(m.recs[blk.base], hdr)],
               bins := m.bins[bin := ToFront(m.bins[bin], i)])
      modifies bins[bin], blocks
      ensures Owned() && Linking() && Lists(m') && Records(m'.recs) && mapped == m'.mapped
    {
      GiveBack(blk, hdr, bin, i, m);
    }

    method GiveLastTo(blk: Blk, hdr: nat, bin: nat, ghost i: nat, ghost m: Model, ghost m': Model)
      requires Owned() && Linking() && Lists(m) && Records(m.recs) && FreeReady(blk, bin, i, m) && mapped == m.mapped
      requires FreeCount(m.recs[blk.base]) + 1 >= m.recs[blk.base].cnt
      requires blk.base in m.bins[bin] && i == IndexOf(m.bins[bin], blk.base)
      requires m' == HeapModel.FreeSmall(m, blk.base, hdr)
      modifies this`blkfree, this`blkfreecnt, this`cache, this`blocks, this`mapped, bins[bin], blocks
      ensures Owned() && Linking() && Lists(m') && Records(m'.recs) && mapped == m'.mapped
    {
      GiveLast(blk, bin, i, m);
    }

    // -------------------------------------------------------------- nc_malloc_big, nc_free_big

    /** The big-block cache has no node in common with the other lists. */
    ghost predicate BigApart()
      reads this`cache, bins`nodes, biglru`nodes
    {
      && (forall j, i :: 0 <= j < |bins| && 0 <= i < |bins[j].nodes| ==> bins[j].nodes[i] !in biglru.nodes)
      && (forall i :: 0 <= i < |cache| ==> cache[i] !in biglru.nodes)
    }

    lemma BigIsApart(m: Model)
      requires Owned() && Lists(m) && Records(m.recs) && HeapModel.HeapOk(m, tid)
      ensures BigApart()
    {
      forall i | 0 <= i < |biglru.nodes| ensures biglru.nodes[i].base in m.recs && !m.recs[biglru.nodes[i].base].small {
        BigNode(m, i);
      }
      forall j, i | 0 <= j < |bins| && 0 <= i < |bins[j].nodes| ensures bins[j].nodes[i] !in biglru.nodes {
        NodesApart(m, j);
      }
      forall i | 0 <= i < |cache| ensures cache[i] !in biglru.nodes {
        CacheNode(m, i);
      }
    }

    ghost predicate BigSizes(m: Model)
      reads biglru`nodes, biglru.nodes`size
    {
      |biglru.nodes| == |m.big| && forall i :: 0 <= i < |biglru.nodes| ==>
          m.big[i] in m.recs && m.recs[m.big[i]].size == biglru.nodes[i].size
    }

    lemma BigSizesHold(m: Model)
      requires Owned() && Lists(m) && Records(m.recs) && HeapModel.HeapOk(m, tid)
      ensures BigSizes(m)
    {
      forall i | 0 <= i < |biglru.nodes| ensures m.big[i] in m.recs && m.recs[m.big[i]].size == biglru.nodes[i].size {
        BigNode(m, i);
      }
    }

    lemma {:induction false} FirstFitIs(recs: map<nat, Rec>, big: seq<nat>, size0: nat, i: nat)
      requires i <= |big| && (forall j :: 0 <= j < i ==> big[j] in recs && recs[big[j]].size < size0)
      requires i < |big| ==> big[i] in recs && recs[big[i]].size >= size0
      ensures HeapModel.FirstFit(recs, big, size0) == i
    {
      if i > 0 {
        assert forall j :: 0 <= j < i - 1 ==> big[1..][j] == big[j + 1];
        FirstFitIs(recs, big[1..], size0, i - 1);
      }
    }

    /** Lines 495-501: the walk along the recently used blocks. */
    method FindFit(size0: nat, ghost m: Model) returns (blk: Blk?, ghost i: nat)
      requires biglru.Linked() && BigSizes(m)
      ensures i == HeapModel.FirstFit(m.recs, m.big, size0) && blk == biglru.At(i)
    {
      blk, i := biglru.head, 0;
      while blk != null
        invariant i <= |biglru.nodes| && blk == biglru.At(i)
        invariant forall j :: 0 <= j < i ==> m.recs[m.big[j]].size < size0
        decreases |biglru.nodes| - i
      {
        if blk.size >= size0 {
          break;
        }
        assert biglru.NodeOk(i);
        blk := blk.next;
        i := i + 1;
      }
      FirstFitIs(m.recs, m.big, size0, i);
    }

    method UnlinkBig(blk: Blk, ghost i: nat)
      requires Owned() && Linking() && BigApart() && i < |biglru.nodes| && biglru.nodes[i] == blk
      modifies biglru, biglru.nodes`prev, biglru.nodes`next
      ensures Owned() && Linking() && biglru.nodes == Without(old(biglru.nodes), i)
    {
      WithoutKeeps(biglru.nodes, i);
      biglru.Remove(blk, i);
    }

    method TakeBigOnly(blk: Blk, ghost i: nat, ghost big: seq<nat>, ghost inUse: seq<nat>)
      requires Owned() && Linking() && BigApart() && i < |biglru.nodes| && biglru.nodes[i] == blk
      requires BigNames(big, inUse)
      modifies this`biglrucnt, this`used, biglru, biglru.nodes`prev, biglru.nodes`next
      ensures Owned() && Linking() && i < |big| && BigNames(Without(big, i), inUse + [big[i]])
    {
      biglrucnt := biglrucnt - 1;
      UnlinkBig(blk, i);
      used := used + [blk];
    }

    /** Lines 503-523: a recently used block is taken. */
    method TakeBig(blk: Blk, ghost i: nat, ghost m: Model)
      requires Owned() && Linking() && Lists(m) && Records(m.recs) && BigApart() && i < |biglru.nodes|
      requires biglru.nodes[i] == blk
      modifies this`biglrucnt, this`used, biglru, biglru.nodes`prev, biglru.nodes`next
      ensures Owned() && Linking() && BinNames(m.bins) && CacheNames(m.cache) && Records(m.recs)
      ensures i < |m.big| && BigNames(Without(m.big, i), m.used + [m.big[i]])
    {
      assert biglru !in bins;
      TakeBigOnly(blk, i, m.big, m.used);
    }

    /** Lines 524-530: a big block is mapped. */
    method MapBigRecord(newbase: nat, bytes: nat, ghost recs: map<nat, Rec>) returns (blk: Blk)
      requires Records(recs) && newbase !in recs
      modifies this`blocks, this`mapped
      ensures fresh(blk) && blk.base == newbase && blocks == old(blocks) + {blk} && mapped == old(mapped) + bytes
      ensures Records(recs[newbase := HeapModel.BigRec(tid, bytes)])
    {
      blk := new Blk(newbase, tid);
      mapped := mapped + bytes;
      blk.small := false;
      blk.size := bytes;
      blocks := blocks + {blk};
      ghost var recs' := recs[newbase := HeapModel.BigRec(tid, bytes)];
      forall b | b in blocks ensures b.base in recs' && b.Reps(recs'[b.base]) {
        if b != blk { assert old(b.Reps(recs[b.base])); }
      }
    }

    method MapBigAll(newbase: nat, bytes: nat, ghost m: Model) returns (blk: Blk)
      requires Owned() && Linking() && Lists(m) && Records(m.recs) && newbase !in m.recs
      modifies this`blocks, this`mapped
      ensures fresh(blk) && blk.base == newbase && blk in blocks && mapped == old(mapped) + bytes
      ensures Owned() && Linking() && Lists(m) && Records(m.recs[newbase := HeapModel.BigRec(tid, bytes)])
    {
      blk := MapBigLinks(newbase, bytes, m.recs);
    }

    method MapBigLinks(newbase: nat, bytes: nat, ghost recs: map<nat, Rec>) returns (blk: Blk)
      requires Owned() && Linking() && Records(recs) && newbase !in recs
      modifies this`blocks, this`mapped
      ensures fresh(blk) && blk.base == newbase && blk in blocks && mapped == old(mapped) + bytes
      ensures Owned() && Linking() && Records(recs[newbase := HeapModel.BigRec(tid, bytes)])
    {
      blk := MapBigRecord(newbase, bytes, recs);
    }

    ghost method Use(blk: Blk, big: seq<nat>, inUse: seq<nat>)
      requires Owned() && Linking() && BigNames(big, inUse) && blk in blocks
      modifies this`used
      ensures Owned() && Linking() && BigNames(big, inUse + [blk.base])
    {
      used := used + [blk];
    }

    method MapBig(newbase: nat, bytes: nat, ghost m: Model) returns (blk: Blk)
      requires Owned() && Linking() && Lists(m) && Records(m.recs) && newbase !in m.recs
      modifies this`blocks, this`mapped, this`used
      ensures fresh(blk) && blk.base == newbase && mapped == old(mapped) + bytes
      ensures Owned() && Linking() && BinNames(m.bins) && CacheNames(m.cache) && BigNames(m.big, m.used + [newbase])
      ensures Records(m.recs[newbase := HeapModel.BigRec(tid, bytes)])
    {
      blk := MapBigAll(newbase, bytes, m);
      Use(blk, m.big, m.used);
    }

    lemma BigIsReady(m: Model, size: nat, newbase: nat)
      requires Valid(m) && HeapModel.Fresh(m, newbase, HeapModel.RoundUp(size + BLK_BYTES + HDR_BYTES))
      ensures BigApart() && BigSizes(m) && newbase !in m.recs
      ensures HeapModel.HeapOk(HeapModel.MallocBig(m, tid, size, newbase).heap, tid)
    {
      BigIsApart(m);
      BigSizesHold(m);
      FreshIsNew(m, tid, newbase, HeapModel.RoundUp(size + BLK_BYTES + HDR_BYTES));
      MallocBigOk(m, tid, size, newbase);
    }

    method BigReuse(blk: Blk, ghost i: nat, ghost m: Model, ghost m': Model)
      requires Owned() && Linking() && Lists(m) && Records(m.recs) && BigApart() && i < |biglru.nodes|
      requires biglru.nodes[i] == blk && i < |m.big|
      requires m' == m.(big := Without(m.big, i), used := m.used + [m.big[i]])
      modifies this`biglrucnt, this`used, biglru, biglru.nodes`prev, biglru.nodes`next
      ensures Owned() && Linking() && Lists(m') && Records(m'.recs)
    {
      TakeBig(blk, i, m);
    }

    method BigNew(newbase: nat, bytes: nat, ghost m: Model, ghost m': Model) returns (blk: Blk)
      requires Owned() && Linking() && Lists(m) && Records(m.recs) && newbase !in m.recs && mapped == m.mapped
      requires m' == m.(recs := m.recs[newbase := HeapModel.BigRec(tid, bytes)], used := m.used + [newbase],
               mapped := m.mapped + bytes)
      modifies this`blocks, this`mapped, this`used
      ensures blk.base == newbase && mapped == m'.mapped
      ensures Owned() && Linking() && Lists(m') && Records(m'.recs)
    {
      blk := MapBig(newbase, bytes, m);
    }

    method BigEither(found: Blk?, ghost i: nat, newbase: nat, bytes: nat, ghost m: Model, ghost m': Model)
          returns (blk: Blk)
      requires Owned() && Linking() && Lists(m) && Records(m.recs) && BigApart() && newbase !in m.recs
      requires mapped == m.mapped
      requires found == biglru.At(i)
      requires found != null ==> i < |m.big| && m' == m.(big := Without(m.big, i), used := m.used + [m.big[i]])
      requires found == null ==>
               m' == m.(recs := m.recs[newbase := HeapModel.BigRec(tid, bytes)], used := m.used + [newbase],
                   mapped := m.mapped + bytes)
      modifies this`biglrucnt, this`used, this`blocks, this`mapped, biglru, biglru.nodes`prev, biglru.nodes`next
      ensures Owned() && Linking() && Lists(m') && Records(m'.recs) && mapped == m'.mapped
      ensures blk.base == if found != null then found.base else newbase
    {
      if found != null {
        blk := found;
        BigReuse(blk, i, m, m');
      } else {
        blk := BigNew(newbase, bytes, m, m');
      }
    }

    /** How the model changes: a cached block is taken, or a new one is mapped. */
    ghost predicate MallocedBig(i: nat, newbase: nat, bytes: nat, m: Model, m': Model)
      reads {}
    {
      if i < |m.big| then m' == m.(big := Without(m.big, i), used := m.used + [m.big[i]])
      else m' == m.(recs := m.recs[newbase := HeapModel.BigRec(tid, bytes)], used := m.used + [newbase],
          mapped := m.mapped + bytes)
    }

    method BigFrom(size0: nat, bytes: nat, newbase: nat, ghost m: Model, ghost m': Model) returns (blk: Blk)
      requires Owned() && Linking() && Lists(m) && Records(m.recs) && BigApart() && BigSizes(m) && newbase !in m.recs
      requires mapped == m.mapped
      requires MallocedBig(HeapModel.FirstFit(m.recs, m.big, size0), newbase, bytes, m, m')
      modifies this`biglrucnt, this`used, this`blocks, this`mapped, biglru, blocks
      ensures Owned() && Linking() && Lists(m') && Records(m'.recs) && mapped == m'.mapped
      ensures var i := HeapModel.FirstFit(m.recs, m.big, size0);
              blk.base == if i < |m.big| then m.big[i] else newbase
    {
      var found;
      ghost var i;
      found, i := FindFit(size0, m);
      assert Names(biglru.nodes, m.big);
      blk := BigEither(found, i, newbase, bytes, m, m');
    }

    lemma MallocedBigIs(m: Model, size: nat, newbase: nat, size0: nat, bytes: nat)
      requires size0 == size + BLK_BYTES + HDR_BYTES && bytes == HeapModel.RoundUp(size0)
      ensures var i := HeapModel.FirstFit(m.recs, m.big, size0);
              var g := HeapModel.MallocBig(m, tid, size, newbase);
              MallocedBig(i, newbase, bytes, m, g.heap) && g.hdr == (if i < |m.big| then m.big[i] else newbase)
                  + BLK_BYTES
    {
    }

    /** nc_malloc_big (lines 485-539). */
    method MallocBig(size: nat, newbase: nat, ghost m: Model) returns (hdr: nat)
      requires Valid(m) && HeapModel.Fresh(m, newbase, HeapModel.RoundUp(size + BLK_BYTES + HDR_BYTES))
      modifies this, biglru, blocks
      ensures Valid(HeapModel.MallocBig(m, tid, size, newbase).heap)
      ensures hdr == HeapModel.MallocBig(m, tid, size, newbase).hdr
    {
      BigIsReady(m, size, newbase);
      var size0 := size + BLK_BYTES + HDR_BYTES;
      var bytes := HeapModel.RoundUp(size0);
      MallocedBigIs(m, size, newbase, size0, bytes);
      var blk := BigFrom(size0, bytes, newbase, m, HeapModel.MallocBig(m, tid, size, newbase).heap);
      hdr := blk.base + BLK_BYTES;
    }

    method PushLinks(blk: Blk)
      requires Owned() && Linking() && BigApart() && Loose(blk)
      modifies biglru, blk`prev, blk`next, biglru.nodes`prev
      ensures Owned() && Linking() && BigApart() && biglru.nodes == [blk] + old(biglru.nodes)
    {
      biglru.PushFront(blk);
    }

    method PushAll(blk: Blk, ghost m: Model)
      requires Owned() && Linking() && BigApart() && Loose(blk) && BinNames(m.bins) && CacheNames(m.cache)
      requires Records(m.recs) && Names(biglru.nodes, m.big)
      modifies biglru, blk`prev, blk`next, biglru.nodes`prev
      ensures Owned() && Linking() && BigApart() && BinNames(m.bins) && CacheNames(m.cache) && Records(m.recs)
      ensures biglru.nodes == [blk] + old(biglru.nodes) && Names(biglru.nodes, [blk.base] + m.big)
    {
      assert biglru !in bins;
      PushLinks(blk);
    }

    /** The block is no longer in use. */
    ghost method Unuse(blk: Blk, i: nat, inUse: seq<nat>)
      requires Owned() && Linking() && Names(used, inUse) && i < |used|
      modifies this`used
      ensures Owned() && Linking() && i < |inUse| && used == Without(old(used), i) && Names(used, Without(inUse, i))
    {
      used := Without(used, i);
    }

    /** A freed big block becomes the most recently used (lines 578-591). */
    method PushBig(blk: Blk, ghost i: nat, ghost m: Model)
      requires Owned() && Linking() && Lists(m) && Records(m.recs) && BigApart() && Loose(blk) && i < |used|
      requires used[i] == blk
      modifies this`used, biglru, blk`prev, blk`next, biglru.nodes`prev
      ensures Owned() && Linking() && BinNames(m.bins) && CacheNames(m.cache) && Records(m.recs) && BigApart()
      ensures biglru.nodes == [blk] + old(biglru.nodes) && i < |m.used|
      ensures Names(biglru.nodes, [blk.base] + m.big) && used == Without(old(used), i)
      ensures Names(used, Without(m.used, i))
    {
      Unuse(blk, i, m.used);
      PushAll(blk, m);
    }

    method DropLinks() returns (t: Blk)
      requires Owned() && Linking() && BigApart() && |biglru.nodes| >= 2
      modifies biglru, biglru.nodes`next
      ensures Owned() && Linking() && biglru.nodes == old(biglru.nodes[..|biglru.nodes| - 1])
      ensures t == old(biglru.nodes[|biglru.nodes| - 1])
      ensures Loose(t)
    {
      t := biglru.DropTail();
    }

    /** Lines 593-608, without munmap: the least recently used block is no longer owned. */
    method DisownBig(t: Blk, ghost recs: map<nat, Rec>)
      requires Owned() && Linking() && Records(recs) && Loose(t) && t !in used && t.base in recs
      modifies this`blocks, this`mapped
      ensures Owned() && Linking() && Records(recs - {t.base}) && mapped == old(mapped) - t.size
    {
      Forget(t, recs);
      mapped := mapped - t.size;
    }

    method DisownAll(t: Blk, ghost m: Model, ghost big: seq<nat>, ghost inUse: seq<nat>)
      requires Owned() && Linking() && BinNames(m.bins) && CacheNames(m.cache) && Records(m.recs)
      requires Names(biglru.nodes, big) && Names(used, inUse)
      requires Loose(t) && t !in used && t.base in m.recs
      modifies this`blocks, this`mapped
      ensures Owned() && Linking() && BinNames(m.bins) && CacheNames(m.cache) && Records(m.recs - {t.base})
      ensures Names(biglru.nodes, big) && Names(used, inUse)
      ensures mapped == old(mapped) - t.size
    {
      DisownBig(t, m.recs);
    }

    method DisownTail(t: Blk, ghost m: Model, ghost big: seq<nat>, ghost tail: nat, ghost inUse: seq<nat>)
      requires Owned() && Linking() && BinNames(m.bins) && CacheNames(m.cache) && Records(m.recs)
      requires Names(biglru.nodes, big) && Names(used, inUse)
      requires Loose(t) && t !in used && t.base == tail && tail in m.recs && t.size == m.recs[tail].size
      modifies this`blocks, this`mapped
      ensures Owned() && Linking() && BinNames(m.bins) && CacheNames(m.cache) && Records(m.recs - {tail})
      ensures Names(biglru.nodes, big) && Names(used, inUse)
      ensures mapped == old(mapped) - m.recs[tail].size
    {
      DisownAll(t, m, big, inUse);
    }

    method DropAll(ghost m: Model, ghost big: seq<nat>, ghost tail: nat) returns (t: Blk)
      requires Owned() && Linking() && BinNames(m.bins) && CacheNames(m.cache) && Records(m.recs) && BigApart()
      requires |biglru.nodes| >= 2 && Names(biglru.nodes, big + [tail])
      modifies biglru, biglru.nodes`next
      ensures Owned() && Linking() && BinNames(m.bins) && CacheNames(m.cache) && Records(m.recs) && Loose(t)
      ensures Names(biglru.nodes, big) && t == old(biglru.nodes[|biglru.nodes| - 1]) && t.base == tail
    {
      assert biglru !in bins;
      t := DropLinks();
    }

    method DropUnused(ghost m: Model, ghost big: seq<nat>, ghost tail: nat, ghost inUse: seq<nat>) returns (t: Blk)
      requires Owned() && Linking() && BinNames(m.bins) && CacheNames(m.cache) && Records(m.recs) && BigApart()
      requires |biglru.nodes| >= 2 && Names(biglru.nodes, big + [tail]) && Names(used, inUse)
      requires biglru.nodes[|biglru.nodes| - 1] !in used
      modifies biglru, biglru.nodes`next
      ensures Owned() && Linking() && BinNames(m.bins) && CacheNames(m.cache) && Records(m.recs) && Loose(t)
      ensures Names(biglru.nodes, big) && Names(used, inUse) && t == old(biglru.nodes[|biglru.nodes| - 1])
      ensures t.base == tail && t !in used
      ensures t.size == old(t.size)
    {
      t := DropAll(m, big, tail);
    }

    method EvictBig(ghost m: Model, ghost big: seq<nat>, ghost tail: nat, ghost inUse: seq<nat>)
      requires Owned() && Linking() && BinNames(m.bins) && CacheNames(m.cache) && Records(m.recs) && BigApart()
      requires |biglru.nodes| >= 2 && Names(biglru.nodes, big + [tail]) && Names(used, inUse)
      requires biglru.nodes[|biglru.nodes| - 1] !in used
      requires tail in m.recs && biglru.nodes[|biglru.nodes| - 1].size == m.recs[tail].size
      modifies this`blocks, this`mapped, biglru, biglru.nodes`next
      ensures Owned() && Linking() && BinNames(m.bins) && CacheNames(m.cache) && Records(m.recs - {tail})
      ensures Names(biglru.nodes, big) && Names(used, inUse) && mapped == old(mapped) - m.recs[tail].size
    {
      var t := DropUnused(m, big, tail, inUse);
      DisownTail(t, m, big, tail, inUse);
    }

    /** blk is the i-th block in use, and the big-block cache has none of those. */
    ghost predicate FreeBigReady(blk: Blk, i: nat, m: Model)
      reads this`blocks, this`cache, this`used, bins`nodes, biglru`nodes, biglru.nodes`size
    {
      && BigApart() && Loose(blk) && BigSizes(m) && i < |used| && used[i] == blk && i < |m.used| && Distinct(used)
      && (forall j :: 0 <= j < |biglru.nodes| ==> biglru.nodes[j] !in used)
    }

    lemma FreeBigIsReady(m: Model, blk: Blk, x: nat)
      requires Valid(m) && blk in blocks && HeapModel.LiveIn(m, blk.base, x) && !m.recs[blk.base].small
      ensures blk.base in m.used && (forall i :: 0 <= i < |m.big| ==> m.big[i] in m.recs)
      ensures FreeBigReady(blk, IndexOf(m.used, blk.base), m)
      ensures HeapModel.HeapOk(HeapModel.FreeBig(m, blk.base), tid)
    {
      FreeBigOk(m, tid, blk.base, x);
      BigIsApart(m);
      BigSizesHold(m);
      var i := IndexOf(m.used, blk.base);
      assert Names(used, m.used) && Names(biglru.nodes, m.big);
      assert used[i].base == blk.base && used[i] in blocks;
      assert HeapModel.AllBig(m.recs, m.used);
      UsedIsLoose(m, blk);
      CachedIsUnused(m);
    }

    /** A big block is in no bin and not among the unused small ones. */
    lemma UsedIsLoose(m: Model, blk: Blk)
      requires Valid(m) && blk in blocks && blk.base in m.used && !m.recs[blk.base].small
      ensures Loose(blk)
    {
      forall k | 0 <= k < |bins| ensures blk !in bins[k].nodes {
        forall j | 0 <= j < |bins[k].nodes| ensures bins[k].nodes[j] != blk {
          BinNode(m, k, j);
        }
      }
      forall j | 0 <= j < |cache| ensures cache[j] != blk {
        CacheNode(m, j);
      }
      BigUnused(m, blk);
    }

    lemma BigUnused(m: Model, blk: Blk)
      requires Lists(m) && HeapModel.BigOk(m.recs, m.big, m.used) && blk.base in m.used
      ensures blk !in biglru.nodes
    {
      forall j | 0 <= j < |biglru.nodes| ensures biglru.nodes[j] != blk {
        assert m.big[j] !in m.used;
      }
    }

    lemma CachedIsUnused(m: Model)
      requires Lists(m) && HeapModel.BigOk(m.recs, m.big, m.used)
      ensures forall j :: 0 <= j < |biglru.nodes| ==> biglru.nodes[j] !in used
    {
      forall j | 0 <= j < |biglru.nodes| ensures biglru.nodes[j] !in used {
        assert m.big[j] !in m.used;
        forall k | 0 <= k < |used| ensures used[k] != biglru.nodes[j] {
          assert used[k].base == m.used[k];
        }
      }
    }

    /** After the push, the last block of the list is still a block that was in the cache before. */
    method PushReady(blk: Blk, ghost i: nat, ghost m: Model)
      requires Owned() && Linking() && Lists(m) && Records(m.recs) && FreeBigReady(blk, i, m) && m.big != []
      modifies this`used, biglru, blk`prev, blk`next, biglru.nodes`prev
      ensures Owned() && Linking() && BinNames(m.bins) && CacheNames(m.cache) && Records(m.recs) && BigApart()
      ensures Names(biglru.nodes, [blk.base] + m.big) && Names(used, Without(m.used, i)) && |biglru.nodes| >= 2
      ensures var t := biglru.nodes[|biglru.nodes| - 1];
              t !in used && m.big[|m.big| - 1] in m.recs && t.size == m.recs[m.big[|m.big| - 1]].size
    {
      WithoutKeeps(used, i);
      PushBig(blk, i, m);
    }

    /** Lines 578-609 with a full cache. */
    method FreeBigFull(blk: Blk, ghost i: nat, ghost m: Model, ghost big: seq<nat>, ghost tail: nat)
      requires Owned() && Linking() && Lists(m) && Records(m.recs) && FreeBigReady(blk, i, m) && m.big != []
      requires tail == m.big[|m.big| - 1] && [blk.base] + m.big == big + [tail]
      modifies this`used, this`blocks, this`mapped, biglru, blocks
      ensures Owned() && Linking() && BinNames(m.bins) && CacheNames(m.cache) && tail in m.recs
      ensures Records(m.recs - {tail})
      ensures Names(biglru.nodes, big) && Names(used, Without(m.used, i)) && mapped == old(mapped) - m.recs[tail].size
    {
      PushReady(blk, i, m);
      EvictBig(m, big, tail, Without(m.used, i));
    }

    /** How the model changes: the block joins the head of the list, and the last one of an overfull list goes. */
    ghost predicate FreedBig(blk: Blk, i: nat, m: Model, m': Model)
      reads {}
    {
      i < |m.used| &&
      if |m.big| < HeapModel.BIG_BLK_MAP_TRESH then m' == m.(big := [blk.base] + m.big, used := Without(m.used, i))
      else
        var tail := m.big[|m.big| - 1];
        tail in m.recs
            && m' == m.(recs := m.recs - {tail}, big := ([blk.base] + m.big)[..|m.big|], used := Without(m.used, i),
                mapped := m.mapped - m.recs[tail].size)
    }

    method CountBig(ghost big: seq<nat>, ghost inUse: seq<nat>)
      requires Owned() && Linking() && Names(biglru.nodes, big) && Names(used, inUse) && biglrucnt + 1 == |big|
      modifies this`biglrucnt
      ensures Owned() && Linking() && BigNames(big, inUse)
    {
      biglrucnt := biglrucnt + 1;
    }

    /** Lines 578-591 with space in the cache. */
    method PushAndCount(blk: Blk, ghost i: nat, ghost m: Model)
      requires Owned() && Linking() && Lists(m) && Records(m.recs) && BigApart() && Loose(blk) && i < |used|
      requires used[i] == blk
      modifies this`used, this`biglrucnt, biglru, blk`prev, blk`next, biglru.nodes`prev
      ensures Owned() && Linking() && BinNames(m.bins) && CacheNames(m.cache) && Records(m.recs)
      ensures i < |m.used| && BigNames([blk.base] + m.big, Without(m.used, i))
    {
      PushBig(blk, i, m);
      CountOnly(m, [blk.base] + m.big, Without(m.used, i));
    }

    method CountOnly(ghost m: Model, ghost big: seq<nat>, ghost inUse: seq<nat>)
      requires Owned() && Linking() && Names(biglru.nodes, big) && Names(used, inUse) && biglrucnt + 1 == |big|
      requires BinNames(m.bins) && CacheNames(m.cache) && Records(m.recs)
      modifies this`biglrucnt
      ensures Owned() && Linking() && BigNames(big, inUse) && BinNames(m.bins) && CacheNames(m.cache) && Records(m.recs)
    {
      CountBig(big, inUse);
    }

    method FreeBigSpare(blk: Blk, ghost i: nat, ghost m: Model, ghost m': Model)
      requires Owned() && Linking() && Lists(m) && Records(m.recs) && FreeBigReady(blk, i, m) && mapped == m.mapped
      requires |m.big| < HeapModel.BIG_BLK_MAP_TRESH && FreedBig(blk, i, m, m')
      modifies this`used, this`biglrucnt, biglru, blocks
      ensures Owned() && Linking() && Lists(m') && Records(m'.recs) && mapped == m'.mapped
    {
      PushAndCount(blk, i, m);
    }

    method FreeBigEvict(blk: Blk, ghost i: nat, ghost m: Model, ghost m': Model)
      requires Owned() && Linking() && Lists(m) && Records(m.recs) && FreeBigReady(blk, i, m) && mapped == m.mapped
      requires |m.big| >= HeapModel.BIG_BLK_MAP_TRESH && FreedBig(blk, i, m, m')
      modifies this`used, this`blocks, this`mapped, biglru, blocks
      ensures Owned() && Linking() && Lists(m') && Records(m'.recs) && mapped == m'.mapped
    {
      FreeBigFull(blk, i, m, m'.big, m.big[|m.big| - 1]);
    }

    method FreeBigEither(blk: Blk, ghost i: nat, ghost m: Model, ghost m': Model)
      requires Owned() && Linking() && Lists(m) && Records(m.recs) && FreeBigReady(blk, i, m) && mapped == m.mapped
      requires FreedBig(blk, i, m, m')
      modifies this`used, this`blocks, this`mapped, this`biglrucnt, biglru, blocks
      ensures Owned() && Linking() && Lists(m') && Records(m'.recs) && mapped == m'.mapped
    {
      if biglrucnt < HeapModel.BIG_BLK_MAP_TRESH {
        FreeBigSpare(blk, i, m, m');
      } else {
        FreeBigEvict(blk, i, m, m');
      }
    }

    lemma FreedBigIs(m: Model, blk: Blk)
      requires blk.base in m.used && (forall i :: 0 <= i < |m.big| ==> m.big[i] in m.recs)
      ensures FreedBig(blk, IndexOf(m.used, blk.base), m, HeapModel.FreeBig(m, blk.base))
    {
    }

    /** nc_free_big (lines 574-610). */
    method FreeBig(blk: Blk, hdr: nat, ghost m: Model)
      requires Valid(m) && blk in blocks && HeapModel.LiveIn(m, blk.base, hdr) && !m.recs[blk.base].small
      modifies this, biglru, blocks
      ensures blk.base in m.used && (forall i :: 0 <= i < |m.big| ==> m.big[i] in m.recs)
      ensures Valid(HeapModel.FreeBig(m, blk.base))
    {
      FreeBigIsReady(m, blk, hdr);
      FreedBigIs(m, blk);
      FreeBigEither(blk, IndexOf(m.used, blk.base), m, HeapModel.FreeBig(m, blk.base));
    }
  }
}
