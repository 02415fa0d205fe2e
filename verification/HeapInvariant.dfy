/** Every critical section of one heap keeps its invariant, and changes the chunks that callers hold by exactly one. */
module HeapInvariant {
  import opened Sequences
  import opened SizeClasses
  import opened ListMoves
  import opened HeapBlocks
  import opened HeapModel

  // ---------------------------------------------------------------- lists and sums

  lemma {:induction false} TotalUpdate(bins: seq<seq<nat>>, k: nat, list: seq<nat>)
    requires k < |bins|
    ensures Total(bins[k := list]) == Total(bins) - |bins[k]| + |list|
  {
    var n := |bins| - 1;
    var bins' := bins[k := list];
    if k == n {
      assert bins'[..n] == bins[..n];
    } else {
      assert bins'[..n] == bins[..n][k := list];
      TotalUpdate(bins[..n], k, list);
    }
  }

  ghost predicate AgreeOn(recs: map<nat, Rec>, recs': map<nat, Rec>, list: seq<nat>) {
    forall i :: 0 <= i < |list| ==> list[i] in recs && list[i] in recs' && recs'[list[i]] == recs[list[i]]
  }

  lemma {:induction false} SizeSumAgrees(recs: map<nat, Rec>, recs': map<nat, Rec>, list: seq<nat>)
    requires AgreeOn(recs, recs', list)
    ensures SizeSum(recs', list) == SizeSum(recs, list)
  {
    if list != [] {
      SizeSumAgrees(recs, recs', list[1..]);
    }
  }

  lemma {:induction false} SizeSumJoins(recs: map<nat, Rec>, xs: seq<nat>, ys: seq<nat>)
    ensures SizeSum(recs, xs + ys) == SizeSum(recs, xs) + SizeSum(recs, ys)
  {
    if xs == [] {
      assert xs + ys == ys;
    } else {
      assert (xs + ys)[0] == xs[0] && (xs + ys)[1..] == xs[1..] + ys;
      SizeSumJoins(recs, xs[1..], ys);
    }
  }

  lemma SizeSumOne(recs: map<nat, Rec>, b: nat)
    requires b in recs
    ensures SizeSum(recs, [b]) == recs[b].size
  {
    assert SizeSum(recs, [b][1..]) == 0;
  }

  lemma SizeSumWithout(recs: map<nat, Rec>, list: seq<nat>, i: nat)
    requires i < |list| && list[i] in recs
    ensures SizeSum(recs, Without(list, i)) == SizeSum(recs, list) - recs[list[i]].size
  {
    assert list == list[..i] + ([list[i]] + list[i + 1..]);
    SizeSumJoins(recs, list[..i], [list[i]] + list[i + 1..]);
    SizeSumJoins(recs, [list[i]], list[i + 1..]);
    SizeSumJoins(recs, list[..i], list[i + 1..]);
    SizeSumOne(recs, list[i]);
  }

  // ---------------------------------------------------------------- one block rewritten in its bin

  /** A block of a bin gets another record, and its bin another order. */
  function Rewrite(h: Heap, b: nat, r: Rec, list: seq<nat>): Heap
    requires r.bin < |h.bins|
  {
    h.(recs := h.recs[b := r], bins := h.bins[r.bin := list])
  }

  lemma RewriteBins(h: Heap, tid: nat, b: nat, r: Rec, list: seq<nat>)
    requires HeapOk(h, tid) && b in h.recs && r.small && h.recs[b].bin == r.bin < BINCNT
    requires BinOk(h.recs[b := r], list, r.bin)
    ensures BinsOk(h.recs[b := r], h.bins[r.bin := list])
  {
    forall k | 0 <= k < BINCNT && k != r.bin ensures BinOk(h.recs[b := r], h.bins[k], k) {
      assert BinOk(h.recs, h.bins[k], k);
      assert forall i :: 0 <= i < |h.bins[k]| ==> InBin(h.recs, h.bins[k][i], k);
    }
  }

  lemma RewriteCaches(h: Heap, tid: nat, b: nat, r: Rec)
    requires HeapOk(h, tid) && b in h.recs && h.recs[b].small && !Idle(h.recs[b])
    ensures CacheOk(h.recs[b := r], h.cache) && BigOk(h.recs[b := r], h.big, h.used)
    ensures AgreeOn(h.recs, h.recs[b := r], h.big) && AgreeOn(h.recs, h.recs[b := r], h.used)
  {
  }

  lemma RewriteOk(h: Heap, tid: nat, b: nat, r: Rec, list: seq<nat>)
    requires HeapOk(h, tid) && b in h.recs && h.recs[b].small && !Idle(h.recs[b])
    requires r.small && !Idle(r) && r.tid == tid && h.recs[b].bin == r.bin < BINCNT
    requires |list| == |h.bins[r.bin]| && SameElements(list, h.bins[r.bin]) && BinOk(h.recs[b := r], list, r.bin)
    ensures HeapOk(Rewrite(h, b, r, list), tid)
    ensures forall c, x :: LiveIn(Rewrite(h, b, r, list), c, x) <==> if c == b then Live(r, x) else LiveIn(h, c, x)
  {
    var h' := Rewrite(h, b, r, list);
    RewriteBins(h, tid, b, r, list);
    RewriteCaches(h, tid, b, r);
    SizeSumAgrees(h.recs, h'.recs, h.big);
    SizeSumAgrees(h.recs, h'.recs, h.used);
    TotalUpdate(h.bins, r.bin, list);
    forall c | c in h'.recs ensures RecOk(c, h'.recs[c], tid) && Listed(h', c) {
      assert RecOk(c, h.recs[c], tid) && Listed(h, c);
    }
  }

  // ---------------------------------------------------------------- a block enters or leaves a bin

  lemma BinAgrees(recs: map<nat, Rec>, recs': map<nat, Rec>, list: seq<nat>, k: nat)
    requires BinOk(recs, list, k)
    requires AgreeOn(recs, recs', list)
    ensures BinOk(recs', list, k)
  {
    assert forall i :: 0 <= i < |list| ==> InBin(recs, list[i], k);
  }

  /** b is in no bin. */
  ghost predicate Outside(h: Heap, b: nat) { b in h.recs ==> !h.recs[b].small || Idle(h.recs[b]) }

  lemma OutsideBin(h: Heap, tid: nat, b: nat, k: nat)
    requires HeapOk(h, tid) && k < BINCNT && Outside(h, b)
    ensures b !in h.bins[k]
  {
    assert BinOk(h.recs, h.bins[k], k);
    assert forall i :: 0 <= i < |h.bins[k]| ==> InBin(h.recs, h.bins[k][i], k);
  }

  lemma BinsWith(h: Heap, tid: nat, b: nat, r: Rec)
    requires HeapOk(h, tid) && Outside(h, b) && BlockOk(b, r) && !Full(r) && r.bin < BINCNT
    ensures BinsOk(h.recs[b := r], h.bins[r.bin := [b] + h.bins[r.bin]])
  {
    forall k | 0 <= k < BINCNT ensures BinOk(h.recs[b := r], h.bins[k], k) && b !in h.bins[k] {
      OutsideBin(h, tid, b, k);
      assert BinOk(h.recs, h.bins[k], k);
      assert forall i :: 0 <= i < |h.bins[k]| ==> InBin(h.recs, h.bins[k][i], k);
      BinAgrees(h.recs, h.recs[b := r], h.bins[k], k);
    }
    var list := h.bins[r.bin];
    PrependKeeps(b, list);
    assert InBin(h.recs[b := r], b, r.bin);
    forall i | 0 <= i < |[b] + list| ensures InBin(h.recs[b := r], ([b] + list)[i], r.bin) {
      if i > 0 { assert InBin(h.recs[b := r], list[i - 1], r.bin); }
    }
  }

  /** b joins the head of its bin; the cache and mapped are as the case may be. */
  ghost predicate Added(h: Heap, h': Heap, b: nat, r: Rec) {
    && r.bin < |h.bins| && h'.recs == h.recs[b := r] && h'.bins == h.bins[r.bin := [b] + h.bins[r.bin]]
    && h'.big == h.big && h'.used == h.used
  }

  /** b was idle or not owned. */
  ghost predicate Unused(h: Heap, b: nat) { b in h.recs ==> Idle(h.recs[b]) }

  lemma AddedBytes(h: Heap, h': Heap, tid: nat, b: nat, r: Rec)
    requires HeapOk(h, tid) && Added(h, h', b, r) && Unused(h, b) && r.small
    ensures BigOk(h'.recs, h'.big, h'.used)
    ensures OwnedBytes(h') == OwnedBytes(h) + BLKSIZE * (1 + |h'.cache| - |h.cache|)
  {
    assert AgreeOn(h.recs, h'.recs, h.big) && AgreeOn(h.recs, h'.recs, h.used);
    SizeSumAgrees(h.recs, h'.recs, h.big);
    SizeSumAgrees(h.recs, h'.recs, h.used);
    TotalUpdate(h.bins, r.bin, h'.bins[r.bin]);
  }

  lemma AddedListed(h: Heap, h': Heap, tid: nat, b: nat, r: Rec)
    requires HeapOk(h, tid) && Added(h, h', b, r) && BlockOk(b, r) && r.tid == tid
    requires forall c :: c in h.cache && c != b ==> c in h'.cache
    ensures forall c :: c in h'.recs ==> RecOk(c, h'.recs[c], tid) && Listed(h', c)
  {
    forall c | c in h'.recs ensures RecOk(c, h'.recs[c], tid) && Listed(h', c) {
      if c == b {
        assert b == h'.bins[r.bin][0];
      } else {
        assert RecOk(c, h.recs[c], tid) && Listed(h, c);
      }
    }
  }

  lemma AddedLive(h: Heap, h': Heap, b: nat, r: Rec)
    requires Added(h, h', b, r) && r.small && Unused(h, b)
    ensures forall c, x :: LiveIn(h', c, x) <==> if c == b then Live(r, x) else LiveIn(h, c, x)
    ensures forall x :: !LiveIn(h, b, x)
  {
  }

  /** The first block of the cache becomes a block of a bin (lines 446-450). */
  lemma ReuseOk(h: Heap, h': Heap, tid: nat, b: nat, r: Rec)
    requires HeapOk(h, tid) && h.cache != [] && b == h.cache[0] && BlockOk(b, r) && !Full(r) && r.bin < BINCNT
    requires r.tid == tid
    requires Added(h, h', b, r) && h'.cache == h.cache[1..] && h'.mapped == h.mapped
    ensures HeapOk(h', tid)
  {
    BinsWith(h, tid, b, r);
    assert h.cache == [b] + h'.cache;
    AddedBytes(h, h', tid, b, r);
    AddedListed(h, h', tid, b, r);
  }

  lemma FreshIsNew(h: Heap, tid: nat, b: nat, bytes: nat)
    requires HeapOk(h, tid) && Fresh(h, b, bytes) && bytes > 0
    ensures b !in h.recs
  {
    assert forall c :: c in h.recs ==> RecOk(c, h.recs[c], tid);
  }

  /** A newly mapped block becomes a block of a bin (lines 451-454). */
  lemma MapOk(h: Heap, h': Heap, tid: nat, b: nat, r: Rec)
    requires HeapOk(h, tid) && Fresh(h, b, BLKSIZE) && BlockOk(b, r) && !Full(r) && r.bin < BINCNT && r.tid == tid
    requires Added(h, h', b, r) && h'.cache == h.cache && h'.mapped == h.mapped + BLKSIZE
    ensures HeapOk(h', tid)
  {
    FreshIsNew(h, tid, b, BLKSIZE);
    BinsWith(h, tid, b, r);
    AddedBytes(h, h', tid, b, r);
    AddedListed(h, h', tid, b, r);
  }

  lemma BinsWithout(h: Heap, tid: nat, b: nat, recs': map<nat, Rec>)
    requires HeapOk(h, tid) && b in h.recs && h.recs[b].small && !Idle(h.recs[b])
    requires forall c :: c in h.recs && c != b ==> c in recs' && recs'[c] == h.recs[c]
    ensures h.recs[b].bin < BINCNT && b in h.bins[h.recs[b].bin]
    ensures var k := h.recs[b].bin;
            BinsOk(recs', h.bins[k := Without(h.bins[k], IndexOf(h.bins[k], b))])
  {
    assert Listed(h, b);
    var bin := h.recs[b].bin;
    var list := h.bins[bin];
    var i := IndexOf(list, b);
    forall k | 0 <= k < BINCNT && k != bin ensures BinOk(recs', h.bins[k], k) {
      OtherBin(h.recs, recs', h.bins[k], k, b);
    }
    LeavesBin(h.recs, recs', list, bin, i);
  }

  lemma OtherBin(recs: map<nat, Rec>, recs': map<nat, Rec>, list: seq<nat>, k: nat, b: nat)
    requires BinOk(recs, list, k) && b in recs && recs[b].bin != k
    requires forall c :: c in recs && c != b ==> c in recs' && recs'[c] == recs[c]
    ensures BinOk(recs', list, k)
  {
    assert forall i :: 0 <= i < |list| ==> InBin(recs, list[i], k);
    BinAgrees(recs, recs', list, k);
  }

  lemma LeavesBin(recs: map<nat, Rec>, recs': map<nat, Rec>, list: seq<nat>, k: nat, i: nat)
    requires BinOk(recs, list, k) && i < |list|
    requires forall c :: c in recs && c != list[i] ==> c in recs' && recs'[c] == recs[c]
    ensures BinOk(recs', Without(list, i), k)
  {
    BinWithout(recs, list, k, i);
    WithoutKeeps(list, i);
    assert forall j :: 0 <= j < |Without(list, i)| ==>
        InBin(recs, Without(list, i)[j], k) && Without(list, i)[j] in Without(list, i);
    BinAgrees(recs, recs', Without(list, i), k);
  }

  lemma BinWithout(recs: map<nat, Rec>, list: seq<nat>, k: nat, i: nat)
    requires BinOk(recs, list, k) && i < |list|
    ensures BinOk(recs, Without(list, i), k)
  {
    var r := Without(list, i);
    WithoutKeeps(list, i);
    forall j | 0 <= j < |r| ensures InBin(recs, r[j], k) {
      assert r[j] == list[if j < i then j else j + 1];
    }
    forall a, b | 0 <= a < b < |r| && Full(recs[r[a]]) ensures Full(recs[r[b]]) {
      assert r[a] == list[if a < i then a else a + 1] && r[b] == list[if b < i then b else b + 1];
    }
  }

  // ---------------------------------------------------------------- nc_malloc_small

  /** h' is h, but that one more chunk is held. */
  ghost predicate Gains(h: Heap, h': Heap, b: nat, x: nat) {
    && !LiveIn(h, b, x)
    && (forall c, y :: LiveIn(h', c, y) <==> LiveIn(h, c, y) || (c == b && y == x))
  }

  ghost predicate Loses(h: Heap, h': Heap, b: nat, x: nat) { Gains(h', h, b, x) }

  lemma HeadMembers(recs: map<nat, Rec>, list: seq<nat>, k: nat, r: Rec, list': seq<nat>)
    requires BinOk(recs, list, k) && list != [] && r.bin == k && BlockOk(list[0], r)
    requires list' == list || list' == ToTail(list)
    ensures Distinct(list') && SameElements(list', list)
    ensures forall i :: 0 <= i < |list'| ==> InBin(recs[list[0] := r], list'[i], k)
  {
    ToTailKeeps(list);
    assert list' == list ==> SameElements(list', list);
    forall i | 0 <= i < |list'| ensures InBin(recs[list[0] := r], list'[i], k) {
      if list'[i] != list[0] {
        assert exists j :: 0 <= j < |list| && list[j] == list'[i] && InBin(recs, list[j], k);
      }
    }
  }

  lemma HeadOrder(recs: map<nat, Rec>, list: seq<nat>, k: nat, r: Rec)
    requires BinOk(recs, list, k) && list != [] && !Full(recs[list[0]])
    ensures forall i :: 0 <= i < |list| ==> list[i] in recs[list[0] := r]
    ensures forall i :: 0 <= i < |Rotated(list, Full(r))| ==> Rotated(list, Full(r))[i] in recs[list[0] := r]
    ensures SpaceFirst(recs[list[0] := r], Rotated(list, Full(r)))
  {
    assert forall i :: 0 <= i < |list| ==> InBin(recs, list[i], k);
    assert forall i :: 0 < i < |list| ==> list[i] != list[0];
  }

  lemma HeadBin(recs: map<nat, Rec>, list: seq<nat>, k: nat, binsize: nat)
    requires BinOk(recs, list, k) && list != [] && !Full(recs[list[0]]) && IsBin(k) && SizeOfBin(binsize, k)
    ensures var r := Take(recs[list[0]], binsize);
            && BinOk(recs[list[0] := r], Rotated(list, Full(r)), k)
            && SameElements(Rotated(list, Full(r)), list)
  {
    var b := list[0];
    assert InBin(recs, b, k);
    var r := Take(recs[b], binsize);
    TakeOk(b, recs[b], binsize);
    HeadMembers(recs, list, k, r, Rotated(list, Full(r)));
    HeadOrder(recs, list, k, r);
  }

  lemma HeadHasChunk(h: Heap, tid: nat, bin: nat, binsize: nat)
    requires HeapOk(h, tid) && IsBin(bin) && SizeOfBin(binsize, bin)
    requires h.bins[bin] != [] && h.bins[bin][0] in h.recs && !Full(h.recs[h.bins[bin][0]])
    ensures var g := MallocFromHead(h, bin, binsize);
            HeapOk(g.heap, tid) && Gains(h, g.heap, g.blk, g.hdr)
  {
    var b := h.bins[bin][0];
    assert BinOk(h.recs, h.bins[bin], bin) && InBin(h.recs, b, bin) && RecOk(b, h.recs[b], tid);
    HeadBin(h.recs, h.bins[bin], bin, binsize);
    TakeOk(b, h.recs[b], binsize);
    RewriteOk(h, tid, b, Take(h.recs[b], binsize), Rotated(h.bins[bin], Full(Take(h.recs[b], binsize))));
  }

  /** When the head is full, all are: a full head may rotate, and testing the head alone misses no chunk. */
  lemma FullHead(h: Heap, tid: nat, bin: nat)
    requires HeapOk(h, tid) && bin < BINCNT && h.bins[bin] != []
    requires h.bins[bin][0] in h.recs && Full(h.recs[h.bins[bin][0]])
    ensures forall i :: 0 <= i < |h.bins[bin]| ==> h.bins[bin][i] in h.recs && Full(h.recs[h.bins[bin][i]])
  {
    assert BinOk(h.recs, h.bins[bin], bin);
    assert forall i :: 0 <= i < |h.bins[bin]| ==> InBin(h.recs, h.bins[bin][i], bin);
  }

  lemma RotateOk(h: Heap, tid: nat, bin: nat)
    requires HeapOk(h, tid) && bin < BINCNT
    requires h.bins[bin] != [] ==> h.bins[bin][0] in h.recs && Full(h.recs[h.bins[bin][0]])
    ensures var h' := h.(bins := h.bins[bin := Rotated(h.bins[bin], true)]);
            HeapOk(h', tid) && (forall c, y :: LiveIn(h', c, y) <==> LiveIn(h, c, y))
  {
    var list := h.bins[bin];
    if list == [] {
      assert h.bins[bin := []] == h.bins;
    } else {
      var b := list[0];
      assert BinOk(h.recs, list, bin);
      assert forall i :: 0 <= i < |list| ==> InBin(h.recs, list[i], bin);
      FullHead(h, tid, bin);
      ToTailKeeps(list);
      var list' := Rotated(list, true);
      assert h.recs[b := h.recs[b]] == h.recs;
      forall i | 0 <= i < |list'| ensures InBin(h.recs, list'[i], bin) && Full(h.recs[list'[i]]) {
        assert exists j :: 0 <= j < |list| && list[j] == list'[i];
      }
      assert BinOk(h.recs, list', bin);
      assert RecOk(b, h.recs[b], tid);
      RewriteOk(h, tid, b, h.recs[b], list');
    }
  }

  lemma NewBlockServes(h: Heap, tid: nat, bin: nat, binsize: nat, newbase: nat)
    requires HeapOk(h, tid) && IsBin(bin) && SizeOfBin(binsize, bin)
    requires h.cache == [] ==> Fresh(h, newbase, BLKSIZE)
    requires h.bins[bin] != [] ==> h.bins[bin][0] in h.recs && Full(h.recs[h.bins[bin][0]])
    ensures var g := MallocFromBlock(h, tid, bin, binsize, newbase);
            HeapOk(g.heap, tid) && Gains(h, g.heap, g.blk, g.hdr)
  {
    var g := MallocFromBlock(h, tid, bin, binsize, newbase);
    var h0 := h.(bins := h.bins[bin := Rotated(h.bins[bin], true)]);
    RotateOk(h, tid, bin);
    var r := FirstChunk(g.blk, tid, bin, binsize);
    if h.cache != [] {
      assert RecOk(g.blk, h.recs[g.blk], tid);
      FirstChunkOk(g.blk, tid, bin, binsize);
      ReuseOk(h0, g.heap, tid, g.blk, r);
    } else {
      FirstChunkOk(g.blk, tid, bin, binsize);
      FreshIsNew(h, tid, g.blk, BLKSIZE);
      MapOk(h0, g.heap, tid, g.blk, r);
    }
    AddedLive(h0, g.heap, g.blk, r);
  }

  lemma HeadIn(h: Heap, tid: nat, bin: nat)
    requires HeapOk(h, tid) && bin < BINCNT && h.bins[bin] != []
    ensures h.bins[bin][0] in h.recs && h.recs[h.bins[bin][0]].small && h.recs[h.bins[bin][0]].bin == bin
  {
    assert BinOk(h.recs, h.bins[bin], bin) && InBin(h.recs, h.bins[bin][0], bin);
  }

  /** nc_malloc_small keeps the heap well formed and hands out one chunk that nobody held. */
  lemma MallocSmallOk(h: Heap, tid: nat, size: nat, newbase: nat)
    requires HeapOk(h, tid) && size <= SMALL_MAX && Fresh(h, newbase, BLKSIZE)
    ensures var g := MallocSmall(h, tid, size, newbase);
            && HeapOk(g.heap, tid) && Gains(h, g.heap, g.blk, g.hdr)
            && g.blk in g.heap.recs && g.heap.recs[g.blk].small && g.heap.recs[g.blk].bin == BinOf(size + HDR_BYTES)
  {
    var bin := BinOf(size + HDR_BYTES);
    var binsize := ChunkSize(size + HDR_BYTES, bin);
    ClassIsGood(size + HDR_BYTES, bin);
    if h.bins[bin] != [] {
      HeadIn(h, tid, bin);
    }
    if h.bins[bin] != [] && !Full(h.recs[h.bins[bin][0]]) {
      HeadHasChunk(h, tid, bin, binsize);
    } else {
      NewBlockServes(h, tid, bin, binsize, newbase);
    }
  }

  // ---------------------------------------------------------------- nc_free_small

  lemma FrontBin(recs: map<nat, Rec>, list: seq<nat>, k: nat, i: nat, r: Rec)
    requires BinOk(recs, list, k) && i < |list| && r.bin == k && BlockOk(list[i], r) && !Full(r)
    ensures BinOk(recs[list[i] := r], ToFront(list, i), k) && SameElements(ToFront(list, i), list)
  {
    var b := list[i];
    var recs' := recs[b := r];
    ToFrontKeeps(list, i);
    WithoutKeeps(list, i);
    BinWithout(recs, list, k, i);
    var others := Without(list, i);
    assert forall j :: 0 <= j < |others| ==> InBin(recs, others[j], k) && others[j] in others;
    BinAgrees(recs, recs', others, k);
    PrependBin(recs', b, others, k);
  }

  /** A block with space in front of a bin. */
  lemma PrependBin(recs: map<nat, Rec>, b: nat, others: seq<nat>, k: nat)
    requires BinOk(recs, others, k) && InBin(recs, b, k) && !Full(recs[b]) && b !in others
    ensures BinOk(recs, [b] + others, k)
  {
    var list := [b] + others;
    PrependKeeps(b, others);
    forall j | 0 <= j < |list| ensures InBin(recs, list[j], k) {
      if j > 0 { assert list[j] == others[j - 1] && InBin(recs, others[j - 1], k); }
    }
    assert forall j :: 0 < j < |list| ==> list[j] == others[j - 1];
  }

  lemma InItsBin(h: Heap, tid: nat, b: nat, x: nat)
    requires HeapOk(h, tid) && LiveIn(h, b, x) && h.recs[b].small
    ensures h.recs[b].bin < BINCNT && b in h.bins[h.recs[b].bin] && BlockOk(b, h.recs[b]) && h.recs[b].tid == tid
    ensures !Idle(h.recs[b])
  {
    assert Listed(h, b) && RecOk(b, h.recs[b], tid);
    var k := h.recs[b].bin;
    assert BinOk(h.recs, h.bins[k], k);
    assert forall i :: 0 <= i < |h.bins[k]| ==> InBin(h.recs, h.bins[k][i], k);
  }

  lemma GiveBack(h: Heap, tid: nat, b: nat, x: nat)
    requires HeapOk(h, tid) && LiveIn(h, b, x) && h.recs[b].small && FreeCount(h.recs[b]) + 1 < h.recs[b].cnt
    ensures h.recs[b].bin < BINCNT && b in h.bins[h.recs[b].bin]
    ensures HeapOk(FreeSmall(h, b, x), tid) && Loses(h, FreeSmall(h, b, x), b, x)
  {
    InItsBin(h, tid, b, x);
    var r := h.recs[b];
    var list := h.bins[r.bin];
    GiveOk(b, r, x);
    assert BinOk(h.recs, list, r.bin);
    FrontBin(h.recs, list, r.bin, IndexOf(list, b), Give(r, x));
    RewriteOk(h, tid, b, Give(r, x), ToFront(list, IndexOf(list, b)));
  }

  /** b leaves its bin; its record becomes idle, or is no longer owned. */
  ghost predicate Removed(h: Heap, h': Heap, b: nat) {
    && b in h.recs && h.recs[b].bin < |h.bins| && b in h.bins[h.recs[b].bin]
    && h'.bins == h.bins[h.recs[b].bin := Without(h.bins[h.recs[b].bin], IndexOf(h.bins[h.recs[b].bin], b))]
    && h'.big == h.big && h'.used == h.used
    && (h'.recs == h.recs[b := Emptied(h.recs[b])] || h'.recs == h.recs - {b})
  }

  lemma RemovedBytes(h: Heap, h': Heap, tid: nat, b: nat)
    requires HeapOk(h, tid) && Removed(h, h', b) && h.recs[b].small && !Idle(h.recs[b])
    ensures BigOk(h'.recs, h'.big, h'.used) && BinsOk(h'.recs, h'.bins)
    ensures OwnedBytes(h') == OwnedBytes(h) + BLKSIZE * (|h'.cache| - |h.cache| - 1)
  {
    BinsWithout(h, tid, b, h'.recs);
    assert AgreeOn(h.recs, h'.recs, h.big) && AgreeOn(h.recs, h'.recs, h.used);
    SizeSumAgrees(h.recs, h'.recs, h.big);
    SizeSumAgrees(h.recs, h'.recs, h.used);
    TotalUpdate(h.bins, h.recs[b].bin, h'.bins[h.recs[b].bin]);
  }

  lemma RemovedListed(h: Heap, h': Heap, tid: nat, b: nat)
    requires HeapOk(h, tid) && Removed(h, h', b) && h.recs[b].small && !Idle(h.recs[b])
    requires forall c :: c in h.cache ==> c in h'.cache
    requires b in h'.recs ==> b in h'.cache
    ensures forall c :: c in h'.recs ==> RecOk(c, h'.recs[c], tid) && Listed(h', c)
  {
    var k := h.recs[b].bin;
    var i := IndexOf(h.bins[k], b);
    assert k < BINCNT && BinOk(h.recs, h.bins[k], k);
    WithoutKeeps(h.bins[k], i);
    forall c | c in h'.recs ensures RecOk(c, h'.recs[c], tid) && Listed(h', c) {
      assert RecOk(c, h.recs[c], tid) && Listed(h, c);
    }
  }

  lemma CacheOne(h: Heap, h': Heap, tid: nat, b: nat)
    requires HeapOk(h, tid) && Removed(h, h', b) && h.recs[b].small && !Idle(h.recs[b])
    requires |h.cache| < PAGE_BLK_MAP_TRESH && h'.cache == [b] + h.cache && h'.recs == h.recs[b := Emptied(h.recs[b])]
    ensures CacheOk(h'.recs, h'.cache)
  {
    assert b !in h.cache;
    PrependKeeps(b, h.cache);
  }

  lemma UncacheOk(h: Heap, h': Heap, tid: nat, b: nat)
    requires HeapOk(h, tid) && Removed(h, h', b) && h.recs[b].small && !Idle(h.recs[b])
    requires h'.cache == h.cache && h'.recs == h.recs - {b}
    ensures CacheOk(h'.recs, h'.cache)
  {
    assert b !in h.cache;
  }

  /** A block whose chunks are all free leaves its bin. */
  lemma RemovedOk(h: Heap, h': Heap, tid: nat, b: nat)
    requires HeapOk(h, tid) && Removed(h, h', b) && h.recs[b].small && !Idle(h.recs[b]) && h'.mapped == OwnedBytes(h')
    requires CacheOk(h'.recs, h'.cache) && (forall c :: c in h.cache ==> c in h'.cache)
    requires (b in h'.recs ==> b in h'.cache)
    ensures HeapOk(h', tid)
  {
    RemovedBytes(h, h', tid, b);
    RemovedListed(h, h', tid, b);
  }

  lemma RemovedLive(h: Heap, h': Heap, b: nat, x: nat)
    requires Removed(h, h', b) && h.recs[b].small && LiveIn(h, b, x) && forall y :: Live(h.recs[b], y) <==> y == x
    ensures Loses(h, h', b, x)
  {
  }

  lemma GiveLast(h: Heap, tid: nat, b: nat, x: nat)
    requires HeapOk(h, tid) && LiveIn(h, b, x) && h.recs[b].small && FreeCount(h.recs[b]) + 1 >= h.recs[b].cnt
    ensures h.recs[b].bin < BINCNT && b in h.bins[h.recs[b].bin]
    ensures HeapOk(FreeSmall(h, b, x), tid) && Loses(h, FreeSmall(h, b, x), b, x)
  {
    InItsBin(h, tid, b, x);
    var h' := FreeSmall(h, b, x);
    LastChunkGone(b, h.recs[b], x);
    RemovedBytes(h, h', tid, b);
    if |h.cache| < PAGE_BLK_MAP_TRESH {
      CacheOne(h, h', tid, b);
    } else {
      UncacheOk(h, h', tid, b);
    }
    RemovedOk(h, h', tid, b);
    RemovedLive(h, h', b, x);
  }

  /** nc_free_small keeps the heap well formed and takes back exactly the chunk it was given. */
  lemma FreeSmallOk(h: Heap, tid: nat, b: nat, x: nat)
    requires HeapOk(h, tid) && LiveIn(h, b, x) && h.recs[b].small
    ensures h.recs[b].bin < BINCNT && b in h.bins[h.recs[b].bin]
    ensures HeapOk(FreeSmall(h, b, x), tid) && Loses(h, FreeSmall(h, b, x), b, x)
  {
    if FreeCount(h.recs[b]) + 1 < h.recs[b].cnt {
      GiveBack(h, tid, b, x);
    } else {
      GiveLast(h, tid, b, x);
    }
  }

  // ---------------------------------------------------------------- nc_malloc_big, nc_free_big

  lemma ReuseBig(h: Heap, tid: nat, i: nat)
    requires HeapOk(h, tid) && i < |h.big|
    ensures var b := h.big[i];
            var h' := h.(big := Without(h.big, i), used := h.used + [b]);
            HeapOk(h', tid) && Gains(h, h', b, b + BLK_BYTES)
  {
    ReuseBigLists(h.recs, h.big, h.used, i);
    ReuseBigListed(h, tid, i);
  }

  /** The lists and their sizes when block i of the big cache is used again. */
  lemma ReuseBigLists(recs: map<nat, Rec>, big: seq<nat>, used: seq<nat>, i: nat)
    requires BigOk(recs, big, used) && i < |big|
    ensures BigOk(recs, Without(big, i), used + [big[i]])
    ensures SizeSum(recs, Without(big, i)) + SizeSum(recs, used + [big[i]]) == SizeSum(recs, big) + SizeSum(recs, used)
  {
    var big' := Without(big, i);
    WithoutKeeps(big, i);
    SizeSumWithout(recs, big, i);
    SizeSumJoins(recs, used, [big[i]]);
    SizeSumOne(recs, big[i]);
    assert forall j :: 0 <= j < |big'| ==> big'[j] in big';
  }

  lemma ReuseBigListed(h: Heap, tid: nat, i: nat)
    requires HeapOk(h, tid) && i < |h.big|
    ensures var b := h.big[i];
            var h' := h.(big := Without(h.big, i), used := h.used + [b]);
            (forall c :: c in h'.recs ==> Listed(h', c)) && Gains(h, h', b, b + BLK_BYTES)
  {
    var b := h.big[i];
    var h' := h.(big := Without(h.big, i), used := h.used + [b]);
    WithoutKeeps(h.big, i);
    forall c | c in h'.recs ensures Listed(h', c) {
      assert Listed(h, c);
    }
  }

  lemma MapBigBytes(h: Heap, h': Heap, tid: nat, b: nat, bytes: nat)
    requires HeapOk(h, tid) && b !in h.recs && h'.recs == h.recs[b := BigRec(tid, bytes)]
    requires h'.used == h.used + [b] && h'.big == h.big && h'.bins == h.bins && h'.cache == h.cache
    ensures OwnedBytes(h') == OwnedBytes(h) + bytes && CacheOk(h'.recs, h'.cache) && BigOk(h'.recs, h'.big, h'.used)
  {
    assert AgreeOn(h.recs, h'.recs, h.big) && AgreeOn(h.recs, h'.recs, h.used);
    SizeSumAgrees(h.recs, h'.recs, h.big);
    SizeSumAgrees(h.recs, h'.recs, h.used);
    SizeSumJoins(h'.recs, h.used, [b]);
    SizeSumOne(h'.recs, b);
  }

  lemma MapBig(h: Heap, tid: nat, b: nat, bytes: nat)
    requires HeapOk(h, tid) && Fresh(h, b, bytes) && bytes > 0 && bytes % BLKSIZE == 0
    ensures var h' := h.(recs := h.recs[b := BigRec(tid, bytes)], used := h.used + [b], mapped := h.mapped + bytes);
            HeapOk(h', tid) && Gains(h, h', b, b + BLK_BYTES) && b !in h.recs
  {
    var h' := h.(recs := h.recs[b := BigRec(tid, bytes)], used := h.used + [b], mapped := h.mapped + bytes);
    FreshIsNew(h, tid, b, bytes);
    MapBigBins(h, h', tid, b);
    MapBigBytes(h, h', tid, b, bytes);
    forall c | c in h'.recs ensures RecOk(c, h'.recs[c], tid) && Listed(h', c) {
      assert c != b ==> RecOk(c, h.recs[c], tid) && Listed(h, c);
    }
  }

  lemma MapBigBins(h: Heap, h': Heap, tid: nat, b: nat)
    requires HeapOk(h, tid) && b !in h.recs && b in h'.recs && h'.recs == h.recs[b := h'.recs[b]] && h'.bins == h.bins
    ensures BinsOk(h'.recs, h'.bins)
  {
    forall k | 0 <= k < BINCNT ensures BinOk(h'.recs, h.bins[k], k) {
      assert BinOk(h.recs, h.bins[k], k);
      assert forall i :: 0 <= i < |h.bins[k]| ==> InBin(h.recs, h.bins[k][i], k);
      BinAgrees(h.recs, h'.recs, h.bins[k], k);
    }
  }

  /** A big block with room for size0 bytes is granted. */
  ghost predicate GrantsBig(h: Heap, tid: nat, g: Granted, size0: nat) {
    && HeapOk(g.heap, tid) && Gains(h, g.heap, g.blk, g.hdr)
    && g.blk in g.heap.recs && !g.heap.recs[g.blk].small && g.heap.recs[g.blk].size >= size0
  }

  lemma ReuseGrants(h: Heap, tid: nat, i: nat, size0: nat, g: Granted)
    requires HeapOk(h, tid) && i < |h.big| && h.big[i] in h.recs && h.recs[h.big[i]].size >= size0
    requires g.heap == h.(big := Without(h.big, i), used := h.used + [h.big[i]]) && g.blk == h.big[i]
    requires g.hdr == g.blk + BLK_BYTES
    ensures GrantsBig(h, tid, g, size0)
  {
    ReuseBig(h, tid, i);
  }

  lemma MapGrants(h: Heap, tid: nat, b: nat, bytes: nat, size0: nat, g: Granted)
    requires HeapOk(h, tid) && Fresh(h, b, bytes) && bytes >= size0 > 0 && bytes % BLKSIZE == 0 && g.blk == b
    requires g.hdr == b + BLK_BYTES
    requires g.heap == h.(recs := h.recs[b := BigRec(tid, bytes)], used := h.used + [b], mapped := h.mapped + bytes)
    ensures GrantsBig(h, tid, g, size0)
  {
    MapBig(h, tid, b, bytes);
  }

  /** nc_malloc_big hands out the first block of the cache that is large enough, or a new one. */
  lemma MallocBigOk(h: Heap, tid: nat, size: nat, newbase: nat)
    requires HeapOk(h, tid) && Fresh(h, newbase, RoundUp(size + BLK_BYTES + HDR_BYTES))
    ensures GrantsBig(h, tid, MallocBig(h, tid, size, newbase), size + BLK_BYTES + HDR_BYTES)
  {
    var size0 := size + BLK_BYTES + HDR_BYTES;
    var i := FirstFit(h.recs, h.big, size0);
    if i < |h.big| {
      ReuseGrants(h, tid, i, size0, MallocBig(h, tid, size, newbase));
    } else {
      MapGrants(h, tid, newbase, RoundUp(size0), size0, MallocBig(h, tid, size, newbase));
    }
  }

  // ---------------------------------------------------------------- nc_free_big

  lemma UsedHas(h: Heap, tid: nat, b: nat, x: nat)
    requires HeapOk(h, tid) && LiveIn(h, b, x) && !h.recs[b].small
    ensures b in h.used && b !in h.big && x == b + BLK_BYTES
  {
  }

  /** The block moves to the head of the big cache. */
  function Cached(h: Heap, b: nat): Heap
    requires b in h.used
  {
    h.(big := [b] + h.big, used := Without(h.used, IndexOf(h.used, b)))
  }

  lemma CachedBytes(h: Heap, tid: nat, b: nat)
    requires HeapOk(h, tid) && b in h.used && b !in h.big
    ensures var h' := Cached(h, b);
            && AllBig(h.recs, h'.big) && AllBig(h.recs, h'.used)
            && (forall i :: 0 <= i < |h'.big| ==> h'.big[i] !in h'.used)
            && OwnedBytes(h') == OwnedBytes(h)
  {
    CachedLists(h.recs, h.big, h.used, b, IndexOf(h.used, b));
  }

  lemma CachedLists(recs: map<nat, Rec>, big: seq<nat>, used: seq<nat>, b: nat, i: nat)
    requires BigOk(recs, big, used) && i < |used| && used[i] == b && b !in big
    ensures AllBig(recs, [b] + big) && AllBig(recs, Without(used, i)) && forall j :: 0 <= j < |[b] + big| ==>
            ([b] + big)[j] !in Without(used, i)
    ensures SizeSum(recs, [b] + big) + SizeSum(recs, Without(used, i)) == SizeSum(recs, big) + SizeSum(recs, used)
  {
    var used' := Without(used, i);
    WithoutKeeps(used, i);
    PrependKeeps(b, big);
    SizeSumWithout(recs, used, i);
    SizeSumJoins(recs, [b], big);
    SizeSumOne(recs, b);
    assert forall j :: 0 <= j < |used'| ==> used'[j] in used';
  }

  lemma CachedListed(h: Heap, tid: nat, b: nat)
    requires HeapOk(h, tid) && b in h.used && b !in h.big
    ensures forall c :: c in h.recs ==> Listed(Cached(h, b), c)
    ensures !h.recs[b].small && Loses(h, Cached(h, b), b, b + BLK_BYTES)
  {
    var i := IndexOf(h.used, b);
    WithoutKeeps(h.used, i);
    assert h.used[i] == b;
    forall c | c in h.recs ensures Listed(Cached(h, b), c) {
      assert Listed(h, c);
    }
  }

  /** The last block of an overfull big cache is unmapped. */
  lemma EvictOk(h: Heap, h': Heap, tid: nat, tail: nat)
    requires BinsOk(h.recs, h.bins) && CacheOk(h.recs, h.cache) && AllBig(h.recs, h.big) && AllBig(h.recs, h.used)
    requires forall i :: 0 <= i < |h.big| ==> h.big[i] !in h.used
    requires |h.big| > 0 && tail == h.big[|h.big| - 1]
    requires h' == h.(recs := h.recs - {tail}, big := h.big[..|h.big| - 1], mapped := h.mapped - h.recs[tail].size)
    ensures BinsOk(h'.recs, h'.bins) && CacheOk(h'.recs, h'.cache) && AllBig(h'.recs, h'.big)
    ensures AllBig(h'.recs, h'.used)
    ensures OwnedBytes(h') == OwnedBytes(h) - h.recs[tail].size
  {
    forall k | 0 <= k < BINCNT ensures BinOk(h'.recs, h.bins[k], k) {
      assert BinOk(h.recs, h.bins[k], k);
      assert forall i :: 0 <= i < |h.bins[k]| ==> InBin(h.recs, h.bins[k][i], k);
      BinAgrees(h.recs, h'.recs, h.bins[k], k);
    }
    assert AgreeOn(h.recs, h'.recs, h'.big) && AgreeOn(h.recs, h'.recs, h.used);
    SizeSumAgrees(h.recs, h'.recs, h'.big);
    SizeSumAgrees(h.recs, h'.recs, h.used);
    assert h.big == h'.big + [tail];
    SizeSumJoins(h.recs, h'.big, [tail]);
    SizeSumOne(h.recs, tail);
  }

  lemma EvictListed(h: Heap, h': Heap, tid: nat, tail: nat)
    requires forall c :: c in h.recs ==> Listed(h, c)
    requires AllBig(h.recs, h.big) && (forall i :: 0 <= i < |h.big| ==> h.big[i] !in h.used)
    requires |h.big| > 0 && tail == h.big[|h.big| - 1]
    requires h' == h.(recs := h.recs - {tail}, big := h.big[..|h.big| - 1], mapped := h.mapped - h.recs[tail].size)
    ensures forall c :: c in h'.recs ==> Listed(h', c)
    ensures forall c, y :: LiveIn(h', c, y) <==> LiveIn(h, c, y)
  {
    assert h.big == h'.big + [tail];
    forall c | c in h'.recs ensures Listed(h', c) {
      assert Listed(h, c);
    }
  }

  /** nc_free_big keeps the heap well formed, takes back the block, and unmaps at most the least recently freed one. */
  lemma FreeBigOk(h: Heap, tid: nat, b: nat, x: nat)
    requires HeapOk(h, tid) && LiveIn(h, b, x) && !h.recs[b].small
    ensures b in h.used && (forall i :: 0 <= i < |h.big| ==> h.big[i] in h.recs)
    ensures HeapOk(FreeBig(h, b), tid) && Loses(h, FreeBig(h, b), b, x)
  {
    UsedHas(h, tid, b, x);
    var h1 := Cached(h, b);
    CachedBytes(h, tid, b);
    CachedListed(h, tid, b);
    if |h.big| >= BIG_BLK_MAP_TRESH {
      var tail := h.big[|h.big| - 1];
      var h' := FreeBig(h, b);
      assert h1.big[|h1.big| - 1] == tail;
      assert h' == h1.(recs := h1.recs - {tail}, big := h1.big[..|h1.big| - 1],
          mapped := h1.mapped - h1.recs[tail].size);
      EvictOk(h1, h', tid, tail);
      EvictListed(h1, h', tid, tail);
    }
  }

  // ---------------------------------------------------------------- memory

  /** The blocks of h' are those of h, but for ones given back and for the new one. */
  ghost predicate OnlyNew(h: Heap, h': Heap, newbase: nat, bytes: nat) {
    forall c :: c in h'.recs ==>
      || (c in h.recs && Bytes(h'.recs[c]) == Bytes(h.recs[c]))
      || (c == newbase && c !in h.recs && Bytes(h'.recs[c]) == bytes)
  }

  lemma HeadMemory(h: Heap, bin: nat, binsize: nat, newbase: nat)
    requires bin < |h.bins| && h.bins[bin] != [] && h.bins[bin][0] in h.recs && !Full(h.recs[h.bins[bin][0]])
    ensures OnlyNew(h, MallocFromHead(h, bin, binsize).heap, newbase, BLKSIZE)
  {
  }

  lemma BlockMemory(h: Heap, tid: nat, bin: nat, binsize: nat, newbase: nat)
    requires HeapOk(h, tid) && bin < BINCNT && Fresh(h, newbase, BLKSIZE)
    ensures OnlyNew(h, MallocFromBlock(h, tid, bin, binsize, newbase).heap, newbase, BLKSIZE)
  {
    FreshIsNew(h, tid, newbase, BLKSIZE);
    assert h.cache != [] ==> h.cache[0] in h.recs && h.recs[h.cache[0]].small;
  }

  lemma MallocSmallMemory(h: Heap, tid: nat, size: nat, newbase: nat)
    requires HeapOk(h, tid) && size <= SMALL_MAX && Fresh(h, newbase, BLKSIZE)
    ensures OnlyNew(h, MallocSmall(h, tid, size, newbase).heap, newbase, BLKSIZE)
  {
    var bin := BinOf(size + HDR_BYTES);
    var binsize := ChunkSize(size + HDR_BYTES, bin);
    BlockMemory(h, tid, bin, binsize, newbase);
    if h.bins[bin] != [] && h.bins[bin][0] in h.recs && !Full(h.recs[h.bins[bin][0]]) {
      HeadMemory(h, bin, binsize, newbase);
    }
  }

  lemma MallocBigMemory(h: Heap, tid: nat, size: nat, newbase: nat)
    requires HeapOk(h, tid) && Fresh(h, newbase, RoundUp(size + BLK_BYTES + HDR_BYTES))
    ensures OnlyNew(h, MallocBig(h, tid, size, newbase).heap, newbase, RoundUp(size + BLK_BYTES + HDR_BYTES))
  {
    FreshIsNew(h, tid, newbase, RoundUp(size + BLK_BYTES + HDR_BYTES));
  }

  // ---------------------------------------------------------------- the stacks of free pointers

  /** No chunk enters a stack. */
  ghost predicate StacksShrink(h: Heap, h': Heap) { forall c: nat, y: nat :: Stacked(h', c, y) ==> Stacked(h, c, y) }

  lemma HeadStacks(h: Heap, bin: nat, binsize: nat)
    requires bin < |h.bins| && h.bins[bin] != [] && h.bins[bin][0] in h.recs && !Full(h.recs[h.bins[bin][0]])
    requires h.recs[h.bins[bin][0]].small
    ensures var g := MallocFromHead(h, bin, binsize);
            StacksShrink(h, g.heap) && (!g.written ==> Stacked(h, g.blk, g.hdr))
  {
  }

  lemma BlockStacks(h: Heap, tid: nat, bin: nat, binsize: nat, newbase: nat)
    requires bin < |h.bins|
    ensures var g := MallocFromBlock(h, tid, bin, binsize, newbase);
            StacksShrink(h, g.heap) && g.written
  {
  }

  /** A chunk whose header is not written comes from a stack, and no other chunk enters one. */
  lemma MallocSmallStacks(h: Heap, tid: nat, size: nat, newbase: nat)
    requires HeapOk(h, tid) && size <= SMALL_MAX
    ensures var g := MallocSmall(h, tid, size, newbase);
            StacksShrink(h, g.heap) && (!g.written ==> Stacked(h, g.blk, g.hdr))
  {
    var bin := BinOf(size + HDR_BYTES);
    var binsize := ChunkSize(size + HDR_BYTES, bin);
    if h.bins[bin] != [] { HeadIn(h, tid, bin); }
    if h.bins[bin] != [] && !Full(h.recs[h.bins[bin][0]]) {
      HeadStacks(h, bin, binsize);
    } else {
      BlockStacks(h, tid, bin, binsize, newbase);
    }
  }

  lemma MallocBigStacks(h: Heap, tid: nat, size: nat, newbase: nat)
    ensures var g := MallocBig(h, tid, size, newbase);
            StacksShrink(h, g.heap) && g.written
  {
  }

  /** At most the freed chunk enters a stack. */
  ghost predicate StacksGain(h: Heap, h': Heap, b: nat, x: nat) {
    forall c: nat, y: nat :: Stacked(h', c, y) ==> Stacked(h, c, y) || (c == b && y == x)
  }

  lemma FreeSmallStacks(h: Heap, b: nat, x: nat)
    requires b in h.recs && h.recs[b].small && h.recs[b].bin < |h.bins| && b in h.bins[h.recs[b].bin]
    ensures StacksGain(h, FreeSmall(h, b, x), b, x)
  {
  }

  lemma FreeBigStacks(h: Heap, b: nat, x: nat)
    requires b in h.used && (forall i :: 0 <= i < |h.big| ==> h.big[i] in h.recs)
    ensures StacksGain(h, FreeBig(h, b), b, x)
  {
  }

  /** A chunk on a stack is a chunk of a block in a bin. */
  lemma StackedPlace(h: Heap, tid: nat, b: nat, x: nat)
    requires HeapOk(h, tid) && Stacked(h, b, x)
    ensures BlockOk(b, h.recs[b]) && x in h.recs[b].starts
  {
    assert Listed(h, b);
    var k := h.recs[b].bin;
    assert BinOk(h.recs, h.bins[k], k);
    assert forall i :: 0 <= i < |h.bins[k]| ==> InBin(h.recs, h.bins[k][i], k);
  }

  // ---------------------------------------------------------------- a new heap

  lemma EmptyHeapOk(tid: nat)
    ensures HeapOk(EmptyHeap(), tid)
  {
    assert EmptyBins(BINCNT) == EmptyHeap().bins;
    TotalOfEmpty(BINCNT);
    assert SizeSum(EmptyHeap().recs, EmptyHeap().big) == 0;
  }

  function EmptyBins(n: nat): seq<seq<nat>> { seq(n, _ => []) }

  lemma {:induction false} TotalOfEmpty(n: nat)
    ensures Total(EmptyBins(n)) == 0
  {
    if n > 0 {
      assert EmptyBins(n)[..n - 1] == EmptyBins(n - 1);
      TotalOfEmpty(n - 1);
    }
  }
}
