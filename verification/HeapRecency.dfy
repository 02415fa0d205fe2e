/**
 * The cache of big blocks (numaplace/ncalloc.c:495-530, 578-609) over runs: its order is the order of the frees, so
 * that the list positions that malloc and free go by stand for what was freed last and first.
 */
module HeapRecency {
  import opened Wrappers
  import opened SizeClasses
  import opened ListMoves
  import opened HeapBlocks
  import opened HeapModel
  import opened HeapInvariant
  import opened HeapRuns
  import opened HeapSafety
  import opened HeapTheorems

  // ---------------------------------------------------------------- the history of frees

  /** The block that a call frees, or frees a chunk of. */
  function FreedBlock(s: Process, e: Event): Option<nat> {
    match e
    case DoFree(x) => if x in s.bufs then Some(s.bufs[x].blk) else None
    case DoRealloc(_, x, newsize, _) =>
      if x in s.bufs && HasRecord(s, s.bufs[x]) && newsize > OldSize(s.heaps[s.bufs[x].tid].recs[s.bufs[x].blk])
      then Some(s.bufs[x].blk) else None
    case _ => None
  }

  function Stamped(times: map<nat, nat>, freed: Option<nat>, now: nat): map<nat, nat> {
    if freed.Some? then times[freed.value := now] else times
  }

  /** The call by which each block was last freed, among the first i calls. */
  function FreeTimes(states: seq<Process>, events: seq<Event>, i: nat): map<nat, nat>
    requires i <= |events| <= |states|
  {
    if i == 0 then map[] else Stamped(FreeTimes(states, events, i - 1), FreedBlock(states[i - 1], events[i - 1]), i - 1)
  }

  /** Each block of the list was freed later than the next. */
  ghost predicate ByTime(big: seq<nat>, times: map<nat, nat>) {
    && (forall p :: 0 <= p < |big| ==> big[p] in times)
    && (forall p, q :: 0 <= p < q < |big| ==> times[big[p]] > times[big[q]])
  }

  ghost predicate Recency(heaps: seq<Heap>, times: map<nat, nat>, now: nat) {
    && (forall b :: b in times ==> times[b] < now)
    && forall t :: 0 <= t < |heaps| ==> ByTime(heaps[t].big, times)
  }

  // ---------------------------------------------------------------- what the calls do to the list

  lemma WithoutByTime(big: seq<nat>, i: nat, times: map<nat, nat>)
    requires i < |big| && ByTime(big, times)
    ensures ByTime(Without(big, i), times)
  {
    var r := Without(big, i);
    assert forall j :: 0 <= j < |r| ==> r[j] == big[if j < i then j else j + 1];
  }

  lemma StampElsewhere(big: seq<nat>, b: nat, times: map<nat, nat>, now: nat)
    requires ByTime(big, times) && b !in big
    ensures ByTime(big, times[b := now])
  {
  }

  lemma StampFirst(big: seq<nat>, b: nat, times: map<nat, nat>, now: nat)
    requires ByTime(big, times) && b !in big && forall c :: c in times ==> times[c] < now
    ensures ByTime([b] + big, times[b := now])
  {
  }

  lemma MallocByTime(h: Heap, tid: nat, size: nat, newbase: nat, times: map<nat, nat>)
    requires ByTime(h.big, times) && |h.bins| == BINCNT
    ensures ByTime(MallocIn(h, tid, size, newbase).heap.big, times)
  {
    if size > SMALL_MAX {
      var i := FirstFit(h.recs, h.big, size + BLK_BYTES + HDR_BYTES);
      if i < |h.big| { WithoutByTime(h.big, i, times); }
    }
  }

  lemma FreeByTime(h: Heap, b: nat, x: nat, times: map<nat, nat>, now: nat)
    requires Placed(h, b) && ByTime(h.big, times) && b !in h.big && forall c :: c in times ==> times[c] < now
    ensures ByTime(FreeIn(h, b, x).big, times[b := now])
  {
    StampElsewhere(h.big, b, times, now);
    StampFirst(h.big, b, times, now);
  }

  lemma HeldNotSpare(h: Heap, tid: nat, b: nat, x: nat)
    requires HeapOk(h, tid) && LiveIn(h, b, x)
    ensures b !in h.big
  {
  }

  lemma OthersNotSpare(heaps: seq<Heap>, t: nat, u: nat, b: nat)
    requires HeapsOk(heaps) && HeapsApart(heaps) && t < |heaps| && u < |heaps| && t != u && b in heaps[t].recs
    ensures b !in heaps[u].big
  {
    if b in heaps[u].big {
      assert HeapOk(heaps[u], u);
      OwnerIs(heaps, t, b);
      OwnerIs(heaps, u, b);
    }
  }

  // ---------------------------------------------------------------- the calls keep the order

  lemma ServeRecency(s: Process, t: nat, size: nat, newbase: nat, times: map<nat, nat>, now: nat)
    requires t < |s.heaps| && |s.heaps[t].bins| == BINCNT && Recency(s.heaps, times, now)
    ensures Recency(s.heaps[t := MallocIn(s.heaps[t], t, size, newbase).heap], times, now)
  {
    MallocByTime(s.heaps[t], t, size, newbase, times);
  }

  lemma HeapsStamped(heaps: seq<Heap>, t: nat, b: nat, x: nat, times: map<nat, nat>, now: nat)
    requires t < |heaps| && Placed(heaps[t], b) && Recency(heaps, times, now)
    requires forall u :: 0 <= u < |heaps| ==> b !in heaps[u].big
    ensures Recency(heaps[t := FreeIn(heaps[t], b, x)], times[b := now], now + 1)
  {
    FreeByTime(heaps[t], b, x, times, now);
    forall u | 0 <= u < |heaps| ensures ByTime(heaps[u].big, times[b := now]) {
      StampElsewhere(heaps[u].big, b, times, now);
    }
  }

  lemma NotSpare(s: Process, x: nat, b: Buffer)
    requires ProcessOk(s) && x in s.bufs && b == s.bufs[x]
    ensures forall u :: 0 <= u < |s.heaps| ==> b.blk !in s.heaps[u].big
  {
    HeldInside(s, x, b);
    forall u | 0 <= u < |s.heaps| ensures b.blk !in s.heaps[u].big {
      if u == b.tid {
        HeldNotSpare(s.heaps[u], u, b.blk, x);
      } else {
        OthersNotSpare(s.heaps, b.tid, u, b.blk);
      }
    }
  }

  lemma FreeHeaps(s: Process, x: nat, b: Buffer)
    requires ProcessOk(s) && x in s.bufs && b == s.bufs[x]
    ensures HasRecord(s, b) && Placed(s.heaps[b.tid], b.blk)
    ensures Free(s, b.ptr).heaps == s.heaps[b.tid := FreeIn(s.heaps[b.tid], b.blk, x)]
  {
    HeldIsFreeable(s, x, b);
    FreeIs(s, x, b);
  }

  lemma FreeRecency(s: Process, x: nat, b: Buffer, times: map<nat, nat>, now: nat)
    requires ProcessOk(s) && x in s.bufs && b == s.bufs[x] && Recency(s.heaps, times, now)
    ensures Recency(Free(s, b.ptr).heaps, times[b.blk := now], now + 1)
  {
    FreeHeaps(s, x, b);
    NotSpare(s, x, b);
    HeapsStamped(s.heaps, b.tid, b.blk, x, times, now);
  }

  lemma LaterRecency(heaps: seq<Heap>, times: map<nat, nat>, now: nat)
    requires Recency(heaps, times, now)
    ensures Recency(heaps, times, now + 1)
  {
  }

  lemma MoveRecency(s: Process, t: nat, x: nat, b: Buffer, newsize: nat, g: Granted, m: Process, times: map<nat, nat>,
                    now: nat)
    requires CanServe(s, t, newsize, g) && x in s.bufs && b == s.bufs[x] && m == Serve(s, t, newsize, g).s
    requires Recency(m.heaps, times, now)
    ensures Recency(Free(m, b.ptr).heaps, times[b.blk := now], now + 1)
  {
    ServeKeeps(s, t, newsize, g);
    FreeRecency(m, x, b, times, now);
  }

  lemma MallocMoves(s: Process, t: nat, x: nat, b: Buffer, newsize: nat, newbase: nat, g: Granted, times: map<nat, nat>,
                    now: nat)
    requires ProcessOk(s) && t < |s.heaps| && AllFresh(s.heaps, newbase, MapBytes(newsize)) && x in s.bufs
    requires b == s.bufs[x]
    requires |s.heaps[t].bins| == BINCNT && g == MallocIn(s.heaps[t], t, newsize, newbase)
    requires Recency(s.heaps, times, now)
    ensures Recency(Free(Serve(s, t, newsize, g).s, b.ptr).heaps, times[b.blk := now], now + 1)
  {
    MallocCanServe(s, t, newsize, newbase);
    ServeRecency(s, t, newsize, newbase, times, now);
    MoveRecency(s, t, x, b, newsize, g, Serve(s, t, newsize, g).s, times, now);
  }

  lemma MovedRecency(s: Process, t: nat, x: nat, b: Buffer, newsize: nat, newbase: nat, times: map<nat, nat>, now: nat)
    requires ProcessOk(s) && t < |s.heaps| && AllFresh(s.heaps, newbase, MapBytes(newsize)) && x in s.bufs
    requires b == s.bufs[x]
    requires |s.heaps[t].bins| == BINCNT && Recency(s.heaps, times, now) && HasRecord(s, b)
    requires newsize > OldSize(s.heaps[b.tid].recs[b.blk])
    ensures Followed(s, b.ptr) && Recency(Realloc(s, t, b.ptr, newsize, newbase).s.heaps, times[b.blk := now], now + 1)
  {
    HeldIsFreeable(s, x, b);
    ReallocIs(s, t, x, b, s.heaps[b.tid].recs[b.blk], newsize, newbase);
    MallocMoves(s, t, x, b, newsize, newbase, MallocIn(s.heaps[t], t, newsize, newbase), times, now);
  }

  lemma StaysRecency(s: Process, t: nat, x: nat, b: Buffer, newsize: nat, newbase: nat, times: map<nat, nat>, now: nat)
    requires ProcessOk(s) && t < |s.heaps| && x in s.bufs && b == s.bufs[x]
    requires |s.heaps[t].bins| == BINCNT && Recency(s.heaps, times, now) && HasRecord(s, b)
    requires newsize <= OldSize(s.heaps[b.tid].recs[b.blk])
    ensures Followed(s, b.ptr) && Recency(Realloc(s, t, b.ptr, newsize, newbase).s.heaps, times, now + 1)
  {
    HeldIsFreeable(s, x, b);
    ReallocIs(s, t, x, b, s.heaps[b.tid].recs[b.blk], newsize, newbase);
    LaterRecency(s.heaps, times, now);
  }

  lemma ReallocRecency(s: Process, t: nat, x: nat, b: Buffer, newsize: nat, newbase: nat, times: map<nat, nat>,
                       now: nat)
    requires ProcessOk(s) && t < |s.heaps| && AllFresh(s.heaps, newbase, MapBytes(newsize)) && x in s.bufs
    requires b == s.bufs[x]
    requires |s.heaps[t].bins| == BINCNT && Recency(s.heaps, times, now) && HasRecord(s, b)
    ensures Followed(s, b.ptr)
    ensures var freed := if newsize > OldSize(s.heaps[b.tid].recs[b.blk]) then Some(b.blk) else None;
            Recency(Realloc(s, t, b.ptr, newsize, newbase).s.heaps, Stamped(times, freed, now), now + 1)
  {
    if newsize > OldSize(s.heaps[b.tid].recs[b.blk]) {
      MovedRecency(s, t, x, b, newsize, newbase, times, now);
    } else {
      StaysRecency(s, t, x, b, newsize, newbase, times, now);
    }
  }

  lemma NextRecency(s: Process, e: Event, times: map<nat, nat>, now: nat)
    requires ProcessOk(s) && Enabled(s, e) && Recency(s.heaps, times, now)
    ensures Recency(Next(s, e).heaps, Stamped(times, FreedBlock(s, e), now), now + 1)
  {
    match e
    case NewThread =>
      LaterRecency(s.heaps + [EmptyHeap()], times, now);
    case DoMalloc(t, size, newbase) =>
      BinsThere(s, t);
      ServeRecency(s, t, size, newbase, times, now);
    case DoMemalign(t, alignment, size, newbase) =>
      BinsThere(s, t);
      ServeRecency(s, t, AlignedSize(alignment, size), newbase, times, now);
    case DoFree(x) => FreeRecency(s, x, s.bufs[x], times, now);
    case DoFreeNull =>
      FreeNull(s);
      LaterRecency(s.heaps, times, now);
    case DoReallocNull(t, size, newbase) =>
      BinsThere(s, t);
      ServeRecency(s, t, size, newbase, times, now);
    case DoRealloc(t, x, newsize, newbase) =>
      BinsThere(s, t);
      ReallocRecency(s, t, x, s.bufs[x], newsize, newbase, times, now);
  }

  lemma CallRecency(states: seq<Process>, events: seq<Event>, i: nat, times: map<nat, nat>)
    requires Run(states, events) && i < |events| && Recency(states[i].heaps, times, i)
    ensures Recency(states[i + 1].heaps, Stamped(times, FreedBlock(states[i], events[i]), i), i + 1)
  {
    RunKeeps(states, events, i);
    assert FollowsAt(states, events, i);
    NextRecency(states[i], events[i], times, i);
  }

  /**
   * In every state of every run each heap's list of spare big blocks has them by the times of their last frees, latest
   * first.
   */
  lemma {:induction false} RunRecency(states: seq<Process>, events: seq<Event>, i: nat)
    requires Run(states, events) && i <= |events|
    ensures Recency(states[i].heaps, FreeTimes(states, events, i), i)
  {
    if i > 0 {
      var j, times := i - 1, FreeTimes(states, events, i - 1);
      RunRecency(states, events, j);
      CallRecency(states, events, j, times);
      assert FreeTimes(states, events, i) == Stamped(times, FreedBlock(states[j], events[j]), j);
    }
  }

  // ---------------------------------------------------------------- what is taken and what is given up

  /** A big block that nobody holds. */
  predicate Spare(h: Heap, b: nat) { b in h.recs && !h.recs[b].small && b !in h.used }

  lemma SpareIsListed(h: Heap, tid: nat, b: nat)
    requires HeapOk(h, tid)
    ensures Spare(h, b) <==> b in h.big
  {
    if b in h.recs { assert Listed(h, b); }
  }

  /** c was freed before d was, both for the last time. */
  predicate FreedBefore(times: map<nat, nat>, c: nat, d: nat) { c in times && d in times && times[c] < times[d] }

  lemma TakesLatest(h: Heap, tid: nat, size: nat, newbase: nat, times: map<nat, nat>, c: nat)
    requires HeapOk(h, tid) && ByTime(h.big, times) && Spare(h, c) && h.recs[c].size >= size + BLK_BYTES + HDR_BYTES
    ensures var b := MallocBig(h, tid, size, newbase).blk;
            Spare(h, b) && h.recs[b].size >= size + BLK_BYTES + HDR_BYTES && (b == c || FreedBefore(times, c, b))
  {
    SpareIsListed(h, tid, c);
    var f := FirstFit(h.recs, h.big, size + BLK_BYTES + HDR_BYTES);
    var j := IndexOf(h.big, c);
    SpareIsListed(h, tid, h.big[f]);
  }

  /**
   * In every state of every run, a big request that some spare block can serve takes the spare block that was freed
   * last among those that are large enough; otherwise it maps a new one.
   */
  lemma MostRecentFit(states: seq<Process>, events: seq<Event>, i: nat, t: nat, size: nat, newbase: nat, c: nat)
    requires Run(states, events) && i <= |events| && t < |states[i].heaps|
    ensures var h := states[i].heaps[t];
            var g := MallocBig(h, t, size, newbase);
            && (Spare(h, c) && h.recs[c].size >= size + BLK_BYTES + HDR_BYTES ==>
                  && Spare(h, g.blk) && h.recs[g.blk].size >= size + BLK_BYTES + HDR_BYTES && g.heap.recs == h.recs
                  && (g.blk == c || FreedBefore(FreeTimes(states, events, i), c, g.blk)))
            && ((forall d :: Spare(h, d) ==> h.recs[d].size < size + BLK_BYTES + HDR_BYTES) ==>
                  g.blk == newbase
                      && g.heap.recs == h.recs[newbase := BigRec(t, RoundUp(size + BLK_BYTES + HDR_BYTES))])
  {
    RunRecency(states, events, i);
    RunKeeps(states, events, i);
    var h := states[i].heaps[t];
    assert HeapOk(h, t);
    if Spare(h, c) && h.recs[c].size >= size + BLK_BYTES + HDR_BYTES {
      TakesLatest(h, t, size, newbase, FreeTimes(states, events, i), c);
    }
    var f := FirstFit(h.recs, h.big, size + BLK_BYTES + HDR_BYTES);
    if f < |h.big| { SpareIsListed(h, t, h.big[f]); }
  }

  /**
   * From h to h' the big block b was freed: it is spare now, and when there were 16 spare blocks, one block has left
   * the heap, which is the spare block that was freed before all others; otherwise none has.
   */
  ghost predicate Evicts(h: Heap, h': Heap, b: nat, times: map<nat, nat>) {
    && Spare(h', b)
    && (|h.big| < BIG_BLK_MAP_TRESH ==> h'.recs == h.recs)
    && (|h.big| >= BIG_BLK_MAP_TRESH ==> exists c :: Spare(h, c) && h'.recs == h.recs - {c} && Earliest(h, c, times))
  }

  ghost predicate Earliest(h: Heap, c: nat, times: map<nat, nat>) {
    forall d :: Spare(h, d) && d != c ==> FreedBefore(times, c, d)
  }

  lemma TailIsEarliest(h: Heap, tid: nat, times: map<nat, nat>)
    requires HeapOk(h, tid) && ByTime(h.big, times) && h.big != []
    ensures Spare(h, h.big[|h.big| - 1]) && Earliest(h, h.big[|h.big| - 1], times)
  {
    var c := h.big[|h.big| - 1];
    SpareIsListed(h, tid, c);
    forall d | Spare(h, d) && d != c ensures FreedBefore(times, c, d) {
      SpareIsListed(h, tid, d);
      var j := IndexOf(h.big, d);
    }
  }

  lemma FreeEvicts(h: Heap, tid: nat, b: nat, x: nat, times: map<nat, nat>)
    requires HeapOk(h, tid) && LiveIn(h, b, x) && !h.recs[b].small && Placed(h, b) && ByTime(h.big, times)
    ensures Evicts(h, FreeIn(h, b, x), b, times)
  {
    UsedHas(h, tid, b, x);
    WithoutKeeps(h.used, IndexOf(h.used, b));
    if |h.big| >= BIG_BLK_MAP_TRESH { TailIsEarliest(h, tid, times); }
  }

  /** nc_free of big buffer x in process m, when its caches are ordered by the times of the frees. */
  lemma BufferEvicts(m: Process, x: nat, b: Buffer, times: map<nat, nat>, now: nat)
    requires ProcessOk(m) && x in m.bufs && b == m.bufs[x] && Recency(m.heaps, times, now)
    requires HasRecord(m, b) && !m.heaps[b.tid].recs[b.blk].small
    ensures b.tid < |Free(m, b.ptr).heaps| && Evicts(m.heaps[b.tid], Free(m, b.ptr).heaps[b.tid], b.blk, times)
  {
    HeldInside(m, x, b);
    FreeHeaps(m, x, b);
    FreeEvicts(m.heaps[b.tid], b.tid, b.blk, x, times);
  }

  /**
   * In every run, freeing a big buffer gives up at most the spare block that was freed first, and b is the last freed.
   */
  lemma LeastRecentGoes(states: seq<Process>, events: seq<Event>, i: nat, x: nat, b: Buffer)
    requires Run(states, events) && i < |events| && events[i] == DoFree(x) && x in states[i].bufs
    requires b == states[i].bufs[x]
    requires HasRecord(states[i], b) && !states[i].heaps[b.tid].recs[b.blk].small
    ensures var times := FreeTimes(states, events, i + 1); b.blk in times && times[b.blk] == i
    ensures b.tid < |states[i + 1].heaps|
    ensures Evicts(states[i].heaps[b.tid], states[i + 1].heaps[b.tid], b.blk, FreeTimes(states, events, i))
  {
    RunRecency(states, events, i);
    RunKeeps(states, events, i);
    assert FollowsAt(states, events, i);
    BufferEvicts(states[i], x, b, FreeTimes(states, events, i), i);
  }

  /** Allocating leaves a big block that is in use alone. */
  lemma UsedStays(h: Heap, tid: nat, size: nat, newbase: nat, b: nat)
    requires HeapOk(h, tid) && Fresh(h, newbase, MapBytes(size)) && b in h.recs && b in h.used
    ensures var h' := MallocIn(h, tid, size, newbase).heap;
            b in h'.recs && h'.recs[b] == h.recs[b] && !h.recs[b].small
  {
    FreshIsNew(h, tid, newbase, MapBytes(size));
    if size <= SMALL_MAX {
      var bin := BinOf(size + HDR_BYTES);
      if h.bins[bin] != [] { HeadIn(h, tid, bin); }
    }
  }

  /** What the inner malloc of realloc leaves: buffer x, in its big block, and the caches in their order. */
  lemma MallocBefore(s: Process, t: nat, x: nat, b: Buffer, newsize: nat, newbase: nat, times: map<nat, nat>, now: nat)
    requires ProcessOk(s) && t < |s.heaps| && AllFresh(s.heaps, newbase, MapBytes(newsize)) && x in s.bufs
    requires b == s.bufs[x]
    requires |s.heaps[t].bins| == BINCNT && Recency(s.heaps, times, now)
    requires HasRecord(s, b) && !s.heaps[b.tid].recs[b.blk].small
    ensures var m := Malloc(s, t, newsize, newbase).s;
            && ProcessOk(m) && x in m.bufs && m.bufs[x] == b && Recency(m.heaps, times, now)
            && HasRecord(m, b) && !m.heaps[b.tid].recs[b.blk].small
  {
    var g := MallocIn(s.heaps[t], t, newsize, newbase);
    HeldInside(s, x, b);
    MallocCanServe(s, t, newsize, newbase);
    ServeKeeps(s, t, newsize, g);
    ServeRecency(s, t, newsize, newbase, times, now);
    if t == b.tid { UsedStays(s.heaps[t], t, newsize, newbase, b.blk); }
  }

  lemma MoveEvicts(s: Process, t: nat, x: nat, b: Buffer, newsize: nat, newbase: nat, times: map<nat, nat>, now: nat)
    requires ProcessOk(s) && t < |s.heaps| && AllFresh(s.heaps, newbase, MapBytes(newsize)) && x in s.bufs
    requires b == s.bufs[x]
    requires |s.heaps[t].bins| == BINCNT && Recency(s.heaps, times, now) && HasRecord(s, b)
    requires !s.heaps[b.tid].recs[b.blk].small && newsize > OldSize(s.heaps[b.tid].recs[b.blk])
    ensures var m := Malloc(s, t, newsize, newbase).s;
            && Followed(s, b.ptr) && b.tid < |m.heaps|
            && var s' := Realloc(s, t, b.ptr, newsize, newbase).s;
               b.tid < |s'.heaps| && Evicts(m.heaps[b.tid], s'.heaps[b.tid], b.blk, times)
  {
    HeldIsFreeable(s, x, b);
    ReallocIs(s, t, x, b, s.heaps[b.tid].recs[b.blk], newsize, newbase);
    MallocBefore(s, t, x, b, newsize, newbase, times, now);
    BufferEvicts(Malloc(s, t, newsize, newbase).s, x, b, times, now);
  }

  /** The same when realloc moves a big buffer, after its inner malloc has taken what it needs. */
  lemma LeastRecentGoesOnRealloc(states: seq<Process>, events: seq<Event>, i: nat, t: nat, x: nat, b: Buffer,
                                 newsize: nat, newbase: nat)
    requires Run(states, events) && i < |events| && events[i] == DoRealloc(t, x, newsize, newbase)
    requires t < |states[i].heaps| && x in states[i].bufs && b == states[i].bufs[x] && HasRecord(states[i], b)
    requires var r := states[i].heaps[b.tid].recs[b.blk]; !r.small && newsize > OldSize(r)
    ensures var times := FreeTimes(states, events, i + 1); b.blk in times && times[b.blk] == i
    ensures |states[i].heaps[t].bins| == BINCNT && b.tid < |states[i + 1].heaps|
    ensures var m := Malloc(states[i], t, newsize, newbase).s;
            && b.tid < |m.heaps|
            && Evicts(m.heaps[b.tid], states[i + 1].heaps[b.tid], b.blk, FreeTimes(states, events, i))
  {
    RunRecency(states, events, i);
    RunKeeps(states, events, i);
    assert FollowsAt(states, events, i);
    BinsThere(states[i], t);
    MoveEvicts(states[i], t, x, b, newsize, newbase, FreeTimes(states, events, i), i);
  }
}
