/**
 * ncbte_transfer_region and its checked callers in lib/libncbte.c: the descriptor list means the
 * copy that was asked for, whatever pages the two regions are made of.
 */
module BteCopy {
  import opened Wrappers
  import opened BteTransfer

  /** The physical dword addresses of n dwords of the region, by the page table alone. */
  function Walk(r: Region, offset: nat, n: nat): seq<nat>
    requires n > 0 ==> offset + 4 * n <= Extent(r)
  {
    seq(n, k requires 0 <= k < n => Translate(r, offset + 4 * k) / 4)
  }

  /** The bytes of the region from offset on. */
  function Room(r: Option<Region>, offset: nat): nat {
    if r.None? then SIZE_MAX else if offset <= Extent(r.value) then Extent(r.value) - offset else 0
  }

  /** The dwords of the transfer that lie in both regions. */
  function InBoth(local: Option<Region>, lo: nat, remote: Option<Region>, ro: nat, length: nat): nat {
    Min(Min(Room(local, lo), Room(remote, ro)), length) / 4
  }

  /** One side of the list is the walk of its region; the pseudo region of a clear has no dwords to compare. */
  ghost predicate SideIs(ds: seq<Btce>, side: Side, r: Option<Region>, offset: nat, n: nat) {
    r.Some? ==>
      && (n > 0 ==> offset + 4 * n <= Extent(r.value))
      && Touched(ds, side) == Walk(r.value, offset, n)
  }

  ghost predicate AllOf(op: Op, ds: seq<Btce>) {
    forall i :: 0 <= i < |ds| ==> ds[i].op == op && WellFormed(ds[i])
  }

  /** The list copies n dwords: every dword once, in order, between the right physical addresses. */
  ghost predicate Copies(op: Op, ds: seq<Btce>, local: Option<Region>, lo: nat, remote: Option<Region>, ro: nat,
                         n: nat) {
    && AllOf(op, ds)
    && |Touched(ds, Local)| == n
    && |Touched(ds, Remote)| == n
    && SideIs(ds, Local, local, lo, n)
    && SideIs(ds, Remote, remote, ro, n)
  }

  // ---------------------------------------------------------------- one run

  lemma RunWalk(r: Region, offset: nat, addr: nat, length: nat, n: nat)
    requires MaximalRun(r, offset, addr, length) && 4 * n <= length && addr % 4 == 0
    ensures offset + 4 * n <= Extent(r) && Walk(r, offset, n) == Dwords(addr / 4, n)
  {
    forall k | 0 <= k < n ensures Walk(r, offset, n)[k] == Dwords(addr / 4, n)[k] {
      assert Translate(r, offset + 4 * k) == addr + 4 * k;
    }
  }

  lemma RunAligned(r: Region, offset: nat, addr: nat, length: nat)
    requires Pinned(r) && MaximalRun(r, offset, addr, length) && length > 0
    ensures addr % LINE == offset % LINE && addr + length + PAGE <= 0x1_0000_0000_0000
  {
    assert Translate(r, offset) == addr;
    assert Translate(r, offset + (length - 1)) == addr + (length - 1);
    assert 0 <= (offset + (length - 1)) % PAGE < PAGE;
    Lines(r.pages[offset / PAGE], offset);
  }

  lemma Lines(page: nat, offset: nat)
    requires page % PAGE == 0
    ensures (page + offset % PAGE) % LINE == offset % LINE
  {
    Mod64(64 * (page / PAGE), offset % PAGE);
    Mod64(64 * (offset / PAGE), offset % PAGE);
  }

  lemma Mod64(q: nat, x: nat)
    ensures (64 * q + x) % 64 == x % 64
  {
  }

  lemma WalkJoins(r: Region, offset: nat, n: nat, m: nat)
    requires n + m > 0 ==> offset + 4 * (n + m) <= Extent(r)
    ensures Walk(r, offset, n + m) == Walk(r, offset, n) + Walk(r, offset + 4 * n, m)
  {
  }

  lemma RunExtends(r: Region, offset: nat, n: nat, m: nat, addr: nat, length: nat)
    requires n > 0 ==> offset + 4 * n <= Extent(r)
    requires MaximalRun(r, offset + 4 * n, addr, length) && 4 * m <= length && addr % 4 == 0
    ensures offset + 4 * (n + m) <= Extent(r) && Walk(r, offset, n + m) == Walk(r, offset, n) + Dwords(addr / 4, m)
  {
    RunWalk(r, offset + 4 * n, addr, length, m);
    WalkJoins(r, offset, n, m);
  }

  lemma {:induction false} ChunksAllOf(op: Op, a: nat, b: nat, n: nat, lim: nat)
    requires Limit(lim) && AllWellFormed(Chunks(op, a, b, n, lim))
    ensures AllOf(op, Chunks(op, a, b, n, lim))
    decreases n
  {
    if n > 0 {
      var m := Min(n, lim);
      var d, rest := Btce(op, a, b, m - 1, false), Chunks(op, a + m, b + m, n - m, lim);
      assert Chunks(op, a, b, n, lim) == [d] + rest;
      assert forall e :: e in rest ==> e in Chunks(op, a, b, n, lim);
      ChunksAllOf(op, a + m, b + m, n - m, lim);
      assert d in Chunks(op, a, b, n, lim);
    }
  }

  lemma PiecesAllOf(op: Op, a: nat, b: nat, head: nat, bulk: nat, tail: nat)
    requires AllWellFormed(Pieces(op, a, b, head, bulk, tail))
    ensures AllOf(op, Pieces(op, a, b, head, bulk, tail))
  {
    var xs, ys := Chunks(op, a, b, head, 4), Chunks(op, a + head, b + head, bulk, MAX_BTCE_DWORDS);
    var zs := Chunks(op, a + head + bulk, b + head + bulk, tail, 4);
    assert forall d :: d in xs || d in ys || d in zs ==> d in xs + ys + zs;
    ChunksAllOf(op, a, b, head, 4);
    ChunksAllOf(op, a + head, b + head, bulk, MAX_BTCE_DWORDS);
    ChunksAllOf(op, a + head + bulk, b + head + bulk, tail, 4);
  }

  lemma SideGrows(ds: seq<Btce>, more: seq<Btce>, side: Side, r: Option<Region>, offset: nat, n: nat, m: nat, addr: nat,
                  length: nat)
    requires SideIs(ds, side, r, offset, n)
    requires Touched(more, side) == Dwords(addr / 4, m) && addr % 4 == 0
    requires r.Some? ==> MaximalRun(r.value, offset + 4 * n, addr, length) && 4 * m <= length
    ensures SideIs(ds + more, side, r, offset, n + m)
  {
    TouchedConcat(ds, more, side);
    if r.Some? {
      RunExtends(r.value, offset, n, m, addr, length);
    }
  }

  /** A pass over m dwords that are contiguous on both sides extends the copy by them. */
  lemma CopyGrows(op: Op, ds: seq<Btce>, local: Option<Region>, lo: nat, remote: Option<Region>, ro: nat, n: nat,
                  la: nat, ll: nat, ra: nat, rl: nat, m: nat)
    requires Copies(op, ds, local, lo, remote, ro, n)
    requires la % 4 == 0 && ra % 4 == 0 && la / 4 % 16 == ra / 4 % 16 && Head(la / 4) <= m
    requires local.Some? ==> MaximalRun(local.value, lo + 4 * n, la, ll) && 4 * m <= ll
    requires remote.Some? ==> MaximalRun(remote.value, ro + 4 * n, ra, rl) && 4 * m <= rl
    ensures Copies(op, ds + Submitted(op, la / 4, ra / 4, m), local, lo, remote, ro, n + m)
  {
    var more := Submitted(op, la / 4, ra / 4, m);
    PassCovers(op, la / 4, ra / 4, m, Local);
    PassCovers(op, la / 4, ra / 4, m, Remote);
    SideGrows(ds, more, Local, local, lo, n, m, la, ll);
    SideGrows(ds, more, Remote, remote, ro, n, m, ra, rl);
    TouchedConcat(ds, more, Local);
    TouchedConcat(ds, more, Remote);
    PassWellFormed(op, la / 4, ra / 4, m);
    PiecesAllOf(op, la / 4, ra / 4, Head(la / 4), m - Head(la / 4) - Tail(la / 4, m), Tail(la / 4, m));
  }

  // ---------------------------------------------------------------- how many passes

  /** The page boundaries up to page p where physical contiguity ends. */
  function Breaks(pages: seq<nat>, p: nat): nat {
    if p == 0 then 0
    else Breaks(pages, p - 1) + if p < |pages| && pages[p] != pages[p - 1] + PAGE then 1 else 0
  }

  function BreaksUpTo(r: Option<Region>, offset: nat): nat {
    if r.None? then 0 else Breaks(r.value.pages, offset / PAGE)
  }

  lemma {:induction false} BreaksGrow(pages: seq<nat>, p: nat, q: nat)
    requires p <= q
    ensures Breaks(pages, p) <= Breaks(pages, q)
    decreases q
  {
    if p < q {
      BreaksGrow(pages, p, q - 1);
    }
  }

  lemma BreaksUpToGrow(r: Option<Region>, offset: nat, n: nat)
    ensures BreaksUpTo(r, offset) <= BreaksUpTo(r, offset + n)
  {
    if r.Some? {
      assert offset / PAGE <= (offset + n) / PAGE;
      BreaksGrow(r.value.pages, offset / PAGE, (offset + n) / PAGE);
    }
  }

  /** A maximal run stops at a break, unless the region ends there. */
  lemma RunEndsAtBreak(r: Region, offset: nat, addr: nat, length: nat)
    requires MaximalRun(r, offset, addr, length) && length > 0
    requires (offset + length) % PAGE == 0 && offset + length < Extent(r)
    ensures BreaksUpTo(Some(r), offset) + 1 <= BreaksUpTo(Some(r), offset + length)
  {
    var p := (offset + length) / PAGE;
    assert offset + length == PAGE * p && p > 0;
    PageOf(p, 0);
    PageOf(p - 1, PAGE - 1);
    assert PAGE * (p - 1) + (PAGE - 1) == offset + (length - 1);
    assert Translate(r, offset + (length - 1)) == addr + (length - 1);
    assert r.pages[p] != r.pages[p - 1] + PAGE;
    assert offset / PAGE <= p - 1;
    BreaksGrow(r.pages, offset / PAGE, p - 1);
  }

  /** What _get_region_phys_addr reported for one side. */
  ghost predicate RunOf(r: Option<Region>, offset: nat, addr: nat, length: nat) {
    if r.None? then addr == 0 && length == SIZE_MAX
    else length > 0 && (offset + length) % PAGE == 0 && MaximalRun(r.value, offset, addr, length)
  }

  predicate PastEnd(r: Option<Region>, offset: nat) {
    r.Some? && offset >= Extent(r.value)
  }

  predicate Ended(local: Option<Region>, lo: nat, remote: Option<Region>, ro: nat, length: nat) {
    length == 0 || PastEnd(local, lo) || PastEnd(remote, ro)
  }

  /** At most one pass a break, and one for the end. */
  lemma PassEndsAtBreak(local: Option<Region>, lo: nat, la: nat, ll: nat, remote: Option<Region>, ro: nat, ra: nat,
                        rl: nat, n: nat, length: nat)
    requires RunOf(local, lo, la, ll) && RunOf(remote, ro, ra, rl) && length < SIZE_MAX
    requires 4 * n == Min(Min(ll, rl), length)
    ensures BreaksUpTo(local, lo) + BreaksUpTo(remote, ro)
            + (if Ended(local, lo + 4 * n, remote, ro + 4 * n, length - 4 * n) then 0 else 1)
            <= BreaksUpTo(local, lo + 4 * n) + BreaksUpTo(remote, ro + 4 * n)
  {
    BreaksUpToGrow(local, lo, 4 * n);
    BreaksUpToGrow(remote, ro, 4 * n);
    if !Ended(local, lo + 4 * n, remote, ro + 4 * n, length - 4 * n) {
      if 4 * n == ll {
        RunEndsAtBreak(local.value, lo, la, ll);
      } else {
        RunEndsAtBreak(remote.value, ro, ra, rl);
      }
    }
  }

  // ---------------------------------------------------------------- the transfer

  /** An unaligned start reaches its next line boundary inside the transfer. */
  predicate Reaches(offset: nat, length: nat) {
    offset % LINE == 0 || length >= LINE - offset % LINE
  }

  /**
   * What is contiguous on both sides is below 4 GiB everywhere in the transfer: the shifts of lines 400-405 have 32
   * bits.
   */
  ghost predicate RunsShort(local: Option<Region>, lo: nat, remote: Option<Region>, ro: nat, length: nat) {
    forall o: nat, p: nat, la: nat, ll: nat, ra: nat, rl: nat ::
      lo <= o <= lo + length && p - ro == o - lo && RunOf(local, o, la, ll) && RunOf(remote, p, ra, rl) ==>
          Min(Min(ll, rl), length - (o - lo)) < 0x1_0000_0000
  }

  ghost predicate Usable(r: Option<Region>) {
    r.Some? ==> Pinned(r.value)
  }

  /** What ncbte_transfer_region counts on at the start of a pass. */
  ghost predicate Ready(local: Option<Region>, lo: nat, remote: Option<Region>, ro: nat, length: nat) {
    && lo % 4 == 0 && ro % 4 == 0 && lo % LINE == ro % LINE
    && length % 4 == 0 && length < SIZE_MAX
    && (local.None? || remote.None? ==> lo % LINE == 0)
    && Reaches(lo, length) && RunsShort(local, lo, remote, ro, length)
  }

  lemma SideReady(r: Option<Region>, offset: nat, addr: nat, length: nat, n: nat)
    requires Usable(r) && RunOf(r, offset, addr, length) && offset % 4 == 0 && 4 * n <= length && n < 0x4000_0000
    requires r.None? ==> offset % LINE == 0
    ensures addr % LINE == offset % LINE && addr % 4 == 0 && InSpace(addr, n)
    ensures r.Some? ==> length % 4 == 0 && Reaches(offset, length)
  {
    if r.Some? {
      RunAligned(r.value, offset, addr, length);
      EndAligned(offset, length);
      DwordInLine(addr, offset);
    }
  }

  lemma DwordInLine(x: nat, y: nat)
    requires x % LINE == y % LINE && y % 4 == 0
    ensures x % 4 == 0
  {
    assert x == 4 * (16 * (x / 64)) + x % 64 && y == 4 * (16 * (y / 64)) + y % 64;
  }

  lemma EndAligned(offset: nat, length: nat)
    requires (offset + length) % PAGE == 0 && length > 0 && offset % 4 == 0
    ensures length % 4 == 0 && Reaches(offset, length)
  {
    var p, q, r := (offset + length) / PAGE, offset / LINE, offset / 4;
    ToTheEnd(length, 64 * p - q, offset % LINE);
    FourTimes(length, 1024 * p - r);
  }

  lemma ToTheEnd(length: nat, t: int, x: nat)
    requires length == 64 * t - x && length > 0 && x < 64
    ensures length >= 64 - x
  {
  }

  lemma FourTimes(x: nat, t: int)
    requires x == 4 * t
    ensures x % 4 == 0
  {
  }

  lemma HeadReaches(addr: nat, offset: nat, length: nat)
    requires addr % 4 == 0 && length % 4 == 0 && addr % LINE == offset % LINE && Reaches(offset, length)
    ensures Head(addr / 4) <= length / 4
  {
    HeadIs(addr, addr % LINE / 4);
  }

  lemma SameLine(x: nat, y: nat)
    requires x % 4 == 0 && y % 4 == 0 && x % LINE == y % LINE
    ensures x / 4 % 16 == y / 4 % 16
  {
    Quarter(x / 4);
    Quarter(y / 4);
  }

  lemma Quarter(p: nat)
    ensures 4 * p % 64 == 4 * (p % 16)
  {
    Mod64(p / 16, 4 * (p % 16));
    assert 4 * p == 64 * (p / 16) + 4 * (p % 16);
  }

  lemma PageIsOnLine(x: nat)
    requires x % PAGE == 0
    ensures x % LINE == 0
  {
    Mod64(64 * (x / PAGE), 0);
  }

  lemma StepInLine(x: nat, y: nat, n: nat)
    requires x % LINE == y % LINE
    ensures (x + 4 * n) % LINE == (y + 4 * n) % LINE && (x % 4 == 0 ==> (x + 4 * n) % 4 == 0)
  {
    Shifted(x, 4 * n);
    Shifted(y, 4 * n);
    FourMore(x, n);
  }

  /** Only the place in the line matters for the place after a step. */
  lemma Shifted(x: nat, step: nat)
    ensures (x + step) % LINE == (x % LINE + step) % LINE
  {
    Mod64(x / LINE, x % LINE + step);
  }

  lemma FourMore(x: nat, n: nat)
    ensures x % 4 == 0 ==> (x + 4 * n) % 4 == 0
  {
    if x % 4 == 0 { FourTimes(x + 4 * n, x / 4 + n); }
  }

  /** The dwords that one pass moves. */
  function Share(ll: nat, rl: nat, length: nat): nat { Min(Min(ll, rl), length) / 4 }

  lemma PassReady(local: Option<Region>, lo: nat, la: nat, ll: nat, remote: Option<Region>, ro: nat, ra: nat, rl: nat,
                  length: nat)
    requires Usable(local) && Usable(remote) && Ready(local, lo, remote, ro, length)
    requires RunOf(local, lo, la, ll) && RunOf(remote, ro, ra, rl)
    ensures var n := Share(ll, rl, length);
            && 4 * n == Min(Min(ll, rl), length) < 0x1_0000_0000 && Head(la / 4) <= n && InSpace(la, n)
            && InSpace(ra, n)
            && la % 4 == 0 && ra % 4 == 0 && la % LINE == lo % LINE && la / 4 % 16 == ra / 4 % 16
  {
    var least := Min(Min(ll, rl), length);
    if local.Some? { EndAligned(lo, ll); }
    if remote.Some? { EndAligned(ro, rl); }
    assert least % 4 == 0 && Reaches(lo, least);
    var n := Share(ll, rl, length);
    assert 4 * n == least;
    SideReady(local, lo, la, ll, n);
    SideReady(remote, ro, ra, rl, n);
    HeadReaches(la, lo, least);
    SameLine(la, ra);
  }

  /** When bytes are left a pass stops at the end of a page, so the next one starts on a line boundary. */
  lemma NextReady(local: Option<Region>, lo: nat, la: nat, ll: nat, remote: Option<Region>, ro: nat, ra: nat, rl: nat,
                  length: nat, n: nat)
    requires Ready(local, lo, remote, ro, length) && RunOf(local, lo, la, ll) && RunOf(remote, ro, ra, rl)
    requires 4 * n == Min(Min(ll, rl), length) && 4 * n < length
    ensures Ready(local, lo + 4 * n, remote, ro + 4 * n, length - 4 * n) && (lo + 4 * n) % LINE == 0
  {
    StepInLine(lo, ro, n);
    StepInLine(ro, lo, n);
    if 4 * n == ll {
      PageIsOnLine(lo + 4 * n);
    } else {
      PageIsOnLine(ro + 4 * n);
    }
    FourLess(length, n);
  }

  lemma FourLess(x: nat, n: nat)
    requires 4 * n <= x && x % 4 == 0
    ensures (x - 4 * n) % 4 == 0
  {
  }

  /** The transfer lies in the region, and so does its first byte. */
  predicate Fits(r: Option<Region>, offset: nat, length: nat) {
    r.Some? ==> offset < Extent(r.value) && offset + length <= Extent(r.value)
  }

  /** The breaks that n dwords cross. */
  function Crossed(local: Option<Region>, lo: nat, remote: Option<Region>, ro: nat, n: nat): int {
    BreaksUpTo(local, lo + 4 * n) - BreaksUpTo(local, lo) + BreaksUpTo(remote, ro + 4 * n) - BreaksUpTo(remote, ro)
  }

  /** The descriptors used for n dwords in some passes; more says that another pass follows. */
  predicate FewDescriptors(ds: seq<Btce>, n: nat, passes: nat, more: bool) {
    |ds| <= passes + n / MAX_BTCE_DWORDS + (if passes == 0 then 0 else 4) + (if more then 0 else 4)
  }

  predicate FewPasses(local: Option<Region>, lo: nat, remote: Option<Region>, ro: nat, n: nat, length: nat,
                      passes: nat) {
    && 4 * n <= length
    && passes <= Crossed(local, lo, remote, ro, n) + (if passes > 0
        && Ended(local, lo + 4 * n, remote, ro + 4 * n, length - 4 * n) then 1 else 0)
  }

  lemma StillFewPasses(local: Option<Region>, lo: nat, lo': nat, remote: Option<Region>, ro: nat, ro': nat, n: nat,
                       length: nat, passes: nat,
                       la: nat, ll: nat, ra: nat, rl: nat, m: nat)
    requires FewPasses(local, lo, remote, ro, n, length, passes) && (passes > 0 ==> 4 * n < length)
    requires length < SIZE_MAX && 4 * m == Min(Min(ll, rl), length - 4 * n)
    requires lo' == lo + 4 * n && ro' == ro + 4 * n
    requires RunOf(local, lo', la, ll) && RunOf(remote, ro', ra, rl)
    ensures FewPasses(local, lo, remote, ro, n + m, length, passes + 1)
  {
    PassEndsAtBreak(local, lo', la, ll, remote, ro', ra, rl, m, length - 4 * n);
    assert !PastEnd(local, lo') && !PastEnd(remote, ro');
    assert lo' + 4 * m == lo + 4 * (n + m) && ro' + 4 * m == ro + 4 * (n + m);
  }

  lemma StillFewDescriptors(op: Op, ds: seq<Btce>, lo: nat, n: nat, passes: nat, la: nat, ra: nat, m: nat, more: bool)
    requires FewDescriptors(ds, n, passes, true) && Head(la / 4) <= m
    requires la % 4 == 0 && la % LINE == lo % LINE
    requires passes > 0 ==> lo % LINE == 0
    requires more ==> (lo + 4 * m) % LINE == 0
    ensures FewDescriptors(ds + Submitted(op, la / 4, ra / 4, m), n + m, passes + 1, more)
  {
    PassCount(op, la / 4, ra / 4, m);
    StepInLine(la, lo, m);
    assert n / MAX_BTCE_DWORDS + m / MAX_BTCE_DWORDS <= (n + m) / MAX_BTCE_DWORDS;
    Quarter(la / 4);
    Quarter(la / 4 + m);
  }

  /** Where the transfer stands between passes, n dwords into it. */
  predicate Placed(local: Option<Region>, lo: nat, remote: Option<Region>, ro: nat, length: nat, n: nat, passes: nat,
                   more: bool) {
    && n <= InBoth(local, lo, remote, ro, length)
    && (if passes == 0 then n == 0 && more else more == (4 * n < length))
    && (passes > 0 ==> Room(local, lo) > 0 && Room(remote, ro) > 0)
  }

  lemma RoomLeft(r: Option<Region>, offset: nat, n: nat, addr: nat, length: nat, m: nat)
    requires RunOf(r, offset + 4 * n, addr, length) && 4 * m <= length && 4 * (n + m) < SIZE_MAX
    ensures 4 * (n + m) <= Room(r, offset) && Room(r, offset) > 0
  {
  }

  lemma NextPlaced(local: Option<Region>, lo: nat, lo': nat, remote: Option<Region>, ro: nat, ro': nat, length: nat,
                   n: nat, passes: nat, la: nat, ll: nat, ra: nat, rl: nat, m: nat)
    requires length < SIZE_MAX && Placed(local, lo, remote, ro, length, n, passes, true)
    requires lo' == lo + 4 * n && ro' == ro + 4 * n
    requires RunOf(local, lo', la, ll) && RunOf(remote, ro', ra, rl)
    requires 4 * m == Min(Min(ll, rl), length - 4 * n)
    ensures Placed(local, lo, remote, ro, length, n + m, passes + 1, 4 * (n + m) < length)
  {
    RoomLeft(local, lo, n, la, ll, m);
    RoomLeft(remote, ro, n, ra, rl, m);
  }

  lemma NextCopies(op: Op, ds: seq<Btce>, local: Option<Region>, lo: nat, lo': nat, remote: Option<Region>, ro: nat,
                   ro': nat, length: nat,
                   n: nat, la: nat, ll: nat, ra: nat, rl: nat, m: nat)
    requires Usable(local) && Usable(remote) && Ready(local, lo', remote, ro', length)
    requires lo' == lo + 4 * n && ro' == ro + 4 * n
    requires RunOf(local, lo', la, ll) && RunOf(remote, ro', ra, rl)
    requires m == Share(ll, rl, length) && Head(la / 4) <= m
    requires Copies(op, ds, local, lo, remote, ro, n)
    ensures Copies(op, ds + Submitted(op, la / 4, ra / 4, m), local, lo, remote, ro, n + m)
  {
    PassReady(local, lo', la, ll, remote, ro', ra, rl, length);
    CopyGrows(op, ds, local, lo, remote, ro, n, la, ll, ra, rl, m);
  }

  lemma NextFewDescriptors(op: Op, ds: seq<Btce>, local: Option<Region>, lo: nat, remote: Option<Region>, ro: nat,
                           length: nat,
                           n: nat, passes: nat, la: nat, ll: nat, ra: nat, rl: nat, m: nat, more: bool)
    requires Usable(local) && Usable(remote) && Ready(local, lo, remote, ro, length)
    requires RunOf(local, lo, la, ll) && RunOf(remote, ro, ra, rl)
    requires m == Share(ll, rl, length) && Head(la / 4) <= m
    requires FewDescriptors(ds, n, passes, true)
    requires passes > 0 ==> lo % LINE == 0
    requires more ==> (lo + 4 * m) % LINE == 0
    ensures FewDescriptors(ds + Submitted(op, la / 4, ra / 4, m), n + m, passes + 1, more)
  {
    PassReady(local, lo, la, ll, remote, ro, ra, rl, length);
    StillFewDescriptors(op, ds, lo, n, passes, la, ra, m, more);
  }

  /** How far the transfer is, in what it has submitted. */
  ghost predicate Between(op: Op, ds: seq<Btce>, local: Option<Region>, lo: nat, remote: Option<Region>, ro: nat,
                          length: nat,
                          n: nat, passes: nat, more: bool) {
    && Placed(local, lo, remote, ro, length, n, passes, more)
    && Copies(op, ds, local, lo, remote, ro, n)
    && FewDescriptors(ds, n, passes, more)
    && FewPasses(local, lo, remote, ro, n, length, passes)
  }

  lemma NextBetween(op: Op, ds: seq<Btce>, local: Option<Region>, lo: nat, lo': nat, remote: Option<Region>, ro: nat,
                    ro': nat, length: nat, length': nat,
                    n: nat, passes: nat, la: nat, ll: nat, ra: nat, rl: nat, m: nat, more: bool, added: seq<Btce>,
                    n': nat)
    requires Usable(local) && Usable(remote) && length < SIZE_MAX
    requires Between(op, ds, local, lo, remote, ro, length, n, passes, true)
    requires lo' == lo + 4 * n && ro' == ro + 4 * n && length' == length - 4 * n
    requires Ready(local, lo', remote, ro', length') && (passes > 0 ==> lo' % LINE == 0)
    requires RunOf(local, lo', la, ll) && RunOf(remote, ro', ra, rl)
    requires m == Share(ll, rl, length') && 4 * m == Min(Min(ll, rl), length') && Head(la / 4) <= m
    requires added == Submitted(op, la / 4, ra / 4, m)
    requires more == (4 * m < length') && (more ==> (lo' + 4 * m) % LINE == 0) && n' == n + m
    ensures Between(op, ds + added, local, lo, remote, ro, length, n', passes + 1, more)
  {
    NextPlaced(local, lo, lo', remote, ro, ro', length, n, passes, la, ll, ra, rl, m);
    NextCopies(op, ds, local, lo, lo', remote, ro, ro', length', n, la, ll, ra, rl, m);
    NextFewDescriptors(op, ds, local, lo', remote, ro', length', n, passes, la, ll, ra, rl, m, more);
    StillFewPasses(local, lo, lo', remote, ro, ro', n, length, passes, la, ll, ra, rl, m);
  }

  lemma AfterPass(local: Option<Region>, lo: nat, la: nat, ll: nat, remote: Option<Region>, ro: nat, ra: nat, rl: nat,
                  length: nat, m: nat,
                  lo': nat, ro': nat, length': nat)
    requires Ready(local, lo, remote, ro, length) && RunOf(local, lo, la, ll) && RunOf(remote, ro, ra, rl)
    requires 4 * m == Min(Min(ll, rl), length)
    requires lo' == lo + 4 * m && ro' == ro + 4 * m && length' == length - 4 * m
    ensures length' > 0 ==> Ready(local, lo', remote, ro', length') && lo' % LINE == 0 && m > 0
  {
    if length' > 0 { NextReady(local, lo, la, ll, remote, ro, ra, rl, length, m); }
  }

  /** The body of the do-while loop after the two page walks (lines 430-470). */
  method OnePass(op: Op, la: nat, ll: nat, ra: nat, rl: nat, length: nat, lo: nat, ro: nat, ghost local: Option<Region>,
                 ghost remote: Option<Region>)
      returns (length': nat, lo': nat, ro': nat, added: seq<Btce>, ghost m: nat)
    requires Usable(local) && Usable(remote) && Ready(local, lo, remote, ro, length)
    requires RunOf(local, lo, la, ll) && RunOf(remote, ro, ra, rl)
    ensures m == Share(ll, rl, length) && 4 * m == Min(Min(ll, rl), length) && Head(la / 4) <= m
    ensures length' == length - 4 * m && lo' == lo + 4 * m && ro' == ro + 4 * m
    ensures added == Submitted(op, la / 4, ra / 4, m)
    ensures length' > 0 ==> Ready(local, lo', remote, ro', length') && lo' % LINE == 0 && m > 0
  {
    m := Share(ll, rl, length);
    PassReady(local, lo, la, ll, remote, ro, ra, rl, length);
    length', lo', ro', added := Pass(op, la, ra, Share(ll, rl, length), length, lo, ro);
    AfterPass(local, lo, la, ll, remote, ro, ra, rl, length, m, lo', ro', length');
  }

  lemma PassBetween(op: Op, ds: seq<Btce>, local: Option<Region>, lo: nat, lo': nat, remote: Option<Region>, ro: nat,
                    ro': nat, bytes: nat, length: nat,
                    n: nat, passes: nat, la: nat, ll: nat, ra: nat, rl: nat, m: nat, added: seq<Btce>, n': nat,
                    length': nat)
    requires Usable(local) && Usable(remote) && bytes < SIZE_MAX
    requires Between(op, ds, local, lo, remote, ro, bytes, n, passes, true)
    requires lo' == lo + 4 * n && ro' == ro + 4 * n && length == bytes - 4 * n
    requires Ready(local, lo', remote, ro', length) && (passes > 0 ==> lo' % LINE == 0)
    requires RunOf(local, lo', la, ll) && RunOf(remote, ro', ra, rl)
    requires m == Share(ll, rl, length) && 4 * m == Min(Min(ll, rl), length) && Head(la / 4) <= m
    requires added == Submitted(op, la / 4, ra / 4, m) && n' == n + m && length' == length - 4 * m
    requires length' > 0 ==> (lo' + 4 * m) % LINE == 0
    ensures Between(op, ds + added, local, lo, remote, ro, bytes, n', passes + 1, length' > 0)
  {
    NextBetween(op, ds, local, lo, lo', remote, ro, ro', bytes, length, n, passes, la, ll, ra, rl, m, length' > 0,
        added, n');
  }

  /** The same, seen from the whole transfer: n dwords and some passes came before. */
  method PassOver(op: Op, la: nat, ll: nat, ra: nat, rl: nat, length: nat, lo: nat, ro: nat,
                  ghost local: Option<Region>, ghost remote: Option<Region>,
                  ghost ds: seq<Btce>, ghost local_offset: nat, ghost remote_offset: nat, ghost bytes: nat,
                  ghost n: nat, ghost passes: nat)
      returns (length': nat, lo': nat, ro': nat, added: seq<Btce>, ghost n': nat)
    requires Usable(local) && Usable(remote) && Ready(local, lo, remote, ro, length) && bytes < SIZE_MAX
    requires lo == local_offset + 4 * n && ro == remote_offset + 4 * n && length == bytes - 4 * n
    requires RunOf(local, lo, la, ll) && RunOf(remote, ro, ra, rl) && (passes > 0 ==> lo % LINE == 0)
    requires Between(op, ds, local, local_offset, remote, remote_offset, bytes, n, passes, true)
    ensures lo' == local_offset + 4 * n' && ro' == remote_offset + 4 * n' && length' == bytes - 4 * n'
    ensures Between(op, ds + added, local, local_offset, remote, remote_offset, bytes, n', passes + 1, length' > 0)
    ensures length' > 0 ==> Ready(local, lo', remote, ro', length') && lo' % LINE == 0 && length' < length
  {
    ghost var m;
    length', lo', ro', added, m := OnePass(op, la, ll, ra, rl, length, lo, ro, local, remote);
    n' := n + m;
    PassBetween(op, ds, local, local_offset, lo, remote, remote_offset, ro, bytes, length, n, passes, la, ll, ra, rl, m,
        added, n', length');
  }

  /**
   * The list copies exactly the dwords that lie in both regions. It is refused (after submitting those)
   * exactly when the transfer does not fit. It is short: nine descriptors, one for each break in the
   * physical pages, and one for every 2^21 bytes.
   */
  ghost predicate Outcome(ret: int, op: Op, ds: seq<Btce>, local: Option<Region>, lo: nat, remote: Option<Region>,
                          ro: nat, length: nat) {
    var n := InBoth(local, lo, remote, ro, length);
    && Copies(op, ds, local, lo, remote, ro, n)
    && ret == (if Fits(local, lo, length) && Fits(remote, ro, length) then 0 else -1)
    && |ds| <= 9 + Crossed(local, lo, remote, ro, n) + n / MAX_BTCE_DWORDS
  }

  lemma AtTheEnd(op: Op, ds: seq<Btce>, local: Option<Region>, lo: nat, remote: Option<Region>, ro: nat, length: nat,
                 n: nat, passes: nat)
    requires length % 4 == 0 && length < SIZE_MAX
    requires Between(op, ds, local, lo, remote, ro, length, n, passes, false)
    ensures Outcome(0, op, ds, local, lo, remote, ro, length)
  {
    assert n == InBoth(local, lo, remote, ro, length);
  }

  lemma PastTheEnd(op: Op, ds: seq<Btce>, local: Option<Region>, lo: nat, remote: Option<Region>, ro: nat, length: nat,
                   n: nat, passes: nat)
    requires length < SIZE_MAX
    requires Between(op, ds, local, lo, remote, ro, length, n, passes, true)
    requires PastEnd(local, lo + 4 * n) || PastEnd(remote, ro + 4 * n)
    ensures Outcome(-1, op, ds, local, lo, remote, ro, length)
  {
    assert n == InBoth(local, lo, remote, ro, length);
  }

  /** One turn of the do-while loop (lines 418-471); refused stands for its return -1. */
  method Turn(op: Op, local: Option<Region>, remote: Option<Region>, length: nat, lo: nat, ro: nat,
              ghost ds: seq<Btce>, ghost local_offset: nat, ghost remote_offset: nat, ghost bytes: nat, ghost n: nat,
              ghost passes: nat)
      returns (refused: bool, length': nat, lo': nat, ro': nat, added: seq<Btce>, ghost n': nat)
    requires Usable(local) && Usable(remote) && Ready(local, lo, remote, ro, length) && bytes < SIZE_MAX
    requires lo == local_offset + 4 * n && ro == remote_offset + 4 * n && length == bytes - 4 * n
    requires passes > 0 ==> lo % LINE == 0
    requires Between(op, ds, local, local_offset, remote, remote_offset, bytes, n, passes, true)
    ensures refused ==> Outcome(-1, op, ds, local, local_offset, remote, remote_offset, bytes)
    ensures !refused ==>
              && lo' == local_offset + 4 * n' && ro' == remote_offset + 4 * n' && length' == bytes - 4 * n'
              && Between(op, ds + added, local, local_offset, remote, remote_offset, bytes, n', passes + 1, length' > 0)
              && (length' > 0 ==> Ready(local, lo', remote, ro', length') && lo' % LINE == 0 && length' < length)
  {
    var la, ll := GetRegionPhysAddr(local, lo);
    var ra, rl := GetRegionPhysAddr(remote, ro);
    refused, length', lo', ro', added, n' := ll == 0 || rl == 0, length, lo, ro, [], n;
    if refused {
      PastTheEnd(op, ds, local, local_offset, remote, remote_offset, bytes, n, passes);
    } else {
      length', lo', ro', added, n' := PassOver(op, la, ll, ra, rl, length, lo, ro, local, remote, ds, local_offset,
          remote_offset, bytes, n, passes);
    }
  }

  lemma AtTheStart(op: Op, local: Option<Region>, lo: nat, remote: Option<Region>, ro: nat, length: nat)
    ensures Between(op, [], local, lo, remote, ro, length, 0, 0, true)
  {
    assert lo + 4 * 0 == lo && ro + 4 * 0 == ro;
  }

  /** Lines 417-471. */
  method CopyRuns(op: Op, local: Option<Region>, local_offset: nat, remote: Option<Region>, remote_offset: nat,
                  bytes: nat)
      returns (ret: int, ds: seq<Btce>)
    requires Usable(local) && Usable(remote) && Ready(local, local_offset, remote, remote_offset, bytes)
    ensures Outcome(ret, op, ds, local, local_offset, remote, remote_offset, bytes)
  {
    var length, lo, ro, more := bytes, local_offset, remote_offset, true;
    ds := [];
    ghost var n: nat, passes: nat := 0, 0;
    AtTheStart(op, local, lo, remote, ro, length);
    while more
      invariant length == bytes - 4 * n && lo == local_offset + 4 * n && ro == remote_offset + 4 * n
      invariant Between(op, ds, local, local_offset, remote, remote_offset, bytes, n, passes, more)
      invariant more ==> Ready(local, lo, remote, ro, length) && (passes > 0 ==> lo % LINE == 0)
      decreases more, length
    {
      var refused, added;
      refused, length, lo, ro, added, n := Turn(op, local, remote, length, lo, ro, ds, local_offset, remote_offset,
          bytes, n, passes);
      if refused {
        return -1, ds;
      }
      ds, more, passes := ds + added, length > 0, passes + 1;
    }
    AtTheEnd(op, ds, local, local_offset, remote, remote_offset, bytes, n, passes);
    return 0, ds;
  }

  // ---------------------------------------------------------------- a start that stops short of the next line

  /** The runs of the transfer, and of what an overrun goes on with, are short. */
  ghost predicate AllShort(local: Option<Region>, lo: nat, remote: Option<Region>, ro: nat, length: nat) {
    if Reaches(lo, length) then RunsShort(local, lo, remote, ro, length)
    else RunsShort(local, lo + length + 0x1_0000_0000, remote, ro + length + 0x1_0000_0000, SIZE_MAX - 0xFFFF_FFFF)
  }

  /** What is asked for, whether or not an unaligned start reaches its next line. */
  ghost predicate Asked(local: Option<Region>, lo: nat, remote: Option<Region>, ro: nat, length: nat) {
    && lo % 4 == 0 && ro % 4 == 0 && lo % LINE == ro % LINE
    && length % 4 == 0 && length < SIZE_MAX
    && (local.None? || remote.None? ==> lo % LINE == 0)
    && (!Reaches(lo, length) ==> !PastEnd(local, lo) && !PastEnd(remote, ro))
    && AllShort(local, lo, remote, ro, length)
  }

  /** Every descriptor has the operation, and none signals completion. */
  predicate Plain(op: Op, ds: seq<Btce>) {
    forall i :: 0 <= i < |ds| ==> ds[i].op == op && !ds[i].fence
  }

  lemma PlainConcat(op: Op, xs: seq<Btce>, ys: seq<Btce>)
    requires Plain(op, xs) && Plain(op, ys)
    ensures Plain(op, xs + ys)
  {
  }

  lemma {:induction false} ChunksPlain(op: Op, a: nat, b: nat, n: nat, lim: nat)
    requires Limit(lim)
    ensures Plain(op, Chunks(op, a, b, n, lim))
    decreases n
  {
    if n > 0 {
      var m := Min(n, lim);
      ChunksPlain(op, a + m, b + m, n - m, lim);
      PlainConcat(op, [Btce(op, a, b, m - 1, false)], Chunks(op, a + m, b + m, n - m, lim));
    }
  }

  lemma PiecesPlain(op: Op, a: nat, b: nat, head: nat, bulk: nat, tail: nat)
    ensures Plain(op, Pieces(op, a, b, head, bulk, tail))
  {
    ChunksPlain(op, a, b, head, 4);
    ChunksPlain(op, a + head, b + head, bulk, MAX_BTCE_DWORDS);
    ChunksPlain(op, a + head + bulk, b + head + bulk, tail, 4);
  }

  /** The list starts with 16 dwords more than the n that were asked for. */
  ghost predicate Overruns(op: Op, ds: seq<Btce>, local: Option<Region>, lo: nat, remote: Option<Region>, ro: nat,
                           n: nat) {
    && Plain(op, ds)
    && local.Some? && remote.Some? && lo < Extent(local.value) && ro < Extent(remote.value)
    && StartsWith(Touched(ds, Local), Dwords(Translate(local.value, lo) / 4, n + 16))
    && StartsWith(Touched(ds, Remote), Dwords(Translate(remote.value, ro) / 4, n + 16))
  }

  predicate StartsWith(s: seq<nat>, t: seq<nat>) { |t| <= |s| && s[..|t|] == t }

  lemma OverrunStarts(op: Op, a: nat, b: nat, n: nat, rest: seq<Btce>, side: Side)
    requires n < Head(a)
    ensures StartsWith(Touched(Overrun(op, a, b, n) + rest, side), Dwords(if side.Local? then a else b, n + 16))
  {
    OverrunCovers(op, a, b, n, side);
    TouchedConcat(Overrun(op, a, b, n), rest, side);
  }

  lemma ShortSide(r: Region, offset: nat, addr: nat, length: nat, n: nat)
    requires Pinned(r) && RunOf(Some(r), offset, addr, length) && offset % 4 == 0 && !Reaches(offset, 4 * n)
    ensures addr == Translate(r, offset) && addr % 4 == 0 && addr % LINE == offset % LINE && InSpace(addr, n + 16)
    ensures 4 * n < length
    ensures n < Head(addr / 4) && n < 16
  {
    RunAligned(r, offset, addr, length);
    EndAligned(offset, length);
    DwordInLine(addr, offset);
    HeadIs(addr, addr % LINE / 4);
  }

  lemma ShortRest(local: Option<Region>, lo: nat, remote: Option<Region>, ro: nat, length: nat)
    requires Asked(local, lo, remote, ro, length) && !Reaches(lo, length)
    ensures U64(length - length - 0x1_0000_0000) == SIZE_MAX - 0xFFFF_FFFF
    ensures Ready(local, lo + length + 0x1_0000_0000, remote, ro + length + 0x1_0000_0000, SIZE_MAX - 0xFFFF_FFFF)
  {
    StepInLine(lo, ro, length / 4 + 0x4000_0000);
    StepInLine(ro, lo, length / 4 + 0x4000_0000);
  }

  /**
   * The first turn of the loop when the start stops short of the next line: 64 bytes too many are submitted, and what
   * is left to do is 4 GiB further on and has no end.
   */
  method ShortTurn(op: Op, local: Option<Region>, lo: nat, remote: Option<Region>, ro: nat, length: nat)
      returns (length': nat, lo': nat, ro': nat, ds: seq<Btce>)
    requires Usable(local) && Usable(remote) && Asked(local, lo, remote, ro, length) && !Reaches(lo, length)
    ensures length' == SIZE_MAX - 0xFFFF_FFFF && Ready(local, lo', remote, ro', length')
    ensures local.Some? && remote.Some? && lo < Extent(local.value) && ro < Extent(remote.value)
    ensures var a, b := Translate(local.value, lo) / 4, Translate(remote.value, ro) / 4;
            length / 4 < Head(a) && ds == Overrun(op, a, b, length / 4)
  {
    var la, ll := GetRegionPhysAddr(local, lo);
    var ra, rl := GetRegionPhysAddr(remote, ro);
    ShortSide(local.value, lo, la, ll, length / 4);
    ShortSide(remote.value, ro, ra, rl, length / 4);
    length', lo', ro', ds := Pass(op, la, ra, Share(ll, rl, length), length, lo, ro);
    ShortRest(local, lo, remote, ro, length);
  }

  /** Lines 417-471 for every start; when the first turn overruns, the others go on from there and find no end. */
  method CopyAny(op: Op, local: Option<Region>, lo: nat, remote: Option<Region>, ro: nat, length: nat)
        returns (ret: int, ds: seq<Btce>)
    requires Usable(local) && Usable(remote) && Asked(local, lo, remote, ro, length)
    ensures Reaches(lo, length) ==> Outcome(ret, op, ds, local, lo, remote, ro, length)
    ensures !Reaches(lo, length) ==> ret == -1 && Overruns(op, ds, local, lo, remote, ro, length / 4)
  {
    if Reaches(lo, length) {
      ret, ds := CopyRuns(op, local, lo, remote, ro, length);
    } else {
      var length', lo', ro', first := ShortTurn(op, local, lo, remote, ro, length);
      ret, ds := CopyRuns(op, local, lo', remote, ro', length');
      ghost var a, b := Translate(local.value, lo) / 4, Translate(remote.value, ro) / 4;
      OverrunStarts(op, a, b, length / 4, ds, Local);
      OverrunStarts(op, a, b, length / 4, ds, Remote);
      PiecesPlain(op, a, b, Head(a), 0, 16 - (Head(a) - length / 4));
      PlainConcat(op, first, ds);
      ds := first + ds;
    }
  }

  // ---------------------------------------------------------------- completion and callers

  /** The descriptor that signals completion: one fenced dword to the given address (lines 473-485). */
  function Fence(paddr: nat): Btce { Btce(RemWrite, Field(paddr), 0, 0, true) }

  /** The list without its completion descriptor. */
  function Payload(ds: seq<Btce>, fence: Option<nat>): seq<Btce> {
    if fence.Some? && ds != [] then ds[..|ds| - 1] else ds
  }

  /** The hardware writes one dword at the completion address, after everything that was submitted before. */
  predicate Completes(d: Btce, paddr: nat) {
    && d.fence && d.op == RemWrite && Count(d) == 1 && d.remote == 0
    && (paddr % 4 == 0 && paddr < 0x1_0000_0000_0000 ==> 4 * d.local == paddr)
  }

  /** The last descriptor signals completion if that is asked for, and no other one does. */
  predicate Signals(ds: seq<Btce>, fence: Option<nat>) {
    && (fence.Some? ==> ds != [] && Completes(ds[|ds| - 1], fence.value))
    && forall i :: 0 <= i < |ds| ==> (ds[i].fence <==> fence.Some? && i == |ds| - 1)
  }

  lemma FenceCompletes(paddr: nat)
    ensures Completes(Fence(paddr), paddr)
  {
    if paddr % 4 == 0 && paddr < 0x1_0000_0000_0000 { FieldIs(paddr / 4); }
  }

  lemma DataIsPlain(op: Op, ds: seq<Btce>)
    requires AllOf(op, ds)
    ensures Plain(op, ds)
  {
  }

  /** Lines 407-490. */
  method Transfer(op: Op, local: Option<Region>, lo: nat, remote: Option<Region>, ro: nat, length: nat,
                  fence: Option<nat>)
      returns (ret: int, ds: seq<Btce>)
    requires Usable(local) && Usable(remote) && Asked(local, lo, remote, ro, length)
    ensures ret == 0 || ret == -1
    ensures ret == 0 ==> Reaches(lo, length) && Signals(ds, fence)
    ensures ret == 0 ==> Outcome(0, op, Payload(ds, fence), local, lo, remote, ro, length)
    ensures ret == -1 && Reaches(lo, length) ==> Outcome(-1, op, ds, local, lo, remote, ro, length)
    ensures ret == -1 ==> Signals(ds, None)
    ensures !Reaches(lo, length) ==> ret == -1 && Overruns(op, ds, local, lo, remote, ro, length / 4)
  {
    ret, ds := CopyAny(op, local, lo, remote, ro, length);
    if ret != 0 {
      assert Reaches(lo, length) ==> AllOf(op, ds);
      return -1, ds;
    }
    ghost var data := ds;
    DataIsPlain(op, data);
    if fence.Some? {
      FenceCompletes(fence.value);
      ds := ds + [Fence(fence.value)];
    }
    assert Payload(ds, fence) == data;
  }

  /** The checks of a read or a write (lines 517-522), in 64-bit arithmetic. */
  predicate Checked(local: Region, lo: nat, remote: Region, ro: nat, length: nat) {
    && U64(lo + length) <= local.size
    && U64(ro + length) <= remote.size
    && lo % LINE == ro % LINE
    && lo % 4 == 0
    && length % 4 == 0
  }

  /** What the caller asked for: every dword of the transfer, in order, and then the completion. */
  ghost predicate Transferred(op: Op, ds: seq<Btce>, fence: Option<nat>, local: Option<Region>, lo: nat,
                              remote: Option<Region>, ro: nat, length: nat) {
    var data := Payload(ds, fence);
    && Signals(ds, fence)
    && Copies(op, data, local, lo, remote, ro, length / 4)
    && |data| <= 9 + Crossed(local, lo, remote, ro, length / 4) + length / 0x20_0000
  }

  lemma WholeTransfer(op: Op, ds: seq<Btce>, fence: Option<nat>, local: Option<Region>, lo: nat, remote: Option<Region>,
                      ro: nat, length: nat)
    requires Outcome(0, op, Payload(ds, fence), local, lo, remote, ro, length) && Signals(ds, fence)
    requires length < SIZE_MAX
    ensures Transferred(op, ds, fence, local, lo, remote, ro, length)
  {
    assert InBoth(local, lo, remote, ro, length) == length / 4;
    assert length / 4 / MAX_BTCE_DWORDS == length / 0x20_0000;
  }

  /** The transfer fits when it passed the check, unless it is empty at the very end, or its end wraps in 64 bits. */
  predicate Denied(r: Region, offset: nat, length: nat) {
    (length == 0 && offset == Extent(r)) || offset + length > SIZE_MAX
  }

  lemma SizeFits(r: Region, offset: nat, length: nat)
    requires Pinned(r) && U64(offset + length) <= r.size && offset < 0x8000_0000_0000_0000 && length <= SIZE_MAX
    ensures Fits(Some(r), offset, length) <==> !Denied(r, offset, length)
  {
  }

  lemma ShortFits(r: Region, offset: nat, length: nat)
    requires Pinned(r) && U64(offset + length) <= r.size && offset < 0x8000_0000_0000_0000 && !Reaches(offset, length)
    ensures offset < Extent(r)
  {
    if offset == Extent(r) {
      PageIsOnLine(offset);
      assert false;
    }
  }

  /** Reading or writing (lines 508-526, 544-562): op says which. */
  method MoveRegion(op: Op, context: bool, local: Option<Region>, lo: nat, remote: Option<Region>, ro: nat, length: nat,
                    fence: Option<nat>)
      returns (ret: int, ds: seq<Btce>)
    requires op == RemWrite || op == RemRead
    requires Usable(local) && Usable(remote) && lo < 0x8000_0000_0000_0000 && ro < 0x8000_0000_0000_0000
    requires length <= SIZE_MAX
    requires local.Some? && remote.Some? && Checked(local.value, lo, remote.value, ro, length) ==>
             AllShort(local, lo, remote, ro, length)
    ensures !(context && local.Some? && remote.Some? && Checked(local.value, lo, remote.value, ro, length)) ==>
            ret == -1 && ds == []
    ensures context && local.Some? && remote.Some? && Checked(local.value, lo, remote.value, ro, length) ==>
              && ret == (if !Reaches(lo, length) || Denied(local.value, lo, length) || Denied(remote.value, ro, length)
                  then -1 else 0)
              && (ret == 0 ==> Transferred(op, ds, fence, local, lo, remote, ro, length))
              && (ret == -1 ==> Signals(ds, None))
              && (ret == -1 && Reaches(lo, length) ==> Outcome(-1, op, ds, local, lo, remote, ro, length))
              && (!Reaches(lo, length) ==> Overruns(op, ds, local, lo, remote, ro, length / 4))
  {
    if !context || local.None? || remote.None? {
      return -1, [];
    }
    if U64(lo + length) > local.value.size || U64(ro + length) > remote.value.size || lo % LINE != ro % LINE
        || lo % 4 != 0 || length % 4 != 0 {
      return -1, [];
    }
    DwordInLine(ro, lo);
    SizeFits(local.value, lo, length);
    SizeFits(remote.value, ro, length);
    if !Reaches(lo, length) {
      ShortFits(local.value, lo, length);
      ShortFits(remote.value, ro, length);
    }
    ret, ds := Transfer(op, local, lo, remote, ro, length, fence);
    if ret == 0 {
      WholeTransfer(op, ds, fence, local, lo, remote, ro, length);
    }
  }

  /** The checks of a clear (lines 585-588), in 64-bit arithmetic. */
  predicate ClearChecked(remote: Region, ro: nat, length: nat) {
    U64(ro + length) <= remote.size && ro % LINE == 0 && length % LINE == 0
  }

  /** Clearing (lines 577-592): there is no local region. */
  method ClearRegion(context: bool, remote: Option<Region>, ro: nat, length: nat, fence: Option<nat>)
        returns (ret: int, ds: seq<Btce>)
    requires Usable(remote) && ro < 0x8000_0000_0000_0000 && length <= SIZE_MAX
    requires remote.Some? ==> RunsShort(None, 0, remote, ro, length)
    ensures !(context && remote.Some? && ClearChecked(remote.value, ro, length)) ==> ret == -1 && ds == []
    ensures context && remote.Some? && ClearChecked(remote.value, ro, length) ==>
              && ret == (if Denied(remote.value, ro, length) then -1 else 0)
              && (ret == 0 ==> Transferred(RemClear, ds, fence, None, 0, remote, ro, length))
              && (ret == -1 ==> Outcome(-1, RemClear, ds, None, 0, remote, ro, length) && Signals(ds, None))
  {
    if !context || remote.None? {
      return -1, [];
    }
    if U64(ro + length) > remote.value.size || ro % LINE != 0 || length % LINE != 0 {
      return -1, [];
    }
    DwordInLine(ro, 0);
    DwordInLine(length, 0);
    SizeFits(remote.value, ro, length);
    ret, ds := Transfer(RemClear, None, 0, remote, ro, length, fence);
    if ret == 0 {
      WholeTransfer(RemClear, ds, fence, None, 0, remote, ro, length);
    }
  }
}
