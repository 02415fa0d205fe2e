/**
 * The block-transfer splitter of lib/libncbte.c: a copy between two regions whose pages are
 * scattered in physical memory becomes a list of hardware descriptors, each at most 2^19 dwords.
 */
module BteTransfer {
  import opened Wrappers

  const PAGE := 4096
  const LINE := 64
  const MAX_BTCE_DWORDS := 0x8_0000
  const SIZE_MAX := 0xFFFF_FFFF_FFFF_FFFF

  function U32(x: int): int { if 0 <= x < 0x1_0000_0000 then x else x % 0x1_0000_0000 }

  function U64(x: int): int { x % 0x1_0000_0000_0000_0000 }

  function Min(x: int, y: int): int { if x < y then x else y }

  datatype Op = RemWrite | RemMove | RemRead | RemClear

  /** `struct ncbte_mem`: the size in bytes and the physical address of each pinned page. */
  datatype Region = Region(size: nat, pages: seq<nat>)

  /** A descriptor: addresses in dwords (46 bits), the dword count less one (19 bits), the fence flag. */
  datatype Btce = Btce(op: Op, local: nat, remote: nat, dwCnt: nat, fence: bool)

  /**
   * What pinning provides: as many aligned pages as the size needs, below the last page of the 48-bit physical space.
   */
  ghost predicate Pinned(r: Region) {
    && r.size < 0x8000_0000_0000_0000 && |r.pages| == (r.size + PAGE - 1) / PAGE
    && forall p :: 0 <= p < |r.pages| ==> r.pages[p] % PAGE == 0 && r.pages[p] + 2 * PAGE <= 0x1_0000_0000_0000
  }

  function Extent(r: Region): nat { PAGE * |r.pages| }

  /** The page table: the physical address of a byte of the region. */
  function Translate(r: Region, offset: nat): nat
    requires offset < Extent(r)
  {
    r.pages[offset / PAGE] + offset % PAGE
  }

  // ---------------------------------------------------------------- _get_region_phys_addr

  /** From offset on, the region is physically contiguous for length bytes and not longer. */
  ghost predicate MaximalRun(r: Region, offset: nat, addr: nat, length: nat) {
    && offset + length <= Extent(r)
    && (forall x :: offset <= x < offset + length ==> Translate(r, x) == addr + (x - offset))
    && (offset + length < Extent(r) ==> Translate(r, offset + length) != addr + length)
  }

  /** The page of an offset and the offset in it (lines 359-364). */
  method FindPage(pages: seq<nat>, offset: nat) returns (page: nat, rest: nat)
    requires offset % 4 == 0
    ensures page <= |pages| && offset == PAGE * page + rest && (page < |pages| ==> rest <= PAGE - 4)
  {
    page, rest := 0, offset;
    while page < |pages| && rest > 0
      invariant page <= |pages| && rest % 4 == 0 && offset == PAGE * page + rest
      decreases |pages| - page
    {
      if rest <= PAGE - 4 {
        break;
      }
      DwordsOfPage(rest);
      rest := rest - PAGE;
      page := page + 1;
    }
  }

  lemma DwordsOfPage(rest: nat)
    requires rest % 4 == 0 && rest > PAGE - 4
    ensures rest >= PAGE && (rest - PAGE) % 4 == 0
  {
  }

  /** Lines 346-379, for the dword-aligned offsets that the callers pass. */
  method GetRegionPhysAddr(region: Option<Region>, offset: nat) returns (addr: nat, length: nat)
    requires offset % 4 == 0
    ensures region.None? ==> addr == 0 && length == SIZE_MAX
    ensures region.Some? && offset >= Extent(region.value) ==> addr == 0 && length == 0
    ensures region.Some? && offset < Extent(region.value) ==>
              && length > 0 && (offset + length) % PAGE == 0
              && MaximalRun(region.value, offset, addr, length)
  {
    if region.None? {
      return 0, SIZE_MAX;
    }
    var pages := region.value.pages;
    length := 0;
    var page, rest := FindPage(pages, offset);
    if page == |pages| {
      return 0, 0;
    }
    var start, first := pages[page], page;
    length := PAGE - rest;
    var expected := start + PAGE;
    page := page + 1;
    while page < |pages|
      invariant first < page <= |pages|
      invariant length == PAGE * (page - first) - rest && expected == start + PAGE * (page - first)
      invariant forall p :: first <= p < page ==> pages[p] == start + PAGE * (p - first)
    {
      if pages[page] != expected {
        break;
      }
      expected := expected + PAGE;
      length := length + PAGE;
      page := page + 1;
    }
    addr := start + rest;
    RunIsMaximal(region.value, first, page, rest, start);
  }

  /** Pages first..page are contiguous and the next one, if any, is not. */
  lemma RunIsMaximal(r: Region, first: nat, page: nat, rest: nat, start: nat)
    requires first < page <= |r.pages| && rest < PAGE
    requires forall p :: first <= p < page ==> r.pages[p] == start + PAGE * (p - first)
    requires page < |r.pages| ==> r.pages[page] != start + PAGE * (page - first)
    ensures MaximalRun(r, PAGE * first + rest, start + rest, PAGE * (page - first) - rest)
  {
    var offset, length := PAGE * first + rest, PAGE * (page - first) - rest;
    forall x | offset <= x < offset + length ensures Translate(r, x) == start + rest + (x - offset) {
      PageOf(first + (rest + (x - offset)) / PAGE, (rest + (x - offset)) % PAGE);
      assert x == PAGE * (x / PAGE) + x % PAGE;
      assert r.pages[x / PAGE] == start + PAGE * (x / PAGE - first);
    }
    PageOf(page, 0);
    assert offset + length == PAGE * page;
  }

  lemma PageOf(page: nat, rest: nat)
    requires rest < PAGE
    ensures (PAGE * page + rest) / PAGE == page && (PAGE * page + rest) % PAGE == rest
  {
  }

  // ---------------------------------------------------------------- descriptors

  datatype Side = Local | Remote

  function AddressOf(d: Btce, side: Side): nat {
    if side.Local? then d.local else d.remote
  }

  function Count(d: Btce): nat { d.dwCnt + 1 }

  /** n consecutive dword addresses. */
  function Dwords(a: nat, n: nat): (r: seq<nat>)
    ensures |r| == n
  {
    seq(n, j => a + j)
  }

  /** The dwords that the hardware touches on one side, in order. */
  function Touched(ds: seq<Btce>, side: Side): seq<nat> {
    if ds == [] then [] else Dwords(AddressOf(ds[0], side), Count(ds[0])) + Touched(ds[1..], side)
  }

  lemma {:induction false} TouchedConcat(xs: seq<Btce>, ys: seq<Btce>, side: Side)
    ensures Touched(xs + ys, side) == Touched(xs, side) + Touched(ys, side)
  {
    if xs == [] {
      assert xs + ys == ys;
    } else {
      assert (xs + ys)[0] == xs[0] && (xs + ys)[1..] == xs[1..] + ys;
      TouchedConcat(xs[1..], ys, side);
    }
  }

  lemma DwordsSplit(a: nat, n: nat, m: nat)
    requires m <= n
    ensures Dwords(a, n) == Dwords(a, m) + Dwords(a + m, n - m)
  {
  }

  predicate Limit(lim: nat) { lim == 4 || lim == MAX_BTCE_DWORDS }

  /** Cutting n dwords, from dword addresses a and b on, into descriptors of at most lim. */
  function Chunks(op: Op, a: nat, b: nat, n: nat, lim: nat): seq<Btce>
    requires Limit(lim)
    decreases n
  {
    if n == 0 then []
    else
      var m := Min(n, lim);
      [Btce(op, a, b, m - 1, false)] + Chunks(op, a + m, b + m, n - m, lim)
  }

  /** A descriptor keeps the line rule: whole lines, or at most four dwords inside one line. */
  predicate WellFormed(d: Btce) {
    var n := Count(d);
    && !d.fence
    && (|| (d.local % 16 == 0 && d.remote % 16 == 0 && n % 16 == 0 && n <= MAX_BTCE_DWORDS)
        || (n <= 4 && d.local % 16 + n <= 16 && d.remote % 16 + n <= 16))
  }

  predicate AllWellFormed(ds: seq<Btce>) {
    forall d :: d in ds ==> WellFormed(d)
  }

  /** The descriptors cover exactly the dwords they were cut from, each once and in order. */
  lemma {:induction false} ChunksCover(op: Op, a: nat, b: nat, n: nat, lim: nat, side: Side)
    requires Limit(lim)
    ensures Touched(Chunks(op, a, b, n, lim), side) == Dwords(if side.Local? then a else b, n)
    decreases n
  {
    if n > 0 {
      var m := Min(n, lim);
      ChunksCover(op, a + m, b + m, n - m, lim, side);
      OneMoreTouched(Btce(op, a, b, m - 1, false), Chunks(op, a + m, b + m, n - m, lim), side);
      DwordsSplit(if side.Local? then a else b, n, m);
    }
  }

  lemma OneMoreTouched(d: Btce, rest: seq<Btce>, side: Side)
    ensures Touched([d] + rest, side) == Dwords(AddressOf(d, side), Count(d)) + Touched(rest, side)
  {
    assert ([d] + rest)[0] == d && ([d] + rest)[1..] == rest;
  }

  /** DIV_ROUND_UP for the two limits: the number of descriptors. */
  function DivRoundUp(n: nat, lim: nat): nat
    requires Limit(lim)
  {
    if lim == 4 then (n + 3) / 4 else (n + MAX_BTCE_DWORDS - 1) / MAX_BTCE_DWORDS
  }

  lemma DivStep(n: nat, lim: nat)
    requires n > 0 && Limit(lim)
    ensures DivRoundUp(n, lim) == 1 + DivRoundUp(n - Min(n, lim), lim) && DivRoundUp(n, lim) > 0
  {
    if lim == 4 {
      assert (n + 3) / 4 == 1 + (n - Min(n, 4) + 3) / 4;
    } else {
      assert (n + 0x7_FFFF) / 0x8_0000 == 1 + (n - Min(n, 0x8_0000) + 0x7_FFFF) / 0x8_0000;
    }
  }

  lemma {:induction false} ChunksCount(op: Op, a: nat, b: nat, n: nat, lim: nat)
    requires Limit(lim)
    ensures |Chunks(op, a, b, n, lim)| == DivRoundUp(n, lim)
    decreases n
  {
    if n > 0 {
      var m := Min(n, lim);
      DivStep(n, lim);
      ChunksCount(op, a + m, b + m, n - m, lim);
    }
  }

  /** From a line boundary whole lines are cut into whole lines. */
  lemma {:induction false} BulkWellFormed(op: Op, a: nat, b: nat, n: nat)
    requires a % 16 == 0 && b % 16 == 0 && n % 16 == 0
    ensures AllWellFormed(Chunks(op, a, b, n, MAX_BTCE_DWORDS))
    decreases n
  {
    if n > 0 {
      BulkWellFormed(op, a + Min(n, MAX_BTCE_DWORDS), b + Min(n, MAX_BTCE_DWORDS), n - Min(n, MAX_BTCE_DWORDS));
    }
  }

  lemma OneMoreWellFormed(d: Btce, rest: seq<Btce>)
    requires WellFormed(d) && AllWellFormed(rest)
    ensures AllWellFormed([d] + rest)
  {
  }

  lemma InsideLine(a: nat, n: nat)
    requires a % 16 + n <= 16 && n > 4
    ensures (a + 4) % 16 == a % 16 + 4
  {
  }

  /** Inside one line every cut stays inside the line. */
  lemma {:induction false} EdgeWellFormed(op: Op, a: nat, b: nat, n: nat)
    requires a % 16 == b % 16 && a % 16 + n <= 16
    ensures AllWellFormed(Chunks(op, a, b, n, 4))
    decreases n
  {
    if n > 4 {
      InsideLine(a, n);
      InsideLine(b, n);
      EdgeWellFormed(op, a + 4, b + 4, n - 4);
      OneMoreWellFormed(Btce(op, a, b, 3, false), Chunks(op, a + 4, b + 4, n - 4, 4));
    } else if n > 0 {
      OneMoreWellFormed(Btce(op, a, b, n - 1, false), []);
    }
  }

  /** The address field holds the dword address in 46 bits. */
  function Field(addr: nat): nat { addr / 4 % 0x4000_0000_0000 }

  lemma FieldIs(a: nat)
    requires 4 * a < 0x1_0000_0000_0000
    ensures Field(4 * a) == a
  {
  }

  predicate InSpace(addr: nat, n: nat) {
    addr % 4 == 0 && addr + 4 * n <= 0x1_0000_0000_0000
  }

  lemma ChunksStep(op: Op, a: nat, b: nat, n: nat, lim: nat, ds: seq<Btce>, all: seq<Btce>)
    requires Limit(lim) && n > 0 && ds + Chunks(op, a, b, n, lim) == all
    ensures var m := Min(n, lim);
            (ds + [Btce(op, a, b, m - 1, false)]) + Chunks(op, a + m, b + m, n - m, lim) == all
  {
    var m := Min(n, lim);
    var d, rest := Btce(op, a, b, m - 1, false), Chunks(op, a + m, b + m, n - m, lim);
    assert ds + ([d] + rest) == (ds + [d]) + rest;
  }

  /** One descriptor of SETUP_BTCE (lines 381-398), from dword addresses a and b on. */
  function Descriptor(op: Op, local_addr: nat, remote_addr: nat, ndwords: nat): Btce
    requires ndwords > 0
  {
    Btce(op, Field(local_addr), Field(remote_addr), ndwords - 1, false)
  }

  lemma DescriptorIs(op: Op, la: nat, ra: nat, n: nat, done: nat, lim: nat)
    requires Limit(lim) && done < n && InSpace(la, n) && InSpace(ra, n)
    ensures Descriptor(op, la + 4 * done, ra + 4 * done, Min(n - done, lim)) == Btce(op, la / 4 + done, ra / 4 + done,
            Min(n - done, lim) - 1, false)
  {
    FieldIs(la / 4 + done);
    FieldIs(ra / 4 + done);
  }

  /** The descriptors ds cover the first dwords of the n and the remaining cuts the others. */
  ghost predicate Part(op: Op, la: nat, ra: nat, n: nat, done: nat, lim: nat, ds: seq<Btce>)
    requires Limit(lim) && done <= n
  {
    ds + Chunks(op, la / 4 + done, ra / 4 + done, n - done, lim) == Chunks(op, la / 4, ra / 4, n, lim)
  }

  lemma PartGrows(op: Op, la: nat, ra: nat, n: nat, done: nat, lim: nat, ds: seq<Btce>)
    requires Limit(lim) && done < n && Part(op, la, ra, n, done, lim, ds)
    requires InSpace(la, n) && InSpace(ra, n)
    ensures var m := Min(n - done, lim);
            Part(op, la, ra, n, done + m, lim, ds + [Descriptor(op, la + 4 * done, ra + 4 * done, m)])
  {
    DescriptorIs(op, la, ra, n, done, lim);
    ChunksStep(op, la / 4 + done, ra / 4 + done, n - done, lim, ds, Chunks(op, la / 4, ra / 4, n, lim));
  }

  /** What bulk is after it wrapped in line 440 or 441, without its tail. */
  const WRAPPED := 0xFFFF_FFF0

  /** The dword counts that a pass meets. */
  predicate Counted(n: nat, lim: nat) { Limit(lim) && (n < 0x4000_0000 || (n == WRAPPED && lim == MAX_BTCE_DWORDS)) }

  /** Of a wrapped count nothing is set up: DIV_ROUND_UP wraps to zero. */
  function SetUp(n: nat): nat { if n < 0x4000_0000 then n else 0 }

  lemma DivRoundUp32(n: nat, lim: nat)
    requires Counted(n, lim)
    ensures U32(n + (lim - 1)) / lim == DivRoundUp(SetUp(n), lim)
  {
  }

  /** One more descriptor, with left dwords of n still to cover. */
  lemma SetupNext(op: Op, la: nat, ra: nat, n: nat, left: nat, lim: nat, ds: seq<Btce>, la': nat, ra': nat, m: nat)
    requires Limit(lim) && 0 < left <= n && Part(op, la, ra, n, n - left, lim, ds) && InSpace(la, n) && InSpace(ra, n)
    requires la' == la + 4 * (n - left) && ra' == ra + 4 * (n - left) && m == Min(left, lim)
    ensures DivRoundUp(left, lim) == 1 + DivRoundUp(left - m, lim)
    ensures Part(op, la, ra, n, n - (left - m), lim, ds + [Descriptor(op, la', ra', m)])
  {
    DivStep(left, lim);
    PartGrows(op, la, ra, n, n - left, lim, ds);
  }

  /** SETUP_BTCE in its loop (lines 444-445, 457-458, 467-468). */
  method SetupBtce(op: Op, la: nat, ra: nat, n: nat, lim: nat) returns (la': nat, ra': nat, ds: seq<Btce>)
    requires Counted(n, lim) && InSpace(la, SetUp(n)) && InSpace(ra, SetUp(n))
    ensures la' == la + 4 * SetUp(n) && ra' == ra + 4 * SetUp(n)
    ensures ds == Chunks(op, la / 4, ra / 4, SetUp(n), lim)
  {
    la', ra', ds := la, ra, [];
    var curr, i, num := n, 0, U32(n + (lim - 1)) / lim;
    DivRoundUp32(n, lim);
    ghost var all, left := SetUp(n), SetUp(n);
    assert Part(op, la, ra, all, 0, lim, []);
    while i < num && curr > 0
      invariant 0 <= left <= all && la' == la + 4 * (all - left) && ra' == ra + 4 * (all - left)
      invariant all == n ==> curr == left
      invariant i <= num && num - i == DivRoundUp(left, lim)
      invariant Part(op, la, ra, all, all - left, lim, ds)
      decreases num - i
    {
      NoneLeft(left, lim);
      var ndwords := Min(curr, lim);
      SetupNext(op, la, ra, all, left, lim, ds, la', ra', ndwords);
      ds := ds + [Descriptor(op, la', ra', ndwords)];
      la', ra', curr := la' + 4 * ndwords, ra' + 4 * ndwords, curr - ndwords;
      i, left := i + 1, left - ndwords;
    }
    NoneLeft(left, lim);
  }

  lemma NoneLeft(n: nat, lim: nat)
    requires Limit(lim)
    ensures DivRoundUp(n, lim) == 0 <==> n == 0
  {
  }

  // ---------------------------------------------------------------- one pass of the do-while loop

  /** The dwords up to the next line boundary (lines 437-439). */
  function Head(a: nat): (head: nat)
    ensures head < 16 && (a + head) % 16 == 0 && (a % 16 == 0 ==> head == 0)
  {
    if a % 16 != 0 then 0x10 - a % 16 else 0
  }

  /** The dwords after the last line boundary (line 450). */
  function Tail(a: nat, n: nat): (tail: nat)
    requires Head(a) <= n
    ensures tail < 16 && tail <= n - Head(a) && (n - Head(a) - tail) % 16 == 0 && ((a + n) % 16 == 0 ==> tail == 0)
  {
    (n - Head(a)) % 16
  }

  /** Head, whole lines and tail, from dword addresses a and b on. */
  function Pieces(op: Op, a: nat, b: nat, head: nat, bulk: nat, tail: nat): seq<Btce> {
    Chunks(op, a, b, head, 4) + Chunks(op, a + head, b + head, bulk, MAX_BTCE_DWORDS)
        + Chunks(op, a + head + bulk, b + head + bulk, tail, 4)
  }

  /** The descriptors of a pass over n dwords. */
  function Submitted(op: Op, a: nat, b: nat, n: nat): seq<Btce>
    requires Head(a) <= n
  {
    Pieces(op, a, b, Head(a), n - Head(a) - Tail(a, n), Tail(a, n))
  }

  lemma TouchedInThree(xs: seq<Btce>, ys: seq<Btce>, zs: seq<Btce>, side: Side, c: nat, h: nat, b: nat, t: nat)
    requires Touched(xs, side) == Dwords(c, h)
    requires Touched(ys, side) == Dwords(c + h, b)
    requires Touched(zs, side) == Dwords(c + h + b, t)
    ensures Touched(xs + ys + zs, side) == Dwords(c, h + b + t)
  {
    TouchedConcat(xs + ys, zs, side);
    TouchedConcat(xs, ys, side);
    DwordsSplit(c, h + b + t, h + b);
    DwordsSplit(c, h + b, h);
  }

  lemma ChunksFrom(op: Op, a: nat, b: nat, n: nat, lim: nat, side: Side, c: nat)
    requires Limit(lim) && c == if side.Local? then a else b
    ensures Touched(Chunks(op, a, b, n, lim), side) == Dwords(c, n)
  {
    ChunksCover(op, a, b, n, lim, side);
  }

  lemma PiecesCover(op: Op, a: nat, b: nat, head: nat, bulk: nat, tail: nat, side: Side)
    ensures Touched(Pieces(op, a, b, head, bulk, tail), side)
            == Dwords(if side.Local? then a else b, head + bulk + tail)
  {
    var c := if side.Local? then a else b;
    var xs, ys := Chunks(op, a, b, head, 4), Chunks(op, a + head, b + head, bulk, MAX_BTCE_DWORDS);
    var zs := Chunks(op, a + head + bulk, b + head + bulk, tail, 4);
    ChunksFrom(op, a, b, head, 4, side, c);
    ChunksFrom(op, a + head, b + head, bulk, MAX_BTCE_DWORDS, side, c + head);
    ChunksFrom(op, a + head + bulk, b + head + bulk, tail, 4, side, c + head + bulk);
    TouchedInThree(xs, ys, zs, side, c, head, bulk, tail);
  }

  lemma PassCovers(op: Op, a: nat, b: nat, n: nat, side: Side)
    requires Head(a) <= n
    ensures Touched(Submitted(op, a, b, n), side) == Dwords(if side.Local? then a else b, n)
  {
    PiecesCover(op, a, b, Head(a), n - Head(a) - Tail(a, n), Tail(a, n), side);
  }

  lemma PiecesWellFormed(op: Op, a: nat, b: nat, head: nat, bulk: nat, tail: nat)
    requires a % 16 == b % 16 && a % 16 + head <= 16 && (a + head) % 16 == 0 && bulk % 16 == 0 && tail < 16
    ensures AllWellFormed(Pieces(op, a, b, head, bulk, tail))
  {
    EdgeWellFormed(op, a, b, head);
    FromLine(a + head, b + head, bulk);
    BulkWellFormed(op, a + head, b + head, bulk);
    EdgeWellFormed(op, a + head + bulk, b + head + bulk, tail);
  }

  lemma FromLine(a: nat, b: nat, bulk: nat)
    requires a % 16 == 0 && bulk % 16 == 0
    ensures (a + bulk) % 16 == 0 && (b % 16 == 0 ==> (b + bulk) % 16 == 0)
  {
  }

  lemma PassWellFormed(op: Op, a: nat, b: nat, n: nat)
    requires Head(a) <= n && a % 16 == b % 16
    ensures AllWellFormed(Submitted(op, a, b, n))
  {
    PiecesWellFormed(op, a, b, Head(a), n - Head(a) - Tail(a, n), Tail(a, n));
  }

  lemma PiecesCount(op: Op, a: nat, b: nat, head: nat, bulk: nat, tail: nat)
    requires head < 16 && tail < 16
    ensures |Pieces(op, a, b, head, bulk, tail)| <= 1 + bulk / MAX_BTCE_DWORDS + (if head == 0 then 0 else 4)
            + (if tail == 0 then 0 else 4)
  {
    ChunksCount(op, a, b, head, 4);
    ChunksCount(op, a + head, b + head, bulk, MAX_BTCE_DWORDS);
    ChunksCount(op, a + head + bulk, b + head + bulk, tail, 4);
  }

  /** At most four head and four tail descriptors, and only where the run starts or stops inside a line. */
  lemma PassCount(op: Op, a: nat, b: nat, n: nat)
    requires Head(a) <= n
    ensures |Submitted(op, a, b, n)| <= 1 + n / MAX_BTCE_DWORDS + (if a % 16 == 0 then 0 else 4)
            + (if (a + n) % 16 == 0 then 0 else 4)
  {
    var bulk := n - Head(a) - Tail(a, n);
    PiecesCount(op, a, b, Head(a), bulk, Tail(a, n));
    assert bulk / MAX_BTCE_DWORDS <= n / MAX_BTCE_DWORDS;
  }

  /** What UPDATE_LENGTH_OFFSET counts for so many dwords, in 32 bits. */
  function Shift32(n: nat): nat { U32(4 * n) }

  lemma ShiftIs(n: nat, lim: nat)
    requires Counted(n, lim)
    ensures Shift32(n) == if n == WRAPPED then 0xFFFF_FFC0 else 4 * n
  {
  }

  /**
   * One of head, bulk and tail, skipped when zero: UPDATE_LENGTH_OFFSET and the loop (lines 400-405, 441-446, 455-459,
   * 464-469).
   */
  method Stage(op: Op, la: nat, ra: nat, curr: nat, lim: nat, length: nat, lo: nat, ro: nat, ghost a: nat, ghost b: nat)
      returns (la': nat, ra': nat, length': nat, lo': nat, ro': nat, ds: seq<Btce>)
    requires Counted(curr, lim) && InSpace(la, SetUp(curr)) && InSpace(ra, SetUp(curr)) && length <= SIZE_MAX
    requires la == 4 * a && ra == 4 * b
    ensures la' == la + 4 * SetUp(curr) && ra' == ra + 4 * SetUp(curr)
    ensures length' == U64(length - Shift32(curr)) && lo' == lo + Shift32(curr) && ro' == ro + Shift32(curr)
    ensures ds == Chunks(op, a, b, SetUp(curr), lim)
  {
    if curr == 0 {
      return la, ra, length, lo, ro, [];
    }
    var bytes := U32(4 * curr);
    length', lo', ro' := U64(length - bytes), lo + bytes, ro + bytes;
    la', ra', ds := SetupBtce(op, la, ra, curr, lim);
  }

  lemma HeadIs(addr: nat, head: nat)
    requires addr % 4 == 0 && head == addr % LINE / 4
    ensures addr == 4 * (addr / 4) && Head(addr / 4) == if head != 0 then 0x10 - head else 0
  {
    var a := addr / 4;
    assert addr == 4 * a && head == a % 16;
  }

  lemma TwoLess(x: int, y: int, z: int)
    ensures U64(U64(x - y) - z) == U64(x - y - z)
  {
  }

  lemma SpaceParts(addr: nat, a: nat, head: nat, bulk: nat, tail: nat)
    requires addr == 4 * a && InSpace(addr, head + bulk + tail)
    ensures InSpace(addr, head) && InSpace(addr + 4 * head, bulk) && InSpace(addr + 4 * head + 4 * bulk, tail)
  {
    assert addr + 4 * head == 4 * (a + head) && addr + 4 * head + 4 * bulk == 4 * (a + head + bulk);
  }

  /** Head and whole lines. */
  method HeadAndBulk(op: Op, local_addr: nat, remote_addr: nat, head: nat, bulk: nat, length: nat, lo: nat, ro: nat,
                     ghost a: nat, ghost b: nat)
      returns (la: nat, ra: nat, length': nat, lo': nat, ro': nat, ds: seq<Btce>)
    requires local_addr == 4 * a && remote_addr == 4 * b && head < 16 && Counted(bulk, MAX_BTCE_DWORDS)
    requires length <= SIZE_MAX
    requires InSpace(local_addr, head) && InSpace(remote_addr, head)
    requires InSpace(local_addr + 4 * head, SetUp(bulk)) && InSpace(remote_addr + 4 * head, SetUp(bulk))
    ensures la == local_addr + 4 * head + 4 * SetUp(bulk) && ra == remote_addr + 4 * head + 4 * SetUp(bulk)
    ensures length' == U64(length - (4 * head + Shift32(bulk))) && lo' == lo + (4 * head + Shift32(bulk))
    ensures ro' == ro + (4 * head + Shift32(bulk))
    ensures ds == Chunks(op, a, b, head, 4) + Chunks(op, a + head, b + head, SetUp(bulk), MAX_BTCE_DWORDS)
  {
    var heads, bulks;
    la, ra, length', lo', ro', heads := Stage(op, local_addr, remote_addr, head, 4, length, lo, ro, a, b);
    la, ra, length', lo', ro', bulks := Stage(op, la, ra, bulk, MAX_BTCE_DWORDS, length', lo', ro', a + head, b + head);
    TwoLess(length, 4 * head, Shift32(bulk));
    ds := heads + bulks;
  }

  /** The three stages of a run, from dword addresses a and b on. */
  method Stages(op: Op, local_addr: nat, remote_addr: nat, head: nat, bulk: nat, tail: nat, length: nat, lo: nat,
                ro: nat, ghost a: nat, ghost b: nat)
      returns (length': nat, lo': nat, ro': nat, ds: seq<Btce>)
    requires local_addr == 4 * a && remote_addr == 4 * b && head < 16 && tail < 16 && Counted(bulk, MAX_BTCE_DWORDS)
    requires length <= SIZE_MAX
    requires InSpace(local_addr, head + SetUp(bulk) + tail) && InSpace(remote_addr, head + SetUp(bulk) + tail)
    ensures length' == U64(length - (4 * head + Shift32(bulk) + 4 * tail))
    ensures lo' == lo + (4 * head + Shift32(bulk) + 4 * tail) && ro' == ro + (4 * head + Shift32(bulk) + 4 * tail)
    ensures ds == Pieces(op, a, b, head, SetUp(bulk), tail)
  {
    var la, ra, tails;
    SpaceParts(local_addr, a, head, SetUp(bulk), tail);
    SpaceParts(remote_addr, b, head, SetUp(bulk), tail);
    la, ra, length', lo', ro', ds := HeadAndBulk(op, local_addr, remote_addr, head, bulk, length, lo, ro, a, b);
    la, ra, length', lo', ro', tails := Stage(op, la, ra, tail, 4, length', lo', ro', a + head + SetUp(bulk),
        b + head + SetUp(bulk));
    TwoLess(length, 4 * head + Shift32(bulk), 4 * tail);
    ds := ds + tails;
  }

  /** The 32-bit arithmetic of lines 439-451. */
  lemma SplitIs(n: nat, head: nat)
    requires head < 16 && n < 0x4000_0000
    ensures head <= n ==> U32(n - head) == n - head && (n - head) % 16 <= n - head
    ensures head > n ==> U32(n - head) == 0xFFFF_FFF0 + (16 - (head - n)) && U32(n - head) % 16 == 16 - (head - n)
  {
    if head > n {
      assert n - head + 0x1_0000_0000 == 16 * 0x0FFF_FFFF + (16 - (head - n));
      Rest16(0x0FFF_FFFF, 16 - (head - n));
    }
  }

  lemma Rest16(q: nat, r: nat)
    requires r < 16
    ensures (16 * q + r) % 16 == r
  {
  }

  /** The split of n dwords (lines 437-440, 450-451), in 32-bit arithmetic: bulk wraps when the head alone is longer. */
  method Split(addr: nat, n: nat) returns (head: nat, bulk: nat, tail: nat)
    requires addr % 4 == 0 && n < 0x4000_0000
    ensures head == Head(addr / 4)
    ensures head <= n ==> tail == Tail(addr / 4, n) && bulk == n - head - tail
    ensures head > n ==> tail == 16 - (head - n) && bulk == WRAPPED
  {
    bulk, head := U32(n), addr % LINE / 4;
    HeadIs(addr, head);
    if head != 0 {
      head := 0x10 - head;
      bulk := U32(bulk - head);
    }
    SplitIs(n, head);
    tail := bulk % 16;
    bulk := U32(bulk - tail);
  }

  /** The head touches n dwords and more: with the tail that is left of the wrapped count it is 16 dwords too many. */
  function Overrun(op: Op, a: nat, b: nat, n: nat): seq<Btce>
    requires n < Head(a)
  {
    Pieces(op, a, b, Head(a), 0, 16 - (Head(a) - n))
  }

  lemma OverrunCovers(op: Op, a: nat, b: nat, n: nat, side: Side)
    requires n < Head(a)
    ensures Touched(Overrun(op, a, b, n), side) == Dwords(if side.Local? then a else b, n + 16)
  {
    PiecesCover(op, a, b, Head(a), 0, 16 - (Head(a) - n), side);
  }

  /**
   * Lines 430-470: one contiguous run. n is the dword count of line 430. When the run stops before the next line
   * boundary, 64 bytes too many are submitted and the length wraps to 4 GiB below its bound.
   */
  method Pass(op: Op, local_addr: nat, remote_addr: nat, n: nat, length: nat, lo: nat, ro: nat)
      returns (length': nat, lo': nat, ro': nat, ds: seq<Btce>)
    requires InSpace(local_addr, n) && InSpace(remote_addr, n) && n < 0x4000_0000 && 4 * n <= length <= SIZE_MAX
    requires Head(local_addr / 4) > n ==> InSpace(local_addr, n + 16) && InSpace(remote_addr, n + 16)
    ensures Head(local_addr / 4) <= n ==>
              && length' == length - 4 * n && lo' == lo + 4 * n && ro' == ro + 4 * n
              && ds == Submitted(op, local_addr / 4, remote_addr / 4, n)
    ensures Head(local_addr / 4) > n ==>
              && length' == U64(length - 4 * n - 0x1_0000_0000) && lo' == lo + 4 * n + 0x1_0000_0000
              && ro' == ro + 4 * n + 0x1_0000_0000
              && ds == Overrun(op, local_addr / 4, remote_addr / 4, n)
  {
    var head, bulk, tail := Split(local_addr, n);
    ShiftIs(bulk, MAX_BTCE_DWORDS);
    length', lo', ro', ds := Stages(op, local_addr, remote_addr, head, bulk, tail, length, lo, ro, local_addr / 4,
        remote_addr / 4);
  }
}
