/**
 * The block copies of lib/memops.c: the destination is aligned with 4-byte stores, most bytes are
 * copied in blocks of 64, and the rest in smaller units. Memory is an array indexed by address.
 */
module MemOps {
  const WRAP := 0x1_0000_0000_0000_0000

  /** Unsigned 64-bit arithmetic. */
  function U64(x: int): int {
    if 0 <= x < WRAP then x else if -WRAP <= x < 0 then x + WRAP else x % WRAP
  }

  /** The conversion to int32_t. */
  function I32(x: nat): int {
    var r := x % 0x1_0000_0000;
    if r < 0x8000_0000 then r else r - 0x1_0000_0000
  }

  function RoundUp4(n: nat): nat { (n + 3) / 4 * 4 }

  /** m with n bytes copied from one place to another. */
  function Moved(m: seq<int>, from: nat, to: nat, n: nat): (r: seq<int>)
    requires from + n <= |m| && to + n <= |m|
    ensures |r| == |m|
  {
    m[..to] + m[from..from + n] + m[to + n..]
  }

  /** The n bytes of source and destination are in memory and do not overlap. */
  predicate Room(size: nat, from: nat, to: nat, n: nat) {
    from + n <= size && to + n <= size && (from + n <= to || to + n <= from)
  }

  /** Two copies, one behind the other, are one. */
  lemma MovedTwice(m: seq<int>, from: nat, to: nat, a: nat, b: nat)
    requires Room(|m|, from, to, a + b)
    ensures Moved(Moved(m, from, to, a), from + a, to + a, b) == Moved(m, from, to, a + b)
  {
    var x, y := Moved(Moved(m, from, to, a), from + a, to + a, b), Moved(m, from, to, a + b);
    forall k | 0 <= k < |m| ensures x[k] == y[k] {
      TwiceAt(m, Moved(m, from, to, a), from, to, a, b, k);
    }
  }

  lemma TwiceAt(m: seq<int>, now: seq<int>, from: nat, to: nat, a: nat, b: nat, k: nat)
    requires Room(|m|, from, to, a + b) && now == Moved(m, from, to, a) && k < |m|
    ensures Moved(now, from + a, to + a, b)[k] == Moved(m, from, to, a + b)[k]
  {
    MovedAt(m, from, to, a + b, k);
    MovedAt(now, from + a, to + a, b, k);
    MovedAt(m, from, to, a, if to + a <= k < to + a + b then from + (k - to) else k);
  }

  lemma MovedAt(m: seq<int>, from: nat, to: nat, n: nat, k: nat)
    requires from + n <= |m| && to + n <= |m| && k < |m|
    ensures Moved(m, from, to, n)[k] == if to <= k < to + n then m[from + (k - to)] else m[k]
  {
  }

  // ---------------------------------------------------------------- loads and stores

  /** The widths of movnti and movntdq. */
  predicate Unit(unit: nat) { unit == 4 || unit == 8 || unit == 16 }

  predicate Aligned(a: nat, unit: nat)
    requires Unit(unit)
  {
    if unit == 4 then a % 4 == 0 else if unit == 8 then a % 8 == 0 else a % 16 == 0
  }

  lemma NextUnit(to: nat, unit: nat)
    requires Unit(unit) && Aligned(to, unit)
    ensures Aligned(to + unit, unit)
  {
  }

  /** A store of one unit; every store that the copies make is aligned to its width. */
  method Store(mem: array<int>, to: nat, value: seq<int>)
    requires Unit(|value|) && Aligned(to, |value|) && to + |value| <= mem.Length
    modifies mem
    ensures mem[..] == old(mem[..to]) + value + old(mem[to + |value|..])
  {
    forall k | 0 <= k < |value| {
      mem[to + k] := value[k];
    }
  }

  /** The first done bytes are copied. */
  ghost predicate Done(m: seq<int>, now: seq<int>, from: nat, to: nat, done: nat) {
    from + done <= |m| && to + done <= |m| && now == Moved(m, from, to, done)
  }

  lemma NothingDone(m: seq<int>, from: nat, to: nat)
    requires from <= |m| && to <= |m|
    ensures Done(m, m, from, to, 0)
  {
    assert Moved(m, from, to, 0) == m;
  }

  lemma MoreDone(m: seq<int>, now: seq<int>, later: seq<int>, from: nat, to: nat, done: nat, more: nat)
    requires Room(|m|, from, to, done + more) && Done(m, now, from, to, done)
    requires later == Moved(now, from + done, to + done, more)
    ensures Done(m, later, from, to, done + more)
  {
    MovedTwice(m, from, to, done, more);
  }

  /**
   * One load and one store: movl or movq with movnti, movdqa or movdqu with movntdq; movdqa needs an aligned source.
   */
  method CopyUnit(mem: array<int>, from: nat, to: nat, unit: nat, movdqa: bool)
    requires movdqa ==> unit == 16 && Aligned(from, 16)
    requires Unit(unit) && Aligned(to, unit) && Room(mem.Length, from, to, unit)
    modifies mem
    ensures mem[..] == Moved(old(mem[..]), from, to, unit)
  {
    var register := mem[from..from + unit];
    Store(mem, to, register);
  }

  /** Two loads and then two stores, as the unrolled loops have them. */
  method CopyPair(mem: array<int>, from: nat, to: nat, unit: nat, movdqa: bool)
    requires movdqa ==> unit == 16 && Aligned(from, 16)
    requires Unit(unit) && Aligned(to, unit) && Room(mem.Length, from, to, 2 * unit)
    modifies mem
    ensures mem[..] == Moved(old(mem[..]), from, to, 2 * unit) && Aligned(to + 2 * unit, unit)
  {
    var from', to' := from + unit, to + unit;
    var first, second := mem[from..from'], mem[from'..from' + unit];
    NextUnit(to, unit);
    NextUnit(to', unit);
    StorePair(mem, from, to, unit, to', first, second);
  }

  /** Two stores of what was loaded. */
  method StorePair(mem: array<int>, ghost from: nat, to: nat, unit: nat, to': nat, first: seq<int>, second: seq<int>)
    requires Unit(unit) && to' == to + unit && Aligned(to, unit) && Aligned(to', unit)
    requires Room(mem.Length, from, to, 2 * unit)
    requires first == mem[..][from..from + unit] && second == mem[..][from + unit..from + unit + unit]
    modifies mem
    ensures mem[..] == Moved(old(mem[..]), from, to, 2 * unit)
  {
    ghost var m := mem[..];
    StoreLoaded(mem, from, to, first);
    StoreSecond(mem, from, to, unit, to', second, m);
  }

  method StoreSecond(mem: array<int>, ghost from: nat, ghost to: nat, unit: nat, to': nat, second: seq<int>,
                     ghost m: seq<int>)
    requires Unit(unit) && to' == to + unit && Aligned(to', unit) && |m| == mem.Length && Room(|m|, from, to, 2 * unit)
    requires mem[..] == Moved(m, from, to, unit) && second == m[from + unit..from + unit + unit]
    modifies mem
    ensures mem[..] == Moved(m, from, to, 2 * unit)
  {
    Untouched(m, from, to, unit, unit);
    StoreLoaded(mem, from + unit, to', second);
    MovedTwice(m, from, to, unit, unit);
  }

  /** A store of what was loaded, if the source still has it. */
  method StoreLoaded(mem: array<int>, ghost from: nat, to: nat, value: seq<int>)
    requires Unit(|value|) && Aligned(to, |value|) && to + |value| <= mem.Length
    requires from + |value| <= mem.Length && value == mem[..][from..from + |value|]
    modifies mem
    ensures mem[..] == Moved(old(mem[..]), from, to, |value|)
  {
    Store(mem, to, value);
  }

  /** The source behind the bytes that were copied is as before. */
  lemma Untouched(m: seq<int>, from: nat, to: nat, n: nat, more: nat)
    requires Room(|m|, from, to, n + more)
    ensures Moved(m, from, to, n)[from + n..from + n + more] == m[from + n..from + n + more]
  {
    var x, y := Moved(m, from, to, n)[from + n..from + n + more], m[from + n..from + n + more];
    forall k | 0 <= k < more ensures x[k] == y[k] {
      MovedAt(m, from, to, n, from + n + k);
    }
  }

  // ---------------------------------------------------------------- the loops

  /** The next unit of a copy that started at from and to. */
  method NextCopy(mem: array<int>, from: nat, to: nat, done: nat, unit: nat, movdqa: bool, ghost m: seq<int>)
    requires movdqa ==> unit == 16 && Aligned(from + done, 16)
    requires Unit(unit) && Aligned(to + done, unit) && |m| == mem.Length && Room(|m|, from, to, done + unit)
    requires Done(m, mem[..], from, to, done)
    modifies mem
    ensures Aligned(to + done + unit, unit) && Done(m, mem[..], from, to, done + unit)
    ensures movdqa ==> Aligned(from + done + unit, 16)
  {
    CopyMore(mem, from, to, done, unit, movdqa, m);
    NextUnit(to + done, unit);
    if movdqa { NextUnit(from + done, 16); }
  }

  method CopyMore(mem: array<int>, from: nat, to: nat, done: nat, unit: nat, movdqa: bool, ghost m: seq<int>)
    requires movdqa ==> unit == 16 && Aligned(from + done, 16)
    requires Unit(unit) && Aligned(to + done, unit) && |m| == mem.Length && Room(|m|, from, to, done + unit)
    requires Done(m, mem[..], from, to, done)
    modifies mem
    ensures Done(m, mem[..], from, to, done + unit)
  {
    ghost var now := mem[..];
    CopyUnit(mem, from + done, to + done, unit, movdqa);
    MoreDone(m, now, mem[..], from, to, done, unit);
  }

  lemma LoadsAligned(from: nat, movdqa: bool)
    requires movdqa ==> Aligned(from, 16)
    ensures movdqa ==> Aligned(from + 32, 16)
  {
    if movdqa {
      NextUnit(from, 16);
      NextUnit(from + 16, 16);
    }
  }

  method NextPair(mem: array<int>, from: nat, to: nat, done: nat, unit: nat, movdqa: bool, ghost m: seq<int>)
    requires movdqa ==> unit == 16 && Aligned(from + done, 16)
    requires Unit(unit) && Aligned(to + done, unit) && |m| == mem.Length && Room(|m|, from, to, done + 2 * unit)
    requires Done(m, mem[..], from, to, done)
    modifies mem
    ensures Aligned(to + done + 2 * unit, unit) && Done(m, mem[..], from, to, done + 2 * unit)
    ensures movdqa ==> Aligned(from + done + 2 * unit, 16)
  {
    ghost var now := mem[..];
    LoadsAligned(from + done, movdqa);
    CopyPair(mem, from + done, to + done, unit, movdqa);
    MoreDone(m, now, mem[..], from, to, done, 2 * unit);
  }

  /** i units in bytes. */
  function Bytes(i: nat, unit: nat): nat
    requires Unit(unit)
  {
    if unit == 4 then 4 * i else if unit == 8 then 8 * i else 16 * i
  }

  /** i units are copied, one after the other (lines 47-54, 59-66, 148-155, 176-183). */
  method CopyUnits(mem: array<int>, from: nat, to: nat, done: nat, i: nat, unit: nat, movdqa: bool, ghost m: seq<int>)
        returns (done': nat)
    requires movdqa ==> unit == 16 && Aligned(from + done, 16)
    requires Unit(unit) && (i > 0 ==> Aligned(to + done, unit)) && |m| == mem.Length
    requires Room(|m|, from, to, done + Bytes(i, unit))
    requires Done(m, mem[..], from, to, done)
    modifies mem
    ensures done' == done + Bytes(i, unit) && Done(m, mem[..], from, to, done') && (i > 0 ==> Aligned(to + done', unit))
    ensures movdqa ==> Aligned(from + done', 16)
  {
    done' := done;
    var left := i;
    while left > 0
      invariant 0 <= left <= i && done' + Bytes(left, unit) == done + Bytes(i, unit)
      invariant (i > 0 ==> Aligned(to + done', unit))
      invariant Done(m, mem[..], from, to, done') && (movdqa ==> Aligned(from + done', 16))
    {
      NextCopy(mem, from, to, done', unit, movdqa, m);
      left, done' := left - 1, done' + unit;
    }
  }

  /** An unrolled block: four pairs of 8 bytes (lines 88-103) or two of 16 (lines 133-140, 161-168). */
  method CopyBlock(mem: array<int>, from: nat, to: nat, done: nat, unit: nat, movdqa: bool, ghost m: seq<int>)
    requires movdqa ==> unit == 16 && Aligned(from + done, 16)
    requires (unit == 8 || unit == 16) && Aligned(to + done, unit) && |m| == mem.Length
    requires Room(|m|, from, to, done + 64)
    requires Done(m, mem[..], from, to, done)
    modifies mem
    ensures Aligned(to + done + 64, unit) && Done(m, mem[..], from, to, done + 64)
    ensures movdqa ==> Aligned(from + done + 64, 16)
  {
    if unit == 8 {
      NextPair(mem, from, to, done, 8, movdqa, m);
      NextPair(mem, from, to, done + 16, 8, movdqa, m);
      NextPair(mem, from, to, done + 32, 8, movdqa, m);
      NextPair(mem, from, to, done + 48, 8, movdqa, m);
    } else {
      NextPair(mem, from, to, done, 16, movdqa, m);
      NextPair(mem, from, to, done + 32, 16, movdqa, m);
    }
  }

  /** i blocks (lines 85-107, 130-144, 158-172). */
  method CopyBlocks(mem: array<int>, from: nat, to: nat, done: nat, i: int, unit: nat, movdqa: bool, ghost m: seq<int>)
        returns (done': nat)
    requires movdqa ==> unit == 16 && Aligned(from + done, 16)
    requires (unit == 8 || unit == 16) && (i > 0 ==> Aligned(to + done, unit)) && |m| == mem.Length
    requires Room(|m|, from, to, done + if i > 0 then 64 * i else 0)
    requires Done(m, mem[..], from, to, done)
    modifies mem
    ensures done' == done + (if i > 0 then 64 * i else 0) && Done(m, mem[..], from, to, done')
            && (i > 0 ==> Aligned(to + done', unit))
    ensures movdqa ==> Aligned(from + done', 16)
  {
    done' := done;
    var left := i;
    while left > 0
      invariant if i > 0 then 0 <= left <= i && done' + 64 * left == done + 64 * i && Aligned(to + done', unit)
                else left == i && done' == done
      invariant Done(m, mem[..], from, to, done') && (movdqa ==> Aligned(from + done', 16))
    {
      CopyBlock(mem, from, to, done', unit, movdqa, m);
      left, done' := left - 1, done' + 64;
    }
  }

  // ---------------------------------------------------------------- alignment, tail and the two copies

  /** The bytes up to the next multiple of align. */
  function Distance(to: nat, align: nat): (d: nat)
    requires align == 8 || align == 16
    ensures d < align && (to % 4 == 0 ==> d % 4 == 0 && Aligned(to + d, align))
  {
    if align == 8 then (NextEight(to); if to % 8 == 0 then 0 else 8 - to % 8)
    else (NextSixteen(to); if to % 16 == 0 then 0 else 16 - to % 16)
  }

  lemma NextEight(to: nat)
    ensures to % 8 != 0 ==> (to + (8 - to % 8)) % 8 == 0
    ensures to % 4 == 0 ==> to % 8 == 0 || to % 8 == 4
  {
    var q, r := to / 8, to % 8;
    EightMinus(q + 1, 0);
    FoursIn(2 * q, r);
  }

  lemma NextSixteen(to: nat)
    ensures to % 16 != 0 ==> (to + (16 - to % 16)) % 16 == 0
    ensures to % 4 == 0 ==> to % 16 in {0, 4, 8, 12}
  {
    var q, r := to / 16, to % 16;
    SixteenMinus(q + 1, 0);
    FoursIn(4 * q, r);
  }

  lemma FoursIn(q: nat, r: nat)
    requires r < 16
    ensures (4 * q + r) % 4 == 0 ==> r in {0, 4, 8, 12}
  {
  }

  /** The alignment loop does not run over the end: n is a multiple of four, or reaches the next multiple of align. */
  predicate Safe(to: nat, n: nat, align: nat)
    requires align == 8 || align == 16
  {
    n % 4 == 0 || n >= Distance(to, align)
  }

  /** The bytes that a copy writes: n rounded up to four, but 64 more when n wraps in the alignment loop. */
  function Written(to: nat, n: nat, align: nat): nat
    requires align == 8 || align == 16
  {
    RoundUp4(n) + if Safe(to, n, align) then 0 else 64
  }

  /** The bytes copied by the alignment loop. */
  function Lead(to: nat, n: nat, align: nat): nat
    requires align == 8 || align == 16
  {
    if n % 4 == 0 && n < Distance(to, align) then n else Distance(to, align)
  }

  /** The 4-byte units up to the next multiple of align (line 31). */
  method Steps(to: nat, align: nat) returns (i: nat)
    requires (align == 8 || align == 16) && to % 4 == 0 && to < WRAP
    ensures 4 * i == Distance(to, align)
  {
    var complement := 0xFFFF_FFFF_FFFF_FFFF - to;
    i := (complement + 1) % align / 4;
    NegatedMod(to, align);
  }

  lemma NegatedMod(to: nat, align: nat)
    requires (align == 8 || align == 16) && to < WRAP
    ensures (WRAP - to) % align == Distance(to, align)
  {
    if align == 8 {
      var q, r := to / 8, to % 8;
      assert WRAP - to == 8 * (0x2000_0000_0000_0000 - q) - r;
      EightMinus(0x2000_0000_0000_0000 - q, r);
    } else {
      var q, r := to / 16, to % 16;
      assert WRAP - to == 16 * (0x1000_0000_0000_0000 - q) - r;
      SixteenMinus(0x1000_0000_0000_0000 - q, r);
    }
  }

  lemma EightMinus(q: int, r: nat)
    requires r < 8
    ensures (8 * q - r) % 8 == if r == 0 then 0 else 8 - r
  {
    assert 8 * q - r == 8 * (q - 1) + (8 - r);
  }

  lemma SixteenMinus(q: int, r: nat)
    requires r < 16
    ensures (16 * q - r) % 16 == if r == 0 then 0 else 16 - r
  {
    assert 16 * q - r == 16 * (q - 1) + (16 - r);
  }

  /** The state of the alignment loop. */
  predicate Leading(to: nat, n: nat, align: nat, i: nat, n': int, done: nat)
    requires align == 8 || align == 16
  {
    done + 4 * i == Distance(to, align) && done % 4 == 0 && n' == U64(n - done) && (n % 4 == 0 ==> done <= n)
  }

  lemma LeadNext(to: nat, n: nat, align: nat, i: nat, n': int, done: nat)
    requires (align == 8 || align == 16) && to % 4 == 0 && n < WRAP && Leading(to, n, align, i, n', done) && i > 0
    requires n' > 0
    ensures Leading(to, n, align, i - 1, U64(n' - 4), done + 4)
    ensures done + 4 <= Written(to, n, align) && Aligned(to + done, 4)
  {
    FourMore(done, n);
    LeadFits(to, n, align, done);
  }

  lemma FourMore(done: nat, n: nat)
    requires done % 4 == 0
    ensures (done + 4) % 4 == 0 && (n % 4 == 0 && done < n ==> done + 4 <= n)
  {
  }

  lemma LeadFits(to: nat, n: nat, align: nat, done: nat)
    requires (align == 8 || align == 16) && to % 4 == 0 && done % 4 == 0 && done < Distance(to, align)
    requires (n % 4 == 0 ==> done < n)
    ensures done + 4 <= Written(to, n, align) && Aligned(to + done, 4)
  {
  }

  lemma LeadEnds(to: nat, n: nat, align: nat, i: nat, n': int, done: nat)
    requires (align == 8 || align == 16) && to % 4 == 0 && n < WRAP && Leading(to, n, align, i, n', done)
    requires (i == 0 || n' <= 0)
    ensures done == Lead(to, n, align) && n' == U64(n - done)
  {
  }

  /** Four bytes of the alignment loop. */
  method LeadStep(mem: array<int>, from: nat, to: nat, ghost n: nat, ghost align: nat, ghost i: nat, ghost n': int,
                  done: nat, ghost m: seq<int>)
    requires (align == 8 || align == 16) && to % 4 == 0 && n < WRAP && Leading(to, n, align, i, n', done) && i > 0
    requires n' > 0
    requires |m| == mem.Length && Room(|m|, from, to, Written(to, n, align)) && Done(m, mem[..], from, to, done)
    modifies mem
    ensures Done(m, mem[..], from, to, done + 4) && Leading(to, n, align, i - 1, U64(n' - 4), done + 4)
  {
    LeadNext(to, n, align, i, n', done);
    NextCopy(mem, from, to, done, 4, false, m);
  }

  /** The loop itself (lines 32-40), from steps units on. */
  method LeadLoop(mem: array<int>, from: nat, to: nat, n: nat, ghost align: nat, steps: nat, ghost m: seq<int>)
        returns (i: nat, n': int, done: nat)
    requires (align == 8 || align == 16) && to % 4 == 0 && n < WRAP && 4 * steps == Distance(to, align)
    requires |m| == mem.Length && Room(|m|, from, to, Written(to, n, align)) && Done(m, mem[..], from, to, 0)
    modifies mem
    ensures Leading(to, n, align, i, n', done) && (i == 0 || n' <= 0) && Done(m, mem[..], from, to, done)
  {
    i, n', done := steps, n, 0;
    while i > 0 && n' > 0
      invariant Leading(to, n, align, i, n', done)
      invariant Done(m, mem[..], from, to, done)
    {
      LeadStep(mem, from, to, n, align, i, n', done, m);
      i, done, n' := i - 1, done + 4, U64(n' - 4);
    }
  }

  /** ALIGN_DEST (lines 29-41), with n in 64-bit arithmetic. */
  method AlignDest(mem: array<int>, from: nat, to: nat, n: nat, align: nat) returns (n': int, done: nat)
    requires (align == 8 || align == 16) && to % 4 == 0 && to < WRAP && n < WRAP
    requires Room(mem.Length, from, to, Written(to, n, align))
    modifies mem
    ensures done == Lead(to, n, align) && n' == U64(n - done) && Done(old(mem[..]), mem[..], from, to, done)
  {
    ghost var m := mem[..];
    NothingDone(m, from, to);
    var i := Steps(to, align);
    i, n', done := LeadLoop(mem, from, to, n, align, i, m);
    LeadEnds(to, n, align, i, n', done);
  }

  /** COPY_TAIL (lines 43-67). */
  method CopyTail(mem: array<int>, from: nat, to: nat, done: nat, n: nat, ghost m: seq<int>)
    requires n < 64 && Aligned(to + done, 4) && (n >= 8 ==> Aligned(to + done, 8))
    requires |m| == mem.Length && Room(|m|, from, to, done + RoundUp4(n)) && Done(m, mem[..], from, to, done)
    modifies mem
    ensures Done(m, mem[..], from, to, done + RoundUp4(n))
  {
    EightsThenFours(to, done, n);
    var i, rest := n / 8, n % 8;
    var done' := CopyUnits(mem, from, to, done, i, 8, false, m);
    CopyFours(mem, from, to, done', rest, m);
  }

  /** The rest of less than eight bytes (lines 55-66). */
  method CopyFours(mem: array<int>, from: nat, to: nat, done: nat, n: nat, ghost m: seq<int>)
    requires n < 8 && Aligned(to + done, 4)
    requires |m| == mem.Length && Room(|m|, from, to, done + RoundUp4(n)) && Done(m, mem[..], from, to, done)
    modifies mem
    ensures Done(m, mem[..], from, to, done + RoundUp4(n))
  {
    var i, rest := n / 4, n % 4;
    if rest != 0 {
      i := i + 1;
    }
    assert 4 * i == RoundUp4(n);
    var done' := CopyUnits(mem, from, to, done, i, 4, false, m);
  }

  lemma EightsThenFours(to: nat, done: nat, n: nat)
    requires Aligned(to + done, 4)
    ensures Aligned(to + done + Bytes(n / 8, 8), 4)
    ensures Bytes(n / 8, 8) + RoundUp4(n % 8) == RoundUp4(n)
  {
    FoursMore(to + done, 2 * (n / 8));
    RoundMore(n % 8, 2 * (n / 8));
  }

  lemma FoursMore(x: nat, q: nat)
    requires x % 4 == 0
    ensures (x + 4 * q) % 4 == 0
  {
  }

  lemma RoundMore(x: nat, q: nat)
    ensures RoundUp4(x + 4 * q) == RoundUp4(x) + 4 * q
  {
  }

  /** What is left after the alignment loop, as blocks of 64 and the rest, completes the total. */
  ghost predicate Split(to: nat, align: nat, total: nat, done: nat, i: int, rest: nat)
    requires align == 8 || align == 16
  {
    && rest < 64 && Aligned(to + done, 4)
    && (i > 0 || rest >= 8 ==> Aligned(to + done, align))
    && done + (if i > 0 then 64 * i else 0) + RoundUp4(rest) == total
  }

  lemma LeftSafe(to: nat, n: nat, align: nat, done: nat)
    requires (align == 8 || align == 16) && to % 4 == 0 && n < 0x20_0000_0000 && done == Lead(to, n, align)
    requires Safe(to, n, align)
    ensures done <= n && Split(to, align, Written(to, n, align), done, I32((n - done) / 64), (n - done) % 64)
  {
    LeadAligned(to, n, align);
    LeftSum(n, done, n - done);
  }

  lemma LeftSum(n: nat, done: nat, left: nat)
    requires left < 0x20_0000_0000 && n == left + done && done % 4 == 0
    ensures I32(left / 64) == left / 64 && done + 64 * (left / 64) + RoundUp4(left % 64) == RoundUp4(n)
  {
    var i, rest := left / 64, left % 64;
    assert n == rest + (done + 64 * i);
    FoursIn4(done);
    RoundMore(rest, done / 4 + 16 * i);
  }

  lemma FoursIn4(x: nat)
    requires x % 4 == 0
    ensures x == 4 * (x / 4)
  {
  }

  lemma LeadAligned(to: nat, n: nat, align: nat)
    requires (align == 8 || align == 16) && to % 4 == 0
    ensures var done := Lead(to, n, align);
            && done % 4 == 0 && Aligned(to + done, 4)
            && (n % 4 != 0 || n >= Distance(to, align) ==> Aligned(to + done, align))
  {
    Sum4(to, Lead(to, n, align));
  }

  lemma Sum4(x: nat, y: nat)
    requires x % 4 == 0 && y % 4 == 0
    ensures (x + y) % 4 == 0
  {
  }

  /**
   * When n wraps, no block of 64 is copied, because the count is negative as an int32_t, but the rest is too long by
   * 64.
   */
  lemma LeftUnsafe(to: nat, n: nat, align: nat, done: nat)
    requires (align == 8 || align == 16) && to % 4 == 0 && done == Lead(to, n, align) && !Safe(to, n, align)
    ensures done > n && I32((n - done + WRAP) / 64) == -1 && (n - done + WRAP) % 64 == 64 - (done - n)
    ensures Split(to, align, Written(to, n, align), done, -1, 64 - (done - n))
  {
    var k := done - n;
    WrappedBlocks(k);
    FoursIn4(done);
    RoundMore(64 - k, done / 4);
    RoundMore(n, 16);
    LeadAligned(to, n, align);
  }

  lemma WrappedBlocks(k: nat)
    requires 0 < k < 64
    ensures I32((WRAP - k) / 64) == -1 && (WRAP - k) % 64 == 64 - k
  {
    assert WRAP - k == 64 * 0x3FF_FFFF_FFFF_FFFF + (64 - k);
  }

  lemma Left(to: nat, n: nat, align: nat, done: nat, n': int)
    requires (align == 8 || align == 16) && to % 4 == 0 && n < 0x20_0000_0000 && done == Lead(to, n, align)
    requires n' == U64(n - done)
    ensures n' >= 0 && Split(to, align, Written(to, n, align), done, I32(n' / 64), n' % 64)
  {
    if Safe(to, n, align) {
      LeftSafe(to, n, align, done);
    } else {
      LeftUnsafe(to, n, align, done);
    }
  }

  /** Lines 83-109: blocks of 64 and the tail. */
  method FinishNt(mem: array<int>, from: nat, to: nat, done: nat, i: int, rest: nat, ghost total: nat,
                  ghost m: seq<int>)
    requires Split(to, 8, total, done, i, rest) && |m| == mem.Length && Room(|m|, from, to, total)
    requires Done(m, mem[..], from, to, done)
    modifies mem
    ensures mem[..] == Moved(m, from, to, total)
  {
    BlocksAligned(to, done, i, 8);
    var done' := CopyBlocks(mem, from, to, done, i, 8, false, m);
    CopyTail(mem, from, to, done', rest, m);
  }

  lemma BlocksAligned(to: nat, done: nat, i: int, align: nat)
    requires (align == 8 || align == 16)
    ensures Aligned(to + done, 4) ==> Aligned(to + done + (if i > 0 then 64 * i else 0), 4)
    ensures Aligned(to + done, align) ==> Aligned(to + done + (if i > 0 then 64 * i else 0), align)
  {
    if i > 0 {
      FoursMoreIf(to + done, 16 * i);
      if align == 8 { EightsMore(to + done, 8 * i); } else { SixteensMore(to + done, 4 * i); }
    }
  }

  lemma FoursMoreIf(x: nat, q: nat)
    ensures x % 4 == 0 ==> (x + 4 * q) % 4 == 0
  {
  }

  lemma EightsMore(x: nat, q: nat)
    ensures x % 8 == 0 ==> (x + 8 * q) % 8 == 0
  {
  }

  lemma SixteensMore(x: nat, q: nat)
    ensures x % 16 == 0 ==> (x + 16 * q) % 16 == 0
  {
  }

  /** _block_nt_copy (lines 75-110). Exactly Written bytes are copied and nothing else changes. */
  method NtCopy(mem: array<int>, to: nat, from: nat, n: nat)
    requires to % 4 == 0 && to < WRAP && n < 0x20_0000_0000 && Room(mem.Length, from, to, Written(to, n, 8))
    modifies mem
    ensures mem[..] == Moved(old(mem[..]), from, to, Written(to, n, 8))
  {
    ghost var m := mem[..];
    var n', done := AlignDest(mem, from, to, n, 8);
    Left(to, n, 8, done, n');
    FinishNt(mem, from, to, done, I32(n' / 64), n' % 64, Written(to, n, 8), m);
  }

  /** Lines 126-186: blocks of 64, units of 16, and the tail; with an aligned source the loads are movdqa. */
  method FinishXmm(mem: array<int>, from: nat, to: nat, done: nat, i: int, rest: nat, ghost total: nat,
                   ghost m: seq<int>)
    requires Split(to, 16, total, done, i, rest) && |m| == mem.Length && Room(|m|, from, to, total)
    requires Done(m, mem[..], from, to, done)
    modifies mem
    ensures mem[..] == Moved(m, from, to, total)
  {
    var movdqa := (from + done) % 16 == 0;
    BlocksAligned(to, done, i, 16);
    var done' := CopyBlocks(mem, from, to, done, i, 16, movdqa, m);
    SixteensThenRest(to, done', rest);
    done' := CopyUnits(mem, from, to, done', rest / 16, 16, movdqa, m);
    CopyTail(mem, from, to, done', rest % 16, m);
  }

  lemma SixteensThenRest(to: nat, done: nat, rest: nat)
    requires rest < 64 && Aligned(to + done, 4) && (rest >= 8 ==> Aligned(to + done, 16))
    ensures Aligned(to + done + Bytes(rest / 16, 16), 4)
    ensures (rest % 16 >= 8 ==> Aligned(to + done + Bytes(rest / 16, 16), 8))
    ensures Bytes(rest / 16, 16) + RoundUp4(rest % 16) == RoundUp4(rest)
  {
    FoursMoreIf(to + done, 4 * (rest / 16));
    if rest >= 8 {
      SixteensMore(to + done, rest / 16);
      EightOfSixteen(to + done + 16 * (rest / 16));
    }
    RoundMore(rest % 16, 4 * (rest / 16));
  }

  lemma EightOfSixteen(x: nat)
    requires x % 16 == 0
    ensures x % 8 == 0
  {
  }

  /** _block_xmm_copy (lines 118-187). Exactly Written bytes are copied and nothing else changes. */
  method XmmCopy(mem: array<int>, to: nat, from: nat, n: nat)
    requires to % 4 == 0 && to < WRAP && n < 0x20_0000_0000 && Room(mem.Length, from, to, Written(to, n, 16))
    modifies mem
    ensures mem[..] == Moved(old(mem[..]), from, to, Written(to, n, 16))
  {
    ghost var m := mem[..];
    var n', done := AlignDest(mem, from, to, n, 16);
    Left(to, n, 16, done, n');
    FinishXmm(mem, from, to, done, I32(n' / 64), n' % 64, Written(to, n, 16), m);
  }

  lemma RoundedUp(to: nat, n: nat, align: nat)
    requires align == 8 || align == 16
    ensures n <= RoundUp4(n) < n + 4 && RoundUp4(n) <= Written(to, n, align)
    ensures Written(to, n, align) == RoundUp4(n) <==> n % 4 == 0 || n >= Distance(to, align)
  {
  }

  /** A memory in which every byte is different: what is overwritten by the copy of another place is seen. */
  function Numbered(size: nat): seq<int> { seq(size, i => i) }

  /** Copying further than n rounded up to four changes the next byte. */
  lemma NextByteChanges(size: nat, to: nat, from: nat, n: nat, more: nat)
    requires n < more && Room(size, from, to, more)
    ensures to + n < size
    ensures Moved(Numbered(size), from, to, more)[to + n] != Moved(Numbered(size), from, to, n)[to + n]
            == Numbered(size)[to + n]
  {
    MovedAt(Numbered(size), from, to, more, to + n);
    MovedAt(Numbered(size), from, to, n, to + n);
  }

  /**
   * The copies leave every memory as a copy of n bytes, rounded up to four, would, exactly when the alignment loop does
   * not run over the end; otherwise there is a memory in which the next byte behind changes.
   */
  lemma CopyIsExact(size: nat, to: nat, from: nat, n: nat, align: nat)
    requires (align == 8 || align == 16) && Room(size, from, to, Written(to, n, align))
    ensures (forall m: seq<int> :: |m| == size ==>
            Moved(m, from, to, Written(to, n, align)) == Moved(m, from, to, RoundUp4(n)))
            <==> n % 4 == 0 || n >= Distance(to, align)
  {
    RoundedUp(to, n, align);
    if RoundUp4(n) < Written(to, n, align) {
      NextByteChanges(size, to, from, RoundUp4(n), Written(to, n, align));
    }
  }

  /** What a caller sees: every byte asked for is copied, no byte outside the written range changes. */
  lemma CopyMeaning(m: seq<int>, to: nat, from: nat, n: nat, align: nat, k: nat)
    requires (align == 8 || align == 16) && Room(|m|, from, to, Written(to, n, align)) && k < |m|
    ensures to <= k < to + n ==> Moved(m, from, to, Written(to, n, align))[k] == m[from + (k - to)]
    ensures (k < to || k >= to + Written(to, n, align)) ==> Moved(m, from, to, Written(to, n, align))[k] == m[k]
  {
    RoundedUp(to, n, align);
    MovedAt(m, from, to, Written(to, n, align), k);
  }
}
