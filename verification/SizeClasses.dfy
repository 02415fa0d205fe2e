/**
 * The size classes of nc_malloc_small (numaplace/ncalloc.c): two bins for each power of two, with
 * sizes from 64 KiB on stretched over the left-over space of a block.
 */
module SizeClasses {
  const BLKSIZE := 0x20_0000
  const BINCNT := 48
  const BLK_BYTES := 64   // sizeof(blk_t)
  const HDR_BYTES := 16   // sizeof(hdr_t)
  const PTR_BYTES := 8    // sizeof(hdr_t*)
  const SMALL_MAX := (BLKSIZE - 64) / 2 - 64
  const SIZE0_MAX := SMALL_MAX + HDR_BYTES

  function Pow2(n: nat): (p: nat)
    ensures p > 0
  {
    if n == 0 then 1 else 2 * Pow2(n - 1)
  }

  /** The binary logarithm, as the instruction bsr finds it. */
  function Log2(n: nat): (z: nat)
    requires n > 0
    ensures Pow2(z) <= n < 2 * Pow2(z)
  {
    if n == 1 then 0 else Log2(n / 2) + 1
  }

  /** The bins' sizes before any adjustment: 16, 24, 32, 48, 64, 96, ... */
  function Nominal(bin: nat): (size: nat)
    ensures size > 0
  {
    if bin == 0 then 16 else if bin == 1 then 24 else 2 * Nominal(bin - 2)
  }

  /** The bins in use; the one for 24 bytes would break the alignment. */
  predicate IsBin(bin: nat) { bin <= 32 && bin != 1 }

  /** The least bin that is large enough. */
  predicate LeastBin(size0: nat, bin: nat) {
    && IsBin(bin)
    && size0 <= Nominal(bin)
    && forall b :: 0 <= b < bin && IsBin(b) ==> Nominal(b) < size0
  }

  /** The chunks that fit a block beside its header and their free pointers (line 355). */
  function ChunkCount(size: nat): nat { (BLKSIZE - BLK_BYTES) / (size + PTR_BYTES) }

  /** The stretched sizes of bins 24 to 30. */
  function StretchedSize(bin: nat): nat
    requires 24 <= bin <= 30
  {
    if bin == 24 then 67648 else if bin == 25 then 99856 else if bin == 26 then 139808 else if bin == 27 then 209712
    else if bin == 28 then 299600 else if bin == 29 then 419424 else 699056
  }

  /** The least size that the chunks of a bin are apart. */
  function Room(bin: nat): (size: nat)
    requires IsBin(bin)
  {
    if bin <= 24 then Nominal(bin) else if bin <= 30 then StretchedSize(bin) else SIZE0_MAX
  }

  /** The sizes in use in a bin: in bin 24 there are two. */
  predicate SizeOfBin(size: nat, bin: nat)
    requires IsBin(bin)
  {
    size == Room(bin) || (bin == 24 && size == StretchedSize(24))
  }

  /** What malloc takes for size0 bytes with the header. */
  function ChunkSize(size0: nat, bin: nat): nat
    requires IsBin(bin)
  {
    if size0 == 64 * 1024 then StretchedSize(24) else Room(bin)
  }

  // ---------------------------------------------------------------- the computation

  lemma {:induction false} NextIsLarger(a: nat)
    ensures Nominal(a) < Nominal(a + 1)
  {
    if a >= 2 { NextIsLarger(a - 2); }
  }

  lemma {:induction false} NominalGrows(a: nat, b: nat)
    requires a < b
    ensures Nominal(a) < Nominal(b)
    decreases b
  {
    NextIsLarger(b - 1);
    if a < b - 1 { NominalGrows(a, b - 1); }
  }

  lemma LeastIs(size0: nat, bin: nat)
    requires IsBin(bin) && size0 <= Nominal(bin)
    requires bin > 0 ==> Nominal(if bin == 2 then 0 else bin - 1) < size0
    ensures LeastBin(size0, bin)
  {
    forall b | 0 <= b < bin && IsBin(b) ensures Nominal(b) < size0 {
      var last := if bin == 2 then 0 else bin - 1;
      if b < last { NominalGrows(b, last); }
    }
  }

  lemma {:induction false} BinPair(k: nat)
    ensures Nominal(2 * k) == 2 * Pow2(k + 3) && Nominal(2 * k + 1) == 3 * Pow2(k + 3)
  {
    if k == 0 {
      assert Pow2(3) == 8;
    } else {
      BinPair(k - 1);
      var b := 2 * (k - 1);
      assert 2 * k == b + 2 && 2 * k + 1 == b + 3;
      assert Pow2(k + 3) == 2 * Pow2(k - 1 + 3);
    }
  }

  lemma {:induction false} PowGrows(a: nat, b: nat)
    requires a <= b
    ensures Pow2(a) <= Pow2(b)
    decreases b
  {
    if a < b { PowGrows(a, b - 1); }
  }

  lemma PowersInRange()
    ensures Pow2(3) == 8 && Pow2(4) == 16 && Pow2(5) == 32 && Pow2(20) == 0x10_0000
  {
    assert Pow2(4) == 16;
    assert Pow2(8) == 256;
    assert Pow2(12) == 4096;
    assert Pow2(16) == 0x1_0000;
  }

  lemma LogRange(size0: nat)
    requires 16 <= size0 <= SIZE0_MAX
    ensures 4 <= Log2(size0) <= 19
    ensures Pow2(Log2(size0)) == 16 <==> Log2(size0) == 4
  {
    var z := Log2(size0);
    PowersInRange();
    if z > 4 { PowGrows(5, z); }
    if z < 4 { PowGrows(z, 3); }
    if z > 19 { PowGrows(20, z); }
  }

  /** The least bin, found by search: the reference for the computation below. */
  function BinOf(size0: nat): (bin: nat)
    requires size0 <= SIZE0_MAX
    ensures LeastBin(size0, bin)
  {
    LeastFrom(size0, 0)
  }

  function LeastFrom(size0: nat, b: nat): (bin: nat)
    requires size0 <= SIZE0_MAX && b <= 32
    requires forall c :: 0 <= c < b && IsBin(c) ==> Nominal(c) < size0
    ensures LeastBin(size0, bin)
    decreases 32 - b
  {
    if b == 32 || (IsBin(b) && size0 <= Nominal(b)) then (LargeNominals(); b)
    else LeastFrom(size0, b + 1)
  }

  lemma LeastIsUnique(size0: nat, b: nat, c: nat)
    requires LeastBin(size0, b) && LeastBin(size0, c)
    ensures b == c
  {
    assert b < c ==> Nominal(b) < size0;
    assert c < b ==> Nominal(c) < size0;
  }

  /** The three cases of lines 378-387: a power of two, up to 1.5 times a power of two, and beyond. */
  ghost predicate CaseOf(size0: nat, bin: nat, nominal: nat) {
    LeastBin(size0, bin) && Nominal(bin) == nominal
  }

  /** u is a quarter of the next power of two. */
  lemma OneOfThree(size0: nat, k: nat, u: nat)
    requires u == Pow2(k + 3) && 2 * u <= size0 <= 4 * u && 2 * k + 2 <= 32 && (u == 8 <==> k == 0)
    ensures size0 == 2 * u ==> CaseOf(size0, 2 * k, 2 * u)
    ensures 2 * u < size0 <= 3 * u && u != 8 ==> CaseOf(size0, 2 * k + 1, 3 * u)
    ensures size0 > 3 * u || (size0 > 2 * u && u == 8) ==> CaseOf(size0, 2 * k + 2, 4 * u)
  {
    BinPair(k);
    if size0 == 2 * u {
      if k > 0 { NextIsLarger(2 * k - 1); }
      LeastIs(size0, 2 * k);
    } else if size0 <= 3 * u && u != 8 {
      LeastIs(size0, 2 * k + 1);
    } else {
      assert Nominal(2 * k + 2) == 2 * Nominal(2 * k);
      LeastIs(size0, 2 * k + 2);
    }
  }

  lemma HalfPower(size0: nat, z: nat)
    requires 16 <= size0 <= SIZE0_MAX && z == Log2(size0)
    ensures 4 <= z <= 19 && Pow2(z) == 2 * Pow2(z - 4 + 3)
    ensures 2 * Pow2(z - 4 + 3) <= size0 < 4 * Pow2(z - 4 + 3)
    ensures Pow2(z - 4 + 3) == 8 <==> z == 4
  {
    LogRange(size0);
    HalfOf(size0, z, z - 4 + 3);
  }

  lemma HalfOf(size0: nat, z: nat, y: nat)
    requires z == y + 1 && Pow2(z) <= size0 < 2 * Pow2(z)
    ensures Pow2(z) == 2 * Pow2(y) && 2 * Pow2(y) <= size0 < 4 * Pow2(y) && (Pow2(y) == 8 <==> Pow2(z) == 16)
  {
  }

  /** Lines 373-388, from the power of two p below size0. */
  method HalfSteps(size0: nat, z: nat, p: nat, ghost u: nat) returns (binndx: nat, binsize: nat)
    requires z >= 4 && p == 2 * u && size0 >= p
    requires size0 == 2 * u ==> CaseOf(size0, 2 * z - 8, 2 * u)
    requires 2 * u < size0 <= 3 * u && u != 8 ==> CaseOf(size0, 2 * z - 7, 3 * u)
    requires size0 > 3 * u || (size0 > 2 * u && u == 8) ==> CaseOf(size0, 2 * z - 6, 4 * u)
    ensures CaseOf(size0, binndx, binsize)
  {
    binsize := p;
    binndx := 2 * z - 8;
    if size0 > binsize {
      var bz0 := binsize;
      binsize := binsize + bz0 / 2;
      binndx := binndx + 1;
      if size0 > binsize || binsize == 24 {
        binsize := binsize + bz0 / 2;
        binndx := binndx + 1;
      }
    }
  }

  /** Lines 370-388. */
  method NominalClass(size0: nat) returns (binndx: nat, binsize: nat)
    requires 16 <= size0 <= SIZE0_MAX
    ensures LeastBin(size0, binndx) && binsize == Nominal(binndx)
  {
    var z := Log2(size0);
    HalfPower(size0, z);
    OneOfThree(size0, z - 4, Pow2(z - 4 + 3));
    binndx, binsize := HalfSteps(size0, z, Pow2(z), Pow2(z - 4 + 3));
  }

  /** Lines 393-397. */
  method Stretch(size: nat, ghost bin: nat) returns (binsize: nat)
    requires BLKSIZE / (size + PTR_BYTES) > 0 && 24 <= bin <= 30 && Stretched(size) == StretchedSize(bin)
    ensures binsize == StretchedSize(bin)
  {
    var maxcnt := BLKSIZE / (size + PTR_BYTES);
    var stretched := BLKSIZE / maxcnt - PTR_BYTES;
    if stretched % 16 != 0 {
      stretched := (stretched + 0xf) / 16 * 16;
    }
    binsize := stretched;
  }

  /** Lines 370-403. */
  method SizeClass(size: nat) returns (binndx: nat, binsize: nat)
    requires size <= SMALL_MAX
    ensures LeastBin(size + HDR_BYTES, binndx)
    ensures binsize == ChunkSize(size + HDR_BYTES, binndx)
  {
    var size0 := size + HDR_BYTES;
    binndx, binsize := NominalClass(size0);
    LargeBins(size0, binndx);
    if size0 >= 64 * 1024 {
      if size0 <= BLKSIZE / 4 {
        binsize := Stretch(binsize, binndx);
      } else {
        binsize := SIZE0_MAX;
      }
    }
  }

  /** What lines 393-396 compute. */
  function Stretched(size: nat): int {
    var maxcnt := BLKSIZE / (size + PTR_BYTES);
    if maxcnt == 0 then 0
    else
      var stretched := BLKSIZE / maxcnt - PTR_BYTES;
      if stretched % 16 != 0 then (stretched + 0xf) / 16 * 16 else stretched
  }

  lemma LargeNominals()
    ensures Nominal(23) == 49152 && Nominal(24) == 65536 && Nominal(25) == 98304 && Nominal(26) == 131072
    ensures Nominal(27) == 196608
    ensures Nominal(28) == 262144 && Nominal(29) == 393216 && Nominal(30) == 524288 && Nominal(31) == 786432
    ensures Nominal(32) == 1048576
  {
    assert Nominal(10) == 512 && Nominal(11) == 768;
    assert Nominal(20) == 16384 && Nominal(21) == 24576;
  }

  lemma {:induction false} TimesGrows(b: nat, x: nat, y: nat)
    requires x <= y
    ensures b * x <= b * y
    decreases y
  {
    if x < y {
      TimesGrows(b, x, y - 1);
      assert b * y == b * (y - 1) + b;
    }
  }

  lemma DivIs(a: nat, b: nat, q: nat)
    requires b * q <= a < b * q + b
    ensures a / b == q
  {
    var d := a / b;
    assert a == b * d + a % b;
    if d < q {
      TimesGrows(b, d + 1, q);
    } else if d > q {
      TimesGrows(b, q + 1, d);
    }
  }

  lemma StretchedValues()
    ensures Stretched(65536) == 67648 && Stretched(98304) == 99856 && Stretched(131072) == 139808
    ensures Stretched(196608) == 209712
    ensures Stretched(262144) == 299600 && Stretched(393216) == 419424 && Stretched(524288) == 699056
  {
    DivIs(BLKSIZE, 65544, 31);
    DivIs(BLKSIZE, 31, 67650);
    DivIs(BLKSIZE, 98312, 21);
    DivIs(BLKSIZE, 21, 99864);
    DivIs(BLKSIZE, 131080, 15);
    DivIs(BLKSIZE, 15, 139810);
    DivIs(BLKSIZE, 196616, 10);
    DivIs(BLKSIZE, 10, 209715);
    DivIs(BLKSIZE, 262152, 7);
    DivIs(BLKSIZE, 7, 299593);
    DivIs(BLKSIZE, 393224, 5);
    DivIs(BLKSIZE, 5, 419430);
    DivIs(BLKSIZE, 524296, 3);
    DivIs(BLKSIZE, 3, 699050);
  }

  lemma BinRange(size0: nat, bin: nat)
    requires LeastBin(size0, bin)
    ensures size0 <= 65536 ==> bin <= 24
    ensures size0 > 49152 ==> bin >= 24
    ensures size0 > 65536 ==> bin > 24
    ensures size0 <= BLKSIZE / 4 ==> bin <= 30
    ensures size0 > BLKSIZE / 4 ==> bin > 30
  {
    LargeNominals();
    if bin < 24 { NominalGrows(bin, 24); }
    if bin < 23 { NominalGrows(bin, 23); }
    if bin < 30 { NominalGrows(bin, 30); }
  }

  lemma LargeBins(size0: nat, bin: nat)
    requires LeastBin(size0, bin)
    ensures size0 <= 65536 ==> bin <= 24
    ensures size0 == 65536 ==> bin == 24
    ensures 65536 <= size0 <= BLKSIZE / 4 ==> 24 <= bin <= 30 && Stretched(Nominal(bin)) == StretchedSize(bin)
    ensures 65536 <= size0 <= BLKSIZE / 4 ==> BLKSIZE / (Nominal(bin) + PTR_BYTES) > 0
    ensures BLKSIZE / 4 < size0 ==> bin > 30
  {
    BinRange(size0, bin);
    if 65536 <= size0 <= BLKSIZE / 4 { StretchedIs(bin); }
  }

  lemma StretchedIs(bin: nat)
    requires 24 <= bin <= 30
    ensures Stretched(Nominal(bin)) == StretchedSize(bin) && BLKSIZE / (Nominal(bin) + PTR_BYTES) > 0
  {
    LargeNominals();
    StretchedValues();
  }

  // ---------------------------------------------------------------- what the classes promise

  /** The sizes of the large bins. */
  lemma LargeRooms(bin: nat)
    requires IsBin(bin) && bin >= 24
    ensures Room(bin) % 16 == 0 && 65536 <= Room(bin) <= SIZE0_MAX && (bin == 24 ==> Room(bin) == 65536)
    ensures Room(bin) >= Nominal(bin) || (bin >= 31 && Room(bin) == SIZE0_MAX)
  {
    LargeNominals();
  }

  lemma SmallRooms(bin: nat)
    requires IsBin(bin) && bin < 24
    ensures Room(bin) % 16 == 0 && 16 <= Room(bin) < 65536
  {
    Sixteens(bin);
    NominalGrows(bin, 24);
    LargeNominals();
  }

  /** Every bin's sizes are aligned, large enough for its requests, and leave room for two chunks or more. */
  lemma BinSizes(bin: nat, size: nat)
    requires IsBin(bin) && SizeOfBin(size, bin)
    ensures size % 16 == 0 && 16 <= Room(bin) <= size && Room(bin) % 16 == 0
    ensures Room(bin) >= Nominal(bin) || (bin >= 31 && Room(bin) == SIZE0_MAX)
    ensures ChunkCount(size) >= 2
  {
    if bin < 24 { SmallRooms(bin); } else { LargeRooms(bin); }
    AtLeast(BLKSIZE - BLK_BYTES, size + PTR_BYTES, 2);
  }

  lemma AtLeast(a: nat, b: nat, q: nat)
    requires b > 0 && b * q <= a
    ensures a / b >= q
  {
    assert a == b * (a / b) + a % b;
    if a / b < q { TimesGrows(b, a / b + 1, q); }
  }

  lemma {:induction false} Sixteens(bin: nat)
    requires IsBin(bin)
    ensures Nominal(bin) % 16 == 0 && Nominal(bin) >= 16
  {
    if bin == 3 {
    } else if bin >= 2 {
      Sixteens(bin - 2);
    }
  }

  /** The last chunk of a full block ends before the free pointers, even when bin 24 mixes its two sizes. */
  lemma BlockHolds(bin: nat, size: nat, step: nat)
    requires IsBin(bin) && SizeOfBin(size, bin) && SizeOfBin(step, bin)
    ensures var cnt := ChunkCount(size);
            cnt > 0 && BLK_BYTES + (cnt - 1) * step + Room(bin) + PTR_BYTES * (cnt - 1) <= BLKSIZE
  {
    if bin == 24 {
      LargeNominals();
      BothSizesHold(size, step);
    } else {
      BinSizes(bin, size);
      Parts(BLKSIZE - BLK_BYTES, size, ChunkCount(size));
    }
  }

  lemma BothSizesHold(size: nat, step: nat)
    requires (size == 65536 || size == 67648) && (step == 65536 || step == 67648)
    ensures var cnt := ChunkCount(size);
            cnt > 0 && BLK_BYTES + (cnt - 1) * step + 65536 + PTR_BYTES * (cnt - 1) <= BLKSIZE
  {
    DivIs(BLKSIZE - BLK_BYTES, 65536 + PTR_BYTES, 31);
    DivIs(BLKSIZE - BLK_BYTES, 67648 + PTR_BYTES, 30);
  }

  lemma Parts(n: nat, size: nat, cnt: nat)
    requires cnt == n / (size + PTR_BYTES) && cnt > 0
    ensures (cnt - 1) * size + size + PTR_BYTES * cnt <= n
  {
    var m := size + PTR_BYTES;
    assert n == m * cnt + n % m;
    assert m * cnt == size * cnt + PTR_BYTES * cnt;
    assert size * cnt == (cnt - 1) * size + size;
  }

  /**
   * A request is served from the least bin that fits; its chunk is aligned, holds the request and wastes at most half
   * of it.
   */
  lemma ClassIsGood(size0: nat, bin: nat)
    requires 16 <= size0 <= SIZE0_MAX && LeastBin(size0, bin)
    ensures bin < BINCNT && SizeOfBin(ChunkSize(size0, bin), bin)
    ensures ChunkSize(size0, bin) % 16 == 0 && size0 <= Room(bin) && ChunkCount(ChunkSize(size0, bin)) >= 2
    ensures 32 <= size0 < 65536 ==> 2 * ChunkSize(size0, bin) <= 3 * size0
  {
    LargeBins(size0, bin);
    BinSizes(bin, ChunkSize(size0, bin));
    if 32 <= size0 < 65536 {
      if bin > 3 {
        ThreeHalves(bin);
      }
    }
  }

  lemma {:induction false} ThreeHalves(bin: nat)
    requires bin > 3
    ensures 2 * Nominal(bin) <= 3 * Nominal(bin - 1)
  {
    if bin > 5 { ThreeHalves(bin - 2); }
  }

  /** Equal bins give equal sizes, but for the two sizes of bin 24: exactly the requests of 64 KiB get the larger. */
  lemma BinFixesSize(size0: nat, size1: nat, bin: nat)
    requires 16 <= size0 <= SIZE0_MAX && 16 <= size1 <= SIZE0_MAX && LeastBin(size0, bin) && LeastBin(size1, bin)
    ensures ChunkSize(size0, bin) == ChunkSize(size1, bin) <==> (size0 == 65536 <==> size1 == 65536)
  {
    LargeBins(size0, bin);
    LargeBins(size1, bin);
    LargeNominals();
  }

  lemma CountIs(size: nat, q: nat)
    requires (size + PTR_BYTES) * q <= BLKSIZE - BLK_BYTES < (size + PTR_BYTES) * q + size + PTR_BYTES
    ensures ChunkCount(size) == q
  {
    DivIs(BLKSIZE - BLK_BYTES, size + PTR_BYTES, q);
  }

  /**
   * Stretching is meant to use the left-over space of a block, but rounding up to 16 costs it one chunk in every bin.
   */
  lemma StretchingLosesAChunk(bin: nat)
    requires 24 <= bin <= 30
    ensures ChunkCount(StretchedSize(bin)) + 1 == ChunkCount(Nominal(bin))
  {
    LargeNominals();
    if bin == 24 {
      CountIs(65536, 31);
      CountIs(67648, 30);
    }
    if bin == 25 {
      CountIs(98304, 21);
      CountIs(99856, 20);
    }
    if bin == 26 {
      CountIs(131072, 15);
      CountIs(139808, 14);
    }
    if bin == 27 {
      CountIs(196608, 10);
      CountIs(209712, 9);
    }
    if bin == 28 {
      CountIs(262144, 7);
      CountIs(299600, 6);
    }
    if bin == 29 {
      CountIs(393216, 5);
      CountIs(419424, 4);
    }
    if bin == 30 {
      CountIs(524288, 3);
      CountIs(699056, 2);
    }
  }

  /** The largest size that the chunks of a bin are apart. */
  function MaxStep(bin: nat): nat
    requires IsBin(bin)
  {
    if bin == 24 then StretchedSize(24) else Room(bin)
  }

  lemma StepBounds(bin: nat, step: nat)
    requires IsBin(bin) && SizeOfBin(step, bin)
    ensures 16 <= Room(bin) <= step <= MaxStep(bin) && step % 16 == 0 && SizeOfBin(MaxStep(bin), bin)
  {
    BinSizes(bin, step);
    if bin == 24 { LargeRooms(bin); }
  }
}
