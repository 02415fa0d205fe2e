/** The moves that the allocator makes on its lists. */
module ListMoves {
  import opened Sequences

  function IndexOf(list: seq<nat>, b: nat): (i: nat)
    requires b in list
    ensures i < |list| && list[i] == b
  {
    if list[0] == b then 0 else 1 + IndexOf(list[1..], b)
  }

  function Without<T>(s: seq<T>, i: nat): (r: seq<T>)
    requires i < |s|
    ensures |r| == |s| - 1
  {
    s[..i] + s[i + 1..]
  }

  function ToFront<T>(s: seq<T>, i: nat): (r: seq<T>)
    requires i < |s|
    ensures |r| == |s|
  {
    [s[i]] + Without(s, i)
  }

  function ToTail<T>(s: seq<T>): (r: seq<T>)
    ensures |r| == |s|
  {
    if s == [] then [] else s[1..] + [s[0]]
  }

  ghost predicate SameElements<T>(s: seq<T>, t: seq<T>) {
    (forall i :: 0 <= i < |s| ==> s[i] in t) && (forall i :: 0 <= i < |t| ==> t[i] in s)
  }

  lemma WithoutKeeps<T>(s: seq<T>, i: nat)
    requires i < |s| && Distinct(s)
    ensures Distinct(Without(s, i))
    ensures forall x :: x in Without(s, i) <==> x in s && x != s[i]
  {
    var r := Without(s, i);
    forall j | 0 <= j < |s| && j != i ensures s[j] in r {
      assert s[j] == r[if j < i then j else j - 1];
    }
    forall j | 0 <= j < |r| ensures r[j] in s && r[j] != s[i] {
      assert r[j] == s[if j < i then j else j + 1];
    }
  }

  lemma ToFrontKeeps<T>(s: seq<T>, i: nat)
    requires i < |s| && Distinct(s)
    ensures Distinct(ToFront(s, i)) && SameElements(ToFront(s, i), s)
  {
    WithoutKeeps(s, i);
    PrependKeeps(s[i], Without(s, i));
  }

  lemma PrependKeeps<T>(x: T, s: seq<T>)
    requires Distinct(s) && x !in s
    ensures Distinct([x] + s)
    ensures forall y :: y in [x] + s <==> y == x || y in s
  {
  }

  lemma ToTailKeeps<T>(s: seq<T>)
    requires Distinct(s)
    ensures Distinct(ToTail(s)) && SameElements(ToTail(s), s)
  {
    if s != [] {
      var r := ToTail(s);
      forall j | 0 <= j < |s| ensures s[j] in r {
        assert s[j] == r[if j == 0 then |s| - 1 else j - 1];
      }
    }
  }

  /**
   * Inside a longer sequence without repetition that is not larger, a sequence without repetition has every element.
   */
  lemma FillsUp<T>(s: seq<T>, t: seq<T>)
    requires Distinct(s) && Distinct(t) && |s| >= |t|
    requires forall x :: x in s ==> x in t
    ensures forall x :: x in t ==> x in s
  {
    DistinctSize(s);
    DistinctSize(t);
    SubsetOfSameSize(Elements(s), Elements(t));
    forall x | x in t ensures x in s {
      assert x in Elements(t);
    }
  }

  lemma SubsetOfSameSize<T>(a: set<T>, b: set<T>)
    requires a <= b && |a| >= |b|
    ensures a == b
  {
    assert b == a + (b - a);
    assert |b| == |a| + |b - a|;
  }
}

/**
 * One block of small chunks (numaplace/ncalloc.c): chunks are carved from the front, freed chunks are
 * remembered on a stack that grows down from the end of the block.
 */
module HeapBlocks {
  import opened Sequences
  import opened SizeClasses
  import opened ListMoves

  /**
   * blk_t. starts are the addresses of the chunks carved so far, freed is the stack of freed chunks
   * with its top first; rest is where the next chunk will be carved.
   */
  datatype Rec = Rec(tid: nat, small: bool, bin: nat, size: nat, cnt: nat, starts: seq<nat>, rest: nat, freed: seq<nat>)

  const PAGE := 4096

  /** The mapped bytes of a block. */
  function Bytes(r: Rec): nat { if r.small then BLKSIZE else r.size }

  function RestCount(r: Rec): int { r.cnt - |r.starts| }

  function FreeCount(r: Rec): nat { |r.freed| }

  /** A chunk that a caller holds. */
  predicate Live(r: Rec, x: nat) { x in r.starts && x !in r.freed }

  function LiveChunks(r: Rec): set<nat> { set x | x in r.starts && Live(r, x) }

  predicate Full(r: Rec) { RestCount(r) + FreeCount(r) == 0 }

  /** The start of chunk k, or of the free space behind the last one. */
  function Start(starts: seq<nat>, rest: nat, k: nat): nat
    requires k <= |starts|
  {
    if k < |starts| then starts[k] else rest
  }

  /**
   * Where the space of chunk x ends: where the next chunk starts, also when that one is still to be carved; for the
   * last chunk of a block at the lowest free pointer that there can be, for a big block at its end.
   */
  function ChunkEnd(b: nat, r: Rec, x: nat): int {
    if !r.small then b + r.size
    else if x !in r.starts then x
    else
      var k := IndexOf(r.starts, x);
      if k + 1 < r.cnt then Start(r.starts, r.rest, k + 1) else b + BLKSIZE - PTR_BYTES * (r.cnt - 1)
  }

  predicate StepAt(starts: seq<nat>, rest: nat, least: nat, most: nat, k: nat)
    requires k < |starts|
  {
    var from, to := Start(starts, rest, k), Start(starts, rest, k + 1);
    from + least <= to <= from + most && (to - from) % 16 == 0
  }

  /** The chunks follow each other from the block header on, each as far from the next as one of its bin's sizes. */
  ghost predicate Carved(base: nat, starts: seq<nat>, rest: nat, least: nat, most: nat) {
    && Start(starts, rest, 0) == base + BLK_BYTES
    && forall k :: 0 <= k < |starts| ==> StepAt(starts, rest, least, most, k)
  }

  ghost predicate StackOk(r: Rec) {
    Distinct(r.freed) && forall x :: x in r.freed ==> x in r.starts
  }

  /** What holds of a block in a bin. */
  ghost predicate BlockOk(base: nat, r: Rec) {
    && base % PAGE == 0
    && r.small && IsBin(r.bin) && SizeOfBin(r.size, r.bin) && r.cnt == ChunkCount(r.size)
    && 1 <= |r.starts| <= r.cnt
    && Carved(base, r.starts, r.rest, Room(r.bin), MaxStep(r.bin))
    && StackOk(r)
    && FreeCount(r) < r.cnt
  }

  // ---------------------------------------------------------------- the operations

  /** initblk and the first chunk (lines 353-365, 456-462). */
  function FirstChunk(base: nat, tid: nat, bin: nat, binsize: nat): Rec {
    Rec(tid, true, bin, binsize, ChunkCount(binsize), [base + BLK_BYTES], base + BLK_BYTES + binsize, [])
  }

  /** A chunk from a block that is not full (lines 414-426): carved while there is rest, else the last one freed. */
  function TakenChunk(r: Rec): nat
    requires !Full(r)
  {
    if RestCount(r) != 0 then r.rest else r.freed[0]
  }

  function Take(r: Rec, binsize: nat): Rec
    requires !Full(r)
  {
    if RestCount(r) != 0 then r.(starts := r.starts + [r.rest], rest := r.rest + binsize)
    else r.(freed := r.freed[1..])
  }

  /** A freed chunk goes on the stack (lines 262-265). */
  function Give(r: Rec, x: nat): Rec { r.(freed := [x] + r.freed) }

  // ---------------------------------------------------------------- chunks do not overlap

  lemma {:induction false} StartBounds(base: nat, starts: seq<nat>, rest: nat, least: nat, most: nat, k: nat)
    requires base % PAGE == 0 && Carved(base, starts, rest, least, most) && k <= |starts|
    ensures Start(starts, rest, k) % 16 == 0
    ensures base + BLK_BYTES <= Start(starts, rest, k) <= base + BLK_BYTES + k * most
  {
    if k > 0 {
      StartBounds(base, starts, rest, least, most, k - 1);
      assert StepAt(starts, rest, least, most, k - 1);
      assert k * most == (k - 1) * most + most;
      Sum16(starts[k - 1], Start(starts, rest, k) - starts[k - 1]);
    } else {
      Sum16(16 * (256 * (base / PAGE)), BLK_BYTES);
    }
  }

  lemma Sum16(x: nat, y: nat)
    requires x % 16 == 0 && y % 16 == 0
    ensures (x + y) % 16 == 0
  {
  }

  lemma {:induction false} ChunksApart(base: nat, starts: seq<nat>, rest: nat, least: nat, most: nat, i: nat, j: nat)
    requires Carved(base, starts, rest, least, most) && i < j <= |starts|
    ensures starts[i] + least <= Start(starts, rest, j)
    decreases j
  {
    assert StepAt(starts, rest, least, most, j - 1);
    if i < j - 1 { ChunksApart(base, starts, rest, least, most, i, j - 1); }
  }

  lemma StartsDistinct(base: nat, starts: seq<nat>, rest: nat, least: nat, most: nat)
    requires Carved(base, starts, rest, least, most) && least > 0
    ensures Distinct(starts) && rest !in starts
  {
    forall i, j | 0 <= i < j <= |starts| ensures starts[i] < Start(starts, rest, j) {
      ChunksApart(base, starts, rest, least, most, i, j);
    }
    forall i, j | 0 <= i < j < |starts| ensures starts[i] != starts[j] {
      assert Start(starts, rest, j) == starts[j];
    }
    assert forall i :: 0 <= i < |starts| ==> starts[i] < Start(starts, rest, |starts|);
  }

  lemma OneMore(base: nat, starts: seq<nat>, rest: nat, least: nat, most: nat, step: nat)
    requires Carved(base, starts, rest, least, most) && least <= step <= most && step % 16 == 0
    ensures Carved(base, starts + [rest], rest + step, least, most)
  {
    var starts', rest' := starts + [rest], rest + step;
    forall k | 0 <= k < |starts'| ensures StepAt(starts', rest', least, most, k) {
      if k < |starts| {
        assert StepAt(starts, rest, least, most, k);
        assert Start(starts', rest', k) == Start(starts, rest, k)
            && Start(starts', rest', k + 1) == Start(starts, rest, k + 1);
      }
    }
  }

  /** A chunk lies behind the block header and before the part of the free-pointer stack that can ever be in use. */
  lemma ChunkInside(base: nat, r: Rec, k: nat)
    requires BlockOk(base, r) && k < |r.starts|
    ensures base + BLK_BYTES <= r.starts[k] && r.starts[k] % 16 == 0
    ensures r.starts[k] + Room(r.bin) + PTR_BYTES * (r.cnt - 1) <= base + BLKSIZE
  {
    StartBounds(base, r.starts, r.rest, Room(r.bin), MaxStep(r.bin), k);
    StepBounds(r.bin, r.size);
    BlockHolds(r.bin, r.size, MaxStep(r.bin));
    TimesGrowsLeft(k, r.cnt - 1, MaxStep(r.bin));
  }

  /** The space of a chunk has the room of its bin, and is clear of the free pointers. */
  lemma ChunkSpace(base: nat, r: Rec, x: nat)
    requires BlockOk(base, r) && x in r.starts
    ensures base + BLK_BYTES <= x && x % 16 == 0
    ensures x + Room(r.bin) <= ChunkEnd(base, r, x) <= base + BLKSIZE - PTR_BYTES * (r.cnt - 1)
  {
    var k := IndexOf(r.starts, x);
    ChunkInside(base, r, k);
    assert StepAt(r.starts, r.rest, Room(r.bin), MaxStep(r.bin), k);
    if k + 1 < |r.starts| {
      ChunkInside(base, r, k + 1);
    } else if k + 1 < r.cnt {
      RestInside(base, r);
    }
  }

  /** What is not carved yet is in front of the free pointers too. */
  lemma RestInside(base: nat, r: Rec)
    requires BlockOk(base, r) && |r.starts| < r.cnt
    ensures r.rest + Room(r.bin) + PTR_BYTES * (r.cnt - 1) <= base + BLKSIZE
  {
    StartBounds(base, r.starts, r.rest, Room(r.bin), MaxStep(r.bin), |r.starts|);
    StepBounds(r.bin, r.size);
    BlockHolds(r.bin, r.size, MaxStep(r.bin));
    TimesGrowsLeft(|r.starts|, r.cnt - 1, MaxStep(r.bin));
  }

  /** The spaces of two chunks of a block do not overlap. */
  lemma SpacesApart(base: nat, r: Rec, x: nat, y: nat)
    requires BlockOk(base, r) && x in r.starts && y in r.starts && x != y
    ensures ChunkEnd(base, r, x) <= y || ChunkEnd(base, r, y) <= x
  {
    var i, j := IndexOf(r.starts, x), IndexOf(r.starts, y);
    if i < j {
      EndsBefore(base, r, x, i, j);
    } else {
      EndsBefore(base, r, y, j, i);
    }
  }

  lemma EndsBefore(base: nat, r: Rec, x: nat, i: nat, j: nat)
    requires BlockOk(base, r) && i < j < |r.starts| && x in r.starts && i == IndexOf(r.starts, x)
    ensures ChunkEnd(base, r, x) <= r.starts[j]
  {
    NextComesFirst(base, r, i, j);
  }

  lemma NextComesFirst(base: nat, r: Rec, i: nat, j: nat)
    requires BlockOk(base, r) && i < j <= |r.starts|
    ensures Start(r.starts, r.rest, i + 1) <= Start(r.starts, r.rest, j)
  {
    if i + 1 < j {
      ChunksApart(base, r.starts, r.rest, Room(r.bin), MaxStep(r.bin), i + 1, j);
    }
  }

  /** A chunk keeps its space whatever is carved after it. */
  lemma {:induction false} IndexStays(starts: seq<nat>, more: seq<nat>, x: nat)
    requires x in starts
    ensures IndexOf(starts + more, x) == IndexOf(starts, x)
  {
    if starts[0] != x {
      assert (starts + more)[1..] == starts[1..] + more;
      IndexStays(starts[1..], more, x);
    }
  }

  lemma TakeSpace(base: nat, r: Rec, binsize: nat, x: nat)
    requires x in r.starts && !Full(r)
    ensures ChunkEnd(base, Take(r, binsize), x) == ChunkEnd(base, r, x)
  {
    if RestCount(r) != 0 { IndexStays(r.starts, [r.rest], x); }
  }

  // ---------------------------------------------------------------- whose a byte is

  /**
   * A byte that is not chunk x's: outside the block or in its header, in the space of another chunk, in what is still
   * to be carved, or where free pointers are put.
   */
  ghost predicate Foreign(b: nat, r: Rec, x: nat, a: int) {
    || a < b + BLK_BYTES || b + Bytes(r) <= a
    || (r.small && RestCount(r) > 0 && r.rest <= a)
    || (r.small && b + BLKSIZE - PTR_BYTES * (r.cnt - 1) <= a)
    || (r.small && exists y :: y in r.starts && y != x && y <= a < ChunkEnd(b, r, y))
  }

  /** Nothing in the space of a chunk is foreign to it. */
  lemma SpaceIsOwn(b: nat, r: Rec, x: nat, a: int)
    requires BlockOk(b, r) && x in r.starts && x <= a < ChunkEnd(b, r, x)
    ensures !Foreign(b, r, x, a)
  {
    ChunkSpace(b, r, x);
    if RestCount(r) > 0 { NextComesFirst(b, r, IndexOf(r.starts, x), |r.starts|); }
    forall y | y in r.starts && y != x ensures !(y <= a < ChunkEnd(b, r, y)) {
      SpacesApart(b, r, x, y);
    }
  }

  /** The first byte behind it is: the next chunk starts there, or will, or the free pointers do. */
  lemma EndIsForeign(b: nat, r: Rec, x: nat)
    requires BlockOk(b, r) && x in r.starts
    ensures Foreign(b, r, x, ChunkEnd(b, r, x))
  {
    var k := IndexOf(r.starts, x);
    if k + 1 < |r.starts| {
      var y := r.starts[k + 1];
      StepBounds(r.bin, r.size);
      ChunkSpace(b, r, x);
      ChunkSpace(b, r, y);
    }
  }

  lemma {:induction false} TimesGrowsLeft(x: nat, y: nat, b: nat)
    requires x <= y
    ensures x * b <= y * b
    decreases y
  {
    if x < y {
      TimesGrowsLeft(x, y - 1, b);
      assert y * b == (y - 1) * b + b;
    }
  }

  // ---------------------------------------------------------------- what the operations keep

  lemma FirstChunkOk(base: nat, tid: nat, bin: nat, binsize: nat)
    requires base % PAGE == 0 && IsBin(bin) && SizeOfBin(binsize, bin)
    ensures BlockOk(base, FirstChunk(base, tid, bin, binsize))
    ensures forall x :: Live(FirstChunk(base, tid, bin, binsize), x) <==> x == base + BLK_BYTES
    ensures !Full(FirstChunk(base, tid, bin, binsize))
  {
    BinSizes(bin, binsize);
    StepBounds(bin, binsize);
    assert StepAt([base + BLK_BYTES], base + BLK_BYTES + binsize, Room(bin), MaxStep(bin), 0);
  }

  lemma PopOk(freed: seq<nat>, starts: seq<nat>)
    requires Distinct(freed) && (forall x :: x in freed ==> x in starts) && freed != []
    ensures Distinct(freed[1..]) && (forall x :: x in freed[1..] ==> x in starts)
    ensures forall x :: x in freed[1..] <==> x in freed && x != freed[0]
  {
    assert freed == [freed[0]] + freed[1..];
  }

  /** Exactly one chunk becomes live, and it was not before. */
  lemma TakeOk(base: nat, r: Rec, binsize: nat)
    requires BlockOk(base, r) && !Full(r) && SizeOfBin(binsize, r.bin)
    ensures BlockOk(base, Take(r, binsize))
    ensures !Live(r, TakenChunk(r))
    ensures forall x :: Live(Take(r, binsize), x) <==> Live(r, x) || x == TakenChunk(r)
  {
    StepBounds(r.bin, binsize);
    StartsDistinct(base, r.starts, r.rest, Room(r.bin), MaxStep(r.bin));
    if RestCount(r) != 0 {
      OneMore(base, r.starts, r.rest, Room(r.bin), MaxStep(r.bin), binsize);
    } else {
      PopOk(r.freed, r.starts);
    }
  }

  /** Exactly one chunk stops being live. */
  lemma GiveOk(base: nat, r: Rec, x: nat)
    requires BlockOk(base, r) && Live(r, x) && FreeCount(r) + 1 < r.cnt
    ensures BlockOk(base, Give(r, x)) && !Full(Give(r, x))
    ensures forall y :: Live(Give(r, x), y) <==> Live(r, y) && y != x
  {
    PrependKeeps(x, r.freed);
  }

  /** When the free count reaches the chunk count, no other chunk is live: the block can go. */
  lemma LastChunkGone(base: nat, r: Rec, x: nat)
    requires BlockOk(base, r) && Live(r, x) && FreeCount(r) + 1 >= r.cnt
    ensures forall y :: Live(r, y) <==> y == x
  {
    StepBounds(r.bin, r.size);
    StartsDistinct(base, r.starts, r.rest, Room(r.bin), MaxStep(r.bin));
    PrependKeeps(x, r.freed);
    FillsUp([x] + r.freed, r.starts);
  }

  /** Every chunk of a block is live, on the stack, or not carved yet. */
  lemma ChunksConserved(base: nat, r: Rec)
    requires BlockOk(base, r)
    ensures |LiveChunks(r)| + FreeCount(r) + RestCount(r) == r.cnt
  {
    StepBounds(r.bin, r.size);
    StartsDistinct(base, r.starts, r.rest, Room(r.bin), MaxStep(r.bin));
    DistinctSize(r.starts);
    DistinctSize(r.freed);
    assert Elements(r.starts) == LiveChunks(r) + Elements(r.freed) && LiveChunks(r) !! Elements(r.freed);
  }
}
