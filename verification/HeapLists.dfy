/** The linked lists of numaplace/ncalloc.c, changed in place. */
module HeapLists {
  import opened Sequences
  import opened SizeClasses
  import opened ListMoves
  import opened HeapBlocks

  /** blk_t: a block header, with the cells at the block's end that hold the pointers to freed chunks. */
  class Blk {
    const base: nat
    var small: bool
    var tid: nat
    var binndx: nat
    var restcnt: int
    var freecnt: int
    var cnt: int
    var rest: nat
    var free: int
    var size: nat
    var cells: map<int, nat>
    var prev: Blk?
    var next: Blk?

    constructor (base: nat, tid: nat)
      ensures this.base == base && this.tid == tid
    {
      this.base, this.tid := base, tid;
      cells := map[];
      prev, next := null, null;
    }

    /** The cell at i from the top of the free stack. */
    ghost predicate CellIs(i: nat, x: nat)
      reads this`free, this`cells
    {
      free + PTR_BYTES * i in cells && cells[free + PTR_BYTES * i] == x
    }

    /** The fields say what the record says. */
    ghost predicate Chunks(r: Rec)
      reads this`binndx, this`restcnt, this`freecnt, this`cnt, this`rest, this`free, this`size, this`cells
    {
      && binndx == r.bin && size == r.size && cnt == r.cnt && rest == r.rest
      && restcnt == RestCount(r) && freecnt == FreeCount(r)
      && free == base + BLKSIZE - PTR_BYTES * freecnt
      && forall i :: 0 <= i < |r.freed| ==> CellIs(i, r.freed[i])
    }

    ghost predicate Reps(r: Rec)
      reads this`tid, this`small, this`binndx, this`restcnt, this`freecnt, this`cnt, this`rest, this`free, this`size,
          this`cells
    {
      && tid == r.tid && small == r.small
      && (!small ==> size == r.size)
      && (small && r.starts != [] ==> Chunks(r))
    }

    /** Lines 414-426. */
    method TakeChunk(binsize: nat, ghost r: Rec) returns (hdr: nat)
      requires Reps(r) && small && r.starts != [] && !Full(r) && RestCount(r) >= 0
      modifies this`restcnt, this`rest, this`freecnt, this`free
      ensures Reps(Take(r, binsize)) && hdr == TakenChunk(r)
    {
      ghost var was := free;
      if restcnt != 0 {
        restcnt := restcnt - 1;
        hdr := rest;
        rest := rest + binsize;
      } else {
        assert CellIs(0, r.freed[0]);
        freecnt := freecnt - 1;
        hdr := cells[free];
        free := free + PTR_BYTES;
        forall i | 0 <= i < |r.freed| - 1 ensures CellIs(i, r.freed[1..][i]) {
          assert old(CellIs(i + 1, r.freed[i + 1]));
          assert free + PTR_BYTES * i == was + PTR_BYTES * (i + 1);
        }
      }
    }

    /** Lines 262-265. */
    method GiveChunk(hdr: nat, ghost r: Rec)
      requires Reps(r) && small && r.starts != []
      modifies this`freecnt, this`free, this`cells
      ensures Reps(Give(r, hdr))
    {
      ghost var was := free;
      freecnt := freecnt + 1;
      free := free - PTR_BYTES;
      cells := cells[free := hdr];
      ghost var freed := [hdr] + r.freed;
      forall i | 0 <= i < |freed| ensures CellIs(i, freed[i]) {
        if i > 0 {
          assert old(CellIs(i - 1, r.freed[i - 1]));
          assert free + PTR_BYTES * i == was + PTR_BYTES * (i - 1);
        }
      }
    }

    /** initblk, and the first chunk (lines 353-365, 456-462). */
    method Init(tid: nat, bin: nat, binsize: nat) returns (hdr: nat)
      modifies this`small, this`tid, this`binndx, this`restcnt, this`freecnt, this`cnt, this`rest, this`free, this`size
      ensures Reps(FirstChunk(base, tid, bin, binsize)) && hdr == base + BLK_BYTES && small
    {
      var count := (BLKSIZE - BLK_BYTES) / (binsize + PTR_BYTES);
      small, size, this.tid := true, binsize, tid;
      free := base + BLKSIZE;
      restcnt, freecnt, cnt := count, 0, count;
      rest := base + BLK_BYTES;
      binndx := bin;
      restcnt := restcnt - 1;
      hdr := rest;
      rest := rest + binsize;
    }
  }

  /** Head and tail of a doubly linked list of blocks: a bin, or the recently used big blocks. */
  class BlkList {
    var head: Blk?
    var tail: Blk?
    ghost var nodes: seq<Blk>

    /** The node at i, or null outside the list. */
    ghost function At(i: int): (n: Blk?)
      reads this
    {
      if 0 <= i < |nodes| then nodes[i] else null
    }

    ghost predicate NodeOk(i: nat)
      requires i < |nodes|
      reads this, nodes`prev, nodes`next
    {
      nodes[i].prev == At(i - 1) && nodes[i].next == At(i + 1)
    }

    ghost predicate Linked()
      reads this, nodes`prev, nodes`next
    {
      && Distinct(nodes)
      && head == At(0) && tail == At(|nodes| - 1)
      && forall i :: 0 <= i < |nodes| ==> NodeOk(i)
    }

    constructor ()
      ensures Linked() && nodes == []
    {
      head, tail, nodes := null, null, [];
    }

    /** Lines 466-476. */
    method PushFront(blk: Blk)
      requires Linked() && blk !in nodes
      modifies this, blk`prev, blk`next, nodes`prev
      ensures Linked() && nodes == [blk] + old(nodes)
    {
      assert nodes != [] ==> NodeOk(0);
      var h := head;
      blk.prev := null;
      blk.next := h;
      if h != null {
        h.prev := blk;
      }
      head := blk;
      if tail == null {
        tail := blk;
      }
      ghost var was := nodes;
      nodes := [blk] + nodes;
      forall i | 0 <= i < |nodes| ensures NodeOk(i) {
        if i > 0 {
          assert nodes[i] == was[i - 1] && old(NodeOk(i - 1));
        }
      }
    }

    /** Lines 290-305 and 507-522. */
    method Remove(blk: Blk, ghost k: nat)
      requires Linked() && k < |nodes| && nodes[k] == blk
      modifies this, nodes`prev, nodes`next
      ensures Linked() && nodes == Without(old(nodes), k)
    {
      assert NodeOk(k);
      var p, n := blk.prev, blk.next;
      if p != null {
        p.next := n;
      } else {
        head := n;
      }
      if n != null {
        n.prev := p;
      } else {
        tail := p;
      }
      ghost var was := nodes;
      WithoutKeeps(nodes, k);
      nodes := Without(nodes, k);
      forall i | 0 <= i < |nodes| ensures NodeOk(i) {
        if i < k {
          assert nodes[i] == was[i] && old(NodeOk(i));
        } else {
          assert nodes[i] == was[i + 1] && old(NodeOk(i + 1));
        }
      }
    }

    /** Lines 267-285: a block that has a predecessor goes to the head. */
    method MoveToFront(blk: Blk, ghost k: nat)
      requires Linked() && k < |nodes| && nodes[k] == blk
      modifies this, nodes`prev, nodes`next
      ensures Linked() && nodes == ToFront(old(nodes), k)
    {
      assert NodeOk(k);
      if blk.prev != null {
        WithoutKeeps(nodes, k);
        Remove(blk, k);
        PushFront(blk);
      } else {
        assert ToFront(nodes, 0) == nodes;
      }
    }

    /** Lines 429-439: the head goes to the tail, unless it is alone. */
    method HeadToTail()
      requires Linked() && nodes != []
      modifies this, nodes`prev, nodes`next
      ensures Linked() && nodes == ToTail(old(nodes))
    {
      assert NodeOk(0) && NodeOk(|nodes| - 1);
      var blk := head;
      var n := blk.next;
      if n != null {
        var t := tail;
        tail := blk;
        head := n;
        t.next := blk;
        n.prev := null;
        blk.prev := t;
        blk.next := null;
      }
      ghost var was := nodes;
      ToTailKeeps(nodes);
      nodes := ToTail(nodes);
      forall i | 0 <= i < |nodes| ensures NodeOk(i) {
        if i < |nodes| - 1 {
          assert nodes[i] == was[i + 1] && old(NodeOk(i + 1));
        }
      }
    }

    /** Lines 593-602: the tail of a list of two or more goes. */
    method DropTail() returns (t: Blk)
      requires Linked() && |nodes| >= 2
      modifies this, nodes`next
      ensures Linked() && nodes == old(nodes[..|nodes| - 1]) && t == old(nodes[|nodes| - 1])
    {
      assert NodeOk(|nodes| - 1);
      t := tail;
      tail := t.prev;
      tail.next := null;
      ghost var was := nodes;
      nodes := nodes[..|nodes| - 1];
      forall i | 0 <= i < |nodes| ensures NodeOk(i) {
        assert nodes[i] == was[i] && old(NodeOk(i));
      }
    }
  }
}
