/** Every step of the queued ticket lock keeps the invariant. */
module QLockPreservation {
  import opened Sequences
  import opened Wrappers
  import opened TicketWords
  import opened QLockModel
  import opened QLockInvariant

  // ---------------------------------------------------------------- changes outside the attached queue

  /** The owner is not a context of lock l other than t. */
  predicate NotOther(l: nat, t: nat, o: Option<Id>) {
    o.None? || o.value.lock != l || o.value.thread == t
  }

  /** Slots and reservations change only where no context of lock l but t depends on them. */
  ghost predicate SlotsFramed(l: nat, t: nat, h: History, slots: seq<Slot>, owner: seq<Option<Id>>,
                              slots': seq<Slot>, owner': seq<Option<Id>>)
    requires |slots| == |owner| == |slots'| == |owner'| == NQUEUES
  {
    forall j: SlotIx :: Untouched(l, t, h, slots[j], owner[j], slots'[j], owner'[j], j)
  }

  predicate Untouched(l: nat, t: nat, h: History, sl: Slot, o: Option<Id>, sl': Slot, o': Option<Id>, j: SlotIx) {
    || (sl' == sl && o' == o)
    || (NotOther(l, t, o) && NotOther(l, t, o')
        && sl.ref != Bound(l) && sl'.ref != Bound(l) && !(Attached(h.phase) && h.phase.slot == j))
  }

  lemma CtxFramed(l: nat, t: nat, u: nat, c: Ctx, h: History, slots: seq<Slot>, owner: seq<Option<Id>>,
                  slots': seq<Slot>, owner': seq<Option<Id>>)
    requires |slots| == |owner| == |slots'| == |owner'| == NQUEUES
    requires CtxOk(Id(l, u), c, h, slots, owner) && u != t
    requires SlotsFramed(l, t, h, slots, owner, slots', owner')
    ensures CtxOk(Id(l, u), c, h, slots', owner')
  {
    if !c.pc.Idle? && !c.pc.Spin? && !c.pc.Critical? {
      var j := c.pc.slot;
      assert Untouched(l, t, h, slots[j], owner[j], slots'[j], owner'[j], j);
    }
  }

  /** What the token's context must satisfy after it moved, see QueueToken. */
  ghost predicate TokenMoves(l: nat, k: Lock, h: History, sl: Slot, c: Ctx, c': Ctx) {
    && (if sl.headTkt == -1 then
          Dequeuing(c'.pc) || c'.pc.Critical? || Waker(c'.pc) || (c'.pc.Await? && c'.granted)
        else (Waker(c'.pc) <==> Waker(c.pc)) && !InQueue(c'.pc) && !c'.pc.Enqueue?)
    && (c'.pc.WakeHead? || c'.pc.WakeReset? || c'.pc.WakeGrant? ==>
          |h.q| > 0 && c'.pc.w == Id(l, h.q[0]) && h.q[0] < |k.ctx| && k.ctx[h.q[0]].pc.Await?)
  }

  lemma CountingMoved(k: Lock, h: History, t: nat, c': Ctx)
    requires Counting(k, h) && t < |k.ctx|
    requires Outstanding(c'.pc) == Outstanding(k.ctx[t].pc) && InQueue(c'.pc) == InQueue(k.ctx[t].pc)
    ensures Counting(k.(ctx := k.ctx[t := c']), h)
  {
  }

  lemma TokenMoved(l: nat, k: Lock, h: History, slots: seq<Slot>, slots': seq<Slot>, t: nat, c': Ctx)
    requires |slots| == |slots'| == NQUEUES && t < |k.ctx|
    requires Counting(k, h) && Token(l, k, h, slots)
    requires c'.tkt == k.ctx[t].tkt && !InQueue(k.ctx[t].pc) && !InQueue(c'.pc)
    requires Attached(h.phase) ==> slots'[h.phase.slot] == slots[h.phase.slot]
    requires Attached(h.phase) && h.token == Some(t) ==> TokenMoves(l, k, h, slots[h.phase.slot], k.ctx[t], c')
    ensures Token(l, k.(ctx := k.ctx[t := c']), h, slots')
  {
    var k' := k.(ctx := k.ctx[t := c']);
    assert Aligned(k, h.line) ==> Aligned(k', h.line);
    if Attached(h.phase) && h.token != Some(t) {
      assert |h.q| > 0 && h.q[0] < |k.ctx| && k.ctx[h.q[0]].pc.Await? ==> h.q[0] != t;
    }
  }

  lemma ShapeMoved(l: nat, k: Lock, q: seq<nat>, i: SlotIx, sl: Slot, t: nat, c': Ctx)
    requires Within(q, |k.ctx|) && Shape(l, k, q, i, sl) && t < |k.ctx| && t !in q
    ensures Within(q, |k.ctx|) && Shape(l, k.(ctx := k.ctx[t := c']), q, i, sl)
  {
    var k' := k.(ctx := k.ctx[t := c']);
    assert forall n :: 0 <= n < |q| ==> k'.ctx[q[n]] == k.ctx[q[n]];
    assert forall n :: 0 <= n < |q| ==> LinkTo(l, k', q, n) == LinkTo(l, k, q, n);
  }

  /** A context without an element moves on, and writes at most to a slot that nobody else depends on. */
  lemma Move(l: nat, k: Lock, h: History, slots: seq<Slot>, owner: seq<Option<Id>>,
             t: nat, c': Ctx, slots': seq<Slot>, owner': seq<Option<Id>>)
    requires |slots| == |owner| == |slots'| == |owner'| == NQUEUES && t < |k.ctx|
    requires LockInv(l, k, h, slots, owner)
    requires c'.tkt == k.ctx[t].tkt && Outstanding(c'.pc) == Outstanding(k.ctx[t].pc)
    requires !InQueue(k.ctx[t].pc) && !InQueue(c'.pc) && !k.ctx[t].pc.Publish? && !k.ctx[t].pc.UnqClear?
    requires SlotsFramed(l, t, h, slots, owner, slots', owner')
    requires CtxOk(Id(l, t), c', h, slots', owner')
    requires Attached(h.phase) && h.token == Some(t) ==> TokenMoves(l, k, h, slots[h.phase.slot], k.ctx[t], c')
    ensures LockInv(l, k.(ctx := k.ctx[t := c']), h, slots', owner')
  {
    var k' := k.(ctx := k.ctx[t := c']);
    CountingMoved(k, h, t, c');
    if Attached(h.phase) {
      var j := h.phase.slot;
      assert Untouched(l, t, h, slots[j], owner[j], slots'[j], owner'[j], j);
    }
    TokenMoved(l, k, h, slots, slots', t, c');
    forall u | 0 <= u < |k'.ctx| ensures CtxOk(Id(l, u), k'.ctx[u], h, slots', owner') {
      if u != t { CtxFramed(l, t, u, k.ctx[u], h, slots, owner, slots', owner'); }
    }
    assert Refs(l, k', h, slots') by {
      assert forall j: SlotIx :: Untouched(l, t, h, slots[j], owner[j], slots'[j], owner'[j], j)
                                 ==> (slots'[j].ref == Bound(l) <==> slots[j].ref == Bound(l));
    }
    if Attached(h.phase) {
      ShapeMoved(l, k, h.q, h.phase.slot, slots[h.phase.slot], t, c');
    }
  }

  /** The same for a step that only reads. */
  lemma MoveLocal(l: nat, k: Lock, h: History, slots: seq<Slot>, owner: seq<Option<Id>>, t: nat, c': Ctx)
    requires |slots| == |owner| == NQUEUES && t < |k.ctx|
    requires LockInv(l, k, h, slots, owner)
    requires c'.tkt == k.ctx[t].tkt && Outstanding(c'.pc) == Outstanding(k.ctx[t].pc)
    requires !InQueue(k.ctx[t].pc) && !InQueue(c'.pc) && !k.ctx[t].pc.Publish? && !k.ctx[t].pc.UnqClear?
    requires CtxOk(Id(l, t), c', h, slots, owner)
    requires Attached(h.phase) && h.token == Some(t) ==> TokenMoves(l, k, h, slots[h.phase.slot], k.ctx[t], c')
    ensures LockInv(l, k.(ctx := k.ctx[t := c']), h, slots, owner)
  {
    Move(l, k, h, slots, owner, t, c', slots, owner);
  }

  /** A step on another lock, which touches no slot that this lock depends on. */
  lemma OtherLock(l: nat, k: Lock, h: History, slots: seq<Slot>, owner: seq<Option<Id>>,
                  slots': seq<Slot>, owner': seq<Option<Id>>)
    requires |slots| == |owner| == |slots'| == |owner'| == NQUEUES
    requires LockInv(l, k, h, slots, owner)
    requires SlotsFramed(l, |k.ctx|, h, slots, owner, slots', owner')
    ensures LockInv(l, k, h, slots', owner')
  {
    if Attached(h.phase) {
      var j := h.phase.slot;
      assert Untouched(l, |k.ctx|, h, slots[j], owner[j], slots'[j], owner'[j], j);
    }
    forall u | 0 <= u < |k.ctx| ensures CtxOk(Id(l, u), k.ctx[u], h, slots', owner') {
      CtxFramed(l, |k.ctx|, u, k.ctx[u], h, slots, owner, slots', owner');
    }
    assert Refs(l, k, h, slots') by {
      assert forall j: SlotIx :: Untouched(l, |k.ctx|, h, slots[j], owner[j], slots'[j], owner'[j], j)
                                 ==> (slots'[j].ref == Bound(l) <==> slots[j].ref == Bound(l));
    }
  }

  // ---------------------------------------------------------------- tickets

  /** In ticket mode only the context at the front of the line sees its own ticket in the head word. */
  lemma HeadMatches(l: nat, k: Lock, h: History, slots: seq<Slot>, t: nat)
    requires |slots| == NQUEUES && t < |k.ctx|
    requires Counting(k, h) && Token(l, k, h, slots) && !Attached(h.phase) && t in h.line
    ensures k.ctx[t].tkt == k.head <==> h.token == Some(t)
  {
    LineBound(h.line, |k.ctx|);
    var j :| 0 <= j < |h.line| && h.line[j] == t;
    WrapInjective(k.head, 0, j);
  }

  // ---------------------------------------------------------------- reads that only move the program counter

  /** The reads of a context that waits and has no queue element. */
  predicate WaitRead(pc: PC) {
    pc.Spin? || pc.Find? || pc.ClaimRead? || pc.ClaimBit? || pc.InitRead?
  }

  /** Where such a read may lead. */
  predicate WaitTarget(l: nat, k: Lock, slots: seq<Slot>, c: Ctx, c': Ctx)
    requires |slots| == NQUEUES
  {
    && c'.tkt == c.tkt
    && (|| c'.pc.Spin? || c'.pc.ClaimRead? || c'.pc.ClaimCas? || c'.pc.ClaimBit?
        || (c'.pc.Find? && (Odd(k.head) || c.pc.Find?))
        || (c'.pc.Critical? && k.head == c.tkt)
        || (c.pc.Find? && c'.pc.HeadCheck? && slots[c'.pc.slot].ref == Bound(l) && c'.next == None && !c'.granted)
        || (c.pc.InitRead? && c'.pc == BackOut(c.pc.slot) && Odd(k.head))
        || (c.pc.InitRead? && c'.pc == InitHead(c.pc.slot, k.head, k.tail) && !Odd(k.head)))
  }

  lemma WaitReadCtx(l: nat, k: Lock, h: History, slots: seq<Slot>, owner: seq<Option<Id>>, t: nat, c: Ctx, c': Ctx)
    requires |slots| == |owner| == NQUEUES
    requires WaitRead(c.pc) && WaitTarget(l, k, slots, c, c') && CtxOk(Id(l, t), c, h, slots, owner)
    requires forall i: SlotIx :: slots[i].ref == Bound(l) <==> BoundSlot(h.phase) == Some(i)
    requires 0 <= k.head && (Odd(k.head) <==> Attached(h.phase))
    requires Attached(h.phase) || k.head != c.tkt || h.token == Some(t)
    ensures CtxOk(Id(l, t), c', h, slots, owner)
  {
  }

  lemma WaitReadToken(l: nat, k: Lock, h: History, slots: seq<Slot>, t: nat, c': Ctx)
    requires |slots| == NQUEUES && t < |k.ctx|
    requires WaitRead(k.ctx[t].pc) && WaitTarget(l, k, slots, k.ctx[t], c')
    requires Attached(h.phase) && QueueToken(l, k, h, slots[h.phase.slot]) && h.token == Some(t)
    ensures TokenMoves(l, k, h, slots[h.phase.slot], k.ctx[t], c')
  {
  }

  lemma WaitReadClass(l: nat, k: Lock, slots: seq<Slot>, c: Ctx, c': Ctx)
    requires |slots| == NQUEUES && WaitRead(c.pc) && WaitTarget(l, k, slots, c, c')
    ensures Outstanding(c.pc) && Outstanding(c'.pc) && !InQueue(c.pc) && !InQueue(c'.pc)
  {
  }

  lemma KeepWaitRead(l: nat, k: Lock, h: History, slots: seq<Slot>, owner: seq<Option<Id>>, t: nat, c': Ctx)
    requires |slots| == |owner| == NQUEUES && t < |k.ctx| && LockInv(l, k, h, slots, owner)
    requires WaitRead(k.ctx[t].pc) && WaitTarget(l, k, slots, k.ctx[t], c')
    ensures LockInv(l, k.(ctx := k.ctx[t := c']), h, slots, owner)
  {
    assert CtxOk(Id(l, t), k.ctx[t], h, slots, owner);
    if !Attached(h.phase) { HeadMatches(l, k, h, slots, t); }
    WaitReadClass(l, k, slots, k.ctx[t], c');
    WaitReadCtx(l, k, h, slots, owner, t, k.ctx[t], c');
    if Attached(h.phase) && h.token == Some(t) { WaitReadToken(l, k, h, slots, t, c'); }
    MoveLocal(l, k, h, slots, owner, t, c');
  }

  /** A compare-exchange of a waiting context that failed. */
  predicate RetryTarget(c: Ctx, c': Ctx) {
    || (c.pc.ClaimCas? && c' == c.(pc := ClaimBit(c.pc.slot)))
    || (c.pc.InitCas? && c' == c.(pc := InitRead(c.pc.slot)))
  }

  lemma RetryCtx(l: nat, k: Lock, h: History, slots: seq<Slot>, owner: seq<Option<Id>>, t: nat, c: Ctx, c': Ctx)
    requires |slots| == |owner| == NQUEUES && CtxOk(Id(l, t), c, h, slots, owner) && RetryTarget(c, c')
    ensures CtxOk(Id(l, t), c', h, slots, owner)
    ensures c'.tkt == c.tkt && Outstanding(c.pc) && Outstanding(c'.pc) && !InQueue(c.pc) && !InQueue(c'.pc)
  {
  }

  lemma RetryToken(l: nat, k: Lock, h: History, slots: seq<Slot>, t: nat, c': Ctx)
    requires |slots| == NQUEUES && t < |k.ctx| && RetryTarget(k.ctx[t], c')
    requires Attached(h.phase) && QueueToken(l, k, h, slots[h.phase.slot]) && h.token == Some(t)
    ensures TokenMoves(l, k, h, slots[h.phase.slot], k.ctx[t], c')
  {
  }

  lemma KeepRetry(l: nat, k: Lock, h: History, slots: seq<Slot>, owner: seq<Option<Id>>, t: nat, c': Ctx)
    requires |slots| == |owner| == NQUEUES && t < |k.ctx| && LockInv(l, k, h, slots, owner)
    requires RetryTarget(k.ctx[t], c')
    ensures LockInv(l, k.(ctx := k.ctx[t := c']), h, slots, owner)
  {
    assert CtxOk(Id(l, t), k.ctx[t], h, slots, owner);
    RetryCtx(l, k, h, slots, owner, t, k.ctx[t], c');
    if Attached(h.phase) && h.token == Some(t) { RetryToken(l, k, h, slots, t, c'); }
    MoveLocal(l, k, h, slots, owner, t, c');
  }

  /** The reads of a releaser in tkt_q_do_wake, and its failed compare-exchange. */
  predicate WakeRead(pc: PC) {
    pc.WakeFind? || pc.WakeSpin? || pc.UnqRead? || pc.UnqCas? || pc.WakeHead?
  }

  predicate WakeTarget(l: nat, k: Lock, slots: seq<Slot>, c: Ctx, c': Ctx)
    requires |slots| == NQUEUES
  {
    && c'.tkt == c.tkt
    && (if c.pc.WakeFind? then
          c'.pc.WakeFind? || (c'.pc.WakeSpin? && slots[c'.pc.slot].ref == Bound(l))
        else
          && WakeRead(c.pc)
          && (|| c'.pc == WakeSpin(c.pc.slot)
              || c'.pc == UnqRead(c.pc.slot)
              || (c'.pc == UnqCas(c.pc.slot, k.head, k.tail) && Even(k.head) == k.tail)
              || (c.pc.WakeSpin? && c'.pc.WakeHead? && c'.pc.slot == c.pc.slot
                  && slots[c.pc.slot].spin == Some(c'.pc.w))
              || (c.pc.WakeHead? && c'.pc == WakeReset(c.pc.slot, c.pc.w))
              || (c.pc.WakeHead? && c'.pc == WakeGrant(c.pc.slot, c.pc.w) && slots[c.pc.slot].headTkt == -1)))
  }

  lemma WakeReadCtx(l: nat, k: Lock, h: History, slots: seq<Slot>, owner: seq<Option<Id>>, t: nat, c: Ctx, c': Ctx)
    requires |slots| == |owner| == NQUEUES
    requires WakeTarget(l, k, slots, c, c') && CtxOk(Id(l, t), c, h, slots, owner)
    requires forall i: SlotIx :: slots[i].ref == Bound(l) <==> BoundSlot(h.phase) == Some(i)
    requires 0 <= k.head && (Odd(k.head) <==> Attached(h.phase))
    ensures CtxOk(Id(l, t), c', h, slots, owner)
    ensures Waker(c.pc) && Waker(c'.pc)
  {
  }

  /** A releaser that finds an element in `spin` finds the front of the queue, waiting. */
  lemma SpinIsFront(l: nat, k: Lock, h: History, slots: seq<Slot>, owner: seq<Option<Id>>, t: nat)
    requires |slots| == |owner| == NQUEUES && t < |k.ctx| && LockInv(l, k, h, slots, owner)
    requires Waker(k.ctx[t].pc) && h.token == Some(t) && h.phase.Queued?
    ensures h.q == [] ==> slots[h.phase.slot].spin == None
    ensures h.q != [] ==> h.q[0] < |k.ctx|
    ensures h.q != [] && k.ctx[h.q[0]].pc.Link? ==> slots[h.phase.slot].spin == None
    ensures h.q != [] && !k.ctx[h.q[0]].pc.Link? ==>
              k.ctx[h.q[0]].pc.Await? && slots[h.phase.slot].spin == Some(Id(l, h.q[0]))
  {
    if h.q != [] {
      var u := h.q[0];
      assert u in h.q;
      assert CtxOk(Id(l, u), k.ctx[u], h, slots, owner);
    }
  }

  lemma WakeReadToken(l: nat, k: Lock, h: History, slots: seq<Slot>, t: nat, c': Ctx)
    requires |slots| == NQUEUES && t < |k.ctx| && WakeTarget(l, k, slots, k.ctx[t], c')
    requires Attached(h.phase) && QueueToken(l, k, h, slots[h.phase.slot]) && h.token == Some(t)
    requires c'.pc.WakeHead? ==>
               |h.q| > 0 && c'.pc.w == Id(l, h.q[0]) && h.q[0] < |k.ctx| && k.ctx[h.q[0]].pc.Await?
    ensures TokenMoves(l, k, h, slots[h.phase.slot], k.ctx[t], c')
  {
  }

  lemma KeepWakeRead(l: nat, k: Lock, h: History, slots: seq<Slot>, owner: seq<Option<Id>>, t: nat, c': Ctx)
    requires |slots| == |owner| == NQUEUES && t < |k.ctx| && LockInv(l, k, h, slots, owner)
    requires WakeTarget(l, k, slots, k.ctx[t], c')
    ensures LockInv(l, k.(ctx := k.ctx[t := c']), h, slots, owner)
  {
    assert CtxOk(Id(l, t), k.ctx[t], h, slots, owner);
    WakeReadCtx(l, k, h, slots, owner, t, k.ctx[t], c');
    if h.phase.Queued? { SpinIsFront(l, k, h, slots, owner, t); }
    WakeReadToken(l, k, h, slots, t, c');
    MoveLocal(l, k, h, slots, owner, t, c');
  }

  lemma LineBoundWith(line: seq<nat>, w: nat, n: nat)
    requires Distinct(line) && Within(line, n) && w !in line && w < n
    ensures |line| + 1 <= n
  {
    LineBound(line + [w], n);
  }

  /** Line 184 tells exactly the token's owner from the others. */
  lemma HeadTicketMatches(l: nat, k: Lock, h: History, slots: seq<Slot>, t: nat)
    requires |slots| == NQUEUES && t < |k.ctx| && Counting(k, h) && Attached(h.phase)
    requires QueueToken(l, k, h, slots[h.phase.slot]) && t in h.line
    requires 0 <= k.ctx[t].tkt
    ensures slots[h.phase.slot].headTkt == k.ctx[t].tkt ==> h.token == Some(t)
    ensures k.ctx[t].pc.HeadCheck? && h.token == Some(t) ==> slots[h.phase.slot].headTkt == k.ctx[t].tkt
  {
    var headTkt := slots[h.phase.slot].headTkt;
    if headTkt != -1 {
      var j :| 0 <= j < |h.line| && h.line[j] == t;
      var w := h.token.value;
      if Waker(k.ctx[w].pc) {
        assert w !in h.line;
        LineBoundWith(h.line, w, |k.ctx|);
        WrapInjective(Even(k.head) - 2, 0, j + 1);
      } else {
        LineBound(h.line, |k.ctx|);
        WrapInjective(Even(k.head), 0, j);
      }
    }
  }

  predicate HeadCheckTarget(sl: Slot, c: Ctx, c': Ctx) {
    c.pc.HeadCheck? && c' == c.(pc := if sl.headTkt == c.tkt then HeadTake(c.pc.slot) else Enqueue(c.pc.slot))
  }

  lemma HeadCheckCtx(l: nat, h: History, slots: seq<Slot>, owner: seq<Option<Id>>, t: nat, c: Ctx, c': Ctx)
    requires |slots| == |owner| == NQUEUES && Attached(h.phase) && CtxOk(Id(l, t), c, h, slots, owner)
    requires HeadCheckTarget(slots[h.phase.slot], c, c')
    requires slots[h.phase.slot].headTkt == c.tkt <==> h.token == Some(t)
    ensures CtxOk(Id(l, t), c', h, slots, owner)
  {
  }

  lemma HeadCheckToken(l: nat, k: Lock, h: History, slots: seq<Slot>, t: nat, c': Ctx)
    requires |slots| == NQUEUES && t < |k.ctx|
    requires Attached(h.phase) && HeadCheckTarget(slots[h.phase.slot], k.ctx[t], c')
    requires QueueToken(l, k, h, slots[h.phase.slot]) && h.token == Some(t)
    requires slots[h.phase.slot].headTkt == k.ctx[t].tkt
    ensures TokenMoves(l, k, h, slots[h.phase.slot], k.ctx[t], c')
  {
  }

  lemma KeepHeadCheck(l: nat, k: Lock, h: History, slots: seq<Slot>, owner: seq<Option<Id>>, t: nat, c': Ctx)
    requires |slots| == |owner| == NQUEUES && t < |k.ctx| && LockInv(l, k, h, slots, owner)
    requires k.ctx[t].pc.HeadCheck? && HeadCheckTarget(slots[k.ctx[t].pc.slot], k.ctx[t], c')
    ensures LockInv(l, k.(ctx := k.ctx[t := c']), h, slots, owner)
  {
    assert CtxOk(Id(l, t), k.ctx[t], h, slots, owner);
    HeadTicketMatches(l, k, h, slots, t);
    HeadCheckCtx(l, h, slots, owner, t, k.ctx[t], c');
    if h.token == Some(t) { HeadCheckToken(l, k, h, slots, t, c'); }
    MoveLocal(l, k, h, slots, owner, t, c');
  }
}
