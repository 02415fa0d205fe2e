/** The dequeue in its three scenarios and the hand-off of the lock keep the invariant. */
module QLockHandOff {
  import opened Sequences
  import opened Wrappers
  import opened TicketWords
  import opened QLockModel
  import opened QLockInvariant
  import opened QLockPreservation
  import opened QLockReservation
  import opened QLockQueue

  // ---------------------------------------------------------------- lines 199-241: the front element

  predicate DequeueTarget(id: Id, c: Ctx, c': Ctx, sl: Slot, sl': Slot) {
    || (c.pc.Await? && c.granted && c' == c.(pc := DeqNext(c.pc.slot)) && sl' == sl)
    || (c.pc.DeqNext? && c.next == None && c' == c.(pc := DeqClear(c.pc.slot)) && sl' == sl)
    || (c.pc.DeqNext? && c.next != None && c' == c.(pc := DeqAdvance(c.pc.slot)) && sl' == sl)
    || (c.pc.DeqClear? && c' == c.(pc := DeqCas(c.pc.slot)) && sl' == sl.(spin := None))
    || (c.pc.DeqCas? && sl.spinTail != NextCell(id) && c' == c.(pc := DeqWait(c.pc.slot)) && sl' == sl)
    || (c.pc.DeqWait? && c.next != None && c' == c.(pc := DeqAdvance(c.pc.slot)) && sl' == sl)
  }

  /** A granted or dequeuing context is at the front. */
  lemma FrontIs(k: Lock, h: History, t: nat)
    requires Counting(k, h) && Waiting(k, h.q) && t < |k.ctx|
    requires InQueue(k.ctx[t].pc) && !Waits(k.ctx[t])
    ensures |h.q| > 0 && h.q[0] == t
  {
    var n := Position(k, h, t);
  }

  lemma DequeueCtx(id: Id, c: Ctx, c': Ctx, h: History, slots: seq<Slot>, owner: seq<Option<Id>>, i: SlotIx, sl': Slot)
    requires |slots| == |owner| == NQUEUES && CtxOk(id, c, h, slots, owner)
    requires DequeueTarget(id, c, c', slots[i], sl') && i == c.pc.slot
    ensures CtxOk(id, c', h, slots[i := sl'], owner)
    ensures h.token == Some(id.thread) && h.phase == Queued(i)
  {
  }

  lemma DequeueClass(id: Id, c: Ctx, c': Ctx, sl: Slot, sl': Slot)
    requires DequeueTarget(id, c, c', sl, sl')
    ensures InQueue(c.pc) && InQueue(c'.pc) && !Waits(c) && Outstanding(c.pc) && Outstanding(c'.pc)
    ensures sl'.ref == sl.ref && sl'.headTkt == sl.headTkt
  {
  }

  lemma DequeueToken(l: nat, k: Lock, h: History, t: nat, c': Ctx, sl: Slot, sl': Slot)
    requires t < |k.ctx| && DequeueTarget(Id(l, t), k.ctx[t], c', sl, sl')
    requires QueueToken(l, k, h, sl) && h.token == Some(t)
    ensures QueueToken(l, k.(ctx := k.ctx[t := c']), h, sl')
  {
  }

  lemma DequeueShape(l: nat, k: Lock, q: seq<nat>, i: SlotIx, t: nat, c': Ctx, sl: Slot, sl': Slot)
    requires Within(q, |k.ctx|) && Distinct(q) && Shape(l, k, q, i, sl) && |q| > 0 && q[0] == t
    requires DequeueTarget(Id(l, t), k.ctx[t], c', sl, sl')
    ensures Shape(l, k.(ctx := k.ctx[t := c']), q, i, sl')
  {
    var k' := k.(ctx := k.ctx[t := c']);
    assert forall n :: 1 <= n < |q| ==> q[n] != t && k'.ctx[q[n]] == k.ctx[q[n]];
    assert forall n :: 0 <= n < |q| ==> LinkTo(l, k', q, n) == LinkTo(l, k, q, n);
    assert PendingLinks(l, k', q, i) && Waiting(k', q);
  }

  lemma DequeueCtxs(l: nat, k: Lock, h: History, slots: seq<Slot>, owner: seq<Option<Id>>, t: nat, c': Ctx, i: SlotIx,
                    sl': Slot)
    requires |slots| == |owner| == NQUEUES && t < |k.ctx| && owner[i] == None
    requires forall u :: 0 <= u < |k.ctx| ==> CtxOk(Id(l, u), k.ctx[u], h, slots, owner)
    requires DequeueTarget(Id(l, t), k.ctx[t], c', slots[i], sl') && i == k.ctx[t].pc.slot
    ensures forall u :: 0 <= u < |k.ctx| ==> CtxOk(Id(l, u), k.ctx[t := c'][u], h, slots[i := sl'], owner)
  {
    OthersOk(l, k, h, slots, owner, t, i, sl');
    DequeueCtx(Id(l, t), k.ctx[t], c', h, slots, owner, i, sl');
  }

  lemma KeepDequeue(l: nat, k: Lock, h: History, slots: seq<Slot>, owner: seq<Option<Id>>, t: nat, c': Ctx, i: SlotIx,
                    sl': Slot)
    requires |slots| == |owner| == NQUEUES && t < |k.ctx| && Consistent(slots, owner)
    requires LockInv(l, k, h, slots, owner)
    requires DequeueTarget(Id(l, t), k.ctx[t], c', slots[i], sl') && i == k.ctx[t].pc.slot
    ensures LockInv(l, k.(ctx := k.ctx[t := c']), h, slots[i := sl'], owner)
  {
    assert CtxOk(Id(l, t), k.ctx[t], h, slots, owner);
    DequeueClass(Id(l, t), k.ctx[t], c', slots[i], sl');
    DequeueCtx(Id(l, t), k.ctx[t], c', h, slots, owner, i, sl');
    BoundHasNoOwner(l, k, h, slots, owner);
    FrontIs(k, h, t);
    CountingMoved(k, h, t, c');
    RefsMoved(l, k, h, slots, t, c', i, sl');
    DequeueToken(l, k, h, t, c', slots[i], sl');
    DequeueShape(l, k, h.q, i, t, c', slots[i], sl');
    DequeueCtxs(l, k, h, slots, owner, t, c', i, sl');
  }

  // ---------------------------------------------------------------- lines 238 and 253: leaving the queue

  predicate LeaveTarget(id: Id, c: Ctx, c': Ctx, sl: Slot, sl': Slot) {
    && c' == c.(pc := Critical)
    && (|| (c.pc.DeqCas? && sl.spinTail == NextCell(id) && sl' == sl.(spinTail := SpinCell(c.pc.slot)))
        || (c.pc.DeqAdvance? && sl' == sl.(spin := c.next)))
  }

  lemma LeaveCounting(k: Lock, h: History, t: nat, c': Ctx)
    requires Counting(k, h) && t < |k.ctx| && Dequeuing(k.ctx[t].pc) && c'.pc.Critical?
    requires |h.q| > 0 && h.q[0] == t
    ensures Counting(k.(ctx := k.ctx[t := c']), h.(q := h.q[1..]))
  {
    assert forall u :: u in h.q[1..] <==> u in h.q && u != t;
  }

  lemma LeaveCtx(id: Id, c: Ctx, c': Ctx, h: History, slots: seq<Slot>, owner: seq<Option<Id>>, i: SlotIx, sl': Slot)
    requires |slots| == |owner| == NQUEUES && CtxOk(id, c, h, slots, owner)
    requires LeaveTarget(id, c, c', slots[i], sl') && i == c.pc.slot
    ensures CtxOk(id, c', h.(q := Behind(h.q)), slots[i := sl'], owner)
    ensures h.token == Some(id.thread) && h.phase == Queued(i)
  {
  }

  lemma LeaveToken(l: nat, k: Lock, h: History, t: nat, c': Ctx, sl: Slot, sl': Slot)
    requires t < |k.ctx| && LeaveTarget(Id(l, t), k.ctx[t], c', sl, sl')
    requires QueueToken(l, k, h, sl) && h.token == Some(t)
    ensures QueueToken(l, k.(ctx := k.ctx[t := c']), h.(q := Behind(h.q)), sl')
  {
  }

  /** Scenario 1: the compare-exchange succeeds only for the last element, which is also the first. */
  lemma LeaveEmpty(l: nat, k: Lock, q: seq<nat>, i: SlotIx, t: nat, c': Ctx, sl: Slot, sl': Slot)
    requires Within(q, |k.ctx|) && Distinct(q) && Shape(l, k, q, i, sl) && |q| > 0 && q[0] == t
    requires LeaveTarget(Id(l, t), k.ctx[t], c', sl, sl') && k.ctx[t].pc.DeqCas? && k.ctx[t].pc.slot == i
    ensures q[1..] == [] && Within(q[1..], |k.ctx|) && Shape(l, k.(ctx := k.ctx[t := c']), q[1..], i, sl')
  {
  }

  /** r is q without its front, and k' differs from k in no element of r. */
  predicate Follow(k: Lock, q: seq<nat>, k': Lock, r: seq<nat>)
    requires Within(q, |k.ctx|)
  {
    |q| > 0 && |k'.ctx| == |k.ctx| && |r| == |q| - 1 && forall n :: 0 <= n < |r| ==>
        r[n] == q[n + 1] && k'.ctx[r[n]] == k.ctx[q[n + 1]]
  }

  lemma FollowLinks(l: nat, k: Lock, q: seq<nat>, k': Lock, r: seq<nat>)
    requires Within(q, |k.ctx|) && Follow(k, q, k', r) && Links(l, k, q)
    ensures Within(r, |k'.ctx|) && Links(l, k', r)
  {
    forall n | 0 <= n < |r| ensures k'.ctx[r[n]].next == LinkTo(l, k', r, n) {
      assert LinkTo(l, k', r, n) == LinkTo(l, k, q, n + 1);
    }
  }

  lemma FollowPending(l: nat, k: Lock, q: seq<nat>, i: SlotIx, k': Lock, r: seq<nat>)
    requires Within(q, |k.ctx|) && Follow(k, q, k', r) && PendingLinks(l, k, q, i) && Waiting(k, q)
    requires !(|r| > 0 && k'.ctx[r[0]].pc.Link?)
    ensures Within(r, |k'.ctx|) && PendingLinks(l, k', r, i) && Waiting(k', r)
  {
    forall n | 0 <= n < |r| && k'.ctx[r[n]].pc.Link? ensures k'.ctx[r[n]].pc.pred == CellBefore(l, r, i, n) {
      assert k.ctx[q[n + 1]].pc.pred == CellBefore(l, q, i, n + 1);
      assert CellBefore(l, r, i, n) == CellBefore(l, q, i, n + 1);
    }
  }

  /** Scenarios 2 and 3: the successor is linked and becomes the front. */
  lemma LeaveNext(l: nat, k: Lock, q: seq<nat>, i: SlotIx, t: nat, c': Ctx, sl: Slot, sl': Slot)
    requires Within(q, |k.ctx|) && Distinct(q) && Shape(l, k, q, i, sl) && |q| > 0 && q[0] == t
    requires LeaveTarget(Id(l, t), k.ctx[t], c', sl, sl') && k.ctx[t].pc.DeqAdvance?
    ensures Within(q[1..], |k.ctx|) && Shape(l, k.(ctx := k.ctx[t := c']), q[1..], i, sl')
  {
    var k', r := k.(ctx := k.ctx[t := c']), q[1..];
    assert LinkTo(l, k, q, 0) == Some(Id(l, q[1])) && Waits(k.ctx[q[1]]);
    assert forall n :: 0 <= n < |r| ==> r[n] == q[n + 1] && r[n] != t && k'.ctx[r[n]] == k.ctx[q[n + 1]];
    FollowLinks(l, k, q, k', r);
    FollowPending(l, k, q, i, k', r);
    assert CellBefore(l, r, i, |r|) == CellBefore(l, q, i, |q|);
  }

  lemma LeaveCtxs(l: nat, k: Lock, h: History, slots: seq<Slot>, owner: seq<Option<Id>>, t: nat, c': Ctx, i: SlotIx,
                  sl': Slot)
    requires |slots| == |owner| == NQUEUES && t < |k.ctx| && owner[i] == None
    requires forall u :: 0 <= u < |k.ctx| ==> CtxOk(Id(l, u), k.ctx[u], h, slots, owner)
    requires LeaveTarget(Id(l, t), k.ctx[t], c', slots[i], sl') && i == k.ctx[t].pc.slot
    ensures forall u :: 0 <= u < |k.ctx| ==>
              CtxOk(Id(l, u), k.ctx[t := c'][u], h.(q := Behind(h.q)), slots[i := sl'], owner)
  {
    OthersOk(l, k, h, slots, owner, t, i, sl');
    LeaveCtx(Id(l, t), k.ctx[t], c', h, slots, owner, i, sl');
    forall u | 0 <= u < |k.ctx| && u != t
      ensures CtxOk(Id(l, u), k.ctx[u], h.(q := Behind(h.q)), slots[i := sl'], owner)
    {
      CtxIgnoresQueue(Id(l, u), k.ctx[u], h, Behind(h.q), slots[i := sl'], owner);
    }
  }

  lemma KeepLeave(l: nat, k: Lock, h: History, slots: seq<Slot>, owner: seq<Option<Id>>, t: nat, c': Ctx, i: SlotIx,
                  sl': Slot)
    requires |slots| == |owner| == NQUEUES && t < |k.ctx| && Consistent(slots, owner)
    requires LockInv(l, k, h, slots, owner)
    requires LeaveTarget(Id(l, t), k.ctx[t], c', slots[i], sl') && i == k.ctx[t].pc.slot
    ensures LockInv(l, k.(ctx := k.ctx[t := c']), h.(q := Behind(h.q)), slots[i := sl'], owner)
    ensures |h.q| > 0 && h.q[0] == t
  {
    assert CtxOk(Id(l, t), k.ctx[t], h, slots, owner);
    LeaveCtx(Id(l, t), k.ctx[t], c', h, slots, owner, i, sl');
    BoundHasNoOwner(l, k, h, slots, owner);
    FrontIs(k, h, t);
    LeaveCounting(k, h, t, c');
    RefsMoved(l, k, h, slots, t, c', i, sl');
    LeaveToken(l, k, h, t, c', slots[i], sl');
    if k.ctx[t].pc.DeqCas? {
      LeaveEmpty(l, k, h.q, i, t, c', slots[i], sl');
    } else {
      LeaveNext(l, k, h.q, i, t, c', slots[i], sl');
    }
    LeaveCtxs(l, k, h, slots, owner, t, c', i, sl');
  }

  // ---------------------------------------------------------------- line 153: the grant

  function Granted(k: Lock, t: nat, w: nat): Lock
    requires t < |k.ctx| && w < |k.ctx|
  {
    var k' := SetPc(k, t, Idle);
    k'.(ctx := k'.ctx[w := k'.ctx[w].(granted := true)])
  }

  lemma GrantCounting(k: Lock, h: History, t: nat, w: nat)
    requires Counting(k, h) && t < |k.ctx| && w < |k.ctx| && k.ctx[t].pc.WakeGrant?
    ensures Counting(Granted(k, t, w), h) && Counting(Granted(k, t, w), h.(token := Some(w)))
  {
    var k' := SetPc(k, t, Idle);
    CountingMoved(k, h, t, k'.ctx[t]);
    CountingMoved(k', h, w, k'.ctx[w].(granted := true));
  }

  lemma GrantCtx(l: nat, k: Lock, h: History, slots: seq<Slot>, owner: seq<Option<Id>>, t: nat, w: nat, u: nat)
    requires |slots| == |owner| == NQUEUES && t < |k.ctx| && w < |k.ctx| && u < |k.ctx|
    requires k.ctx[t].pc.WakeGrant? && k.ctx[w].pc.Await? && h.token == Some(t)
    requires CtxOk(Id(l, u), k.ctx[u], h, slots, owner)
    ensures CtxOk(Id(l, u), Granted(k, t, w).ctx[u], h.(token := Some(w)), slots, owner)
  {
  }

  lemma GrantLinks(l: nat, k: Lock, q: seq<nat>, k': Lock)
    requires Within(q, |k.ctx|) && |k'.ctx| == |k.ctx| && Links(l, k, q)
    requires forall n :: 0 <= n < |q| ==> k'.ctx[q[n]].pc == k.ctx[q[n]].pc && k'.ctx[q[n]].next == k.ctx[q[n]].next
    ensures Links(l, k', q)
  {
    assert forall n :: 0 <= n < |q| ==> LinkTo(l, k', q, n) == LinkTo(l, k, q, n);
  }

  lemma GrantPending(l: nat, k: Lock, q: seq<nat>, i: SlotIx, k': Lock)
    requires Within(q, |k.ctx|) && |k'.ctx| == |k.ctx| && PendingLinks(l, k, q, i) && Waiting(k, q)
    requires forall n :: 0 <= n < |q| ==> k'.ctx[q[n]].pc == k.ctx[q[n]].pc && (n > 0 ==> k'.ctx[q[n]] == k.ctx[q[n]])
    ensures PendingLinks(l, k', q, i) && Waiting(k', q)
  {
  }

  lemma GrantShape(l: nat, k: Lock, q: seq<nat>, i: SlotIx, sl: Slot, t: nat)
    requires Within(q, |k.ctx|) && Distinct(q) && Shape(l, k, q, i, sl) && t < |k.ctx| && t !in q
    requires |q| > 0 && k.ctx[q[0]].pc.Await?
    ensures Shape(l, Granted(k, t, q[0]), q, i, sl)
  {
    var k' := Granted(k, t, q[0]);
    assert forall n :: 0 <= n < |q| ==> q[n] in q;
    assert forall n :: 1 <= n < |q| ==> q[n] != q[0] && k'.ctx[q[n]] == k.ctx[q[n]];
    assert k'.ctx[q[0]] == k.ctx[q[0]].(granted := true);
    GrantLinks(l, k, q, k');
    GrantPending(l, k, q, i, k');
  }

  lemma GrantRefs(l: nat, k: Lock, h: History, slots: seq<Slot>, t: nat, w: nat)
    requires |slots| == NQUEUES && t < |k.ctx| && w < |k.ctx| && k.ctx[t].pc.WakeGrant? && Refs(l, k, h, slots)
    ensures Refs(l, Granted(k, t, w), h.(token := Some(w)), slots)
  {
  }

  lemma KeepGrant(l: nat, k: Lock, h: History, slots: seq<Slot>, owner: seq<Option<Id>>, t: nat)
    requires |slots| == |owner| == NQUEUES && t < |k.ctx| && LockInv(l, k, h, slots, owner) && k.ctx[t].pc.WakeGrant?
    ensures |h.q| > 0 && h.q[0] < |k.ctx| && k.ctx[t].pc.w == Id(l, h.q[0])
    ensures k.ctx[h.q[0]].pc.Await? && !k.ctx[h.q[0]].granted && h.q[0] != t
    ensures LockInv(l, Granted(k, t, h.q[0]), h.(token := Some(h.q[0])), slots, owner)
  {
    assert CtxOk(Id(l, t), k.ctx[t], h, slots, owner);
    var w := h.q[0];
    assert CtxOk(Id(l, w), k.ctx[w], h, slots, owner);
    GrantCounting(k, h, t, w);
    GrantRefs(l, k, h, slots, t, w);
    GrantShape(l, k, h.q, h.phase.slot, slots[h.phase.slot], t);
    forall u | 0 <= u < |k.ctx| ensures CtxOk(Id(l, u), Granted(k, t, w).ctx[u], h.(token := Some(w)), slots, owner) {
      GrantCtx(l, k, h, slots, owner, t, w, u);
    }
  }
}
