/** The two-stage enqueue, the hand-off, and the three scenarios of the dequeue keep the invariant. */
module QLockQueue {
  import opened Sequences
  import opened Wrappers
  import opened TicketWords
  import opened QLockModel
  import opened QLockInvariant
  import opened QLockPreservation
  import opened QLockReservation

  /** All contexts but t, when the attached slot changes but not its `head_tkt`. */
  lemma OthersOk(l: nat, k: Lock, h: History, slots: seq<Slot>, owner: seq<Option<Id>>, t: nat, i: SlotIx, sl': Slot)
    requires |slots| == |owner| == NQUEUES && t < |k.ctx| && owner[i] == None && sl'.headTkt == slots[i].headTkt
    requires forall u :: 0 <= u < |k.ctx| ==> CtxOk(Id(l, u), k.ctx[u], h, slots, owner)
    ensures forall u :: 0 <= u < |k.ctx| && u != t ==> CtxOk(Id(l, u), k.ctx[u], h, slots[i := sl'], owner)
  {
    forall u | 0 <= u < |k.ctx| && u != t ensures CtxOk(Id(l, u), k.ctx[u], h, slots[i := sl'], owner) {
      CtxBoundFramed(l, u, k.ctx[u], h, slots, owner, i, sl');
    }
  }

  // ---------------------------------------------------------------- line 195: the exchange of spin_tail

  predicate EnqueueTarget(id: Id, c: Ctx, c': Ctx, sl: Slot, sl': Slot) {
    c.pc.Enqueue? && c' == c.(pc := Link(c.pc.slot, sl.spinTail)) && sl' == sl.(spinTail := NextCell(id))
  }

  lemma EnqueueCounting(k: Lock, h: History, t: nat, c': Ctx)
    requires Counting(k, h) && t < |k.ctx| && k.ctx[t].pc.Enqueue? && c'.pc.Link? && h.phase.Queued?
    ensures t !in h.q && Counting(k.(ctx := k.ctx[t := c']), h.(q := h.q + [t]))
  {
    var q' := h.q + [t];
    assert t !in h.q;
    assert forall u :: u in q' <==> u in h.q || u == t;
  }

  lemma EnqueueLinks(l: nat, k: Lock, q: seq<nat>, i: SlotIx, t: nat, c': Ctx)
    requires Within(q, |k.ctx|) && PendingLinks(l, k, q, i) && Links(l, k, q) && t < |k.ctx| && t !in q
    requires c'.pc.Link? && c'.pc.pred == CellBefore(l, q, i, |q|) && c'.next == None
    ensures Within(q + [t], |k.ctx|)
    ensures PendingLinks(l, k.(ctx := k.ctx[t := c']), q + [t], i) && Links(l, k.(ctx := k.ctx[t := c']), q + [t])
  {
    var k', q' := k.(ctx := k.ctx[t := c']), q + [t];
    forall n | 0 <= n < |q| ensures k'.ctx[q'[n]] == k.ctx[q[n]] && LinkTo(l, k', q', n) == LinkTo(l, k, q, n) {
      assert q'[n] == q[n] && q[n] in q;
      if n + 1 < |q| { assert q'[n + 1] == q[n + 1] && q[n + 1] in q; }
    }
    forall n | 0 <= n <= |q| ensures CellBefore(l, q', i, n) == CellBefore(l, q, i, n) {
      if n > 0 { assert q'[n - 1] == q[n - 1]; }
    }
  }

  lemma EnqueueShape(l: nat, k: Lock, q: seq<nat>, i: SlotIx, sl: Slot, t: nat, c': Ctx, sl': Slot)
    requires Within(q, |k.ctx|) && Shape(l, k, q, i, sl) && t < |k.ctx| && t !in q
    requires EnqueueTarget(Id(l, t), k.ctx[t], c', sl, sl') && k.ctx[t].next == None
    ensures Within(q + [t], |k.ctx|) && Shape(l, k.(ctx := k.ctx[t := c']), q + [t], i, sl')
  {
    var k', q' := k.(ctx := k.ctx[t := c']), q + [t];
    EnqueueLinks(l, k, q, i, t, c');
    assert Waiting(k', q') by {
      assert forall n :: 0 <= n < |q| ==> q'[n] == q[n] && k'.ctx[q'[n]] == k.ctx[q[n]];
    }
  }

  lemma EnqueueToken(l: nat, k: Lock, h: History, sl: Slot, t: nat, c': Ctx, sl': Slot)
    requires t < |k.ctx| && EnqueueTarget(Id(l, t), k.ctx[t], c', sl, sl')
    requires QueueToken(l, k, h, sl) && h.token != Some(t) && t !in h.q
    ensures QueueToken(l, k.(ctx := k.ctx[t := c']), h.(q := h.q + [t]), sl')
  {
    assert Aligned(k, h.line) ==> Aligned(k.(ctx := k.ctx[t := c']), h.line);
  }

  lemma EnqueueCtx(id: Id, c: Ctx, c': Ctx, h: History, slots: seq<Slot>, owner: seq<Option<Id>>, i: SlotIx, sl': Slot)
    requires |slots| == |owner| == NQUEUES
    requires CtxOk(id, c, h, slots, owner) && EnqueueTarget(id, c, c', slots[i], sl') && i == c.pc.slot
    ensures CtxOk(id, c', h, slots[i := sl'], owner)
  {
  }

  /** The queue is not part of what a single context knows. */
  lemma CtxIgnoresQueue(id: Id, c: Ctx, h: History, q: seq<nat>, slots: seq<Slot>, owner: seq<Option<Id>>)
    requires |slots| == |owner| == NQUEUES && CtxOk(id, c, h, slots, owner)
    ensures CtxOk(id, c, h.(q := q), slots, owner)
  {
  }

  lemma EnqueueCtxs(l: nat, k: Lock, h: History, slots: seq<Slot>, owner: seq<Option<Id>>, t: nat, c': Ctx, i: SlotIx,
                    sl': Slot)
    requires |slots| == |owner| == NQUEUES && t < |k.ctx| && owner[i] == None
    requires forall u :: 0 <= u < |k.ctx| ==> CtxOk(Id(l, u), k.ctx[u], h, slots, owner)
    requires EnqueueTarget(Id(l, t), k.ctx[t], c', slots[i], sl') && i == k.ctx[t].pc.slot
    ensures forall u :: 0 <= u < |k.ctx| ==>
              CtxOk(Id(l, u), k.ctx[t := c'][u], h.(q := h.q + [t]), slots[i := sl'], owner)
  {
    OthersOk(l, k, h, slots, owner, t, i, sl');
    EnqueueCtx(Id(l, t), k.ctx[t], c', h, slots, owner, i, sl');
    forall u | 0 <= u < |k.ctx| ensures CtxOk(Id(l, u), k.ctx[t := c'][u], h.(q := h.q + [t]), slots[i := sl'], owner) {
      CtxIgnoresQueue(Id(l, u), k.ctx[t := c'][u], h, h.q + [t], slots[i := sl'], owner);
    }
  }

  lemma KeepEnqueue(l: nat, k: Lock, h: History, slots: seq<Slot>, owner: seq<Option<Id>>, t: nat, c': Ctx, i: SlotIx,
                    sl': Slot)
    requires |slots| == |owner| == NQUEUES && t < |k.ctx| && Consistent(slots, owner)
    requires LockInv(l, k, h, slots, owner)
    requires EnqueueTarget(Id(l, t), k.ctx[t], c', slots[i], sl') && i == k.ctx[t].pc.slot
    ensures LockInv(l, k.(ctx := k.ctx[t := c']), h.(q := h.q + [t]), slots[i := sl'], owner)
  {
    assert CtxOk(Id(l, t), k.ctx[t], h, slots, owner);
    BoundHasNoOwner(l, k, h, slots, owner);
    EnqueueCounting(k, h, t, c');
    RefsMoved(l, k, h, slots, t, c', i, sl');
    EnqueueToken(l, k, h, slots[i], t, c', sl');
    EnqueueShape(l, k, h.q, i, slots[i], t, c', sl');
    EnqueueCtxs(l, k, h, slots, owner, t, c', i, sl');
  }

  // ---------------------------------------------------------------- line 196: the link

  /** The position of a context in the queue. */
  lemma Position(k: Lock, h: History, t: nat) returns (n: nat)
    requires Counting(k, h) && t < |k.ctx| && InQueue(k.ctx[t].pc)
    ensures n < |h.q| && h.q[n] == t
  {
    assert t in h.q;
    n :| n < |h.q| && h.q[n] == t;
  }

  /** t writes the `next` of its predecessor e, or the `spin` of the slot when it is the first. */
  function Linked(k: Lock, t: nat, e: Option<nat>, id: Id): Lock
    requires t < |k.ctx| && (e.Some? ==> e.value < |k.ctx|)
  {
    var pc := k.ctx[t].pc;
    var k' := k.(ctx := k.ctx[t := k.ctx[t].(pc := if pc.Link? then Await(pc.slot) else pc)]);
    if e.None? then k' else k'.(ctx := k'.ctx[e.value := k'.ctx[e.value].(next := Some(id))])
  }

  lemma LinkCounting(k: Lock, h: History, t: nat, e: Option<nat>, id: Id)
    requires Counting(k, h) && t < |k.ctx| && k.ctx[t].pc.Link? && (e.Some? ==> e.value < |k.ctx|)
    ensures Counting(Linked(k, t, e, id), h)
  {
    var k' := Linked(k, t, None, id);
    CountingMoved(k, h, t, k'.ctx[t]);
    if e.Some? { CountingMoved(k', h, e.value, k'.ctx[e.value].(next := Some(id))); }
  }

  lemma LinkLinks(l: nat, k: Lock, q: seq<nat>, n: nat, e: Option<nat>)
    requires Within(q, |k.ctx|) && Distinct(q) && Links(l, k, q) && n < |q| && k.ctx[q[n]].pc.Link?
    requires e == if n == 0 then None else Some(q[n - 1])
    ensures Links(l, Linked(k, q[n], e, Id(l, q[n])), q)
  {
    var k' := Linked(k, q[n], e, Id(l, q[n]));
    forall m | 0 <= m < |q| ensures k'.ctx[q[m]].next == LinkTo(l, k', q, m) {
      assert k.ctx[q[m]].next == LinkTo(l, k, q, m);
      assert m + 1 < |q| && m + 1 != n ==> q[m + 1] != q[n];
      assert m + 1 != n && n > 0 ==> q[m] != q[n - 1];
    }
  }

  lemma LinkShape(l: nat, k: Lock, q: seq<nat>, i: SlotIx, sl: Slot, n: nat, e: Option<nat>, sl': Slot)
    requires Within(q, |k.ctx|) && Distinct(q) && Shape(l, k, q, i, sl) && n < |q|
    requires k.ctx[q[n]].pc.Link? && k.ctx[q[n]].pc.slot == i && !k.ctx[q[n]].granted
    requires e == if n == 0 then None else Some(q[n - 1])
    requires sl' == if n == 0 then sl.(spin := Some(Id(l, q[0]))) else sl
    ensures Shape(l, Linked(k, q[n], e, Id(l, q[n])), q, i, sl')
  {
    var k' := Linked(k, q[n], e, Id(l, q[n]));
    LinkLinks(l, k, q, n, e);
    assert forall m :: 0 <= m < |q| && m != n ==> q[m] != q[n];
    assert forall u :: 0 <= u < |k.ctx| && u != q[n] ==>
        k'.ctx[u].pc == k.ctx[u].pc && k'.ctx[u].granted == k.ctx[u].granted;
    assert PendingLinks(l, k', q, i);
    assert Waiting(k', q);
    LinkFront(l, k, q, sl, n, e, sl');
  }

  lemma LinkFront(l: nat, k: Lock, q: seq<nat>, sl: Slot, n: nat, e: Option<nat>, sl': Slot)
    requires Within(q, |k.ctx|) && Distinct(q) && n < |q| && k.ctx[q[n]].pc.Link?
    requires Front(Id(l, q[0]), k.ctx[q[0]], sl.spin, |q| > 1)
    requires e == if n == 0 then None else Some(q[n - 1])
    requires sl' == if n == 0 then sl.(spin := Some(Id(l, q[0]))) else sl
    ensures Front(Id(l, q[0]), Linked(k, q[n], e, Id(l, q[n])).ctx[q[0]], sl'.spin, |q| > 1)
  {
  }

  lemma LinkToken(l: nat, k: Lock, h: History, sl: Slot, t: nat, e: Option<nat>, sl': Slot)
    requires t < |k.ctx| && k.ctx[t].pc.Link? && (e.Some? ==> e.value < |k.ctx|)
    requires QueueToken(l, k, h, sl) && h.token != Some(t) && sl'.headTkt == sl.headTkt
    ensures QueueToken(l, Linked(k, t, e, Id(l, t)), h, sl')
  {
    var k' := Linked(k, t, e, Id(l, t));
    assert Aligned(k, h.line) ==> Aligned(k', h.line);
  }

  lemma LinkRefs(l: nat, k: Lock, h: History, slots: seq<Slot>, t: nat, e: Option<nat>, i: SlotIx, sl': Slot)
    requires |slots| == NQUEUES && t < |k.ctx| && k.ctx[t].pc.Link? && (e.Some? ==> e.value < |k.ctx|)
    requires Refs(l, k, h, slots) && sl'.ref == slots[i].ref
    ensures Refs(l, Linked(k, t, e, Id(l, t)), h, slots[i := sl'])
  {
  }

  lemma LinkCtx(l: nat, k: Lock, h: History, slots: seq<Slot>, owner: seq<Option<Id>>, t: nat, u: nat, e: Option<nat>)
    requires |slots| == |owner| == NQUEUES && t < |k.ctx| && u < |k.ctx| && (e.Some? ==> e.value < |k.ctx|)
    requires k.ctx[t].pc.Link? && CtxOk(Id(l, u), k.ctx[u], h, slots, owner)
    requires e.Some? ==> InQueue(k.ctx[e.value].pc)
    ensures CtxOk(Id(l, u), Linked(k, t, e, Id(l, t)).ctx[u], h, slots, owner)
  {
  }

  lemma KeepLink(l: nat, k: Lock, h: History, slots: seq<Slot>, owner: seq<Option<Id>>, t: nat, n: nat, e: Option<nat>,
                 i: SlotIx, sl': Slot)
    requires |slots| == |owner| == NQUEUES && t < |k.ctx| && Consistent(slots, owner)
    requires LockInv(l, k, h, slots, owner) && k.ctx[t].pc.Link? && i == k.ctx[t].pc.slot
    requires n < |h.q| && h.q[n] == t && (e.Some? ==> e.value < |k.ctx|)
    requires e == if n == 0 then None else Some(h.q[n - 1])
    requires sl' == if n == 0 then slots[i].(spin := Some(Id(l, t))) else slots[i]
    ensures LockInv(l, Linked(k, t, e, Id(l, t)), h, slots[i := sl'], owner)
  {
    var k' := Linked(k, t, e, Id(l, t));
    assert CtxOk(Id(l, t), k.ctx[t], h, slots, owner);
    BoundHasNoOwner(l, k, h, slots, owner);
    LinkCounting(k, h, t, e, Id(l, t));
    LinkRefs(l, k, h, slots, t, e, i, sl');
    LinkToken(l, k, h, slots[i], t, e, sl');
    LinkShape(l, k, h.q, i, slots[i], n, e, sl');
    if e.Some? { assert e.value in h.q; }
    forall u | 0 <= u < |k'.ctx| ensures CtxOk(Id(l, u), k'.ctx[u], h, slots[i := sl'], owner) {
      CtxBoundFramed(l, u, k.ctx[u], h, slots, owner, i, sl');
      LinkCtx(l, k, h, slots[i := sl'], owner, t, u, e);
    }
  }
}
