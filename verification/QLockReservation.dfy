/** Reserving and preparing a slot, and clearing `head_tkt`, keep the invariant. */
module QLockReservation {
  import opened Wrappers
  import opened TicketWords
  import opened QLockModel
  import opened QLockInvariant
  import opened QLockPreservation

  // ---------------------------------------------------------------- slots that are not attached

  /** The writes to a slot that the context reserves or holds in reserve. */
  predicate ReserveTarget(id: Id, c: Ctx, c': Ctx, sl: Slot, sl': Slot, o': Option<Id>) {
    || (c.pc.ClaimCas? && c' == c.(pc := InitSpin(c.pc.slot)) && sl.ref == Free && sl' == sl.(ref := Claimed)
        && o' == Some(id))
    || (c.pc.InitSpin? && c' == c.(pc := InitTail(c.pc.slot)) && sl' == sl.(spin := None) && o' == Some(id))
    || (c.pc.InitTail? && c' == c.(pc := InitRead(c.pc.slot)) && sl' == sl.(spinTail := SpinCell(c.pc.slot))
        && o' == Some(id))
    || (c.pc.InitHead? && c' == c.(pc := InitCas(c.pc.slot, c.pc.oh, c.pc.ot)) && sl' == sl.(headTkt := c.pc.oh)
        && o' == Some(id))
    || (c.pc.BackOut? && c' == c.(pc := Find(Hash(id.lock))) && sl' == sl.(ref := Free) && o' == None)
  }

  lemma ReserveCtx(l: nat, h: History, slots: seq<Slot>, owner: seq<Option<Id>>, t: nat, c: Ctx, c': Ctx,
                   i: SlotIx, sl': Slot, o': Option<Id>)
    requires |slots| == |owner| == NQUEUES && CtxOk(Id(l, t), c, h, slots, owner)
    requires ReserveTarget(Id(l, t), c, c', slots[i], sl', o') && i == c.pc.slot
    ensures CtxOk(Id(l, t), c', h, slots[i := sl'], owner[i := o'])
    ensures c'.tkt == c.tkt && Outstanding(c.pc) && Outstanding(c'.pc) && !InQueue(c.pc) && !InQueue(c'.pc)
    ensures !c.pc.Publish? && !c'.pc.Publish?
  {
    if c.pc.ClaimCas? || c.pc.BackOut? {
      EndsCtx(l, h, slots, owner, t, c, c', i, sl', o');
    } else {
      PrepareCtx(l, h, slots, owner, t, c, c', i, sl', o');
    }
  }

  lemma EndsCtx(l: nat, h: History, slots: seq<Slot>, owner: seq<Option<Id>>, t: nat, c: Ctx, c': Ctx,
                i: SlotIx, sl': Slot, o': Option<Id>)
    requires |slots| == |owner| == NQUEUES && CtxOk(Id(l, t), c, h, slots, owner)
    requires ReserveTarget(Id(l, t), c, c', slots[i], sl', o') && i == c.pc.slot && (c.pc.ClaimCas? || c.pc.BackOut?)
    ensures CtxOk(Id(l, t), c', h, slots[i := sl'], owner[i := o'])
  {
  }

  lemma PrepareCtx(l: nat, h: History, slots: seq<Slot>, owner: seq<Option<Id>>, t: nat, c: Ctx, c': Ctx,
                   i: SlotIx, sl': Slot, o': Option<Id>)
    requires |slots| == |owner| == NQUEUES && CtxOk(Id(l, t), c, h, slots, owner)
    requires ReserveTarget(Id(l, t), c, c', slots[i], sl', o') && i == c.pc.slot && !c.pc.ClaimCas? && !c.pc.BackOut?
    ensures CtxOk(Id(l, t), c', h, slots[i := sl'], owner[i := o'])
  {
  }

  lemma ReserveToken(l: nat, k: Lock, h: History, slots: seq<Slot>, t: nat, c': Ctx, sl: Slot, sl': Slot,
                     o': Option<Id>)
    requires |slots| == NQUEUES && t < |k.ctx| && ReserveTarget(Id(l, t), k.ctx[t], c', sl, sl', o')
    requires Attached(h.phase) && QueueToken(l, k, h, slots[h.phase.slot]) && h.token == Some(t)
    ensures TokenMoves(l, k, h, slots[h.phase.slot], k.ctx[t], c')
  {
  }

  lemma ReserveFramed(l: nat, k: Lock, h: History, slots: seq<Slot>, owner: seq<Option<Id>>, t: nat, c': Ctx,
                      i: SlotIx, sl': Slot, o': Option<Id>)
    requires |slots| == |owner| == NQUEUES && t < |k.ctx| && Consistent(slots, owner) && Refs(l, k, h, slots)
    requires ReserveTarget(Id(l, t), k.ctx[t], c', slots[i], sl', o') && i == k.ctx[t].pc.slot
    requires !k.ctx[t].pc.ClaimCas? ==> owner[i] == Some(Id(l, t))
    requires h.phase.Forming? ==> owner[h.phase.slot] == Some(Id(l, h.phase.former))
    ensures SlotsFramed(l, t, h, slots, owner, slots[i := sl'], owner[i := o'])
  {
    assert Untouched(l, t, h, slots[i], owner[i], sl', o', i);
  }

  lemma KeepReserve(l: nat, k: Lock, h: History, slots: seq<Slot>, owner: seq<Option<Id>>, t: nat, c': Ctx,
                    i: SlotIx, sl': Slot, o': Option<Id>)
    requires |slots| == |owner| == NQUEUES && t < |k.ctx| && Consistent(slots, owner)
    requires LockInv(l, k, h, slots, owner)
    requires ReserveTarget(Id(l, t), k.ctx[t], c', slots[i], sl', o') && i == k.ctx[t].pc.slot
    ensures LockInv(l, k.(ctx := k.ctx[t := c']), h, slots[i := sl'], owner[i := o'])
  {
    assert CtxOk(Id(l, t), k.ctx[t], h, slots, owner);
    if h.phase.Forming? {
      var f := h.phase.former;
      assert CtxOk(Id(l, f), k.ctx[f], h, slots, owner);
    }
    ReserveCtx(l, h, slots, owner, t, k.ctx[t], c', i, sl', o');
    ReserveFramed(l, k, h, slots, owner, t, c', i, sl', o');
    if Attached(h.phase) && h.token == Some(t) { ReserveToken(l, k, h, slots, t, c', slots[i], sl', o'); }
    Move(l, k, h, slots, owner, t, c', slots[i := sl'], owner[i := o']);
  }

  // ---------------------------------------------------------------- the attached slot

  /** Another context does not notice a change of the attached slot, unless it has the token and reads `head_tkt`. */
  lemma CtxBoundFramed(l: nat, u: nat, c: Ctx, h: History, slots: seq<Slot>, owner: seq<Option<Id>>, i: SlotIx,
                       sl': Slot)
    requires |slots| == |owner| == NQUEUES && CtxOk(Id(l, u), c, h, slots, owner)
    requires owner[i] == None && (sl'.headTkt == slots[i].headTkt || h.token != Some(u))
    ensures CtxOk(Id(l, u), c, h, slots[i := sl'], owner)
  {
  }

  lemma RefsMoved(l: nat, k: Lock, h: History, slots: seq<Slot>, t: nat, c': Ctx, i: SlotIx, sl': Slot)
    requires |slots| == NQUEUES && t < |k.ctx| && Refs(l, k, h, slots)
    requires !k.ctx[t].pc.Publish? && !k.ctx[t].pc.UnqClear? && sl'.ref == slots[i].ref
    ensures Refs(l, k.(ctx := k.ctx[t := c']), h, slots[i := sl'])
  {
  }

  lemma BoundHasNoOwner(l: nat, k: Lock, h: History, slots: seq<Slot>, owner: seq<Option<Id>>)
    requires |slots| == |owner| == NQUEUES && Consistent(slots, owner) && Refs(l, k, h, slots) && h.phase.Queued?
    ensures slots[h.phase.slot].ref == Bound(l) && owner[h.phase.slot] == None
  {
  }

  /** Lines 186 and 151: the holder of the token clears `head_tkt`. */
  predicate ResetTarget(c: Ctx, c': Ctx) {
    || (c.pc.HeadTake? && c' == c.(pc := Critical))
    || (c.pc.WakeReset? && c' == c.(pc := WakeGrant(c.pc.slot, c.pc.w)))
  }

  lemma ResetCtx(l: nat, h: History, slots: seq<Slot>, owner: seq<Option<Id>>, t: nat, c: Ctx, c': Ctx)
    requires |slots| == |owner| == NQUEUES && CtxOk(Id(l, t), c, h, slots, owner) && ResetTarget(c, c')
    ensures var i := c.pc.slot; CtxOk(Id(l, t), c', h, slots[i := slots[i].(headTkt := -1)], owner)
    ensures c'.tkt == c.tkt && Outstanding(c.pc) == Outstanding(c'.pc) && !InQueue(c.pc) && !InQueue(c'.pc)
    ensures h.phase == Queued(c.pc.slot) && h.token == Some(t)
  {
  }

  lemma ResetToken(l: nat, k: Lock, h: History, sl: Slot, t: nat, c': Ctx)
    requires t < |k.ctx| && ResetTarget(k.ctx[t], c') && QueueToken(l, k, h, sl) && h.token == Some(t)
    ensures QueueToken(l, k.(ctx := k.ctx[t := c']), h, sl.(headTkt := -1))
  {
  }

  lemma KeepReset(l: nat, k: Lock, h: History, slots: seq<Slot>, owner: seq<Option<Id>>, t: nat, c': Ctx, i: SlotIx)
    requires |slots| == |owner| == NQUEUES && t < |k.ctx| && Consistent(slots, owner)
    requires LockInv(l, k, h, slots, owner) && ResetTarget(k.ctx[t], c') && i == k.ctx[t].pc.slot
    ensures LockInv(l, k.(ctx := k.ctx[t := c']), h, slots[i := slots[i].(headTkt := -1)], owner)
  {
    var k', sl' := k.(ctx := k.ctx[t := c']), slots[i].(headTkt := -1);
    assert CtxOk(Id(l, t), k.ctx[t], h, slots, owner);
    ResetCtx(l, h, slots, owner, t, k.ctx[t], c');
    BoundHasNoOwner(l, k, h, slots, owner);
    CountingMoved(k, h, t, c');
    RefsMoved(l, k, h, slots, t, c', i, sl');
    ResetToken(l, k, h, slots[i], t, c');
    ShapeMoved(l, k, h.q, i, slots[i], t, c');
    forall u | 0 <= u < |k'.ctx| ensures CtxOk(Id(l, u), k'.ctx[u], h, slots[i := sl'], owner) {
      if u != t { CtxBoundFramed(l, u, k.ctx[u], h, slots, owner, i, sl'); }
    }
  }
}
