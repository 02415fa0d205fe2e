/** Each step of the machine is one of the moves treated before, so the invariant holds on every run. */
module QLockSafety {
  import opened Wrappers
  import opened TicketWords
  import opened QLockModel
  import opened QLockInvariant
  import opened QLockPreservation
  import opened QLockReservation
  import opened QLockQueue
  import opened QLockHandOff
  import opened QLockTickets
  import opened QLockPhases

  // ---------------------------------------------------------------- one lock

  /** The slot is free, or belongs to lock l. */
  predicate MineOrFree(l: nat, sl: Slot, o: Option<Id>) {
    && (o.Some? ==> o.value.lock == l)
    && (sl.ref.Bound? ==> sl.ref.lock == l)
  }

  ghost predicate ChangesMine(l: nat, slots: seq<Slot>, owner: seq<Option<Id>>, slots': seq<Slot>,
                              owner': seq<Option<Id>>)
    requires |slots| == |owner| == |slots'| == |owner'| == NQUEUES
  {
    forall j: SlotIx :: (slots'[j] == slots[j] && owner'[j] == owner[j])
                        || (MineOrFree(l, slots[j], owner[j]) && MineOrFree(l, slots'[j], owner'[j]))
  }

  /** The stepping lock afterwards, with the write to one of its own elements done. */
  function After(r: Result): Lock {
    if r.effect != Nothing && r.effect.target.thread < |r.lock.ctx|
    then WriteElement(r.lock, r.effect, r.effect.target.thread)
    else r.lock
  }

  /** The step of t writes to no other lock's elements or slots, and keeps the invariant of its own lock. */
  ghost predicate Good(l: nat, k: Lock, r: Result, h': History, slots: seq<Slot>, owner: seq<Option<Id>>,
                       owner': seq<Option<Id>>)
    requires |slots| == |owner| == NQUEUES
  {
    && |r.slots| == |owner'| == NQUEUES
    && |r.lock.ctx| == |k.ctx|
    && (r.effect != Nothing ==> r.effect.target.lock == l && r.effect.target.thread < |k.ctx|)
    && Consistent(r.slots, owner')
    && ChangesMine(l, slots, owner, r.slots, owner')
    && LockInv(l, After(r), h', r.slots, owner')
  }

  ghost predicate StepIsGood(sw: nat, l: nat, k: Lock, h: History, slots: seq<Slot>, owner: seq<Option<Id>>, t: nat)
    requires |slots| == |owner| == NQUEUES && t < |k.ctx|
  {
    Good(l, k, LocalStep(sw, l, k, slots, t), Advance(l, k, h, slots, t), slots, owner,
        Reserve(k, slots, owner, Id(l, t)))
  }

  /** The context moves and nothing else changes. */
  ghost predicate OnlyMoves(sw: nat, l: nat, k: Lock, h: History, slots: seq<Slot>, owner: seq<Option<Id>>, t: nat,
                            c': Ctx)
    requires t < |k.ctx| && |slots| == |owner| == NQUEUES
  {
    && LocalStep(sw, l, k, slots, t) == Result(k.(ctx := k.ctx[t := c']), slots, Nothing)
    && Advance(l, k, h, slots, t) == h
    && Reserve(k, slots, owner, Id(l, t)) == owner
  }

  /** A step that writes no slot. */
  lemma GoodLocal(sw: nat, l: nat, k: Lock, h: History, slots: seq<Slot>, owner: seq<Option<Id>>, t: nat, k': Lock,
                  h': History)
    requires |slots| == |owner| == NQUEUES && t < |k.ctx| && Consistent(slots, owner)
    requires LocalStep(sw, l, k, slots, t) == Result(k', slots, Nothing) && |k'.ctx| == |k.ctx|
    requires Advance(l, k, h, slots, t) == h' && Reserve(k, slots, owner, Id(l, t)) == owner
    requires LockInv(l, k', h', slots, owner)
    ensures StepIsGood(sw, l, k, h, slots, owner, t)
  {
  }

  /** A step that writes one slot, which is free or belongs to the lock. */
  lemma GoodWrite(sw: nat, l: nat, k: Lock, h: History, slots: seq<Slot>, owner: seq<Option<Id>>, t: nat,
                  k': Lock, h': History, i: SlotIx, sl': Slot, o': Option<Id>)
    requires |slots| == |owner| == NQUEUES && t < |k.ctx| && Consistent(slots, owner)
    requires LocalStep(sw, l, k, slots, t) == Result(k', slots[i := sl'], Nothing) && |k'.ctx| == |k.ctx|
    requires Advance(l, k, h, slots, t) == h' && Reserve(k, slots, owner, Id(l, t)) == owner[i := o']
    requires MineOrFree(l, slots[i], owner[i]) && MineOrFree(l, sl', o') && (sl'.ref.Claimed? <==> o'.Some?)
    requires LockInv(l, k', h', slots[i := sl'], owner[i := o'])
    ensures StepIsGood(sw, l, k, h, slots, owner, t)
  {
  }

  /** A slot that some context of lock l works on is free of other locks. */
  lemma OwnSlot(l: nat, k: Lock, h: History, slots: seq<Slot>, owner: seq<Option<Id>>, t: nat)
    requires |slots| == |owner| == NQUEUES && t < |k.ctx| && Consistent(slots, owner) && LockInv(l, k, h, slots, owner)
    ensures var pc := k.ctx[t].pc;
            && (AtQueue(pc) || pc.UnqClear? ==> slots[pc.slot].ref == Bound(l) && owner[pc.slot] == None)
            && (Reserving(pc) ==> slots[pc.slot].ref == Claimed && owner[pc.slot] == Some(Id(l, t)))
  {
    assert CtxOk(Id(l, t), k.ctx[t], h, slots, owner);
  }

  // ---------------------------------------------------------------- reads and failed compare-exchanges

  lemma WaitReadMoves(sw: nat, l: nat, k: Lock, h: History, slots: seq<Slot>, owner: seq<Option<Id>>, t: nat)
        returns (c': Ctx)
    requires |slots| == |owner| == NQUEUES && t < |k.ctx| && WaitRead(k.ctx[t].pc)
    ensures OnlyMoves(sw, l, k, h, slots, owner, t, c') && WaitTarget(l, k, slots, k.ctx[t], c')
  {
    c' := LocalStep(sw, l, k, slots, t).lock.ctx[t];
  }

  lemma GoodWaitRead(sw: nat, l: nat, k: Lock, h: History, slots: seq<Slot>, owner: seq<Option<Id>>, t: nat)
    requires |slots| == |owner| == NQUEUES && t < |k.ctx| && Consistent(slots, owner) && LockInv(l, k, h, slots, owner)
    requires WaitRead(k.ctx[t].pc)
    ensures StepIsGood(sw, l, k, h, slots, owner, t)
  {
    var c' := WaitReadMoves(sw, l, k, h, slots, owner, t);
    KeepWaitRead(l, k, h, slots, owner, t, c');
    GoodLocal(sw, l, k, h, slots, owner, t, k.(ctx := k.ctx[t := c']), h);
  }

  /** The compare-exchange of the context is going to fail. */
  predicate WillFail(k: Lock, slots: seq<Slot>, pc: PC)
    requires |slots| == NQUEUES
  {
    || (pc.ClaimCas? && slots[pc.slot].ref != Free)
    || ((pc.InitCas? || pc.UnqCas?) && !(k.head == pc.oh && k.tail == pc.ot))
  }

  lemma RetryMoves(sw: nat, l: nat, k: Lock, h: History, slots: seq<Slot>, owner: seq<Option<Id>>, t: nat)
        returns (c': Ctx)
    requires |slots| == |owner| == NQUEUES && t < |k.ctx|
    requires (k.ctx[t].pc.ClaimCas? || k.ctx[t].pc.InitCas?) && WillFail(k, slots, k.ctx[t].pc)
    ensures OnlyMoves(sw, l, k, h, slots, owner, t, c') && RetryTarget(k.ctx[t], c')
  {
    c' := LocalStep(sw, l, k, slots, t).lock.ctx[t];
  }

  lemma GoodRetry(sw: nat, l: nat, k: Lock, h: History, slots: seq<Slot>, owner: seq<Option<Id>>, t: nat)
    requires |slots| == |owner| == NQUEUES && t < |k.ctx| && Consistent(slots, owner) && LockInv(l, k, h, slots, owner)
    requires (k.ctx[t].pc.ClaimCas? || k.ctx[t].pc.InitCas?) && WillFail(k, slots, k.ctx[t].pc)
    ensures StepIsGood(sw, l, k, h, slots, owner, t)
  {
    var c' := RetryMoves(sw, l, k, h, slots, owner, t);
    KeepRetry(l, k, h, slots, owner, t, c');
    GoodLocal(sw, l, k, h, slots, owner, t, k.(ctx := k.ctx[t := c']), h);
  }

  lemma WakeReadMoves(sw: nat, l: nat, k: Lock, h: History, slots: seq<Slot>, owner: seq<Option<Id>>, t: nat)
        returns (c': Ctx)
    requires |slots| == |owner| == NQUEUES && t < |k.ctx| && WakeRead(k.ctx[t].pc)
    requires k.ctx[t].pc.UnqCas? ==> WillFail(k, slots, k.ctx[t].pc)
    ensures OnlyMoves(sw, l, k, h, slots, owner, t, c') && WakeTarget(l, k, slots, k.ctx[t], c')
  {
    c' := LocalStep(sw, l, k, slots, t).lock.ctx[t];
  }

  lemma GoodWakeRead(sw: nat, l: nat, k: Lock, h: History, slots: seq<Slot>, owner: seq<Option<Id>>, t: nat)
    requires |slots| == |owner| == NQUEUES && t < |k.ctx| && Consistent(slots, owner) && LockInv(l, k, h, slots, owner)
    requires WakeRead(k.ctx[t].pc) && (k.ctx[t].pc.UnqCas? ==> WillFail(k, slots, k.ctx[t].pc))
    ensures StepIsGood(sw, l, k, h, slots, owner, t)
  {
    var c' := WakeReadMoves(sw, l, k, h, slots, owner, t);
    KeepWakeRead(l, k, h, slots, owner, t, c');
    GoodLocal(sw, l, k, h, slots, owner, t, k.(ctx := k.ctx[t := c']), h);
  }

  lemma GoodHeadCheck(sw: nat, l: nat, k: Lock, h: History, slots: seq<Slot>, owner: seq<Option<Id>>, t: nat)
    requires |slots| == |owner| == NQUEUES && t < |k.ctx| && Consistent(slots, owner) && LockInv(l, k, h, slots, owner)
    requires k.ctx[t].pc.HeadCheck?
    ensures StepIsGood(sw, l, k, h, slots, owner, t)
  {
    var c := k.ctx[t];
    var i := c.pc.slot;
    var c' := c.(pc := if slots[i].headTkt == c.tkt then HeadTake(i) else Enqueue(i));
    KeepHeadCheck(l, k, h, slots, owner, t, c');
    GoodLocal(sw, l, k, h, slots, owner, t, k.(ctx := k.ctx[t := c']), h);
  }

  predicate Stays(c: Ctx) {
    (c.pc.Await? && !c.granted) || (c.pc.DeqWait? && c.next == None)
  }

  lemma StayMoves(sw: nat, l: nat, k: Lock, h: History, slots: seq<Slot>, owner: seq<Option<Id>>, t: nat)
    requires |slots| == |owner| == NQUEUES && t < |k.ctx| && Stays(k.ctx[t])
    ensures LocalStep(sw, l, k, slots, t) == Result(k, slots, Nothing)
    ensures Advance(l, k, h, slots, t) == h && Reserve(k, slots, owner, Id(l, t)) == owner
  {
  }

  /** A busy wait that sees no change. */
  lemma GoodStay(sw: nat, l: nat, k: Lock, h: History, slots: seq<Slot>, owner: seq<Option<Id>>, t: nat)
    requires |slots| == |owner| == NQUEUES && t < |k.ctx| && Consistent(slots, owner) && LockInv(l, k, h, slots, owner)
    requires Stays(k.ctx[t])
    ensures StepIsGood(sw, l, k, h, slots, owner, t)
  {
    StayMoves(sw, l, k, h, slots, owner, t);
    GoodLocal(sw, l, k, h, slots, owner, t, k, h);
  }

  // ---------------------------------------------------------------- reservation and head_tkt

  lemma ReserveMoves(sw: nat, l: nat, k: Lock, h: History, slots: seq<Slot>, owner: seq<Option<Id>>, t: nat)
    returns (c': Ctx, i: SlotIx, sl': Slot, o': Option<Id>)
    requires |slots| == |owner| == NQUEUES && t < |k.ctx|
    requires var pc := k.ctx[t].pc;
             (pc.ClaimCas? && slots[pc.slot].ref == Free) || pc.InitSpin? || pc.InitTail? || pc.InitHead? || pc.BackOut?
    requires Reserving(k.ctx[t].pc) ==> owner[k.ctx[t].pc.slot] == Some(Id(l, t))
    ensures i == k.ctx[t].pc.slot && ReserveTarget(Id(l, t), k.ctx[t], c', slots[i], sl', o')
    ensures LocalStep(sw, l, k, slots, t) == Result(k.(ctx := k.ctx[t := c']), slots[i := sl'], Nothing)
    ensures Advance(l, k, h, slots, t) == h && Reserve(k, slots, owner, Id(l, t)) == owner[i := o']
  {
    i := k.ctx[t].pc.slot;
    var r := LocalStep(sw, l, k, slots, t);
    c', sl', o' := r.lock.ctx[t], r.slots[i], Reserve(k, slots, owner, Id(l, t))[i];
  }

  lemma GoodReserve(sw: nat, l: nat, k: Lock, h: History, slots: seq<Slot>, owner: seq<Option<Id>>, t: nat)
    requires |slots| == |owner| == NQUEUES && t < |k.ctx| && Consistent(slots, owner) && LockInv(l, k, h, slots, owner)
    requires var pc := k.ctx[t].pc;
             (pc.ClaimCas? && slots[pc.slot].ref == Free) || pc.InitSpin? || pc.InitTail? || pc.InitHead? || pc.BackOut?
    ensures StepIsGood(sw, l, k, h, slots, owner, t)
  {
    OwnSlot(l, k, h, slots, owner, t);
    var c', i, sl', o' := ReserveMoves(sw, l, k, h, slots, owner, t);
    KeepReserve(l, k, h, slots, owner, t, c', i, sl', o');
    GoodWrite(sw, l, k, h, slots, owner, t, k.(ctx := k.ctx[t := c']), h, i, sl', o');
  }

  /** A write to a slot that leaves the reservations alone. */
  ghost predicate MovesAndWrites(sw: nat, l: nat, k: Lock, h: History, slots: seq<Slot>, owner: seq<Option<Id>>, t: nat,
                                 c': Ctx, h': History, i: SlotIx, sl': Slot)
    requires t < |k.ctx| && |slots| == |owner| == NQUEUES
  {
    && LocalStep(sw, l, k, slots, t) == Result(k.(ctx := k.ctx[t := c']), slots[i := sl'], Nothing)
    && Advance(l, k, h, slots, t) == h'
    && Reserve(k, slots, owner, Id(l, t)) == owner
    && AtQueue(k.ctx[t].pc) && i == k.ctx[t].pc.slot && sl'.ref == slots[i].ref
  }

  /** The same for a write to the attached slot. */
  lemma GoodAtQueue(sw: nat, l: nat, k: Lock, h: History, slots: seq<Slot>, owner: seq<Option<Id>>, t: nat,
                    c': Ctx, h': History, i: SlotIx, sl': Slot)
    requires |slots| == |owner| == NQUEUES && t < |k.ctx| && Consistent(slots, owner) && LockInv(l, k, h, slots, owner)
    requires AtQueue(k.ctx[t].pc) && MovesAndWrites(sw, l, k, h, slots, owner, t, c', h', i, sl')
    requires LockInv(l, k.(ctx := k.ctx[t := c']), h', slots[i := sl'], owner)
    ensures StepIsGood(sw, l, k, h, slots, owner, t)
  {
    OwnSlot(l, k, h, slots, owner, t);
    assert owner[i := None] == owner;
    GoodWrite(sw, l, k, h, slots, owner, t, k.(ctx := k.ctx[t := c']), h', i, sl', None);
  }

  lemma ResetMoves(sw: nat, l: nat, k: Lock, h: History, slots: seq<Slot>, owner: seq<Option<Id>>, t: nat)
    returns (c': Ctx, i: SlotIx)
    requires |slots| == |owner| == NQUEUES && t < |k.ctx| && (k.ctx[t].pc.HeadTake? || k.ctx[t].pc.WakeReset?)
    ensures i == k.ctx[t].pc.slot && ResetTarget(k.ctx[t], c') && AtQueue(k.ctx[t].pc)
    ensures MovesAndWrites(sw, l, k, h, slots, owner, t, c', h, i, slots[i].(headTkt := -1))
  {
    i, c' := k.ctx[t].pc.slot, LocalStep(sw, l, k, slots, t).lock.ctx[t];
  }

  lemma GoodReset(sw: nat, l: nat, k: Lock, h: History, slots: seq<Slot>, owner: seq<Option<Id>>, t: nat)
    requires |slots| == |owner| == NQUEUES && t < |k.ctx| && Consistent(slots, owner) && LockInv(l, k, h, slots, owner)
    requires k.ctx[t].pc.HeadTake? || k.ctx[t].pc.WakeReset?
    ensures StepIsGood(sw, l, k, h, slots, owner, t)
  {
    var c', i := ResetMoves(sw, l, k, h, slots, owner, t);
    KeepReset(l, k, h, slots, owner, t, c', i);
    GoodAtQueue(sw, l, k, h, slots, owner, t, c', h, i, slots[i].(headTkt := -1));
  }

  // ---------------------------------------------------------------- the queue

  lemma EnqueueMoves(sw: nat, l: nat, k: Lock, h: History, slots: seq<Slot>, owner: seq<Option<Id>>, t: nat)
    returns (c': Ctx, i: SlotIx, sl': Slot)
    requires |slots| == |owner| == NQUEUES && t < |k.ctx| && k.ctx[t].pc.Enqueue?
    ensures i == k.ctx[t].pc.slot && EnqueueTarget(Id(l, t), k.ctx[t], c', slots[i], sl') && AtQueue(k.ctx[t].pc)
    ensures MovesAndWrites(sw, l, k, h, slots, owner, t, c', h.(q := h.q + [t]), i, sl')
  {
    i := k.ctx[t].pc.slot;
    c', sl' := LocalStep(sw, l, k, slots, t).lock.ctx[t], LocalStep(sw, l, k, slots, t).slots[i];
  }

  lemma GoodEnqueue(sw: nat, l: nat, k: Lock, h: History, slots: seq<Slot>, owner: seq<Option<Id>>, t: nat)
    requires |slots| == |owner| == NQUEUES && t < |k.ctx| && Consistent(slots, owner) && LockInv(l, k, h, slots, owner)
    requires k.ctx[t].pc.Enqueue?
    ensures StepIsGood(sw, l, k, h, slots, owner, t)
  {
    var c', i, sl' := EnqueueMoves(sw, l, k, h, slots, owner, t);
    KeepEnqueue(l, k, h, slots, owner, t, c', i, sl');
    GoodAtQueue(sw, l, k, h, slots, owner, t, c', h.(q := h.q + [t]), i, sl');
  }

  lemma DequeueMoves(sw: nat, l: nat, k: Lock, h: History, slots: seq<Slot>, owner: seq<Option<Id>>, t: nat)
    returns (c': Ctx, i: SlotIx, sl': Slot)
    requires |slots| == |owner| == NQUEUES && t < |k.ctx| && !Stays(k.ctx[t])
    requires var pc := k.ctx[t].pc; pc.Await? || pc.DeqNext? || pc.DeqClear? || pc.DeqWait?
                                    || (pc.DeqCas? && slots[pc.slot].spinTail != NextCell(Id(l, t)))
    ensures i == k.ctx[t].pc.slot && DequeueTarget(Id(l, t), k.ctx[t], c', slots[i], sl') && AtQueue(k.ctx[t].pc)
    ensures MovesAndWrites(sw, l, k, h, slots, owner, t, c', h, i, sl')
  {
    i := k.ctx[t].pc.slot;
    c', sl' := LocalStep(sw, l, k, slots, t).lock.ctx[t], LocalStep(sw, l, k, slots, t).slots[i];
    assert slots[i := slots[i]] == slots;
  }

  lemma GoodDequeue(sw: nat, l: nat, k: Lock, h: History, slots: seq<Slot>, owner: seq<Option<Id>>, t: nat)
    requires |slots| == |owner| == NQUEUES && t < |k.ctx| && Consistent(slots, owner) && LockInv(l, k, h, slots, owner)
    requires !Stays(k.ctx[t])
    requires var pc := k.ctx[t].pc; pc.Await? || pc.DeqNext? || pc.DeqClear? || pc.DeqWait?
                                    || (pc.DeqCas? && slots[pc.slot].spinTail != NextCell(Id(l, t)))
    ensures StepIsGood(sw, l, k, h, slots, owner, t)
  {
    var c', i, sl' := DequeueMoves(sw, l, k, h, slots, owner, t);
    KeepDequeue(l, k, h, slots, owner, t, c', i, sl');
    GoodAtQueue(sw, l, k, h, slots, owner, t, c', h, i, sl');
  }

  lemma LeaveMoves(sw: nat, l: nat, k: Lock, h: History, slots: seq<Slot>, owner: seq<Option<Id>>, t: nat)
    returns (c': Ctx, i: SlotIx, sl': Slot)
    requires |slots| == |owner| == NQUEUES && t < |k.ctx|
    requires var pc := k.ctx[t].pc; pc.DeqAdvance? || (pc.DeqCas? && slots[pc.slot].spinTail == NextCell(Id(l, t)))
    ensures i == k.ctx[t].pc.slot && LeaveTarget(Id(l, t), k.ctx[t], c', slots[i], sl') && AtQueue(k.ctx[t].pc)
    ensures MovesAndWrites(sw, l, k, h, slots, owner, t, c', h.(q := Behind(h.q)), i, sl')
  {
    i := k.ctx[t].pc.slot;
    c', sl' := LocalStep(sw, l, k, slots, t).lock.ctx[t], LocalStep(sw, l, k, slots, t).slots[i];
  }

  lemma GoodLeave(sw: nat, l: nat, k: Lock, h: History, slots: seq<Slot>, owner: seq<Option<Id>>, t: nat)
    requires |slots| == |owner| == NQUEUES && t < |k.ctx| && Consistent(slots, owner) && LockInv(l, k, h, slots, owner)
    requires var pc := k.ctx[t].pc; pc.DeqAdvance? || (pc.DeqCas? && slots[pc.slot].spinTail == NextCell(Id(l, t)))
    ensures StepIsGood(sw, l, k, h, slots, owner, t)
  {
    var c', i, sl' := LeaveMoves(sw, l, k, h, slots, owner, t);
    KeepLeave(l, k, h, slots, owner, t, c', i, sl');
    GoodAtQueue(sw, l, k, h, slots, owner, t, c', h.(q := Behind(h.q)), i, sl');
  }

  /** A step that writes to an element of its own lock. */
  lemma GoodEffect(sw: nat, l: nat, k: Lock, h: History, slots: seq<Slot>, owner: seq<Option<Id>>, t: nat, k': Lock,
                   h': History)
    requires |slots| == |owner| == NQUEUES && t < |k.ctx| && Consistent(slots, owner)
    requires var r := LocalStep(sw, l, k, slots, t);
             && r.slots == slots && |r.lock.ctx| == |k.ctx| && After(r) == k'
             && r.effect != Nothing && r.effect.target.lock == l && r.effect.target.thread < |k.ctx|
    requires Advance(l, k, h, slots, t) == h' && Reserve(k, slots, owner, Id(l, t)) == owner
    requires LockInv(l, k', h', slots, owner)
    ensures StepIsGood(sw, l, k, h, slots, owner, t)
  {
  }

  lemma LinkSpinMoves(sw: nat, l: nat, k: Lock, h: History, slots: seq<Slot>, owner: seq<Option<Id>>, t: nat, i: SlotIx)
    requires |slots| == |owner| == NQUEUES && t < |k.ctx|
    requires k.ctx[t].pc == Link(i, SpinCell(i))
    ensures MovesAndWrites(sw, l, k, h, slots, owner, t, k.ctx[t].(pc := Await(i)), h, i,
            slots[i].(spin := Some(Id(l, t))))
    ensures Linked(k, t, None, Id(l, t)) == k.(ctx := k.ctx[t := k.ctx[t].(pc := Await(i))])
  {
  }

  lemma LinkNextMoves(sw: nat, l: nat, k: Lock, h: History, slots: seq<Slot>, owner: seq<Option<Id>>, t: nat, i: SlotIx,
                      e: nat)
    requires |slots| == |owner| == NQUEUES && t < |k.ctx| && e < |k.ctx|
    requires k.ctx[t].pc == Link(i, NextCell(Id(l, e)))
    ensures var r := LocalStep(sw, l, k, slots, t);
            && r.slots == slots && |r.lock.ctx| == |k.ctx| && After(r) == Linked(k, t, Some(e), Id(l, t))
            && r.effect == SetNext(Id(l, e), Id(l, t))
    ensures Advance(l, k, h, slots, t) == h && Reserve(k, slots, owner, Id(l, t)) == owner
  {
  }

  lemma GoodLinkSpin(sw: nat, l: nat, k: Lock, h: History, slots: seq<Slot>, owner: seq<Option<Id>>, t: nat, i: SlotIx)
    requires |slots| == |owner| == NQUEUES && t < |k.ctx| && Consistent(slots, owner) && LockInv(l, k, h, slots, owner)
    requires k.ctx[t].pc == Link(i, SpinCell(i)) && |h.q| > 0 && h.q[0] == t
    ensures StepIsGood(sw, l, k, h, slots, owner, t)
  {
    var sl' := slots[i].(spin := Some(Id(l, t)));
    KeepLink(l, k, h, slots, owner, t, 0, None, i, sl');
    LinkSpinMoves(sw, l, k, h, slots, owner, t, i);
    GoodAtQueue(sw, l, k, h, slots, owner, t, k.ctx[t].(pc := Await(i)), h, i, sl');
  }

  lemma LinkNextKeeps(l: nat, k: Lock, h: History, slots: seq<Slot>, owner: seq<Option<Id>>, t: nat, i: SlotIx, n: nat,
                      e: nat)
    requires |slots| == |owner| == NQUEUES && t < |k.ctx| && Consistent(slots, owner) && LockInv(l, k, h, slots, owner)
    requires 0 < n < |h.q| && h.q[n] == t && h.q[n - 1] == e < |k.ctx| && k.ctx[t].pc == Link(i, NextCell(Id(l, e)))
    ensures LockInv(l, Linked(k, t, Some(e), Id(l, t)), h, slots, owner)
  {
    SameSlots(slots, i);
    KeepLink(l, k, h, slots, owner, t, n, Some(e), i, slots[i]);
  }

  lemma SameSlots(slots: seq<Slot>, i: SlotIx)
    requires |slots| == NQUEUES
    ensures slots[i := slots[i]] == slots
  {
  }

  lemma GoodLinkNext(sw: nat, l: nat, k: Lock, h: History, slots: seq<Slot>, owner: seq<Option<Id>>, t: nat, i: SlotIx,
                     n: nat, e: nat)
    requires |slots| == |owner| == NQUEUES && t < |k.ctx| && Consistent(slots, owner) && LockInv(l, k, h, slots, owner)
    requires 0 < n < |h.q| && h.q[n] == t && h.q[n - 1] == e && k.ctx[t].pc == Link(i, NextCell(Id(l, e)))
    ensures StepIsGood(sw, l, k, h, slots, owner, t)
  {
    assert e in h.q;
    LinkNextKeeps(l, k, h, slots, owner, t, i, n, e);
    LinkNextMoves(sw, l, k, h, slots, owner, t, i, e);
    GoodEffect(sw, l, k, h, slots, owner, t, Linked(k, t, Some(e), Id(l, t)), h);
  }

  lemma GoodLink(sw: nat, l: nat, k: Lock, h: History, slots: seq<Slot>, owner: seq<Option<Id>>, t: nat)
    requires |slots| == |owner| == NQUEUES && t < |k.ctx| && Consistent(slots, owner) && LockInv(l, k, h, slots, owner)
    requires k.ctx[t].pc.Link?
    ensures StepIsGood(sw, l, k, h, slots, owner, t)
  {
    var i := k.ctx[t].pc.slot;
    assert CtxOk(Id(l, t), k.ctx[t], h, slots, owner);
    var n := Position(k, h, t);
    assert k.ctx[h.q[n]].pc.pred == CellBefore(l, h.q, i, n);
    if n == 0 {
      GoodLinkSpin(sw, l, k, h, slots, owner, t, i);
    } else {
      GoodLinkNext(sw, l, k, h, slots, owner, t, i, n, h.q[n - 1]);
    }
  }

  lemma GrantMoves(sw: nat, l: nat, k: Lock, h: History, slots: seq<Slot>, owner: seq<Option<Id>>, t: nat, w: nat)
    requires |slots| == |owner| == NQUEUES && t < |k.ctx| && w < |k.ctx|
    requires k.ctx[t].pc.WakeGrant? && k.ctx[t].pc.w == Id(l, w)
    ensures var r := LocalStep(sw, l, k, slots, t);
            && r.slots == slots && |r.lock.ctx| == |k.ctx| && After(r) == Granted(k, t, w)
            && r.effect == Grant(Id(l, w))
    ensures Advance(l, k, h, slots, t) == h.(token := Some(w)) && Reserve(k, slots, owner, Id(l, t)) == owner
  {
  }

  lemma GoodGrant(sw: nat, l: nat, k: Lock, h: History, slots: seq<Slot>, owner: seq<Option<Id>>, t: nat)
    requires |slots| == |owner| == NQUEUES && t < |k.ctx| && Consistent(slots, owner) && LockInv(l, k, h, slots, owner)
    requires k.ctx[t].pc.WakeGrant?
    ensures StepIsGood(sw, l, k, h, slots, owner, t)
  {
    KeepGrant(l, k, h, slots, owner, t);
    var w := h.q[0];
    GrantMoves(sw, l, k, h, slots, owner, t, w);
    GoodEffect(sw, l, k, h, slots, owner, t, Granted(k, t, w), h.(token := Some(w)));
  }

  // ---------------------------------------------------------------- tickets and phases

  lemma JoinMoves(sw: nat, l: nat, k: Lock, h: History, slots: seq<Slot>, owner: seq<Option<Id>>, t: nat)
        returns (c': Ctx)
    requires |slots| == |owner| == NQUEUES && t < |k.ctx| && k.ctx[t].pc.Idle?
    ensures JoinTarget(k, k.ctx[t], c')
    ensures LocalStep(sw, l, k, slots, t) == Result(Joined(k, t, c'), slots, Nothing)
    ensures Advance(l, k, h, slots, t) == JoinedHistory(h, t) && Reserve(k, slots, owner, Id(l, t)) == owner
  {
    c' := LocalStep(sw, l, k, slots, t).lock.ctx[t];
  }

  lemma ReleaseMoves(sw: nat, l: nat, k: Lock, h: History, slots: seq<Slot>, owner: seq<Option<Id>>, t: nat)
        returns (c': Ctx)
    requires |slots| == |owner| == NQUEUES && t < |k.ctx| && k.ctx[t].pc.Critical?
    ensures ReleaseTarget(k, k.ctx[t], c')
    ensures LocalStep(sw, l, k, slots, t) == Result(Released(k, t, c'), slots, Nothing)
    ensures Advance(l, k, h, slots, t) == ReleasedHistory(h, t) && Reserve(k, slots, owner, Id(l, t)) == owner
  {
    c' := LocalStep(sw, l, k, slots, t).lock.ctx[t];
  }

  lemma GoodTicket(sw: nat, l: nat, k: Lock, h: History, slots: seq<Slot>, owner: seq<Option<Id>>, t: nat)
    requires |slots| == |owner| == NQUEUES && t < |k.ctx| && Consistent(slots, owner) && LockInv(l, k, h, slots, owner)
    requires k.ctx[t].pc.Idle? || k.ctx[t].pc.Critical?
    ensures StepIsGood(sw, l, k, h, slots, owner, t)
  {
    if k.ctx[t].pc.Idle? {
      var c' := JoinMoves(sw, l, k, h, slots, owner, t);
      KeepJoin(l, k, h, slots, owner, t, c');
      GoodLocal(sw, l, k, h, slots, owner, t, Joined(k, t, c'), JoinedHistory(h, t));
    } else {
      var c' := ReleaseMoves(sw, l, k, h, slots, owner, t);
      KeepRelease(l, k, h, slots, owner, t, c');
      GoodLocal(sw, l, k, h, slots, owner, t, Released(k, t, c'), ReleasedHistory(h, t));
    }
  }

  lemma AttachMoves(sw: nat, l: nat, k: Lock, h: History, slots: seq<Slot>, owner: seq<Option<Id>>, t: nat)
        returns (c': Ctx)
    requires |slots| == |owner| == NQUEUES && t < |k.ctx| && k.ctx[t].pc.InitCas? && !WillFail(k, slots, k.ctx[t].pc)
    ensures AttachTarget(k, k.ctx[t], c')
    ensures LocalStep(sw, l, k, slots, t) == Result(Rewritten(k, k.head + 1, t, c'), slots, Nothing)
    ensures Advance(l, k, h, slots, t) == h.(phase := Forming(k.ctx[t].pc.slot, t))
    ensures Reserve(k, slots, owner, Id(l, t)) == owner
  {
    c' := LocalStep(sw, l, k, slots, t).lock.ctx[t];
  }

  lemma DetachMoves(sw: nat, l: nat, k: Lock, h: History, slots: seq<Slot>, owner: seq<Option<Id>>, t: nat)
        returns (c': Ctx)
    requires |slots| == |owner| == NQUEUES && t < |k.ctx| && k.ctx[t].pc.UnqCas? && !WillFail(k, slots, k.ctx[t].pc)
    ensures DetachTarget(k, k.ctx[t], c')
    ensures LocalStep(sw, l, k, slots, t) == Result(Rewritten(k, Even(k.head), t, c'), slots, Nothing)
    ensures Advance(l, k, h, slots, t) == h.(phase := Stale(k.ctx[t].pc.slot, t), token := None)
    ensures Reserve(k, slots, owner, Id(l, t)) == owner
  {
    c' := LocalStep(sw, l, k, slots, t).lock.ctx[t];
  }

  lemma GoodBit(sw: nat, l: nat, k: Lock, h: History, slots: seq<Slot>, owner: seq<Option<Id>>, t: nat)
    requires |slots| == |owner| == NQUEUES && t < |k.ctx| && Consistent(slots, owner) && LockInv(l, k, h, slots, owner)
    requires (k.ctx[t].pc.InitCas? && !Detaching(k)) || k.ctx[t].pc.UnqCas?
    requires !WillFail(k, slots, k.ctx[t].pc)
    ensures StepIsGood(sw, l, k, h, slots, owner, t)
  {
    var i := k.ctx[t].pc.slot;
    if k.ctx[t].pc.InitCas? {
      var c' := AttachMoves(sw, l, k, h, slots, owner, t);
      KeepAttach(l, k, h, slots, owner, t, c');
      GoodLocal(sw, l, k, h, slots, owner, t, Rewritten(k, k.head + 1, t, c'), h.(phase := Forming(i, t)));
    } else {
      var c' := DetachMoves(sw, l, k, h, slots, owner, t);
      KeepDetach(l, k, h, slots, owner, t, c');
      GoodLocal(sw, l, k, h, slots, owner, t, Rewritten(k, Even(k.head), t, c'),
          h.(phase := Stale(i, t), token := None));
    }
  }

  lemma RefMoves(sw: nat, l: nat, k: Lock, h: History, slots: seq<Slot>, owner: seq<Option<Id>>, t: nat, i: SlotIx)
    requires |slots| == |owner| == NQUEUES && t < |k.ctx|
    requires k.ctx[t].pc == Publish(i) || (k.ctx[t].pc == UnqClear(i) && owner[i] == None)
    ensures var pub := k.ctx[t].pc.Publish?;
            && LocalStep(sw, l, k, slots, t) ==
               Result(SetPc(k, t, if pub then Find(Hash(l)) else Idle),
                      slots[i := slots[i].(ref := if pub then Bound(l) else Free)], Nothing)
            && Advance(l, k, h, slots, t) == h.(phase := if pub then Queued(i) else Ticket)
            && Reserve(k, slots, owner, Id(l, t)) == owner[i := None]
  {
    assert owner[i] == None ==> owner[i := None] == owner;
  }

  lemma GoodRef(sw: nat, l: nat, k: Lock, h: History, slots: seq<Slot>, owner: seq<Option<Id>>, t: nat, i: SlotIx)
    requires |slots| == |owner| == NQUEUES && t < |k.ctx| && Consistent(slots, owner) && LockInv(l, k, h, slots, owner)
    requires k.ctx[t].pc == Publish(i) || k.ctx[t].pc == UnqClear(i)
    ensures StepIsGood(sw, l, k, h, slots, owner, t)
  {
    OwnSlot(l, k, h, slots, owner, t);
    RefMoves(sw, l, k, h, slots, owner, t, i);
    if k.ctx[t].pc.Publish? {
      KeepPublish(l, k, h, slots, owner, t, k.ctx[t].(pc := Find(Hash(l))), i);
      GoodWrite(sw, l, k, h, slots, owner, t, SetPc(k, t, Find(Hash(l))), h.(phase := Queued(i)), i,
                slots[i].(ref := Bound(l)), None);
    } else {
      KeepClear(l, k, h, slots, owner, t, i);
      assert owner[i := None] == owner;
      GoodWrite(sw, l, k, h, slots, owner, t, SetPc(k, t, Idle), h.(phase := Ticket), i, slots[i].(ref := Free), None);
    }
  }

  /** Every step of a context keeps the invariant of its lock. */
  lemma EveryStepIsGood(sw: nat, l: nat, k: Lock, h: History, slots: seq<Slot>, owner: seq<Option<Id>>, t: nat)
    requires |slots| == |owner| == NQUEUES && t < |k.ctx| && Consistent(slots, owner) && LockInv(l, k, h, slots, owner)
    requires k.ctx[t].pc.InitCas? ==> !Detaching(k)
    ensures StepIsGood(sw, l, k, h, slots, owner, t)
  {
    var pc := k.ctx[t].pc;
    if WaitRead(pc) { GoodWaitRead(sw, l, k, h, slots, owner, t);
    } else if pc.Idle? || pc.Critical? { GoodTicket(sw, l, k, h, slots, owner, t);
    } else if pc.HeadCheck? { GoodHeadCheck(sw, l, k, h, slots, owner, t);
    } else if pc.HeadTake? || pc.WakeReset? { GoodReset(sw, l, k, h, slots, owner, t);
    } else if pc.Enqueue? { GoodEnqueue(sw, l, k, h, slots, owner, t);
    } else if pc.Link? { GoodLink(sw, l, k, h, slots, owner, t);
    } else if Stays(k.ctx[t]) { GoodStay(sw, l, k, h, slots, owner, t);
    } else if pc.DeqAdvance? || (pc.DeqCas? && slots[pc.slot].spinTail == NextCell(Id(l, t))) {
      GoodLeave(sw, l, k, h, slots, owner, t);
    } else if pc.Await? || Dequeuing(pc) { GoodDequeue(sw, l, k, h, slots, owner, t);
    } else if pc.WakeGrant? { GoodGrant(sw, l, k, h, slots, owner, t);
    } else if pc.Publish? || pc.UnqClear? { GoodRef(sw, l, k, h, slots, owner, t, pc.slot);
    } else if (pc.InitCas? || pc.UnqCas?) && !WillFail(k, slots, pc) { GoodBit(sw, l, k, h, slots, owner, t);
    } else if WakeRead(pc) { GoodWakeRead(sw, l, k, h, slots, owner, t);
    } else if (pc.ClaimCas? || pc.InitCas?) && WillFail(k, slots, pc) { GoodRetry(sw, l, k, h, slots, owner, t);
    } else { GoodReserve(sw, l, k, h, slots, owner, t);
    }
  }
}
