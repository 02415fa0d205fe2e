/** Attaching a slot to a lock and detaching it again keep the invariant. */
module QLockPhases {
  import opened Wrappers
  import opened TicketWords
  import opened QLockModel
  import opened QLockInvariant
  import opened QLockPreservation
  import opened QLockReservation
  import opened QLockTickets

  /** Two ways to change a context and the head word at once. */
  function Rewritten(k: Lock, head: int, t: nat, c': Ctx): Lock
    requires t < |k.ctx|
  {
    k.(head := head, ctx := k.ctx[t := c'])
  }

  // ---------------------------------------------------------------- line 298: the queue bit is set

  predicate AttachTarget(k: Lock, c: Ctx, c': Ctx) {
    c.pc.InitCas? && c.pc.oh == k.head && c' == c.(pc := Publish(c.pc.slot))
  }

  /** Without a queue nobody is at a queue. */
  lemma AttachCtx(l: nat, k: Lock, h: History, slots: seq<Slot>, owner: seq<Option<Id>>, t: nat, c': Ctx, u: nat)
    requires |slots| == |owner| == NQUEUES && t < |k.ctx| && u < |k.ctx| && AttachTarget(k, k.ctx[t], c')
    requires h.phase == Ticket && CtxOk(Id(l, u), k.ctx[u], h, slots, owner)
    ensures CtxOk(Id(l, u), k.ctx[t := c'][u], h.(phase := Forming(k.ctx[t].pc.slot, t)), slots, owner)
    ensures !AtQueue(k.ctx[u].pc) && !Waker(k.ctx[u].pc)
  {
  }

  lemma AttachToken(l: nat, k: Lock, h: History, sl: Slot, t: nat, c': Ctx, h': History)
    requires Counting(k, h) && t < |k.ctx| && AttachTarget(k, k.ctx[t], c') && !Odd(k.head)
    requires Aligned(k, h.line) && h.token == FirstOf(h.line)
    requires sl.headTkt == k.head
    requires forall u :: 0 <= u < |k.ctx| ==> !AtQueue(k.ctx[u].pc) && !Waker(k.ctx[u].pc)
    requires h' == h.(phase := Forming(k.ctx[t].pc.slot, t))
    ensures QueueToken(l, Rewritten(k, k.head + 1, t, c'), h', sl)
  {
    assert t in h.line;
    assert h.line[0] in h.line;
    AttachAligned(k, h.line, t, c');
  }

  lemma AttachAligned(k: Lock, line: seq<nat>, t: nat, c': Ctx)
    requires Aligned(k, line) && t < |k.ctx| && c'.tkt == k.ctx[t].tkt && !Odd(k.head)
    ensures Aligned(Rewritten(k, k.head + 1, t, c'), line)
  {
    SameEven(k.head);
    SameTickets(k, Rewritten(k, k.head + 1, t, c'), line);
  }

  lemma SameEven(head: int)
    requires !Odd(head)
    ensures Even(head + 1) == Even(head)
  {
  }

  lemma SameTickets(k: Lock, k': Lock, line: seq<nat>)
    requires Aligned(k, line) && |k'.ctx| == |k.ctx| && Even(k'.head) == Even(k.head)
    requires forall u :: 0 <= u < |k.ctx| ==> k'.ctx[u].tkt == k.ctx[u].tkt
    ensures Aligned(k', line)
  {
    forall j | 0 <= j < |line| ensures line[j] < |k'.ctx| && k'.ctx[line[j]].tkt == Wrap(Even(k'.head) + 2 * j) {
      assert k.ctx[line[j]].tkt == Wrap(Even(k.head) + 2 * j);
    }
  }

  lemma AttachCounting(k: Lock, h: History, t: nat, c': Ctx)
    requires Counting(k, h) && t < |k.ctx| && AttachTarget(k, k.ctx[t], c') && !Odd(k.head)
    ensures Counting(Rewritten(k, k.head + 1, t, c'), h.(phase := Forming(k.ctx[t].pc.slot, t)))
  {
  }

  lemma AttachRefs(l: nat, k: Lock, h: History, slots: seq<Slot>, t: nat, c': Ctx)
    requires |slots| == NQUEUES && Refs(l, k, h, slots) && h.phase == Ticket
    requires t < |k.ctx| && AttachTarget(k, k.ctx[t], c')
    ensures Refs(l, Rewritten(k, k.head + 1, t, c'), h.(phase := Forming(k.ctx[t].pc.slot, t)), slots)
  {
  }

  lemma KeepAttach(l: nat, k: Lock, h: History, slots: seq<Slot>, owner: seq<Option<Id>>, t: nat, c': Ctx)
    requires |slots| == |owner| == NQUEUES && t < |k.ctx| && LockInv(l, k, h, slots, owner)
    requires AttachTarget(k, k.ctx[t], c') && !Detaching(k)
    ensures !Odd(k.head)
    ensures LockInv(l, Rewritten(k, k.head + 1, t, c'), h.(phase := Forming(k.ctx[t].pc.slot, t)), slots, owner)
  {
    var i := k.ctx[t].pc.slot;
    var k', h' := Rewritten(k, k.head + 1, t, c'), h.(phase := Forming(i, t));
    assert CtxOk(Id(l, t), k.ctx[t], h, slots, owner);
    assert h.phase == Ticket;
    forall u | 0 <= u < |k.ctx|
      ensures CtxOk(Id(l, u), k'.ctx[u], h', slots, owner) && !AtQueue(k.ctx[u].pc) && !Waker(k.ctx[u].pc)
    {
      AttachCtx(l, k, h, slots, owner, t, c', u);
    }
    AttachCounting(k, h, t, c');
    AttachRefs(l, k, h, slots, t, c');
    AttachToken(l, k, h, slots[i], t, c', h');
  }

  // ---------------------------------------------------------------- line 303: ref is published

  predicate PublishTarget(c: Ctx, c': Ctx) {
    c.pc.Publish? && c'.pc.Find? && c'.tkt == c.tkt
  }

  lemma PublishCtx(l: nat, h: History, slots: seq<Slot>, owner: seq<Option<Id>>, t: nat, u: nat, c: Ctx, c': Ctx,
                   i: SlotIx)
    requires |slots| == |owner| == NQUEUES && CtxOk(Id(l, u), c, h, slots, owner)
    requires h.phase == Forming(i, t) && owner[i] == Some(Id(l, t))
    requires if u == t then PublishTarget(c, c') else c' == c
    ensures CtxOk(Id(l, u), c', h.(phase := Queued(i)), slots[i := slots[i].(ref := Bound(l))], owner[i := None])
  {
  }

  lemma PublishToken(l: nat, k: Lock, h: History, sl: Slot, t: nat, c': Ctx, i: SlotIx)
    requires t < |k.ctx| && PublishTarget(k.ctx[t], c') && QueueToken(l, k, h, sl)
    ensures QueueToken(l, k.(ctx := k.ctx[t := c']), h.(phase := Queued(i)), sl.(ref := Bound(l)))
  {
    assert Aligned(k, h.line) ==> Aligned(k.(ctx := k.ctx[t := c']), h.line);
  }

  lemma PublishCounting(k: Lock, h: History, t: nat, c': Ctx, i: SlotIx)
    requires Counting(k, h) && t < |k.ctx| && PublishTarget(k.ctx[t], c') && h.phase.Forming?
    ensures Counting(k.(ctx := k.ctx[t := c']), h.(phase := Queued(i))) && h.q == []
  {
  }

  lemma PublishRefs(l: nat, k: Lock, h: History, slots: seq<Slot>, k': Lock, i: SlotIx)
    requires |slots| == NQUEUES && Refs(l, k, h, slots) && h.phase.Forming?
    ensures Refs(l, k', h.(phase := Queued(i)), slots[i := slots[i].(ref := Bound(l))])
  {
  }

  lemma KeepPublish(l: nat, k: Lock, h: History, slots: seq<Slot>, owner: seq<Option<Id>>, t: nat, c': Ctx, i: SlotIx)
    requires |slots| == |owner| == NQUEUES && t < |k.ctx| && LockInv(l, k, h, slots, owner)
    requires PublishTarget(k.ctx[t], c') && i == k.ctx[t].pc.slot
    ensures LockInv(l, k.(ctx := k.ctx[t := c']), h.(phase := Queued(i)), slots[i := slots[i].(ref := Bound(l))],
            owner[i := None])
  {
    var k', h' := k.(ctx := k.ctx[t := c']), h.(phase := Queued(i));
    assert CtxOk(Id(l, t), k.ctx[t], h, slots, owner);
    PublishCounting(k, h, t, c', i);
    PublishRefs(l, k, h, slots, k', i);
    PublishToken(l, k, h, slots[i], t, c', i);
    ShapeMoved(l, k, h.q, i, slots[i], t, c');
    forall u | 0 <= u < |k.ctx|
      ensures CtxOk(Id(l, u), k'.ctx[u], h', slots[i := slots[i].(ref := Bound(l))], owner[i := None])
    {
      PublishCtx(l, h, slots, owner, t, u, k.ctx[u], k'.ctx[u], i);
    }
  }

  // ---------------------------------------------------------------- line 114: the queue bit is cleared

  predicate DetachTarget(k: Lock, c: Ctx, c': Ctx) {
    c.pc.UnqCas? && c.pc.oh == k.head && c.pc.ot == k.tail && c' == c.(pc := UnqClear(c.pc.slot))
  }

  /** The compare-exchange succeeds only when every ticket was returned, so nobody else uses the lock. */
  lemma NobodyLeft(l: nat, k: Lock, h: History, slots: seq<Slot>, owner: seq<Option<Id>>, t: nat, c': Ctx)
    requires |slots| == |owner| == NQUEUES && t < |k.ctx| && LockInv(l, k, h, slots, owner)
    requires DetachTarget(k, k.ctx[t], c')
    ensures h.line == [] && h.q == [] && h.phase == Queued(k.ctx[t].pc.slot)
    ensures forall u :: 0 <= u < |k.ctx| && u != t ==> k.ctx[u].pc.Idle?
  {
    assert CtxOk(Id(l, t), k.ctx[t], h, slots, owner);
    FreeWords(k, h, t);
    HasFirst(h.q);
    forall u | 0 <= u < |k.ctx| && u != t ensures k.ctx[u].pc.Idle? {
      assert CtxOk(Id(l, u), k.ctx[u], h, slots, owner);
    }
  }

  lemma HasFirst(q: seq<nat>)
    ensures q == [] || q[0] in q
  {
  }

  lemma DetachCounting(k: Lock, h: History, t: nat, c': Ctx, h': History)
    requires Counting(k, h) && t < |k.ctx| && DetachTarget(k, k.ctx[t], c') && h.line == h.q == []
    requires h'.line == h'.q == [] && !Attached(h'.phase)
    ensures Counting(Rewritten(k, Even(k.head), t, c'), h')
  {
  }

  lemma KeepDetach(l: nat, k: Lock, h: History, slots: seq<Slot>, owner: seq<Option<Id>>, t: nat, c': Ctx)
    requires |slots| == |owner| == NQUEUES && t < |k.ctx| && LockInv(l, k, h, slots, owner)
    requires DetachTarget(k, k.ctx[t], c')
    ensures LockInv(l, Rewritten(k, Even(k.head), t, c'), h.(phase := Stale(k.ctx[t].pc.slot, t), token := None), slots,
            owner)
  {
    var k', h' := Rewritten(k, Even(k.head), t, c'), h.(phase := Stale(k.ctx[t].pc.slot, t), token := None);
    NobodyLeft(l, k, h, slots, owner, t, c');
    DetachCounting(k, h, t, c', h');
    assert Refs(l, k', h', slots);
    forall u | 0 <= u < |k.ctx| ensures CtxOk(Id(l, u), k'.ctx[u], h', slots, owner) {
    }
  }

  // ---------------------------------------------------------------- line 119: ref is cleared

  lemma ClearCtx(l: nat, k: Lock, h: History, slots: seq<Slot>, owner: seq<Option<Id>>, t: nat, u: nat, i: SlotIx)
    requires |slots| == |owner| == NQUEUES && t < |k.ctx| && u < |k.ctx|
    requires h.phase == Stale(i, t) && CtxOk(Id(l, u), k.ctx[u], h, slots, owner)
    ensures CtxOk(Id(l, u), SetPc(k, t, Idle).ctx[u], h.(phase := Ticket), slots[i := slots[i].(ref := Free)], owner)
  {
  }

  lemma ClearToken(l: nat, k: Lock, h: History, slots: seq<Slot>, t: nat, slots': seq<Slot>)
    requires |slots| == |slots'| == NQUEUES && t < |k.ctx| && h.phase.Stale? && Token(l, k, h, slots)
    ensures Token(l, SetPc(k, t, Idle), h.(phase := Ticket), slots')
  {
    assert Aligned(SetPc(k, t, Idle), h.line);
  }

  lemma KeepClear(l: nat, k: Lock, h: History, slots: seq<Slot>, owner: seq<Option<Id>>, t: nat, i: SlotIx)
    requires |slots| == |owner| == NQUEUES && t < |k.ctx| && LockInv(l, k, h, slots, owner)
    requires k.ctx[t].pc == UnqClear(i)
    ensures LockInv(l, SetPc(k, t, Idle), h.(phase := Ticket), slots[i := slots[i].(ref := Free)], owner)
  {
    var slots' := slots[i := slots[i].(ref := Free)];
    assert CtxOk(Id(l, t), k.ctx[t], h, slots, owner);
    CountingMoved(k, h, t, k.ctx[t].(pc := Idle));
    ClearToken(l, k, h, slots, t, slots');
    assert Refs(l, SetPc(k, t, Idle), h.(phase := Ticket), slots');
    forall u | 0 <= u < |k.ctx|
      ensures CtxOk(Id(l, u), SetPc(k, t, Idle).ctx[u], h.(phase := Ticket), slots', owner)
    {
      ClearCtx(l, k, h, slots, owner, t, u, i);
    }
  }
}
