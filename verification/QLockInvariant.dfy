/**
 * The invariant of the queued ticket lock, stated with auxiliary history that the machine itself
 * does not have: the line of unserved tickets, the phase of the queue, the queue in the order of
 * the `spin_tail` exchanges, and the one token that stands for the right to enter.
 */
module QLockInvariant {
  import opened Sequences
  import opened Wrappers
  import opened TicketWords
  import opened QLockModel

  /**
   * Ticket: no queue.  Forming: the queue bit is set and the former is about to publish `ref`.
   * Queued: a slot is bound.  Stale: the bit is clear again, but `ref` still names the lock.
   */
  datatype Phase =
    | Ticket
    | Forming(slot: SlotIx, former: nat)
    | Queued(slot: SlotIx)
    | Stale(slot: SlotIx, waker: nat)

  datatype History = History(line: seq<nat>, phase: Phase, q: seq<nat>, token: Option<nat>)

  // ---------------------------------------------------------------- program points

  /** The context has drawn a ticket and not yet released. */
  predicate Outstanding(pc: PC) {
    !pc.Idle? && !pc.UnqClear? && !Waker(pc)
  }

  /** The context has released and is inside tkt_q_do_wake, before line 119. */
  predicate Waker(pc: PC) {
    pc.WakeFind? || pc.WakeSpin? || pc.UnqRead? || pc.UnqCas? || pc.WakeHead? || pc.WakeReset? || pc.WakeGrant?
  }

  /** The context's element is in the queue. */
  predicate InQueue(pc: PC) {
    pc.Link? || pc.Await? || Dequeuing(pc)
  }

  predicate Dequeuing(pc: PC) {
    pc.DeqNext? || pc.DeqClear? || pc.DeqCas? || pc.DeqWait? || pc.DeqAdvance?
  }

  /** The context has reserved a slot and not yet published or returned it. */
  predicate Reserving(pc: PC) {
    pc.InitSpin? || pc.InitTail? || Prepared(pc) || pc.BackOut? || pc.Publish?
  }

  predicate Attached(p: Phase) { p.Forming? || p.Queued? }

  function BoundSlot(p: Phase): Option<SlotIx> {
    match p
    case Queued(i) => Some(i)
    case Stale(i, _) => Some(i)
    case _ => None
  }

  // ---------------------------------------------------------------- the pieces

  /** The line holds exactly the contexts with a ticket, the queue exactly those with an element in it. */
  ghost predicate Counting(k: Lock, h: History) {
    && |k.ctx| <= MAX_THREADS
    && 0 <= k.head < WORD
    && k.tail == Wrap(Even(k.head) + 2 * |h.line|)
    && (Odd(k.head) <==> Attached(h.phase))
    && Distinct(h.line)
    && Distinct(h.q)
    && Within(h.line, |k.ctx|)
    && Within(h.q, |k.ctx|)
    && (forall t :: 0 <= t < |k.ctx| ==> (Outstanding(k.ctx[t].pc) <==> t in h.line))
    && (forall t :: 0 <= t < |k.ctx| ==> (InQueue(k.ctx[t].pc) <==> t in h.q))
    && (!h.phase.Queued? ==> h.q == [])
  }

  /** Exactly the slot of the phase names the lock. */
  ghost predicate Refs(l: nat, k: Lock, h: History, slots: seq<Slot>)
    requires |slots| == NQUEUES
  {
    && (forall i: SlotIx :: slots[i].ref == Bound(l) <==> BoundSlot(h.phase) == Some(i))
    && (h.phase.Forming? ==> h.phase.former < |k.ctx| && k.ctx[h.phase.former].pc == Publish(h.phase.slot))
    && (h.phase.Stale? ==> h.phase.waker < |k.ctx| && k.ctx[h.phase.waker].pc == UnqClear(h.phase.slot))
  }

  /** Program points reached only while slot `pc.slot` is bound to the lock. */
  predicate AtQueue(pc: PC) {
    pc.HeadCheck? || pc.HeadTake? || pc.Enqueue? || InQueue(pc) || (Waker(pc) && !pc.WakeFind?)
  }

  /** Program points that only the holder of the token reaches. */
  predicate NeedsToken(pc: PC) {
    pc.HeadTake? || Dequeuing(pc) || pc.Critical? || Waker(pc)
  }

  /** Lines 273 and 274 are done. */
  predicate Prepared(pc: PC) {
    pc.InitRead? || pc.InitHead? || pc.InitCas?
  }

  /** What a context knows at its program point. */
  ghost predicate CtxOk(id: Id, c: Ctx, h: History, slots: seq<Slot>, owner: seq<Option<Id>>)
    requires |slots| == |owner| == NQUEUES
  {
    var pc, mine := c.pc, h.token == Some(id.thread);
    && (Outstanding(pc) ==> 0 <= c.tkt < WORD && !Odd(c.tkt))
    && (pc.Find? || pc.BackOut? || pc.WakeFind? ==> Attached(h.phase))
    && (AtQueue(pc) ==> h.phase == Queued(pc.slot))
    && (NeedsToken(pc) ==> mine)
    && (pc.Enqueue? || pc.Link? ==> !mine)
    && (pc.HeadCheck? || pc.Enqueue? ==> c.next == None)
    && (pc.HeadCheck? || pc.Enqueue? || pc.Link? ==> !c.granted)
    && (pc.Await? ==> (c.granted <==> mine))
    && (pc.Publish? ==> h.phase == Forming(pc.slot, id.thread))
    && (pc.UnqClear? ==> h.phase == Stale(pc.slot, id.thread))
    && (Reserving(pc) ==> owner[pc.slot] == Some(id))
    && (pc.InitTail? || Prepared(pc) ==> slots[pc.slot].spin == None)
    && (Prepared(pc) ==> slots[pc.slot].spinTail == SpinCell(pc.slot))
    && (pc.InitHead? || pc.InitCas? ==> 0 <= pc.oh && !Odd(pc.oh))
    && (pc.InitCas? ==> slots[pc.slot].headTkt == pc.oh)
    && (pc.UnqCas? ==> 0 <= pc.oh && Odd(pc.oh) && Even(pc.oh) == pc.ot)
    && (pc.HeadTake? ==> slots[pc.slot].headTkt == c.tkt)
    && (pc.WakeGrant? ==> slots[pc.slot].headTkt == -1)
  }

  /** The tickets in the line are consecutive and start at the head word. */
  ghost predicate Aligned(k: Lock, line: seq<nat>) {
    forall j :: 0 <= j < |line| ==> line[j] < |k.ctx| && k.ctx[line[j]].tkt == Wrap(Even(k.head) + 2 * j)
  }

  /** With a queue: who has the token, and what `head_tkt` says about it. */
  ghost predicate QueueToken(l: nat, k: Lock, h: History, sl: Slot) {
    && h.token.Some?
    && var t := h.token.value;
    && t < |k.ctx|
    && var pc := k.ctx[t].pc;
    && (if sl.headTkt == -1 then
          Dequeuing(pc) || pc.Critical? || Waker(pc) || (pc.Await? && k.ctx[t].granted)
        else
          && Aligned(k, h.line)
          && (if Waker(pc) then sl.headTkt == Wrap(Even(k.head) - 2)
              else |h.line| > 0 && t == h.line[0] && !InQueue(pc) && !pc.Enqueue? && sl.headTkt == Even(k.head)))
    && (pc.WakeHead? || pc.WakeReset? || pc.WakeGrant? ==>
          |h.q| > 0 && pc.w == Id(l, h.q[0]) && h.q[0] < |k.ctx| && k.ctx[h.q[0]].pc.Await?)
  }

  ghost predicate Token(l: nat, k: Lock, h: History, slots: seq<Slot>)
    requires |slots| == NQUEUES
  {
    if Attached(h.phase) then QueueToken(l, k, h, slots[h.phase.slot])
    else h.token == (if |h.line| == 0 then None else Some(h.line[0])) && Aligned(k, h.line)
  }

  /** The cell that the enqueuer behind position n found in `spin_tail`. */
  function CellBefore(l: nat, q: seq<nat>, i: SlotIx, n: nat): Cell
    requires n <= |q|
  {
    if n == 0 then SpinCell(i) else NextCell(Id(l, q[n - 1]))
  }

  /** The link from position n to the next element: missing as long as its second stage is pending. */
  function LinkTo(l: nat, k: Lock, q: seq<nat>, n: nat): Option<Id>
    requires Within(q, |k.ctx|)
  {
    if n + 1 < |q| && !k.ctx[q[n + 1]].pc.Link? then Some(Id(l, q[n + 1])) else None
  }

  /** An enqueuer between its two stages is going to write the cell of its predecessor. */
  ghost predicate PendingLinks(l: nat, k: Lock, q: seq<nat>, i: SlotIx)
    requires Within(q, |k.ctx|)
  {
    forall n :: 0 <= n < |q| && k.ctx[q[n]].pc.Link? ==> k.ctx[q[n]].pc.pred == CellBefore(l, q, i, n)
  }

  ghost predicate Links(l: nat, k: Lock, q: seq<nat>)
    requires Within(q, |k.ctx|)
  {
    forall n :: 0 <= n < |q| ==> k.ctx[q[n]].next == LinkTo(l, k, q, n)
  }

  /** Behind the front everybody still enqueues or waits ungranted. */
  predicate Waits(c: Ctx) {
    c.pc.Link? || (c.pc.Await? && !c.granted)
  }

  ghost predicate Waiting(k: Lock, q: seq<nat>)
    requires Within(q, |k.ctx|)
  {
    forall n :: 1 <= n < |q| ==> Waits(k.ctx[q[n]])
  }

  /** What `spin` holds, by the program point of the front element. */
  predicate Front(front: Id, c: Ctx, spin: Option<Id>, more: bool) {
    && (c.pc.Link? || c.pc.DeqCas? || c.pc.DeqWait? ==> spin == None)
    && (c.pc.Await? || c.pc.DeqNext? || c.pc.DeqClear? ==> spin == Some(front))
    && (c.pc.DeqWait? ==> more)
    && (c.pc.DeqAdvance? ==> c.next != None)
  }

  /** Following `spin`, the `next` links and the pending link writes passes through q and ends at `spin_tail`. */
  ghost predicate Shape(l: nat, k: Lock, q: seq<nat>, i: SlotIx, sl: Slot)
    requires Within(q, |k.ctx|)
  {
    && sl.spinTail == CellBefore(l, q, i, |q|)
    && PendingLinks(l, k, q, i)
    && Links(l, k, q)
    && Waiting(k, q)
    && (if q == [] then sl.spin == None else Front(Id(l, q[0]), k.ctx[q[0]], sl.spin, |q| > 1))
  }

  ghost predicate LockInv(l: nat, k: Lock, h: History, slots: seq<Slot>, owner: seq<Option<Id>>)
    requires |slots| == |owner| == NQUEUES
  {
    && Counting(k, h)
    && Refs(l, k, h, slots)
    && (forall t :: 0 <= t < |k.ctx| ==> CtxOk(Id(l, t), k.ctx[t], h, slots, owner))
    && Token(l, k, h, slots)
    && (Attached(h.phase) ==> Shape(l, k, h.q, h.phase.slot, slots[h.phase.slot]))
  }

  /** Every reservation has an owner. */
  ghost predicate Consistent(slots: seq<Slot>, owner: seq<Option<Id>>)
    requires |slots| == |owner| == NQUEUES
  {
    forall i: SlotIx :: slots[i].ref.Claimed? <==> owner[i].Some?
  }

  // ---------------------------------------------------------------- how the history grows

  function Without(s: seq<nat>, x: nat): (r: seq<nat>)
  {
    if s == [] then [] else if s[0] == x then s[1..] else [s[0]] + Without(s[1..], x)
  }

  function Behind(q: seq<nat>): seq<nat> {
    if q == [] then [] else q[1..]
  }

  function FirstOf(line: seq<nat>): Option<nat> {
    if |line| == 0 then None else Some(line[0])
  }

  /** The history after the step of thread t. */
  function Advance(l: nat, k: Lock, h: History, slots: seq<Slot>, t: nat): History
    requires t < |k.ctx| && |slots| == NQUEUES
  {
    match k.ctx[t].pc
    case Idle =>
      h.(line := h.line + [t],
         token := if h.line == [] && !Attached(h.phase) then Some(t) else h.token)
    case Enqueue(_) => h.(q := h.q + [t])
    case DeqCas(i) =>
      if slots[i].spinTail == NextCell(Id(l, t)) then h.(q := Behind(h.q)) else h
    case DeqAdvance(_) => h.(q := Behind(h.q))
    case Critical =>
      var rest := Without(h.line, t);
      h.(line := rest, token := if Attached(h.phase) then h.token else FirstOf(rest))
    case InitCas(i, oh, ot) => if k.head == oh && k.tail == ot then h.(phase := Forming(i, t)) else h
    case Publish(i) => h.(phase := Queued(i))
    case UnqCas(i, oh, ot) =>
      if k.head == oh && k.tail == ot then h.(phase := Stale(i, t), token := None) else h
    case UnqClear(_) => h.(phase := Ticket)
    case WakeGrant(_, w) => h.(token := Some(w.thread))
    case _ => h
  }

  /** The slot reservations after the step. */
  function Reserve(k: Lock, slots: seq<Slot>, owner: seq<Option<Id>>, id: Id): seq<Option<Id>>
    requires id.thread < |k.ctx| && |slots| == |owner| == NQUEUES
  {
    match k.ctx[id.thread].pc
    case ClaimCas(i) => if slots[i].ref == Free then owner[i := Some(id)] else owner
    case BackOut(i) => owner[i := None]
    case Publish(i) => owner[i := None]
    case _ => owner
  }
}
