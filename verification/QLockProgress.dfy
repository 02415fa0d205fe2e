/**
 * No wakeup is lost: from every reachable state with a ticket out, the contexts of that lock alone
 * can bring each of those that have one into the critical section.  There is always a context that everybody else
 * depends on, and its step makes `Rank` smaller.
 */
module QLockProgress {
  import opened Wrappers
  import opened TicketWords
  import opened QLockModel
  import opened QLockInvariant
  import opened QLockPreservation
  import opened QLockQueue
  import opened QLockHandOff
  import opened QLockTickets
  import opened QLockPhases
  import opened QLockSafety
  import opened QLockTheorems

  // ---------------------------------------------------------------- distances

  /** How many slots a scan that starts at the lock's hash passes before slot j. */
  function Pos(l: nat, j: SlotIx): nat { if j >= Hash(l) then j - Hash(l) else j - Hash(l) + NQUEUES }

  lemma NextPos(l: nat, j: SlotIx)
    ensures NextSlot(j) == Hash(l) <==> Pos(l, j) == NQUEUES - 1
    ensures NextSlot(j) != Hash(l) ==> Pos(l, NextSlot(j)) == Pos(l, j) + 1
  {
  }

  /** How many steps a context without an element needs, at most, to see the queue of slot i. */
  function FindRank(l: nat, i: SlotIx, j: SlotIx): nat {
    if Pos(l, j) <= Pos(l, i) then 3 + Pos(l, i) - Pos(l, j) else 2 * NQUEUES + 5 - Pos(l, j)
  }

  function WaitRank(l: nat, i: SlotIx, pc: PC): nat {
    match pc
    case HeadTake(_) => 1
    case Enqueue(_) => 1
    case HeadCheck(_) => 2
    case Find(j) => FindRank(l, i, j)
    case Spin => NQUEUES + 4
    case BackOut(_) => NQUEUES + 4
    case InitRead(_) => NQUEUES + 5
    case InitCas(_, _, _) => NQUEUES + 6
    case InitHead(_, _, _) => NQUEUES + 7
    case InitTail(_) => NQUEUES + 6
    case InitSpin(_) => NQUEUES + 7
    case ClaimBit(_) => NQUEUES + 4
    case ClaimCas(_) => NQUEUES + 8
    case ClaimRead(_) => NQUEUES + 9
    case _ => 0
  }

  /** The rest of the way of a granted waiter. */
  function HoldRank(c: Ctx): nat {
    match c.pc
    case Await(_) => 7
    case DeqNext(_) => 6
    case DeqClear(_) => 5
    case DeqCas(_) => 4
    case DeqWait(_) => if c.next == None then 3 else 2
    case DeqAdvance(_) => 1
    case _ => 0
  }

  /** The rest of the way of a releaser that finds a waiter. */
  function WakeRank(i: SlotIx, pc: PC): nat {
    match pc
    case WakeGrant(_, _) => 8
    case WakeReset(_, _) => 9
    case WakeHead(_, _) => 10
    case WakeSpin(_) => 11
    case UnqRead(_) => 12
    case UnqCas(_, _, _) => 12
    case WakeFind(j) => 13 + (i - j + NQUEUES) % NQUEUES
    case _ => 0
  }

  /** The context at position n of a list of threads. */
  function At(k: Lock, s: seq<nat>, n: nat): Ctx {
    if n < |s| && s[n] < |k.ctx| then k.ctx[s[n]] else Ctx(Idle, 0, false, None)
  }

  function TokenCtx(k: Lock, h: History): Ctx {
    if h.token.Some? && h.token.value < |k.ctx| then k.ctx[h.token.value] else Ctx(Idle, 0, false, None)
  }

  /** What a releaser still waits for: the first element of the queue, or a waiter that enqueues. */
  function NeedRank(l: nat, k: Lock, h: History, i: SlotIx): nat {
    if |h.q| > 0 then (if At(k, h.q, 0).pc.Link? then 1 else 0)
    else 2 + WaitRank(l, i, At(k, h.line, 0).pc)
  }

  /** With a bound slot: the way of the token, plus the way of the waiter that a releaser needs. */
  function QueueRank(l: nat, k: Lock, h: History, i: SlotIx): nat {
    var c := TokenCtx(k, h);
    if Waker(c.pc) then WakeRank(i, c.pc) + NeedRank(l, k, h, i)
    else if InQueue(c.pc) then HoldRank(c)
    else WaitRank(l, i, c.pc)
  }

  const QUEUE_MAX := 4 * NQUEUES + 50

  /** Without a queue: the way of the front of the line, by its ticket or by forming a queue. */
  function TicketRank(l: nat, k: Lock, pc: PC): nat {
    var base := QUEUE_MAX + 2;
    match pc
    case Spin => 1
    case InitCas(_, oh, ot) => if oh == k.head && ot == k.tail then base else base + 3
    case InitHead(_, oh, ot) => if oh == k.head && ot == k.tail then base + 1 else base + 4
    case InitRead(_) => base + 2
    case InitTail(_) => base + 3
    case InitSpin(_) => base + 4
    case ClaimBit(j) => base + 10 + 3 * (NQUEUES - 1 - Pos(l, j))
    case ClaimCas(j) => base + 11 + 3 * (NQUEUES - 1 - Pos(l, j))
    case ClaimRead(j) => base + 12 + 3 * (NQUEUES - 1 - Pos(l, j))
    case _ => 0
  }

  const TICKET_MAX := QUEUE_MAX + 20 + 3 * NQUEUES

  function Rank(l: nat, k: Lock, h: History): nat {
    match h.phase
    case Queued(i) => QueueRank(l, k, h, i)
    case Forming(_, _) => QUEUE_MAX + 1
    case Ticket => TicketRank(l, k, At(k, h.line, 0).pc)
    case Stale(_, _) => TICKET_MAX + 1
  }

  lemma RankBounds(l: nat, k: Lock, h: History, i: SlotIx, pc: PC)
    ensures QueueRank(l, k, h, i) <= QUEUE_MAX
    ensures TicketRank(l, k, pc) <= TICKET_MAX
  {
    WaitRankBound(l, i, At(k, h.line, 0).pc);
    WaitRankBound(l, i, TokenCtx(k, h).pc);
    WakeRankBound(i, TokenCtx(k, h).pc);
  }

  lemma WaitRankBound(l: nat, i: SlotIx, pc: PC)
    ensures WaitRank(l, i, pc) <= 2 * NQUEUES + 9
  {
  }

  lemma WakeRankBound(i: SlotIx, pc: PC)
    ensures WakeRank(i, pc) <= NQUEUES + 13
  {
  }

  ghost predicate Inside(k: Lock) {
    exists t :: 0 <= t < |k.ctx| && k.ctx[t].pc.Critical?
  }

  // ---------------------------------------------------------------- single contexts

  /** Where a context without an element goes when slot i is bound to its lock. */
  predicate QueuedNext(l: nat, i: SlotIx, pc: PC, pc': PC) {
    match pc
    case HeadCheck(j) => pc' == HeadTake(j) || pc' == Enqueue(j)
    case Find(j) => if j == i then pc' == HeadCheck(i) else pc' == if NextSlot(j) == Hash(l) then Spin
        else Find(NextSlot(j))
    case Spin => pc' == Find(Hash(l))
    case BackOut(_) => pc' == Find(Hash(l))
    case InitRead(j) => pc' == BackOut(j)
    case InitCas(j, _, _) => pc' == InitRead(j)
    case InitHead(j, oh, ot) => pc' == InitCas(j, oh, ot)
    case InitTail(j) => pc' == InitRead(j)
    case InitSpin(j) => pc' == InitTail(j)
    case ClaimBit(_) => pc' == Find(Hash(l))
    case ClaimCas(j) => pc' == InitSpin(j) || pc' == ClaimBit(j)
    case ClaimRead(j) => pc' == ClaimCas(j) || pc' == ClaimBit(j)
    case _ => false
  }

  lemma QueuedNextDrops(l: nat, i: SlotIx, pc: PC, pc': PC)
    requires QueuedNext(l, i, pc, pc')
    ensures WaitRank(l, i, pc') < WaitRank(l, i, pc)
    ensures WaitsForTurn(pc') || pc'.Enqueue?
  {
    assert Pos(l, Hash(l)) == 0;
    if pc.Find? { NextPos(l, pc.slot); }
  }

  /** The context waits without an element and is about neither to enter, nor to enqueue, nor to publish. */
  predicate Approaches(pc: PC) {
    WaitsForTurn(pc) && !pc.HeadTake? && !pc.Publish?
  }

  /** The step changes nothing of the lock but the context t. */
  ghost predicate ChangesOnly(sw: nat, l: nat, k: Lock, h: History, slots: seq<Slot>, t: nat, c': Ctx, h': History)
    requires t < |k.ctx| && |slots| == NQUEUES
  {
    && After(LocalStep(sw, l, k, slots, t)) == k.(ctx := k.ctx[t := c'])
    && Advance(l, k, h, slots, t) == h'
  }

  lemma ApproachStep(sw: nat, l: nat, k: Lock, h: History, slots: seq<Slot>, t: nat, i: SlotIx) returns (c': Ctx)
    requires |slots| == NQUEUES && t < |k.ctx| && Odd(k.head)
    requires forall j: SlotIx :: slots[j].ref == Bound(l) <==> j == i
    requires var c := k.ctx[t]; Approaches(c.pc) && !Odd(c.tkt) && (c.pc.InitCas? ==> !Odd(c.pc.oh))
    ensures ChangesOnly(sw, l, k, h, slots, t, c', h) && QueuedNext(l, i, k.ctx[t].pc, c'.pc)
  {
    c' := LocalStep(sw, l, k, slots, t).lock.ctx[t];
  }

  /** A granted waiter goes on, unless it needs the pending link write of its successor. */
  lemma HoldStep(sw: nat, l: nat, k: Lock, h: History, slots: seq<Slot>, t: nat) returns (c': Ctx)
    requires |slots| == NQUEUES && t < |k.ctx| && !Waits(k.ctx[t]) && !Stays(k.ctx[t])
    requires k.ctx[t].pc.Await? || Dequeuing(k.ctx[t].pc)
    ensures ChangesOnly(sw, l, k, h, slots, t, c', Advance(l, k, h, slots, t))
    ensures HoldRank(c') < HoldRank(k.ctx[t]) && (c'.pc.Critical? || Dequeuing(c'.pc))
    ensures c'.pc.Critical? || Advance(l, k, h, slots, t) == h
  {
    c' := LocalStep(sw, l, k, slots, t).lock.ctx[t];
  }

  /** Where a releaser goes when the front of the queue waits in `spin`, or when a ticket is out. */
  predicate WakeNext(i: SlotIx, w: Option<Id>, pc: PC, pc': PC) {
    match pc
    case WakeFind(j) => pc' == if j == i then WakeSpin(i) else WakeFind(NextSlot(j))
    case WakeSpin(_) => w.Some? && pc' == WakeHead(i, w.value)
    case UnqRead(_) => pc' == WakeSpin(i)
    case UnqCas(_, _, _) => pc' == WakeSpin(i)
    case WakeHead(_, v) => pc' == WakeReset(i, v) || pc' == WakeGrant(i, v)
    case WakeReset(_, v) => pc' == WakeGrant(i, v)
    case _ => false
  }

  lemma WakeNextDrops(i: SlotIx, w: Option<Id>, pc: PC, pc': PC)
    requires WakeNext(i, w, pc, pc')
    ensures WakeRank(i, pc') < WakeRank(i, pc) && Waker(pc')
  {
  }

  lemma WakeStep(sw: nat, l: nat, k: Lock, h: History, slots: seq<Slot>, t: nat, i: SlotIx) returns (c': Ctx)
    requires |slots| == NQUEUES && t < |k.ctx| && Waker(k.ctx[t].pc) && !k.ctx[t].pc.WakeGrant?
    requires forall j: SlotIx :: slots[j].ref == Bound(l) <==> j == i
    requires k.ctx[t].pc.WakeFind? || k.ctx[t].pc.slot == i
    requires slots[i].spin.Some? && Even(k.head) != k.tail
    requires k.ctx[t].pc.UnqCas? ==> Even(k.ctx[t].pc.oh) == k.ctx[t].pc.ot
    ensures ChangesOnly(sw, l, k, h, slots, t, c', h) && WakeNext(i, slots[i].spin, k.ctx[t].pc, c'.pc)
  {
    c' := LocalStep(sw, l, k, slots, t).lock.ctx[t];
  }

  // ---------------------------------------------------------------- the phases

  /** The step of thread t brings the lock nearer to an entry. */
  ghost predicate Progresses(sw: nat, l: nat, k: Lock, h: History, slots: seq<Slot>, t: nat)
    requires t < |k.ctx| && |slots| == NQUEUES
  {
    var k', h' := After(LocalStep(sw, l, k, slots, t)), Advance(l, k, h, slots, t);
    && !k.ctx[t].pc.Idle?
    && (k.ctx[t].pc.InitCas? ==> !Detaching(k))
    && (Inside(k') || (|h'.line| > 0 && Rank(l, k', h') < Rank(l, k, h)))
  }

  /** A step that only changes context t, in phase Queued(i). */
  lemma ByChange(sw: nat, l: nat, k: Lock, h: History, slots: seq<Slot>, t: nat, c': Ctx, i: SlotIx)
    requires t < |k.ctx| && |slots| == NQUEUES && h.phase == Queued(i) && |h.line| > 0 && !Detaching(k)
    requires ChangesOnly(sw, l, k, h, slots, t, c', h)
    requires c'.pc.Critical? || QueueRank(l, k.(ctx := k.ctx[t := c']), h, i) < QueueRank(l, k, h, i)
    ensures Progresses(sw, l, k, h, slots, t)
  {
    if c'.pc.Critical? { assert k.ctx[t := c'][t].pc.Critical?; }
  }

  /** What holds about the token of a bound slot. */
  ghost predicate QueuedState(l: nat, k: Lock, h: History, slots: seq<Slot>, owner: seq<Option<Id>>, i: SlotIx)
    requires |slots| == |owner| == NQUEUES
  {
    LockInv(l, k, h, slots, owner) && h.phase == Queued(i) && |h.line| > 0 && !Inside(k)
  }

  lemma QueuedFacts(l: nat, k: Lock, h: History, slots: seq<Slot>, owner: seq<Option<Id>>, i: SlotIx)
    requires |slots| == |owner| == NQUEUES && QueuedState(l, k, h, slots, owner, i)
    ensures !Detaching(k) && Odd(k.head) && h.token.Some? && h.token.value < |k.ctx|
    ensures forall j: SlotIx :: slots[j].ref == Bound(l) <==> j == i
    ensures CtxOk(Id(l, h.token.value), k.ctx[h.token.value], h, slots, owner)
    ensures h.line[0] < |k.ctx| && Outstanding(k.ctx[h.line[0]].pc)
    ensures CtxOk(Id(l, h.line[0]), k.ctx[h.line[0]], h, slots, owner)
  {
    assert h.line[0] in h.line;
  }

  /** The owner of the head ticket finds the queue and takes the lock. */
  lemma OwnerProgresses(sw: nat, l: nat, k: Lock, h: History, slots: seq<Slot>, owner: seq<Option<Id>>, i: SlotIx)
    requires |slots| == |owner| == NQUEUES && QueuedState(l, k, h, slots, owner, i)
    requires h.token.Some? && h.token.value < |k.ctx| && !Waker(k.ctx[h.token.value].pc)
    requires !InQueue(k.ctx[h.token.value].pc)
    ensures Progresses(sw, l, k, h, slots, h.token.value)
  {
    QueuedFacts(l, k, h, slots, owner, i);
    var t := h.token.value;
    assert QueueToken(l, k, h, slots[i]);
    if k.ctx[t].pc.HeadTake? {
      ByChange(sw, l, k, h, slots, t, k.ctx[t].(pc := Critical), i);
    } else {
      var c' := ApproachStep(sw, l, k, h, slots, t, i);
      QueuedNextDrops(l, i, k.ctx[t].pc, c'.pc);
      ByChange(sw, l, k, h, slots, t, c', i);
    }
  }

  /** A granted waiter leaves the queue; in scenario 2 its successor has to link first. */
  lemma HolderProgresses(sw: nat, l: nat, k: Lock, h: History, slots: seq<Slot>, owner: seq<Option<Id>>, i: SlotIx)
    returns (t: nat)
    requires |slots| == |owner| == NQUEUES && QueuedState(l, k, h, slots, owner, i) && Consistent(slots, owner)
    requires h.token.Some? && h.token.value < |k.ctx| && InQueue(k.ctx[h.token.value].pc)
    ensures t < |k.ctx| && Progresses(sw, l, k, h, slots, t)
  {
    QueuedFacts(l, k, h, slots, owner, i);
    var x := h.token.value;
    FrontIs(k, h, x);
    if Stays(k.ctx[x]) {
      t := h.q[1];
      LinkingProgresses(sw, l, k, h, slots, owner, i, x);
    } else {
      t := x;
      var c' := HoldStep(sw, l, k, h, slots, x);
      if c'.pc.Critical? { assert k.ctx[x := c'][x].pc.Critical?; }
      else { ByChange(sw, l, k, h, slots, t, c', i); }
    }
  }

  lemma LinkingProgresses(sw: nat, l: nat, k: Lock, h: History, slots: seq<Slot>, owner: seq<Option<Id>>, i: SlotIx,
                          x: nat)
    requires |slots| == |owner| == NQUEUES && QueuedState(l, k, h, slots, owner, i)
    requires h.token == Some(x) && x < |k.ctx| && k.ctx[x].pc.DeqWait? && k.ctx[x].next == None && |h.q| > 0
    requires h.q[0] == x
    ensures |h.q| > 1 && h.q[1] < |k.ctx| && Progresses(sw, l, k, h, slots, h.q[1])
  {
    QueuedFacts(l, k, h, slots, owner, i);
    assert Front(Id(l, x), k.ctx[x], slots[i].spin, |h.q| > 1);
    assert k.ctx[x].next == LinkTo(l, k, h.q, 0);
    var t := h.q[1];
    assert t in h.q && CtxOk(Id(l, t), k.ctx[t], h, slots, owner);
    assert k.ctx[t].pc.pred == CellBefore(l, h.q, i, 1);
    SecondLinks(sw, l, k, h, slots, owner, i, x, t);
  }

  /** The write of the missing link brings the front element on. */
  lemma SecondLinks(sw: nat, l: nat, k: Lock, h: History, slots: seq<Slot>, owner: seq<Option<Id>>, i: SlotIx, x: nat,
                    t: nat)
    requires |slots| == |owner| == NQUEUES && h.phase == Queued(i) && h.token == Some(x) && x < |k.ctx| && t < |k.ctx|
    requires t != x
    requires k.ctx[x].pc.DeqWait? && k.ctx[x].next == None && |h.q| > 1 && h.q[0] == x && h.q[1] == t
    requires k.ctx[t].pc == Link(i, NextCell(Id(l, x))) && |h.line| > 0
    ensures Progresses(sw, l, k, h, slots, t)
  {
    LinkNextMoves(sw, l, k, h, slots, owner, t, i, x);
  }

  /** A releaser wakes the front of the queue, once that is linked. */
  lemma WakerProgresses(sw: nat, l: nat, k: Lock, h: History, slots: seq<Slot>, owner: seq<Option<Id>>, i: SlotIx)
    returns (t: nat)
    requires |slots| == |owner| == NQUEUES && QueuedState(l, k, h, slots, owner, i) && |h.q| > 0
    requires h.token.Some? && h.token.value < |k.ctx| && Waker(k.ctx[h.token.value].pc)
    ensures t < |k.ctx| && Progresses(sw, l, k, h, slots, t)
  {
    QueuedFacts(l, k, h, slots, owner, i);
    var x, f := h.token.value, h.q[0];
    SpinIsFront(l, k, h, slots, owner, x);
    if k.ctx[f].pc.Link? {
      t := f;
      FrontLinks(sw, l, k, h, slots, owner, i);
    } else {
      t := x;
      if k.ctx[x].pc.WakeGrant? {
        GrantMoves(sw, l, k, h, slots, owner, x, f);
      } else {
        FreeWords(k, h, x);
        var c' := WakeStep(sw, l, k, h, slots, x, i);
        WakeNextDrops(i, slots[i].spin, k.ctx[x].pc, c'.pc);
        ByChange(sw, l, k, h, slots, t, c', i);
      }
    }
  }

  lemma FrontLinks(sw: nat, l: nat, k: Lock, h: History, slots: seq<Slot>, owner: seq<Option<Id>>, i: SlotIx)
    requires |slots| == |owner| == NQUEUES && QueuedState(l, k, h, slots, owner, i) && |h.q| > 0
    requires h.token.Some? && h.token.value < |k.ctx| && Waker(k.ctx[h.token.value].pc)
    requires h.q[0] < |k.ctx| && k.ctx[h.q[0]].pc.Link?
    ensures Progresses(sw, l, k, h, slots, h.q[0])
  {
    QueuedFacts(l, k, h, slots, owner, i);
    var t := h.q[0];
    assert t in h.q && CtxOk(Id(l, t), k.ctx[t], h, slots, owner);
    assert k.ctx[t].pc.pred == CellBefore(l, h.q, i, 0);
    LinkSpinMoves(sw, l, k, h, slots, owner, t, i);
    ByChange(sw, l, k, h, slots, t, k.ctx[t].(pc := Await(i)), i);
  }

  /** A releaser that finds the queue empty waits for a ticket holder to enqueue, who can do so. */
  lemma EnqueuerProgresses(sw: nat, l: nat, k: Lock, h: History, slots: seq<Slot>, owner: seq<Option<Id>>, i: SlotIx)
    requires |slots| == |owner| == NQUEUES && QueuedState(l, k, h, slots, owner, i) && |h.q| == 0
    requires h.token.Some? && h.token.value < |k.ctx| && Waker(k.ctx[h.token.value].pc)
    ensures h.line[0] < |k.ctx| && Progresses(sw, l, k, h, slots, h.line[0])
  {
    QueuedFacts(l, k, h, slots, owner, i);
    var t := h.line[0];
    assert !InQueue(k.ctx[t].pc);
    if k.ctx[t].pc.Enqueue? {
      var c', j, sl' := EnqueueMoves(sw, l, k, h, slots, owner, t);
    } else {
      var c' := ApproachStep(sw, l, k, h, slots, t, i);
      QueuedNextDrops(l, i, k.ctx[t].pc, c'.pc);
      ByChange(sw, l, k, h, slots, t, c', i);
    }
  }

  lemma QueuedProgresses(sw: nat, l: nat, k: Lock, h: History, slots: seq<Slot>, owner: seq<Option<Id>>, i: SlotIx)
    returns (t: nat)
    requires |slots| == |owner| == NQUEUES && QueuedState(l, k, h, slots, owner, i) && Consistent(slots, owner)
    ensures t < |k.ctx| && Progresses(sw, l, k, h, slots, t)
  {
    QueuedFacts(l, k, h, slots, owner, i);
    var x := h.token.value;
    if Waker(k.ctx[x].pc) {
      if |h.q| > 0 { t := WakerProgresses(sw, l, k, h, slots, owner, i); }
      else { EnqueuerProgresses(sw, l, k, h, slots, owner, i); t := h.line[0]; }
    } else if InQueue(k.ctx[x].pc) {
      t := HolderProgresses(sw, l, k, h, slots, owner, i);
    } else {
      OwnerProgresses(sw, l, k, h, slots, owner, i);
      t := x;
    }
  }

  // ---------------------------------------------------------------- without a bound slot

  /** Where the front of the line goes as long as there is no queue. */
  predicate TicketNext(l: nat, k: Lock, pc: PC, pc': PC) {
    match pc
    case Spin => pc' == Critical
    case ClaimRead(j) => pc' == ClaimCas(j) || pc' == ClaimBit(j)
    case ClaimCas(j) => pc' == InitSpin(j) || pc' == ClaimBit(j)
    case ClaimBit(j) => pc' == if NextSlot(j) == Hash(l) then Spin else ClaimRead(NextSlot(j))
    case InitSpin(j) => pc' == InitTail(j)
    case InitTail(j) => pc' == InitRead(j)
    case InitRead(j) => pc' == InitHead(j, k.head, k.tail)
    case InitHead(j, oh, ot) => pc' == InitCas(j, oh, ot)
    case InitCas(j, oh, ot) => !(oh == k.head && ot == k.tail) && pc' == InitRead(j)
    case _ => false
  }

  lemma TicketNextDrops(l: nat, k: Lock, pc: PC, pc': PC)
    requires TicketNext(l, k, pc, pc')
    ensures pc'.Critical? || TicketRank(l, k, pc') < TicketRank(l, k, pc)
  {
    if pc.ClaimBit? { NextPos(l, pc.slot); }
  }

  lemma TicketStep(sw: nat, l: nat, k: Lock, h: History, slots: seq<Slot>, t: nat) returns (c': Ctx)
    requires |slots| == NQUEUES && t < |k.ctx| && !Odd(k.head) && k.ctx[t].tkt == k.head
    requires var pc := k.ctx[t].pc;
             && WaitsForTurn(pc) && !pc.Find? && !pc.HeadCheck? && !pc.HeadTake? && !pc.BackOut? && !pc.Publish?
             && (pc.InitCas? ==> WillFail(k, slots, pc))
    ensures ChangesOnly(sw, l, k, h, slots, t, c', h) && TicketNext(l, k, k.ctx[t].pc, c'.pc)
  {
    c' := LocalStep(sw, l, k, slots, t).lock.ctx[t];
  }

  /** The front of the line enters with its ticket, or forms a queue. */
  lemma TicketProgresses(sw: nat, l: nat, k: Lock, h: History, slots: seq<Slot>, owner: seq<Option<Id>>)
    requires |slots| == |owner| == NQUEUES && LockInv(l, k, h, slots, owner) && h.phase == Ticket
    requires |h.line| > 0 && !Inside(k) && !Detaching(k)
    ensures h.line[0] < |k.ctx| && Progresses(sw, l, k, h, slots, h.line[0])
  {
    var t := h.line[0];
    assert t in h.line && CtxOk(Id(l, t), k.ctx[t], h, slots, owner);
    if k.ctx[t].pc.InitCas? && !WillFail(k, slots, k.ctx[t].pc) {
      var c' := AttachMoves(sw, l, k, h, slots, owner, t);
    } else {
      assert k.ctx[t].tkt == Wrap(Even(k.head) + 2 * 0);
      FrontTicketProgresses(sw, l, k, h, slots, t);
    }
  }

  lemma FrontTicketProgresses(sw: nat, l: nat, k: Lock, h: History, slots: seq<Slot>, t: nat)
    requires |slots| == NQUEUES && t < |k.ctx| && !Odd(k.head) && k.ctx[t].tkt == k.head
    requires h.phase == Ticket && |h.line| > 0 && h.line[0] == t && !Inside(k) && !k.ctx[t].pc.Critical?
    requires var pc := k.ctx[t].pc;
             && WaitsForTurn(pc) && !pc.Find? && !pc.HeadCheck? && !pc.HeadTake? && !pc.BackOut? && !pc.Publish?
             && (pc.InitCas? ==> WillFail(k, slots, pc) && !Detaching(k))
    ensures Progresses(sw, l, k, h, slots, t)
  {
    var c' := TicketStep(sw, l, k, h, slots, t);
    TicketNextDrops(l, k, k.ctx[t].pc, c'.pc);
    if c'.pc.Critical? { assert k.ctx[t := c'][t].pc.Critical?; }
    else { assert At(k.(ctx := k.ctx[t := c']), h.line, 0) == c'; }
  }

  /** A former publishes its slot; a releaser that detached the queue gives the slot back. */
  lemma RefProgresses(sw: nat, l: nat, k: Lock, h: History, slots: seq<Slot>, owner: seq<Option<Id>>) returns (t: nat)
    requires |slots| == |owner| == NQUEUES && LockInv(l, k, h, slots, owner) && Consistent(slots, owner)
    requires h.phase.Forming? || h.phase.Stale?
    requires |h.line| > 0
    ensures t < |k.ctx| && Progresses(sw, l, k, h, slots, t)
  {
    var i := h.phase.slot;
    t := if h.phase.Forming? then h.phase.former else h.phase.waker;
    OwnSlot(l, k, h, slots, owner, t);
    RefMoves(sw, l, k, h, slots, owner, t, i);
    var k', h' := After(LocalStep(sw, l, k, slots, t)), Advance(l, k, h, slots, t);
    RankBounds(l, k', h', i, At(k', h'.line, 0).pc);
  }

  lemma LockProgresses(sw: nat, l: nat, k: Lock, h: History, slots: seq<Slot>, owner: seq<Option<Id>>) returns (t: nat)
    requires |slots| == |owner| == NQUEUES && LockInv(l, k, h, slots, owner) && Consistent(slots, owner)
    requires |h.line| > 0 && !Inside(k) && (Detaching(k) <==> h.phase.Stale?)
    ensures t < |k.ctx| && Progresses(sw, l, k, h, slots, t)
  {
    if h.phase.Queued? { t := QueuedProgresses(sw, l, k, h, slots, owner, h.phase.slot); }
    else if h.phase.Ticket? { TicketProgresses(sw, l, k, h, slots, owner); t := h.line[0]; }
    else { t := RefProgresses(sw, l, k, h, slots, owner); }
  }

  // ---------------------------------------------------------------- runs

  predicate OnlyLock(schedule: seq<Id>, l: nat) {
    forall id :: id in schedule ==> id.lock == l
  }

  /** Steps of the contexts of lock l alone lead from s to a state with one of them in the critical section. */
  ghost predicate CanEnter(sw: nat, s: State, l: nat) {
    exists schedule: seq<Id> :: LeadsInside(sw, s, l, schedule)
  }

  ghost predicate LeadsInside(sw: nat, s: State, l: nat, schedule: seq<Id>) {
    && OnlyLock(schedule, l)
    && QuietRun(sw, s, schedule).Some?
    && var s' := QuietRun(sw, s, schedule).value;
    && l in s'.locks && Inside(s'.locks[l])
  }

  lemma Prepend(sw: nat, s: State, l: nat, id: Id)
    requires WellFormed(s) && Exists(s, id) && Quiet(s, id) && id.lock == l && CanEnter(sw, Step(sw, s, id), l)
    ensures CanEnter(sw, s, l)
  {
    var schedule: seq<Id> :| LeadsInside(sw, Step(sw, s, id), l, schedule);
    var whole := [id] + schedule;
    assert whole[0] == id && whole[1..] == schedule;
    assert LeadsInside(sw, s, l, whole);
  }

  /** There is a context of lock l whose step brings the lock nearer to an entry. */
  lemma NearerStep(sw: nat, s: State, a: Aux, l: nat) returns (id: Id)
    requires Inv(s, a) && l in s.locks && |a.hist[l].line| > 0 && !Inside(s.locks[l])
    ensures Exists(s, id) && id.lock == l && Quiet(s, id) && l in Step(sw, s, id).locks && l in StepAux(s, a, id).hist
    ensures StepAux(s, a, id).hist[l].line == a.hist[l].line
    ensures var k', h' := Step(sw, s, id).locks[l], StepAux(s, a, id).hist[l];
            Inside(k') || (|h'.line| > 0 && Rank(l, k', h') < Rank(l, s.locks[l], a.hist[l]))
  {
    DetachingPhase(s, a, l);
    var t := LockProgresses(sw, l, s.locks[l], a.hist[l], s.slots, a.owner);
    id := Id(l, t);
    StepsAreLocal(sw, s, a, id);
  }

  /** The state after such a step, with its history. */
  lemma Nearer(sw: nat, s: State, a: Aux, l: nat) returns (id: Id, s': State, a': Aux)
    requires Inv(s, a) && l in s.locks && |a.hist[l].line| > 0 && !Inside(s.locks[l])
    ensures WellFormed(s) && Exists(s, id) && id.lock == l && Quiet(s, id) && s' == Step(sw, s, id)
    ensures Inv(s', a') && l in s'.locks && l in a'.hist && a'.hist[l].line == a.hist[l].line
    ensures Inside(s'.locks[l])
            || (|a'.hist[l].line| > 0 && Rank(l, s'.locks[l], a'.hist[l]) < Rank(l, s.locks[l], a.hist[l]))
  {
    id := NearerStep(sw, s, a, l);
    StepKeeps(sw, s, a, id);
    s', a' := Step(sw, s, id), StepAux(s, a, id);
  }

  lemma AlreadyInside(sw: nat, s: State, l: nat)
    requires l in s.locks && Inside(s.locks[l])
    ensures CanEnter(sw, s, l)
  {
    assert LeadsInside(sw, s, l, []);
  }

  lemma {:induction false} EventuallyEnters(sw: nat, s: State, a: Aux, l: nat)
    requires Inv(s, a) && l in s.locks && |a.hist[l].line| > 0
    ensures CanEnter(sw, s, l)
    decreases Rank(l, s.locks[l], a.hist[l])
  {
    if Inside(s.locks[l]) {
      AlreadyInside(sw, s, l);
    } else {
      var id, s', a' := Nearer(sw, s, a, l);
      if Inside(s'.locks[l]) {
        AlreadyInside(sw, s', l);
      } else {
        EventuallyEnters(sw, s', a', l);
      }
      Prepend(sw, s, l, id);
    }
  }

  /**
   * No lost wakeup: whatever the schedule did so far, as long as a ticket of lock l is out, its own
   * contexts can go on to an entry; nobody waits for a wakeup that cannot come.
   */
  lemma NoLostWakeup(sw: nat, s: State, l: nat, t: nat)
    requires Reachable(sw, s) && Exists(s, Id(l, t)) && Outstanding(s.locks[l].ctx[t].pc)
    ensures CanEnter(sw, s, l)
  {
    var a := ReachableInv(sw, s);
    assert t in a.hist[l].line;
    EventuallyEnters(sw, s, a, l);
  }

  // ---------------------------------------------------------------- every waiter

  /** Steps of the contexts of lock l alone lead from s to a state with context t of it in the critical section. */
  ghost predicate CanBeServed(sw: nat, s: State, l: nat, t: nat) {
    exists schedule: seq<Id> :: LeadsTo(sw, s, l, t, schedule)
  }

  ghost predicate LeadsTo(sw: nat, s: State, l: nat, t: nat, schedule: seq<Id>) {
    && OnlyLock(schedule, l)
    && QuietRun(sw, s, schedule).Some?
    && var s' := QuietRun(sw, s, schedule).value;
    && Exists(s', Id(l, t)) && s'.locks[l].ctx[t].pc.Critical?
  }

  lemma PrependServe(sw: nat, s: State, l: nat, t: nat, id: Id)
    requires WellFormed(s) && Exists(s, id) && Quiet(s, id) && id.lock == l && CanBeServed(sw, Step(sw, s, id), l, t)
    ensures CanBeServed(sw, s, l, t)
  {
    var schedule: seq<Id> :| LeadsTo(sw, Step(sw, s, id), l, t, schedule);
    var whole := [id] + schedule;
    assert whole[0] == id && whole[1..] == schedule;
    assert LeadsTo(sw, s, l, t, whole);
  }

  lemma AlreadyServed(sw: nat, s: State, l: nat, t: nat)
    requires Exists(s, Id(l, t)) && s.locks[l].ctx[t].pc.Critical?
    ensures CanBeServed(sw, s, l, t)
  {
    assert LeadsTo(sw, s, l, t, []);
  }

  /** Who is inside leaves; the others stay in the line. */
  lemma LineGetsShorter(l: nat, k: Lock, h: History, slots: seq<Slot>, u: nat, t: nat)
    requires |slots| == NQUEUES && Counting(k, h) && u < |k.ctx| && k.ctx[u].pc.Critical? && t in h.line && t != u
    ensures var h' := Advance(l, k, h, slots, u); |h'.line| < |h.line| && t in h'.line
  {
    WithoutIs(h.line, u, |k.ctx|);
  }

  /** The step of whoever is inside. */
  lemma Releases(sw: nat, s: State, a: Aux, l: nat, t: nat) returns (id: Id, s': State, a': Aux)
    requires Inv(s, a) && l in s.locks && t in a.hist[l].line && Inside(s.locks[l])
    requires t < |s.locks[l].ctx| && !s.locks[l].ctx[t].pc.Critical?
    ensures WellFormed(s) && Exists(s, id) && id.lock == l && Quiet(s, id) && s' == Step(sw, s, id)
    ensures Inv(s', a') && l in s'.locks && l in a'.hist && t in a'.hist[l].line && |a'.hist[l].line| < |a.hist[l].line|
  {
    var u :| 0 <= u < |s.locks[l].ctx| && s.locks[l].ctx[u].pc.Critical?;
    id := Id(l, u);
    LineGetsShorter(l, s.locks[l], a.hist[l], s.slots, u, t);
    StepKeeps(sw, s, a, id);
    s', a' := Step(sw, s, id), StepAux(s, a, id);
  }

  lemma InLineExists(s: State, a: Aux, l: nat, t: nat)
    requires Inv(s, a) && l in s.locks && t in a.hist[l].line
    ensures t < |s.locks[l].ctx|
  {
  }

  /** Somebody enters and leaves, again and again, until it is the turn of t. */
  lemma {:induction false} EventuallyServed(sw: nat, s: State, a: Aux, l: nat, t: nat)
    requires Inv(s, a) && l in s.locks && t in a.hist[l].line
    ensures CanBeServed(sw, s, l, t)
    decreases |a.hist[l].line|, if Inside(s.locks[l]) then 0 else 1, Rank(l, s.locks[l], a.hist[l])
  {
    InLineExists(s, a, l, t);
    if s.locks[l].ctx[t].pc.Critical? {
      AlreadyServed(sw, s, l, t);
    } else {
      var id, s', a';
      if Inside(s.locks[l]) {
        id, s', a' := Releases(sw, s, a, l, t);
      } else {
        id, s', a' := Nearer(sw, s, a, l);
      }
      EventuallyServed(sw, s', a', l, t);
      PrependServe(sw, s, l, t, id);
    }
  }

  /**
   * Whatever the schedule did so far, each context with a ticket of lock l can be served by the lock's own contexts.
   */
  lemma EveryWaiterServed(sw: nat, s: State, l: nat, t: nat)
    requires Reachable(sw, s) && Exists(s, Id(l, t)) && Outstanding(s.locks[l].ctx[t].pc)
    ensures CanBeServed(sw, s, l, t)
  {
    var a := ReachableInv(sw, s);
    assert t in a.hist[l].line;
    EventuallyServed(sw, s, a, l, t);
  }
}
