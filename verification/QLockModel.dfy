/**
 * The dynamically queued ticket lock (lib/tktqlock.c with QTicketAcquire and QTicketRelease of
 * lib/ncutils_lock.h) as a deterministic state machine: `Step` performs the one shared-memory
 * access that a call context has next.  A run is therefore just the schedule of the contexts.
 *
 * A call context is one thread's use of one lock; `Id` names it, and since its queue element lives
 * on the stack of the call it names the element as well.
 */
module QLockModel {
  import opened Wrappers
  import opened TicketWords

  /** TKT_Q_NQUEUES for NR_CPUS 4096 and TKT_Q_SWITCH 16. */
  const NQUEUES := 514

  /** Threads are fewer than the 2^15 tickets that fit next to the queue bit. */
  const MAX_THREADS := 0x8000

  type SlotIx = i: int | 0 <= i < NQUEUES witness 0

  datatype Id = Id(lock: nat, thread: nat)

  /** `tkt_q_head.ref`: NULL, the reservation mark 0x1, or the address of a lock. */
  datatype Ref = Free | Claimed | Bound(lock: nat)

  /** What `spin_tail` may point at: the slot's own `spin`, or the `next` of a queue element. */
  datatype Cell = SpinCell(slot: SlotIx) | NextCell(id: Id)

  datatype Slot = Slot(ref: Ref, headTkt: int, spin: Option<Id>, spinTail: Cell)

  /** The program points of a context, each in front of one shared access. */
  datatype PC =
    | Idle                                      // not using the lock
    | Spin                                      // ncutils_lock.h:121
    | Find(slot: SlotIx)                        // tktqlock.c:90, called by tkt_q_do_spin
    | HeadCheck(slot: SlotIx)                   // 184
    | HeadTake(slot: SlotIx)                    // 186
    | Enqueue(slot: SlotIx)                     // 195
    | Link(slot: SlotIx, pred: Cell)            // 196
    | Await(slot: SlotIx)                       // 199
    | DeqNext(slot: SlotIx)                     // 229
    | DeqClear(slot: SlotIx)                    // 232
    | DeqCas(slot: SlotIx)                      // 235
    | DeqWait(slot: SlotIx)                     // 241
    | DeqAdvance(slot: SlotIx)                  // 253
    | Critical                                  // holds the lock; ncutils_lock.h:134
    | ClaimRead(slot: SlotIx)                   // 330
    | ClaimCas(slot: SlotIx)                    // 331
    | ClaimBit(slot: SlotIx)                    // 340
    | InitSpin(slot: SlotIx)                    // 273
    | InitTail(slot: SlotIx)                    // 274
    | InitRead(slot: SlotIx)                    // 278
    | BackOut(slot: SlotIx)                     // 284
    | InitHead(slot: SlotIx, oh: int, ot: int)  // 294
    | InitCas(slot: SlotIx, oh: int, ot: int)   // 298
    | Publish(slot: SlotIx)                     // 303
    | WakeFind(slot: SlotIx)                    // 90, called by tkt_q_do_wake
    | WakeSpin(slot: SlotIx)                    // 143
    | UnqRead(slot: SlotIx)                     // 108
    | UnqCas(slot: SlotIx, oh: int, ot: int)    // 114
    | UnqClear(slot: SlotIx)                    // 119
    | WakeHead(slot: SlotIx, w: Id)             // 150
    | WakeReset(slot: SlotIx, w: Id)            // 151
    | WakeGrant(slot: SlotIx, w: Id)            // 153

  /** A context: where it is, its ticket, and its queue element (`cpu == -1` and `next`). */
  datatype Ctx = Ctx(pc: PC, tkt: int, granted: bool, next: Option<Id>)

  /** One lock: its two 16-bit words and the contexts of the threads that use it. */
  datatype Lock = Lock(head: int, tail: int, ctx: seq<Ctx>)

  datatype State = State(locks: map<nat, Lock>, slots: seq<Slot>)

  predicate Exists(s: State, id: Id) {
    id.lock in s.locks && id.thread < |s.locks[id.lock].ctx|
  }

  predicate WellFormed(s: State) {
    |s.slots| == NQUEUES
  }

  function Hash(lock: nat): SlotIx { (lock / 256) % NQUEUES }

  function NextSlot(i: SlotIx): SlotIx { if i + 1 < NQUEUES then i + 1 else 0 }

  // ---------------------------------------------------------------- one lock, one context

  /** A write through a pointer into some queue element, possibly of another context. */
  datatype Effect = Nothing | SetNext(target: Id, id: Id) | Grant(target: Id)

  /** What a step does: the stepping lock, the slots, and at most one write to a queue element. */
  datatype Result = Result(lock: Lock, slots: seq<Slot>, effect: Effect)

  function SetPc(k: Lock, t: nat, pc: PC): Lock
    requires t < |k.ctx|
  {
    k.(ctx := k.ctx[t := k.ctx[t].(pc := pc)])
  }

  /** Lines 117-122 of ncutils_lock.h with tkt_spin_pass: what a context does with a head it read. */
  function AfterHead(sw: nat, l: nat, head: int, tkt: int): PC {
    if head == tkt then Critical
    else if Odd(head) then Find(Hash(l))
    else if tkt - sw == head then ClaimRead(Hash(l))
    else Spin
  }

  /** The step of thread t on lock l.  `sw` is TKT_Q_SWITCH. */
  function LocalStep(sw: nat, l: nat, k: Lock, slots: seq<Slot>, t: nat): Result
    requires t < |k.ctx| && |slots| == NQUEUES
  {
    var c := k.ctx[t];
    match c.pc
    case Idle =>
      var c' := c.(pc := AfterHead(sw, l, k.head, k.tail), tkt := k.tail);
      Result(k.(tail := Wrap(k.tail + 2), ctx := k.ctx[t := c']), slots, Nothing)
    case Spin =>
      Result(SetPc(k, t, AfterHead(sw, l, k.head, c.tkt)), slots, Nothing)
    case Find(i) =>
      if slots[i].ref == Bound(l) then
        Result(k.(ctx := k.ctx[t := c.(pc := HeadCheck(i), granted := false, next := None)]), slots, Nothing)
      else
        Result(SetPc(k, t, if NextSlot(i) == Hash(l) then Spin else Find(NextSlot(i))), slots, Nothing)
    case HeadCheck(i) =>
      Result(SetPc(k, t, if slots[i].headTkt == c.tkt then HeadTake(i) else Enqueue(i)), slots, Nothing)
    case HeadTake(i) =>
      Result(SetPc(k, t, Critical), slots[i := slots[i].(headTkt := -1)], Nothing)
    case Enqueue(i) =>
      Result(SetPc(k, t, Link(i, slots[i].spinTail)),
             slots[i := slots[i].(spinTail := NextCell(Id(l, t)))], Nothing)
    case Link(i, pred) =>
      var k' := SetPc(k, t, Await(i));
      (match pred
       case SpinCell(j) => Result(k', slots[j := slots[j].(spin := Some(Id(l, t)))], Nothing)
       case NextCell(e) => Result(k', slots, SetNext(e, Id(l, t))))
    case Await(i) =>
      Result(if c.granted then SetPc(k, t, DeqNext(i)) else k, slots, Nothing)
    case DeqNext(i) =>
      Result(SetPc(k, t, if c.next == None then DeqClear(i) else DeqAdvance(i)), slots, Nothing)
    case DeqClear(i) =>
      Result(SetPc(k, t, DeqCas(i)), slots[i := slots[i].(spin := None)], Nothing)
    case DeqCas(i) =>
      if slots[i].spinTail == NextCell(Id(l, t)) then
        Result(SetPc(k, t, Critical), slots[i := slots[i].(spinTail := SpinCell(i))], Nothing)
      else
        Result(SetPc(k, t, DeqWait(i)), slots, Nothing)
    case DeqWait(i) =>
      Result(if c.next == None then k else SetPc(k, t, DeqAdvance(i)), slots, Nothing)
    case DeqAdvance(i) =>
      Result(SetPc(k, t, Critical), slots[i := slots[i].(spin := c.next)], Nothing)
    case Critical =>
      var k' := SetPc(k, t, if Odd(k.head) then WakeFind(Hash(l)) else Idle);
      Result(k'.(head := Wrap(k.head + 2)), slots, Nothing)
    case ClaimRead(i) =>
      Result(SetPc(k, t, if slots[i].ref == Free then ClaimCas(i) else ClaimBit(i)), slots, Nothing)
    case ClaimCas(i) =>
      if slots[i].ref == Free then
        Result(SetPc(k, t, InitSpin(i)), slots[i := slots[i].(ref := Claimed)], Nothing)
      else
        Result(SetPc(k, t, ClaimBit(i)), slots, Nothing)
    case ClaimBit(i) =>
      Result(SetPc(k, t, if Odd(k.head) then Find(Hash(l))
                         else if NextSlot(i) == Hash(l) then Spin
                         else ClaimRead(NextSlot(i))), slots, Nothing)
    case InitSpin(i) =>
      Result(SetPc(k, t, InitTail(i)), slots[i := slots[i].(spin := None)], Nothing)
    case InitTail(i) =>
      Result(SetPc(k, t, InitRead(i)), slots[i := slots[i].(spinTail := SpinCell(i))], Nothing)
    case InitRead(i) =>
      Result(SetPc(k, t, if Odd(k.head) then BackOut(i) else InitHead(i, k.head, k.tail)), slots, Nothing)
    case BackOut(i) =>
      Result(SetPc(k, t, Find(Hash(l))), slots[i := slots[i].(ref := Free)], Nothing)
    case InitHead(i, oh, ot) =>
      Result(SetPc(k, t, InitCas(i, oh, ot)), slots[i := slots[i].(headTkt := oh)], Nothing)
    case InitCas(i, oh, ot) =>
      if k.head == oh && k.tail == ot then
        Result(SetPc(k, t, Publish(i)).(head := oh + 1), slots, Nothing)
      else
        Result(SetPc(k, t, InitRead(i)), slots, Nothing)
    case Publish(i) =>
      Result(SetPc(k, t, Find(Hash(l))), slots[i := slots[i].(ref := Bound(l))], Nothing)
    case WakeFind(i) =>
      Result(SetPc(k, t, if slots[i].ref == Bound(l) then WakeSpin(i) else WakeFind(NextSlot(i))), slots, Nothing)
    case WakeSpin(i) =>
      Result(SetPc(k, t, match slots[i].spin case Some(w) => WakeHead(i, w) case None => UnqRead(i)), slots, Nothing)
    case UnqRead(i) =>
      Result(SetPc(k, t, if Even(k.head) == k.tail then UnqCas(i, k.head, k.tail) else WakeSpin(i)), slots, Nothing)
    case UnqCas(i, oh, ot) =>
      if k.head == oh && k.tail == ot then
        Result(SetPc(k, t, UnqClear(i)).(head := Even(oh)), slots, Nothing)
      else
        Result(SetPc(k, t, WakeSpin(i)), slots, Nothing)
    case UnqClear(i) =>
      Result(SetPc(k, t, Idle), slots[i := slots[i].(ref := Free)], Nothing)
    case WakeHead(i, w) =>
      Result(SetPc(k, t, if slots[i].headTkt != -1 then WakeReset(i, w) else WakeGrant(i, w)), slots, Nothing)
    case WakeReset(i, w) =>
      Result(SetPc(k, t, WakeGrant(i, w)), slots[i := slots[i].(headTkt := -1)], Nothing)
    case WakeGrant(i, w) =>
      Result(SetPc(k, t, Idle), slots, Grant(w))
  }

  // ---------------------------------------------------------------- the whole machine

  function WriteElement(k: Lock, e: Effect, t: nat): Lock
    requires t < |k.ctx|
  {
    match e
    case Nothing => k
    case SetNext(_, id) => k.(ctx := k.ctx[t := k.ctx[t].(next := Some(id))])
    case Grant(_) => k.(ctx := k.ctx[t := k.ctx[t].(granted := true)])
  }

  function ApplyEffect(s: State, e: Effect): State {
    if e != Nothing && Exists(s, e.target) then
      var m := e.target.lock;
      s.(locks := s.locks[m := WriteElement(s.locks[m], e, e.target.thread)])
    else s
  }

  function Step(sw: nat, s: State, id: Id): State
    requires WellFormed(s) && Exists(s, id)
  {
    var r := LocalStep(sw, id.lock, s.locks[id.lock], s.slots, id.thread);
    ApplyEffect(State(s.locks[id.lock := r.lock], r.slots), r.effect)
  }

  /** Locks initialised by TicketInit, slots zeroed as static data, every thread outside. */
  predicate Init(s: State) {
    && WellFormed(s)
    && (forall l :: l in s.locks ==>
          && s.locks[l].head == 0 == s.locks[l].tail
          && |s.locks[l].ctx| <= MAX_THREADS
          && forall t :: 0 <= t < |s.locks[l].ctx| ==> s.locks[l].ctx[t].pc == Idle)
    && (forall i :: 0 <= i < NQUEUES ==> s.slots[i].ref == Free)
  }

  /** Some context cleared the queue bit of the lock (114) and did not clear the slot's `ref` (119) yet. */
  predicate Detaching(k: Lock) {
    exists t :: 0 <= t < |k.ctx| && k.ctx[t].pc.UnqClear?
  }

  /**
   * The granularity assumption: no context performs the compare-exchange that attaches a queue (298)
   * while another one is between lines 114 and 119 on the same lock. QLockFew proves it for locks with few contexts.
   */
  predicate Quiet(s: State, id: Id)
    requires Exists(s, id)
  {
    s.locks[id.lock].ctx[id.thread].pc.InitCas? ==> !Detaching(s.locks[id.lock])
  }

  /** A schedule that can be run from s: every context exists. */
  function Run(sw: nat, s: State, schedule: seq<Id>): Option<State>
    decreases |schedule|
  {
    if schedule == [] then Some(s)
    else if WellFormed(s) && Exists(s, schedule[0]) then Run(sw, Step(sw, s, schedule[0]), schedule[1..])
    else None
  }

  /** A run on which the granularity assumption holds at every step. */
  function QuietRun(sw: nat, s: State, schedule: seq<Id>): Option<State>
    decreases |schedule|
  {
    if schedule == [] then Some(s)
    else if WellFormed(s) && Exists(s, schedule[0]) && Quiet(s, schedule[0]) then
      QuietRun(sw, Step(sw, s, schedule[0]), schedule[1..])
    else None
  }
}
