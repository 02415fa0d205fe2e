/**
 * What holds in every state that the queued ticket lock reaches, over all its locks, its shared
 * slots and every schedule on which the granularity assumption holds; with few contexts for each lock
 * that is every schedule (QLockFew).
 */
module QLockTheorems {
  import opened Wrappers
  import opened TicketWords
  import opened QLockModel
  import opened QLockInvariant
  import opened QLockPreservation
  import opened QLockSafety
  import opened QLockPhases
  import opened QLockHandOff
  import opened QLockQueue

  // ---------------------------------------------------------------- the invariant of the machine

  datatype Aux = Aux(hist: map<nat, History>, owner: seq<Option<Id>>)

  ghost predicate Inv(s: State, a: Aux) {
    && WellFormed(s) && |a.owner| == NQUEUES
    && a.hist.Keys == s.locks.Keys
    && Consistent(s.slots, a.owner)
    && forall l :: l in s.locks ==> LockInv(l, s.locks[l], a.hist[l], s.slots, a.owner)
  }

  function StepAux(s: State, a: Aux, id: Id): Aux
    requires WellFormed(s) && Exists(s, id) && |a.owner| == NQUEUES && id.lock in a.hist
  {
    var k := s.locks[id.lock];
    Aux(a.hist[id.lock := Advance(id.lock, k, a.hist[id.lock], s.slots, id.thread)], Reserve(k, s.slots, a.owner, id))
  }

  lemma MineIsFramed(l: nat, m: nat, n: nat, k: Lock, h: History, slots: seq<Slot>, owner: seq<Option<Id>>,
                     slots': seq<Slot>, owner': seq<Option<Id>>)
    requires |slots| == |owner| == |slots'| == |owner'| == NQUEUES && l != m && n == |k.ctx|
    requires LockInv(m, k, h, slots, owner) && ChangesMine(l, slots, owner, slots', owner')
    ensures SlotsFramed(m, n, h, slots, owner, slots', owner')
  {
    if h.phase.Forming? {
      var f := h.phase.former;
      assert CtxOk(Id(m, f), k.ctx[f], h, slots, owner);
    }
  }

  /** Under the invariant a step changes its own lock and the slots only. */
  lemma StepIsLocal(sw: nat, s: State, id: Id)
    requires WellFormed(s) && Exists(s, id)
    requires var r := LocalStep(sw, id.lock, s.locks[id.lock], s.slots, id.thread);
             && |r.lock.ctx| == |s.locks[id.lock].ctx|
             && (r.effect != Nothing ==> r.effect.target.lock == id.lock && r.effect.target.thread < |r.lock.ctx|)
    ensures var r := LocalStep(sw, id.lock, s.locks[id.lock], s.slots, id.thread);
            Step(sw, s, id) == State(s.locks[id.lock := After(r)], r.slots)
  {
    var r := LocalStep(sw, id.lock, s.locks[id.lock], s.slots, id.thread);
    var s1 := State(s.locks[id.lock := r.lock], r.slots);
    assert s1.locks[id.lock := After(r)] == s.locks[id.lock := After(r)];
    assert r.effect == Nothing ==> s.locks[id.lock := After(r)] == s1.locks;
  }

  lemma StepsAreLocal(sw: nat, s: State, a: Aux, id: Id)
    requires Inv(s, a) && Exists(s, id) && Quiet(s, id)
    ensures var r := LocalStep(sw, id.lock, s.locks[id.lock], s.slots, id.thread);
            |r.lock.ctx| == |s.locks[id.lock].ctx| && Step(sw, s, id) == State(s.locks[id.lock := After(r)], r.slots)
  {
    EveryStepIsGood(sw, id.lock, s.locks[id.lock], a.hist[id.lock], s.slots, a.owner, id.thread);
    StepIsLocal(sw, s, id);
  }

  lemma OthersKept(l: nat, m: nat, s: State, a: Aux, slots': seq<Slot>, owner': seq<Option<Id>>)
    requires Inv(s, a) && |slots'| == |owner'| == NQUEUES && m in s.locks && m != l
    requires ChangesMine(l, s.slots, a.owner, slots', owner')
    ensures LockInv(m, s.locks[m], a.hist[m], slots', owner')
  {
    MineIsFramed(l, m, |s.locks[m].ctx|, s.locks[m], a.hist[m], s.slots, a.owner, slots', owner');
    OtherLock(m, s.locks[m], a.hist[m], s.slots, a.owner, slots', owner');
  }

  lemma StepKeeps(sw: nat, s: State, a: Aux, id: Id)
    requires Inv(s, a) && Exists(s, id) && Quiet(s, id)
    ensures Inv(Step(sw, s, id), StepAux(s, a, id))
  {
    var l, t := id.lock, id.thread;
    EveryStepIsGood(sw, l, s.locks[l], a.hist[l], s.slots, a.owner, t);
    StepIsLocal(sw, s, id);
    var s', a' := Step(sw, s, id), StepAux(s, a, id);
    forall m | m in s'.locks ensures LockInv(m, s'.locks[m], a'.hist[m], s'.slots, a'.owner) {
      if m != l { OthersKept(l, m, s, a, s'.slots, a'.owner); }
    }
  }

  function InitAux(s: State): Aux {
    Aux(map l | l in s.locks :: History([], Ticket, [], None), seq(NQUEUES, _ => None))
  }

  lemma InitHolds(s: State)
    requires Init(s)
    ensures Inv(s, InitAux(s))
  {
  }

  lemma QuietRunStep(sw: nat, s: State, schedule: seq<Id>)
    requires QuietRun(sw, s, schedule).Some? && schedule != []
    ensures WellFormed(s) && Exists(s, schedule[0]) && Quiet(s, schedule[0])
    ensures QuietRun(sw, s, schedule) == QuietRun(sw, Step(sw, s, schedule[0]), schedule[1..])
  {
  }

  lemma {:induction false} RunKeeps(sw: nat, s: State, a: Aux, schedule: seq<Id>) returns (a': Aux)
    requires Inv(s, a) && QuietRun(sw, s, schedule).Some?
    ensures Inv(QuietRun(sw, s, schedule).value, a')
    decreases |schedule|
  {
    if schedule == [] {
      a' := a;
    } else {
      QuietRunStep(sw, s, schedule);
      StepKeeps(sw, s, a, schedule[0]);
      a' := RunKeeps(sw, Step(sw, s, schedule[0]), StepAux(s, a, schedule[0]), schedule[1..]);
    }
  }

  /** s is reached from an initial state by a schedule on which the granularity assumption holds. */
  ghost predicate Reachable(sw: nat, s: State) {
    exists s0: State, schedule: seq<Id> :: Init(s0) && QuietRun(sw, s0, schedule) == Some(s)
  }

  lemma ReachableInv(sw: nat, s: State) returns (a: Aux)
    requires Reachable(sw, s)
    ensures Inv(s, a)
  {
    var s0: State, schedule: seq<Id> :| Init(s0) && QuietRun(sw, s0, schedule) == Some(s);
    InitHolds(s0);
    a := RunKeeps(sw, s0, InitAux(s0), schedule);
  }

  // ---------------------------------------------------------------- one token

  /** The context waits for the lock and has no queue element. */
  predicate WaitsForTurn(pc: PC) {
    Outstanding(pc) && !InQueue(pc) && !pc.Critical? && !pc.Enqueue?
  }

  /** Slot i is bound to lock l, or a context of l is about to publish it. */
  ghost predicate Serves(s: State, l: nat, i: SlotIx)
    requires WellFormed(s) && l in s.locks
  {
    || s.slots[i].ref == Bound(l)
    || exists u :: 0 <= u < |s.locks[l].ctx| && s.locks[l].ctx[u].pc == Publish(i)
  }

  /**
   * The right to enter, in all its forms: the critical section with the exit code of a granted
   * waiter, the grant, the release in progress, the ticket that equals the head word, and the
   * ticket that equals `head_tkt`.
   */
  ghost predicate HasToken(s: State, l: nat, t: nat)
    requires WellFormed(s) && Exists(s, Id(l, t))
  {
    var k := s.locks[l];
    var c := k.ctx[t];
    || c.pc.Critical?
    || Dequeuing(c.pc)
    || (c.pc.Await? && c.granted)
    || Waker(c.pc)
    || (WaitsForTurn(c.pc) && c.tkt == k.head)
    || (WaitsForTurn(c.pc) && Odd(k.head) && exists i: SlotIx :: Serves(s, l, i) && s.slots[i].headTkt == c.tkt)
  }

  lemma TokenIsUnique(s: State, a: Aux, l: nat, t: nat)
    requires Inv(s, a) && Exists(s, Id(l, t)) && HasToken(s, l, t)
    ensures a.hist[l].token == Some(t)
  {
    var k, h := s.locks[l], a.hist[l];
    assert CtxOk(Id(l, t), k.ctx[t], h, s.slots, a.owner);
    if WaitsForTurn(k.ctx[t].pc) {
      if Odd(k.head) && exists i: SlotIx :: Serves(s, l, i) && s.slots[i].headTkt == k.ctx[t].tkt {
        var i: SlotIx :| Serves(s, l, i) && s.slots[i].headTkt == k.ctx[t].tkt;
        ServingSlot(s, a, l, i);
        HeadTicketMatches(l, k, h, s.slots, t);
      } else if !Attached(h.phase) {
        HeadMatches(l, k, h, s.slots, t);
      }
    }
  }

  /** The phase says which slot serves the lock, and whether it is being given back. */
  lemma ServingSlot(s: State, a: Aux, l: nat, i: SlotIx)
    requires Inv(s, a) && l in s.locks
    ensures Serves(s, l, i) <==> !a.hist[l].phase.Ticket? && a.hist[l].phase.slot == i
  {
    var k, h := s.locks[l], a.hist[l];
    if s.slots[i].ref != Bound(l) && Serves(s, l, i) {
      var u :| 0 <= u < |k.ctx| && k.ctx[u].pc == Publish(i);
      assert CtxOk(Id(l, u), k.ctx[u], h, s.slots, a.owner);
    }
  }

  lemma DetachingPhase(s: State, a: Aux, l: nat)
    requires Inv(s, a) && l in s.locks
    ensures Detaching(s.locks[l]) <==> a.hist[l].phase.Stale?
  {
    var k, h := s.locks[l], a.hist[l];
    if Detaching(k) {
      var t :| 0 <= t < |k.ctx| && k.ctx[t].pc.UnqClear?;
      assert CtxOk(Id(l, t), k.ctx[t], h, s.slots, a.owner);
    }
  }

  lemma FrontHasToken(s: State, a: Aux, l: nat)
    requires Inv(s, a) && l in s.locks && a.hist[l].token.Some? && !Attached(a.hist[l].phase)
    ensures Exists(s, Id(l, a.hist[l].token.value)) && HasToken(s, l, a.hist[l].token.value)
  {
    var k, h := s.locks[l], a.hist[l];
    var t := h.line[0];
    assert t in h.line;
    assert CtxOk(Id(l, t), k.ctx[t], h, s.slots, a.owner);
    HeadMatches(l, k, h, s.slots, t);
  }

  lemma HolderForms(l: nat, k: Lock, h: History, sl: Slot)
    requires Counting(k, h) && Attached(h.phase) && QueueToken(l, k, h, sl)
    ensures var c := k.ctx[h.token.value];
            || c.pc.Critical? || Dequeuing(c.pc) || (c.pc.Await? && c.granted) || Waker(c.pc)
            || (WaitsForTurn(c.pc) && Odd(k.head) && sl.headTkt == c.tkt)
  {
    if sl.headTkt != -1 && |h.line| > 0 {
      assert h.line[0] in h.line;
    }
  }

  lemma HolderHasToken(s: State, a: Aux, l: nat)
    requires Inv(s, a) && l in s.locks && Attached(a.hist[l].phase)
    ensures a.hist[l].token.Some? && Exists(s, Id(l, a.hist[l].token.value)) && HasToken(s, l, a.hist[l].token.value)
  {
    ServingSlot(s, a, l, a.hist[l].phase.slot);
    HolderForms(l, s.locks[l], a.hist[l], s.slots[a.hist[l].phase.slot]);
  }

  lemma TokenExists(s: State, a: Aux, l: nat)
    requires Inv(s, a) && l in s.locks
    ensures a.hist[l].token.Some? ==> Exists(s, Id(l, a.hist[l].token.value)) && HasToken(s, l, a.hist[l].token.value)
    ensures a.hist[l].token.None? ==> a.hist[l].line == [] && !Attached(a.hist[l].phase)
  {
    if Attached(a.hist[l].phase) {
      HolderHasToken(s, a, l);
    } else if a.hist[l].token.Some? {
      FrontHasToken(s, a, l);
    }
  }

  /** In every reachable state at most one context of a lock has the token. */
  lemma OneToken(sw: nat, s: State, l: nat, t: nat, u: nat)
    requires Reachable(sw, s) && WellFormed(s)
    requires Exists(s, Id(l, t)) && Exists(s, Id(l, u)) && HasToken(s, l, t) && HasToken(s, l, u)
    ensures t == u
  {
    var a := ReachableInv(sw, s);
    TokenIsUnique(s, a, l, t);
    TokenIsUnique(s, a, l, u);
  }

  /** Mutual exclusion through ticket mode, queue formation, queue mode and teardown. */
  lemma MutualExclusion(sw: nat, s: State, l: nat, t: nat, u: nat)
    requires Reachable(sw, s) && Exists(s, Id(l, t)) && Exists(s, Id(l, u))
    requires s.locks[l].ctx[t].pc.Critical? && s.locks[l].ctx[u].pc.Critical?
    ensures t == u
  {
    var a := ReachableInv(sw, s);
    OneToken(sw, s, l, t, u);
  }

  /** The token is never lost: it exists whenever a ticket is out or a release is in progress. */
  lemma TokenNotLost(sw: nat, s: State, l: nat, t: nat) returns (u: nat)
    requires Reachable(sw, s) && Exists(s, Id(l, t))
    requires Outstanding(s.locks[l].ctx[t].pc) || Waker(s.locks[l].ctx[t].pc)
    ensures WellFormed(s) && Exists(s, Id(l, u)) && HasToken(s, l, u)
  {
    var a := ReachableInv(sw, s);
    assert CtxOk(Id(l, t), s.locks[l].ctx[t], a.hist[l], s.slots, a.owner);
    TokenExists(s, a, l);
    u := a.hist[l].token.value;
  }

  // ---------------------------------------------------------------- the queue bit

  lemma PhaseOf(sw: nat, s: State, l: nat) returns (p: Phase)
    requires Reachable(sw, s) && l in s.locks
    ensures WellFormed(s) && (Odd(s.locks[l].head) <==> Attached(p)) && (Detaching(s.locks[l]) <==> p.Stale?)
    ensures forall i: SlotIx :: Serves(s, l, i) <==> !p.Ticket? && p.slot == i
  {
    var a := ReachableInv(sw, s);
    p := a.hist[l].phase;
    DetachingPhase(s, a, l);
    forall i: SlotIx ensures Serves(s, l, i) <==> !p.Ticket? && p.slot == i {
      ServingSlot(s, a, l, i);
    }
  }

  /** The bit is set exactly when one slot serves the lock and is not being given back. */
  lemma QueueBit(sw: nat, s: State, l: nat)
    requires Reachable(sw, s) && l in s.locks
    ensures WellFormed(s)
    ensures Odd(s.locks[l].head) <==> !Detaching(s.locks[l]) && exists i: SlotIx :: Serves(s, l, i)
    ensures forall i: SlotIx, j: SlotIx :: Serves(s, l, i) && Serves(s, l, j) ==> i == j
  {
    var p := PhaseOf(sw, s, l);
    if !p.Ticket? { assert Serves(s, l, p.slot); }
  }

  /** Whoever works on a queue works on the queue of its own lock, which is attached. */
  lemma NobodyOnDetachedQueue(sw: nat, s: State, l: nat, t: nat)
    requires Reachable(sw, s) && Exists(s, Id(l, t)) && AtQueue(s.locks[l].ctx[t].pc)
    ensures WellFormed(s) && s.slots[s.locks[l].ctx[t].pc.slot].ref == Bound(l) && Odd(s.locks[l].head)
  {
    var a := ReachableInv(sw, s);
    assert CtxOk(Id(l, t), s.locks[l].ctx[t], a.hist[l], s.slots, a.owner);
  }

  /** The bit is cleared only when every ticket has been returned: nobody else is inside the lock then. */
  lemma BitClearedWhenUnused(sw: nat, s: State, id: Id, u: nat)
    requires Reachable(sw, s) && WellFormed(s) && Exists(s, id) && Quiet(s, id)
    requires Odd(s.locks[id.lock].head) && !Odd(Step(sw, s, id).locks[id.lock].head)
    requires u < |s.locks[id.lock].ctx| && u != id.thread
    ensures s.locks[id.lock].ctx[u].pc.Idle?
  {
    var a := ReachableInv(sw, s);
    var l, t, k := id.lock, id.thread, s.locks[id.lock];
    StepsAreLocal(sw, s, a, id);
    assert CtxOk(id, k.ctx[t], a.hist[l], s.slots, a.owner);
    BitChange(sw, l, k, s.slots, t);
    NobodyLeft(l, k, a.hist[l], s.slots, a.owner, t, k.ctx[t].(pc := UnqClear(k.ctx[t].pc.slot)));
  }

  /** Only the compare-exchange of line 114 clears the bit. */
  lemma BitChange(sw: nat, l: nat, k: Lock, slots: seq<Slot>, t: nat)
    requires |slots| == NQUEUES && t < |k.ctx|
    requires Odd(k.head) && !Odd(After(LocalStep(sw, l, k, slots, t)).head)
    requires k.ctx[t].pc.InitCas? ==> !Odd(k.ctx[t].pc.oh)
    ensures k.ctx[t].pc.UnqCas? && !WillFail(k, slots, k.ctx[t].pc)
  {
  }
}
