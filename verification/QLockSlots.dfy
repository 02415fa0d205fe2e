/**
 * Who has the shared slots: a slot is reserved exactly as long as one context prepares it, and a lock that nobody uses
 * has none. Nothing here speaks of the history of QLockInvariant.
 */
module QLockSlots {
  import opened Wrappers
  import opened QLockModel
  import opened QLockInvariant
  import opened QLockTheorems
  import opened QLockFew

  function PcOf(s: State, id: Id): PC
    requires Exists(s, id)
  {
    s.locks[id.lock].ctx[id.thread].pc
  }

  /** The context stands between its claim of slot i (line 331) and publishing or returning it (303, 284). */
  predicate Prepares(s: State, id: Id, i: SlotIx) {
    Exists(s, id) && Reserving(PcOf(s, id)) && PcOf(s, id).slot == i
  }

  /** Every slot is free, reserved by a context that prepares it, or bound to a lock that exists. */
  ghost predicate Held(s: State) {
    && WellFormed(s)
    && (forall i: SlotIx :: s.slots[i].ref.Claimed? ==> exists id :: Prepares(s, id, i))
    && (forall i: SlotIx :: s.slots[i].ref.Bound? ==> s.slots[i].ref.lock in s.locks)
  }

  // ---------------------------------------------------------------- one step

  lemma EffectMovesNobody(s: State, e: Effect)
    ensures ApplyEffect(s, e).slots == s.slots && ApplyEffect(s, e).locks.Keys == s.locks.Keys
    ensures forall id :: Exists(ApplyEffect(s, e), id) <==> Exists(s, id)
    ensures forall id :: Exists(s, id) ==> PcOf(ApplyEffect(s, e), id) == PcOf(s, id)
    ensures forall l :: l in s.locks ==> |ApplyEffect(s, e).locks[l].ctx| == |s.locks[l].ctx|
  {
  }

  /** A step moves its own context only, and writes the slots of LocalStep. */
  lemma StepMovesOne(sw: nat, s: State, id: Id, r: Result)
    requires WellFormed(s) && Exists(s, id) && r == LocalStep(sw, id.lock, s.locks[id.lock], s.slots, id.thread)
    ensures var s' := Step(sw, s, id);
            && s'.slots == r.slots && s'.locks.Keys == s.locks.Keys && id.thread < |r.lock.ctx|
            && |s'.locks[id.lock].ctx| == |s.locks[id.lock].ctx|
            && (forall j :: Exists(s', j) <==> Exists(s, j))
            && (forall j :: Exists(s, j) ==> PcOf(s', j) == if j == id then r.lock.ctx[id.thread].pc else PcOf(s, j))
  {
    OnlyMine(sw, id.lock, s.locks[id.lock], s.slots, id.thread);
    EffectMovesNobody(State(s.locks[id.lock := r.lock], r.slots), r.effect);
  }

  /** The slot that a context prepares. */
  function Claim(pc: PC): Option<SlotIx> { if Reserving(pc) then Some(pc.slot) else None }

  /** The steps of a context that has no reservation before and after. */
  lemma BystanderClaims(sw: nat, l: nat, k: Lock, slots: seq<Slot>, t: nat, r: Result, i: SlotIx)
    requires |slots| == NQUEUES && t < |k.ctx| && r == LocalStep(sw, l, k, slots, t)
    requires !Reserving(k.ctx[t].pc) && !k.ctx[t].pc.ClaimCas?
    ensures |r.slots| == NQUEUES && (r.slots[i].ref == slots[i].ref || r.slots[i].ref == Free)
  {
  }

  lemma PreparerClaims(sw: nat, l: nat, k: Lock, slots: seq<Slot>, t: nat, r: Result, i: SlotIx)
    requires |slots| == NQUEUES && t < |k.ctx| && r == LocalStep(sw, l, k, slots, t) && |r.lock.ctx| == |k.ctx|
    requires Reserving(k.ctx[t].pc) || k.ctx[t].pc.ClaimCas?
    ensures |r.slots| == NQUEUES
    ensures r.slots[i].ref == slots[i].ref || i == k.ctx[t].pc.slot
    ensures r.slots[i].ref.Claimed? && i == k.ctx[t].pc.slot && (Reserving(k.ctx[t].pc) || slots[i].ref == Free) ==>
            Claim(r.lock.ctx[t].pc) == Some(i)
    ensures r.slots[i].ref.Bound? ==> r.slots[i].ref == Bound(l) || r.slots[i].ref == slots[i].ref
  {
  }

  /** What one step does to the slots: a reservation comes and goes with the program point of the context. */
  lemma StepClaims(sw: nat, l: nat, k: Lock, slots: seq<Slot>, t: nat, r: Result, i: SlotIx)
    requires |slots| == NQUEUES && t < |k.ctx| && r == LocalStep(sw, l, k, slots, t) && |r.lock.ctx| == |k.ctx|
    ensures |r.slots| == NQUEUES
    ensures r.slots[i].ref.Claimed? ==>
              Claim(r.lock.ctx[t].pc) == Some(i) || (slots[i].ref.Claimed? && Claim(k.ctx[t].pc) != Some(i))
    ensures r.slots[i].ref.Bound? ==> r.slots[i].ref == Bound(l) || r.slots[i].ref == slots[i].ref
  {
    if Reserving(k.ctx[t].pc) || k.ctx[t].pc.ClaimCas? {
      PreparerClaims(sw, l, k, slots, t, r, i);
    } else {
      BystanderClaims(sw, l, k, slots, t, r, i);
    }
  }

  lemma SlotHeld(sw: nat, s: State, id: Id, r: Result, s': State, i: SlotIx)
    requires Held(s) && Exists(s, id) && r == LocalStep(sw, id.lock, s.locks[id.lock], s.slots, id.thread)
    requires s' == Step(sw, s, id)
    ensures WellFormed(s') && (s'.slots[i].ref.Claimed? ==> exists j :: Prepares(s', j, i))
    ensures s'.slots[i].ref.Bound? ==> s'.slots[i].ref.lock in s'.locks
  {
    StepMovesOne(sw, s, id, r);
    OnlyMine(sw, id.lock, s.locks[id.lock], s.slots, id.thread);
    StepClaims(sw, id.lock, s.locks[id.lock], s.slots, id.thread, r, i);
    if s'.slots[i].ref.Claimed? {
      if Claim(PcOf(s', id)) == Some(i) {
        assert Prepares(s', id, i);
      } else {
        var j :| Prepares(s, j, i);
        assert j != id && Prepares(s', j, i);
      }
    }
  }

  lemma StepHeld(sw: nat, s: State, id: Id)
    requires Held(s) && Exists(s, id)
    ensures Held(Step(sw, s, id))
  {
    var r := LocalStep(sw, id.lock, s.locks[id.lock], s.slots, id.thread);
    forall i: SlotIx {
      SlotHeld(sw, s, id, r, Step(sw, s, id), i);
    }
  }

  // ---------------------------------------------------------------- runs

  /** On every schedule, with the granularity assumption or without it, a reserved slot is being prepared. */
  lemma {:induction false} RunHeld(sw: nat, s: State, schedule: seq<Id>)
    requires Held(s) && Run(sw, s, schedule).Some?
    ensures Held(Run(sw, s, schedule).value)
    decreases |schedule|
  {
    if schedule != [] {
      StepHeld(sw, s, schedule[0]);
      RunHeld(sw, Step(sw, s, schedule[0]), schedule[1..]);
    }
  }

  lemma {:induction false} QuietRunIsRun(sw: nat, s: State, schedule: seq<Id>)
    requires QuietRun(sw, s, schedule).Some?
    ensures Run(sw, s, schedule) == QuietRun(sw, s, schedule)
    decreases |schedule|
  {
    if schedule != [] {
      QuietRunStep(sw, s, schedule);
      QuietRunIsRun(sw, Step(sw, s, schedule[0]), schedule[1..]);
    }
  }

  lemma ReachableHeld(sw: nat, s: State)
    requires Reachable(sw, s)
    ensures Held(s)
  {
    var s0: State, schedule: seq<Id> :| Init(s0) && QuietRun(sw, s0, schedule) == Some(s);
    QuietRunIsRun(sw, s0, schedule);
    RunHeld(sw, s0, schedule);
  }

  // ---------------------------------------------------------------- reachable states

  lemma PreparesOwns(s: State, a: Aux, id: Id, i: SlotIx)
    requires Inv(s, a) && Prepares(s, id, i)
    ensures a.owner[i] == Some(id) && s.slots[i].ref.Claimed?
  {
    assert CtxOk(id, s.locks[id.lock].ctx[id.thread], a.hist[id.lock], s.slots, a.owner);
  }

  /**
   * In every reachable state a slot is reserved if and only if a context stands between its claim and its publication
   * or return, and that context is the only one.
   */
  lemma ReservedIffPrepared(sw: nat, s: State, i: SlotIx)
    requires Reachable(sw, s)
    ensures WellFormed(s) && (s.slots[i].ref.Claimed? <==> exists id :: Prepares(s, id, i))
    ensures forall id, j :: Prepares(s, id, i) && Prepares(s, j, i) ==> id == j
  {
    ReachableHeld(sw, s);
    var a := ReachableInv(sw, s);
    forall id | Prepares(s, id, i) ensures a.owner[i] == Some(id) && s.slots[i].ref.Claimed? {
      PreparesOwns(s, a, id, i);
    }
  }

  /** A lock that nobody uses has no slot. */
  ghost predicate NobodyUses(s: State, l: nat)
    requires l in s.locks
  {
    forall t :: 0 <= t < |s.locks[l].ctx| ==> s.locks[l].ctx[t].pc.Idle?
  }

  lemma UnusedPhase(l: nat, k: Lock, h: History, slots: seq<Slot>, owner: seq<Option<Id>>)
    requires |slots| == |owner| == NQUEUES && LockInv(l, k, h, slots, owner)
    requires forall t :: 0 <= t < |k.ctx| ==> k.ctx[t].pc.Idle?
    ensures h.phase.Ticket?
  {
  }

  lemma UnusedLockHasNoSlot(sw: nat, s: State, l: nat, i: SlotIx)
    requires Reachable(sw, s) && l in s.locks && NobodyUses(s, l)
    ensures WellFormed(s) && s.slots[i].ref != Bound(l) && forall t :: !Prepares(s, Id(l, t), i)
  {
    var a := ReachableInv(sw, s);
    UnusedPhase(l, s.locks[l], a.hist[l], s.slots, a.owner);
  }

  /** A slot is free exactly when no context prepares it and no lock is bound to it. */
  lemma FreeIffUnused(sw: nat, s: State, i: SlotIx)
    requires Reachable(sw, s)
    ensures WellFormed(s)
    ensures s.slots[i].ref == Free <==>
            (forall id :: !Prepares(s, id, i)) && forall l :: l in s.locks ==> s.slots[i].ref != Bound(l)
  {
    ReachableHeld(sw, s);
    ReservedIffPrepared(sw, s, i);
  }

  /** When nobody uses any lock, every slot is free again. */
  lemma AllSlotsComeBack(sw: nat, s: State)
    requires Reachable(sw, s) && forall l :: l in s.locks ==> NobodyUses(s, l)
    ensures WellFormed(s) && forall i: SlotIx :: s.slots[i].ref == Free
  {
    ReachableHeld(sw, s);
    forall i: SlotIx ensures s.slots[i].ref == Free {
      FreeIffUnused(sw, s, i);
      forall l | l in s.locks ensures s.slots[i].ref != Bound(l) {
        UnusedLockHasNoSlot(sw, s, l, i);
      }
    }
  }
}
