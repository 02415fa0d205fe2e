/**
 * The lock can always be left: from every reachable state the contexts of a lock that have not left it can all do so
 * without a newcomer, and then the lock has given its slot back.
 */
module QLockDrain {
  import opened Wrappers
  import opened TicketWords
  import opened QLockModel
  import opened QLockInvariant
  import opened QLockTickets
  import opened QLockSafety
  import opened QLockTheorems
  import opened QLockProgress
  import opened QLockFew
  import opened QLockSlots

  /** Steps of contexts of lock l that use it already. */
  ghost predicate Working(sw: nat, s: State, l: nat, schedule: seq<Id>)
    decreases |schedule|
  {
    schedule == [] ||
    var id := schedule[0];
    && WellFormed(s) && Exists(s, id) && Quiet(s, id) && id.lock == l && !PcOf(s, id).Idle?
    && Working(sw, Step(sw, s, id), l, schedule[1..])
  }

  lemma {:induction false} WorkingRuns(sw: nat, s: State, l: nat, schedule: seq<Id>)
    requires Working(sw, s, l, schedule)
    ensures QuietRun(sw, s, schedule).Some?
    decreases |schedule|
  {
    if schedule != [] {
      WorkingRuns(sw, Step(sw, s, schedule[0]), l, schedule[1..]);
    }
  }

  ghost predicate Drains(sw: nat, s: State, l: nat, schedule: seq<Id>) {
    && Working(sw, s, l, schedule) && QuietRun(sw, s, schedule).Some?
    && var s' := QuietRun(sw, s, schedule).value;
    && WellFormed(s') && l in s'.locks && NobodyUses(s', l) && forall i: SlotIx :: s'.slots[i].ref != Bound(l)
  }

  /** Everybody can leave lock l. */
  ghost predicate CanDrain(sw: nat, s: State, l: nat) { exists schedule: seq<Id> :: Drains(sw, s, l, schedule) }

  lemma PrependWork(sw: nat, s: State, l: nat, id: Id)
    requires WellFormed(s) && Exists(s, id) && Quiet(s, id) && id.lock == l && !PcOf(s, id).Idle?
    requires CanDrain(sw, Step(sw, s, id), l)
    ensures CanDrain(sw, s, l)
  {
    var schedule: seq<Id> :| Drains(sw, Step(sw, s, id), l, schedule);
    var whole := [id] + schedule;
    assert whole[0] == id && whole[1..] == schedule;
    assert Drains(sw, s, l, whole);
  }

  lemma AllOut(sw: nat, s: State, a: Aux, l: nat)
    requires Inv(s, a) && l in s.locks && NobodyUses(s, l)
    ensures CanDrain(sw, s, l)
  {
    UnusedPhase(l, s.locks[l], a.hist[l], s.slots, a.owner);
    assert Drains(sw, s, l, []);
  }

  // ---------------------------------------------------------------- the last releaser

  /** How many slots the search at j passes before slot i. */
  function Distance(i: SlotIx, j: SlotIx): nat { if i >= j then i - j else i - j + NQUEUES }

  /** The rest of the way out of a releaser when nobody has a ticket. */
  function LeaveRank(k: Lock, i: SlotIx, pc: PC): nat {
    match pc
    case Idle => 0
    case UnqClear(_) => 1
    case UnqCas(_, oh, ot) => if oh == k.head && ot == k.tail then 2 else 5
    case UnqRead(_) => 3
    case WakeSpin(_) => 4
    case WakeFind(j) => 6 + Distance(i, j)
    case _ => 0
  }

  /** Nobody has a ticket, and t has not left yet. */
  ghost predicate Leaving(l: nat, k: Lock, h: History, slots: seq<Slot>, owner: seq<Option<Id>>, t: nat)
    requires |slots| == |owner| == NQUEUES
  {
    LockInv(l, k, h, slots, owner) && h.line == [] && t < |k.ctx| && !k.ctx[t].pc.Idle?
  }

  lemma LeaverIs(l: nat, k: Lock, h: History, slots: seq<Slot>, owner: seq<Option<Id>>, t: nat)
    requires |slots| == |owner| == NQUEUES && Leaving(l, k, h, slots, owner, t)
    ensures var pc := k.ctx[t].pc;
            || (pc.UnqClear? && h.phase == Stale(pc.slot, t))
            || (h.phase.Queued? && h.token == Some(t) && h.q == [] && slots[h.phase.slot].spin == None
                && (pc.WakeFind? || ((pc.WakeSpin? || pc.UnqRead? || pc.UnqCas?) && pc.slot == h.phase.slot)))
    ensures Even(k.head) == k.tail
  {
    assert CtxOk(Id(l, t), k.ctx[t], h, slots, owner);
  }

  /** The slot that the lock is leaving. */
  function LeftSlot(h: History): SlotIx { if h.phase.Ticket? then 0 else h.phase.slot }

  /** A releaser comes nearer to the end by its own step. */
  lemma LeaveStep(sw: nat, l: nat, k: Lock, h: History, slots: seq<Slot>, owner: seq<Option<Id>>, t: nat)
    requires |slots| == |owner| == NQUEUES && Leaving(l, k, h, slots, owner, t)
    ensures var r, h' := LocalStep(sw, l, k, slots, t), Advance(l, k, h, slots, t);
            && r.effect == Nothing && |r.lock.ctx| == |k.ctx| && h'.line == []
            && LeaveRank(r.lock, LeftSlot(h'), r.lock.ctx[t].pc) < LeaveRank(k, LeftSlot(h), k.ctx[t].pc)
  {
    LeaverIs(l, k, h, slots, owner, t);
  }

  /** Only one context can be on its way out without a ticket. */
  lemma OneLeaver(l: nat, k: Lock, h: History, slots: seq<Slot>, owner: seq<Option<Id>>, t: nat, u: nat)
    requires |slots| == |owner| == NQUEUES
    requires Leaving(l, k, h, slots, owner, t) && Leaving(l, k, h, slots, owner, u)
    ensures t == u
  {
    LeaverIs(l, k, h, slots, owner, t);
    LeaverIs(l, k, h, slots, owner, u);
  }

  lemma LeaverSteps(sw: nat, s: State, a: Aux, l: nat, t: nat) returns (s': State, a': Aux)
    requires Inv(s, a) && l in s.locks && Leaving(l, s.locks[l], a.hist[l], s.slots, a.owner, t)
    ensures Quiet(s, Id(l, t)) && s' == Step(sw, s, Id(l, t)) && Inv(s', a') && l in s'.locks
    ensures a'.hist[l].line == [] && t < |s'.locks[l].ctx|
    ensures LeaveRank(s'.locks[l], LeftSlot(a'.hist[l]), s'.locks[l].ctx[t].pc)
            < LeaveRank(s.locks[l], LeftSlot(a.hist[l]), s.locks[l].ctx[t].pc)
  {
    LeaverIs(l, s.locks[l], a.hist[l], s.slots, a.owner, t);
    LeaveStep(sw, l, s.locks[l], a.hist[l], s.slots, a.owner, t);
    StepsAreLocal(sw, s, a, Id(l, t));
    StepKeeps(sw, s, a, Id(l, t));
    s', a' := Step(sw, s, Id(l, t)), StepAux(s, a, Id(l, t));
  }

  lemma {:induction false} LastLeaves(sw: nat, s: State, a: Aux, l: nat, t: nat)
    requires Inv(s, a) && l in s.locks && a.hist[l].line == [] && t < |s.locks[l].ctx|
    requires forall u :: 0 <= u < |s.locks[l].ctx| && u != t ==> s.locks[l].ctx[u].pc.Idle?
    ensures CanDrain(sw, s, l)
    decreases LeaveRank(s.locks[l], LeftSlot(a.hist[l]), s.locks[l].ctx[t].pc)
  {
    if s.locks[l].ctx[t].pc.Idle? {
      AllOut(sw, s, a, l);
    } else {
      var s', a' := LeaverSteps(sw, s, a, l, t);
      OthersStay(sw, s, Id(l, t), s');
      LastLeaves(sw, s', a', l, t);
      PrependWork(sw, s, l, Id(l, t));
    }
  }

  lemma OthersStay(sw: nat, s: State, id: Id, s': State)
    requires WellFormed(s) && Exists(s, id) && s' == Step(sw, s, id)
    ensures id.lock in s'.locks && |s'.locks[id.lock].ctx| == |s.locks[id.lock].ctx|
    ensures forall u :: 0 <= u < |s.locks[id.lock].ctx| && u != id.thread ==>
              s'.locks[id.lock].ctx[u].pc == s.locks[id.lock].ctx[u].pc
  {
    var r := LocalStep(sw, id.lock, s.locks[id.lock], s.slots, id.thread);
    StepMovesOne(sw, s, id, r);
    forall u | 0 <= u < |s.locks[id.lock].ctx| && u != id.thread
      ensures s'.locks[id.lock].ctx[u].pc == s.locks[id.lock].ctx[u].pc
    {
      assert PcOf(s', Id(id.lock, u)) == PcOf(s, Id(id.lock, u));
    }
  }

  lemma NoTicketsLeft(sw: nat, s: State, a: Aux, l: nat)
    requires Inv(s, a) && l in s.locks && a.hist[l].line == []
    ensures CanDrain(sw, s, l)
  {
    if t :| 0 <= t < |s.locks[l].ctx| && !s.locks[l].ctx[t].pc.Idle? {
      forall u | 0 <= u < |s.locks[l].ctx| && u != t ensures s.locks[l].ctx[u].pc.Idle? {
        if !s.locks[l].ctx[u].pc.Idle? { OneLeaver(l, s.locks[l], a.hist[l], s.slots, a.owner, t, u); }
      }
      LastLeaves(sw, s, a, l, t);
    } else {
      AllOut(sw, s, a, l);
    }
  }

  // ---------------------------------------------------------------- everybody

  /** A step that adds nobody to the line is not one of a newcomer. */
  lemma NoNewcomer(s: State, a: Aux, id: Id)
    requires Inv(s, a) && Exists(s, id) && |StepAux(s, a, id).hist[id.lock].line| <= |a.hist[id.lock].line|
    ensures !PcOf(s, id).Idle?
  {
  }

  /** Who is inside leaves, or somebody comes nearer to an entry. */
  lemma NextWork(sw: nat, s: State, a: Aux, l: nat) returns (id: Id, s': State, a': Aux)
    requires Inv(s, a) && l in s.locks && a.hist[l].line != []
    ensures WellFormed(s) && Exists(s, id) && id.lock == l && Quiet(s, id) && !PcOf(s, id).Idle?
    ensures s' == Step(sw, s, id) && Inv(s', a') && l in s'.locks
    ensures |a'.hist[l].line| < |a.hist[l].line|
            || (!Inside(s.locks[l]) && |a'.hist[l].line| == |a.hist[l].line|
                && (Inside(s'.locks[l]) || Rank(l, s'.locks[l], a'.hist[l]) < Rank(l, s.locks[l], a.hist[l])))
  {
    if u :| 0 <= u < |s.locks[l].ctx| && s.locks[l].ctx[u].pc.Critical? {
      id := Id(l, u);
      InsideLeaves(l, s.locks[l], a.hist[l], s.slots, u);
    } else {
      id := NearerStep(sw, s, a, l);
    }
    StepKeeps(sw, s, a, id);
    s', a' := Step(sw, s, id), StepAux(s, a, id);
    NoNewcomer(s, a, id);
  }

  lemma InsideLeaves(l: nat, k: Lock, h: History, slots: seq<Slot>, u: nat)
    requires |slots| == NQUEUES && Counting(k, h) && u < |k.ctx| && k.ctx[u].pc.Critical?
    ensures |Advance(l, k, h, slots, u).line| < |h.line|
  {
    WithoutIs(h.line, u, |k.ctx|);
  }

  lemma {:induction false} EventuallyDrains(sw: nat, s: State, a: Aux, l: nat)
    requires Inv(s, a) && l in s.locks
    ensures CanDrain(sw, s, l)
    decreases |a.hist[l].line|, if Inside(s.locks[l]) then 0 else 1, Rank(l, s.locks[l], a.hist[l])
  {
    if a.hist[l].line == [] {
      NoTicketsLeft(sw, s, a, l);
    } else {
      var id, s', a' := NextWork(sw, s, a, l);
      EventuallyDrains(sw, s', a', l);
      PrependWork(sw, s, l, id);
    }
  }

  /**
   * Whatever the schedule did so far, the contexts that use lock l can all leave it, releasers included, by steps of
   * their own and without a newcomer; the lock is then bound to no slot.
   */
  lemma LockDrains(sw: nat, s: State, l: nat)
    requires Reachable(sw, s) && l in s.locks
    ensures CanDrain(sw, s, l)
  {
    var a := ReachableInv(sw, s);
    EventuallyDrains(sw, s, a, l);
  }
}
