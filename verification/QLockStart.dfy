/**
 * When a queue starts and which slot it gets: the test of line 358 by the number of waiters, and the search of lines
 * 317-343.
 */
module QLockStart {
  import opened Sequences
  import opened Wrappers
  import opened TicketWords
  import opened QLockModel
  import opened QLockInvariant
  import opened QLockPreservation
  import opened QLockPhases
  import opened QLockSafety
  import opened QLockTheorems
  import opened QLockOrder
  import opened QLockProgress
  import opened QLockSlots

  // ---------------------------------------------------------------- the test of line 358

  /** The contexts with a ticket that was drawn before the one of t; all with a ticket if t has none yet. */
  function Before(k: Lock, t: nat): set<nat>
    requires t < |k.ctx|
  {
    set u: nat | u < |k.ctx| && Outstanding(k.ctx[u].pc)
                 && (k.ctx[t].pc.Idle? || Wrap(k.ctx[u].tkt - k.head) < Wrap(k.ctx[t].tkt - k.head))
  }

  lemma TicketDistance(tkt: int, head: int, n: nat)
    requires 0 <= tkt < WORD && 0 <= head < WORD && tkt == Wrap(head + 2 * n) && 2 * n < WORD
    ensures Wrap(tkt - head) == 2 * n && (tkt == head + 2 * n || tkt == head + 2 * n - WORD)
  {
  }

  lemma PlaceOf(k: Lock, line: seq<nat>, j: nat)
    requires ConsecutiveTickets(k, line) && |k.ctx| <= MAX_THREADS && 0 <= k.head < WORD && j < |line|
    ensures line[j] < |k.ctx| && Wrap(k.ctx[line[j]].tkt - k.head) == 2 * j
  {
    LineBound(line, |k.ctx|);
    assert line[j] in line;
    TicketDistance(k.ctx[line[j]].tkt, k.head, j);
  }

  lemma BeforeIs(k: Lock, line: seq<nat>, j: nat, u: nat)
    requires ConsecutiveTickets(k, line) && |k.ctx| <= MAX_THREADS && 0 <= k.head < WORD && j < |line|
    requires line[j] < |k.ctx| && !k.ctx[line[j]].pc.Idle?
    ensures u in Before(k, line[j]) <==> u in line[..j]
  {
    PlaceOf(k, line, j);
    if u in line {
      var n :| 0 <= n < |line| && line[n] == u;
      PlaceOf(k, line, n);
      assert n < j ==> line[..j][n] == u;
    }
  }

  lemma BeforeIsPrefix(k: Lock, line: seq<nat>, j: nat)
    requires ConsecutiveTickets(k, line) && |k.ctx| <= MAX_THREADS && 0 <= k.head < WORD && j < |line|
    requires line[j] < |k.ctx| && !k.ctx[line[j]].pc.Idle?
    ensures Before(k, line[j]) == Elements(line[..j]) && |Before(k, line[j])| == j
  {
    forall u: nat ensures u in Before(k, line[j]) <==> u in line[..j] {
      BeforeIs(k, line, j, u);
    }
    assert Before(k, line[j]) == Elements(line[..j]);
    DistinctSize(line[..j]);
  }

  lemma BeforeIsAll(k: Lock, line: seq<nat>, t: nat)
    requires ConsecutiveTickets(k, line) && t < |k.ctx| && k.ctx[t].pc.Idle?
    ensures Before(k, t) == Elements(line) && |Before(k, t)| == |line|
  {
    DistinctSize(line);
  }

  /** What a context does that reads the head word without the bit, by the number of tickets before its own. */
  predicate Decides(sw: nat, l: nat, head: int, ahead: nat, pc: PC) {
    if ahead == 0 then pc == Critical
    else if 2 * ahead == sw && head + sw < WORD then pc == ClaimRead(Hash(l))
    else pc == Spin
  }

  lemma HeadDecides(sw: nat, l: nat, head: int, tkt: int, n: nat)
    requires 0 <= head < WORD && !Odd(head) && tkt == Wrap(head + 2 * n) && 2 * n < WORD
    ensures Decides(sw, l, head, n, AfterHead(sw, l, head, tkt))
  {
    TicketDistance(tkt, head, n);
  }

  /** A context that draws a ticket, or reads the head word with the one it has. */
  predicate Looks(pc: PC) { pc.Idle? || pc.Spin? }

  lemma WaiterDecides(sw: nat, l: nat, k: Lock, line: seq<nat>, t: nat)
    requires ConsecutiveTickets(k, line) && |k.ctx| <= MAX_THREADS && 0 <= k.head < WORD && !Odd(k.head)
    requires t < |k.ctx| && t in line && !k.ctx[t].pc.Idle?
    ensures Decides(sw, l, k.head, |Before(k, t)|, AfterHead(sw, l, k.head, k.ctx[t].tkt))
  {
    var j :| 0 <= j < |line| && line[j] == t;
    LineBound(line, |k.ctx|);
    BeforeIsPrefix(k, line, j);
    HeadDecides(sw, l, k.head, k.ctx[t].tkt, j);
  }

  lemma NewcomerDecides(sw: nat, l: nat, k: Lock, line: seq<nat>, t: nat)
    requires ConsecutiveTickets(k, line) && |k.ctx| <= MAX_THREADS && 0 <= k.head < WORD && !Odd(k.head)
    requires t < |k.ctx| && t !in line && k.ctx[t].pc.Idle?
    ensures Decides(sw, l, k.head, |Before(k, t)|, AfterHead(sw, l, k.head, k.tail))
  {
    BeforeIsAll(k, line, t);
    LineBoundWith(line, t, |k.ctx|);
    HeadDecides(sw, l, k.head, k.tail, |line|);
  }

  lemma LooksDecides(sw: nat, l: nat, k: Lock, h: History, slots: seq<Slot>, owner: seq<Option<Id>>, t: nat)
    requires |slots| == |owner| == NQUEUES && LockInv(l, k, h, slots, owner) && !Odd(k.head) && t < |k.ctx|
    requires Looks(k.ctx[t].pc) && |LocalStep(sw, l, k, slots, t).lock.ctx| == |k.ctx|
    ensures Decides(sw, l, k.head, |Before(k, t)|, LocalStep(sw, l, k, slots, t).lock.ctx[t].pc)
  {
    LineOf(l, k, h, slots, owner);
    assert CtxOk(Id(l, t), k.ctx[t], h, slots, owner);
    if k.ctx[t].pc.Idle? {
      NewcomerDecides(sw, l, k, h.line, t);
    } else {
      WaiterDecides(sw, l, k, h.line, t);
    }
  }

  /**
   * In every reachable state without a queue, a context that looks at the head word enters if and only if no ticket
   * before its own is out; it goes to start a queue if and only if exactly half the threshold of them are and the
   * tickets have not wrapped around since; and it spins otherwise.
   */
  lemma StartsExactly(sw: nat, s: State, id: Id)
    requires Reachable(sw, s) && Exists(s, id) && WellFormed(s)
    requires !Odd(s.locks[id.lock].head) && Looks(PcOf(s, id))
    ensures Exists(Step(sw, s, id), id)
    ensures Decides(sw, id.lock, s.locks[id.lock].head, |Before(s.locks[id.lock], id.thread)|,
            PcOf(Step(sw, s, id), id))
  {
    var a := ReachableInv(sw, s);
    var k := s.locks[id.lock];
    StepMovesOne(sw, s, id, LocalStep(sw, id.lock, k, s.slots, id.thread));
    StepsAreLocal(sw, s, a, id);
    LooksDecides(sw, id.lock, k, a.hist[id.lock], s.slots, a.owner, id.thread);
  }

  // ---------------------------------------------------------------- the search for a slot

  /** No slot that the search of lock l passes before slot i, from slot j on, is free. */
  predicate NoneBefore(s: State, l: nat, j: SlotIx, i: SlotIx)
    requires WellFormed(s)
  {
    Pos(l, j) <= Pos(l, i) && forall n: SlotIx :: Pos(l, j) <= Pos(l, n) < Pos(l, i) ==> s.slots[n].ref != Free
  }

  predicate Searching(s: State, id: Id, j: SlotIx) {
    WellFormed(s) && Exists(s, id) && PcOf(s, id) == ClaimRead(j) && !Odd(s.locks[id.lock].head)
  }

  /** Steps of this context alone. */
  function Alone(id: Id, n: nat): seq<Id> { seq(n, _ => id) }

  /** By itself the context comes to the program point pc, with the slots as given. */
  ghost predicate ComesTo(sw: nat, s: State, id: Id, pc: PC, slots: seq<Slot>) {
    exists n: nat :: IsAt(Run(sw, s, Alone(id, n)), id, pc, slots)
  }

  predicate IsAt(s: Option<State>, id: Id, pc: PC, slots: seq<Slot>) {
    s.Some? && s.value.slots == slots && Exists(s.value, id) && PcOf(s.value, id) == pc
  }

  lemma OneStepFirst(sw: nat, s: State, id: Id, pc: PC, slots: seq<Slot>)
    requires WellFormed(s) && Exists(s, id) && ComesTo(sw, Step(sw, s, id), id, pc, slots)
    ensures ComesTo(sw, s, id, pc, slots)
  {
    var n: nat :| IsAt(Run(sw, Step(sw, s, id), Alone(id, n)), id, pc, slots);
    assert Alone(id, n + 1)[0] == id && Alone(id, n + 1)[1..] == Alone(id, n);
    assert IsAt(Run(sw, s, Alone(id, n + 1)), id, pc, slots);
  }

  lemma ThereAlready(sw: nat, s: State, id: Id)
    requires Exists(s, id)
    ensures ComesTo(sw, s, id, PcOf(s, id), s.slots)
  {
    assert IsAt(Run(sw, s, Alone(id, 0)), id, PcOf(s, id), s.slots);
  }

  lemma Reads(sw: nat, s: State, id: Id, j: SlotIx)
    requires Searching(s, id, j)
    ensures var s' := Step(sw, s, id);
            && WellFormed(s') && Exists(s', id) && s'.slots == s.slots && !Odd(s'.locks[id.lock].head)
            && PcOf(s', id) == if s.slots[j].ref == Free then ClaimCas(j) else ClaimBit(j)
  {
  }

  lemma ReadsBit(sw: nat, s: State, id: Id, j: SlotIx)
    requires WellFormed(s) && Exists(s, id) && PcOf(s, id) == ClaimBit(j) && !Odd(s.locks[id.lock].head)
    ensures var s' := Step(sw, s, id);
            && WellFormed(s') && Exists(s', id) && s'.slots == s.slots && !Odd(s'.locks[id.lock].head)
            && PcOf(s', id) == if NextSlot(j) == Hash(id.lock) then Spin else ClaimRead(NextSlot(j))
  {
  }

  lemma Takes(sw: nat, s: State, id: Id, j: SlotIx)
    requires WellFormed(s) && Exists(s, id) && PcOf(s, id) == ClaimCas(j) && s.slots[j].ref == Free
    ensures var s' := Step(sw, s, id);
            && Exists(s', id) && s'.slots == s.slots[j := s.slots[j].(ref := Claimed)] && PcOf(s', id) == InitSpin(j)
  {
  }

  lemma {:induction false} FindsFree(sw: nat, s: State, id: Id, j: SlotIx, i: SlotIx)
    requires Searching(s, id, j) && NoneBefore(s, id.lock, j, i) && s.slots[i].ref == Free
    ensures ComesTo(sw, s, id, InitSpin(i), s.slots[i := s.slots[i].(ref := Claimed)])
    decreases Pos(id.lock, i) - Pos(id.lock, j)
  {
    Reads(sw, s, id, j);
    var s1 := Step(sw, s, id);
    if s.slots[j].ref == Free {
      assert j == i;
      Takes(sw, s1, id, i);
      ThereAlready(sw, Step(sw, s1, id), id);
    } else {
      ReadsBit(sw, s1, id, j);
      NextPos(id.lock, j);
      FindsFree(sw, Step(sw, s1, id), id, NextSlot(j), i);
    }
    OneStepFirst(sw, s1, id, InitSpin(i), s.slots[i := s.slots[i].(ref := Claimed)]);
    OneStepFirst(sw, s, id, InitSpin(i), s.slots[i := s.slots[i].(ref := Claimed)]);
  }

  lemma {:induction false} FindsNone(sw: nat, s: State, id: Id, j: SlotIx)
    requires Searching(s, id, j)
    requires forall n: SlotIx :: Pos(id.lock, j) <= Pos(id.lock, n) ==> s.slots[n].ref != Free
    ensures ComesTo(sw, s, id, Spin, s.slots)
    decreases NQUEUES - Pos(id.lock, j)
  {
    Reads(sw, s, id, j);
    var s1 := Step(sw, s, id);
    ReadsBit(sw, s1, id, j);
    NextPos(id.lock, j);
    if NextSlot(j) == Hash(id.lock) {
      ThereAlready(sw, Step(sw, s1, id), id);
    } else {
      FindsNone(sw, Step(sw, s1, id), id, NextSlot(j));
    }
    OneStepFirst(sw, s1, id, Spin, s.slots);
    OneStepFirst(sw, s, id, Spin, s.slots);
  }

  /**
   * A context that starts to search, and is not overtaken, reserves the first free slot from the lock's hash on, round
   * all slots; it goes back to spinning exactly when no slot is free.
   */
  lemma SearchFindsFirstFree(sw: nat, s: State, id: Id)
    requires Searching(s, id, Hash(id.lock))
    ensures forall i: SlotIx :: s.slots[i].ref == Free && NoneBefore(s, id.lock, Hash(id.lock), i) ==>
              ComesTo(sw, s, id, InitSpin(i), s.slots[i := s.slots[i].(ref := Claimed)])
    ensures (forall i: SlotIx :: s.slots[i].ref != Free) ==> ComesTo(sw, s, id, Spin, s.slots)
    ensures (exists i: SlotIx :: s.slots[i].ref == Free) ==>
              exists i: SlotIx :: s.slots[i].ref == Free && NoneBefore(s, id.lock, Hash(id.lock), i)
  {
    var l := id.lock;
    forall i: SlotIx | s.slots[i].ref == Free && NoneBefore(s, l, Hash(l), i)
      ensures ComesTo(sw, s, id, InitSpin(i), s.slots[i := s.slots[i].(ref := Claimed)])
    {
      FindsFree(sw, s, id, Hash(l), i);
    }
    if i: SlotIx :| s.slots[i].ref == Free {
      FirstFree(s, l, i);
    } else {
      FindsNone(sw, s, id, Hash(l));
    }
  }

  lemma {:induction false} FirstFree(s: State, l: nat, i: SlotIx)
    requires WellFormed(s) && s.slots[i].ref == Free
    ensures exists n: SlotIx :: s.slots[n].ref == Free && NoneBefore(s, l, Hash(l), n)
    decreases Pos(l, i)
  {
    if n: SlotIx :| Pos(l, n) < Pos(l, i) && s.slots[n].ref == Free {
      FirstFree(s, l, n);
    } else {
      assert NoneBefore(s, l, Hash(l), i);
    }
  }

  /** Locks 256 bytes apart start at neighbouring slots, those in the same 256 bytes at the same. */
  lemma HashSpreads(l: nat, m: nat)
    requires l / 256 == m / 256
    ensures Hash(m) == Hash(l) && Hash(l + 256) == NextSlot(Hash(l))
  {
  }
}
