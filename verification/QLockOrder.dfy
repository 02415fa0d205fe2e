/** The shape of the queue, who is granted the lock, and the order in which contexts get it. */
module QLockOrder {
  import opened Sequences
  import opened Wrappers
  import opened TicketWords
  import opened QLockModel
  import opened QLockInvariant
  import opened QLockPreservation
  import opened QLockSafety
  import opened QLockTheorems
  import opened QLockHandOff

  // ---------------------------------------------------------------- the shape of the queue

  /** The elements met when following the `next` pointers from p, at most `fuel` of them. */
  function Walk(k: Lock, p: Option<Id>, fuel: nat): seq<nat>
    decreases fuel
  {
    if fuel == 0 || p.None? || p.value.thread >= |k.ctx| then []
    else [p.value.thread] + Walk(k, k.ctx[p.value.thread].next, fuel - 1)
  }

  /** Through all races the attached queue is one chain from `spin` to `spin_tail` with every waiter on it. */
  lemma QueueIsOneChain(sw: nat, s: State, l: nat, i: SlotIx) returns (q: seq<nat>)
    requires Reachable(sw, s) && WellFormed(s) && l in s.locks
    requires Odd(s.locks[l].head) && s.slots[i].ref == Bound(l)
    ensures var k := s.locks[l];
            && Distinct(q) && Within(q, |k.ctx|)
            && (forall t :: 0 <= t < |k.ctx| ==> (InQueue(k.ctx[t].pc) <==> t in q))
            && Shape(l, k, q, i, s.slots[i])
  {
    var a := ReachableInv(sw, s);
    q := a.hist[l].q;
  }

  lemma {:induction false} WalkSuffix(l: nat, k: Lock, q: seq<nat>, n: nat)
    requires Within(q, |k.ctx|) && Links(l, k, q) && n < |q|
    requires forall m :: n < m < |q| ==> !k.ctx[q[m]].pc.Link?
    ensures Walk(k, Some(Id(l, q[n])), |q| - n) == q[n..]
    decreases |q| - n
  {
    assert k.ctx[q[n]].next == LinkTo(l, k, q, n);
    if n + 1 < |q| {
      WalkSuffix(l, k, q, n + 1);
      assert q[n..] == [q[n]] + q[n + 1..];
    } else {
      assert Walk(k, None, 0) == [];
    }
  }

  lemma WalkIs(l: nat, k: Lock, q: seq<nat>)
    requires Within(q, |k.ctx|) && Links(l, k, q) && q != []
    requires forall n :: 0 <= n < |q| ==> !k.ctx[q[n]].pc.Link?
    ensures Walk(k, Some(Id(l, q[0])), |q|) == q
  {
    WalkSuffix(l, k, q, 0);
    assert q[0..] == q;
  }

  lemma NobodyLinks(k: Lock, q: seq<nat>)
    requires Within(q, |k.ctx|) && forall c :: c in k.ctx ==> !c.pc.Link? && !Dequeuing(c.pc)
    requires forall t :: 0 <= t < |k.ctx| ==> (InQueue(k.ctx[t].pc) <==> t in q)
    ensures forall n :: 0 <= n < |q| ==> k.ctx[q[n]].pc.Await?
    ensures forall t :: 0 <= t < |k.ctx| ==> (k.ctx[t].pc.Await? <==> t in q)
  {
    assert forall t :: 0 <= t < |k.ctx| ==> k.ctx[t] in k.ctx;
    assert forall n :: 0 <= n < |q| ==> q[n] in q;
  }

  /**
   * When no link write is pending and the front element still waits, following `next` from `spin`
   * meets every element exactly once, in order, and `spin_tail` points into the last one.
   */
  lemma WalkMeetsEverybody(sw: nat, s: State, l: nat, i: SlotIx) returns (q: seq<nat>)
    requires Reachable(sw, s) && WellFormed(s) && l in s.locks
    requires Odd(s.locks[l].head) && s.slots[i].ref == Bound(l)
    requires forall c :: c in s.locks[l].ctx ==> !c.pc.Link? && !Dequeuing(c.pc)
    ensures var k := s.locks[l];
            && Distinct(q)
            && (forall t :: 0 <= t < |k.ctx| ==> (k.ctx[t].pc.Await? <==> t in q))
            && Walk(k, s.slots[i].spin, |q|) == q
            && s.slots[i].spinTail == if q == [] then SpinCell(i) else NextCell(Id(l, q[|q| - 1]))
  {
    q := QueueIsOneChain(sw, s, l, i);
    var k := s.locks[l];
    NobodyLinks(k, q);
    if q != [] { WalkIs(l, k, q); }
  }

  /** Line 153 wakes the first waiter of the queue, and nobody is woken twice. */
  lemma GrantGoesToFirst(sw: nat, s: State, l: nat, t: nat)
    requires Reachable(sw, s) && Exists(s, Id(l, t)) && s.locks[l].ctx[t].pc.WakeGrant?
    ensures var pc := s.locks[l].ctx[t].pc;
            && WellFormed(s) && pc.w.lock == l && Exists(s, pc.w)
            && s.locks[l].ctx[pc.w.thread].pc == Await(pc.slot) && !s.locks[l].ctx[pc.w.thread].granted
            && s.slots[pc.slot].ref == Bound(l) && s.slots[pc.slot].spin == Some(pc.w)
            && s.slots[pc.slot].headTkt == -1
  {
    var a := ReachableInv(sw, s);
    var k, h := s.locks[l], a.hist[l];
    KeepGrant(l, k, h, s.slots, a.owner, t);
    assert CtxOk(Id(l, t), k.ctx[t], h, s.slots, a.owner);
    assert CtxOk(Id(l, h.q[0]), k.ctx[h.q[0]], h, s.slots, a.owner);
  }

  // ---------------------------------------------------------------- entering

  predicate Entrance(k: Lock, c: Ctx) {
    || (c.pc.Idle? && k.head == k.tail)
    || (c.pc.Spin? && k.head == c.tkt)
    || c.pc.HeadTake? || c.pc.DeqCas? || c.pc.DeqAdvance?
  }

  /** The step of t ends in the critical section. */
  predicate Enters(sw: nat, l: nat, k: Lock, slots: seq<Slot>, t: nat)
    requires |slots| == NQUEUES && t < |k.ctx|
  {
    var r := LocalStep(sw, l, k, slots, t); |r.lock.ctx| == |k.ctx| && After(r).ctx[t].pc.Critical?
  }

  lemma WaiterEnters(sw: nat, l: nat, k: Lock, slots: seq<Slot>, t: nat)
    requires |slots| == NQUEUES && t < |k.ctx| && Enters(sw, l, k, slots, t) && Outstanding(k.ctx[t].pc)
    requires !k.ctx[t].pc.Critical? && !InQueue(k.ctx[t].pc) && !Reserving(k.ctx[t].pc)
    ensures Entrance(k, k.ctx[t])
  {
  }

  lemma QueuedEnters(sw: nat, l: nat, k: Lock, slots: seq<Slot>, t: nat)
    requires |slots| == NQUEUES && t < |k.ctx| && Enters(sw, l, k, slots, t)
    requires (InQueue(k.ctx[t].pc) || Reserving(k.ctx[t].pc))
    ensures Entrance(k, k.ctx[t])
  {
  }

  lemma OutsiderEnters(sw: nat, l: nat, k: Lock, slots: seq<Slot>, t: nat)
    requires |slots| == NQUEUES && t < |k.ctx| && Enters(sw, l, k, slots, t) && !Outstanding(k.ctx[t].pc)
    ensures Entrance(k, k.ctx[t])
  {
  }

  lemma EnteringStep(sw: nat, l: nat, k: Lock, slots: seq<Slot>, t: nat)
    requires |slots| == NQUEUES && t < |k.ctx| && !k.ctx[t].pc.Critical?
    requires Enters(sw, l, k, slots, t)
    ensures Entrance(k, k.ctx[t])
  {
    if !Outstanding(k.ctx[t].pc) {
      OutsiderEnters(sw, l, k, slots, t);
    } else if InQueue(k.ctx[t].pc) || Reserving(k.ctx[t].pc) {
      QueuedEnters(sw, l, k, slots, t);
    } else {
      WaiterEnters(sw, l, k, slots, t);
    }
  }

  lemma EntryByToken(s: State, a: Aux, id: Id)
    requires Inv(s, a) && Exists(s, id)
    requires var k, c := s.locks[id.lock], s.locks[id.lock].ctx[id.thread];
             (c.pc.Spin? && k.head == c.tkt) || c.pc.HeadTake? || c.pc.DeqCas? || c.pc.DeqAdvance?
    ensures HasToken(s, id.lock, id.thread)
  {
    var l, k := id.lock, s.locks[id.lock];
    var c := k.ctx[id.thread];
    assert CtxOk(id, c, a.hist[l], s.slots, a.owner);
    if c.pc.HeadTake? { ServingSlot(s, a, l, c.pc.slot); }
  }

  /** Whoever enters had the token, or drew its ticket from a free lock. */
  lemma EntryNeedsToken(sw: nat, s: State, id: Id)
    requires Reachable(sw, s) && WellFormed(s) && Exists(s, id) && Quiet(s, id)
    requires !s.locks[id.lock].ctx[id.thread].pc.Critical?
    requires Exists(Step(sw, s, id), id) && Step(sw, s, id).locks[id.lock].ctx[id.thread].pc.Critical?
    ensures HasToken(s, id.lock, id.thread)
            || (s.locks[id.lock].ctx[id.thread].pc.Idle? && s.locks[id.lock].head == s.locks[id.lock].tail)
  {
    var a := ReachableInv(sw, s);
    StepsAreLocal(sw, s, a, id);
    EnteringStep(sw, id.lock, s.locks[id.lock], s.slots, id.thread);
    if !s.locks[id.lock].ctx[id.thread].pc.Idle? { EntryByToken(s, a, id); }
  }

  // ---------------------------------------------------------------- the ticket from before the queue

  /** Who waits with the ticket in `head_tkt` enters before everybody else: nobody is inside, granted or releasing. */
  lemma HeadTicketGoesFirst(sw: nat, s: State, l: nat, t: nat, i: SlotIx, u: nat)
    requires Reachable(sw, s) && WellFormed(s) && Exists(s, Id(l, t)) && Exists(s, Id(l, u)) && u != t
    requires WaitsForTurn(s.locks[l].ctx[t].pc) && Odd(s.locks[l].head)
    requires Serves(s, l, i) && s.slots[i].headTkt == s.locks[l].ctx[t].tkt
    ensures var c := s.locks[l].ctx[u];
            !c.pc.Critical? && !Dequeuing(c.pc) && !(c.pc.Await? && c.granted) && !Waker(c.pc)
  {
    if HasToken(s, l, u) {
      OneToken(sw, s, l, t, u);
    }
  }

  /** Only the former of a queue sets `head_tkt`. */
  lemma LocalHeadTicket(sw: nat, l: nat, k: Lock, slots: seq<Slot>, t: nat, i: SlotIx)
    requires |slots| == NQUEUES && t < |k.ctx| && slots[i].headTkt == -1
    requires !(k.ctx[t].pc.InitHead? && k.ctx[t].pc.slot == i)
    ensures |LocalStep(sw, l, k, slots, t).slots| == NQUEUES && LocalStep(sw, l, k, slots, t).slots[i].headTkt == -1
  {
  }

  /** Once `head_tkt` is reset it stays so as long as the slot is bound: such an entry happens at most once. */
  lemma HeadTicketOnce(sw: nat, s: State, id: Id, l: nat, i: SlotIx)
    requires Reachable(sw, s) && WellFormed(s) && Exists(s, id) && Quiet(s, id)
    requires s.slots[i].ref == Bound(l) && s.slots[i].headTkt == -1
    ensures |Step(sw, s, id).slots| == NQUEUES && Step(sw, s, id).slots[i].headTkt == -1
  {
    var a := ReachableInv(sw, s);
    StepsAreLocal(sw, s, a, id);
    var k := s.locks[id.lock];
    assert CtxOk(id, k.ctx[id.thread], a.hist[id.lock], s.slots, a.owner);
    LocalHeadTicket(sw, id.lock, k, s.slots, id.thread, i);
  }

  // ---------------------------------------------------------------- order over whole runs

  /** The exchange of `spin_tail` on lock l, when the step is one. */
  function Exchange(s: State, id: Id, l: nat): seq<nat>
    requires Exists(s, id)
  {
    if id.lock == l && s.locks[l].ctx[id.thread].pc.Enqueue? then [id.thread] else []
  }

  /** The entry through the queue of lock l, when the step is one. */
  function QueueEntry(s: State, id: Id, l: nat): seq<nat>
    requires WellFormed(s) && Exists(s, id)
  {
    if id.lock == l then
      var pc := s.locks[l].ctx[id.thread].pc;
      if pc.DeqAdvance? || (pc.DeqCas? && s.slots[pc.slot].spinTail == NextCell(id)) then [id.thread] else []
    else []
  }

  function Exchanges(sw: nat, s: State, schedule: seq<Id>, l: nat): seq<nat>
    decreases |schedule|
  {
    if schedule == [] || !WellFormed(s) || !Exists(s, schedule[0]) then []
    else Exchange(s, schedule[0], l) + Exchanges(sw, Step(sw, s, schedule[0]), schedule[1..], l)
  }

  function QueueEntries(sw: nat, s: State, schedule: seq<Id>, l: nat): seq<nat>
    decreases |schedule|
  {
    if schedule == [] || !WellFormed(s) || !Exists(s, schedule[0]) then []
    else QueueEntry(s, schedule[0], l) + QueueEntries(sw, Step(sw, s, schedule[0]), schedule[1..], l)
  }

  lemma AdvanceQueue(l: nat, k: Lock, h: History, slots: seq<Slot>, t: nat)
    requires |slots| == NQUEUES && t < |k.ctx|
    requires var pc := k.ctx[t].pc;
             pc.DeqAdvance? || (pc.DeqCas? && slots[pc.slot].spinTail == NextCell(Id(l, t))) ==>
                 |h.q| > 0 && h.q[0] == t
    ensures var pc := k.ctx[t].pc;
            h.q + (if pc.Enqueue? then [t] else []) ==
            (if pc.DeqAdvance? || (pc.DeqCas? && slots[pc.slot].spinTail == NextCell(Id(l, t))) then [t] else [])
            + Advance(l, k, h, slots, t).q
  {
  }

  lemma StepKeepsOrder(sw: nat, s: State, a: Aux, id: Id, l: nat)
    requires Inv(s, a) && Exists(s, id) && l in s.locks
    ensures a.hist[l].q + Exchange(s, id, l) == QueueEntry(s, id, l) + StepAux(s, a, id).hist[l].q
  {
    if id.lock == l {
      var k, h, t := s.locks[l], a.hist[l], id.thread;
      assert CtxOk(id, k.ctx[t], h, s.slots, a.owner);
      if Dequeuing(k.ctx[t].pc) { FrontIs(k, h, t); }
      AdvanceQueue(l, k, h, s.slots, t);
    }
  }

  lemma NothingDone(rest: seq<nat>)
    ensures rest + [] == [] + rest
  {
  }

  lemma {:induction false} OrderOverRun(sw: nat, s: State, a: Aux, schedule: seq<Id>, l: nat) returns (rest: seq<nat>)
    requires Inv(s, a) && l in s.locks && QuietRun(sw, s, schedule).Some?
    ensures a.hist[l].q + Exchanges(sw, s, schedule, l) == QueueEntries(sw, s, schedule, l) + rest
    decreases |schedule|
  {
    if schedule == [] {
      rest := a.hist[l].q;
      NothingDone(rest);
    } else {
      var id, s', a' := OrderStep(sw, s, a, schedule, l);
      rest := OrderOverRun(sw, s', a', schedule[1..], l);
      OrderJoins(sw, s, id, s', schedule, l, a.hist[l].q, a'.hist[l].q, rest);
    }
  }

  /** The first step of a run, with the rest of the run. */
  lemma OrderStep(sw: nat, s: State, a: Aux, schedule: seq<Id>, l: nat) returns (id: Id, s': State, a': Aux)
    requires Inv(s, a) && l in s.locks && QuietRun(sw, s, schedule).Some? && schedule != []
    ensures id == schedule[0] && WellFormed(s) && Exists(s, id) && s' == Step(sw, s, id) && Inv(s', a') && l in s'.locks
    ensures l in a'.hist
    ensures QuietRun(sw, s', schedule[1..]).Some?
    ensures a.hist[l].q + Exchange(s, id, l) == QueueEntry(s, id, l) + a'.hist[l].q
  {
    id := schedule[0];
    QuietRunStep(sw, s, schedule);
    StepKeeps(sw, s, a, id);
    StepKeepsOrder(sw, s, a, id, l);
    s', a' := Step(sw, s, id), StepAux(s, a, id);
  }

  /** What the first step exchanges and takes from the queue, with what the others do. */
  lemma OrderJoins(sw: nat, s: State, id: Id, s': State, schedule: seq<Id>, l: nat, q: seq<nat>, q': seq<nat>,
                   rest: seq<nat>)
    requires schedule != [] && id == schedule[0] && WellFormed(s) && Exists(s, id) && s' == Step(sw, s, id)
    requires q + Exchange(s, id, l) == QueueEntry(s, id, l) + q'
    requires q' + Exchanges(sw, s', schedule[1..], l) == QueueEntries(sw, s', schedule[1..], l) + rest
    ensures q + Exchanges(sw, s, schedule, l) == QueueEntries(sw, s, schedule, l) + rest
  {
    Regroup(q, Exchange(s, id, l), Exchanges(sw, s', schedule[1..], l), QueueEntry(s, id, l), q',
        QueueEntries(sw, s', schedule[1..], l), rest);
  }

  lemma IsPrefix(none: seq<nat>, whole: seq<nat>, part: seq<nat>, rest: seq<nat>)
    requires none == [] && none + whole == part + rest
    ensures part <= whole
  {
    assert none + whole == whole;
  }

  /**
   * Hand-off order: over every run the entries through the queue of a lock are, one by one, the
   * exchanges of `spin_tail` in their order; the contexts still queued are the ones left over.
   */
  lemma HandOffInExchangeOrder(sw: nat, s: State, schedule: seq<Id>, l: nat)
    requires Init(s) && l in s.locks && QuietRun(sw, s, schedule).Some?
    ensures QueueEntries(sw, s, schedule, l) <= Exchanges(sw, s, schedule, l)
  {
    InitHolds(s);
    var rest := OrderOverRun(sw, s, InitAux(s), schedule, l);
    IsPrefix(InitAux(s).hist[l].q, Exchanges(sw, s, schedule, l), QueueEntries(sw, s, schedule, l), rest);
  }

  // ---------------------------------------------------------------- ticket mode

  /** The line holds the contexts with a ticket; their tickets count up from the head word to the tail word. */
  ghost predicate ConsecutiveTickets(k: Lock, line: seq<nat>) {
    && Distinct(line) && Within(line, |k.ctx|)
    && (forall t :: 0 <= t < |k.ctx| ==> (Outstanding(k.ctx[t].pc) <==> t in line))
    && (forall j :: 0 <= j < |line| ==> k.ctx[line[j]].tkt == Wrap(k.head + 2 * j))
    && k.tail == Wrap(k.head + 2 * |line|)
  }

  lemma LineOf(l: nat, k: Lock, h: History, slots: seq<Slot>, owner: seq<Option<Id>>)
    requires |slots| == |owner| == NQUEUES && LockInv(l, k, h, slots, owner) && !Odd(k.head)
    ensures ConsecutiveTickets(k, h.line)
  {
  }

  /**
   * Without a queue the outstanding tickets are consecutive: the first is the head word, the next to draw the tail
   * word.
   */
  lemma TicketsAreConsecutive(sw: nat, s: State, l: nat) returns (line: seq<nat>)
    requires Reachable(sw, s) && l in s.locks && !Odd(s.locks[l].head)
    ensures ConsecutiveTickets(s.locks[l], line)
  {
    var a := ReachableInv(sw, s);
    line := a.hist[l].line;
    LineOf(l, s.locks[l], a.hist[l], s.slots, a.owner);
  }

  /** The ticket drawn on lock l, when the step is one. */
  function Draw(s: State, id: Id, l: nat): seq<nat>
    requires Exists(s, id)
  {
    if id.lock == l && s.locks[l].ctx[id.thread].pc.Idle? then [id.thread] else []
  }

  /** The release of lock l, when the step is one. */
  function Release(s: State, id: Id, l: nat): seq<nat>
    requires Exists(s, id)
  {
    if id.lock == l && s.locks[l].ctx[id.thread].pc.Critical? then [id.thread] else []
  }

  function Draws(sw: nat, s: State, schedule: seq<Id>, l: nat): seq<nat>
    decreases |schedule|
  {
    if schedule == [] || !WellFormed(s) || !Exists(s, schedule[0]) then []
    else Draw(s, schedule[0], l) + Draws(sw, Step(sw, s, schedule[0]), schedule[1..], l)
  }

  function Releases(sw: nat, s: State, schedule: seq<Id>, l: nat): seq<nat>
    decreases |schedule|
  {
    if schedule == [] || !WellFormed(s) || !Exists(s, schedule[0]) then []
    else Release(s, schedule[0], l) + Releases(sw, Step(sw, s, schedule[0]), schedule[1..], l)
  }

  /** No queue is attached to lock l before any step of the run. */
  predicate TicketModeRun(sw: nat, s: State, schedule: seq<Id>, l: nat)
    decreases |schedule|
  {
    schedule == [] || !WellFormed(s) || !Exists(s, schedule[0]) || l !in s.locks
    || (!Odd(s.locks[l].head) && TicketModeRun(sw, Step(sw, s, schedule[0]), schedule[1..], l))
  }

  lemma AdvanceLine(l: nat, k: Lock, h: History, slots: seq<Slot>, t: nat)
    requires |slots| == NQUEUES && t < |k.ctx|
    requires k.ctx[t].pc.Critical? ==> |h.line| > 0 && h.line[0] == t
    ensures var pc := k.ctx[t].pc;
            h.line + (if pc.Idle? then [t] else []) == (if pc.Critical? then [t] else [])
                + Advance(l, k, h, slots, t).line
  {
  }

  /** In ticket mode only the front of the line releases. */
  lemma FrontReleases(l: nat, k: Lock, h: History, slots: seq<Slot>, owner: seq<Option<Id>>, t: nat)
    requires |slots| == |owner| == NQUEUES && t < |k.ctx| && LockInv(l, k, h, slots, owner) && !Odd(k.head)
    requires k.ctx[t].pc.Critical?
    ensures |h.line| > 0 && h.line[0] == t
  {
    assert CtxOk(Id(l, t), k.ctx[t], h, slots, owner);
  }

  lemma StepKeepsLine(sw: nat, s: State, a: Aux, id: Id, l: nat)
    requires Inv(s, a) && Exists(s, id) && l in s.locks && !Odd(s.locks[l].head)
    ensures a.hist[l].line + Draw(s, id, l) == Release(s, id, l) + StepAux(s, a, id).hist[l].line
  {
    if id.lock == l {
      var k, h, t := s.locks[l], a.hist[l], id.thread;
      if k.ctx[t].pc.Critical? { FrontReleases(l, k, h, s.slots, a.owner, t); }
      AdvanceLine(l, k, h, s.slots, t);
    }
  }

  /** The first step of a run, with the rest of the run. */
  lemma LineStep(sw: nat, s: State, a: Aux, schedule: seq<Id>, l: nat) returns (id: Id, s': State, a': Aux)
    requires Inv(s, a) && l in s.locks && QuietRun(sw, s, schedule).Some? && TicketModeRun(sw, s, schedule, l)
    requires schedule != []
    ensures id == schedule[0] && WellFormed(s) && Exists(s, id) && s' == Step(sw, s, id) && Inv(s', a') && l in s'.locks
    ensures l in a'.hist
    ensures QuietRun(sw, s', schedule[1..]).Some? && TicketModeRun(sw, s', schedule[1..], l)
    ensures a.hist[l].line + Draw(s, id, l) == Release(s, id, l) + a'.hist[l].line
  {
    id := schedule[0];
    QuietRunStep(sw, s, schedule);
    StepKeeps(sw, s, a, id);
    StepKeepsLine(sw, s, a, id, l);
    s', a' := Step(sw, s, id), StepAux(s, a, id);
  }

  lemma {:induction false} LineOverRun(sw: nat, s: State, a: Aux, schedule: seq<Id>, l: nat) returns (rest: seq<nat>)
    requires Inv(s, a) && l in s.locks && QuietRun(sw, s, schedule).Some? && TicketModeRun(sw, s, schedule, l)
    ensures a.hist[l].line + Draws(sw, s, schedule, l) == Releases(sw, s, schedule, l) + rest
    decreases |schedule|
  {
    if schedule == [] {
      rest := a.hist[l].line;
      NothingDone(rest);
    } else {
      var id, s', a' := LineStep(sw, s, a, schedule, l);
      rest := LineOverRun(sw, s', a', schedule[1..], l);
      LineJoins(sw, s, id, s', schedule, l, a.hist[l].line, a'.hist[l].line, rest);
    }
  }

  /** What the first step draws and releases, with what the others do. */
  lemma LineJoins(sw: nat, s: State, id: Id, s': State, schedule: seq<Id>, l: nat, line: seq<nat>, line': seq<nat>,
                  rest: seq<nat>)
    requires schedule != [] && id == schedule[0] && WellFormed(s) && Exists(s, id) && s' == Step(sw, s, id)
    requires line + Draw(s, id, l) == Release(s, id, l) + line'
    requires line' + Draws(sw, s', schedule[1..], l) == Releases(sw, s', schedule[1..], l) + rest
    ensures line + Draws(sw, s, schedule, l) == Releases(sw, s, schedule, l) + rest
  {
    Regroup(line, Draw(s, id, l), Draws(sw, s', schedule[1..], l), Release(s, id, l), line',
        Releases(sw, s', schedule[1..], l), rest);
  }

  /** As long as no queue forms, the lock is served strictly in the order of the tickets drawn. */
  lemma ServedInTicketOrder(sw: nat, s: State, schedule: seq<Id>, l: nat)
    requires Init(s) && l in s.locks && QuietRun(sw, s, schedule).Some? && TicketModeRun(sw, s, schedule, l)
    ensures Releases(sw, s, schedule, l) <= Draws(sw, s, schedule, l)
  {
    InitHolds(s);
    var rest := LineOverRun(sw, s, InitAux(s), schedule, l);
    IsPrefix(InitAux(s).hist[l].line, Draws(sw, s, schedule, l), Releases(sw, s, schedule, l), rest);
  }
}
