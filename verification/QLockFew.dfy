/**
 * When the granularity assumption holds by itself.  The detaching compare-exchange of line 114
 * succeeds only when everybody else is outside, so that tickets drawn before line 119 are close to
 * the head word: with n contexts at most 2 * (n - 2) from it.  A lock whose contexts are few for the
 * threshold does not start a queue there, and every run is then a quiet one.
 */
module QLockFew {
  import opened Wrappers
  import opened TicketWords
  import opened QLockModel
  import opened QLockInvariant
  import opened QLockPreservation
  import opened QLockTickets
  import opened QLockPhases
  import opened QLockSafety
  import opened QLockTheorems

  /** So few contexts that a ticket drawn while nobody else waits is less than the threshold away from the head word. */
  predicate Few(sw: nat, contexts: nat) { 2 * (contexts - 2) < sw }

  /** The context is looking for a slot for a new queue, or prepares it. */
  predicate Starting(pc: PC) {
    pc.ClaimRead? || pc.ClaimCas? || pc.ClaimBit? || pc.InitSpin? || pc.InitTail? || Prepared(pc)
  }

  /** Between lines 114 and 119 nobody starts a queue. */
  ghost predicate Calm(k: Lock) {
    Detaching(k) ==> forall u :: 0 <= u < |k.ctx| ==> !Starting(k.ctx[u].pc)
  }

  // ---------------------------------------------------------------- one step

  /** The test of line 358 leads to tkt_q_start_contend. */
  predicate StartsNow(sw: nat, l: nat, k: Lock, c: Ctx) {
    (c.pc.Idle? && AfterHead(sw, l, k.head, k.tail).ClaimRead?)
        || (c.pc.Spin? && AfterHead(sw, l, k.head, c.tkt).ClaimRead?)
  }

  /** Where the next access of a context leads. */
  function Target(sw: nat, l: nat, k: Lock, slots: seq<Slot>, t: nat): PC
    requires |slots| == NQUEUES && t < |k.ctx| && |LocalStep(sw, l, k, slots, t).lock.ctx| == |k.ctx|
  {
    LocalStep(sw, l, k, slots, t).lock.ctx[t].pc
  }

  lemma OnlyMine(sw: nat, l: nat, k: Lock, slots: seq<Slot>, t: nat)
    requires |slots| == NQUEUES && t < |k.ctx|
    ensures var r := LocalStep(sw, l, k, slots, t);
            |r.lock.ctx| == |k.ctx| && forall u :: 0 <= u < |k.ctx| && u != t ==> r.lock.ctx[u] == k.ctx[u]
  {
  }

  lemma WaiterStarts(sw: nat, l: nat, k: Lock, slots: seq<Slot>, t: nat)
    requires |slots| == NQUEUES && t < |k.ctx| && |LocalStep(sw, l, k, slots, t).lock.ctx| == |k.ctx|
    requires k.ctx[t].pc.Idle? || k.ctx[t].pc.Spin?
    ensures Starting(Target(sw, l, k, slots, t)) ==> StartsNow(sw, l, k, k.ctx[t])
  {
  }

  predicate Queueing(pc: PC) { pc.Find? || pc.HeadCheck? || pc.HeadTake? || pc.Enqueue? || InQueue(pc) }

  lemma QueuerGoesOn(sw: nat, l: nat, k: Lock, slots: seq<Slot>, t: nat)
    requires |slots| == NQUEUES && t < |k.ctx| && |LocalStep(sw, l, k, slots, t).lock.ctx| == |k.ctx|
    requires Queueing(k.ctx[t].pc)
    ensures !Starting(Target(sw, l, k, slots, t))
  {
  }

  lemma LeaverGoesOn(sw: nat, l: nat, k: Lock, slots: seq<Slot>, t: nat)
    requires |slots| == NQUEUES && t < |k.ctx| && |LocalStep(sw, l, k, slots, t).lock.ctx| == |k.ctx|
    requires Waker(k.ctx[t].pc) || k.ctx[t].pc.Critical? || k.ctx[t].pc.UnqClear? || k.ctx[t].pc.BackOut?
             || k.ctx[t].pc.Publish?
    ensures !Starting(Target(sw, l, k, slots, t))
  {
  }

  lemma MyStart(sw: nat, l: nat, k: Lock, slots: seq<Slot>, t: nat)
    requires |slots| == NQUEUES && t < |k.ctx| && |LocalStep(sw, l, k, slots, t).lock.ctx| == |k.ctx|
    ensures Starting(Target(sw, l, k, slots, t)) ==> Starting(k.ctx[t].pc) || StartsNow(sw, l, k, k.ctx[t])
  {
    if k.ctx[t].pc.Idle? || k.ctx[t].pc.Spin? {
      WaiterStarts(sw, l, k, slots, t);
    } else if Queueing(k.ctx[t].pc) {
      QueuerGoesOn(sw, l, k, slots, t);
    } else if !Starting(k.ctx[t].pc) {
      LeaverGoesOn(sw, l, k, slots, t);
    }
  }

  lemma MyDetach(sw: nat, l: nat, k: Lock, slots: seq<Slot>, t: nat)
    requires |slots| == NQUEUES && t < |k.ctx| && |LocalStep(sw, l, k, slots, t).lock.ctx| == |k.ctx|
    ensures Target(sw, l, k, slots, t).UnqClear? ==>
              k.ctx[t].pc.UnqCas? && DetachTarget(k, k.ctx[t], k.ctx[t].(pc := UnqClear(k.ctx[t].pc.slot)))
  {
  }

  lemma StepMoves(sw: nat, l: nat, k: Lock, slots: seq<Slot>, t: nat, r: Result, k': Lock)
    requires |slots| == NQUEUES && t < |k.ctx| && r == LocalStep(sw, l, k, slots, t) && k' == After(r)
    ensures |k'.ctx| == |k.ctx| && forall u :: 0 <= u < |k.ctx| && u != t ==> k'.ctx[u].pc == k.ctx[u].pc
    ensures Starting(k'.ctx[t].pc) ==> Starting(k.ctx[t].pc) || StartsNow(sw, l, k, k.ctx[t])
    ensures k'.ctx[t].pc.UnqClear? ==>
            k.ctx[t].pc.UnqCas? && DetachTarget(k, k.ctx[t], k.ctx[t].(pc := UnqClear(k.ctx[t].pc.slot)))
  {
    OnlyMine(sw, l, k, slots, t);
    MyStart(sw, l, k, slots, t);
    MyDetach(sw, l, k, slots, t);
    EffectKeepsPcs(r);
  }

  /** Writes to queue elements move nobody. */
  lemma EffectKeepsPcs(r: Result)
    ensures |After(r).ctx| == |r.lock.ctx| && forall u :: 0 <= u < |r.lock.ctx| ==>
            After(r).ctx[u].pc == r.lock.ctx[u].pc
  {
  }

  lemma FarFromHead(head: int, n: nat, sw: nat)
    requires 0 <= head < WORD && 2 * n < sw && 2 * n < WORD
    ensures Wrap(head + 2 * n) - sw != head
  {
  }

  /** In the window every ticket in the line is close to the head word, and so is the next one. */
  lemma LineIsShort(k: Lock, h: History, w: nat, t: nat, sw: nat)
    requires Counting(k, h) && w < |k.ctx| && t < |k.ctx| && t != w && w !in h.line && Few(sw, |k.ctx|)
    ensures 2 * |h.line| < sw || t in h.line
    ensures 2 * (|h.line| - 1) < sw && 2 * |h.line| < WORD
  {
    LineBoundWith(h.line, w, |k.ctx|);
    if t !in h.line {
      assert forall u :: u in h.line + [t] <==> u in h.line || u == t;
      LineBoundWith(h.line + [t], w, |k.ctx|);
    }
  }

  lemma TicketInLine(k: Lock, h: History, t: nat, sw: nat) returns (j: nat)
    requires Counting(k, h) && Aligned(k, h.line) && t < |k.ctx| && t in h.line && !Odd(k.head)
    ensures j < |h.line| && k.ctx[t].tkt == Wrap(k.head + 2 * j)
  {
    j :| 0 <= j < |h.line| && h.line[j] == t;
  }

  lemma StartsLater(sw: nat, l: nat, k: Lock, h: History, slots: seq<Slot>, owner: seq<Option<Id>>, w: nat, t: nat)
    requires |slots| == |owner| == NQUEUES && LockInv(l, k, h, slots, owner) && Few(sw, |k.ctx|)
    requires w < |k.ctx| && k.ctx[w].pc.UnqClear? && t < |k.ctx| && t != w
    ensures !StartsNow(sw, l, k, k.ctx[t])
  {
    assert CtxOk(Id(l, w), k.ctx[w], h, slots, owner);
    LineIsShort(k, h, w, t, sw);
    if k.ctx[t].pc.Idle? {
      FarFromHead(k.head, |h.line|, sw);
    } else if k.ctx[t].pc.Spin? {
      var j := TicketInLine(k, h, t, sw);
      FarFromHead(k.head, j, sw);
    }
  }

  lemma WindowOpens(l: nat, k: Lock, h: History, slots: seq<Slot>, owner: seq<Option<Id>>, t: nat, k': Lock)
    requires |slots| == |owner| == NQUEUES && t < |k.ctx| && LockInv(l, k, h, slots, owner)
    requires k.ctx[t].pc.UnqCas? && DetachTarget(k, k.ctx[t], k.ctx[t].(pc := UnqClear(k.ctx[t].pc.slot)))
    requires |k'.ctx| == |k.ctx| && (forall u :: 0 <= u < |k.ctx| && u != t ==> k'.ctx[u].pc == k.ctx[u].pc)
    requires k'.ctx[t].pc.UnqClear?
    ensures Calm(k')
  {
    NobodyLeft(l, k, h, slots, owner, t, k.ctx[t].(pc := UnqClear(k.ctx[t].pc.slot)));
  }

  /** A step of a lock with few contexts keeps the window free of queues that start. */
  lemma CalmStays(sw: nat, l: nat, k: Lock, h: History, slots: seq<Slot>, owner: seq<Option<Id>>, t: nat, k': Lock)
    requires |slots| == |owner| == NQUEUES && t < |k.ctx| && LockInv(l, k, h, slots, owner) && Few(sw, |k.ctx|)
    requires Calm(k) && k' == After(LocalStep(sw, l, k, slots, t))
    ensures Calm(k')
  {
    StepMoves(sw, l, k, slots, t, LocalStep(sw, l, k, slots, t), k');
    if Detaching(k') {
      var w :| 0 <= w < |k'.ctx| && k'.ctx[w].pc.UnqClear?;
      if w == t {
        WindowOpens(l, k, h, slots, owner, t, k');
      } else {
        assert k.ctx[w].pc.UnqClear? && Detaching(k);
        StartsLater(sw, l, k, h, slots, owner, w, t);
      }
    }
  }

  // ---------------------------------------------------------------- runs

  /** Every lock has few contexts. */
  ghost predicate AllFew(sw: nat, s: State) { forall l :: l in s.locks ==> Few(sw, |s.locks[l].ctx|) }

  ghost predicate AllCalm(s: State) { forall l :: l in s.locks ==> Calm(s.locks[l]) }

  lemma OneLockChanges(sw: nat, s: State, s': State, l: nat, k': Lock)
    requires AllFew(sw, s) && AllCalm(s) && l in s.locks && s'.locks == s.locks[l := k'] && |k'.ctx| == |s.locks[l].ctx|
    requires Calm(k')
    ensures AllFew(sw, s') && AllCalm(s')
  {
  }

  lemma FewHere(sw: nat, s: State, l: nat)
    requires AllFew(sw, s) && AllCalm(s) && l in s.locks
    ensures Few(sw, |s.locks[l].ctx|) && Calm(s.locks[l])
  {
  }

  lemma QuietHere(s: State, id: Id)
    requires Exists(s, id) && Calm(s.locks[id.lock])
    ensures Quiet(s, id)
  {
  }

  /** The lock of context id after its step. */
  function LockAfter(sw: nat, s: State, id: Id): Lock
    requires WellFormed(s) && Exists(s, id)
  {
    After(LocalStep(sw, id.lock, s.locks[id.lock], s.slots, id.thread))
  }

  lemma LockStaysCalm(sw: nat, s: State, a: Aux, id: Id)
    requires Inv(s, a) && Exists(s, id) && Few(sw, |s.locks[id.lock].ctx|) && Calm(s.locks[id.lock])
    ensures Calm(LockAfter(sw, s, id))
  {
    CalmStays(sw, id.lock, s.locks[id.lock], a.hist[id.lock], s.slots, a.owner, id.thread, LockAfter(sw, s, id));
  }

  lemma OnlyThisLock(sw: nat, s: State, a: Aux, id: Id)
    requires Inv(s, a) && Exists(s, id) && Quiet(s, id)
    ensures Step(sw, s, id).locks == s.locks[id.lock := LockAfter(sw, s, id)]
    ensures |LockAfter(sw, s, id).ctx| == |s.locks[id.lock].ctx|
  {
    StepsAreLocal(sw, s, a, id);
  }

  lemma StepKeepsCalm(sw: nat, s: State, a: Aux, id: Id, s': State)
    requires Inv(s, a) && Exists(s, id) && AllFew(sw, s) && AllCalm(s) && s' == Step(sw, s, id)
    ensures Quiet(s, id) && AllFew(sw, s') && AllCalm(s')
  {
    FewHere(sw, s, id.lock);
    QuietHere(s, id);
    LockStaysCalm(sw, s, a, id);
    OnlyThisLock(sw, s, a, id);
    OneLockChanges(sw, s, s', id.lock, LockAfter(sw, s, id));
  }

  lemma {:induction false} RunIsQuiet(sw: nat, s: State, a: Aux, schedule: seq<Id>)
    requires Inv(s, a) && AllFew(sw, s) && AllCalm(s)
    ensures QuietRun(sw, s, schedule) == Run(sw, s, schedule)
    decreases |schedule|
  {
    if schedule != [] && Exists(s, schedule[0]) {
      StepKeepsCalm(sw, s, a, schedule[0], Step(sw, s, schedule[0]));
      StepKeeps(sw, s, a, schedule[0]);
      RunIsQuiet(sw, Step(sw, s, schedule[0]), StepAux(s, a, schedule[0]), schedule[1..]);
    }
  }

  /** When all locks have few contexts, every run from an initial state meets the granularity assumption. */
  lemma FewAreQuiet(sw: nat, s0: State, schedule: seq<Id>)
    requires Init(s0) && AllFew(sw, s0)
    ensures QuietRun(sw, s0, schedule) == Run(sw, s0, schedule)
  {
    InitHolds(s0);
    RunIsQuiet(sw, s0, InitAux(s0), schedule);
  }

  /** All results about reachable states therefore hold of what any schedule reaches. */
  lemma FewReach(sw: nat, s0: State, schedule: seq<Id>, s: State)
    requires Init(s0) && AllFew(sw, s0) && Run(sw, s0, schedule) == Some(s)
    ensures Reachable(sw, s)
  {
    FewAreQuiet(sw, s0, schedule);
  }
}
