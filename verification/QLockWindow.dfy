/**
 * The granularity assumption cannot be dropped for more contexts.  Between lines 114 and 119 the bit is clear
 * while `ref` still names the lock.  If a second queue is attached in that window, a waiter may find the
 * old slot, which is then given back under it: it waits on a queue that no releaser looks at.
 * For the threshold 2 * m this happens with m + 2 contexts, and with fewer it cannot happen.
 */
module QLockWindow {
  import opened Wrappers
  import opened TicketWords
  import opened QLockModel
  import opened QLockInvariant
  import opened QLockTheorems
  import opened QLockProgress
  import opened QLockFew

  // ---------------------------------------------------------------- runs of one lock

  /** One lock at address 0, whose scans start at slot 0. */
  datatype Conf = Conf(k: Lock, slots: seq<Slot>)

  function Full(x: Conf): State { State(map[0 := x.k], x.slots) }

  function Me(t: nat): Id { Id(0, t) }

  ghost predicate Reaches(sw: nat, s: State, x: Conf) {
    |x.slots| == NQUEUES && exists schedule: seq<Id> :: Run(sw, s, schedule) == Some(Full(x))
  }

  lemma {:induction false} RunThenStep(sw: nat, s: State, schedule: seq<Id>, id: Id)
    requires Run(sw, s, schedule).Some?
    requires var m := Run(sw, s, schedule).value; WellFormed(m) && Exists(m, id)
    ensures Run(sw, s, schedule + [id]) == Some(Step(sw, Run(sw, s, schedule).value, id))
    decreases |schedule|
  {
    var all := schedule + [id];
    if schedule == [] {
      assert all[0] == id && all[1..] == [];
    } else {
      assert all[0] == schedule[0] && all[1..] == schedule[1..] + [id];
      RunThenStep(sw, Step(sw, s, schedule[0]), schedule[1..], id);
    }
  }

  /** The step of thread t makes y of x. */
  ghost predicate StepsTo(sw: nat, x: Conf, t: nat, y: Conf) {
    && |x.slots| == |y.slots| == NQUEUES && t < |x.k.ctx|
    && LocalStep(sw, 0, x.k, x.slots, t) == Result(y.k, y.slots, Nothing)
  }

  lemma Go(sw: nat, s: State, x: Conf, t: nat, y: Conf)
    requires Reaches(sw, s, x) && StepsTo(sw, x, t, y)
    ensures Reaches(sw, s, y)
  {
    var schedule: seq<Id> :| Run(sw, s, schedule) == Some(Full(x));
    assert Step(sw, Full(x), Me(t)) == Full(y);
    RunThenStep(sw, s, schedule, Me(t));
    assert Run(sw, s, schedule + [Me(t)]) == Some(Full(y));
  }

  /** x with thread t and slot i as given. */
  function Put(x: Conf, t: nat, c: Ctx, i: SlotIx, sl: Slot): Conf
    requires t < |x.k.ctx| && |x.slots| == NQUEUES
  {
    Conf(x.k.(ctx := x.k.ctx[t := c]), x.slots[i := sl])
  }

  /** Several steps of one thread on one slot: from one Put to the next. */
  lemma GoPut(sw: nat, s: State, x: Conf, t: nat, c: Ctx, i: SlotIx, sl: Slot, c': Ctx, sl': Slot)
    requires t < |x.k.ctx| && |x.slots| == NQUEUES && Reaches(sw, s, Put(x, t, c, i, sl))
    requires var y := Put(x, t, c, i, sl);
             var r := LocalStep(sw, 0, y.k, y.slots, t);
             r.effect == Nothing && r.lock == y.k.(ctx := y.k.ctx[t := c'])
                 && (r.slots == y.slots[i := sl'] || (r.slots == y.slots && sl' == sl))
    ensures Reaches(sw, s, Put(x, t, c', i, sl'))
  {
    var y, z := Put(x, t, c, i, sl), Put(x, t, c', i, sl');
    assert y.k.ctx[t := c'] == z.k.ctx;
    assert y.slots[i := sl'] == z.slots;
    Go(sw, s, y, t, z);
  }

  lemma PutSame(x: Conf, t: nat, i: SlotIx)
    requires t < |x.k.ctx| && |x.slots| == NQUEUES
    ensures Put(x, t, x.k.ctx[t], i, x.slots[i]) == x
  {
    assert x.k.ctx[t := x.k.ctx[t]] == x.k.ctx && x.slots[i := x.slots[i]] == x.slots;
  }

  lemma Small(x: nat)
    requires x < WORD
    ensures Wrap(x) == x
  {
  }

  lemma Parity(j: nat)
    ensures !Odd(2 * j) && Odd(2 * j + 1) && Even(2 * j + 1) == 2 * j
  {
  }

  // ---------------------------------------------------------------- what a thread does

  /** Thread t draws a ticket. */
  lemma Draws(sw: nat, s: State, x: Conf, t: nat) returns (y: Conf)
    requires Reaches(sw, s, x) && t < |x.k.ctx| && x.k.ctx[t].pc.Idle?
    ensures Reaches(sw, s, y) && y.slots == x.slots
    ensures y.k == x.k.(tail := Wrap(x.k.tail + 2),
                        ctx := x.k.ctx[t := x.k.ctx[t].(pc := AfterHead(sw, 0, x.k.head, x.k.tail), tkt := x.k.tail)])
  {
    y := Conf(LocalStep(sw, 0, x.k, x.slots, t).lock, x.slots);
    Go(sw, s, x, t, y);
  }

  /** Thread t reserves the free slot i. */
  lemma Reserves(sw: nat, s: State, x: Conf, t: nat, i: SlotIx, c: Ctx, sl: Slot)
    requires Reaches(sw, s, x) && t < |x.k.ctx| && c == x.k.ctx[t] && sl == x.slots[i]
    requires c.pc == ClaimRead(i) && sl.ref == Free
    ensures Reaches(sw, s, Put(x, t, c.(pc := InitSpin(i)), i, sl.(ref := Claimed)))
  {
    PutSame(x, t, i);
    var c1, c2 := c.(pc := ClaimCas(i)), c.(pc := InitSpin(i));
    GoPut(sw, s, x, t, c, i, sl, c1, sl);
    GoPut(sw, s, x, t, c1, i, sl, c2, sl.(ref := Claimed));
  }

  /** Thread t prepares slot i. */
  lemma Prepares(sw: nat, s: State, x: Conf, t: nat, i: SlotIx, c: Ctx, sl: Slot)
    requires t < |x.k.ctx| && |x.slots| == NQUEUES && c.pc == InitSpin(i) && Reaches(sw, s, Put(x, t, c, i, sl))
    ensures Reaches(sw, s, Put(x, t, c.(pc := InitRead(i)), i, sl.(spin := None, spinTail := SpinCell(i))))
  {
    var c1, c2 := c.(pc := InitTail(i)), c.(pc := InitRead(i));
    GoPut(sw, s, x, t, c, i, sl, c1, sl.(spin := None));
    GoPut(sw, s, x, t, c1, i, sl.(spin := None), c2, sl.(spin := None, spinTail := SpinCell(i)));
  }

  lemma Announces(sw: nat, s: State, x: Conf, t: nat, i: SlotIx, c: Ctx, sl: Slot)
    requires t < |x.k.ctx| && |x.slots| == NQUEUES && c.pc == InitRead(i) && !Odd(x.k.head)
    requires Reaches(sw, s, Put(x, t, c, i, sl))
    ensures Reaches(sw, s, Put(x, t, c.(pc := InitCas(i, x.k.head, x.k.tail)), i, sl.(headTkt := x.k.head)))
  {
    var c1, c2 := c.(pc := InitHead(i, x.k.head, x.k.tail)), c.(pc := InitCas(i, x.k.head, x.k.tail));
    GoPut(sw, s, x, t, c, i, sl, c1, sl);
    GoPut(sw, s, x, t, c1, i, sl, c2, sl.(headTkt := x.k.head));
  }

  /** Thread t sets the queue bit. */
  lemma Attaches(sw: nat, s: State, x: Conf, t: nat, i: SlotIx, c: Ctx, sl: Slot)
    requires t < |x.k.ctx| && |x.slots| == NQUEUES && c.pc == InitCas(i, x.k.head, x.k.tail)
    requires Reaches(sw, s, Put(x, t, c, i, sl))
    ensures Reaches(sw, s, Put(x.(k := x.k.(head := x.k.head + 1)), t, c.(pc := Publish(i)), i, sl))
  {
    var y, z := Put(x, t, c, i, sl), Put(x.(k := x.k.(head := x.k.head + 1)), t, c.(pc := Publish(i)), i, sl);
    assert y.k.ctx[t := c.(pc := Publish(i))] == z.k.ctx;
    Go(sw, s, y, t, z);
  }

  /** Thread t forms a queue in the free slot i and publishes it. */
  lemma Forms(sw: nat, s: State, x: Conf, t: nat, i: SlotIx, c: Ctx) returns (y: Conf)
    requires Reaches(sw, s, x) && t < |x.k.ctx| && c == x.k.ctx[t]
    requires c.pc == ClaimRead(i) && x.slots[i].ref == Free && !Odd(x.k.head)
    ensures Reaches(sw, s, y)
    ensures y == Put(x.(k := x.k.(head := x.k.head + 1)), t, c.(pc := Find(0)), i,
            Slot(Bound(0), x.k.head, None, SpinCell(i)))
  {
    var sl := x.slots[i].(ref := Claimed);
    var sl1 := sl.(spin := None, spinTail := SpinCell(i));
    var x1 := x.(k := x.k.(head := x.k.head + 1));
    Reserves(sw, s, x, t, i, c, x.slots[i]);
    Prepares(sw, s, x, t, i, c.(pc := InitSpin(i)), sl);
    Announces(sw, s, x, t, i, c.(pc := InitRead(i)), sl1);
    Attaches(sw, s, x, t, i, c.(pc := InitCas(i, x.k.head, x.k.tail)), sl1.(headTkt := x.k.head));
    y := Publishes(sw, s, x1, t, i, c.(pc := Publish(i)), sl1.(headTkt := x.k.head));
  }

  lemma Publishes(sw: nat, s: State, x: Conf, t: nat, i: SlotIx, c: Ctx, sl: Slot) returns (y: Conf)
    requires t < |x.k.ctx| && |x.slots| == NQUEUES && c.pc == Publish(i) && Reaches(sw, s, Put(x, t, c, i, sl))
    ensures y == Put(x, t, c.(pc := Find(0)), i, sl.(ref := Bound(0))) && Reaches(sw, s, y)
  {
    GoPut(sw, s, x, t, c, i, sl, c.(pc := Find(0)), sl.(ref := Bound(0)));
    y := Put(x, t, c.(pc := Find(0)), i, sl.(ref := Bound(0)));
  }

  /** Thread t finds the queue in slot 0, which is not its turn. */
  lemma Finds(sw: nat, s: State, x: Conf, t: nat, c: Ctx, sl: Slot)
    requires Reaches(sw, s, x) && t < |x.k.ctx| && c == x.k.ctx[t] && sl == x.slots[0]
    requires c.pc == Find(0) && sl.ref == Bound(0) && sl.headTkt != c.tkt
    ensures Reaches(sw, s, Put(x, t, Ctx(Enqueue(0), c.tkt, false, None), 0, sl))
  {
    PutSame(x, t, 0);
    var c1 := Ctx(HeadCheck(0), c.tkt, false, None);
    GoPut(sw, s, x, t, c, 0, sl, c1, sl);
    GoPut(sw, s, x, t, c1, 0, sl, c1.(pc := Enqueue(0)), sl);
  }

  /** Thread t enqueues in the empty queue of slot 0. */
  lemma Enqueues(sw: nat, s: State, x: Conf, t: nat, c: Ctx, sl: Slot) returns (y: Conf)
    requires Reaches(sw, s, x) && t < |x.k.ctx| && c == x.k.ctx[t] && sl == x.slots[0]
    requires c.pc == Find(0) && sl.ref == Bound(0) && sl.headTkt != c.tkt && sl.spinTail == SpinCell(0)
    ensures y == Put(x, t, Ctx(Await(0), c.tkt, false, None), 0, sl.(spin := Some(Me(t)), spinTail := NextCell(Me(t))))
    ensures Reaches(sw, s, y)
  {
    Finds(sw, s, x, t, c, sl);
    var c1 := Ctx(Enqueue(0), c.tkt, false, None);
    var c2 := c1.(pc := Link(0, SpinCell(0)));
    GoPut(sw, s, x, t, c1, 0, sl, c2, sl.(spinTail := NextCell(Me(t))));
    GoPut(sw, s, x, t, c2, 0, sl.(spinTail := NextCell(Me(t))), c1.(pc := Await(0)),
        sl.(spin := Some(Me(t)), spinTail := NextCell(Me(t))));
    y := Put(x, t, Ctx(Await(0), c.tkt, false, None), 0, sl.(spin := Some(Me(t)), spinTail := NextCell(Me(t))));
  }

  /** Thread w, which releases, sees thread t in slot 0 and resets head_tkt. */
  lemma Wakes(sw: nat, s: State, x: Conf, w: nat, c: Ctx, sl: Slot, t: nat)
    requires Reaches(sw, s, x) && w < |x.k.ctx| && c == x.k.ctx[w] && sl == x.slots[0]
    requires c.pc == WakeSpin(0) && sl.spin == Some(Me(t))
    ensures Reaches(sw, s, Put(x, w, c.(pc := WakeGrant(0, Me(t))), 0, sl.(headTkt := -1)))
  {
    PutSame(x, w, 0);
    var c1 := c.(pc := WakeHead(0, Me(t)));
    GoPut(sw, s, x, w, c, 0, sl, c1, sl);
    Resets(sw, s, x, w, c1, sl, t);
  }

  lemma Resets(sw: nat, s: State, x: Conf, w: nat, c: Ctx, sl: Slot, t: nat)
    requires w < |x.k.ctx| && |x.slots| == NQUEUES && c.pc == WakeHead(0, Me(t)) && Reaches(sw, s, Put(x, w, c, 0, sl))
    ensures Reaches(sw, s, Put(x, w, c.(pc := WakeGrant(0, Me(t))), 0, sl.(headTkt := -1)))
  {
    if sl.headTkt == -1 {
      GoPut(sw, s, x, w, c, 0, sl, c.(pc := WakeGrant(0, Me(t))), sl);
    } else {
      GoPut(sw, s, x, w, c, 0, sl, c.(pc := WakeReset(0, Me(t))), sl);
      GoPut(sw, s, x, w, c.(pc := WakeReset(0, Me(t))), 0, sl, c.(pc := WakeGrant(0, Me(t))), sl.(headTkt := -1));
    }
  }

  lemma GrantIs(sw: nat, x: Conf, w: nat, t: nat, y: Conf)
    requires |x.slots| == NQUEUES && w < |x.k.ctx| && t < |x.k.ctx| && t != w && x.k.ctx[w].pc == WakeGrant(0, Me(t))
    requires y.slots == x.slots
    requires y.k == x.k.(ctx := x.k.ctx[w := x.k.ctx[w].(pc := Idle)][t := x.k.ctx[t].(granted := true)])
    ensures Step(sw, Full(x), Me(w)) == Full(y)
  {
    var r := LocalStep(sw, 0, x.k, x.slots, w);
    assert r.lock.ctx[t] == x.k.ctx[t];
    assert WriteElement(r.lock, r.effect, t) == y.k;
  }

  /** Thread w grants the lock to thread t and is outside. */
  lemma Grants(sw: nat, s: State, x: Conf, w: nat, t: nat) returns (y: Conf)
    requires Reaches(sw, s, x) && w < |x.k.ctx| && t < |x.k.ctx| && t != w && x.k.ctx[w].pc == WakeGrant(0, Me(t))
    ensures y.slots == x.slots
    ensures y.k == x.k.(ctx := x.k.ctx[w := x.k.ctx[w].(pc := Idle)][t := x.k.ctx[t].(granted := true)])
    ensures Reaches(sw, s, y)
  {
    y := Conf(x.k.(ctx := x.k.ctx[w := x.k.ctx[w].(pc := Idle)][t := x.k.ctx[t].(granted := true)]), x.slots);
    var schedule: seq<Id> :| Run(sw, s, schedule) == Some(Full(x));
    GrantIs(sw, x, w, t, y);
    RunThenStep(sw, s, schedule, Me(w));
    assert Run(sw, s, schedule + [Me(w)]) == Some(Full(y));
  }

  /** Thread t, granted and alone in the queue, leaves it and enters. */
  lemma Leaves(sw: nat, s: State, x: Conf, t: nat, c: Ctx, sl: Slot) returns (y: Conf)
    requires Reaches(sw, s, x) && t < |x.k.ctx| && c == x.k.ctx[t] && sl == x.slots[0]
    requires c.pc == Await(0) && c.granted && c.next == None && sl.spinTail == NextCell(Me(t))
    ensures y == Put(x, t, c.(pc := Critical), 0, sl.(spin := None, spinTail := SpinCell(0))) && Reaches(sw, s, y)
  {
    PutSame(x, t, 0);
    GoPut(sw, s, x, t, c, 0, sl, c.(pc := DeqNext(0)), sl);
    GoPut(sw, s, x, t, c.(pc := DeqNext(0)), 0, sl, c.(pc := DeqClear(0)), sl);
    y := LeavesEmpty(sw, s, x, t, c.(pc := DeqClear(0)), sl);
  }

  lemma LeavesEmpty(sw: nat, s: State, x: Conf, t: nat, c: Ctx, sl: Slot) returns (y: Conf)
    requires t < |x.k.ctx| && |x.slots| == NQUEUES && c.pc == DeqClear(0) && sl.spinTail == NextCell(Me(t))
    requires Reaches(sw, s, Put(x, t, c, 0, sl))
    ensures y == Put(x, t, c.(pc := Critical), 0, sl.(spin := None, spinTail := SpinCell(0))) && Reaches(sw, s, y)
  {
    GoPut(sw, s, x, t, c, 0, sl, c.(pc := DeqCas(0)), sl.(spin := None));
    GoPut(sw, s, x, t, c.(pc := DeqCas(0)), 0, sl.(spin := None), c.(pc := Critical),
        sl.(spin := None, spinTail := SpinCell(0)));
    y := Put(x, t, c.(pc := Critical), 0, sl.(spin := None, spinTail := SpinCell(0)));
  }

  /** Thread t releases the lock while slot 0 is bound to it. */
  lemma Releases(sw: nat, s: State, x: Conf, t: nat, c: Ctx) returns (y: Conf)
    requires Reaches(sw, s, x) && t < |x.k.ctx| && c == x.k.ctx[t] && c.pc.Critical? && Odd(x.k.head)
    requires x.slots[0].ref == Bound(0)
    requires 0 <= x.k.head < WORD - 2
    ensures y.slots == x.slots && y.k == x.k.(head := x.k.head + 2, ctx := x.k.ctx[t := c.(pc := WakeSpin(0))])
    ensures Reaches(sw, s, y)
  {
    Small(x.k.head + 2);
    var x1 := Conf(SetPc(x.k, t, WakeFind(0)).(head := x.k.head + 2), x.slots);
    Go(sw, s, x, t, x1);
    y := Conf(x.k.(head := x.k.head + 2, ctx := x.k.ctx[t := c.(pc := WakeSpin(0))]), x.slots);
    assert x1.k.ctx[t := c.(pc := WakeSpin(0))] == y.k.ctx;
    Go(sw, s, x1, t, y);
  }

  /** Thread t sees neither a waiter nor a ticket. */
  lemma SeesNobody(sw: nat, s: State, x: Conf, t: nat, c: Ctx, sl: Slot)
    requires Reaches(sw, s, x) && t < |x.k.ctx| && c == x.k.ctx[t] && sl == x.slots[0]
    requires c.pc == WakeSpin(0) && sl.spin == None && Even(x.k.head) == x.k.tail
    ensures Reaches(sw, s, Put(x, t, c.(pc := UnqCas(0, x.k.head, x.k.tail)), 0, sl))
  {
    PutSame(x, t, 0);
    GoPut(sw, s, x, t, c, 0, sl, c.(pc := UnqRead(0)), sl);
    GoPut(sw, s, x, t, c.(pc := UnqRead(0)), 0, sl, c.(pc := UnqCas(0, x.k.head, x.k.tail)), sl);
  }

  /** It clears the queue bit. */
  lemma Detaches(sw: nat, s: State, x: Conf, t: nat, c: Ctx) returns (y: Conf)
    requires Reaches(sw, s, x) && t < |x.k.ctx| && c == x.k.ctx[t]
    requires c.pc == WakeSpin(0) && x.slots[0].spin == None && Even(x.k.head) == x.k.tail
    ensures y.slots == x.slots && y.k == x.k.(head := Even(x.k.head), ctx := x.k.ctx[t := c.(pc := UnqClear(0))])
    ensures Reaches(sw, s, y)
  {
    SeesNobody(sw, s, x, t, c, x.slots[0]);
    var x1 := Put(x, t, c.(pc := UnqCas(0, x.k.head, x.k.tail)), 0, x.slots[0]);
    y := Conf(x.k.(head := Even(x.k.head), ctx := x.k.ctx[t := c.(pc := UnqClear(0))]), x.slots);
    assert x1.slots == x.slots && x1.k.ctx[t := c.(pc := UnqClear(0))] == y.k.ctx;
    Go(sw, s, x1, t, y);
  }

  /** The slot is given back. */
  lemma Clears(sw: nat, s: State, x: Conf, t: nat) returns (y: Conf)
    requires Reaches(sw, s, x) && t < |x.k.ctx| && x.k.ctx[t].pc == UnqClear(0)
    ensures y == Put(x, t, x.k.ctx[t].(pc := Idle), 0, x.slots[0].(ref := Free)) && Reaches(sw, s, y)
  {
    y := Put(x, t, x.k.ctx[t].(pc := Idle), 0, x.slots[0].(ref := Free));
    Go(sw, s, x, t, y);
  }

  // ---------------------------------------------------------------- a line of tickets

  /** Of the first m threads, j have drawn tickets from base on; the first is inside and the others spin. */
  ghost predicate InLine(x: Conf, m: nat, base: nat, j: nat) {
    && |x.k.ctx| == m + 2 && j <= m && x.k.head == base && x.k.tail == base + 2 * j && !Odd(base)
    && (forall i :: 0 <= i < j ==> x.k.ctx[i].tkt == base + 2 * i && x.k.ctx[i].pc == if i == 0 then Critical else Spin)
    && (forall i :: j <= i < m ==> x.k.ctx[i].pc.Idle?)
  }

  /** All m threads draw; the threads m and m + 1 and the slots stay as they are. */
  lemma {:induction false} LinesUp(m: nat, s: State, x: Conf, base: nat, j: nat) returns (y: Conf)
    requires Reaches(2 * m, s, x) && InLine(x, m, base, j) && base + 2 * m < WORD
    ensures Reaches(2 * m, s, y) && InLine(y, m, base, m) && y.slots == x.slots
    ensures y.k.ctx[m] == x.k.ctx[m] && y.k.ctx[m + 1] == x.k.ctx[m + 1]
    decreases m - j
  {
    if j == m {
      y := x;
    } else {
      var x1 := Draws(2 * m, s, x, j);
      y := LinesUp(m, s, x1, base, j + 1);
    }
  }

  /** The ticket of the next thread u is the threshold away from the head word: it looks for a slot. */
  lemma Starts(m: nat, s: State, x: Conf, base: nat, u: nat) returns (y: Conf)
    requires 0 < m && Reaches(2 * m, s, x) && InLine(x, m, base, m) && base + 2 * m + 2 < WORD
    requires m <= u < m + 2 && x.k.ctx[u].pc.Idle?
    ensures Reaches(2 * m, s, y) && y.slots == x.slots
    ensures y.k == x.k.(tail := base + 2 * m + 2,
            ctx := x.k.ctx[u := x.k.ctx[u].(pc := ClaimRead(0), tkt := base + 2 * m)])
  {
    y := Draws(2 * m, s, x, u);
  }

  // ---------------------------------------------------------------- the queue is worked off

  /** Before thread j of m has its turn: the thread before it releases, nobody is in the queue, the others spin. */
  ghost predicate Draining(x: Conf, m: nat, j: nat) {
    && |x.k.ctx| == m + 2 && 1 <= j <= m + 1 && |x.slots| == NQUEUES
    && x.k.head == 2 * j + 1 && x.k.tail == 2 * m + 2
    && x.k.ctx[j - 1].pc == WakeSpin(0)
    && (forall i :: 0 <= i < m + 2 && (i < j - 1 || i == m + 1) ==> x.k.ctx[i].pc.Idle?)
    && (forall i :: j <= i <= m ==> x.k.ctx[i].tkt == 2 * i && x.k.ctx[i].pc == if i == m then Find(0) else Spin)
    && x.slots[0].ref == Bound(0) && x.slots[0].spin == None && x.slots[0].spinTail == SpinCell(0)
    && x.slots[0].headTkt <= 0
    && x.slots[1].ref == Free
  }

  /** Thread j sees the queue bit. */
  lemma Turns(m: nat, s: State, x: Conf, j: nat) returns (y: Conf)
    requires Reaches(2 * m, s, x) && Draining(x, m, j) && j <= m
    ensures Reaches(2 * m, s, y) && y.slots == x.slots && y.k == x.k.(ctx := x.k.ctx[j := x.k.ctx[j].(pc := Find(0))])
  {
    y := Conf(SetPc(x.k, j, Find(0)), x.slots);
    if j < m {
      Go(2 * m, s, x, j, y);
    } else {
      assert y.k.ctx == x.k.ctx;
    }
  }

  /** From x to y only the threads t and u and slot 0 change. */
  ghost predicate OnlyThese(x: Conf, y: Conf, t: nat, u: nat) {
    && |y.k.ctx| == |x.k.ctx| && |y.slots| == |x.slots| == NQUEUES && y.k.tail == x.k.tail
    && (forall i :: 0 <= i < |x.k.ctx| && i != t && i != u ==> y.k.ctx[i] == x.k.ctx[i])
    && (forall i :: 1 <= i < NQUEUES ==> y.slots[i] == x.slots[i])
  }

  /** Thread t enqueues, and thread w, which releases, hands it the lock. */
  lemma HandsOver(sw: nat, s: State, x: Conf, w: nat, t: nat, c: Ctx, sl: Slot) returns (y: Conf)
    requires Reaches(sw, s, x) && w < |x.k.ctx| && t < |x.k.ctx| && t != w && c == x.k.ctx[t] && sl == x.slots[0]
    requires x.k.ctx[w].pc == WakeSpin(0) && c.pc == Find(0) && sl.ref == Bound(0) && sl.headTkt != c.tkt
    requires sl.spinTail == SpinCell(0)
    ensures Reaches(sw, s, y) && OnlyThese(x, y, w, t) && y.k.head == x.k.head
    ensures y.k.ctx[w].pc.Idle? && y.k.ctx[t] == Ctx(Await(0), c.tkt, true, None)
    ensures y.slots[0] == Slot(Bound(0), -1, Some(Me(t)), NextCell(Me(t)))
  {
    var x1 := Enqueues(sw, s, x, t, c, sl);
    var x2 := Put(x1, w, x1.k.ctx[w].(pc := WakeGrant(0, Me(t))), 0, x1.slots[0].(headTkt := -1));
    Wakes(sw, s, x1, w, x1.k.ctx[w], x1.slots[0], t);
    y := Grants(sw, s, x2, w, t);
  }

  /** Thread t enters, leaves and looks for somebody to hand the lock to. */
  lemma PassesThrough(sw: nat, s: State, x: Conf, t: nat, c: Ctx, sl: Slot) returns (y: Conf)
    requires Reaches(sw, s, x) && t < |x.k.ctx| && c == x.k.ctx[t] && sl == x.slots[0] && Odd(x.k.head)
    requires c.pc == Await(0) && c.granted && c.next == None && sl.ref == Bound(0) && sl.spinTail == NextCell(Me(t))
    requires 0 <= x.k.head < WORD - 2
    ensures Reaches(sw, s, y) && OnlyThese(x, y, t, t) && y.k.head == x.k.head + 2
    ensures y.k.ctx[t].pc == WakeSpin(0) && y.slots[0] == sl.(spin := None, spinTail := SpinCell(0))
  {
    var x1 := Leaves(sw, s, x, t, c, sl);
    y := Releases(sw, s, x1, t, x1.k.ctx[t]);
  }

  /** Thread j goes through the queue. */
  lemma Round(m: nat, s: State, x: Conf, j: nat) returns (y: Conf)
    requires Reaches(2 * m, s, x) && Draining(x, m, j) && j <= m && 4 * m + 8 < WORD
    ensures Reaches(2 * m, s, y) && Draining(y, m, j + 1)
  {
    Parity(j);
    var x1 := Turns(m, s, x, j);
    var x2 := HandsOver(2 * m, s, x1, j - 1, j, x1.k.ctx[j], x1.slots[0]);
    y := PassesThrough(2 * m, s, x2, j, x2.k.ctx[j], x2.slots[0]);
  }

  /** All threads up to m go through the queue. */
  lemma {:induction false} Drains(m: nat, s: State, x: Conf, j: nat) returns (y: Conf)
    requires Reaches(2 * m, s, x) && Draining(x, m, j) && 4 * m + 8 < WORD
    ensures Reaches(2 * m, s, y) && Draining(y, m, m + 1)
    decreases m + 1 - j
  {
    if j == m + 1 {
      y := x;
    } else {
      var x1 := Round(m, s, x, j);
      y := Drains(m, s, x1, j + 1);
    }
  }

  // ---------------------------------------------------------------- the whole run

  const OUT := Ctx(Idle, 0, false, None)

  function Outside(m: nat): Conf {
    Conf(Lock(0, 0, seq(m + 2, _ => OUT)), seq(NQUEUES, _ => Slot(Free, 0, None, SpinCell(0))))
  }

  /** Thread u has drawn a ticket and formed a queue in slot i. */
  ghost predicate Formed(x: Conf, y: Conf, u: nat, i: SlotIx) {
    && |y.k.ctx| == |x.k.ctx| && |y.slots| == |x.slots| == NQUEUES && u < |x.k.ctx|
    && y.k.head == x.k.head + 1 && y.k.tail == x.k.tail + 2
    && y.k.ctx[u].pc == Find(0) && y.k.ctx[u].tkt == x.k.tail
    && (forall t :: 0 <= t < |x.k.ctx| && t != u ==> y.k.ctx[t] == x.k.ctx[t])
    && y.slots[i] == Slot(Bound(0), x.k.head, None, SpinCell(i))
    && (forall j: SlotIx :: j != i ==> y.slots[j] == x.slots[j])
  }

  lemma FirstForms(m: nat, s: State, x: Conf) returns (y: Conf)
    requires 0 < m && 4 * m + 8 < WORD && Reaches(2 * m, s, x) && InLine(x, m, 0, m) && x.k.ctx[m].pc.Idle?
    requires x.slots[0].ref == Free
    ensures Reaches(2 * m, s, y) && Formed(x, y, m, 0)
  {
    var x1 := Starts(m, s, x, 0, m);
    y := Forms(2 * m, s, x1, m, 0, x1.k.ctx[m]);
  }

  lemma OutsideIs(m: nat)
    ensures InLine(Outside(m), m, 0, 0) && Outside(m).k.ctx[m].pc.Idle? && Outside(m).k.ctx[m + 1].pc.Idle?
    ensures |Outside(m).slots| == NQUEUES && Outside(m).slots[0].ref == Free && Outside(m).slots[1].ref == Free
  {
    Parity(0);
  }

  /** Thread 0 has released while all others wait. */
  lemma DrainsNext(m: nat, x: Conf, y: Conf, z: Conf)
    requires 0 < m && InLine(x, m, 0, m) && Formed(x, y, m, 0) && x.k.ctx[m + 1].pc.Idle? && x.slots[1].ref == Free
    requires z.slots == y.slots && z.k == y.k.(head := 3, ctx := y.k.ctx[0 := y.k.ctx[0].(pc := WakeSpin(0))])
    ensures Draining(z, m, 1)
  {
  }

  /** The threads up to m queue up until the last of them forms a queue in slot 0; thread 0 releases. */
  lemma FirstQueue(m: nat, s: State) returns (y: Conf)
    requires 0 < m && 4 * m + 8 < WORD && s == Full(Outside(m))
    ensures Reaches(2 * m, s, y) && Draining(y, m, 1)
  {
    OutsideIs(m);
    assert Run(2 * m, s, []) == Some(Full(Outside(m)));
    var x1 := LinesUp(m, s, Outside(m), 0, 0);
    var x2 := FirstForms(m, s, x1);
    y := Releases(2 * m, s, x2, 0, x2.k.ctx[0]);
    DrainsNext(m, x1, x2, y);
  }

  /** Thread m has cleared the queue bit and not yet `ref`; all others are outside. */
  ghost predicate InWindow(x: Conf, m: nat) {
    && InLine(x, m, 2 * m + 2, 0) && x.k.ctx[m].pc == UnqClear(0) && x.k.ctx[m + 1].pc.Idle? && |x.slots| == NQUEUES
    && x.slots[0].ref == Bound(0) && x.slots[0].spinTail == SpinCell(0) && x.slots[0].headTkt <= 0
    && x.slots[1].ref == Free
  }

  lemma WindowOpens(m: nat, s: State) returns (y: Conf)
    requires 0 < m && 4 * m + 8 < WORD && s == Full(Outside(m))
    ensures Reaches(2 * m, s, y) && InWindow(y, m)
  {
    var x := FirstQueue(m, s);
    var x1 := Drains(m, s, x, 1);
    Parity(m + 1);
    y := Detaches(2 * m, s, x1, m, x1.k.ctx[m]);
  }

  /** Thread u finds slot 0 taken and goes on to slot 1. */
  lemma GoesOn(sw: nat, s: State, x: Conf, u: nat, c: Ctx) returns (y: Conf)
    requires Reaches(sw, s, x) && u < |x.k.ctx| && c == x.k.ctx[u] && c.pc == ClaimRead(0) && x.slots[0].ref != Free
    requires !Odd(x.k.head)
    ensures Reaches(sw, s, y) && y == x.(k := x.k.(ctx := x.k.ctx[u := c.(pc := ClaimRead(1))]))
  {
    PutSame(x, u, 0);
    GoPut(sw, s, x, u, c, 0, x.slots[0], c.(pc := ClaimBit(0)), x.slots[0]);
    GoPut(sw, s, x, u, c.(pc := ClaimBit(0)), 0, x.slots[0], c.(pc := ClaimRead(1)), x.slots[0]);
    y := Put(x, u, c.(pc := ClaimRead(1)), 0, x.slots[0]);
    assert y.slots == x.slots;
  }

  lemma SecondForms(m: nat, s: State, x: Conf, base: nat) returns (y: Conf)
    requires 0 < m && base + 2 * m + 2 < WORD && Reaches(2 * m, s, x) && InLine(x, m, base, m)
    requires x.k.ctx[m + 1].pc.Idle?
    requires x.slots[0].ref != Free && x.slots[1].ref == Free
    ensures Reaches(2 * m, s, y) && Formed(x, y, m + 1, 1)
  {
    var x1 := Starts(m, s, x, base, m + 1);
    var x2 := GoesOn(2 * m, s, x1, m + 1, x1.k.ctx[m + 1]);
    y := Forms(2 * m, s, x2, m + 1, 1, x2.k.ctx[m + 1]);
  }

  /** In the window the first m threads draw tickets, and thread m + 1 forms a second queue in slot 1. */
  lemma SecondQueue(m: nat, s: State, x: Conf) returns (y: Conf)
    requires 0 < m && 4 * m + 8 < WORD && Reaches(2 * m, s, x) && InWindow(x, m)
    ensures Reaches(2 * m, s, y) && |y.k.ctx| == m + 2 && y.k.head == 2 * (m + 1) + 1
    ensures y.k.ctx[m].pc == UnqClear(0) && y.k.ctx[m + 1].pc == Find(0) && y.k.ctx[m + 1].tkt > 0
    ensures y.slots[0] == x.slots[0] && y.slots[1].ref == Bound(0)
  {
    var x1 := LinesUp(m, s, x, 2 * m + 2, 0);
    y := SecondForms(m, s, x1, 2 * m + 2);
  }

  /** A thread waits ungranted in the queue of slot 0, which is free, while the queue of the lock is in slot 1. */
  ghost predicate Stranded(x: Conf, t: nat) {
    && |x.slots| == NQUEUES && t < |x.k.ctx| && x.k.ctx[t].pc == Await(0) && !x.k.ctx[t].granted
    && x.slots[0].ref == Free && x.slots[1].ref == Bound(0) && Odd(x.k.head)
  }

  /** Thread u enqueues in slot 0, and thread w gives that slot back. */
  lemma TakesOldSlot(sw: nat, s: State, x: Conf, w: nat, u: nat) returns (y: Conf)
    requires Reaches(sw, s, x) && w < |x.k.ctx| && u < |x.k.ctx| && w != u && Odd(x.k.head)
    requires x.k.ctx[w].pc == UnqClear(0)
    requires x.k.ctx[u].pc == Find(0) && x.slots[0].ref == Bound(0) && x.slots[0].headTkt != x.k.ctx[u].tkt
    requires x.slots[0].spinTail == SpinCell(0) && x.slots[1].ref == Bound(0)
    ensures Reaches(sw, s, y) && |y.k.ctx| == |x.k.ctx| && Stranded(y, u)
  {
    var x1 := Enqueues(sw, s, x, u, x.k.ctx[u], x.slots[0]);
    y := Clears(sw, s, x1, w);
  }

  /** The whole schedule. */
  lemma Strands(m: nat, s: State) returns (y: Conf)
    requires 0 < m && 4 * m + 8 < WORD && s == Full(Outside(m))
    ensures Reaches(2 * m, s, y) && |y.k.ctx| == m + 2 && Stranded(y, m + 1)
  {
    var x := WindowOpens(m, s);
    var x1 := SecondQueue(m, s, x);
    Parity(m + 1);
    y := TakesOldSlot(2 * m, s, x1, m, m + 1);
  }

  // ---------------------------------------------------------------- how many contexts a lock may have

  /** With few contexts for each lock, mutual exclusion holds over every run, without an assumption. */
  lemma FewExclude(sw: nat, s0: State, schedule: seq<Id>, s: State, l: nat, t: nat, u: nat)
    requires Init(s0) && AllFew(sw, s0) && Run(sw, s0, schedule) == Some(s)
    requires Exists(s, Id(l, t)) && Exists(s, Id(l, u)) && s.locks[l].ctx[t].pc.Critical?
    requires s.locks[l].ctx[u].pc.Critical?
    ensures t == u
  {
    FewReach(sw, s0, schedule, s);
    MutualExclusion(sw, s, l, t, u);
  }

  /** And no wakeup is lost. */
  lemma FewLoseNoWakeup(sw: nat, s0: State, schedule: seq<Id>, s: State, l: nat, t: nat)
    requires Init(s0) && AllFew(sw, s0) && Run(sw, s0, schedule) == Some(s)
    requires Exists(s, Id(l, t)) && Outstanding(s.locks[l].ctx[t].pc)
    ensures CanEnter(sw, s, l)
  {
    FewReach(sw, s0, schedule, s);
    NoLostWakeup(sw, s, l, t);
  }

  /** And everybody with a ticket can be served. */
  lemma FewServeEverybody(sw: nat, s0: State, schedule: seq<Id>, s: State, l: nat, t: nat)
    requires Init(s0) && AllFew(sw, s0) && Run(sw, s0, schedule) == Some(s)
    requires Exists(s, Id(l, t)) && Outstanding(s.locks[l].ctx[t].pc)
    ensures CanBeServed(sw, s, l, t)
  {
    FewReach(sw, s0, schedule, s);
    EveryWaiterServed(sw, s, l, t);
  }

  /** Whoever works on a queue works on the one that is bound to its lock, and the queue bit is set. */
  ghost predicate NobodyStranded(s: State) {
    WellFormed(s) && forall l: nat, t: nat :: Exists(s, Id(l, t)) && AtQueue(s.locks[l].ctx[t].pc) ==>
      s.slots[s.locks[l].ctx[t].pc.slot].ref == Bound(l) && Odd(s.locks[l].head)
  }

  /** Every run of locks with at most n contexts each keeps everybody on the right queue. */
  ghost predicate SafeFor(sw: nat, n: nat) {
    forall s0: State, schedule: seq<Id> ::
      Init(s0) && (forall l :: l in s0.locks ==> |s0.locks[l].ctx| <= n) && Run(sw, s0, schedule).Some? ==>
      NobodyStranded(Run(sw, s0, schedule).value)
  }

  lemma FewAreSafe(sw: nat, n: nat)
    requires Few(sw, n)
    ensures SafeFor(sw, n)
  {
    forall s0: State, schedule: seq<Id> | Init(s0) && (forall l :: l in s0.locks ==> |s0.locks[l].ctx| <= n)
        && Run(sw, s0, schedule).Some?
      ensures NobodyStranded(Run(sw, s0, schedule).value)
    {
      FewReach(sw, s0, schedule, Run(sw, s0, schedule).value);
      ReachableIsSafe(sw, Run(sw, s0, schedule).value);
    }
  }

  lemma ReachableIsSafe(sw: nat, s: State)
    requires Reachable(sw, s)
    ensures NobodyStranded(s)
  {
    var a := ReachableInv(sw, s);
    forall l: nat, t: nat | Exists(s, Id(l, t)) && AtQueue(s.locks[l].ctx[t].pc)
      ensures s.slots[s.locks[l].ctx[t].pc.slot].ref == Bound(l) && Odd(s.locks[l].head)
    {
      NobodyOnDetachedQueue(sw, s, l, t);
    }
  }

  /**
   * For the threshold 2 * m and m + 2 contexts there is a run that ends with a waiter on a slot that is free, while the
   * queue bit and `ref` name another slot.
   */
  lemma WaiterOnDetachedQueue(m: nat) returns (s0: State, schedule: seq<Id>, s: State)
    requires 0 < m && 4 * m + 8 < WORD
    ensures Init(s0) && s0.locks.Keys == {0} && |s0.locks[0].ctx| == m + 2 && Run(2 * m, s0, schedule) == Some(s)
    ensures WellFormed(s) && Exists(s, Me(m + 1)) && Odd(s.locks[0].head)
    ensures s.locks[0].ctx[m + 1].pc == Await(0) && !s.locks[0].ctx[m + 1].granted
    ensures s.slots[0].ref == Free && s.slots[1].ref == Bound(0)
  {
    s0 := Full(Outside(m));
    var y := Strands(m, s0);
    s := Full(y);
    schedule :| Run(2 * m, s0, schedule) == Some(s);
  }

  /**
   * Every run of any locks is safe for an even threshold if and only if no lock has half the threshold and two
   * contexts.
   */
  lemma SafeIffFew(m: nat, n: nat)
    requires 0 < m && 4 * m + 8 < WORD
    ensures SafeFor(2 * m, n) <==> n < m + 2
  {
    if n < m + 2 {
      FewAreSafe(2 * m, n);
    } else {
      var s0, schedule, s := WaiterOnDetachedQueue(m);
      assert !NobodyStranded(s) by {
        assert Exists(s, Id(0, m + 1)) && AtQueue(s.locks[0].ctx[m + 1].pc);
      }
      assert |s0.locks[0].ctx| <= n;
    }
  }

  /** TKT_Q_SWITCH. */
  const SWITCH := 16

  /** With the threshold of the source, queues are safe on every schedule exactly for up to nine contexts of a lock. */
  lemma NineContexts(n: nat)
    ensures SafeFor(SWITCH, n) <==> n <= 9
  {
    SafeIffFew(8, n);
  }
}
