/** Drawing and returning tickets, and attaching and detaching a slot, keep the invariant. */
module QLockTickets {
  import opened Sequences
  import opened Wrappers
  import opened TicketWords
  import opened QLockModel
  import opened QLockInvariant
  import opened QLockPreservation
  import opened QLockReservation

  /** The words of the lock play no part in the shape of the queue. */
  lemma ShapeIgnoresWords(l: nat, k: Lock, k': Lock, q: seq<nat>, i: SlotIx, sl: Slot, sl': Slot)
    requires Within(q, |k.ctx|) && Shape(l, k, q, i, sl) && k'.ctx == k.ctx
    requires sl'.spin == sl.spin && sl'.spinTail == sl.spinTail
    ensures Shape(l, k', q, i, sl')
  {
    assert forall n :: 0 <= n < |q| ==> LinkTo(l, k', q, n) == LinkTo(l, k, q, n);
  }

  // ---------------------------------------------------------------- ncutils_lock.h:116: drawing a ticket

  predicate JoinTarget(k: Lock, c: Ctx, c': Ctx) {
    && c.pc.Idle? && c'.tkt == k.tail
    && (|| (c'.pc.Critical? && k.head == k.tail)
        || (c'.pc.Find? && Odd(k.head))
        || ((c'.pc.ClaimRead? || c'.pc.Spin?) && k.head != k.tail))
  }

  function Joined(k: Lock, t: nat, c': Ctx): Lock
    requires t < |k.ctx|
  {
    k.(tail := Wrap(k.tail + 2), ctx := k.ctx[t := c'])
  }

  function JoinedHistory(h: History, t: nat): History {
    h.(line := h.line + [t], token := if h.line == [] && !Attached(h.phase) then Some(t) else h.token)
  }

  lemma JoinCounting(k: Lock, h: History, t: nat, c': Ctx)
    requires Counting(k, h) && t < |k.ctx| && JoinTarget(k, k.ctx[t], c')
    ensures t !in h.line && t !in h.q && Counting(Joined(k, t, c'), JoinedHistory(h, t))
  {
    WrapAdd(Even(k.head) + 2 * |h.line|, 2);
    assert forall u :: u in h.line + [t] <==> u in h.line || u == t;
  }

  /** The words agree, without the queue bit, exactly when nobody holds a ticket. */
  lemma FreeWords(k: Lock, h: History, t: nat)
    requires Counting(k, h) && t < |k.ctx| && t !in h.line
    ensures Even(k.head) == k.tail <==> h.line == []
    ensures k.head == k.tail <==> h.line == [] && !Odd(k.head)
    ensures 0 <= k.tail < WORD && !Odd(k.tail)
  {
    LineBoundWith(h.line, t, |k.ctx|);
    WrapInjective(Even(k.head), 0, |h.line|);
  }

  lemma JoinCtx(l: nat, k: Lock, h: History, slots: seq<Slot>, owner: seq<Option<Id>>, t: nat, c': Ctx)
    requires |slots| == |owner| == NQUEUES && t < |k.ctx| && JoinTarget(k, k.ctx[t], c')
    requires 0 <= k.tail < WORD && !Odd(k.tail) && (Odd(k.head) <==> Attached(h.phase))
    requires k.head == k.tail ==> h.line == []
    ensures CtxOk(Id(l, t), c', JoinedHistory(h, t), slots, owner)
  {
  }

  lemma JoinOtherCtx(l: nat, u: nat, c: Ctx, h: History, slots: seq<Slot>, owner: seq<Option<Id>>, t: nat)
    requires |slots| == |owner| == NQUEUES && CtxOk(Id(l, u), c, h, slots, owner) && u != t
    requires h.line == [] && !Attached(h.phase) ==> h.token == None
    ensures CtxOk(Id(l, u), c, JoinedHistory(h, t), slots, owner)
  {
  }

  lemma JoinToken(l: nat, k: Lock, h: History, slots: seq<Slot>, t: nat, c': Ctx)
    requires |slots| == NQUEUES && Counting(k, h) && Token(l, k, h, slots)
    requires t < |k.ctx| && JoinTarget(k, k.ctx[t], c')
    ensures Token(l, Joined(k, t, c'), JoinedHistory(h, t), slots)
  {
    var k', h' := Joined(k, t, c'), JoinedHistory(h, t);
    assert t !in h.line;
    if Aligned(k, h.line) {
      forall j | 0 <= j < |h'.line|
        ensures h'.line[j] < |k'.ctx| && k'.ctx[h'.line[j]].tkt == Wrap(Even(k'.head) + 2 * j)
      {
        if j < |h.line| { assert h.line[j] in h.line; }
      }
    }
  }

  lemma KeepJoin(l: nat, k: Lock, h: History, slots: seq<Slot>, owner: seq<Option<Id>>, t: nat, c': Ctx)
    requires |slots| == |owner| == NQUEUES && t < |k.ctx|
    requires LockInv(l, k, h, slots, owner) && JoinTarget(k, k.ctx[t], c')
    ensures LockInv(l, Joined(k, t, c'), JoinedHistory(h, t), slots, owner)
  {
    var k', h' := Joined(k, t, c'), JoinedHistory(h, t);
    JoinCounting(k, h, t, c');
    FreeWords(k, h, t);
    JoinToken(l, k, h, slots, t, c');
    JoinCtx(l, k, h, slots, owner, t, c');
    forall u | 0 <= u < |k'.ctx| ensures CtxOk(Id(l, u), k'.ctx[u], h', slots, owner) {
      if u != t { JoinOtherCtx(l, u, k.ctx[u], h, slots, owner, t); }
    }
    assert Refs(l, k', h', slots);
    if Attached(h.phase) {
      var i := h.phase.slot;
      ShapeMoved(l, k, h.q, i, slots[i], t, c');
      ShapeIgnoresWords(l, k.(ctx := k.ctx[t := c']), k', h.q, i, slots[i], slots[i]);
    }
  }

  // ---------------------------------------------------------------- ncutils_lock.h:134: releasing

  lemma {:induction false} WithoutIs(s: seq<nat>, x: nat, n: nat)
    requires Distinct(s) && x in s && Within(s, n)
    ensures |Without(s, x)| + 1 == |s| && Distinct(Without(s, x)) && Within(Without(s, x), n)
    ensures forall u :: u in Without(s, x) <==> u in s && u != x
  {
    var rest := s[1..];
    assert s == [s[0]] + rest;
    TailIs(s, n);
    if s[0] != x {
      WithoutIs(rest, x, n);
      Prepended(s[0], Without(rest, x), n);
    }
  }

  lemma TailIs(s: seq<nat>, n: nat)
    requires Distinct(s) && Within(s, n) && s != []
    ensures Distinct(s[1..]) && Within(s[1..], n) && s[0] !in s[1..]
  {
  }

  lemma Prepended(x: nat, w: seq<nat>, n: nat)
    requires Distinct(w) && Within(w, n) && x < n && x !in w
    ensures Distinct([x] + w) && Within([x] + w, n) && forall u :: u in [x] + w <==> u == x || u in w
  {
    assert forall j :: 0 <= j < |w| ==> w[j] in w;
  }

  function Released(k: Lock, t: nat, c': Ctx): Lock
    requires t < |k.ctx|
  {
    k.(head := Wrap(k.head + 2), ctx := k.ctx[t := c'])
  }

  function ReleasedHistory(h: History, t: nat): History {
    var rest := Without(h.line, t);
    h.(line := rest, token := if Attached(h.phase) then h.token else FirstOf(rest))
  }

  predicate ReleaseTarget(k: Lock, c: Ctx, c': Ctx) {
    c.pc.Critical? && c'.tkt == c.tkt && (if Odd(k.head) then c'.pc.WakeFind? else c'.pc.Idle?)
  }

  lemma ReleaseCounting(k: Lock, h: History, t: nat, c': Ctx)
    requires Counting(k, h) && t < |k.ctx| && ReleaseTarget(k, k.ctx[t], c')
    ensures Counting(Released(k, t, c'), ReleasedHistory(h, t))
  {
    var h' := ReleasedHistory(h, t);
    WithoutIs(h.line, t, |k.ctx|);
    ReleaseHead(k.head);
    WrapAdd(Even(k.head) + 2, 2 * |h'.line|);
  }

  /** When the front of the line releases, the rest of the line is aligned with the new head. */
  lemma ReleaseAligned(k: Lock, h: History, t: nat, c': Ctx)
    requires Counting(k, h) && t < |k.ctx| && ReleaseTarget(k, k.ctx[t], c')
    requires Aligned(k, h.line) && |h.line| > 0 && h.line[0] == t
    ensures Without(h.line, t) == h.line[1..] && Aligned(Released(k, t, c'), h.line[1..])
  {
    var k', rest := Released(k, t, c'), h.line[1..];
    ReleaseHead(k.head);
    forall j | 0 <= j < |rest| ensures rest[j] < |k'.ctx| && k'.ctx[rest[j]].tkt == Wrap(Even(k'.head) + 2 * j) {
      assert rest[j] == h.line[j + 1] && rest[j] != t;
      WrapAdd(Even(k.head) + 2, 2 * j);
    }
  }

  lemma ReleaseToken(l: nat, k: Lock, h: History, slots: seq<Slot>, t: nat, c': Ctx)
    requires |slots| == NQUEUES && Counting(k, h) && Token(l, k, h, slots)
    requires t < |k.ctx| && ReleaseTarget(k, k.ctx[t], c') && h.token == Some(t)
    ensures Token(l, Released(k, t, c'), ReleasedHistory(h, t), slots)
  {
    ReleaseHead(k.head);
    if Aligned(k, h.line) && |h.line| > 0 && h.line[0] == t { ReleaseAligned(k, h, t, c'); }
  }

  lemma ReleaseCtx(l: nat, k: Lock, h: History, slots: seq<Slot>, owner: seq<Option<Id>>, t: nat, c': Ctx, u: nat)
    requires |slots| == |owner| == NQUEUES && t < |k.ctx| && u < |k.ctx| && ReleaseTarget(k, k.ctx[t], c')
    requires CtxOk(Id(l, t), k.ctx[t], h, slots, owner) && CtxOk(Id(l, u), k.ctx[u], h, slots, owner)
    requires Odd(k.head) <==> Attached(h.phase)
    ensures CtxOk(Id(l, u), Released(k, t, c').ctx[u], ReleasedHistory(h, t), slots, owner)
  {
  }

  lemma KeepRelease(l: nat, k: Lock, h: History, slots: seq<Slot>, owner: seq<Option<Id>>, t: nat, c': Ctx)
    requires |slots| == |owner| == NQUEUES && t < |k.ctx|
    requires LockInv(l, k, h, slots, owner) && ReleaseTarget(k, k.ctx[t], c')
    ensures LockInv(l, Released(k, t, c'), ReleasedHistory(h, t), slots, owner)
  {
    var k', h' := Released(k, t, c'), ReleasedHistory(h, t);
    assert CtxOk(Id(l, t), k.ctx[t], h, slots, owner);
    ReleaseCounting(k, h, t, c');
    ReleaseToken(l, k, h, slots, t, c');
    forall u | 0 <= u < |k'.ctx| ensures CtxOk(Id(l, u), k'.ctx[u], h', slots, owner) {
      ReleaseCtx(l, k, h, slots, owner, t, c', u);
    }
    assert Refs(l, k', h', slots);
    if Attached(h.phase) {
      var i := h.phase.slot;
      ShapeMoved(l, k, h.q, i, slots[i], t, c');
      ShapeIgnoresWords(l, k.(ctx := k.ctx[t := c']), k', h.q, i, slots[i], slots[i]);
    }
  }
}
