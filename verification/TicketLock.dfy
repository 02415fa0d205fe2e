/**
 * The plain ticket lock (TicketAcquire and TicketRelease of lib/ncutils_lock.h): 16-bit counters
 * that wrap around, one shared access per step, and the same lock with unbounded counters as its
 * specification.
 */
module TicketLock {
  import opened Sequences
  import opened Wrappers
  import opened TicketWords

  datatype PC = Outside | Spinning | Inside

  datatype Ctx = Ctx(pc: PC, tkt: int)

  datatype State = State(head: int, tail: int, ctx: seq<Ctx>)

  /** `Word` keeps the counters in 16 bits, `Ideal` lets them grow. */
  datatype Width = Word | Ideal

  function Next(w: Width, x: int): int {
    match w
    case Word => Wrap(x + 1)
    case Ideal => x + 1
  }

  /** Lines 89-94 and 105: draw a ticket, read the head word, or increment it on release. */
  function Step(w: Width, s: State, t: nat): State
    requires t < |s.ctx|
  {
    var c := s.ctx[t];
    match c.pc
    case Outside =>
      s.(tail := Next(w, s.tail), ctx := s.ctx[t := Ctx(if s.head == s.tail then Inside else Spinning, s.tail)])
    case Spinning =>
      s.(ctx := s.ctx[t := c.(pc := if s.head == c.tkt then Inside else Spinning)])
    case Inside =>
      s.(head := Next(w, s.head), ctx := s.ctx[t := c.(pc := Outside)])
  }

  /** TicketInit, with n threads. */
  function Init(n: nat): State {
    State(0, 0, seq(n, _ => Ctx(Outside, 0)))
  }

  predicate Legal(n: nat, schedule: seq<nat>) {
    forall i :: 0 <= i < |schedule| ==> schedule[i] < n
  }

  function Run(w: Width, s: State, schedule: seq<nat>): (r: State)
    requires Legal(|s.ctx|, schedule)
    ensures |r.ctx| == |s.ctx|
    decreases |schedule|
  {
    if schedule == [] then s else Run(w, Step(w, s, schedule[0]), schedule[1..])
  }

  // ---------------------------------------------------------------- the unbounded lock

  /** The contexts with a ticket in the order of their tickets, which count up from head to tail. */
  ghost predicate InLine(s: State, line: seq<nat>) {
    && 0 <= s.head && s.tail == s.head + |line|
    && (forall j :: 0 <= j < |line| ==> line[j] < |s.ctx| && s.ctx[line[j]].tkt == s.head + j)
    && Distinct(line)
    && (forall t :: 0 <= t < |s.ctx| ==> (s.ctx[t].pc != Outside <==> t in line))
    && (forall t :: 0 <= t < |s.ctx| && s.ctx[t].pc == Inside ==> |line| > 0 && line[0] == t)
  }

  function LineAfter(s: State, line: seq<nat>, t: nat): seq<nat>
    requires t < |s.ctx|
  {
    match s.ctx[t].pc
    case Outside => line + [t]
    case Spinning => line
    case Inside => if line == [] then [] else line[1..]
  }

  lemma StepKeepsLine(s: State, line: seq<nat>, t: nat)
    requires InLine(s, line) && t < |s.ctx|
    ensures InLine(Step(Ideal, s, t), LineAfter(s, line, t))
  {
    var s', line' := Step(Ideal, s, t), LineAfter(s, line, t);
    match s.ctx[t].pc
    case Outside =>
      assert forall u :: u in line' <==> u in line || u == t;
    case Spinning =>
      assert t in line;
    case Inside =>
      assert forall u :: u in line' <==> u in line && u != t;
  }

  // ---------------------------------------------------------------- refinement

  /** The words are the counters modulo 2^16, and every context is at the same point. */
  ghost predicate Refines(s: State, i: State) {
    && |s.ctx| == |i.ctx|
    && s.head == Wrap(i.head) && s.tail == Wrap(i.tail)
    && (forall t :: 0 <= t < |s.ctx| ==> s.ctx[t].pc == i.ctx[t].pc)
    && (forall t :: 0 <= t < |s.ctx| && s.ctx[t].pc != Outside ==> s.ctx[t].tkt == Wrap(i.ctx[t].tkt))
  }

  lemma WordsAgree(x: int, y: int)
    requires 0 <= y - x < WORD
    ensures Wrap(x) == Wrap(y) <==> x == y
  {
    assert x == WORD * (x / WORD) + x % WORD;
    assert y == WORD * (y / WORD) + y % WORD;
  }

  /** With at most 2^16 threads no comparison is fooled by the wrap-around. */
  lemma StepRefines(s: State, i: State, line: seq<nat>, t: nat)
    requires Refines(s, i) && InLine(i, line) && t < |s.ctx| <= WORD
    ensures Refines(Step(Word, s, t), Step(Ideal, i, t))
  {
    match s.ctx[t].pc
    case Outside =>
      LineBound(line + [t], |i.ctx|);
      WordsAgree(i.head, i.tail);
      WrapAdd(i.tail, 1);
    case Spinning =>
      LineBound(line, |i.ctx|);
      assert t in line;
      var j :| 0 <= j < |line| && line[j] == t;
      WordsAgree(i.head, i.head + j);
    case Inside =>
      WrapAdd(i.head, 1);
  }

  lemma {:induction false} RunRefines(s: State, i: State, line: seq<nat>, schedule: seq<nat>) returns (line': seq<nat>)
    requires Refines(s, i) && InLine(i, line) && |s.ctx| <= WORD && Legal(|s.ctx|, schedule)
    ensures Refines(Run(Word, s, schedule), Run(Ideal, i, schedule)) && InLine(Run(Ideal, i, schedule), line')
    decreases |schedule|
  {
    if schedule == [] {
      line' := line;
    } else {
      StepRefines(s, i, line, schedule[0]);
      StepKeepsLine(i, line, schedule[0]);
      line' := RunRefines(Step(Word, s, schedule[0]), Step(Ideal, i, schedule[0]), LineAfter(i, line, schedule[0]),
          schedule[1..]);
    }
  }

  /** On every schedule the 16-bit lock behaves like the unbounded one. */
  lemma WordRefinesIdeal(n: nat, schedule: seq<nat>)
    requires n <= WORD && Legal(n, schedule)
    ensures Refines(Run(Word, Init(n), schedule), Run(Ideal, Init(n), schedule))
  {
    var line := RunRefines(Init(n), Init(n), [], schedule);
  }

  ghost predicate Exclusive(s: State) {
    forall t, u :: 0 <= t < |s.ctx| && 0 <= u < |s.ctx| && s.ctx[t].pc == Inside && s.ctx[u].pc == Inside ==> t == u
  }

  // ---------------------------------------------------------------- too many threads

  function UpTo(k: nat): (r: seq<nat>)
    ensures |r| == k && forall i :: 0 <= i < k ==> r[i] == i
  {
    seq(k, i => i)
  }

  /** The first k threads have drawn a ticket: thread 0 is inside, the others spin. */
  function Drawn(n: nat, k: nat): State
    requires k <= n
  {
    State(0, Wrap(k), seq(n, i => if 0 < i < k then Ctx(Spinning, i) else if i == 0 < k then Ctx(Inside, 0)
        else Ctx(Outside, 0)))
  }

  lemma {:induction false} AllDraw(n: nat, k: nat, j: nat)
    requires j <= k <= n && k <= WORD
    ensures Legal(n, UpTo(k)[j..]) && Run(Word, Drawn(n, j), UpTo(k)[j..]) == Drawn(n, k)
    decreases k - j
  {
    if j < k {
      assert UpTo(k)[j..][0] == j && UpTo(k)[j..][1..] == UpTo(k)[j + 1..];
      assert Step(Word, Drawn(n, j), j) == Drawn(n, j + 1);
      AllDraw(n, k, j + 1);
    }
  }

  lemma {:induction false} RunAppend(w: Width, s: State, schedule: seq<nat>, t: nat)
    requires Legal(|s.ctx|, schedule) && t < |s.ctx|
    ensures Run(w, s, schedule + [t]) == Step(w, Run(w, s, schedule), t)
    decreases |schedule|
  {
    var all := schedule + [t];
    if schedule == [] {
      assert all[0] == t && all[1..] == [];
    } else {
      assert all[0] == schedule[0] && all[1..] == schedule[1..] + [t];
      RunAppend(w, Step(w, s, schedule[0]), schedule[1..], t);
    }
  }

  /** Thread 65536 draws the ticket that thread 0 holds, and enters beside it. */
  lemma WrapAroundEnters(n: nat) returns (schedule: seq<nat>)
    requires n > WORD
    ensures Legal(n, schedule) && !Exclusive(Run(Word, Init(n), schedule))
  {
    var full := UpTo(WORD);
    assert Init(n) == Drawn(n, 0) && full[0..] == full;
    AllDraw(n, WORD, 0);
    schedule := full + [WORD];
    RunAppend(Word, Init(n), full, WORD);
    var s := Run(Word, Init(n), schedule);
    assert s.ctx[0].pc == Inside && s.ctx[WORD].pc == Inside;
  }

  /** The 16-bit ticket lock excludes all its users on every schedule exactly when there are at most 2^16 of them. */
  lemma ExclusiveIffWordSuffices(n: nat)
    ensures n <= WORD <==> forall schedule :: Legal(n, schedule) ==> Exclusive(Run(Word, Init(n), schedule))
  {
    if n <= WORD {
      forall schedule | Legal(n, schedule) ensures Exclusive(Run(Word, Init(n), schedule)) {
        var line := RunRefines(Init(n), Init(n), [], schedule);
      }
    } else {
      var schedule := WrapAroundEnters(n);
    }
  }

  // ---------------------------------------------------------------- order

  function Event(pc: PC, s: State, t: nat): seq<nat>
    requires t < |s.ctx|
  {
    if s.ctx[t].pc == pc then [t] else []
  }

  /** The threads that draw a ticket, respectively release, along the run. */
  function Events(w: Width, pc: PC, s: State, schedule: seq<nat>): seq<nat>
    requires Legal(|s.ctx|, schedule)
    decreases |schedule|
  {
    if schedule == [] then []
    else Event(pc, s, schedule[0]) + Events(w, pc, Step(w, s, schedule[0]), schedule[1..])
  }

  lemma StepShiftsLine(s: State, i: State, line: seq<nat>, t: nat)
    requires Refines(s, i) && InLine(i, line) && t < |s.ctx|
    ensures line + Event(Outside, s, t) == Event(Inside, s, t) + LineAfter(i, line, t)
  {
    if s.ctx[t].pc == Inside { assert line == [t] + line[1..]; }
  }

  lemma {:induction false} LineOverRun(s: State, i: State, line: seq<nat>, schedule: seq<nat>) returns (rest: seq<nat>)
    requires Refines(s, i) && InLine(i, line) && |s.ctx| <= WORD && Legal(|s.ctx|, schedule)
    ensures line + Events(Word, Outside, s, schedule) == Events(Word, Inside, s, schedule) + rest
    decreases |schedule|
  {
    if schedule == [] {
      rest := line;
    } else {
      var t := schedule[0];
      var s', i', line' := Step(Word, s, t), Step(Ideal, i, t), LineAfter(i, line, t);
      StepRefines(s, i, line, t);
      StepKeepsLine(i, line, t);
      StepShiftsLine(s, i, line, t);
      rest := LineOverRun(s', i', line', schedule[1..]);
      Regroup(line, Event(Outside, s, t), Events(Word, Outside, s', schedule[1..]), Event(Inside, s, t), line',
              Events(Word, Inside, s', schedule[1..]), rest);
    }
  }

  /** Threads leave the critical section, hence entered it, in the order of their tickets. */
  lemma FirstComeFirstServed(n: nat, schedule: seq<nat>)
    requires n <= WORD && Legal(n, schedule)
    ensures Events(Word, Inside, Init(n), schedule) <= Events(Word, Outside, Init(n), schedule)
  {
    var rest := LineOverRun(Init(n), Init(n), [], schedule);
    assert [] + Events(Word, Outside, Init(n), schedule) == Events(Word, Outside, Init(n), schedule);
  }

  // ---------------------------------------------------------------- progress

  predicate Holds(s: State, t: nat) { t < |s.ctx| && s.ctx[t].pc != Outside }

  /** The threads whose tickets were drawn before the one of t. */
  function Ahead(s: State, t: nat): set<nat>
    requires t < |s.ctx|
  {
    set u: nat | u < |s.ctx| && Holds(s, u) && Wrap(s.ctx[u].tkt - s.head) < Wrap(s.ctx[t].tkt - s.head)
  }

  lemma Distance(x: int, h: int, j: nat)
    requires x == Wrap(h + j) && j < WORD
    ensures Wrap(x - Wrap(h)) == j
  {
    var a, b := (h + j) / WORD, h / WORD;
    assert h + j == WORD * a + Wrap(h + j) && h == WORD * b + Wrap(h);
    Multiple(x - Wrap(h), b - a, j);
  }

  lemma Multiple(x: int, k: int, j: nat)
    requires x == WORD * k + j && j < WORD
    ensures Wrap(x) == j
  {
  }

  /** The place in the line is the distance of the ticket word from the head word. */
  lemma PlaceInLine(s: State, i: State, line: seq<nat>, j: nat)
    requires Refines(s, i) && InLine(i, line) && |s.ctx| <= WORD && j < |line|
    ensures Holds(s, line[j]) && Wrap(s.ctx[line[j]].tkt - s.head) == j
  {
    LineBound(line, |i.ctx|);
    assert line[j] in line;
    Distance(s.ctx[line[j]].tkt, i.head, j);
  }

  lemma AheadIsPrefix(s: State, i: State, line: seq<nat>, j: nat)
    requires Refines(s, i) && InLine(i, line) && |s.ctx| <= WORD && j < |line|
    ensures Ahead(s, line[j]) == Elements(line[..j])
  {
    PlaceInLine(s, i, line, j);
    forall u: nat ensures u in Ahead(s, line[j]) <==> u in line[..j] {
      if u in line {
        var k :| 0 <= k < |line| && line[k] == u;
        PlaceInLine(s, i, line, k);
        assert k < j ==> line[..j][k] == u;
      }
    }
  }

  /** Where a step leads a thread that is not inside: it enters exactly when nobody holds an earlier ticket. */
  lemma StepEnters(s: State, i: State, line: seq<nat>, t: nat)
    requires Refines(s, i) && InLine(i, line) && t < |s.ctx| <= WORD
    ensures s.ctx[t].pc == Outside ==> (Step(Word, s, t).ctx[t].pc == Inside <==> forall u :: !Holds(s, u))
    ensures s.ctx[t].pc == Spinning ==> (Step(Word, s, t).ctx[t].pc == Inside <==> Ahead(s, t) == {})
    ensures s.ctx[t].pc == Inside ==> Ahead(s, t) == {} && Step(Word, s, t).ctx[t].pc == Outside
  {
    StepRefines(s, i, line, t);
    if t in line {
      var j :| 0 <= j < |line| && line[j] == t;
      AheadIsPrefix(s, i, line, j);
      DistinctSize(line[..j]);
    } else {
      assert line != [] ==> line[0] in line && Holds(s, line[0]);
    }
  }

  /** In every reachable state a thread that takes a step enters if and only if no ticket before its own is out. */
  lemma EntersIffFirst(n: nat, schedule: seq<nat>, t: nat)
    requires n <= WORD && Legal(n, schedule) && t < n
    ensures var s := Run(Word, Init(n), schedule);
            && (s.ctx[t].pc == Outside ==> (Step(Word, s, t).ctx[t].pc == Inside <==> forall u :: !Holds(s, u)))
            && (s.ctx[t].pc == Spinning ==> (Step(Word, s, t).ctx[t].pc == Inside <==> Ahead(s, t) == {}))
            && (s.ctx[t].pc == Inside ==> Ahead(s, t) == {} && Step(Word, s, t).ctx[t].pc == Outside)
  {
    var line := RunRefines(Init(n), Init(n), [], schedule);
    StepEnters(Run(Word, Init(n), schedule), Run(Ideal, Init(n), schedule), line, t);
  }

  /** Inside, or inside after one step of its own. */
  predicate Served(s: State, t: nat) {
    Holds(s, t) && (s.ctx[t].pc == Inside || Step(Word, s, t).ctx[t].pc == Inside)
  }

  /** Whenever a ticket is out, one thread and no other is inside, or enters with its next step. */
  lemma OneIsServed(n: nat, schedule: seq<nat>)
    requires n <= WORD && Legal(n, schedule)
    ensures var s := Run(Word, Init(n), schedule);
            && ((exists t :: Holds(s, t)) ==> exists u :: Served(s, u))
            && forall u, v :: Served(s, u) && Served(s, v) ==> u == v
  {
    var line := RunRefines(Init(n), Init(n), [], schedule);
    var s, i := Run(Word, Init(n), schedule), Run(Ideal, Init(n), schedule);
    if line != [] {
      FirstIsServed(s, i, line);
    }
    forall u | Served(s, u) ensures line != [] && u == line[0] {
      ServedIsFirst(s, i, line, u);
    }
  }

  lemma FirstIsServed(s: State, i: State, line: seq<nat>)
    requires Refines(s, i) && InLine(i, line) && line != [] && |s.ctx| <= WORD
    ensures Served(s, line[0])
  {
    AheadIsPrefix(s, i, line, 0);
    StepEnters(s, i, line, line[0]);
    PlaceInLine(s, i, line, 0);
  }

  lemma ServedIsFirst(s: State, i: State, line: seq<nat>, u: nat)
    requires Refines(s, i) && InLine(i, line) && |s.ctx| <= WORD && Served(s, u)
    ensures line != [] && u == line[0]
  {
    StepEnters(s, i, line, u);
    assert i.ctx[u].pc != Outside;
    var j :| 0 <= j < |line| && line[j] == u;
    AheadIsPrefix(s, i, line, j);
    DistinctSize(line[..j]);
  }

  /** Nobody draws a ticket, the given threads release one after the other, and t is inside at the end. */
  predicate Serves(s: State, schedule: seq<nat>, gone: seq<nat>, t: nat) {
    && Legal(|s.ctx|, schedule) && t < |s.ctx| && Run(Word, s, schedule).ctx[t].pc == Inside
    && Events(Word, Outside, s, schedule) == [] && Events(Word, Inside, s, schedule) == gone
  }

  lemma FirstStep(s: State, h: nat, rest: seq<nat>, gone: seq<nat>, t: nat)
    requires Holds(s, h) && Serves(Step(Word, s, h), rest, gone, t)
    ensures Serves(s, [h] + rest, Event(Inside, s, h) + gone, t)
  {
    assert ([h] + rest)[0] == h && ([h] + rest)[1..] == rest;
  }

  /** Each thread before the given one enters, if it has not yet, and releases. */
  lemma {:induction false} LineIsServed(s: State, i: State, line: seq<nat>, j: nat) returns (schedule: seq<nat>)
    requires Refines(s, i) && InLine(i, line) && |s.ctx| <= WORD && j < |line|
    ensures Serves(s, schedule, line[..j], line[j])
    decreases j, if s.ctx[line[0]].pc == Spinning then 1 else 0
  {
    var h := line[0];
    FirstIsServed(s, i, line);
    if s.ctx[h].pc == Inside && j == 0 {
      schedule := [];
    } else {
      StepRefines(s, i, line, h);
      StepKeepsLine(i, line, h);
      var rest;
      if s.ctx[h].pc == Spinning {
        rest := LineIsServed(Step(Word, s, h), Step(Ideal, i, h), line, j);
        FirstStep(s, h, rest, line[..j], line[j]);
      } else {
        var behind := line[1..];
        rest := LineIsServed(Step(Word, s, h), Step(Ideal, i, h), behind, j - 1);
        FirstStep(s, h, rest, behind[..j - 1], behind[j - 1]);
        assert line[..j] == [h] + behind[..j - 1];
      }
      schedule := [h] + rest;
    }
  }

  /**
   * Threads with tickets alone bring t inside, and exactly as many threads release as there are tickets before the one
   * of t.
   */
  predicate BringsIn(s: State, more: seq<nat>, t: nat) {
    && Legal(|s.ctx|, more) && t < |s.ctx| && Run(Word, s, more).ctx[t].pc == Inside
    && Events(Word, Outside, s, more) == []
    && |Events(Word, Inside, s, more)| == |Ahead(s, t)| == Wrap(s.ctx[t].tkt - s.head)
  }

  lemma HolderIsServed(s: State, i: State, line: seq<nat>, t: nat) returns (more: seq<nat>)
    requires Refines(s, i) && InLine(i, line) && |s.ctx| <= WORD && Holds(s, t)
    ensures BringsIn(s, more, t)
  {
    assert i.ctx[t].pc != Outside;
    var j :| 0 <= j < |line| && line[j] == t;
    more := LineIsServed(s, i, line, j);
    PlaceIsAhead(s, i, line, j);
  }

  lemma PlaceIsAhead(s: State, i: State, line: seq<nat>, j: nat)
    requires Refines(s, i) && InLine(i, line) && |s.ctx| <= WORD && j < |line|
    ensures Holds(s, line[j]) && |line[..j]| == |Ahead(s, line[j])| == Wrap(s.ctx[line[j]].tkt - s.head)
  {
    PlaceInLine(s, i, line, j);
    AheadIsPrefix(s, i, line, j);
    DistinctSize(line[..j]);
  }

  /** After every schedule every thread with a ticket can be brought inside by the threads with tickets alone. */
  lemma EverybodyIsServed(n: nat, schedule: seq<nat>, t: nat) returns (more: seq<nat>)
    requires n <= WORD && Legal(n, schedule) && Holds(Run(Word, Init(n), schedule), t)
    ensures BringsIn(Run(Word, Init(n), schedule), more, t)
  {
    var line := RunRefines(Init(n), Init(n), [], schedule);
    more := HolderIsServed(Run(Word, Init(n), schedule), Run(Ideal, Init(n), schedule), line, t);
  }
}
