/** Arithmetic of the 16-bit ticket counters (`__ticket_t`): every sum is taken modulo 2^16. */
module TicketWords {

  const WORD := 0x1_0000

  function Wrap(x: int): (r: int)
    ensures 0 <= r < WORD
  {
    x % WORD
  }

  predicate Odd(head: int) { head % 2 == 1 }

  /** `head & ~0x1`: the counter without the have-queue bit. */
  function Even(head: int): int { head - head % 2 }

  lemma WrapAdd(x: int, y: int)
    ensures Wrap(Wrap(x) + y) == Wrap(x + y)
  {
  }

  /** Two tickets fewer than 2^15 steps away from the same base are equal only when the steps are. */
  lemma WrapInjective(base: int, a: int, b: int)
    requires 0 <= a <= b && 2 * (b - a) < WORD
    ensures Wrap(base + 2 * a) == Wrap(base + 2 * b) <==> a == b
  {
    var x, y := base + 2 * a, base + 2 * b;
    assert x == WORD * (x / WORD) + x % WORD;
    assert y == WORD * (y / WORD) + y % WORD;
  }

  /** A release adds 2 to the head word: the queue bit stays and the even part moves one ticket on. */
  lemma ReleaseHead(head: int)
    requires 0 <= head < WORD
    ensures Odd(Wrap(head + 2)) == Odd(head)
    ensures Even(Wrap(head + 2)) == Wrap(Even(head) + 2)
    ensures Wrap(Even(head) + 2) - 2 == Even(head) || Wrap(Wrap(Even(head) + 2) - 2) == Even(head)
  {
  }

  /** Two steps of a queue, what joins and what leaves, as one. */
  lemma Regroup(a: seq<nat>, x: seq<nat>, y: seq<nat>, e: seq<nat>, b: seq<nat>, f: seq<nat>, rest: seq<nat>)
    requires a + x == e + b && b + y == f + rest
    ensures a + (x + y) == (e + f) + rest
  {
    assert a + (x + y) == (a + x) + y == e + (b + y);
  }
}
