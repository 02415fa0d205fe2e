/** Sequences without repetition. */
module Sequences {
  ghost predicate Distinct<T>(s: seq<T>) {
    forall i, j :: 0 <= i < j < |s| ==> s[i] != s[j]
  }

  predicate Within(s: seq<nat>, bound: nat) {
    forall i :: 0 <= i < |s| ==> s[i] < bound
  }

  lemma Removed(line: seq<nat>, j: nat, n: nat)
    requires Distinct(line) && Within(line, n) && j < |line| && line[j] == n - 1
    ensures Distinct(line[..j] + line[j + 1..]) && Within(line[..j] + line[j + 1..], n - 1)
  {
    var rest := line[..j] + line[j + 1..];
    forall i | 0 <= i < |rest| ensures rest[i] == line[if i < j then i else i + 1] && rest[i] < n - 1 {
      assert line[if i < j then i else i + 1] != line[j];
    }
  }

  /** Distinct numbers below a bound are no more than the bound. */
  lemma {:induction false} LineBound(line: seq<nat>, n: nat)
    requires Distinct(line) && Within(line, n)
    ensures |line| <= n
    decreases n
  {
    if line != [] {
      assert line[0] < n;
      if n - 1 in line {
        var j :| 0 <= j < |line| && line[j] == n - 1;
        Removed(line, j, n);
        LineBound(line[..j] + line[j + 1..], n - 1);
      } else {
        forall i | 0 <= i < |line| ensures line[i] < n - 1 {
          assert line[i] in line;
        }
        LineBound(line, n - 1);
      }
    }
  }

  function Elements<T>(s: seq<T>): set<T> { set x | x in s }

  /** A sequence without repetition has as many elements as its set. */
  lemma {:induction false} DistinctSize<T>(s: seq<T>)
    requires Distinct(s)
    ensures |Elements(s)| == |s|
  {
    if s != [] {
      var n := |s| - 1;
      DistinctSize(s[..n]);
      assert Elements(s) == Elements(s[..n]) + {s[n]};
    } else {
      assert Elements(s) == {};
    }
  }
}
