/**
 * The range lists of numaplace/numaplace.cc: List prints core numbers as "0-3,7", and string_to_mask
 * sets or clears the cores that such a text names.
 */
module RangeList {
  import opened Sequences

  const NONE := 0xFFFF_FFFF   // ~0U

  datatype Range = Range(first: nat, last: nat)

  predicate InRange(r: Range, i: nat) { r.first <= i <= r.last }

  predicate InSome(rs: seq<Range>, i: nat) { exists k :: 0 <= k < |rs| && InRange(rs[k], i) }

  // ---------------------------------------------------------------- decimal numbers

  predicate IsDigit(c: char) { '0' <= c <= '9' }

  function Digit(d: nat): (c: char)
    requires d < 10
    ensures IsDigit(c)
  {
    '0' + d as char
  }

  /** What printf writes for %u. */
  function Decimal(n: nat): (s: string)
    ensures s != [] && forall i :: 0 <= i < |s| ==> IsDigit(s[i])
  {
    if n < 10 then [Digit(n)] else Decimal(n / 10) + [Digit(n % 10)]
  }

  /** The number that digits stand for. */
  function Value(s: string): nat {
    if s == [] || !IsDigit(s[|s| - 1]) then 0 else 10 * Value(s[..|s| - 1]) + (s[|s| - 1] - '0') as nat
  }

  lemma {:induction false} ValueOfDecimal(n: nat)
    ensures Value(Decimal(n)) == n
  {
    if n >= 10 {
      ValueOfDecimal(n / 10);
      var s := Decimal(n);
      assert s[..|s| - 1] == Decimal(n / 10) && s[|s| - 1] == Digit(n % 10);
    }
  }

  /** How many digits a text starts with. */
  function Digits(s: string): (d: nat)
    ensures d <= |s| && (forall i :: 0 <= i < d ==> IsDigit(s[i])) && (d < |s| ==> !IsDigit(s[d]))
  {
    if s == [] || !IsDigit(s[0]) then 0 else 1 + Digits(s[1..])
  }

  lemma {:induction false} DigitsAre(s: string, d: nat)
    requires d <= |s| && (forall i :: 0 <= i < d ==> IsDigit(s[i])) && (d < |s| ==> !IsDigit(s[d]))
    ensures Digits(s) == d
  {
    if d > 0 {
      assert forall i :: 0 <= i < d - 1 ==> s[1..][i] == s[i + 1];
      DigitsAre(s[1..], d - 1);
    }
  }

  // ---------------------------------------------------------------- printing

  function Element(r: Range): string {
    if r.first == r.last then Decimal(r.first) else Decimal(r.first) + "-" + Decimal(r.last)
  }

  function Print(rs: seq<Range>): string {
    if rs == [] then "" else if |rs| == 1 then Element(rs[0]) else Element(rs[0]) + "," + Print(rs[1..])
  }

  lemma {:induction false} PrintOneMore(rs: seq<Range>, r: Range)
    ensures Print(rs + [r]) == Print(rs) + (if rs == [] then "" else ",") + Element(r)
  {
    if |rs| > 0 {
      assert (rs + [r])[1..] == rs[1..] + [r];
      PrintOneMore(rs[1..], r);
    }
  }

  // ---------------------------------------------------------------- parsing

  /** The conversion of strtoul's result to unsigned; strtoul stops at the largest unsigned long. */
  function Unsigned(v: nat): nat {
    (if v > 0xFFFF_FFFF_FFFF_FFFF then 0xFFFF_FFFF_FFFF_FFFF else v) % 0x1_0000_0000
  }

  function Number(s: string): nat { Unsigned(Value(s[..Digits(s)])) }

  function AfterNumber(s: string): string { s[Digits(s)..] }

  predicate Starts(s: string, c: char) { s != [] && s[0] == c }

  /** The first range of a text, and the text behind it. */
  function FirstRange(s: string): Range {
    var rest := AfterNumber(s);
    if Starts(rest, '-') then Range(Number(s), Number(rest[1..])) else Range(Number(s), Number(s))
  }

  function AfterRange(s: string): (rest: string)
    ensures |rest| <= |s|
  {
    var rest := AfterNumber(s);
    if Starts(rest, '-') then AfterNumber(rest[1..]) else rest
  }

  /** The ranges that a text names; a text without digits names core 0. */
  function Parse(s: string): seq<Range>
    decreases |s|
  {
    var rest := AfterRange(s);
    if Starts(rest, ',') then [FirstRange(s)] + Parse(rest[1..]) else [FirstRange(s)]
  }

  lemma NumberIs(n: nat, rest: string)
    requires n < 0x1_0000_0000 && (rest != [] ==> !IsDigit(rest[0]))
    ensures Number(Decimal(n) + rest) == n && AfterNumber(Decimal(n) + rest) == rest
  {
    var s := Decimal(n) + rest;
    DigitsAre(s, |Decimal(n)|);
    assert s[..|Decimal(n)|] == Decimal(n);
    ValueOfDecimal(n);
  }

  lemma ElementIs(r: Range, rest: string)
    requires r.first < 0x1_0000_0000 && r.last < 0x1_0000_0000 && (rest != [] ==> !IsDigit(rest[0]) && rest[0] != '-')
    ensures FirstRange(Element(r) + rest) == r && AfterRange(Element(r) + rest) == rest
  {
    if r.first == r.last {
      NumberIs(r.first, rest);
    } else {
      var tail := Decimal(r.last) + rest;
      assert Element(r) + rest == Decimal(r.first) + ("-" + tail);
      NumberIs(r.first, "-" + tail);
      assert ("-" + tail)[1..] == tail;
      NumberIs(r.last, rest);
    }
  }

  /** Parsing what was printed gives the same ranges, in the same order. */
  lemma {:induction false} ParsePrint(rs: seq<Range>)
    requires rs != [] && forall k :: 0 <= k < |rs| ==> rs[k].first < 0x1_0000_0000 && rs[k].last < 0x1_0000_0000
    ensures Parse(Print(rs)) == rs
  {
    ParseFirst(rs);
    if |rs| > 1 {
      ParsePrint(rs[1..]);
    }
  }

  lemma ParseFirst(rs: seq<Range>)
    requires rs != [] && rs[0].first < 0x1_0000_0000 && rs[0].last < 0x1_0000_0000
    ensures FirstRange(Print(rs)) == rs[0]
    ensures AfterRange(Print(rs)) == if |rs| == 1 then "" else "," + Print(rs[1..])
    ensures Parse(Print(rs)) == [rs[0]] + if |rs| == 1 then [] else Parse(Print(rs[1..]))
  {
    PrintSplits(rs);
    if |rs| == 1 {
      ElementIs(rs[0], "");
      ParseLast(Print(rs));
    } else {
      ElementIs(rs[0], "," + Print(rs[1..]));
      ParseMore(Print(rs), Print(rs[1..]));
    }
  }

  lemma PrintSplits(rs: seq<Range>)
    requires rs != []
    ensures Print(rs) == Element(rs[0]) + if |rs| == 1 then "" else "," + Print(rs[1..])
  {
  }

  lemma ParseLast(s: string)
    requires AfterRange(s) == ""
    ensures Parse(s) == [FirstRange(s)]
  {
  }

  lemma ParseMore(s: string, tail: string)
    requires AfterRange(s) == "," + tail
    ensures Parse(s) == [FirstRange(s)] + Parse(tail)
  {
    assert ("," + tail)[1..] == tail;
  }

  /** The text of an empty list names core 0. */
  lemma EmptyTextIsCoreZero()
    ensures Print([]) == "" && Parse("") == [Range(0, 0)]
  {
  }

  // ---------------------------------------------------------------- runs of consecutive numbers

  /** The numbers of the ranges, one range after the other. */
  function Expand(rs: seq<Range>): seq<nat> {
    if rs == [] then [] else Expand(rs[..|rs| - 1]) + Numbers(rs[|rs| - 1])
  }

  function Numbers(r: Range): seq<nat> { UpFrom(r.first, if r.first <= r.last then r.last - r.first + 1 else 0) }

  function UpFrom(a: nat, n: nat): (s: seq<nat>)
    ensures |s| == n && forall i :: 0 <= i < n ==> s[i] == a + i
  {
    if n == 0 then [] else UpFrom(a, n - 1) + [a + n - 1]
  }

  /**
   * The numbers, in their order, are cut into ranges that count up, and no range goes on where the one before it ends:
   * no two of them could be one.
   */
  ghost predicate MaximalRuns(rs: seq<Range>, xs: seq<nat>) {
    && Expand(rs) == xs
    && (forall k :: 0 <= k < |rs| ==> rs[k].first <= rs[k].last)
    && (forall k, m :: 0 <= k < m < |rs| && m == k + 1 ==> rs[k].last + 1 != rs[m].first)
  }

  /** A number that does not follow the last one starts a range. */
  lemma RunStarts(rs: seq<Range>, xs: seq<nat>, x: nat)
    requires MaximalRuns(rs, xs) && (rs != [] ==> x != rs[|rs| - 1].last + 1)
    ensures MaximalRuns(rs + [Range(x, x)], xs + [x])
  {
    assert (rs + [Range(x, x)])[..|rs|] == rs;
    assert Numbers(Range(x, x)) == [x];
  }

  /** One that does makes the last range longer. */
  lemma RunGrows(rs: seq<Range>, r: Range, xs: seq<nat>)
    requires MaximalRuns(rs + [r], xs)
    ensures MaximalRuns(rs + [Range(r.first, r.last + 1)], xs + [r.last + 1])
  {
    var longer := Range(r.first, r.last + 1);
    assert (rs + [r])[|rs|] == r && (rs + [r])[..|rs|] == rs && (rs + [longer])[..|rs|] == rs;
    assert Numbers(longer) == Numbers(r) + [r.last + 1];
    assert rs != [] ==> (rs + [r])[|rs| - 1].last + 1 != (rs + [r])[|rs|].first;
  }

  /** The ranges name exactly the numbers that they were made of. */
  lemma {:induction false} RunsName(rs: seq<Range>)
    ensures forall i: nat :: InSome(rs, i) <==> i in Expand(rs)
  {
    if rs != [] {
      var most, r := rs[..|rs| - 1], rs[|rs| - 1];
      RunsName(most);
      assert rs == most + [r];
      InOneMore(most, r);
      forall i: nat ensures InRange(r, i) <==> i in Numbers(r) {
        if InRange(r, i) { assert Numbers(r)[i - r.first] == i; }
      }
    }
  }

  lemma LastOf(rs: seq<Range>, xs: seq<nat>)
    requires rs != [] && MaximalRuns(rs, xs)
    ensures var most, r := rs[..|rs| - 1], rs[|rs| - 1];
            && MaximalRuns(most, Expand(most)) && xs == Expand(most) + Numbers(r)
            && |Numbers(r)| == r.last - r.first + 1 && xs[|xs| - 1] == r.last
            && (most != [] ==> Expand(most) != [] && Expand(most)[|Expand(most)| - 1] + 1 != r.first)
  {
    var most := rs[..|rs| - 1];
    if most != [] {
      var before := most[|most| - 1];
      assert before == rs[|rs| - 2];
      assert Expand(most) == Expand(most[..|most| - 1]) + Numbers(before);
    }
  }

  lemma SameRest(a: seq<nat>, b: seq<nat>, n: seq<nat>)
    requires a + n == b + n
    ensures a == b
  {
    assert a == (a + n)[..|a|] && b == (b + n)[..|b|];
  }

  /** There is only one way to cut numbers into maximal runs. */
  lemma {:induction false} RunsAreUnique(rs: seq<Range>, qs: seq<Range>, xs: seq<nat>)
    requires MaximalRuns(rs, xs) && MaximalRuns(qs, xs)
    ensures rs == qs
    decreases |rs|
  {
    if rs != [] && qs != [] {
      SameEnd(rs, qs, xs);
      var less := Expand(rs[..|rs| - 1]);
      RunsAreUnique(rs[..|rs| - 1], qs[..|qs| - 1], less);
      assert rs == rs[..|rs| - 1] + [rs[|rs| - 1]] && qs == qs[..|qs| - 1] + [qs[|qs| - 1]];
    } else if rs != [] {
      LastOf(rs, xs);
    } else if qs != [] {
      LastOf(qs, xs);
    }
  }

  lemma SameEnd(rs: seq<Range>, qs: seq<Range>, xs: seq<nat>)
    requires rs != [] && qs != [] && MaximalRuns(rs, xs) && MaximalRuns(qs, xs)
    ensures rs[|rs| - 1] == qs[|qs| - 1]
    ensures MaximalRuns(rs[..|rs| - 1], Expand(rs[..|rs| - 1])) && MaximalRuns(qs[..|qs| - 1], Expand(rs[..|rs| - 1]))
  {
    LastOf(rs, xs);
    LastOf(qs, xs);
    NotLonger(rs, qs, xs);
    NotLonger(qs, rs, xs);
    SameRest(Expand(rs[..|rs| - 1]), Expand(qs[..|qs| - 1]), Numbers(rs[|rs| - 1]));
  }

  /** The last range of one list does not start after the last range of another. */
  lemma NotLonger(rs: seq<Range>, qs: seq<Range>, xs: seq<nat>)
    requires rs != [] && qs != [] && MaximalRuns(rs, xs) && MaximalRuns(qs, xs)
    ensures qs[|qs| - 1].last == rs[|rs| - 1].last && qs[|qs| - 1].first >= rs[|rs| - 1].first
  {
    LastOf(rs, xs);
    LastOf(qs, xs);
    var r, q := rs[|rs| - 1], qs[|qs| - 1];
    if q.first < r.first {
      LongerTail(Expand(rs[..|rs| - 1]), r, Expand(qs[..|qs| - 1]), q, xs);
    }
  }

  lemma LongerTail(a: seq<nat>, r: Range, b: seq<nat>, q: Range, xs: seq<nat>)
    requires xs == a + Numbers(r) == b + Numbers(q) && q.first < r.first <= r.last == q.last
    ensures a != [] && a[|a| - 1] + 1 == r.first
  {
    assert xs[|a| - 1] == a[|a| - 1];
  }

  ghost predicate Increasing(xs: seq<nat>) { forall i, j :: 0 <= i < j < |xs| ==> xs[i] < xs[j] }

  /** Between one range and the next there is a number that is in neither. */
  ghost predicate Separated(rs: seq<Range>) {
    && (forall k :: 0 <= k < |rs| ==> rs[k].first <= rs[k].last)
    && forall k, m :: 0 <= k < m < |rs| ==> rs[k].last + 1 < rs[m].first
  }

  lemma SeparatedMore(rs: seq<Range>, r: Range)
    requires Separated(rs) && r.first <= r.last && (rs != [] ==> rs[|rs| - 1].last + 1 < r.first)
    ensures Separated(rs + [r])
  {
    forall k | 0 <= k < |rs| ensures rs[k].last + 1 < r.first {
      assert k < |rs| - 1 ==> rs[k].last + 1 < rs[|rs| - 1].first;
    }
  }

  lemma FirstsIncrease(xs: seq<nat>, ys: seq<nat>, zs: seq<nat>)
    requires Increasing(xs) && xs == ys + zs
    ensures Increasing(ys) && (ys != [] && zs != [] ==> ys[|ys| - 1] < zs[0])
  {
    assert forall i :: 0 <= i < |ys| ==> ys[i] == xs[i];
    assert zs != [] ==> zs[0] == xs[|ys|];
  }

  /** The maximal runs of increasing numbers are separated. */
  lemma {:induction false} RunsSeparated(rs: seq<Range>, xs: seq<nat>)
    requires MaximalRuns(rs, xs) && Increasing(xs)
    ensures Separated(rs)
    decreases |rs|
  {
    if rs != [] {
      LastOf(rs, xs);
      var most, r := rs[..|rs| - 1], rs[|rs| - 1];
      FirstsIncrease(xs, Expand(most), Numbers(r));
      RunsSeparated(most, Expand(most));
      if most != [] {
        LastOf(most, Expand(most));
      }
      SeparatedMore(most, r);
      assert rs == most + [r];
    }
  }

  ghost predicate SameNumbers(rs: seq<Range>, qs: seq<Range>) {
    forall i: nat :: InSome(rs, i) <==> InSome(qs, i)
  }

  /** The range of qs that has the first number of range k of rs. */
  ghost function Home(rs: seq<Range>, qs: seq<Range>, k: nat): (h: nat)
    requires SameNumbers(rs, qs) && Separated(rs) && k < |rs|
    ensures h < |qs| && InRange(qs[h], rs[k].first)
  {
    assert InRange(rs[k], rs[k].first);
    assert InSome(qs, rs[k].first);
    var h: nat :| h < |qs| && InRange(qs[h], rs[k].first);
    h
  }

  lemma HomesDiffer(rs: seq<Range>, qs: seq<Range>, k: nat, m: nat)
    requires SameNumbers(rs, qs) && Separated(rs) && k < m < |rs|
    ensures Home(rs, qs, k) != Home(rs, qs, m)
  {
    var gap := rs[k].last + 1;
    assert forall j :: 0 <= j < |rs| ==> !InRange(rs[j], gap);
    assert !InSome(qs, gap);
  }

  /** No list of ranges of the same numbers, in whatever order, is shorter than a separated one. */
  lemma SeparatedIsShortest(rs: seq<Range>, qs: seq<Range>)
    requires SameNumbers(rs, qs) && Separated(rs)
    ensures |rs| <= |qs|
  {
    var homes := seq(|rs|, k requires 0 <= k < |rs| => Home(rs, qs, k));
    forall k, m | 0 <= k < m < |homes| ensures homes[k] != homes[m] {
      HomesDiffer(rs, qs, k, m);
    }
    LineBound(homes, |qs|);
  }

  // ---------------------------------------------------------------- List

  predicate Small(rs: seq<Range>) {
    forall k :: 0 <= k < |rs| ==> rs[k].first < NONE && rs[k].last < NONE - 1
  }

  /** The ranges that are in the text: all but the last run, which may still grow. */
  function Closed(printed: seq<Range>, runs: seq<Range>): seq<Range> {
    if runs == [] then printed else printed + runs[..|runs| - 1]
  }

  /** printed are the ranges of earlier texts, added the numbers since then. */
  ghost predicate Ok(text: string, first_elem: bool, start: nat, end: nat, printed: seq<Range>, added: seq<nat>,
                     runs: seq<Range>) {
    && text == Print(Closed(printed, runs)) && (first_elem <==> Closed(printed, runs) == [])
    && MaximalRuns(runs, added) && (start == NONE <==> runs == [])
    && (runs != [] ==> runs[|runs| - 1] == Range(start, end))
    && Small(printed) && Small(runs)
  }

  lemma StartOk(text: string, first_elem: bool, end: nat, printed: seq<Range>, added: seq<nat>, next: nat)
    requires Ok(text, first_elem, NONE, end, printed, added, []) && next < NONE - 1
    ensures added == [] && Ok(text, first_elem, next, next, printed, [next], [Range(next, next)])
  {
    RunStarts([], [], next);
    var runs := [Range(next, next)];
    assert [] + runs == runs && [] + [next] == [next] && runs[..0] == [] && printed + [] == printed;
  }

  lemma NoneOk(text: string, first_elem: bool, end: nat, end': nat, printed: seq<Range>, added: seq<nat>)
    requires Ok(text, first_elem, NONE, end, printed, added, [])
    ensures Ok(text, first_elem, NONE, end', printed, added, []) && text == Print(printed)
    ensures added == [] && Grown(printed, added, printed)
  {
    assert printed[|printed|..] == [];
  }

  lemma GrowOk(text: string, first_elem: bool, start: nat, end: nat, printed: seq<Range>, added: seq<nat>,
               runs: seq<Range>, next: nat, all: seq<nat>, longer: seq<Range>)
    requires Ok(text, first_elem, start, end, printed, added, runs) && start != NONE && next == end + 1 < NONE - 1
    requires all == added + [next] && longer == runs[..|runs| - 1] + [Range(start, next)]
    ensures Ok(text, first_elem, start, next, printed, all, longer)
  {
    var most := runs[..|runs| - 1];
    LastGrows(most, start, end, added, runs);
    assert longer[..|most|] == most;
  }

  lemma LastGrows(most: seq<Range>, start: nat, end: nat, added: seq<nat>, runs: seq<Range>)
    requires runs != [] && runs[|runs| - 1] == Range(start, end) && most == runs[..|runs| - 1]
    requires MaximalRuns(runs, added) && Small(runs) && end + 1 < NONE - 1
    ensures MaximalRuns(most + [Range(start, end + 1)], added + [end + 1])
    ensures Small(most + [Range(start, end + 1)])
  {
    assert runs == most + [Range(start, end)];
    RunGrows(most, Range(start, end), added);
    assert forall k :: 0 <= k < |most| ==> most[k] == runs[k];
  }

  lemma NextOk(text: string, first_elem: bool, start: nat, end: nat, printed: seq<Range>, added: seq<nat>,
               runs: seq<Range>, next: nat)
    requires Ok(text, first_elem, start, end, printed, added, runs) && start != NONE
    requires next != end + 1 && next < NONE - 1
    ensures Ok(Print(printed + runs), false, next, next, printed, added + [next], runs + [Range(next, next)])
  {
    RunStarts(runs, added, next);
    assert (runs + [Range(next, next)])[..|runs|] == runs;
  }

  lemma CloseOk(text: string, first_elem: bool, start: nat, end: nat, printed: seq<Range>, added: seq<nat>,
                runs: seq<Range>)
    requires Ok(text, first_elem, start, end, printed, added, runs) && start != NONE
    ensures Ok(Print(printed + runs), false, NONE, NONE, printed + runs, [], [])
    ensures Grown(printed, added, printed + runs)
  {
    assert (printed + runs)[|printed|..] == runs;
  }

  /** The ranges of the numbers come behind the ones that were there. */
  ghost predicate Grown(was: seq<Range>, xs: seq<nat>, now: seq<Range>) {
    was <= now && MaximalRuns(now[|was|..], xs)
  }

  /** What adding a number changes: it joins the others, and the sentinel closes what was added so far. */
  ghost predicate Took(was: seq<Range>, xs: seq<nat>, next: nat, text: string, now: seq<Range>, ys: seq<nat>) {
    if next == NONE then ys == [] && text == Print(now) && Grown(was, xs, now) else now == was && ys == xs + [next]
  }

  lemma GrownNames(was: seq<Range>, xs: seq<nat>, now: seq<Range>)
    requires Grown(was, xs, now)
    ensures forall i: nat :: InSome(now, i) <==> InSome(was, i) || i in xs
    ensures xs == [] ==> now == was
  {
    var rs := now[|was|..];
    RunsName(rs);
    InBoth(was, rs);
    assert now == was + rs;
    if xs == [] { RunsAreUnique(rs, [], []); }
  }

  lemma RestartOk(text: string, first_elem: bool, start: nat, end: nat, printed: seq<Range>, added: seq<nat>,
                  runs: seq<Range>, next: nat, shown: seq<Range>)
      returns (now: seq<Range>, all: seq<nat>, more: seq<Range>)
    requires Ok(text, first_elem, start, end, printed, added, runs) && start != NONE && next != end + 1
    requires shown == printed + runs && (next < NONE - 1 || next == NONE)
    ensures Ok(Print(shown), false, next, next, now, all, more) && Took(printed, added, next, Print(shown), now, all)
  {
    if next == NONE {
      CloseOk(text, first_elem, start, end, printed, added, runs);
      now, all, more := shown, [], [];
    } else {
      NextOk(text, first_elem, start, end, printed, added, runs, next);
      now, all, more := printed, added + [next], runs + [Range(next, next)];
    }
  }

  lemma ClosedAndOpen(printed: seq<Range>, runs: seq<Range>)
    requires runs != []
    ensures printed + runs == Closed(printed, runs) + [runs[|runs| - 1]]
  {
  }

  /**
   * The text that the list prints, and the range that is not printed yet; range_start is NONE when there is none. For
   * the proofs: the ranges printed up to the last call of Str, the numbers added since, and their runs.
   */
  class List {
    var text: string
    var range_start: nat
    var range_end: nat
    var first_elem: bool
    ghost var printed: seq<Range>
    ghost var added: seq<nat>
    ghost var runs: seq<Range>

    ghost predicate Valid()
      reads this
    {
      Ok(text, first_elem, range_start, range_end, printed, added, runs)
    }

    /** The numbers that were added. */
    ghost predicate Listed(i: nat)
      reads this
    {
      InSome(printed, i) || i in added
    }

    constructor ()
      ensures Valid() && printed == [] && added == [] && text == ""
    {
      text, range_start, range_end, first_elem := "", NONE, NONE, true;
      printed, added, runs := [], [], [];
    }

    /** Lines 60-82. Any order will do; the number NONE closes the range. */
    method Add(next: nat)
      requires Valid() && (next < NONE - 1 || next == NONE)
      modifies this
      ensures Valid()
      ensures next != NONE ==> printed == old(printed) && added == old(added) + [next]
      ensures next == NONE ==> added == [] && text == Print(printed)
      ensures next == NONE ==> Grown(old(printed), old(added), printed)
    {
      if range_start == NONE {
        First(next);
        return;
      }
      if next == range_end + 1 {
        Extend(next);
        return;
      }
      Restart(next);
    }

    /** Lines 63-66. */
    method First(next: nat)
      requires Valid() && (next < NONE - 1 || next == NONE) && range_start == NONE
      modifies this
      ensures Valid() && Took(old(printed), old(added), next, text, printed, added)
    {
      if next == NONE {
        NoneOk(text, first_elem, range_end, next, printed, added);
      } else {
        StartOk(text, first_elem, range_end, printed, added, next);
        added, runs := [next], [Range(next, next)];
      }
      range_start, range_end := next, next;
    }

    /** Lines 68-71. */
    method Extend(next: nat)
      requires Valid() && next < NONE - 1 && range_start != NONE && next == range_end + 1
      modifies this
      ensures Valid() && Took(old(printed), old(added), next, text, printed, added)
    {
      ghost var all, longer := added + [next], runs[..|runs| - 1] + [Range(range_start, next)];
      GrowOk(text, first_elem, range_start, range_end, printed, added, runs, next, all, longer);
      added, runs, range_end := all, longer, next;
    }

    /** Lines 73-81. */
    method Restart(next: nat)
      requires Valid() && (next < NONE - 1 || next == NONE) && range_start != NONE && next != range_end + 1
      modifies this
      ensures Valid() && Took(old(printed), old(added), next, text, printed, added)
    {
      ghost var shown := printed + runs;
      ghost var now, all, more;
      now, all, more := RestartOk(text, first_elem, range_start, range_end, printed, added, runs, next, shown);
      PrintRange(shown);
      printed, added, runs, range_start, range_end := now, all, more, next, next;
    }

    /** Lines 74-80: the open range is printed. */
    method PrintRange(ghost shown: seq<Range>)
      requires Valid() && range_start != NONE && shown == printed + runs
      modifies this`text, this`first_elem
      ensures text == Print(shown) && !first_elem
    {
      PrintOneMore(Closed(printed, runs), Range(range_start, range_end));
      ClosedAndOpen(printed, runs);
      var comma := if first_elem then "" else ",";
      if range_start == range_end {
        text := text + comma + Decimal(range_start);
      } else {
        text := text + comma + (Decimal(range_start) + "-" + Decimal(range_end));
      }
      first_elem := false;
    }

    /** Lines 87-88. */
    method AddMember(cpuset: seq<bool>, i: nat, ghost was: seq<nat>)
      requires Valid() && i < NONE - 1 && Joined(was, cpuset, i, added)
      modifies this
      ensures Valid() && printed == old(printed) && Joined(was, cpuset, i + 1, added)
    {
      CoresGrow(was, cpuset, i, added);
      if i < |cpuset| && cpuset[i] {
        Add(i);
      }
    }

    /** Lines 84-89: every core of a set, in increasing order. */
    method AddSet(cpuset: seq<bool>, lim: nat)
      requires Valid() && lim < NONE
      modifies this
      ensures Valid() && printed == old(printed) && added == old(added) + Cores(cpuset, lim)
    {
      ghost var was, before := added, printed;
      var i := 0;
      while i < lim
        invariant i <= lim && Valid() && printed == before && Joined(was, cpuset, i, added)
      {
        AddMember(cpuset, i, was);
        i := i + 1;
      }
    }

    /** Lines 91-97. The text is the print of the maximal runs of what was added, and asking again gives the same. */
    method Str() returns (s: string)
      requires Valid()
      modifies this
      ensures Valid() && s == text == Print(printed) && added == []
      ensures Grown(old(printed), old(added), printed)
      ensures forall i: nat :: InSome(printed, i) <==> old(Listed(i))
      ensures old(added) == [] ==> printed == old(printed)
    {
      Add(NONE);
      s := text;
      GrownNames(old(printed), old(added), printed);
    }
  }

  /** The set bits below a limit, in increasing order. */
  function Cores(cpuset: seq<bool>, lim: nat): seq<nat> {
    if lim == 0 then []
    else Cores(cpuset, lim - 1) + if lim - 1 < |cpuset| && cpuset[lim - 1] then [lim - 1] else []
  }

  ghost predicate Joined(was: seq<nat>, cpuset: seq<bool>, i: nat, xs: seq<nat>) {
    xs == was + Cores(cpuset, i)
  }

  lemma CoresGrow(was: seq<nat>, cpuset: seq<bool>, i: nat, xs: seq<nat>)
    requires Joined(was, cpuset, i, xs)
    ensures Joined(was, cpuset, i + 1, if i < |cpuset| && cpuset[i] then xs + [i] else xs)
  {
    assert was + (Cores(cpuset, i) + [i]) == xs + [i];
  }

  lemma {:induction false} CoresIncrease(cpuset: seq<bool>, lim: nat)
    ensures Increasing(Cores(cpuset, lim))
    ensures forall i: nat :: i in Cores(cpuset, lim) <==> i < lim && i < |cpuset| && cpuset[i]
  {
    if lim > 0 {
      CoresIncrease(cpuset, lim - 1);
      var less := Cores(cpuset, lim - 1);
      forall i | 0 <= i < |less| ensures less[i] < lim - 1 {
        assert less[i] in less;
      }
    }
  }

  /** The text of the ranges is the shortest that names exactly the numbers of the set below the limit. */
  ghost predicate Shortest(rs: seq<Range>, cpuset: seq<bool>, lim: nat) {
    && Separated(rs)
    && (forall i: nat :: InSome(rs, i) <==> i < lim && i < |cpuset| && cpuset[i])
    && forall qs :: SameNumbers(rs, qs) ==> |rs| <= |qs|
  }

  lemma CoresShortest(rs: seq<Range>, cpuset: seq<bool>, lim: nat)
    requires MaximalRuns(rs, Cores(cpuset, lim))
    ensures Shortest(rs, cpuset, lim)
  {
    CoresIncrease(cpuset, lim);
    RunsSeparated(rs, Cores(cpuset, lim));
    RunsName(rs);
    forall qs | SameNumbers(rs, qs) ensures |rs| <= |qs| {
      SeparatedIsShortest(rs, qs);
    }
  }

  /** Lines 547-552: the text for a set, asked for twice. */
  method SetText(cpuset: seq<bool>, lim: nat) returns (text: string, again: string)
    requires lim < NONE
    ensures again == text && exists rs :: Shortest(rs, cpuset, lim) && text == Print(rs)
  {
    var list := new List();
    list.AddSet(cpuset, lim);
    ghost var xs := list.added;
    assert xs == Cores(cpuset, lim);
    text := list.Str();
    ghost var rs := list.printed;
    assert rs[0..] == rs;
    CoresShortest(rs, cpuset, lim);
    again := list.Str();
  }

  lemma InBoth(rs: seq<Range>, qs: seq<Range>)
    ensures forall i: nat :: InSome(rs + qs, i) <==> InSome(rs, i) || InSome(qs, i)
  {
    forall i: nat | InSome(rs, i) || InSome(qs, i) ensures InSome(rs + qs, i) {
      if k :| 0 <= k < |rs| && InRange(rs[k], i) {
        assert (rs + qs)[k] == rs[k];
      } else {
        var k :| 0 <= k < |qs| && InRange(qs[k], i);
        assert (rs + qs)[|rs| + k] == qs[k];
      }
    }
  }

  lemma InOneMore(rs: seq<Range>, r: Range)
    ensures forall i :: InSome(rs + [r], i) <==> InSome(rs, i) || InRange(r, i)
  {
    forall i | InSome(rs, i) ensures InSome(rs + [r], i) {
      var k :| 0 <= k < |rs| && InRange(rs[k], i);
      assert (rs + [r])[k] == rs[k];
    }
    forall i | InRange(r, i) ensures InSome(rs + [r], i) {
      assert (rs + [r])[|rs|] == r;
    }
  }

  // ---------------------------------------------------------------- string_to_mask

  datatype Op = OpSet | OpClear

  /** No range goes up to the largest unsigned, where the loop of line 156 would not end. */
  predicate Finite(s: string)
    decreases |s|
  {
    && (Starts(AfterNumber(s), '-') ==> Number(AfterNumber(s)[1..]) < NONE)
    && (Starts(AfterRange(s), ',') ==> Finite(AfterRange(s)[1..]))
  }

  lemma OneMoreDigit(text: string, pos: nat, pos': nat)
    requires pos <= pos' < |text| && IsDigit(text[pos'])
    ensures Value(text[pos..pos' + 1]) == 10 * Value(text[pos..pos']) + (text[pos'] - '0') as nat
  {
    var s := text[pos..pos' + 1];
    assert s[..|s| - 1] == text[pos..pos'] && s[|s| - 1] == text[pos'];
  }

  lemma NumberAt(text: string, pos: nat, pos': nat)
    requires pos <= pos' <= |text| && (forall i :: pos <= i < pos' ==> IsDigit(text[i]))
    requires pos' < |text| ==> !IsDigit(text[pos'])
    ensures Number(text[pos..]) == Unsigned(Value(text[pos..pos'])) && AfterNumber(text[pos..]) == text[pos'..]
  {
    var s := text[pos..];
    DigitsAre(s, pos' - pos);
    assert s[..pos' - pos] == text[pos..pos'] && s[pos' - pos..] == text[pos'..];
  }

  /** strtoul, for texts without white space or signs; the result is converted to unsigned. */
  method Strtoul(text: string, pos: nat) returns (v: nat, pos': nat)
    requires pos <= |text|
    ensures pos <= pos' <= |text| && v == Number(text[pos..]) && text[pos'..] == AfterNumber(text[pos..])
  {
    pos' := pos;
    var value := 0;
    while pos' < |text| && IsDigit(text[pos'])
      invariant pos <= pos' <= |text| && value == Value(text[pos..pos'])
      invariant forall i :: pos <= i < pos' ==> IsDigit(text[i])
    {
      OneMoreDigit(text, pos, pos');
      value := 10 * value + (text[pos'] - '0') as nat;
      pos' := pos' + 1;
    }
    NumberAt(text, pos, pos');
    v := Unsigned(value);
  }

  /** CPU_SET_S or CPU_CLR_S for every number from a to b; numbers beyond the mask are ignored. */
  method ApplyRange(mask: array<bool>, a: nat, b: nat, op: Op)
    modifies mask
    ensures forall i :: 0 <= i < mask.Length ==> mask[i] == if a <= i <= b then op.OpSet? else old(mask[i])
  {
    var i := a;
    while i <= b
      invariant a <= i && (i <= b + 1 || i == a)
      invariant forall j :: 0 <= j < mask.Length ==> mask[j] == if a <= j < i then op.OpSet? else old(mask[j])
      decreases b + 1 - i
    {
      if i < mask.Length {
        mask[i] := op.OpSet?;
      }
      i := i + 1;
    }
  }

  /** The mask after the ranges were set or cleared. */
  ghost predicate Applied(was: seq<bool>, now: seq<bool>, rs: seq<Range>, op: Op) {
    |now| == |was| && forall i :: 0 <= i < |was| ==> now[i] == if InSome(rs, i) then op.OpSet? else was[i]
  }

  lemma AppliedOneMore(was: seq<bool>, now: seq<bool>, next: seq<bool>, rs: seq<Range>, r: Range, op: Op)
    requires Applied(was, now, rs, op) && |next| == |now|
    requires forall i :: 0 <= i < |now| ==> next[i] == if InRange(r, i) then op.OpSet? else now[i]
    ensures Applied(was, next, rs + [r], op)
  {
    InOneMore(rs, r);
  }

  lemma RestAfter(text: string, pos: nat, rest: string)
    requires pos <= |text| && text[pos..] == rest
    ensures pos < |text| && text[pos] == '-' <==> Starts(rest, '-')
    ensures Starts(rest, '-') ==> rest[1..] == text[pos + 1..]
  {
  }

  /** Lines 151-155: one range of the text, which s is the rest of. */
  method ReadRange(text: string, pos: nat, ghost s: string) returns (pos': nat, a: nat, b: nat)
    requires pos <= |text| && s == text[pos..]
    ensures pos <= pos' <= |text| && text[pos'..] == AfterRange(s) && Range(a, b) == FirstRange(s)
  {
    a, pos' := Strtoul(text, pos);
    b := a;
    RestAfter(text, pos', AfterNumber(s));
    if pos' < |text| && text[pos'] == '-' {
      b, pos' := Strtoul(text, pos' + 1);
    }
  }

  /** Lines 151-159: it is set or cleared. */
  method OneRange(text: string, pos: nat, mask: array<bool>, op: Op, ghost s: string)
        returns (pos': nat, ghost r: Range)
    requires pos <= |text| && s == text[pos..]
    modifies mask
    ensures pos <= pos' <= |text| && text[pos'..] == AfterRange(s) && r == FirstRange(s)
    ensures forall i :: 0 <= i < mask.Length ==> mask[i] == if InRange(r, i) then op.OpSet? else old(mask[i])
  {
    var a, b;
    pos', a, b := ReadRange(text, pos, s);
    r := Range(a, b);
    ApplyRange(mask, a, b, op);
  }

  method NextRange(text: string, pos: nat, mask: array<bool>, op: Op, ghost s: string, ghost was: seq<bool>,
                   ghost done: seq<Range>)
      returns (pos': nat)
    requires pos <= |text| && s == text[pos..] && Applied(was, mask[..], done, op)
    modifies mask
    ensures pos <= pos' <= |text| && text[pos'..] == AfterRange(s)
    ensures Applied(was, mask[..], done + [FirstRange(s)], op)
  {
    ghost var now, r := mask[..], FirstRange(s);
    pos', r := OneRange(text, pos, mask, op, s);
    AppliedOneMore(was, now, mask[..], done, r, op);
  }

  lemma RestOfText(text: string, pos: nat, s: string)
    requires pos <= |text| && text[pos..] == AfterRange(s)
    ensures pos < |text| && text[pos] == ',' <==> Starts(AfterRange(s), ',')
    ensures Starts(AfterRange(s), ',') ==> AfterRange(s)[1..] == text[pos + 1..]
  {
  }

  /** done are the ranges of the text before s. */
  ghost predicate Before(text: string, done: seq<Range>, s: string) {
    Finite(s) && Parse(text) == done + Parse(s)
  }

  lemma NextBefore(text: string, done: seq<Range>, s: string)
    requires Before(text, done, s)
    ensures if Starts(AfterRange(s), ',') then Before(text, done + [FirstRange(s)], AfterRange(s)[1..])
            else Parse(text) == done + [FirstRange(s)]
  {
    if Starts(AfterRange(s), ',') {
      MoreBefore(text, done, s, FirstRange(s), AfterRange(s)[1..]);
    }
  }

  lemma MoreBefore(text: string, done: seq<Range>, s: string, r: Range, rest: string)
    requires Before(text, done, s) && r == FirstRange(s) && Starts(AfterRange(s), ',') && rest == AfterRange(s)[1..]
    ensures Before(text, done + [r], rest)
  {
    ParseMore(s, rest);
    Regroup(done, r, Parse(rest));
  }

  lemma Regroup(done: seq<Range>, r: Range, rest: seq<Range>)
    ensures done + ([r] + rest) == (done + [r]) + rest
  {
  }

  /** Where the loop stands: the ranges in done are applied, and s is the rest of the text, if any. */
  ghost predicate Standing(text: string, pos: nat, more: bool, s: string, done: seq<Range>) {
    pos <= |text| && if more then s == text[pos..] && Before(text, done, s) else Parse(text) == done
  }

  /** One turn of the loop (lines 150-160). */
  method Turn(text: string, pos: nat, mask: array<bool>, op: Op, ghost s: string, ghost was: seq<bool>,
              ghost done: seq<Range>)
      returns (pos': nat, more: bool, ghost s': string, ghost done': seq<Range>)
    requires Standing(text, pos, true, s, done) && Applied(was, mask[..], done, op)
    modifies mask
    ensures Standing(text, pos', more, s', done') && Applied(was, mask[..], done', op) && (more ==> pos' > pos)
  {
    pos' := NextRange(text, pos, mask, op, s, was, done);
    NextBefore(text, done, s);
    RestOfText(text, pos', s);
    done' := done + [FirstRange(s)];
    more := pos' < |text| && text[pos'] == ',';
    s' := s;
    if more {
      pos' := pos' + 1;
      s' := AfterRange(s)[1..];
    }
  }

  /** Lines 148-161. */
  method StringToMask(text: string, mask: array<bool>, op: Op)
    requires Finite(text)
    modifies mask
    ensures Applied(old(mask[..]), mask[..], Parse(text), op)
  {
    var pos, more := 0, true;
    ghost var was, done, s := mask[..], [], text;
    NothingApplied(text, was, op);
    while more
      invariant Standing(text, pos, more, s, done) && Applied(was, mask[..], done, op)
      decreases more, |text| - pos
    {
      pos, more, s, done := Turn(text, pos, mask, op, s, was, done);
    }
  }

  lemma NothingApplied(text: string, was: seq<bool>, op: Op)
    requires Finite(text)
    ensures Standing(text, 0, true, text, []) && Applied(was, was, [], op)
  {
    assert [] + Parse(text) == Parse(text);
    assert text[0..] == text;
  }

  // ---------------------------------------------------------------- the round trip

  /** Printed texts have no endless range. */
  lemma {:induction false} PrintIsFinite(rs: seq<Range>)
    requires rs != [] && forall k :: 0 <= k < |rs| ==> rs[k].first < NONE && rs[k].last < NONE
    ensures Finite(Print(rs))
  {
    ParseFirst(rs);
    if |rs| > 1 {
      PrintIsFinite(rs[1..]);
      assert ("," + Print(rs[1..]))[1..] == Print(rs[1..]);
    }
  }

  /** Any numbers that were added, printed and parsed: exactly they are set, or cleared. */
  method PrintAndParse(list: List, mask: array<bool>, op: Op)
    requires list.Valid() && exists i: nat :: list.Listed(i)
    modifies list, mask
    ensures forall i :: 0 <= i < mask.Length ==> mask[i] == if old(list.Listed(i)) then op.OpSet? else old(mask[i])
  {
    ghost var was := mask[..];
    var text := list.Str();
    ghost var rs := list.printed;
    assert rs != [] by {
      var i: nat :| old(list.Listed(i));
      assert InSome(rs, i);
    }
    PrintIsFinite(rs);
    ParsePrint(rs);
    StringToMask(text, mask, op);
    assert Applied(was, mask[..], rs, op);
  }

  /** A list to which nothing was added prints as the empty text, and parsing that touches core 0. */
  method EmptyList(mask: array<bool>, op: Op) returns (text: string)
    modifies mask
    ensures text == "" && forall i :: 0 <= i < mask.Length ==> mask[i] == if i == 0 then op.OpSet? else old(mask[i])
  {
    ghost var was := mask[..];
    var list := new List();
    text := list.Str();
    EmptyTextIsCoreZero();
    StringToMask(text, mask, op);
    assert Applied(was, mask[..], [Range(0, 0)], op);
    assert forall i: nat :: InSome([Range(0, 0)], i) <==> InRange([Range(0, 0)][0], i);
  }
}
