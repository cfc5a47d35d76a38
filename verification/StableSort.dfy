/** sort.SliceStable by line number, as LockedValues uses it
    (internal/config/locked.go). */
module StableSort {

  /** Into a list sorted by line, after those on the same line. */
  function Put(xs: seq<string>, x: string, line: string -> nat): seq<string> {
    if xs == [] || line(xs[|xs| - 1]) <= line(x) then xs + [x]
    else Put(xs[..|xs| - 1], x, line) + [xs[|xs| - 1]]
  }

  /** sort.SliceStable. */
  function ByLine(xs: seq<string>, line: string -> nat): seq<string> {
    if xs == [] then [] else Put(ByLine(xs[..|xs| - 1], line), xs[|xs| - 1], line)
  }

  ghost predicate InOrder(xs: seq<string>, line: string -> nat) {
    forall i, j :: 0 <= i < j < |xs| ==> line(xs[i]) <= line(xs[j])
  }

  /** Those on one line, in the order given. */
  function OnLine(xs: seq<string>, line: string -> nat, l: nat): seq<string> {
    if xs == [] then []
    else
      var last := xs[|xs| - 1];
      OnLine(xs[..|xs| - 1], line, l) + if line(last) == l then [last] else []
  }

  lemma OnLineAppend(xs: seq<string>, x: string, line: string -> nat, l: nat)
    ensures OnLine(xs + [x], line, l) == OnLine(xs, line, l) + if line(x) == l then [x] else []
  {
    assert (xs + [x])[..|xs|] == xs;
  }

  lemma {:induction false} PutElements(xs: seq<string>, x: string, line: string -> nat)
    ensures multiset(Put(xs, x, line)) == multiset(xs) + multiset{x}
    decreases |xs|
  {
    if xs != [] {
      PutElements(xs[..|xs| - 1], x, line);
      assert xs == xs[..|xs| - 1] + [xs[|xs| - 1]];
    }
  }

  lemma AppendInOrder(xs: seq<string>, last: string, line: string -> nat)
    requires InOrder(xs, line) && forall y :: y in multiset(xs) ==> line(y) <= line(last)
    ensures InOrder(xs + [last], line)
  {
    assert forall i :: 0 <= i < |xs| ==> xs[i] in multiset(xs);
  }

  lemma InitInOrder(xs: seq<string>, line: string -> nat)
    requires xs != [] && InOrder(xs, line)
    ensures InOrder(xs[..|xs| - 1], line)
    ensures forall y :: y in multiset(xs[..|xs| - 1]) ==> line(y) <= line(xs[|xs| - 1])
  {
  }

  lemma {:induction false} PutInOrder(xs: seq<string>, x: string, line: string -> nat)
    requires InOrder(xs, line)
    ensures InOrder(Put(xs, x, line), line)
    decreases |xs|
  {
    if xs != [] {
      InitInOrder(xs, line);
      var init, last := xs[..|xs| - 1], xs[|xs| - 1];
      PutInOrder(init, x, line);
      PutElements(init, x, line);
      hide InOrder;
      if line(last) > line(x) {
        AppendInOrder(Put(init, x, line), last, line);
      } else {
        assert xs == init + [last];
        assert forall y :: y in multiset(xs) ==> y in multiset(init) || y == last;
        AppendInOrder(xs, x, line);
      }
    } else {
      AppendInOrder(xs, x, line);
    }
  }

  lemma {:induction false} PutKeepsLines(xs: seq<string>, x: string, line: string -> nat, l: nat)
    ensures OnLine(Put(xs, x, line), line, l) == OnLine(xs + [x], line, l)
    decreases |xs|
  {
    if xs != [] && line(xs[|xs| - 1]) > line(x) {
      var init, last := xs[..|xs| - 1], xs[|xs| - 1];
      PutKeepsLines(init, x, line, l);
      assert xs == init + [last];
      OnLineAppend(Put(init, x, line), last, line, l);
      OnLineAppend(init, x, line, l);
      OnLineAppend(init, last, line, l);
      OnLineAppend(xs, x, line, l);
    }
  }

  /** Sorted by line, with the same texts, and those on one line as they were. */
  lemma {:induction false} ByLineSorts(xs: seq<string>, line: string -> nat)
    ensures InOrder(ByLine(xs, line), line) && multiset(ByLine(xs, line)) == multiset(xs)
    ensures forall l :: OnLine(ByLine(xs, line), line, l) == OnLine(xs, line, l)
    decreases |xs|
  {
    if xs != [] {
      var init, last := xs[..|xs| - 1], xs[|xs| - 1];
      assert xs == init + [last];
      ByLineSorts(init, line);
      PutInOrder(ByLine(init, line), last, line);
      PutElements(ByLine(init, line), last, line);
      forall l
        ensures OnLine(ByLine(xs, line), line, l) == OnLine(xs, line, l)
      {
        PutKeepsLines(ByLine(init, line), last, line, l);
        OnLineAppend(ByLine(init, line), last, line, l);
        OnLineAppend(init, last, line, l);
      }
    }
  }
}
