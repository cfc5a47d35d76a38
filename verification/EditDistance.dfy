/** Spelling suggestions (internal/config/unknown.go): the rolling-row edit
    distance and the closest candidate. */
module EditDistance {
  import opened Names

  // ----- What the distance is -----

  /** w differs from v by one character inserted, deleted or replaced, anywhere. */
  ghost predicate OneEdit(v: string, w: string) {
    || (exists i, c :: 0 <= i <= |v| && w == Inserted(v, i, c))
    || (exists i :: 0 <= i < |v| && w == Deleted(v, i))
    || (exists i, c :: 0 <= i < |v| && w == Replaced(v, i, c))
  }

  function Inserted(v: string, i: nat, c: char): string
    requires i <= |v|
  {
    v[..i] + [c] + v[i..]
  }

  function Deleted(v: string, i: nat): string
    requires i < |v|
  {
    v[..i] + v[i + 1..]
  }

  function Replaced(v: string, i: nat, c: char): string
    requires i < |v|
  {
    v[..i] + [c] + v[i + 1..]
  }

  /** A sequence of single edits leading from a to b; its length is |ws| - 1. */
  ghost predicate Script(ws: seq<string>, a: string, b: string) {
    && |ws| > 0 && ws[0] == a && ws[|ws| - 1] == b
    && forall i :: 0 <= i < |ws| - 1 ==> OneEdit(ws[i], ws[i + 1])
  }

  // ----- The recurrence -----

  function Min(x: nat, y: nat): nat {
    if x <= y then x else y
  }

  function Cost(x: char, y: char): nat {
    if x == y then 0 else 1
  }

  function Lev(a: string, b: string): nat
    decreases |a| + |b|
  {
    if a == [] then |b|
    else if b == [] then |a|
    else
      var a', b' := a[..|a| - 1], b[..|b| - 1];
      Min(Min(Lev(a', b) + 1, Lev(a, b') + 1), Lev(a', b') + Cost(a[|a| - 1], b[|b| - 1]))
  }

  lemma Cell(a: string, b: string, i: nat, j: nat)
    requires i <= |a| && j <= |b|
    ensures i == 0 ==> Lev(a[..i], b[..j]) == j
    ensures j == 0 ==> Lev(a[..i], b[..j]) == i
    ensures i > 0 && j > 0 ==>
              Lev(a[..i], b[..j]) == Min(Min(Lev(a[..i - 1], b[..j]) + 1, Lev(a[..i], b[..j - 1]) + 1),
                                         Lev(a[..i - 1], b[..j - 1]) + Cost(a[i - 1], b[j - 1]))
  {
    if i > 0 && j > 0 {
      assert a[..i][..i - 1] == a[..i - 1] && b[..j][..j - 1] == b[..j - 1];
    }
  }

  /** One row of the table from the row before it. */
  method NextRow(a: string, b: string, i: nat, prev: array<nat>) returns (cur: array<nat>)
    requires 0 < i <= |a| && prev.Length == |b| + 1
    requires forall j :: 0 <= j <= |b| ==> prev[j] == Lev(a[..i - 1], b[..j])
    ensures fresh(cur) && cur.Length == |b| + 1
    ensures forall j :: 0 <= j <= |b| ==> cur[j] == Lev(a[..i], b[..j])
  {
    hide Lev;
    cur := new nat[|b| + 1];
    cur[0] := i;
    Cell(a, b, i, 0);
    for j := 1 to |b| + 1
      invariant fresh(cur) && cur.Length == |b| + 1
      invariant forall k :: 0 <= k < j ==> cur[k] == Lev(a[..i], b[..k])
    {
      var cost := if a[i - 1] == b[j - 1] then 0 else 1;
      cur[j] := Min(Min(prev[j] + 1, cur[j - 1] + 1), prev[j - 1] + cost);
      Cell(a, b, i, j);
    }
  }

  /** editDistance: one row of the table at a time. */
  method Distance(a: string, b: string) returns (d: nat)
    ensures d == Lev(a, b)
    ensures Shortest(a, b, d)
  {
    var prev := new nat[|b| + 1](j => j);
    for i := 1 to |a| + 1
      invariant prev.Length == |b| + 1
      invariant forall j :: 0 <= j <= |b| ==> prev[j] == Lev(a[..i - 1], b[..j])
    {
      prev := NextRow(a, b, i, prev);
    }
    assert a[..|a|] == a && b[..|b|] == b;
    d := prev[|b|];
    LevIsShortest(a, b);
  }

  // ----- It is a metric -----

  lemma {:induction false} Symmetric(a: string, b: string)
    ensures Lev(a, b) == Lev(b, a)
    decreases |a| + |b|
  {
    if a != [] && b != [] {
      var a', b' := a[..|a| - 1], b[..|b| - 1];
      Symmetric(a', b);
      Symmetric(a, b');
      Symmetric(a', b');
    }
  }

  lemma {:induction false} LengthBound(a: string, b: string)
    ensures |a| <= Lev(a, b) + |b| && |b| <= Lev(a, b) + |a| && Lev(a, b) <= |a| + |b|
    decreases |a| + |b|
  {
    if a != [] && b != [] {
      var a', b' := a[..|a| - 1], b[..|b| - 1];
      LengthBound(a', b);
      LengthBound(a, b');
      LengthBound(a', b');
    }
  }

  /** Zero exactly between equal strings. */
  lemma {:induction false} ZeroIffEqual(a: string, b: string)
    ensures Lev(a, b) == 0 <==> a == b
    decreases |a| + |b|
  {
    if a != [] && b != [] {
      var a', b' := a[..|a| - 1], b[..|b| - 1];
      ZeroIffEqual(a', b');
      assert a == a' + [a[|a| - 1]] && b == b' + [b[|b| - 1]];
    }
  }

  lemma {:induction false} Triangle(a: string, b: string, c: string)
    ensures Lev(a, c) <= Lev(a, b) + Lev(b, c)
    decreases |a| + |b| + |c|
  {
    if a == [] {
      LengthBound(b, c);
    } else if c == [] {
      LengthBound(a, b);
    } else if b == [] {
      LengthBound(a, c);
    } else {
      TriangleStep(a, b, c);
    }
  }

  lemma {:induction false} TriangleStep(a: string, b: string, c: string)
    requires a != [] && b != [] && c != []
    ensures Lev(a, c) <= Lev(a, b) + Lev(b, c)
    decreases |a| + |b| + |c|, 0
  {
    var a', b', c' := a[..|a| - 1], b[..|b| - 1], c[..|c| - 1];
    Triangle(a', b, c);
    Triangle(a, b, c');
    Triangle(a, b', c);
    Triangle(a, b', c');
    Triangle(a', b', c);
    Triangle(a', b', c');
  }

  // ----- It is the length of a shortest script -----

  ghost predicate Shortest(a: string, b: string, n: nat) {
    && (exists ws :: Script(ws, a, b) && |ws| == n + 1)
    && (forall ws :: Script(ws, a, b) ==> |ws| >= n + 1)
  }

  lemma PeelSame(v: string, w: string, x: char)
    ensures Lev(v + [x], w + [x]) <= Lev(v, w)
  {
    assert (v + [x])[..|v|] == v && (w + [x])[..|w|] == w;
  }

  lemma {:induction false} InsertionCostsOne(v: string, i: nat, c: char)
    requires i <= |v|
    ensures Lev(v, Inserted(v, i, c)) <= 1
  {
    var w := Inserted(v, i, c);
    if i == |v| {
      assert w[..|w| - 1] == v;
      ZeroIffEqual(v, v);
    } else {
      var v', x := v[..|v| - 1], v[|v| - 1];
      InsertionCostsOne(v', i, c);
      assert v == v' + [x] && w == Inserted(v', i, c) + [x];
      PeelSame(v', Inserted(v', i, c), x);
    }
  }

  lemma {:induction false} ReplacementCostsOne(v: string, i: nat, c: char)
    requires i < |v|
    ensures Lev(v, Replaced(v, i, c)) <= 1
  {
    var w := Replaced(v, i, c);
    var v', x := v[..|v| - 1], v[|v| - 1];
    assert v == v' + [x];
    if i == |v| - 1 {
      assert w[..|w| - 1] == v';
      ZeroIffEqual(v', v');
    } else {
      ReplacementCostsOne(v', i, c);
      assert w == Replaced(v', i, c) + [x];
      PeelSame(v', Replaced(v', i, c), x);
    }
  }

  lemma OneEditCostsOne(v: string, w: string)
    requires OneEdit(v, w)
    ensures Lev(v, w) <= 1
  {
    if i, c :| 0 <= i <= |v| && w == Inserted(v, i, c) {
      InsertionCostsOne(v, i, c);
    } else if i :| 0 <= i < |v| && w == Deleted(v, i) {
      assert v == Inserted(w, i, v[i]);
      InsertionCostsOne(w, i, v[i]);
      Symmetric(v, w);
    } else {
      var i, c :| 0 <= i < |v| && w == Replaced(v, i, c);
      ReplacementCostsOne(v, i, c);
    }
  }

  /** No script is shorter. */
  lemma {:induction false} LowerBound(ws: seq<string>, a: string, b: string)
    requires Script(ws, a, b)
    ensures Lev(a, b) + 1 <= |ws|
  {
    var n := |ws| - 1;
    if n == 0 {
      ZeroIffEqual(a, b);
    } else {
      var shorter := ws[..n];
      LowerBound(shorter, a, ws[n - 1]);
      assert OneEdit(ws[n - 1], ws[n - 1 + 1]);
      OneEditCostsOne(ws[n - 1], b);
      Triangle(a, ws[n - 1], b);
    }
  }

  lemma AppendKeepsEdit(v: string, w: string, x: char)
    requires OneEdit(v, w)
    ensures OneEdit(v + [x], w + [x])
  {
    if i, c :| 0 <= i <= |v| && w == Inserted(v, i, c) {
      assert w + [x] == Inserted(v + [x], i, c);
    } else if i :| 0 <= i < |v| && w == Deleted(v, i) {
      assert w + [x] == Deleted(v + [x], i);
    } else {
      var i, c :| 0 <= i < |v| && w == Replaced(v, i, c);
      assert w + [x] == Replaced(v + [x], i, c);
    }
  }

  function AppendAll(ws: seq<string>, x: char): seq<string> {
    seq(|ws|, i requires 0 <= i < |ws| => ws[i] + [x])
  }

  lemma ScriptAppendAll(ws: seq<string>, a: string, b: string, x: char)
    requires Script(ws, a, b)
    ensures Script(AppendAll(ws, x), a + [x], b + [x])
  {
    var vs := AppendAll(ws, x);
    forall i | 0 <= i < |vs| - 1
      ensures OneEdit(vs[i], vs[i + 1])
    {
      AppendKeepsEdit(ws[i], ws[i + 1], x);
    }
  }

  lemma ScriptThen(ws: seq<string>, a: string, b: string, c: string)
    requires Script(ws, a, b) && OneEdit(b, c)
    ensures Script(ws + [c], a, c)
  {
  }

  lemma ScriptAfter(ws: seq<string>, a: string, b: string, c: string)
    requires OneEdit(a, b) && Script(ws, b, c)
    ensures Script([a] + ws, a, c)
  {
  }

  lemma LastEdits(a: string, b: string)
    requires a != []
    ensures OneEdit(a, a[..|a| - 1])
    ensures b != [] ==> OneEdit(b[..|b| - 1], b)
  {
    assert a[..|a| - 1] == Deleted(a, |a| - 1);
    if b != [] {
      var b' := b[..|b| - 1];
      assert b == Inserted(b', |b'|, b[|b'|]);
    }
  }

  /** A script of that length: undo, do or replace the last character as the
      recurrence chose. */
  lemma {:induction false} Achieved(a: string, b: string) returns (ws: seq<string>)
    ensures Script(ws, a, b) && |ws| == Lev(a, b) + 1
    decreases |a| + |b|
  {
    if a == [] && b == [] {
      ws := [a];
    } else if a == [] {
      var b' := b[..|b| - 1];
      ws := Achieved(a, b');
      assert b == Inserted(b', |b'|, b[|b'|]);
      ScriptThen(ws, a, b', b);
      ws := ws + [b];
    } else if b == [] {
      LastEdits(a, b);
      ws := Achieved(a[..|a| - 1], b);
      ScriptAfter(ws, a, a[..|a| - 1], b);
      ws := [a] + ws;
    } else {
      ws := AchievedStep(a, b);
    }
  }

  /** Keep or replace the last character after editing what precedes it. */
  lemma Diagonal(vs: seq<string>, a: string, b: string, x: char, y: char) returns (ws: seq<string>)
    requires Script(vs, a, b)
    ensures Script(ws, a + [x], b + [y]) && |ws| == |vs| + Cost(x, y)
  {
    ScriptAppendAll(vs, a, b, x);
    hide Script, OneEdit;
    ws := AppendAll(vs, x);
    if x != y {
      assert b + [y] == Replaced(b + [x], |b|, y);
      ReplaceIsEdit(b + [x], |b|, y);
      ScriptThen(ws, a + [x], b + [x], b + [y]);
      ws := ws + [b + [y]];
    }
  }

  lemma ReplaceIsEdit(v: string, i: nat, c: char)
    requires i < |v|
    ensures OneEdit(v, Replaced(v, i, c))
  {
  }

  lemma {:induction false} AchievedStep(a: string, b: string) returns (ws: seq<string>)
    requires a != [] && b != []
    ensures Script(ws, a, b) && |ws| == Lev(a, b) + 1
    decreases |a| + |b|, 0
  {
    var a', b', x := a[..|a| - 1], b[..|b| - 1], a[|a| - 1];
    LastEdits(a, b);
    hide Script, OneEdit;
    assert a == a' + [x] && b == b' + [b[|b'|]];
    if Lev(a, b) == Lev(a', b) + 1 {
      ws := Achieved(a', b);
      ScriptAfter(ws, a, a', b);
      ws := [a] + ws;
    } else if Lev(a, b) == Lev(a, b') + 1 {
      ws := Achieved(a, b');
      ScriptThen(ws, a, b', b);
      ws := ws + [b];
    } else {
      var vs := Achieved(a', b');
      ws := Diagonal(vs, a', b', x, b[|b'|]);
    }
  }

  /** Main result: the number computed is the length of a shortest script. */
  lemma LevIsShortest(a: string, b: string)
    ensures Shortest(a, b, Lev(a, b))
  {
    var ws := Achieved(a, b);
    assert Script(ws, a, b) && |ws| == Lev(a, b) + 1;
    forall vs | Script(vs, a, b)
      ensures |vs| >= Lev(a, b) + 1
    {
      LowerBound(vs, a, b);
    }
  }

  // ----- Suggestions -----

  const NEAR: nat := 3

  /** The nearest candidate, the first in sorted order of those equally near. */
  ghost predicate Closest(key: string, candidates: seq<string>, best: string) {
    && best in candidates && Lev(key, best) < NEAR
    && forall c :: c in candidates ==>
         Lev(key, best) < Lev(key, c) || (Lev(key, best) == Lev(key, c) && !Before(c, best))
  }

  /** The first of the nearest in a sorted list. */
  ghost predicate FirstNearest(key: string, sorted: seq<string>, n: nat, at: nat) {
    && at < n <= |sorted|
    && (forall k :: 0 <= k < at ==> Lev(key, sorted[at]) < Lev(key, sorted[k]))
    && (forall k :: at <= k < n ==> Lev(key, sorted[at]) <= Lev(key, sorted[k]))
  }

  lemma FirstNearestIsClosest(key: string, candidates: seq<string>, at: nat)
    requires var sorted := Sort(candidates); FirstNearest(key, sorted, |sorted|, at) && Lev(key, sorted[at]) < NEAR
    ensures Closest(key, candidates, Sort(candidates)[at])
  {
    hide Lev, Before, Sort;
    var sorted := Sort(candidates);
    SameElements(candidates);
    forall x | x in candidates
      ensures Lev(key, sorted[at]) < Lev(key, x) || (Lev(key, sorted[at]) == Lev(key, x) && !Before(x, sorted[at]))
    {
      var m :| 0 <= m < |sorted| && sorted[m] == x;
      BeforeIrreflexive(x);
    }
  }

  lemma SameElements(names: seq<string>)
    ensures forall x :: x in Sort(names) <==> x in names
  {
    assert forall x :: x in names <==> x in multiset(names);
    assert forall x :: x in Sort(names) <==> x in multiset(Sort(names));
  }

  lemma NoneNear(key: string, candidates: seq<string>)
    requires forall k :: 0 <= k < |Sort(candidates)| ==> NEAR <= Lev(key, Sort(candidates)[k])
    ensures forall c :: c in candidates ==> Lev(key, c) >= NEAR
  {
    hide Lev, Before, Sorted;
    SameElements(candidates);
    forall c | c in candidates
      ensures Lev(key, c) >= NEAR
    {
      var k :| 0 <= k < |Sort(candidates)| && Sort(candidates)[k] == c;
    }
  }

  /** The running best over the sorted candidates; at is where it was found. */
  method Scan(key: string, sorted: seq<string>) returns (best: string, bestDist: nat, ghost at: nat)
    ensures bestDist == NEAR ==> best == "" && forall k :: 0 <= k < |sorted| ==> NEAR <= Lev(key, sorted[k])
    ensures bestDist != NEAR ==>
              FirstNearest(key, sorted, |sorted|, at) && best == sorted[at] && bestDist == Lev(key, best) < NEAR
  {
    hide Lev, Shortest;
    best, bestDist, at := "", NEAR, 0;
    for i := 0 to |sorted|
      invariant bestDist == NEAR ==> best == "" && forall k :: 0 <= k < i ==> NEAR <= Lev(key, sorted[k])
      invariant bestDist != NEAR ==>
                  FirstNearest(key, sorted, i, at) && best == sorted[at] && bestDist == Lev(key, best) < NEAR
    {
      var d := Distance(key, sorted[i]);
      if d < bestDist {
        best, bestDist, at := sorted[i], d, i;
      }
    }
  }

  method Suggest(key: string, candidates: seq<string>) returns (best: string)
    ensures (exists c :: c in candidates && Lev(key, c) < NEAR) ==> Closest(key, candidates, best)
    ensures (forall c :: c in candidates ==> Lev(key, c) >= NEAR) ==> best == ""
  {
    hide Lev, Before, Sort, FirstNearest, Sorted;
    var bestDist;
    ghost var at;
    best, bestDist, at := Scan(key, Sort(candidates));
    if bestDist == NEAR {
      NoneNear(key, candidates);
    } else {
      InRange(key, candidates, at);
      FirstNearestIsClosest(key, candidates, at);
      assert best in candidates;
    }
  }

  lemma InRange(key: string, candidates: seq<string>, at: nat)
    requires FirstNearest(key, Sort(candidates), |Sort(candidates)|, at)
    ensures at < |Sort(candidates)|
  {
    hide Lev, Before, Sort, Sorted;
  }

  /** There is only one, so the suggestion does not depend on the order the
      candidates come in, or on repeats. */
  lemma ClosestUnique(key: string, xs: seq<string>, ys: seq<string>, x: string, y: string)
    requires (forall c :: c in xs <==> c in ys) && Closest(key, xs, x) && Closest(key, ys, y)
    ensures x == y
  {
    BeforeTotal(x, y);
  }
}
