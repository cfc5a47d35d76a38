/** Names in the order sort.Strings puts them, and sorted lists without duplicates.

    Go orders strings by their UTF-8 bytes, which is the order of their code
    points, so characters are compared by value. */
module Names {
  import opened Sequences

  /** Strictly before, in lexicographic order. */
  predicate Before(a: string, b: string) {
    if a == [] then b != []
    else if b == [] then false
    else if a[0] != b[0] then a[0] < b[0]
    else Before(a[1..], b[1..])
  }

  lemma {:induction false} BeforeIrreflexive(a: string)
    ensures !Before(a, a)
  {
    if a != [] {
      BeforeIrreflexive(a[1..]);
    }
  }

  lemma {:induction false} BeforeTransitive(a: string, b: string, c: string)
    requires Before(a, b) && Before(b, c)
    ensures Before(a, c)
  {
    if a != [] && a[0] == b[0] == c[0] {
      BeforeTransitive(a[1..], b[1..], c[1..]);
    }
  }

  lemma {:induction false} BeforeTotal(a: string, b: string)
    ensures a == b || Before(a, b) || Before(b, a)
  {
    if a == [] || b == [] || a[0] != b[0] {
    } else {
      BeforeTotal(a[1..], b[1..]);
      assert a == [a[0]] + a[1..] && b == [b[0]] + b[1..];
    }
  }

  /** Sorted, and so without duplicates. */
  predicate Ascending(names: seq<string>) {
    forall i, j :: 0 <= i < j < |names| ==> Before(names[i], names[j])
  }

  /** Sorted, duplicates allowed. */
  predicate Sorted(names: seq<string>) {
    forall i, j :: 0 <= i < j < |names| ==> !Before(names[j], names[i])
  }

  lemma AscendingDistinct(names: seq<string>, i: nat, j: nat)
    requires Ascending(names) && i < |names| && j < |names| && names[i] == names[j]
    ensures i == j
  {
    BeforeIrreflexive(names[i]);
  }

  /** Puts a name into a sorted list, after the names not after it. */
  function Insert(name: string, names: seq<string>): (r: seq<string>)
    ensures multiset(r) == multiset(names) + multiset{name}
  {
    if names == [] then [name]
    else if Before(name, names[0]) then [name] + names
    else
      assert names == [names[0]] + names[1..];
      [names[0]] + Insert(name, names[1..])
  }

  lemma {:induction false} InsertSorted(name: string, names: seq<string>)
    requires Sorted(names)
    ensures Sorted(Insert(name, names))
  {
    var r := Insert(name, names);
    if names == [] {
    } else if Before(name, names[0]) {
      forall j | 0 <= j < |names|
        ensures !Before(names[j], name)
      {
        if Before(names[j], name) {
          BeforeTransitive(names[j], name, names[0]);
          BeforeIrreflexive(names[0]);
        }
      }
    } else {
      var rest := Insert(name, names[1..]);
      InsertSorted(name, names[1..]);
      forall j | 0 <= j < |rest|
        ensures !Before(rest[j], names[0])
      {
        assert rest[j] in multiset(rest);
        assert rest[j] == name || rest[j] in names[1..];
      }
    }
  }

  /** sort.Strings. */
  function Sort(names: seq<string>): (r: seq<string>)
    ensures Sorted(r) && multiset(r) == multiset(names)
  {
    if names == [] then []
    else
      assert names == [names[0]] + names[1..];
      InsertSorted(names[0], Sort(names[1..]));
      Insert(names[0], Sort(names[1..]))
  }

  lemma MultisetLength<T>(a: seq<T>, b: seq<T>)
    requires multiset(a) == multiset(b)
    ensures |a| == |b|
  {
    assert |multiset(a)| == |a| && |multiset(b)| == |b|;
  }

  /** Nothing in a sorted list is before its head. */
  lemma SortedHead(a: seq<string>, x: string)
    requires Sorted(a) && x in multiset(a)
    ensures |a| > 0 && !Before(x, a[0])
  {
    BeforeIrreflexive(x);
  }

  lemma SortedTail(a: seq<string>)
    requires |a| > 0 && Sorted(a)
    ensures Sorted(a[1..]) && multiset(a[1..]) == multiset(a) - multiset{a[0]}
  {
    assert a == [a[0]] + a[1..];
  }

  /** There is one way to sort: the result depends only on what is sorted. */
  lemma {:induction false} SortedUnique(a: seq<string>, b: seq<string>)
    requires Sorted(a) && Sorted(b) && multiset(a) == multiset(b)
    ensures a == b
  {
    MultisetLength(a, b);
    if a != [] {
      assert a[0] in multiset(a) && b[0] in multiset(b);
      SortedHead(b, a[0]);
      SortedHead(a, b[0]);
      BeforeTotal(a[0], b[0]);
      SortedTail(a);
      SortedTail(b);
      SortedUnique(a[1..], b[1..]);
      assert a == [a[0]] + a[1..] && b == [b[0]] + b[1..];
    }
  }

  // ----- The repositories of a job (cmd/rest-o-matic/exec.go) -----

  /** The distinct names in refs, sorted. */
  function RepositoryNames(refs: seq<string>): seq<string> {
    Sort(Distinct(refs))
  }

  lemma RepositoryNamesSorted(refs: seq<string>)
    ensures Ascending(RepositoryNames(refs))
    ensures forall x :: x in RepositoryNames(refs) <==> x in refs
    ensures |RepositoryNames(refs)| <= |refs|
  {
    var d := Distinct(refs);
    SortDistinct(d);
    MultisetLength(Sort(d), d);
    assert forall x :: x in Sort(d) <==> x in multiset(Sort(d));
    assert forall x :: x in d <==> x in multiset(d);
  }

  /** Each name once, where it first appears. */
  function Distinct(refs: seq<string>): (r: seq<string>)
    ensures NoDuplicates(r) && |r| <= |refs|
    ensures forall x :: x in r <==> x in refs
  {
    if refs == [] then []
    else
      var last := refs[|refs| - 1];
      assert refs == refs[..|refs| - 1] + [last];
      var d := Distinct(refs[..|refs| - 1]);
      if last in d then d else d + [last]
  }

  lemma NoDuplicatesCount<T>(xs: seq<T>, i: nat, j: nat)
    requires i < j < |xs| && xs[i] == xs[j]
    ensures multiset(xs)[xs[i]] >= 2
  {
    assert xs == xs[..i] + [xs[i]] + xs[i + 1..j] + [xs[j]] + xs[j + 1..];
  }

  lemma {:induction false} NoDuplicatesMultiset<T>(xs: seq<T>, x: T)
    requires NoDuplicates(xs)
    ensures multiset(xs)[x] <= 1
  {
    if xs != [] {
      assert xs == [xs[0]] + xs[1..];
      NoDuplicatesMultiset(xs[1..], x);
      if x == xs[0] {
        assert x !in xs[1..];
      }
    }
  }

  lemma SortDistinct(names: seq<string>)
    requires NoDuplicates(names)
    ensures Ascending(Sort(names))
  {
    var r := Sort(names);
    forall i, j | 0 <= i < j < |r|
      ensures Before(r[i], r[j])
    {
      if r[i] == r[j] {
        NoDuplicatesCount(r, i, j);
        NoDuplicatesMultiset(names, r[i]);
      }
      BeforeTotal(r[i], r[j]);
    }
  }

  /** repositoryNames: a first pass drops repeats, then the rest is sorted. */
  method CollectRepositoryNames(refs: seq<string>) returns (names: seq<string>)
    ensures names == RepositoryNames(refs)
  {
    var seen: set<string> := {};
    names := [];
    for i := 0 to |refs|
      invariant names == Distinct(refs[..i])
      invariant forall x :: x in seen <==> x in names
    {
      assert refs[..i + 1][..i] == refs[..i];
      if refs[i] !in seen {
        seen := seen + {refs[i]};
        names := names + [refs[i]];
      }
    }
    assert refs[..|refs|] == refs;
    names := Sort(names);
  }

  /** It is the only list with these names in ascending order, whatever order
      the job lists its repositories in. */
  lemma RepositoryNamesUnique(refs: seq<string>, names: seq<string>)
    requires Ascending(names) && forall x :: x in names <==> x in refs
    ensures names == RepositoryNames(refs)
  {
    RepositoryNamesSorted(refs);
    AscendingUnique(names, RepositoryNames(refs));
  }

  lemma AscendingTail(a: seq<string>)
    requires a != [] && Ascending(a)
    ensures Ascending(a[1..]) && forall x :: x in a[1..] <==> x in a && x != a[0]
  {
    BeforeIrreflexive(a[0]);
    assert a == [a[0]] + a[1..];
  }

  lemma {:induction false} AscendingUnique(a: seq<string>, b: seq<string>)
    requires Ascending(a) && Ascending(b) && forall x :: x in a <==> x in b
    ensures a == b
  {
    assert a != [] ==> a[0] in b;
    assert b != [] ==> b[0] in a;
    if a != [] {
      if a[0] != b[0] {
        BeforeTransitive(a[0], b[0], a[0]);
        BeforeIrreflexive(a[0]);
      }
      AscendingTail(a);
      AscendingTail(b);
      AscendingUnique(a[1..], b[1..]);
      assert a == [a[0]] + a[1..] && b == [b[0]] + b[1..];
    }
  }
}
