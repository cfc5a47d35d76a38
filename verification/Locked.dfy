/** Locked values in a config file (internal/config/load.go,
    internal/config/locked.go): the walk that says where they may stand, and
    the list of those a repository uses. A document is a graph of nodes, since
    an alias may name any node, one that holds the alias included. */
module Locked {
  import opened Sequences
  import opened Wrappers

  datatype Tag = LockedTag | PlainTag | OtherTag

  datatype Key = Key(text: string, merge: bool)

  datatype Pair = Pair(key: Key, value: nat)

  datatype Node =
    | Scalar(tag: Tag, text: string, line: nat)
    | Sequence(items: seq<nat>)
    | Mapping(pairs: seq<Pair>)
    | Alias(target: nat)

  type Graph = seq<Node>

  /** Levels left at depth 0: a depth above maxAliasDepth is none left. */
  const LEVELS: nat := 65

  const SECTIONS := {"max_concurrent", "policies", "repositories", "backups", "notify", "progress_interval"}

  function At(g: Graph, n: nat): Node {
    if n < |g| then g[n] else Scalar(OtherTag, "", 0)
  }

  function Decimal(n: nat): string {
    if n < 10 then ["0123456789"[n]] else Decimal(n / 10) + ["0123456789"[n % 10]]
  }

  // ----- The placement walk -----

  predicate IsEnvValue(path: seq<string>) {
    |path| == 4 && path[0] == "repositories" && path[2] == "env"
  }

  predicate Lockable(path: seq<string>) {
    |path| >= 3 && path[0] == "repositories" && ((|path| == 3 && path[2] == "password") || IsEnvValue(path))
  }

  predicate Allowed(node: Node, path: seq<string>) {
    node.Scalar? ==>
      && (node.tag == LockedTag ==> Lockable(path))
      && (node.tag == PlainTag ==> IsEnvValue(path))
  }

  /** What `<<` merges takes this mapping's path. */
  function Below(path: seq<string>, key: Key): seq<string> {
    if key.merge then path else path + [key.text]
  }

  predicate Walk(g: Graph, n: nat, path: seq<string>, left: nat)
    decreases left
  {
    left > 0 &&
    match At(g, n)
    case Alias(target) => Walk(g, target, path, left - 1)
    case Scalar(_, _, _) => Allowed(At(g, n), path)
    case Sequence(items) =>
      forall i :: 0 <= i < |items| ==> Walk(g, items[i], path + [Decimal(i)], left - 1)
    case Mapping(pairs) =>
      forall i :: 0 <= i < |pairs| ==> Walk(g, pairs[i].value, Below(path, pairs[i].key), left - 1)
  }

  /** checkLockedPlacement, on the node a document holds. */
  predicate Placed(g: Graph, doc: nat) {
    At(g, doc).Mapping? ==>
      forall i :: 0 <= i < |At(g, doc).pairs| && At(g, doc).pairs[i].key.text in SECTIONS ==>
        Walk(g, At(g, doc).pairs[i].value, [At(g, doc).pairs[i].key.text], LEVELS)
  }

  /** A locked value may stand as a repository's password or in its env, and one
      kept plain on purpose only in the env. */
  lemma AllowedExactly(node: Node, path: seq<string>)
    ensures node.Scalar? && node.tag == LockedTag ==>
              (Allowed(node, path) <==> (exists repo :: path == ["repositories", repo, "password"])
                                        || (exists repo, name :: path == ["repositories", repo, "env", name]))
    ensures node.Scalar? && node.tag == PlainTag ==>
              (Allowed(node, path) <==> exists repo, name :: path == ["repositories", repo, "env", name])
    ensures !node.Scalar? || node.tag == OtherTag ==> Allowed(node, path)
  {
    if |path| == 3 && path[0] == "repositories" && path[2] == "password" {
      assert path == ["repositories", path[1], "password"];
    }
    if |path| == 4 && path[0] == "repositories" && path[2] == "env" {
      assert path == ["repositories", path[1], "env", path[3]];
    }
  }

  /** A locked value that stands for a whole section is refused, in each of them. */
  lemma SectionIsNotLocked(g: Graph, doc: nat, i: nat)
    requires At(g, doc).Mapping? && i < |At(g, doc).pairs|
    requires At(g, doc).pairs[i].key.text in ["max_concurrent", "policies", "repositories", "backups", "notify", "progress_interval"]
    requires At(g, At(g, doc).pairs[i].value).Scalar? && At(g, At(g, doc).pairs[i].value).tag == LockedTag
    ensures !Placed(g, doc)
  {
  }

  /** A value at the end of so many aliases. */
  function Chain(aliases: nat, value: Node): Graph {
    seq(aliases, i requires 0 <= i => Alias(i + 1)) + [value]
  }

  lemma {:induction false} ChainWalk(aliases: nat, value: Node, i: nat, path: seq<string>, left: nat)
    requires i <= aliases && value.Scalar? && value.tag == OtherTag
    ensures Walk(Chain(aliases, value), i, path, left) <==> aliases - i < left
    decreases aliases - i
  {
    if i < aliases && left > 0 {
      assert At(Chain(aliases, value), i) == Alias(i + 1);
      ChainWalk(aliases, value, i + 1, path, left - 1);
    } else {
      assert i == aliases ==> At(Chain(aliases, value), i) == value;
    }
  }

  /** Anchors may be nested sixty-four deep and no deeper. */
  lemma DepthLimit(aliases: nat, value: Node, path: seq<string>)
    requires value.Scalar? && value.tag == OtherTag
    ensures Walk(Chain(aliases, value), 0, path, LEVELS) <==> aliases <= 64
  {
    ChainWalk(aliases, value, 0, path, LEVELS);
  }

  // ----- The walk against the unfolded document -----

  datatype Stop = Stop(node: nat, path: seq<string>)

  /** b is directly below a when aliases are followed. */
  ghost predicate Leads(g: Graph, a: Stop, b: Stop) {
    match At(g, a.node)
    case Alias(target) => b == Stop(target, a.path)
    case Scalar(_, _, _) => false
    case Sequence(items) => exists i :: 0 <= i < |items| && b == Stop(items[i], a.path + [Decimal(i)])
    case Mapping(pairs) => exists i :: 0 <= i < |pairs| && b == Stop(pairs[i].value, Below(a.path, pairs[i].key))
  }

  ghost predicate Trail(g: Graph, ts: seq<Stop>) {
    |ts| > 0 && forall i :: 0 <= i < |ts| - 1 ==> Leads(g, ts[i], ts[i + 1])
  }

  ghost predicate TrailsFit(g: Graph, from: Stop, left: nat) {
    forall ts: seq<Stop> :: Trail(g, ts) && ts[0] == from ==>
      |ts| <= left && Allowed(At(g, ts[|ts| - 1].node), ts[|ts| - 1].path)
  }

  lemma WalkChild(g: Graph, a: Stop, b: Stop, left: nat)
    requires Walk(g, a.node, a.path, left) && Leads(g, a, b)
    ensures left > 0 && Walk(g, b.node, b.path, left - 1)
  {
  }

  lemma TrailOn(g: Graph, ts: seq<Stop>)
    requires Trail(g, ts) && |ts| > 1
    ensures Leads(g, ts[0], ts[1]) && Trail(g, ts[1..])
  {
    hide Leads;
    assert Leads(g, ts[0], ts[0 + 1]);
    forall i | 0 <= i < |ts| - 2
      ensures Leads(g, ts[1..][i], ts[1..][i + 1])
    {
      assert Leads(g, ts[i + 1], ts[i + 1 + 1]);
    }
  }

  lemma TrailBack(g: Graph, a: Stop, ts: seq<Stop>)
    requires Trail(g, ts) && Leads(g, a, ts[0])
    ensures Trail(g, [a] + ts)
  {
    hide Leads;
    forall i | 0 <= i < |ts|
      ensures Leads(g, ([a] + ts)[i], ([a] + ts)[i + 1])
    {
      if i > 0 {
        assert Leads(g, ts[i - 1], ts[i - 1 + 1]);
      }
    }
  }

  lemma {:induction false} WalkedTrail(g: Graph, ts: seq<Stop>, left: nat)
    requires Trail(g, ts) && Walk(g, ts[0].node, ts[0].path, left)
    ensures |ts| <= left && Allowed(At(g, ts[|ts| - 1].node), ts[|ts| - 1].path)
    ensures Walk(g, ts[|ts| - 1].node, ts[|ts| - 1].path, left + 1 - |ts|)
    decreases |ts|
  {
    if |ts| > 1 {
      TrailOn(g, ts);
      WalkChild(g, ts[0], ts[1], left);
      hide Walk, Trail, Allowed;
      WalkedTrail(g, ts[1..], left - 1);
    }
  }

  lemma TrailsFitBelow(g: Graph, a: Stop, b: Stop, left: nat)
    requires TrailsFit(g, a, left) && Leads(g, a, b)
    ensures left > 0 && TrailsFit(g, b, left - 1)
  {
    hide Allowed, Leads;
    forall ts: seq<Stop> | Trail(g, ts) && ts[0] == b
      ensures |ts| + 1 <= left && Allowed(At(g, ts[|ts| - 1].node), ts[|ts| - 1].path)
    {
      TrailBack(g, a, ts);
      assert ([a] + ts)[0] == a;
    }
    assert Trail(g, [b]);
  }

  lemma TrailHere(g: Graph, a: Stop, left: nat)
    requires TrailsFit(g, a, left)
    ensures left > 0 && Allowed(At(g, a.node), a.path)
  {
    hide Allowed, Leads;
    assert Trail(g, [a]);
  }

  lemma {:induction false} FitIsWalked(g: Graph, a: Stop, left: nat)
    requires TrailsFit(g, a, left)
    ensures Walk(g, a.node, a.path, left)
    decreases left
  {
    hide TrailsFit, Allowed;
    TrailHere(g, a, left);
    forall b | Leads(g, a, b)
      ensures Walk(g, b.node, b.path, left - 1)
    {
      TrailsFitBelow(g, a, b, left);
      FitIsWalked(g, b, left - 1);
    }
    match At(g, a.node)
    case Alias(target) =>
      assert Leads(g, a, Stop(target, a.path));
    case Scalar(_, _, _) =>
    case Sequence(items) =>
      forall i | 0 <= i < |items|
        ensures Walk(g, items[i], a.path + [Decimal(i)], left - 1)
      {
        assert Leads(g, a, Stop(items[i], a.path + [Decimal(i)]));
      }
    case Mapping(pairs) =>
      forall i | 0 <= i < |pairs|
        ensures Walk(g, pairs[i].value, Below(a.path, pairs[i].key), left - 1)
      {
        assert Leads(g, a, Stop(pairs[i].value, Below(a.path, pairs[i].key)));
      }
  }

  /** The walk accepts exactly when no trail down the unfolded document is
      longer than the limit, so that it is finite, and every value a trail
      reaches is allowed where the trail puts it. */
  lemma WalkExactly(g: Graph, n: nat, path: seq<string>, left: nat)
    ensures Walk(g, n, path, left) <==> TrailsFit(g, Stop(n, path), left)
  {
    if Walk(g, n, path, left) {
      forall ts: seq<Stop> | Trail(g, ts) && ts[0] == Stop(n, path)
        ensures |ts| <= left && Allowed(At(g, ts[|ts| - 1].node), ts[|ts| - 1].path)
      {
        WalkedTrail(g, ts, left);
      }
    }
    if TrailsFit(g, Stop(n, path), left) {
      FitIsWalked(g, Stop(n, path), left);
    }
  }

  lemma {:induction false} WalkMore(g: Graph, n: nat, path: seq<string>, left: nat, more: nat)
    requires Walk(g, n, path, left) && left <= more
    ensures Walk(g, n, path, more)
    decreases left
  {
    hide Allowed, Below, Decimal;
    match At(g, n)
    case Alias(target) => WalkMore(g, target, path, left - 1, more - 1);
    case Scalar(_, _, _) =>
    case Sequence(items) =>
      forall i | 0 <= i < |items|
        ensures Walk(g, items[i], path + [Decimal(i)], more - 1)
      {
        WalkMore(g, items[i], path + [Decimal(i)], left - 1, more - 1);
      }
    case Mapping(pairs) =>
      forall i | 0 <= i < |pairs|
        ensures Walk(g, pairs[i].value, Below(path, pairs[i].key), more - 1)
      {
        WalkMore(g, pairs[i].value, Below(path, pairs[i].key), left - 1, more - 1);
      }
  }

  // ----- Aliases -----

  function Resolve(g: Graph, n: nat, hops: nat): nat
    decreases hops
  {
    if At(g, n).Alias? && hops > 0 then Resolve(g, At(g, n).target, hops - 1) else n
  }

  /** Where the walk accepts, following an alias ends, and gives up nowhere. */
  lemma {:induction false} ResolveSettles(g: Graph, n: nat, path: seq<string>, left: nat, hops: nat)
    requires Walk(g, n, path, left) && left <= hops + 1
    ensures !At(g, Resolve(g, n, hops)).Alias?
    ensures Walk(g, Resolve(g, n, hops), path, left)
    ensures forall more :: more >= hops ==> Resolve(g, n, more) == Resolve(g, n, hops)
    decreases left
  {
    if At(g, n).Alias? {
      var t := At(g, n).target;
      ResolveSettles(g, t, path, left - 1, hops - 1);
      WalkMore(g, Resolve(g, t, hops - 1), path, left - 1, left);
      forall more | more >= hops
        ensures Resolve(g, n, more) == Resolve(g, n, hops)
      {
        assert more - 1 >= hops - 1;
      }
    }
  }

  // ----- A mapping's entries -----

  /** at is where, below the mapping, the walk judges the value: [key], but for
      an entry merged in through a list. */
  datatype Entry = Entry(key: string, value: nat, at: seq<string>)

  function Own(pairs: seq<Pair>): seq<Entry> {
    if pairs == [] then []
    else
      var last := pairs[|pairs| - 1];
      Own(pairs[..|pairs| - 1]) + if last.key.merge then [] else [Entry(last.key.text, last.value, [last.key.text])]
  }

  /** Is what `<<` names a list of mappings, rather than one? */
  predicate MergesList(g: Graph, value: nat) {
    At(g, Resolve(g, value, LEVELS)).Sequence?
  }

  function Sources(g: Graph, value: nat): seq<nat> {
    if MergesList(g, value) then At(g, Resolve(g, value, LEVELS)).items else [value]
  }

  function Under(es: seq<Entry>, above: seq<string>): seq<Entry> {
    seq(|es|, i requires 0 <= i < |es| => es[i].(at := above + es[i].at))
  }

  function Above(list: bool, i: nat): seq<string> {
    if list then [Decimal(i)] else []
  }

  function FromSources(g: Graph, sources: seq<nat>, list: bool, left: nat): seq<Entry>
    requires left > 0
    decreases left, 0, |sources|
  {
    if sources == [] then []
    else
      var i := |sources| - 1;
      FromSources(g, sources[..i], list, left) + Under(Entries(g, sources[i], left - 1), Above(list, i))
  }

  function Merged(g: Graph, pairs: seq<Pair>, left: nat): seq<Entry>
    requires left > 0
    decreases left, 1, |pairs|
  {
    if pairs == [] then []
    else
      var last := pairs[|pairs| - 1];
      Merged(g, pairs[..|pairs| - 1], left)
      + if last.key.merge then FromSources(g, Sources(g, last.value), MergesList(g, last.value), left) else []
  }

  function First(es: seq<Entry>, key: string): Option<Entry> {
    if es == [] then None
    else if es[0].key == key then Some(es[0])
    else First(es[1..], key)
  }

  /** The first entry of each key. */
  function Distinct(es: seq<Entry>): seq<Entry> {
    if es == [] then []
    else
      var init, last := Distinct(es[..|es| - 1]), es[|es| - 1];
      if First(init, last.key).Some? then init else init + [last]
  }

  function Entries(g: Graph, n: nat, left: nat): seq<Entry>
    decreases left, 2
  {
    var node := At(g, Resolve(g, n, LEVELS));
    if !node.Mapping? || left == 0 then []
    else Distinct(Own(node.pairs) + Merged(g, node.pairs, left))
  }

  // ----- mappingEntries -----

  lemma FirstOfSum(a: seq<Entry>, b: seq<Entry>, key: string)
    ensures First(a + b, key) == if First(a, key).Some? then First(a, key) else First(b, key)
  {
    if a == [] {
      assert a + b == b;
    } else {
      assert (a + b)[1..] == a[1..] + b;
      FirstOfSum(a[1..], b, key);
    }
  }

  lemma FirstIn(es: seq<Entry>, key: string)
    ensures First(es, key).Some? <==> exists e :: e in es && e.key == key
    ensures First(es, key).Some? ==> First(es, key).value in es && First(es, key).value.key == key
  {
    if es != [] {
      FirstIn(es[1..], key);
      assert es == [es[0]] + es[1..];
    }
  }

  method DistinctEntries(all: seq<Entry>) returns (out: seq<Entry>)
    ensures out == Distinct(all)
  {
    var seen: set<string> := {};
    out := [];
    assert forall key :: First(out, key).None?;
    hide First;
    for i := 0 to |all|
      invariant out == Distinct(all[..i])
      invariant forall key :: key in seen <==> First(out, key).Some?
    {
      var e := all[i];
      assert all[..i + 1][..i] == all[..i];
      if e.key !in seen {
        AppendSeen(out, e);
        seen := seen + {e.key};
        out := out + [e];
      }
    }
    assert all[..|all|] == all;
  }

  lemma AppendSeen(es: seq<Entry>, e: Entry)
    ensures forall key :: First(es + [e], key).Some? <==> First(es, key).Some? || key == e.key
  {
    forall key
      ensures First(es + [e], key).Some? <==> First(es, key).Some? || key == e.key
    {
      FirstOfSum(es, [e], key);
    }
  }

  lemma PairStep(g: Graph, pairs: seq<Pair>, i: nat, left: nat)
    requires i < |pairs| && left > 0
    ensures Own(pairs[..i + 1])
         == Own(pairs[..i]) + if pairs[i].key.merge then [] else [Entry(pairs[i].key.text, pairs[i].value, [pairs[i].key.text])]
    ensures Merged(g, pairs[..i + 1], left)
         == Merged(g, pairs[..i], left)
            + if pairs[i].key.merge then FromSources(g, Sources(g, pairs[i].value), MergesList(g, pairs[i].value), left) else []
  {
    hide FromSources, Sources, MergesList;
    assert pairs[..i + 1][..i] == pairs[..i];
  }

  lemma SourceStep(g: Graph, sources: seq<nat>, j: nat, list: bool, left: nat, before: seq<Entry>)
    requires j < |sources| && left > 0
    ensures before + FromSources(g, sources[..j + 1], list, left)
         == before + FromSources(g, sources[..j], list, left) + Under(Entries(g, sources[j], left - 1), Above(list, j))
  {
    hide Entries, Under;
    assert sources[..j + 1][..j] == sources[..j];
  }

  /** mappingEntries. */
  method MappingEntries(g: Graph, n: nat, left: nat) returns (out: seq<Entry>)
    ensures out == Entries(g, n, left)
    decreases left
  {
    hide Distinct, MergesList, Sources, Resolve, Under, Above;
    var node := At(g, Resolve(g, n, LEVELS));
    if !node.Mapping? || left == 0 {
      return [];
    }
    var own, merged := [], [];
    assert Own(node.pairs[..0]) == [] && Merged(g, node.pairs[..0], left) == [];
    for i := 0 to |node.pairs|
      invariant own == Own(node.pairs[..i]) && merged == Merged(g, node.pairs[..i], left)
    {
      hide Own, Merged, Entries;
      var pair := node.pairs[i];
      PairStep(g, node.pairs, i, left);
      if pair.key.merge {
        var sources, list := Sources(g, pair.value), MergesList(g, pair.value);
        ghost var before := merged;
        assert before + FromSources(g, sources[..0], list, left) == before;
        for j := 0 to |sources|
          invariant merged == before + FromSources(g, sources[..j], list, left)
        {
          hide FromSources;
          var es := MappingEntries(g, sources[j], left - 1);
          SourceStep(g, sources, j, list, left, before);
          merged := merged + Under(es, Above(list, j));
        }
        assert sources[..|sources|] == sources;
      } else {
        own := own + [Entry(pair.key.text, pair.value, [pair.key.text])];
      }
    }
    assert node.pairs[..|node.pairs|] == node.pairs;
    out := DistinctEntries(own + merged);
  }

  // ----- Where an entry comes from -----

  lemma {:induction false} InDistinct(all: seq<Entry>, e: Entry)
    requires e in Distinct(all)
    ensures e in all
  {
    var init := all[..|all| - 1];
    assert all == init + [all[|all| - 1]];
    if e in Distinct(init) {
      InDistinct(init, e);
    }
  }

  lemma {:induction false} InOwn(pairs: seq<Pair>, e: Entry) returns (i: nat)
    requires e in Own(pairs)
    ensures i < |pairs| && !pairs[i].key.merge && e == Entry(pairs[i].key.text, pairs[i].value, [pairs[i].key.text])
  {
    i := |pairs| - 1;
    if e in Own(pairs[..i]) {
      i := InOwn(pairs[..i], e);
    }
  }

  lemma {:induction false} InMerged(g: Graph, pairs: seq<Pair>, left: nat, e: Entry) returns (i: nat)
    requires left > 0 && e in Merged(g, pairs, left)
    ensures i < |pairs| && pairs[i].key.merge
    ensures e in FromSources(g, Sources(g, pairs[i].value), MergesList(g, pairs[i].value), left)
  {
    hide FromSources, Sources, MergesList;
    i := |pairs| - 1;
    if e in Merged(g, pairs[..i], left) {
      i := InMerged(g, pairs[..i], left, e);
    }
  }

  lemma {:induction false} InFromSources(g: Graph, sources: seq<nat>, list: bool, left: nat, e: Entry)
    returns (j: nat, e': Entry)
    requires left > 0 && e in FromSources(g, sources, list, left)
    ensures j < |sources| && e' in Entries(g, sources[j], left - 1) && e == e'.(at := Above(list, j) + e'.at)
  {
    hide Entries;
    j := |sources| - 1;
    if e in FromSources(g, sources[..j], list, left) {
      j, e' := InFromSources(g, sources[..j], list, left, e);
    } else {
      var es := Entries(g, sources[j], left - 1);
      var k :| 0 <= k < |es| && Under(es, Above(list, j))[k] == e;
      e' := es[k];
    }
  }

  datatype Origin = OwnPair(i: nat) | MergedPair(i: nat, j: nat, e: Entry)

  /** Any entry is a pair of the mapping, or an entry of something it merges. */
  ghost predicate From(g: Graph, n: nat, left: nat, e: Entry, o: Origin) {
    var node := At(g, Resolve(g, n, LEVELS));
    && node.Mapping? && left > 0 && o.i < |node.pairs|
    && var pair := node.pairs[o.i];
       && pair.key.merge == o.MergedPair?
       && (o.OwnPair? ==> e == Entry(pair.key.text, pair.value, [pair.key.text]))
       && (o.MergedPair? ==>
             && o.j < |Sources(g, pair.value)| && o.e in Entries(g, Sources(g, pair.value)[o.j], left - 1)
             && e == o.e.(at := Above(MergesList(g, pair.value), o.j) + o.e.at))
  }

  lemma EntryFrom(g: Graph, n: nat, left: nat, e: Entry) returns (o: Origin)
    requires e in Entries(g, n, left)
    ensures From(g, n, left, e, o)
  {
    hide Distinct, Own, Merged, Sources, MergesList, Above, Resolve;
    var pairs := At(g, Resolve(g, n, LEVELS)).pairs;
    InDistinct(Own(pairs) + Merged(g, pairs, left), e);
    if e in Own(pairs) {
      var i := InOwn(pairs, e);
      o := OwnPair(i);
    } else {
      var i := InMerged(g, pairs, left, e);
      var j, e' := InFromSources(g, Sources(g, pairs[i].value), MergesList(g, pairs[i].value), left, e);
      o := MergedPair(i, j, e');
    }
  }

  // ----- The walk has seen every entry -----

  lemma SourceWalked(g: Graph, value: nat, path: seq<string>, left: nat, j: nat)
    requires Walk(g, value, path, left) && left <= LEVELS && j < |Sources(g, value)|
    ensures Walk(g, Sources(g, value)[j], path + Above(MergesList(g, value), j), left)
  {
    ResolveSettles(g, value, path, left, LEVELS);
    assert path + [] == path;
    if MergesList(g, value) {
      WalkMore(g, Sources(g, value)[j], path + [Decimal(j)], left - 1, left);
    }
  }

  lemma PairWalked(g: Graph, n: nat, path: seq<string>, left: nat, i: nat)
    requires Walk(g, n, path, left) && left <= LEVELS
    requires var node := At(g, Resolve(g, n, LEVELS)); node.Mapping? && i < |node.pairs|
    ensures left > 0
    ensures var pair := At(g, Resolve(g, n, LEVELS)).pairs[i]; Walk(g, pair.value, Below(path, pair.key), left - 1)
  {
    ResolveSettles(g, n, path, left, LEVELS);
  }

  /** Where a mapping is accepted, so is the value of every entry it has, at
      the place the entry says. */
  lemma {:induction false} EntryWalked(g: Graph, n: nat, path: seq<string>, left: nat, depth: nat, e: Entry)
    requires Walk(g, n, path, left) && left <= LEVELS && e in Entries(g, n, depth)
    ensures left > 0 && Walk(g, e.value, path + e.at, left - 1)
    decreases depth
  {
    hide Walk, Entries, Sources, MergesList, Above, Resolve;
    var o := EntryFrom(g, n, depth, e);
    PairWalked(g, n, path, left, o.i);
    if o.MergedPair? {
      var value := At(g, Resolve(g, n, LEVELS)).pairs[o.i].value;
      var above := Above(MergesList(g, value), o.j);
      SourceWalked(g, value, path, left - 1, o.j);
      EntryWalked(g, Sources(g, value)[o.j], path + above, left - 1, depth - 1, o.e);
      Assoc(path, above, o.e.at);
      WalkMore(g, e.value, path + e.at, left - 2, left - 1);
    }
  }

  lemma {:induction false} SameFromSources(g: Graph, sources: seq<nat>, list: bool, left: nat, more: nat)
    requires 0 < left && 0 < more
    requires forall j :: 0 <= j < |sources| ==> Entries(g, sources[j], more - 1) == Entries(g, sources[j], left - 1)
    ensures FromSources(g, sources, list, more) == FromSources(g, sources, list, left)
  {
    hide Entries, Under, Above;
    if sources != [] {
      var init := sources[..|sources| - 1];
      assert forall j :: 0 <= j < |init| ==> init[j] == sources[j];
      SameFromSources(g, init, list, left, more);
    }
  }

  lemma {:induction false} SameMerged(g: Graph, pairs: seq<Pair>, left: nat, more: nat)
    requires 0 < left && 0 < more
    requires forall i, j :: 0 <= i < |pairs| && pairs[i].key.merge && 0 <= j < |Sources(g, pairs[i].value)| ==>
               Entries(g, Sources(g, pairs[i].value)[j], more - 1) == Entries(g, Sources(g, pairs[i].value)[j], left - 1)
    ensures Merged(g, pairs, more) == Merged(g, pairs, left)
  {
    hide Entries, Sources, MergesList, FromSources;
    if pairs != [] {
      var n := |pairs| - 1;
      assert forall i :: 0 <= i < n ==> pairs[..n][i] == pairs[i];
      SameMerged(g, pairs[..n], left, more);
      if pairs[n].key.merge {
        SameFromSources(g, Sources(g, pairs[n].value), MergesList(g, pairs[n].value), left, more);
      }
    }
  }

  /** Where the walk accepts, merges never reach the depth at which they would
      be cut off: allowing more levels changes no mapping. */
  lemma {:induction false} EntriesSettle(g: Graph, n: nat, path: seq<string>, left: nat, more: nat)
    requires Walk(g, n, path, left) && left <= LEVELS && left <= more
    ensures Entries(g, n, more) == Entries(g, n, left)
    decreases left
  {
    hide Walk, Sources, MergesList, Above, Resolve, Own, Merged, Distinct;
    var node := At(g, Resolve(g, n, LEVELS));
    NotNone(g, n, path, left);
    if node.Mapping? {
      forall i, j | 0 <= i < |node.pairs| && node.pairs[i].key.merge && 0 <= j < |Sources(g, node.pairs[i].value)|
        ensures Entries(g, Sources(g, node.pairs[i].value)[j], more - 1)
             == Entries(g, Sources(g, node.pairs[i].value)[j], left - 1)
      {
        var value := node.pairs[i].value;
        PairWalked(g, n, path, left, i);
        SourceWalked(g, value, path, left - 1, j);
        EntriesSettle(g, Sources(g, value)[j], path + Above(MergesList(g, value), j), left - 1, more - 1);
      }
      SameMerged(g, node.pairs, left, more);
    }
  }

  lemma NotNone(g: Graph, n: nat, path: seq<string>, left: nat)
    requires Walk(g, n, path, left)
    ensures left > 0
  {
  }

  // ----- Which value a key has -----

  lemma {:induction false} FirstOfDistinct(all: seq<Entry>, key: string)
    ensures First(Distinct(all), key) == First(all, key)
  {
    if all != [] {
      var init, last := all[..|all| - 1], all[|all| - 1];
      FirstOfDistinct(init, key);
      FirstOfDistinct(init, last.key);
      assert all == init + [last];
      FirstOfSum(init, [last], key);
      FirstOfSum(Distinct(init), [last], key);
    }
  }

  lemma {:induction false} KeysDiffer(all: seq<Entry>, i: nat, j: nat)
    requires i < j < |Distinct(all)|
    ensures Distinct(all)[i].key != Distinct(all)[j].key
  {
    var init, last := all[..|all| - 1], all[|all| - 1];
    FirstIn(Distinct(init), last.key);
    if j < |Distinct(init)| {
      KeysDiffer(init, i, j);
    }
  }

  /** The value the decoder gives a key: the mapping's own if it has one, or
      else that of the first merge, and first mapping of a merged list, to have one. */
  function Lookup(g: Graph, n: nat, key: string, left: nat): Option<nat>
    decreases left, 2
  {
    var node := At(g, Resolve(g, n, LEVELS));
    if !node.Mapping? || left == 0 then None
    else if OwnValue(node.pairs, key).Some? then OwnValue(node.pairs, key)
    else MergedValue(g, node.pairs, key, left)
  }

  function OwnValue(pairs: seq<Pair>, key: string): Option<nat> {
    if pairs == [] then None
    else
      var last := pairs[|pairs| - 1];
      var earlier := OwnValue(pairs[..|pairs| - 1], key);
      if earlier.Some? then earlier
      else if !last.key.merge && last.key.text == key then Some(last.value)
      else None
  }

  function MergedValue(g: Graph, pairs: seq<Pair>, key: string, left: nat): Option<nat>
    requires left > 0
    decreases left, 1, |pairs|
  {
    if pairs == [] then None
    else
      var last := pairs[|pairs| - 1];
      var earlier := MergedValue(g, pairs[..|pairs| - 1], key, left);
      if earlier.Some? then earlier
      else if last.key.merge then SourceValue(g, Sources(g, last.value), key, left)
      else None
  }

  function SourceValue(g: Graph, sources: seq<nat>, key: string, left: nat): Option<nat>
    requires left > 0
    decreases left, 0, |sources|
  {
    if sources == [] then None
    else
      var i := |sources| - 1;
      var earlier := SourceValue(g, sources[..i], key, left);
      if earlier.Some? then earlier else Lookup(g, sources[i], key, left - 1)
  }

  function ValueIn(es: seq<Entry>, key: string): Option<nat> {
    var e := First(es, key);
    if e.None? then None else Some(e.value.value)
  }

  lemma ValueInSum(a: seq<Entry>, b: seq<Entry>, key: string)
    ensures ValueIn(a + b, key) == if ValueIn(a, key).Some? then ValueIn(a, key) else ValueIn(b, key)
  {
    FirstOfSum(a, b, key);
  }

  lemma {:induction false} ValueUnder(es: seq<Entry>, above: seq<string>, key: string)
    ensures ValueIn(Under(es, above), key) == ValueIn(es, key)
  {
    if es != [] {
      assert Under(es, above)[1..] == Under(es[1..], above);
      ValueUnder(es[1..], above, key);
    }
  }

  lemma {:induction false} OwnIsValue(pairs: seq<Pair>, key: string)
    ensures ValueIn(Own(pairs), key) == OwnValue(pairs, key)
  {
    hide ValueIn;
    NoEntry(key);
    if pairs != [] {
      var init, last := pairs[..|pairs| - 1], pairs[|pairs| - 1];
      OwnIsValue(init, key);
      OneEntry(Entry(last.key.text, last.value, [last.key.text]), key);
      ValueInSum(Own(init), if last.key.merge then [] else [Entry(last.key.text, last.value, [last.key.text])], key);
    }
  }

  lemma NoEntry(key: string)
    ensures ValueIn([], key) == None
  {
  }

  lemma OneEntry(e: Entry, key: string)
    ensures ValueIn([e], key) == if e.key == key then Some(e.value) else None
  {
    var rest := [e][1..];
    assert rest == [] && First(rest, key) == None;
  }

  lemma {:induction false} SourcesAreValue(g: Graph, sources: seq<nat>, list: bool, key: string, left: nat)
    requires left > 0
    ensures ValueIn(FromSources(g, sources, list, left), key) == SourceValue(g, sources, key, left)
    decreases left, 0, |sources|
  {
    hide ValueIn, Under, Entries, Lookup;
    NoEntry(key);
    if sources != [] {
      var i := |sources| - 1;
      SourcesAreValue(g, sources[..i], list, key, left);
      EntriesAreLookup(g, sources[i], key, left - 1);
      ValueUnder(Entries(g, sources[i], left - 1), Above(list, i), key);
      ValueInSum(FromSources(g, sources[..i], list, left), Under(Entries(g, sources[i], left - 1), Above(list, i)), key);
    }
  }

  lemma {:induction false} MergedIsValue(g: Graph, pairs: seq<Pair>, key: string, left: nat)
    requires left > 0
    ensures ValueIn(Merged(g, pairs, left), key) == MergedValue(g, pairs, key, left)
    decreases left, 1, |pairs|
  {
    hide ValueIn, FromSources, Sources, MergesList, SourceValue;
    NoEntry(key);
    if pairs != [] {
      var init, last := pairs[..|pairs| - 1], pairs[|pairs| - 1];
      MergedIsValue(g, init, key, left);
      if last.key.merge {
        var sources, list := Sources(g, last.value), MergesList(g, last.value);
        SourcesAreValue(g, sources, list, key, left);
        ValueInSum(Merged(g, init, left), FromSources(g, sources, list, left), key);
      } else {
        assert Merged(g, init, left) + [] == Merged(g, init, left);
      }
    }
  }

  /** The list mappingEntries builds has each key once, and gives it the value
      the decoder does. */
  lemma {:induction false} EntriesAreLookup(g: Graph, n: nat, key: string, left: nat)
    ensures ValueIn(Entries(g, n, left), key) == Lookup(g, n, key, left)
    ensures forall i, j :: 0 <= i < j < |Entries(g, n, left)| ==> Entries(g, n, left)[i].key != Entries(g, n, left)[j].key
    decreases left, 2
  {
    hide Distinct, Own, Merged, Resolve, OwnValue, MergedValue, First;
    NoEntry(key);
    var node := At(g, Resolve(g, n, LEVELS));
    if node.Mapping? && left > 0 {
      var own, merged := Own(node.pairs), Merged(g, node.pairs, left);
      OwnIsValue(node.pairs, key);
      MergedIsValue(g, node.pairs, key, left);
      FirstOfDistinct(own + merged, key);
      ValueInSum(own, merged, key);
      forall i, j | 0 <= i < j < |Distinct(own + merged)|
        ensures Distinct(own + merged)[i].key != Distinct(own + merged)[j].key
      {
        KeysDiffer(own + merged, i, j);
      }
    }
  }
}
