/** The locked values a config's repositories use (LockedValues in
    internal/config/locked.go), against where the placement walk allows them. */
module LockedUse {
  import opened Sequences
  import opened Wrappers
  import opened Locked
  import opened StableSort
  import Names

  datatype Place = PasswordOf(repo: string) | EnvOf(repo: string, name: string)

  datatype Use = Use(text: string, place: Place)

  predicate IsLocked(g: Graph, n: nat) {
    At(g, Resolve(g, n, LEVELS)).Scalar? && At(g, Resolve(g, n, LEVELS)).tag == LockedTag
  }

  function Text(g: Graph, n: nat): string
    requires IsLocked(g, n)
  {
    At(g, Resolve(g, n, LEVELS)).text
  }

  // ----- In the order LockedValues meets them -----

  function UseOf(g: Graph, value: nat, place: Place): seq<Use> {
    if IsLocked(g, value) then [Use(Text(g, value), place)] else []
  }

  function EnvUses(g: Graph, repo: string, envs: seq<Entry>): seq<Use> {
    if envs == [] then []
    else
      var last := envs[|envs| - 1];
      EnvUses(g, repo, envs[..|envs| - 1]) + UseOf(g, last.value, EnvOf(repo, last.key))
  }

  function FieldUses(g: Graph, repo: string, field: Entry): seq<Use> {
    if field.key == "password" then UseOf(g, field.value, PasswordOf(repo))
    else if field.key == "env" then EnvUses(g, repo, Entries(g, field.value, LEVELS))
    else []
  }

  function RepoUses(g: Graph, repo: string, fields: seq<Entry>): seq<Use> {
    if fields == [] then []
    else RepoUses(g, repo, fields[..|fields| - 1]) + FieldUses(g, repo, fields[|fields| - 1])
  }

  function SectionUses(g: Graph, repos: seq<Entry>): seq<Use> {
    if repos == [] then []
    else
      var last := repos[|repos| - 1];
      SectionUses(g, repos[..|repos| - 1]) + RepoUses(g, last.key, Entries(g, last.value, LEVELS))
  }

  function DocUses(g: Graph, pairs: seq<Pair>): seq<Use> {
    if pairs == [] then []
    else
      var last := pairs[|pairs| - 1];
      DocUses(g, pairs[..|pairs| - 1])
      + if last.key.text == "repositories" then SectionUses(g, Entries(g, last.value, LEVELS)) else []
  }

  /** And the lines of the values met, one for each use. */
  function UseLines(g: Graph, value: nat): seq<nat> {
    if IsLocked(g, value) then [At(g, Resolve(g, value, LEVELS)).line] else []
  }

  function EnvLines(g: Graph, envs: seq<Entry>): seq<nat> {
    if envs == [] then [] else EnvLines(g, envs[..|envs| - 1]) + UseLines(g, envs[|envs| - 1].value)
  }

  function FieldLines(g: Graph, field: Entry): seq<nat> {
    if field.key == "password" then UseLines(g, field.value)
    else if field.key == "env" then EnvLines(g, Entries(g, field.value, LEVELS))
    else []
  }

  function RepoLines(g: Graph, fields: seq<Entry>): seq<nat> {
    if fields == [] then [] else RepoLines(g, fields[..|fields| - 1]) + FieldLines(g, fields[|fields| - 1])
  }

  function SectionLines(g: Graph, repos: seq<Entry>): seq<nat> {
    if repos == [] then []
    else SectionLines(g, repos[..|repos| - 1]) + RepoLines(g, Entries(g, repos[|repos| - 1].value, LEVELS))
  }

  function DocLines(g: Graph, pairs: seq<Pair>): seq<nat> {
    if pairs == [] then []
    else
      var last := pairs[|pairs| - 1];
      DocLines(g, pairs[..|pairs| - 1])
      + if last.key.text == "repositories" then SectionLines(g, Entries(g, last.value, LEVELS)) else []
  }

  // ----- LockedValues -----

  /** lines is where each text was first met. */
  datatype Listing = Listing(order: seq<string>, usedAt: map<string, seq<Place>>, lines: map<string, nat>)

  function Add(l: Listing, u: Use, line: nat): Listing {
    var l' := if u.text in l.usedAt then l else Listing(l.order + [u.text], l.usedAt[u.text := []], l.lines[u.text := line]);
    if u.place in l'.usedAt[u.text] then l' else l'.(usedAt := l'.usedAt[u.text := l'.usedAt[u.text] + [u.place]])
  }

  /** Each text once, with each of its places once. */
  ghost predicate Lists(l: Listing, uses: seq<Use>) {
    && NoDuplicates(l.order)
    && (forall text :: text in l.order <==> text in l.usedAt)
    && (forall text :: text in l.usedAt ==> l.usedAt[text] != [] && NoDuplicates(l.usedAt[text]))
    && (forall u: Use :: u in uses <==> u.text in l.usedAt && u.place in l.usedAt[u.text])
  }

  /** Each text listed has a line on which it is written, locked. */
  ghost predicate Written(g: Graph, l: Listing) {
    && l.lines.Keys == l.usedAt.Keys
    && forall text :: text in l.lines ==> exists n: nat :: At(g, n) == Scalar(LockedTag, text, l.lines[text])
  }

  /** Use k is the first of its text. */
  predicate FirstUse(uses: seq<Use>, k: nat) {
    k < |uses| && forall j :: 0 <= j < k ==> uses[j].text != uses[k].text
  }

  /** The texts, in the order first met. */
  function TextsMet(uses: seq<Use>): seq<string> {
    if uses == [] then []
    else
      var before, text := TextsMet(uses[..|uses| - 1]), uses[|uses| - 1].text;
      if text in before then before else before + [text]
  }

  /** The texts stand in the order they were first met, each with its line then. */
  ghost predicate Met(l: Listing, uses: seq<Use>, lines: seq<nat>) {
    && |lines| == |uses| && l.order == TextsMet(uses)
    && (forall text :: text in l.lines <==> text in l.order)
    && forall k: nat :: FirstUse(uses, k) ==> uses[k].text in l.lines && l.lines[uses[k].text] == lines[k]
  }

  lemma {:induction false} MetIsUsed(uses: seq<Use>, text: string)
    ensures text in TextsMet(uses) <==> exists k :: 0 <= k < |uses| && uses[k].text == text
  {
    if uses != [] {
      var init := uses[..|uses| - 1];
      MetIsUsed(init, text);
      assert forall k :: 0 <= k < |init| ==> init[k] == uses[k];
    }
  }

  lemma AddMet(l: Listing, uses: seq<Use>, lines: seq<nat>, u: Use, line: nat)
    requires Lists(l, uses) && Met(l, uses, lines)
    ensures Met(Add(l, u, line), uses + [u], lines + [line])
  {
    var n, more := |uses|, uses + [u];
    assert more[..n] == uses;
    MetIsUsed(uses, u.text);
    forall k: nat | FirstUse(more, k)
      ensures k < n ==> FirstUse(uses, k)
      ensures k == n ==> u.text !in TextsMet(uses)
    {
      assert forall j :: 0 <= j < n ==> more[j] == uses[j];
    }
  }

  lemma AddLists(l: Listing, uses: seq<Use>, u: Use, line: nat)
    requires Lists(l, uses)
    ensures Lists(Add(l, u, line), uses + [u])
  {
  }

  lemma AddWritten(g: Graph, l: Listing, u: Use, n: nat)
    requires Written(g, l) && At(g, n).Scalar? && At(g, n).tag == LockedTag && At(g, n).text == u.text
    ensures Written(g, Add(l, u, At(g, n).line))
  {
    var l' := Add(l, u, At(g, n).line);
    forall text | text in l'.lines
      ensures exists m: nat :: At(g, m) == Scalar(LockedTag, text, l'.lines[text])
    {
      if text in l.lines {
        var m: nat :| At(g, m) == Scalar(LockedTag, text, l.lines[text]);
      } else {
        assert At(g, n) == Scalar(LockedTag, text, l'.lines[text]);
      }
    }
  }

  method AddUse(l: Listing, ghost uses: seq<Use>, ghost lines: seq<nat>, g: Graph, value: nat, place: Place) returns (r: Listing)
    requires Lists(l, uses) && Written(g, l) && Met(l, uses, lines)
    ensures Lists(r, uses + UseOf(g, value, place)) && Written(g, r)
    ensures Met(r, uses + UseOf(g, value, place), lines + UseLines(g, value))
  {
    r := l;
    assert uses + [] == uses && lines + [] == lines;
    if IsLocked(g, value) {
      hide Lists, Written, Met, Add;
      var n := Resolve(g, value, LEVELS);
      AddLists(l, uses, Use(Text(g, value), place), At(g, n).line);
      AddWritten(g, l, Use(Text(g, value), place), n);
      AddMet(l, uses, lines, Use(Text(g, value), place), At(g, n).line);
      r := Add(l, Use(Text(g, value), place), At(g, n).line);
    }
  }

  method AddField(l: Listing, ghost uses: seq<Use>, ghost lines: seq<nat>, g: Graph, repo: string, field: Entry) returns (r: Listing)
    requires Lists(l, uses) && Written(g, l) && Met(l, uses, lines)
    ensures Lists(r, uses + FieldUses(g, repo, field)) && Written(g, r)
    ensures Met(r, uses + FieldUses(g, repo, field), lines + FieldLines(g, field))
  {
    hide Lists, Written, Met, UseOf, UseLines, Entries;
    r := l;
    if field.key == "password" {
      r := AddUse(l, uses, lines, g, field.value, PasswordOf(repo));
    } else if field.key == "env" {
      var envs := MappingEntries(g, field.value, LEVELS);
      assert uses + [] == uses && lines + [] == lines;
      for i := 0 to |envs|
        invariant Lists(r, uses + EnvUses(g, repo, envs[..i])) && Written(g, r)
        invariant Met(r, uses + EnvUses(g, repo, envs[..i]), lines + EnvLines(g, envs[..i]))
      {
        r := AddUse(r, uses + EnvUses(g, repo, envs[..i]), lines + EnvLines(g, envs[..i]), g, envs[i].value, EnvOf(repo, envs[i].key));
        assert envs[..i + 1][..i] == envs[..i];
        Assoc(uses, EnvUses(g, repo, envs[..i]), UseOf(g, envs[i].value, EnvOf(repo, envs[i].key)));
        Assoc(lines, EnvLines(g, envs[..i]), UseLines(g, envs[i].value));
      }
      assert envs[..|envs|] == envs;
    } else {
      assert uses + [] == uses && lines + [] == lines;
    }
  }

  method AddRepo(l: Listing, ghost uses: seq<Use>, ghost lines: seq<nat>, g: Graph, repo: Entry) returns (r: Listing)
    requires Lists(l, uses) && Written(g, l) && Met(l, uses, lines)
    ensures Lists(r, uses + RepoUses(g, repo.key, Entries(g, repo.value, LEVELS))) && Written(g, r)
    ensures Met(r, uses + RepoUses(g, repo.key, Entries(g, repo.value, LEVELS)), lines + RepoLines(g, Entries(g, repo.value, LEVELS)))
  {
    hide Lists, Written, Met, FieldUses, FieldLines, Entries;
    r := l;
    var fields := MappingEntries(g, repo.value, LEVELS);
    assert uses + [] == uses && lines + [] == lines;
    for i := 0 to |fields|
      invariant Lists(r, uses + RepoUses(g, repo.key, fields[..i])) && Written(g, r)
      invariant Met(r, uses + RepoUses(g, repo.key, fields[..i]), lines + RepoLines(g, fields[..i]))
    {
      r := AddField(r, uses + RepoUses(g, repo.key, fields[..i]), lines + RepoLines(g, fields[..i]), g, repo.key, fields[i]);
      assert fields[..i + 1][..i] == fields[..i];
      Assoc(uses, RepoUses(g, repo.key, fields[..i]), FieldUses(g, repo.key, fields[i]));
      Assoc(lines, RepoLines(g, fields[..i]), FieldLines(g, fields[i]));
    }
    assert fields[..|fields|] == fields;
  }

  method AddSection(l: Listing, ghost uses: seq<Use>, ghost lines: seq<nat>, g: Graph, section: nat) returns (r: Listing)
    requires Lists(l, uses) && Written(g, l) && Met(l, uses, lines)
    ensures Lists(r, uses + SectionUses(g, Entries(g, section, LEVELS))) && Written(g, r)
    ensures Met(r, uses + SectionUses(g, Entries(g, section, LEVELS)), lines + SectionLines(g, Entries(g, section, LEVELS)))
  {
    hide Lists, Written, Met, RepoUses, RepoLines, Entries;
    r := l;
    var repos := MappingEntries(g, section, LEVELS);
    assert uses + [] == uses && lines + [] == lines;
    for i := 0 to |repos|
      invariant Lists(r, uses + SectionUses(g, repos[..i])) && Written(g, r)
      invariant Met(r, uses + SectionUses(g, repos[..i]), lines + SectionLines(g, repos[..i]))
    {
      r := AddRepo(r, uses + SectionUses(g, repos[..i]), lines + SectionLines(g, repos[..i]), g, repos[i]);
      assert repos[..i + 1][..i] == repos[..i];
      Assoc(uses, SectionUses(g, repos[..i]), RepoUses(g, repos[i].key, Entries(g, repos[i].value, LEVELS)));
      Assoc(lines, SectionLines(g, repos[..i]), RepoLines(g, Entries(g, repos[i].value, LEVELS)));
    }
    assert repos[..|repos|] == repos;
  }

  // ----- The order they are written in -----

  function LineOf(l: Listing): string -> nat {
    text => if text in l.lines then l.lines[text] else 0
  }

  lemma SortedLists(l: Listing, uses: seq<Use>)
    requires Lists(l, uses)
    ensures Lists(l.(order := ByLine(l.order, LineOf(l))), uses)
  {
    hide LineOf, ByLine;
    var sorted := ByLine(l.order, LineOf(l));
    ByLineSorts(l.order, LineOf(l));
    assert forall text :: text in sorted <==> text in multiset(sorted);
    assert forall text :: text in l.order <==> text in multiset(l.order);
    SameNoDuplicates(l.order, sorted);
  }

  lemma SameNoDuplicates(xs: seq<string>, ys: seq<string>)
    requires NoDuplicates(xs) && multiset(xs) == multiset(ys)
    ensures NoDuplicates(ys)
  {
    forall i, j | 0 <= i < j < |ys|
      ensures ys[i] != ys[j]
    {
      if ys[i] == ys[j] {
        Names.NoDuplicatesCount(ys, i, j);
        Names.NoDuplicatesMultiset(xs, ys[i]);
      }
    }
  }

  function LinesIn(g: Graph, doc: nat): seq<nat> {
    if At(g, doc).Mapping? then DocLines(g, At(g, doc).pairs) else []
  }

  function UsesIn(g: Graph, doc: nat): seq<Use> {
    if At(g, doc).Mapping? then DocUses(g, At(g, doc).pairs) else []
  }

  method CollectUses(g: Graph, doc: nat) returns (l: Listing)
    ensures Lists(l, UsesIn(g, doc)) && Written(g, l) && Met(l, UsesIn(g, doc), LinesIn(g, doc))
  {
    l := Listing([], map[], map[]);
    assert Lists(l, []) && Written(g, l) && Met(l, [], []);
    hide Lists, Written, Met, SectionUses, SectionLines, Entries;
    if At(g, doc).Mapping? {
      var pairs := At(g, doc).pairs;
      for i := 0 to |pairs|
        invariant Lists(l, DocUses(g, pairs[..i])) && Written(g, l) && Met(l, DocUses(g, pairs[..i]), DocLines(g, pairs[..i]))
      {
        assert pairs[..i + 1][..i] == pairs[..i];
        if pairs[i].key.text == "repositories" {
          l := AddSection(l, DocUses(g, pairs[..i]), DocLines(g, pairs[..i]), g, pairs[i].value);
        } else {
          assert DocUses(g, pairs[..i]) + [] == DocUses(g, pairs[..i]) && DocLines(g, pairs[..i]) + [] == DocLines(g, pairs[..i]);
        }
      }
      assert pairs[..|pairs|] == pairs;
    }
  }

  /** LockedValues: refuses what the walk refuses, and otherwise lists every
      use under every `repositories` key, by the line each text is written on. */
  method LockedValues(g: Graph, doc: nat) returns (r: Option<Listing>)
    ensures r.None? <==> !Placed(g, doc)
    ensures r.Some? ==> Lists(r.value, UsesIn(g, doc)) && Written(g, r.value)
    ensures r.Some? ==> FirstLines(r.value, UsesIn(g, doc), LinesIn(g, doc)) && ByFirstLine(r.value, UsesIn(g, doc))
  {
    hide Lists, UsesIn, LinesIn, ByLine;
    if !Placed(g, doc) {
      return None;
    }
    var l := CollectUses(g, doc);
    SortedLists(l, UsesIn(g, doc));
    var sorted := l.(order := ByLine(l.order, LineOf(l)));
    InOrderOfLines(l, sorted, UsesIn(g, doc), LinesIn(g, doc));
    r := Some(sorted);
  }

  /** Each text has the line of its first use. */
  ghost predicate FirstLines(l: Listing, uses: seq<Use>, lines: seq<nat>) {
    && |lines| == |uses|
    && forall k: nat :: FirstUse(uses, k) ==> uses[k].text in l.lines && l.lines[uses[k].text] == lines[k]
  }

  /** The texts stand by line, and those on one line as they were first met. */
  ghost predicate ByFirstLine(l: Listing, uses: seq<Use>) {
    && (forall i :: 0 <= i < |l.order| ==> l.order[i] in l.lines)
    && (forall i, j :: 0 <= i < j < |l.order| ==> l.lines[l.order[i]] <= l.lines[l.order[j]])
    && forall line :: OnLine(l.order, LineOf(l), line) == OnLine(TextsMet(uses), LineOf(l), line)
  }

  lemma InOrderOfLines(l: Listing, sorted: Listing, uses: seq<Use>, lines: seq<nat>)
    requires sorted == l.(order := ByLine(l.order, LineOf(l))) && Met(l, uses, lines)
    ensures FirstLines(sorted, uses, lines) && ByFirstLine(sorted, uses)
  {
    hide ByLine, OnLine;
    ByLineSorts(l.order, LineOf(l));
    assert LineOf(sorted) == LineOf(l);
    forall i | 0 <= i < |sorted.order|
      ensures sorted.order[i] in l.lines
    {
      assert sorted.order[i] in multiset(sorted.order) && sorted.order[i] in multiset(l.order);
    }
  }

  // ----- What the decoder reaches -----

  /** The value under these keys, one mapping inside another, as decoded. */
  function Follow(g: Graph, n: nat, keys: seq<string>): Option<nat>
    decreases |keys|
  {
    if keys == [] then Some(n)
    else
      var v := Lookup(g, n, keys[0], LEVELS);
      if v.None? then None else Follow(g, v.value, keys[1..])
  }

  predicate Reaches(g: Graph, n: nat, keys: seq<string>, text: string) {
    var v := Follow(g, n, keys);
    v.Some? && IsLocked(g, v.value) && Text(g, v.value) == text
  }

  function KeysOf(place: Place): seq<string> {
    match place
    case PasswordOf(repo) => [repo, "password"]
    case EnvOf(repo, name) => [repo, "env", name]
  }

  lemma EntryIsLookup(g: Graph, n: nat, key: string, v: nat)
    ensures Lookup(g, n, key, LEVELS) == Some(v) <==>
            exists e :: e in Entries(g, n, LEVELS) && e.key == key && e.value == v
  {
    hide Entries, Lookup;
    var es := Entries(g, n, LEVELS);
    EntriesAreLookup(g, n, key, LEVELS);
    FirstIn(es, key);
    forall e | e in es && e.key == key
      ensures First(es, key) == Some(e)
    {
      var i :| 0 <= i < |es| && es[i] == e;
      var j :| 0 <= j < |es| && es[j] == First(es, key).value;
    }
  }

  lemma Descend(g: Graph, n: nat, keys: seq<string>, text: string)
    requires keys != []
    ensures Reaches(g, n, keys, text) <==>
            exists e :: e in Entries(g, n, LEVELS) && e.key == keys[0] && Reaches(g, e.value, keys[1..], text)
  {
    hide Entries, Lookup, IsLocked, Text;
    forall e | e in Entries(g, n, LEVELS) && e.key == keys[0]
      ensures Lookup(g, n, keys[0], LEVELS) == Some(e.value)
    {
      EntryIsLookup(g, n, keys[0], e.value);
    }
    var v := Lookup(g, n, keys[0], LEVELS);
    if v.Some? {
      EntryIsLookup(g, n, keys[0], v.value);
    }
  }

  lemma UseOfHas(g: Graph, value: nat, place: Place, u: Use)
    ensures u in UseOf(g, value, place) <==> place == u.place && Reaches(g, value, [], u.text)
  {
    hide Resolve;
  }

  lemma {:induction false} EnvUsesHave(g: Graph, repo: string, envs: seq<Entry>, u: Use)
    ensures u in EnvUses(g, repo, envs) <==>
            exists e :: e in envs && EnvOf(repo, e.key) == u.place && Reaches(g, e.value, [], u.text)
  {
    hide UseOf, Reaches;
    if envs != [] {
      var init, last := envs[..|envs| - 1], envs[|envs| - 1];
      EnvUsesHave(g, repo, init, u);
      UseOfHas(g, last.value, EnvOf(repo, last.key), u);
      assert envs == init + [last];
    }
  }

  lemma FieldUsesHave(g: Graph, repo: string, field: Entry, u: Use)
    ensures u in FieldUses(g, repo, field) <==>
            u.place.repo == repo && field.key == KeysOf(u.place)[1] && Reaches(g, field.value, KeysOf(u.place)[2..], u.text)
  {
    hide Reaches, UseOf, EnvUses, Entries;
    var keys := KeysOf(u.place)[2..];
    if field.key == "password" {
      UseOfHas(g, field.value, PasswordOf(repo), u);
      assert u.place.PasswordOf? ==> keys == [];
    } else if field.key == "env" {
      EnvUsesHave(g, repo, Entries(g, field.value, LEVELS), u);
      if u.place.EnvOf? {
        Descend(g, field.value, keys, u.text);
        assert keys[1..] == [];
      }
    }
  }

  lemma {:induction false} RepoUsesHave(g: Graph, repo: string, fields: seq<Entry>, u: Use)
    ensures u in RepoUses(g, repo, fields) <==> exists f :: f in fields && u in FieldUses(g, repo, f)
  {
    hide FieldUses;
    if fields != [] {
      var init, last := fields[..|fields| - 1], fields[|fields| - 1];
      RepoUsesHave(g, repo, init, u);
      assert fields == init + [last];
    }
  }

  lemma {:induction false} SectionUsesHave(g: Graph, repos: seq<Entry>, u: Use)
    ensures u in SectionUses(g, repos) <==>
            exists r :: r in repos && u in RepoUses(g, r.key, Entries(g, r.value, LEVELS))
  {
    hide RepoUses, Entries;
    if repos != [] {
      var init, last := repos[..|repos| - 1], repos[|repos| - 1];
      SectionUsesHave(g, init, u);
      assert repos == init + [last];
    }
  }

  lemma RepoReaches(g: Graph, repo: string, n: nat, u: Use)
    ensures u in RepoUses(g, repo, Entries(g, n, LEVELS)) <==>
            u.place.repo == repo && Reaches(g, n, KeysOf(u.place)[1..], u.text)
  {
    hide Reaches, FieldUses, RepoUses, Entries;
    var fields, keys := Entries(g, n, LEVELS), KeysOf(u.place);
    RepoUsesHave(g, repo, fields, u);
    Descend(g, n, keys[1..], u.text);
    assert keys[1..][1..] == keys[2..];
    forall f: Entry
      ensures u in FieldUses(g, repo, f) <==>
              u.place.repo == repo && f.key == keys[1] && Reaches(g, f.value, keys[2..], u.text)
    {
      FieldUsesHave(g, repo, f, u);
    }
  }

  lemma SectionReaches(g: Graph, n: nat, u: Use)
    ensures u in SectionUses(g, Entries(g, n, LEVELS)) <==> Reaches(g, n, KeysOf(u.place), u.text)
  {
    hide Reaches, RepoUses, SectionUses, Entries;
    var repos, keys := Entries(g, n, LEVELS), KeysOf(u.place);
    SectionUsesHave(g, repos, u);
    Descend(g, n, keys, u.text);
    forall r: Entry
      ensures u in RepoUses(g, r.key, Entries(g, r.value, LEVELS)) <==>
              u.place.repo == r.key && Reaches(g, r.value, keys[1..], u.text)
    {
      RepoReaches(g, r.key, r.value, u);
    }
  }

  /** What LockedValues collects: exactly the locked texts the decoder gives
      some repository as its password or in its env. */
  lemma {:induction false} UsesAreReached(g: Graph, pairs: seq<Pair>, u: Use)
    ensures u in DocUses(g, pairs) <==>
            exists p :: p in pairs && p.key.text == "repositories" && Reaches(g, p.value, KeysOf(u.place), u.text)
  {
    hide Reaches, SectionUses, Entries;
    if pairs != [] {
      var init, last := pairs[..|pairs| - 1], pairs[|pairs| - 1];
      UsesAreReached(g, init, u);
      SectionReaches(g, last.value, u);
      assert pairs == init + [last];
    }
  }

  // ----- Where the walk judged it -----

  function EntryOf(g: Graph, n: nat, key: string): Option<Entry> {
    First(Entries(g, n, LEVELS), key)
  }

  /** The place below n at which the walk judges what these keys reach. */
  function Judged(g: Graph, n: nat, keys: seq<string>): seq<string>
    decreases |keys|
  {
    if keys == [] then []
    else
      var e := EntryOf(g, n, keys[0]);
      if e.None? then [] else e.value.at + Judged(g, e.value.value, keys[1..])
  }

  lemma EntryOfLookup(g: Graph, n: nat, key: string)
    requires Lookup(g, n, key, LEVELS).Some?
    ensures var e := EntryOf(g, n, key);
            e.Some? && e.value in Entries(g, n, LEVELS) && e.value.key == key
            && e.value.value == Lookup(g, n, key, LEVELS).value
  {
    hide Entries, Lookup;
    EntriesAreLookup(g, n, key, LEVELS);
    FirstIn(Entries(g, n, LEVELS), key);
  }

  lemma {:induction false} FollowWalked(g: Graph, n: nat, path: seq<string>, keys: seq<string>)
    requires Walk(g, n, path, LEVELS) && Follow(g, n, keys).Some?
    ensures Walk(g, Follow(g, n, keys).value, path + Judged(g, n, keys), LEVELS)
    decreases |keys|
  {
    hide Walk, Lookup, EntryOf, Entries;
    if keys == [] {
      assert path + [] == path;
    } else {
      EntryOfLookup(g, n, keys[0]);
      var e := EntryOf(g, n, keys[0]).value;
      EntryWalked(g, n, path, LEVELS, LEVELS, e);
      WalkMore(g, e.value, path + e.at, LEVELS - 1, LEVELS);
      FollowWalked(g, e.value, path + e.at, keys[1..]);
      Assoc(path, e.at, Judged(g, e.value, keys[1..]));
    }
  }

  /** Main result on limits: in an accepted section, whatever keys are followed,
      the depth limit cuts off no alias and no merge, and so changes nothing. */
  lemma NothingCutOff(g: Graph, section: nat, path: seq<string>, keys: seq<string>, more: nat)
    requires Walk(g, section, path, LEVELS) && Follow(g, section, keys).Some? && more >= LEVELS
    ensures var m := Follow(g, section, keys).value;
            && Entries(g, m, more) == Entries(g, m, LEVELS)
            && !At(g, Resolve(g, m, LEVELS)).Alias? && Resolve(g, m, more) == Resolve(g, m, LEVELS)
  {
    hide Walk, Follow, Entries, Judged;
    FollowWalked(g, section, path, keys);
    var m, at := Follow(g, section, keys).value, path + Judged(g, section, keys);
    EntriesSettle(g, m, at, LEVELS, more);
    ResolveSettles(g, m, at, LEVELS, LEVELS);
  }

  /** An accepted locked value is judged at a place that may be locked. */
  lemma JudgedLockable(g: Graph, n: nat, path: seq<string>, keys: seq<string>, text: string)
    requires Walk(g, n, path, LEVELS) && Reaches(g, n, keys, text)
    ensures Lockable(path + Judged(g, n, keys))
  {
    hide Judged, Follow;
    FollowWalked(g, n, path, keys);
    ResolveSettles(g, Follow(g, n, keys).value, path + Judged(g, n, keys), LEVELS, LEVELS);
  }

  predicate IsIndex(s: string) {
    s != [] && '0' <= s[0] <= '9'
  }

  lemma {:induction false} DecimalIsIndex(n: nat)
    ensures IsIndex(Decimal(n))
  {
    if n >= 10 {
      DecimalIsIndex(n / 10);
    }
  }

  /** A merged list puts the number of the mapping before its keys. */
  lemma {:induction false} AtShape(g: Graph, n: nat, left: nat, e: Entry)
    requires e in Entries(g, n, left)
    ensures |e.at| > 0 && e.at[|e.at| - 1] == e.key
    ensures forall i :: 0 <= i < |e.at| - 1 ==> IsIndex(e.at[i])
    decreases left
  {
    hide Entries, Resolve, Sources, MergesList, Decimal, IsIndex;
    var o := EntryFrom(g, n, left, e);
    if o.MergedPair? {
      var value := At(g, Resolve(g, n, LEVELS)).pairs[o.i].value;
      AtShape(g, Sources(g, value)[o.j], left - 1, o.e);
      DecimalIsIndex(o.j);
    }
  }

  /** The keys, each with list numbers before it or none. */
  ghost predicate Spelled(keys: seq<string>, at: seq<string>)
    decreases |keys|
  {
    if keys == [] then at == []
    else exists c :: SpelledFrom(keys, at, c) && Spelled(keys[1..], at[c + 1..])
  }

  ghost predicate SpelledFrom(keys: seq<string>, at: seq<string>, c: nat)
    requires keys != []
  {
    c < |at| && at[c] == keys[0] && forall i :: 0 <= i < c ==> IsIndex(at[i])
  }

  lemma {:induction false} JudgedSpells(g: Graph, n: nat, keys: seq<string>)
    requires Follow(g, n, keys).Some?
    ensures Spelled(keys, Judged(g, n, keys))
    ensures keys != [] ==>
              var c := |EntryOf(g, n, keys[0]).value.at| - 1;
              c >= 0 && SpelledFrom(keys, Judged(g, n, keys), c) && Spelled(keys[1..], Judged(g, n, keys)[c + 1..])
    decreases |keys|
  {
    hide Lookup, EntryOf, Entries, IsIndex;
    if keys != [] {
      EntryOfLookup(g, n, keys[0]);
      var e := EntryOf(g, n, keys[0]).value;
      AtShape(g, n, LEVELS, e);
      var rest := Judged(g, e.value, keys[1..]);
      JudgedSpells(g, e.value, keys[1..]);
      assert (e.at + rest)[|e.at| - 1 + 1..] == rest;
      assert SpelledFrom(keys, e.at + rest, |e.at| - 1);
    }
  }

  // ----- Where it stands -----

  const ROOT := ["repositories"]

  lemma NoListNumber(keys: seq<string>, at: seq<string>)
    requires Spelled(keys, at) && (at != [] ==> !IsIndex(at[0]))
    ensures keys == [] <==> at == []
    ensures keys != [] ==> keys[0] == at[0] && Spelled(keys[1..], at[1..])
  {
    hide IsIndex;
    if keys != [] {
      var c :| SpelledFrom(keys, at, c) && Spelled(keys[1..], at[c + 1..]);
    }
  }

  lemma OneLeft(keys: seq<string>, at: seq<string>)
    requires Spelled(keys, at) && |at| == 1
    ensures keys == at
  {
    assert keys != [];
    var c :| SpelledFrom(keys, at, c) && Spelled(keys[1..], at[c + 1..]);
    assert c == 0 && at[1..] == [];
    assert keys[1..] == [];
  }

  /** After a repository's name, only its password or env follows. */
  lemma TailSpelled(keys: seq<string>, at: seq<string>)
    requires Spelled(keys, at)
    requires at == ["password"] || (|at| == 2 && at[0] == "env")
    ensures keys == at
  {
    hide Spelled, SpelledFrom;
    if |at| == 1 {
      OneLeft(keys, at);
    } else {
      NoListNumber(keys, at);
      OneLeft(keys[1..], at[1..]);
    }
  }

  /** A first key reached as itself leaves every key as itself; one reached
      through a list stands one place higher than it was judged. */
  lemma StandsWhere(keys: seq<string>, at: seq<string>, c: nat)
    requires keys != [] && SpelledFrom(keys, at, c) && Spelled(keys[1..], at[c + 1..]) && Lockable(ROOT + at)
    ensures c == 0 ==> keys == at
    ensures c > 0 ==> c == 1 && keys == at[1..]
  {
    hide Spelled;
    var path := ROOT + at;
    assert path[1] == at[0] && path[2] == at[1] && (|at| == 3 ==> path[3] == at[2]);
    assert at[1] == "password" || at[1] == "env";
    if c == 0 {
      var rest := at[0 + 1..];
      assert rest == ["password"] || (|rest| == 2 && rest[0] == "env");
      TailSpelled(keys[1..], rest);
      assert keys == [keys[0]] + keys[1..];
    } else {
      if c > 1 {
        assert false;
      }
      var rest := at[1 + 1..];
      if |at| == 2 {
        LeftEmpty(keys[1..], rest);
      } else {
        OneLeft(keys[1..], rest);
      }
      assert keys == [keys[0]] + keys[1..] && at[1..] == [at[1]] + rest;
    }
  }

  lemma LeftEmpty(keys: seq<string>, at: seq<string>)
    requires Spelled(keys, at) && at == []
    ensures keys == []
  {
  }

  /** Is this repository merged into the section through a list? */
  predicate ThroughList(g: Graph, section: nat, keys: seq<string>) {
    keys != [] && EntryOf(g, section, keys[0]).Some? && |EntryOf(g, section, keys[0]).value.at| > 1
  }

  /** Main result on placement, exactly: a locked value that an accepted
      document gives stands where one is allowed, if and only if its repository
      was not merged in through a list (or is called `env`, and the value its
      password). */
  lemma PlacementExactly(g: Graph, section: nat, keys: seq<string>, text: string)
    requires Walk(g, section, ROOT, LEVELS) && Reaches(g, section, keys, text)
    ensures Lockable(ROOT + keys) <==> !ThroughList(g, section, keys) || keys == ["env", "password"]
  {
    hide Walk, Judged, Follow, EntryOf, Spelled, SpelledFrom;
    JudgedLockable(g, section, ROOT, keys, text);
    ReachesSome(g, section, keys, text);
    JudgedSpells(g, section, keys);
    var at := Judged(g, section, keys);
    if keys == [] {
      NothingSpelled(at);
    } else {
      EntryOfFollow(g, section, keys);
      var c := |EntryOf(g, section, keys[0]).value.at| - 1;
      StandsWhere(keys, at, c);
      if c > 0 {
        HigherUp(keys, at);
      }
    }
  }

  lemma ReachesSome(g: Graph, n: nat, keys: seq<string>, text: string)
    requires Reaches(g, n, keys, text)
    ensures Follow(g, n, keys).Some?
  {
  }

  lemma NothingSpelled(at: seq<string>)
    requires Spelled([], at)
    ensures !Lockable(ROOT + at)
  {
  }

  lemma EntryOfFollow(g: Graph, n: nat, keys: seq<string>)
    requires keys != [] && Follow(g, n, keys).Some?
    ensures EntryOf(g, n, keys[0]).Some?
  {
    EntryOfLookup(g, n, keys[0]);
  }

  lemma HigherUp(keys: seq<string>, at: seq<string>)
    requires Lockable(ROOT + at) && |at| > 0 && keys == at[1..]
    ensures Lockable(ROOT + keys) <==> keys == ["env", "password"]
  {
    var path := ROOT + at;
    assert path[2] == at[1] == keys[0] && (|at| == 3 ==> path[3] == at[2] == keys[1]);
    var higher := ROOT + keys;
    assert |higher| == |keys| + 1 && higher[0] == "repositories" && (|keys| == 2 ==> higher[2] == keys[1]);
    if |keys| == 2 {
      assert keys == [keys[0], keys[1]];
    }
  }

  /** Every `<<` names one mapping, never a list of them. */
  ghost predicate MergesOne(g: Graph) {
    forall n, i :: 0 <= n < |g| && g[n].Mapping? && 0 <= i < |g[n].pairs| && g[n].pairs[i].key.merge ==>
      !MergesList(g, g[n].pairs[i].value)
  }

  lemma {:induction false} MergesOneKeeps(g: Graph, n: nat, left: nat, e: Entry)
    requires MergesOne(g) && e in Entries(g, n, left)
    ensures e.at == [e.key]
    decreases left
  {
    hide Entries, Resolve, Sources, MergesList;
    var o := EntryFrom(g, n, left, e);
    if o.MergedPair? {
      var m := Resolve(g, n, LEVELS);
      assert At(g, m) == g[m];
      MergesOneKeeps(g, Sources(g, g[m].pairs[o.i].value)[o.j], left - 1, o.e);
    }
  }

  lemma LockableKeys(keys: seq<string>)
    requires Lockable(ROOT + keys)
    ensures exists place :: KeysOf(place) == keys
  {
    var path := ROOT + keys;
    assert |path| == |keys| + 1 && path[2] == keys[1];
    if |keys| == 2 {
      assert KeysOf(PasswordOf(keys[0])) == keys;
    } else {
      assert KeysOf(EnvOf(keys[0], keys[2])) == keys;
    }
  }

  /** The list against the `repositories` written in the document itself: when
      every `<<` names one mapping, it holds exactly the locked values there,
      whatever keys lead to them. */
  lemma ListedExactly(g: Graph, doc: nat, l: Listing, text: string)
    requires MergesOne(g) && Placed(g, doc) && At(g, doc).Mapping?
    requires Lists(l, UsesIn(g, doc))
    ensures text in l.order <==>
            exists p, keys :: p in At(g, doc).pairs && p.key.text == "repositories" && Reaches(g, p.value, keys, text)
  {
    hide Reaches, DocUses;
    var pairs := At(g, doc).pairs;
    if text in l.order {
      var u := Use(text, l.usedAt[text][0]);
      assert u in DocUses(g, pairs);
      UsesAreReached(g, pairs, u);
    }
    if p, keys :| p in pairs && p.key.text == "repositories" && Reaches(g, p.value, keys, text) {
      var i :| 0 <= i < |pairs| && pairs[i] == p;
      assert Walk(g, pairs[i].value, [pairs[i].key.text], LEVELS);
      var place := ReachedIsListed(g, pairs, p, keys, text);
      assert Use(text, place) in DocUses(g, pairs);
    }
  }

  lemma ReachedIsListed(g: Graph, pairs: seq<Pair>, p: Pair, keys: seq<string>, text: string) returns (place: Place)
    requires MergesOne(g) && p in pairs && p.key.text == "repositories"
    requires Walk(g, p.value, ROOT, LEVELS) && Reaches(g, p.value, keys, text)
    ensures KeysOf(place) == keys && Lockable(ROOT + keys) && Use(text, place) in DocUses(g, pairs)
  {
    hide Reaches, DocUses, Walk, EntryOf, MergesOne, Lockable, KeysOf;
    PlacementExactly(g, p.value, keys, text);
    NotThroughList(g, p.value, keys);
    LockableKeys(keys);
    place :| KeysOf(place) == keys;
    UsesAreReached(g, pairs, Use(text, place));
  }

  lemma NotThroughList(g: Graph, section: nat, keys: seq<string>)
    requires MergesOne(g)
    ensures !ThroughList(g, section, keys)
  {
    hide Entries, MergesOne;
    if ThroughList(g, section, keys) {
      FirstIn(Entries(g, section, LEVELS), keys[0]);
      MergesOneKeeps(g, section, LEVELS, EntryOf(g, section, keys[0]).value);
    }
  }

  // ----- From the document down -----

  /** The value under these keys of the document, as decoded: sections that a
      top-level `<<` supplies included, however many levels it takes. */
  predicate Decoded(g: Graph, doc: nat, keys: seq<string>, text: string, levels: nat)
    requires keys != []
  {
    var v := Lookup(g, doc, keys[0], levels);
    v.Some? && Reaches(g, v.value, keys[1..], text)
  }

  predicate InSection(keys: seq<string>) {
    keys != [] && keys[0] in SECTIONS
  }

  /** No section's key is written twice, which the decoder refuses, or tagged as a merge. */
  ghost predicate SectionsOnce(pairs: seq<Pair>) {
    && (forall p :: p in pairs && p.key.merge ==> p.key.text !in SECTIONS)
    && (forall p, q :: p in pairs && q in pairs && p.key.text == q.key.text && p.key.text in SECTIONS ==> p == q)
  }

  lemma {:induction false} OwnValueIs(pairs: seq<Pair>, key: string)
    ensures var v := OwnValue(pairs, key);
            && (v.Some? ==> exists p :: p in pairs && !p.key.merge && p.key.text == key && p.value == v.value)
            && (v.None? ==> forall p :: p in pairs && p.key.text == key ==> p.key.merge)
  {
    if pairs != [] {
      OwnValueIs(pairs[..|pairs| - 1], key);
      assert pairs == pairs[..|pairs| - 1] + [pairs[|pairs| - 1]];
    }
  }

  lemma OwnIsLookup(g: Graph, doc: nat, key: string, levels: nat)
    requires At(g, doc).Mapping? && levels > 0 && OwnValue(At(g, doc).pairs, key).Some?
    ensures Lookup(g, doc, key, levels) == OwnValue(At(g, doc).pairs, key)
  {
  }

  /** What a section written in the document gives is allowed and listed. */
  lemma OwnIsListed(g: Graph, doc: nat, keys: seq<string>, text: string, levels: nat) returns (place: Place)
    requires MergesOne(g) && Placed(g, doc) && At(g, doc).Mapping? && levels > 0
    requires InSection(keys) && Decoded(g, doc, keys, text, levels) && OwnValue(At(g, doc).pairs, keys[0]).Some?
    ensures Lockable(keys) && keys[0] == "repositories" && Use(text, place) in UsesIn(g, doc)
  {
    hide Reaches, DocUses, Walk, MergesOne, Lookup;
    var pairs := At(g, doc).pairs;
    OwnIsLookup(g, doc, keys[0], levels);
    OwnValueIs(pairs, keys[0]);
    var p :| p in pairs && p.key.text == keys[0] && p.value == OwnValue(pairs, keys[0]).value;
    var i :| 0 <= i < |pairs| && pairs[i] == p;
    assert Walk(g, pairs[i].value, [pairs[i].key.text], LEVELS);
    JudgedLockable(g, p.value, [keys[0]], keys[1..], text);
    FirstIsRoot(keys[0], Judged(g, p.value, keys[1..]));
    place := ReachedIsListed(g, pairs, p, keys[1..], text);
    assert ROOT + keys[1..] == keys;
  }

  lemma FirstIsRoot(key: string, at: seq<string>)
    requires Lockable([key] + at)
    ensures key == "repositories" && [key] == ROOT
  {
    assert ([key] + at)[0] == key;
  }

  /** A use listed is the locked value under its keys of the document. */
  lemma ListedIsDecoded(g: Graph, doc: nat, u: Use, levels: nat)
    requires At(g, doc).Mapping? && SectionsOnce(At(g, doc).pairs) && levels > 0 && u in UsesIn(g, doc)
    ensures OwnValue(At(g, doc).pairs, "repositories").Some?
    ensures Decoded(g, doc, ROOT + KeysOf(u.place), u.text, levels)
  {
    hide Reaches, DocUses, Lookup;
    var pairs := At(g, doc).pairs;
    UsesAreReached(g, pairs, u);
    var p :| p in pairs && p.key.text == "repositories" && Reaches(g, p.value, KeysOf(u.place), u.text);
    OwnValueIs(pairs, "repositories");
    OwnIsLookup(g, doc, "repositories", levels);
    assert (ROOT + KeysOf(u.place))[1..] == KeysOf(u.place);
  }

  ghost predicate AllAllowed(g: Graph, doc: nat, levels: nat) {
    forall keys, text :: InSection(keys) && Decoded(g, doc, keys, text, levels) ==> Lockable(keys)
  }

  ghost predicate ListIsExact(g: Graph, doc: nat, l: Listing, levels: nat) {
    forall text :: text in l.order <==> exists keys :: InSection(keys) && keys[0] == "repositories" && Decoded(g, doc, keys, text, levels)
  }

  /** No section that only a top-level `<<` supplies holds a locked value. */
  ghost predicate NoneMergedIn(g: Graph, doc: nat, levels: nat)
    requires At(g, doc).Mapping?
  {
    forall keys, text :: InSection(keys) && Decoded(g, doc, keys, text, levels) ==>
      OwnValue(At(g, doc).pairs, keys[0]).Some?
  }

  lemma UseOfText(l: Listing, uses: seq<Use>, text: string) returns (u: Use)
    requires Lists(l, uses) && text in l.order
    ensures u in uses && u.text == text
  {
    u := Use(text, l.usedAt[text][0]);
    assert u.text in l.usedAt && u.place in l.usedAt[u.text];
  }

  /** Main result on a whole document, exactly: when every `<<` names one
      mapping, an accepted document has each locked value of its sections where
      one is allowed, and the list holds exactly those the decoder finds under
      `repositories`, if and only if no section holding one is supplied by a
      top-level `<<` alone. */
  lemma DocumentExactly(g: Graph, doc: nat, l: Listing, levels: nat)
    requires MergesOne(g) && Placed(g, doc) && At(g, doc).Mapping? && SectionsOnce(At(g, doc).pairs)
    requires Lists(l, UsesIn(g, doc)) && levels > 0
    ensures AllAllowed(g, doc, levels) && ListIsExact(g, doc, l, levels) <==> NoneMergedIn(g, doc, levels)
  {
    hide MergesOne, Placed, Decoded, Lists, UsesIn, SectionsOnce;
    if NoneMergedIn(g, doc, levels) {
      WrittenIsExact(g, doc, l, levels);
    }
    if AllAllowed(g, doc, levels) && ListIsExact(g, doc, l, levels) {
      forall keys, text | InSection(keys) && Decoded(g, doc, keys, text, levels)
        ensures OwnValue(At(g, doc).pairs, keys[0]).Some?
      {
        assert Lockable(keys);
        assert text in l.order;
        var u := UseOfText(l, UsesIn(g, doc), text);
        ListedIsDecoded(g, doc, u, levels);
      }
    }
  }

  lemma WrittenIsExact(g: Graph, doc: nat, l: Listing, levels: nat)
    requires MergesOne(g) && Placed(g, doc) && At(g, doc).Mapping? && SectionsOnce(At(g, doc).pairs)
    requires Lists(l, UsesIn(g, doc)) && levels > 0 && NoneMergedIn(g, doc, levels)
    ensures AllAllowed(g, doc, levels) && ListIsExact(g, doc, l, levels)
  {
    forall keys, text | InSection(keys) && Decoded(g, doc, keys, text, levels)
      ensures Lockable(keys) && (keys[0] == "repositories" ==> text in l.order)
    {
      hide MergesOne, Placed, Lookup, UsesIn, SectionsOnce, Reaches;
      var place := OwnIsListed(g, doc, keys, text, levels);
      assert Use(text, place).text in l.usedAt;
    }
    forall text | text in l.order
      ensures exists keys :: InSection(keys) && keys[0] == "repositories" && Decoded(g, doc, keys, text, levels)
    {
      hide MergesOne, Placed, Lookup, UsesIn, SectionsOnce, Reaches;
      var u := UseOfText(l, UsesIn(g, doc), text);
      ListedIsDecoded(g, doc, u, levels);
      assert (ROOT + KeysOf(u.place))[0] == "repositories";
    }
  }

  // ----- A section supplied by a top-level `<<` -----

  /** `x-base: &b {repositories: {b2: {url: !locked S}}}` and `<<: *b`. */
  const MERGED_IN: Graph := [
    Mapping([Pair(Key("x-base", false), 1), Pair(Key("<<", true), 5)]),
    Mapping([Pair(Key("repositories", false), 2)]),
    Mapping([Pair(Key("b2", false), 3)]),
    Mapping([Pair(Key("url", false), 4)]),
    Scalar(LockedTag, "S", 1),
    Alias(1)
  ]

  lemma OneOwn(n: nat, key: string, value: nat)
    requires n < |MERGED_IN| && MERGED_IN[n] == Mapping([Pair(Key(key, false), value)])
    ensures Lookup(MERGED_IN, n, key, LEVELS) == Some(value) && Lookup(MERGED_IN, n, key, LEVELS - 1) == Some(value)
  {
    var pairs := [Pair(Key(key, false), value)];
    assert pairs[..0] == [] && OwnValue(pairs, key) == Some(value);
  }

  lemma MergedSection()
    ensures Lookup(MERGED_IN, 0, "repositories", LEVELS) == Some(2)
  {
    var g := MERGED_IN;
    var pairs := g[0].pairs;
    OneOwn(1, "repositories", 2);
    assert pairs[..1] == [pairs[0]] && pairs[..1][..0] == [];
    assert OwnValue(pairs[..1], "repositories") == None && OwnValue(pairs, "repositories") == None;
    assert !MergesList(g, 5) && Sources(g, 5) == [5] && [5][..0] == [];
    assert Lookup(g, 5, "repositories", LEVELS - 1) == Lookup(g, 1, "repositories", LEVELS - 1);
    assert SourceValue(g, [5], "repositories", LEVELS) == Some(2);
    assert MergedValue(g, pairs[..1], "repositories", LEVELS) == None;
    assert MergedValue(g, pairs, "repositories", LEVELS) == Some(2);
  }

  /** Such a document is accepted, though every `<<` names one mapping: its
      locked value stands where none is allowed, and nothing is listed. */
  lemma MergedInIsMissed()
    ensures MergesOne(MERGED_IN) && Placed(MERGED_IN, 0) && UsesIn(MERGED_IN, 0) == []
    ensures Decoded(MERGED_IN, 0, ["repositories", "b2", "url"], "S", LEVELS)
    ensures !Lockable(["repositories", "b2", "url"])
  {
    MergedPlaced();
    MergedReached();
  }

  lemma MergedPlaced()
    ensures MergesOne(MERGED_IN) && Placed(MERGED_IN, 0) && UsesIn(MERGED_IN, 0) == []
  {
    hide Walk, SectionUses, Entries;
    var pairs := MERGED_IN[0].pairs;
    assert pairs[..1] == [pairs[0]] && pairs[..1][..0] == [] && DocUses(MERGED_IN, pairs[..1]) == [];
    assert At(MERGED_IN, 5) == Alias(1) && Resolve(MERGED_IN, 5, LEVELS) == 1;
  }

  lemma MergedReached()
    ensures Decoded(MERGED_IN, 0, ["repositories", "b2", "url"], "S", LEVELS)
  {
    MergedSection();
    OneOwn(2, "b2", 3);
    OneOwn(3, "url", 4);
    hide Lookup;
    assert ["repositories", "b2", "url"][1..] == ["b2", "url"] && ["b2", "url"][1..] == ["url"] && ["url"][1..] == [];
    assert Follow(MERGED_IN, 3, ["url"]) == Some(4);
    assert Follow(MERGED_IN, 2, ["b2", "url"]) == Some(4);
  }

  // ----- A list merged into `repositories` -----

  /** `x-shared: &shared {env: {FOO: !locked S}}` and
      `repositories: {<<: [*shared]}`. */
  const LISTED: Graph := [
    Mapping([Pair(Key("x-shared", false), 1), Pair(Key("repositories", false), 4)]),
    Mapping([Pair(Key("env", false), 2)]),
    Mapping([Pair(Key("FOO", false), 3)]),
    Scalar(LockedTag, "S", 3),
    Mapping([Pair(Key("<<", true), 5)]),
    Sequence([6]),
    Alias(1)
  ]

  lemma OnePair(n: nat, key: string, value: nat, left: nat)
    requires n < |LISTED| && LISTED[n] == Mapping([Pair(Key(key, false), value)]) && left > 0
    ensures Entries(LISTED, n, left) == [Entry(key, value, [key])]
  {
    var pairs := [Pair(Key(key, false), value)];
    var e := Entry(key, value, [key]);
    assert pairs[..0] == [] && Own(pairs) == [e] && Merged(LISTED, pairs, left) == [];
    assert [e][..0] == [] && Distinct([e]) == [e];
    assert [e] + [] == [e];
  }

  lemma SharedEntries()
    ensures Entries(LISTED, 1, LEVELS - 1) == [Entry("env", 2, ["env"])]
    ensures Entries(LISTED, 2, LEVELS) == [Entry("FOO", 3, ["FOO"])]
    ensures Entries(LISTED, 6, LEVELS - 1) == Entries(LISTED, 1, LEVELS - 1)
  {
    OnePair(1, "env", 2, LEVELS - 1);
    OnePair(2, "FOO", 3, LEVELS);
    assert At(LISTED, 6) == Alias(1);
  }

  lemma SectionEntries()
    ensures Entries(LISTED, 4, LEVELS) == [Entry("env", 2, ["0", "env"])]
  {
    SharedEntries();
    hide Entries;
    var pairs, e, sources := [Pair(Key("<<", true), 5)], Entry("env", 2, ["0", "env"]), [6];
    assert Sources(LISTED, 5) == sources && MergesList(LISTED, 5);
    assert sources[..0] == [] && Decimal(0) == "0";
    assert Under([Entry("env", 2, ["env"])], ["0"]) == [e] by {
      assert ["0"] + ["env"] == ["0", "env"];
    }
    assert FromSources(LISTED, sources, true, LEVELS) == [] + [e] == [e];
    assert pairs[..0] == [] && Own(pairs) == [] + [] == [];
    assert Merged(LISTED, pairs, LEVELS) == [] + [e] == [e];
    SectionIs(pairs, [e]);
    assert [e][..0] == [] && Distinct([e]) == [e];
  }

  lemma SectionIs(pairs: seq<Pair>, es: seq<Entry>)
    requires pairs == [Pair(Key("<<", true), 5)] && Own(pairs) == [] && Merged(LISTED, pairs, LEVELS) == es
    ensures Entries(LISTED, 4, LEVELS) == Distinct(es)
  {
    hide Own, Merged, Distinct;
    assert At(LISTED, 4) == Mapping(pairs);
    assert [] + es == es;
  }

  lemma ListedPlaced()
    ensures Placed(LISTED, 0)
  {
    hide Lockable, Decimal;
    assert Decimal(0) == "0" by { DecimalOfZero(); }
    var path := ROOT + ["0"] + ["env"] + ["FOO"];
    assert Lockable(path) by { FooLockable(); }
    assert Walk(LISTED, 1, ROOT + ["0"], LEVELS - 3) by {
      assert Walk(LISTED, 3, path, LEVELS - 5);
      assert Walk(LISTED, 2, ROOT + ["0"] + ["env"], LEVELS - 4);
    }
    assert Walk(LISTED, 6, ROOT + ["0"], LEVELS - 2);
    assert Walk(LISTED, 5, ROOT, LEVELS - 1);
    assert Walk(LISTED, 4, ROOT, LEVELS);
  }

  lemma DecimalOfZero()
    ensures Decimal(0) == "0"
  {
  }

  lemma FooLockable()
    ensures Lockable(ROOT + ["0"] + ["env"] + ["FOO"])
  {
  }

  /** Not every accepted document keeps its locked values where they are
      allowed: a list merged into `repositories` is judged one level deeper
      than it stands, and what it locks is then never listed. */
  lemma ListedIsMisplaced(uses: seq<Use>)
    requires uses == UsesIn(LISTED, 0)
    ensures Placed(LISTED, 0)
    ensures Reaches(LISTED, 4, ["env", "FOO"], "S") && !Lockable(ROOT + ["env", "FOO"])
    ensures uses == []
  {
    hide Entries, DocUses;
    ListedPlaced();
    SectionEntries();
    SharedEntries();
    FooReached();
    if uses != [] {
      UsesAreReached(LISTED, At(LISTED, 0).pairs, uses[0]);
      NothingElse(uses[0]);
    }
  }

  lemma FooReached()
    requires Entries(LISTED, 4, LEVELS) == [Entry("env", 2, ["0", "env"])]
    requires Entries(LISTED, 2, LEVELS) == [Entry("FOO", 3, ["FOO"])]
    ensures Reaches(LISTED, 4, ["env", "FOO"], "S")
  {
    hide Entries;
    Descend(LISTED, 4, ["env", "FOO"], "S");
    Descend(LISTED, 2, ["FOO"], "S");
    assert ["env", "FOO"][1..] == ["FOO"] && ["FOO"][1..] == [];
    assert Entry("env", 2, ["0", "env"]) in Entries(LISTED, 4, LEVELS);
    assert Entry("FOO", 3, ["FOO"]) in Entries(LISTED, 2, LEVELS);
    assert Reaches(LISTED, 3, [], "S");
  }

  lemma NothingElse(u: Use)
    requires Entries(LISTED, 4, LEVELS) == [Entry("env", 2, ["0", "env"])]
    requires Entries(LISTED, 2, LEVELS) == [Entry("FOO", 3, ["FOO"])]
    ensures !Reaches(LISTED, 4, KeysOf(u.place), u.text)
  {
    hide Entries, Reaches;
    var keys := KeysOf(u.place);
    Descend(LISTED, 4, keys, u.text);
    Descend(LISTED, 2, keys[1..], u.text);
  }
}
