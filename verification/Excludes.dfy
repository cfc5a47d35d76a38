/** What the config alone says about a job's exclude patterns
    (internal/config/excludes.go). Patterns and paths are lists of components;
    how one component matches another, filepath.Match, is left open. */
module Excludes {

  /** match(p, c): component pattern p accepts component c. */
  type Match = (string, string) -> bool

  const ANY := "**"

  // ----- What a pattern excludes -----

  /** The whole path matches: component by component, with ** standing for any
      number of components, none included. */
  predicate Matches(m: Match, pattern: seq<string>, path: seq<string>)
    decreases |pattern| + |path|
  {
    if pattern == [] then path == []
    else if pattern[0] == ANY then
      Matches(m, pattern[1..], path) || (path != [] && Matches(m, pattern, path[1..]))
    else path != [] && m(pattern[0], path[0]) && Matches(m, pattern[1..], path[1..])
  }

  /** An anchored pattern excludes a path when it matches the path or a
      directory above it. */
  predicate Excluded(m: Match, pattern: seq<string>, path: seq<string>) {
    exists n :: 0 <= n <= |path| && Matches(m, pattern, path[..n])
  }

  predicate Plain(pattern: seq<string>) {
    forall i :: 0 <= i < |pattern| ==> pattern[i] != ANY
  }

  ghost predicate MatchesSome(m: Match, p: string) {
    exists c :: m(p, c)
  }

  predicate AllAny(pattern: seq<string>) {
    forall i :: 0 <= i < |pattern| ==> pattern[i] == ANY
  }

  // ----- The comparison -----

  datatype Relation = Outside | Under | Covers | Unsure

  function Compare(m: Match, pattern: seq<string>, src: seq<string>): Relation {
    if pattern == [] then Covers
    else if src == [] then Under
    else if pattern[0] == ANY then Unsure
    else if !m(pattern[0], src[0]) then Outside
    else Compare(m, pattern[1..], src[1..])
  }

  /** comparePattern. */
  method ComparePattern(m: Match, pattern: seq<string>, src: seq<string>) returns (r: Relation)
    ensures r == Compare(m, pattern, src)
  {
    var i := 0;
    while i < |pattern| && i < |src|
      invariant 0 <= i <= |pattern| && i <= |src|
      invariant Compare(m, pattern, src) == Compare(m, pattern[i..], src[i..])
    {
      if pattern[i] == ANY {
        return Unsure;
      }
      if !m(pattern[i], src[i]) {
        return Outside;
      }
      assert pattern[i..][1..] == pattern[i + 1..] && src[i..][1..] == src[i + 1..];
      i := i + 1;
    }
    return if |pattern| <= |src| then Covers else Under;
  }

  /** Outside: nothing at or below the source is excluded, whatever is there. */
  lemma {:induction false} OutsideExcludesNothing(m: Match, pattern: seq<string>, src: seq<string>, below: seq<string>)
    requires Compare(m, pattern, src) == Outside
    ensures !Excluded(m, pattern, src + below)
  {
    var path := src + below;
    assert path[0] == src[0] && path[1..] == src[1..] + below;
    if m(pattern[0], src[0]) {
      OutsideExcludesNothing(m, pattern[1..], src[1..], below);
    }
    forall n | 0 <= n <= |path|
      ensures !Matches(m, pattern, path[..n])
    {
      if n > 0 {
        assert path[..n][1..] == path[1..][..n - 1];
        assert m(pattern[0], src[0]) ==> !Matches(m, pattern[1..], path[1..][..n - 1]);
      }
    }
  }

  /** Covers: the pattern matches the source or a directory holding it. */
  lemma {:induction false} CoversMatchesAbove(m: Match, pattern: seq<string>, src: seq<string>)
    requires Compare(m, pattern, src) == Covers
    ensures |pattern| <= |src| && Matches(m, pattern, src[..|pattern|])
  {
    if pattern != [] {
      CoversMatchesAbove(m, pattern[1..], src[1..]);
      assert src[..|pattern|][1..] == src[1..][..|pattern| - 1];
    }
  }

  /** So everything at or below the source is excluded. */
  lemma CoversExcludesAll(m: Match, pattern: seq<string>, src: seq<string>, below: seq<string>)
    requires Compare(m, pattern, src) == Covers
    ensures Excluded(m, pattern, src + below)
  {
    CoversMatchesAbove(m, pattern, src);
    assert (src + below)[..|pattern|] == src[..|pattern|];
  }

  lemma {:induction false} AnyMatchesNothing(m: Match, pattern: seq<string>)
    ensures Matches(m, pattern, []) <==> AllAny(pattern)
  {
    if pattern != [] {
      AnyMatchesNothing(m, pattern[1..]);
      assert AllAny(pattern) <==> pattern[0] == ANY && AllAny(pattern[1..]) by {
        assert forall i :: 0 < i < |pattern| ==> pattern[i] == pattern[1..][i - 1];
        assert forall i :: 0 <= i < |pattern| - 1 ==> pattern[1..][i] == pattern[i + 1];
      }
    }
  }

  /** Under: the source itself is excluded exactly when nothing but ** is left
      of the pattern beyond it. So a pattern that adds only ** to a source
      takes out all of it and is not reported. */
  lemma {:induction false} UnderExactly(m: Match, pattern: seq<string>, src: seq<string>)
    requires Compare(m, pattern, src) == Under
    ensures |src| < |pattern|
    ensures Excluded(m, pattern, src) <==> AllAny(pattern[|src|..])
  {
    if src == [] {
      AnyMatchesNothing(m, pattern);
      assert src[..0] == [] && pattern[|src|..] == pattern;
    } else {
      UnderExactly(m, pattern[1..], src[1..]);
      assert pattern[1..][|src| - 1..] == pattern[|src|..];
      PeelComponent(m, pattern, src);
    }
  }

  lemma PeelComponent(m: Match, pattern: seq<string>, src: seq<string>)
    requires pattern != [] && src != [] && pattern[0] != ANY && m(pattern[0], src[0])
    ensures Excluded(m, pattern, src) <==> Excluded(m, pattern[1..], src[1..])
  {
    if n :| 0 <= n <= |src| && Matches(m, pattern, src[..n]) {
      assert src[..n][1..] == src[1..][..n - 1];
    }
    if n :| 0 <= n <= |src| - 1 && Matches(m, pattern[1..], src[1..][..n]) {
      assert src[..n + 1][1..] == src[1..][..n];
      assert Matches(m, pattern, src[..n + 1]);
    }
  }

  /** Without **, the three answers are exact: Covers when the source is
      excluded, Outside when nothing at or below it can be, and Under when only
      things below it can, as long as each component matches something. */
  lemma {:induction false} PlainIsExact(m: Match, pattern: seq<string>, src: seq<string>)
    requires Plain(pattern)
    requires forall p :: p in pattern ==> MatchesSome(m, p)
    ensures Compare(m, pattern, src) != Unsure
    ensures Compare(m, pattern, src) == Covers <==> Excluded(m, pattern, src)
    ensures Compare(m, pattern, src) == Outside <==> forall below :: !Excluded(m, pattern, src + below)
  {
    NeverUnsure(m, pattern, src);
    assert src + [] == src;
    match Compare(m, pattern, src)
    case Outside =>
      forall below
        ensures !Excluded(m, pattern, src + below)
      {
        OutsideExcludesNothing(m, pattern, src, below);
      }
      assert !Excluded(m, pattern, src + []);
    case Covers =>
      CoversExcludesAll(m, pattern, src, []);
      assert Excluded(m, pattern, src + []);
    case Under =>
      UnderExactly(m, pattern, src);
      assert pattern[|src|..][0] == pattern[|src|];
      var below := SomethingBelow(m, pattern, src);
      assert Excluded(m, pattern, src + below);
  }

  lemma {:induction false} NeverUnsure(m: Match, pattern: seq<string>, src: seq<string>)
    requires Plain(pattern)
    ensures Compare(m, pattern, src) != Unsure
  {
    if pattern != [] && src != [] {
      NeverUnsure(m, pattern[1..], src[1..]);
    }
  }

  lemma {:induction false} SomethingBelow(m: Match, pattern: seq<string>, src: seq<string>) returns (below: seq<string>)
    requires Compare(m, pattern, src) == Under && Plain(pattern)
    requires forall p :: p in pattern ==> MatchesSome(m, p)
    ensures Excluded(m, pattern, src + below)
  {
    if src == [] {
      below := Example(m, pattern);
      assert (src + below)[..|below|] == below;
    } else {
      below := SomethingBelow(m, pattern[1..], src[1..]);
      assert (src + below)[1..] == src[1..] + below;
      PeelComponent(m, pattern, src + below);
    }
  }

  lemma {:induction false} Example(m: Match, pattern: seq<string>) returns (path: seq<string>)
    requires Plain(pattern) && forall p :: p in pattern ==> MatchesSome(m, p)
    ensures Matches(m, pattern, path)
  {
    if pattern == [] {
      path := [];
    } else {
      var rest := Example(m, pattern[1..]);
      assert MatchesSome(m, pattern[0]);
      var c :| m(pattern[0], c);
      path := [c] + rest;
    }
  }

  // ----- The check of a whole job -----

  /** A pattern or source path: as written, and split into components. */
  datatype Path = Path(text: string, parts: seq<string>, anchored: bool)

  datatype Verdict = Silent | Empty | Invalid | CoversSources(covered: seq<string>) | OutsideEverySource

  predicate ValidParts(valid: string -> bool, parts: seq<string>) {
    forall i :: 0 <= i < |parts| ==> parts[i] == ANY || valid(parts[i])
  }

  /** The sources a pattern takes out whole, in the order listed. */
  function CoveredBy(m: Match, pattern: seq<string>, paths: seq<Path>): seq<string> {
    if paths == [] then []
    else
      var s := paths[|paths| - 1];
      CoveredBy(m, pattern, paths[..|paths| - 1])
      + if s.anchored && Compare(m, pattern, s.parts) == Covers then [s.text] else []
  }

  predicate OutsideAll(m: Match, pattern: seq<string>, paths: seq<Path>) {
    forall i :: 0 <= i < |paths| ==> paths[i].anchored && Compare(m, pattern, paths[i].parts) == Outside
  }

  function Judge(m: Match, valid: string -> bool, p: Path, paths: seq<Path>): Verdict {
    if p.text == "" then Empty
    else if !ValidParts(valid, p.parts) then Invalid
    else if !p.anchored then Silent
    else if CoveredBy(m, p.parts, paths) != [] then CoversSources(CoveredBy(m, p.parts, paths))
    else if paths != [] && OutsideAll(m, p.parts, paths) then OutsideEverySource
    else Silent
  }

  predicate CoversAt(m: Match, pattern: seq<string>, paths: seq<Path>, i: nat) {
    i < |paths| && paths[i].anchored && Compare(m, pattern, paths[i].parts) == Covers
  }

  /** at is where the sources covered stand, in order, and covered their texts. */
  predicate StandAt(m: Match, pattern: seq<string>, paths: seq<Path>, covered: seq<string>, at: seq<nat>) {
    && |at| == |covered|
    && (forall j, k :: 0 <= j < k < |at| ==> at[j] < at[k])
    && (forall k :: 0 <= k < |at| ==> CoversAt(m, pattern, paths, at[k]) && covered[k] == paths[at[k]].text)
    && (forall i :: 0 <= i < |paths| && CoversAt(m, pattern, paths, i) ==> i in at)
  }

  /** The texts of all sources covered, each as often as it is listed, in that order. */
  ghost predicate InOrder(m: Match, pattern: seq<string>, paths: seq<Path>, covered: seq<string>) {
    exists at: seq<nat> :: StandAt(m, pattern, paths, covered, at)
  }

  lemma {:induction false} CoveredStandAt(m: Match, pattern: seq<string>, paths: seq<Path>) returns (at: seq<nat>)
    ensures StandAt(m, pattern, paths, CoveredBy(m, pattern, paths), at)
  {
    hide Compare;
    at := [];
    if paths != [] {
      var n := |paths| - 1;
      at := CoveredStandAt(m, pattern, paths[..n]);
      assert forall i: nat :: i < n ==> (CoversAt(m, pattern, paths, i) <==> CoversAt(m, pattern, paths[..n], i));
      if CoversAt(m, pattern, paths, n) {
        at := at + [n];
      }
    }
  }

  lemma SourceNext(m: Match, pattern: seq<string>, paths: seq<Path>, i: nat)
    requires i < |paths|
    ensures OutsideAll(m, pattern, paths[..i + 1]) <==>
            OutsideAll(m, pattern, paths[..i]) && paths[i].anchored && Compare(m, pattern, paths[i].parts) == Outside
    ensures CoveredBy(m, pattern, paths[..i + 1]) ==
            if paths[i].anchored && Compare(m, pattern, paths[i].parts) == Covers
            then CoveredBy(m, pattern, paths[..i]) + [paths[i].text] else CoveredBy(m, pattern, paths[..i])
  {
    hide Compare;
    assert paths[..i + 1][..i] == paths[..i] && paths[..i + 1] == paths[..i] + [paths[i]];
  }

  /** Some component cannot be a pattern. */
  predicate Broken(valid: string -> bool, parts: seq<string>) {
    exists k :: 0 <= k < |parts| && parts[k] != ANY && !valid(parts[k])
  }

  method CheckPattern(m: Match, valid: string -> bool, p: Path, paths: seq<Path>) returns (v: Verdict)
    ensures v == Judge(m, valid, p, paths)
    ensures v == Empty <==> p.text == ""
    ensures v == Invalid <==> p.text != "" && Broken(valid, p.parts)
    ensures p.text != "" && !Broken(valid, p.parts) && !p.anchored ==> v == Silent
    ensures v.CoversSources? ==> v.covered != [] && InOrder(m, p.parts, paths, v.covered)
  {
    ghost var at := CoveredStandAt(m, p.parts, paths);
    if p.text == "" {
      return Empty;
    }
    if !ValidParts(valid, p.parts) {
      return Invalid;
    }
    if !p.anchored {
      return Silent;
    }
    var covered: seq<string> := [];
    var outside, unsure := true, false;
    assert CoveredBy(m, p.parts, paths[..0]) == [] && OutsideAll(m, p.parts, paths[..0]);
    hide Compare, CoveredBy, OutsideAll;
    for i := 0 to |paths|
      invariant covered == CoveredBy(m, p.parts, paths[..i])
      invariant outside && !unsure <==> OutsideAll(m, p.parts, paths[..i])
      invariant covered != [] ==> !outside
    {
      SourceNext(m, p.parts, paths, i);
      var s := paths[i];
      if !s.anchored {
        unsure := true;
      } else {
        var r := ComparePattern(m, p.parts, s.parts);
        match r {
          case Covers =>
            covered := covered + [s.text];
            outside := false;
          case Under => outside := false;
          case Unsure => unsure := true;
          case Outside =>
        }
      }
    }
    assert paths[..|paths|] == paths;
    if |covered| > 0 {
      return CoversSources(covered);
    } else if outside && !unsure && |paths| > 0 {
      return OutsideEverySource;
    }
    return Silent;
  }

  /** checkExcludes: one verdict a pattern, in order. */
  method CheckExcludes(m: Match, valid: string -> bool, patterns: seq<Path>, paths: seq<Path>) returns (vs: seq<Verdict>)
    ensures |vs| == |patterns| && forall i :: 0 <= i < |patterns| ==> vs[i] == Judge(m, valid, patterns[i], paths)
    ensures forall i :: 0 <= i < |patterns| ==> (vs[i] == Empty <==> patterns[i].text == "")
    ensures forall i :: 0 <= i < |patterns| ==>
              (vs[i] == Invalid <==> patterns[i].text != "" && Broken(valid, patterns[i].parts))
  {
    hide Judge, Broken, InOrder;
    vs := [];
    for i := 0 to |patterns|
      invariant |vs| == i && forall j :: 0 <= j < i ==> vs[j] == Judge(m, valid, patterns[j], paths)
      invariant forall j :: 0 <= j < i ==> (vs[j] == Empty <==> patterns[j].text == "")
      invariant forall j :: 0 <= j < i ==> (vs[j] == Invalid <==> patterns[j].text != "" && Broken(valid, patterns[j].parts))
    {
      var v := CheckPattern(m, valid, patterns[i], paths);
      vs := vs + [v];
    }
  }

  lemma {:induction false} CoveredByExactly(m: Match, pattern: seq<string>, paths: seq<Path>)
    ensures forall t :: t in CoveredBy(m, pattern, paths) <==>
              exists i :: 0 <= i < |paths| && paths[i].text == t && paths[i].anchored && Compare(m, pattern, paths[i].parts) == Covers
  {
    if paths != [] {
      var n := |paths| - 1;
      CoveredByExactly(m, pattern, paths[..n]);
      assert forall i :: 0 <= i < n ==> paths[i] == paths[..n][i];
    }
  }

  /** Main result: each warning is true. A source reported as covered loses
      everything at or below it, and a pattern reported as outside excludes
      nothing at or below any source. */
  lemma WarningsAreTrue(m: Match, valid: string -> bool, p: Path, paths: seq<Path>)
    ensures var v := Judge(m, valid, p, paths);
            && (v.CoversSources? ==> forall t :: t in v.covered ==>
                  exists i :: 0 <= i < |paths| && paths[i].text == t &&
                    forall below :: Excluded(m, p.parts, paths[i].parts + below))
            && (v == OutsideEverySource ==> forall i, below :: 0 <= i < |paths| ==>
                  !Excluded(m, p.parts, paths[i].parts + below))
  {
    hide Excluded, Compare;
    var v := Judge(m, valid, p, paths);
    if v.CoversSources? {
      CoveredByExactly(m, p.parts, paths);
      forall t | t in v.covered
        ensures exists i :: 0 <= i < |paths| && paths[i].text == t &&
                  forall below :: Excluded(m, p.parts, paths[i].parts + below)
      {
        var i :| 0 <= i < |paths| && paths[i].text == t && paths[i].anchored && Compare(m, p.parts, paths[i].parts) == Covers;
        forall below
          ensures Excluded(m, p.parts, paths[i].parts + below)
        {
          CoversExcludesAll(m, p.parts, paths[i].parts, below);
        }
      }
    } else if v == OutsideEverySource {
      forall i, below | 0 <= i < |paths|
        ensures !Excluded(m, p.parts, paths[i].parts + below)
      {
        OutsideExcludesNothing(m, p.parts, paths[i].parts, below);
      }
    }
  }

  lemma {:induction false} StarsBelow(m: Match, src: seq<string>)
    requires forall c :: c in src ==> c != ANY && m(c, c)
    ensures Compare(m, src + [ANY], src) == Under
    ensures Excluded(m, src + [ANY], src)
  {
    var pattern := src + [ANY];
    if src != [] {
      assert pattern[1..] == src[1..] + [ANY];
      assert forall c :: c in src[1..] ==> c in src;
      assert src[0] in src;
      StarsBelow(m, src[1..]);
      PeelComponent(m, pattern, src);
    } else {
      assert src[..0] == [] && AllAny(pattern);
      AnyMatchesNothing(m, pattern);
    }
  }

  /** The input no warning is given for: a source with `**` added takes out all
      of that source, whatever is in it. */
  lemma StarsAreNotReported(m: Match, valid: string -> bool, text: string, source: Path, below: seq<string>)
    requires source.anchored && (forall c :: c in source.parts ==> c != ANY && m(c, c) && valid(c)) && text != ""
    ensures var p := Path(text, source.parts + [ANY], true);
            Judge(m, valid, p, [source]) == Silent && Excluded(m, p.parts, source.parts + below)
  {
    StarsBelow(m, source.parts);
    var pattern, src := source.parts + [ANY], source.parts;
    assert [source][..0] == [] && CoveredBy(m, pattern, [source]) == [];
    var n :| 0 <= n <= |src| && Matches(m, pattern, src[..n]);
    assert (src + below)[..n] == src[..n];
  }

  // ----- What goes unreported, exactly -----

  /** Where the first ** stands. */
  function FirstAny(pattern: seq<string>): (k: nat)
    ensures k <= |pattern|
  {
    if pattern == [] || pattern[0] == ANY then 0 else 1 + FirstAny(pattern[1..])
  }

  /** ** takes up any first components. */
  lemma {:induction false} AnyMatches(m: Match, rest: seq<string>, path: seq<string>)
    ensures Matches(m, [ANY] + rest, path) <==> exists i :: 0 <= i <= |path| && Matches(m, rest, path[i..])
    decreases |path|
  {
    var pattern := [ANY] + rest;
    assert pattern[1..] == rest && path[0..] == path;
    if path != [] {
      AnyMatches(m, rest, path[1..]);
      forall i | 0 < i <= |path|
        ensures path[i..] == path[1..][i - 1..]
      {
      }
      if i :| 0 <= i <= |path| - 1 && Matches(m, rest, path[1..][i..]) {
        assert path[i + 1..] == path[1..][i..];
      }
    }
  }

  /** What follows the first ** matches some stretch of the source from there on. */
  predicate MatchesBeyond(m: Match, pattern: seq<string>, src: seq<string>, k: nat)
    requires k < |pattern|
  {
    exists i, j :: k <= i <= j <= |src| && Matches(m, pattern[k + 1..], src[i..j])
  }

  lemma AnyFirst(m: Match, pattern: seq<string>, src: seq<string>)
    requires pattern != [] && pattern[0] == ANY
    ensures Excluded(m, pattern, src) <==> MatchesBeyond(m, pattern, src, 0)
  {
    var rest := pattern[1..];
    assert pattern == [ANY] + rest;
    if n :| 0 <= n <= |src| && Matches(m, pattern, src[..n]) {
      AnyMatches(m, rest, src[..n]);
      var i :| 0 <= i <= n && Matches(m, rest, src[..n][i..]);
      assert src[..n][i..] == src[i..n];
    }
    if i, j :| 0 <= i <= j <= |src| && Matches(m, rest, src[i..j]) {
      assert src[..j][i..] == src[i..j];
      AnyMatches(m, rest, src[..j]);
      assert Matches(m, pattern, src[..j]);
    }
  }

  lemma BeyondShifts(m: Match, pattern: seq<string>, src: seq<string>, k: nat)
    requires pattern != [] && src != [] && k + 1 < |pattern|
    ensures MatchesBeyond(m, pattern, src, k + 1) <==> MatchesBeyond(m, pattern[1..], src[1..], k)
  {
    assert pattern[1..][k + 1..] == pattern[k + 2..];
    if i, j :| k + 1 <= i <= j <= |src| && Matches(m, pattern[k + 2..], src[i..j]) {
      assert src[1..][i - 1..j - 1] == src[i..j];
    }
    if i, j :| k <= i <= j <= |src| - 1 && Matches(m, pattern[k + 2..], src[1..][i..j]) {
      assert src[1..][i..j] == src[i + 1..j + 1];
    }
  }

  /** Unsure: the source itself is excluded exactly when what follows the first
      ** matches some stretch of it from there on. */
  lemma {:induction false} UnsureExactly(m: Match, pattern: seq<string>, src: seq<string>)
    requires Compare(m, pattern, src) == Unsure
    ensures var k := FirstAny(pattern);
            k < |pattern| && k < |src| && (Excluded(m, pattern, src) <==> MatchesBeyond(m, pattern, src, k))
  {
    if pattern[0] == ANY {
      AnyFirst(m, pattern, src);
    } else {
      UnsureExactly(m, pattern[1..], src[1..]);
      PeelComponent(m, pattern, src);
      BeyondShifts(m, pattern, src, FirstAny(pattern[1..]));
    }
  }

  /** The pattern takes out the source and everything below it. */
  ghost predicate TakesOut(m: Match, pattern: seq<string>, src: seq<string>) {
    forall below :: Excluded(m, pattern, src + below)
  }

  lemma TakesOutIsExcludes(m: Match, pattern: seq<string>, src: seq<string>)
    ensures TakesOut(m, pattern, src) <==> Excluded(m, pattern, src)
  {
    assert src + [] == src;
    if n :| 0 <= n <= |src| && Matches(m, pattern, src[..n]) {
      forall below
        ensures Excluded(m, pattern, src + below)
      {
        assert (src + below)[..n] == src[..n];
      }
    }
  }

  /** The warning names the source. */
  predicate Reported(m: Match, valid: string -> bool, p: Path, paths: seq<Path>, i: nat)
    requires i < |paths|
  {
    Judge(m, valid, p, paths).CoversSources? && paths[i].text in Judge(m, valid, p, paths).covered
  }

  lemma ReportedIsCovers(m: Match, valid: string -> bool, p: Path, paths: seq<Path>, i: nat)
    requires p.text != "" && p.anchored && ValidParts(valid, p.parts) && i < |paths| && paths[i].anchored
    requires forall j :: 0 <= j < |paths| && paths[j].text == paths[i].text ==> paths[j] == paths[i]
    ensures Reported(m, valid, p, paths, i) <==> Compare(m, p.parts, paths[i].parts) == Covers
  {
    hide Compare, CoveredBy;
    CoveredByExactly(m, p.parts, paths);
    var covered, t := CoveredBy(m, p.parts, paths), paths[i].text;
    assert Compare(m, p.parts, paths[i].parts) == Covers ==> t in covered;
    if t in covered {
      var j :| 0 <= j < |paths| && paths[j].text == t && paths[j].anchored && Compare(m, p.parts, paths[j].parts) == Covers;
      assert covered != [];
    }
  }

  /** Main result on silence, exactly: a source that an anchored pattern takes
      out goes unreported if and only if nothing but ** is left of the pattern
      beyond it, or a ** is met within it and the rest of the pattern matches a
      stretch of it from there on. */
  lemma UnreportedExactly(m: Match, valid: string -> bool, p: Path, paths: seq<Path>, i: nat)
    requires p.text != "" && p.anchored && ValidParts(valid, p.parts) && i < |paths| && paths[i].anchored
    requires forall j :: 0 <= j < |paths| && paths[j].text == paths[i].text ==> paths[j] == paths[i]
    ensures var src, k := paths[i].parts, FirstAny(p.parts);
            TakesOut(m, p.parts, src) && !Reported(m, valid, p, paths, i) <==>
            match Compare(m, p.parts, src)
            case Under => |src| < |p.parts| && AllAny(p.parts[|src|..])
            case Unsure => k < |p.parts| && MatchesBeyond(m, p.parts, src, k)
            case _ => false
  {
    hide TakesOut, Reported, Excluded, MatchesBeyond;
    var src := paths[i].parts;
    ReportedIsCovers(m, valid, p, paths, i);
    TakesOutIsExcludes(m, p.parts, src);
    match Compare(m, p.parts, src)
    case Under => UnderExactly(m, p.parts, src);
    case Unsure => UnsureExactly(m, p.parts, src);
    case Outside =>
      OutsideExcludesNothing(m, p.parts, src, []);
      assert src + [] == src;
    case Covers =>
  }

  /** The other input no warning is given for: any directories and then d, on the source `/a/d`. */
  lemma AnyWithinIsNotReported(m: Match, valid: string -> bool, text: string, source: Path, below: seq<string>)
    requires m("d", "d") && valid("d") && text != "" && source.anchored && source.parts == ["a", "d"]
    ensures var p := Path(text, [ANY, "d"], true);
            && Compare(m, p.parts, source.parts) == Unsure && Judge(m, valid, p, [source]) == Silent
            && Excluded(m, p.parts, source.parts + below)
  {
    var p := Path(text, [ANY, "d"], true);
    var paths := [source];
    assert p.parts[1..] == ["d"] && ["d"][1..] == [] && source.parts[1..2] == ["d"];
    assert Matches(m, [], []);
    assert Matches(m, p.parts[0 + 1..], source.parts[1..2]);
    ReportedIsCovers(m, valid, p, paths, 0);
    UnsureExactly(m, p.parts, source.parts);
    TakesOutIsExcludes(m, p.parts, source.parts);
    assert paths[..0] == [] && CoveredBy(m, p.parts, paths) == [];
  }

  /** Each component matches something; ** matches anything. */
  ghost predicate CanMatch(m: Match, pattern: seq<string>) {
    forall c :: c in pattern ==> c == ANY || MatchesSome(m, c)
  }

  lemma {:induction false} SomePath(m: Match, pattern: seq<string>) returns (path: seq<string>)
    requires CanMatch(m, pattern)
    ensures Matches(m, pattern, path)
  {
    if pattern == [] {
      path := [];
    } else {
      assert pattern[0] in pattern && forall c :: c in pattern[1..] ==> c in pattern;
      path := SomePath(m, pattern[1..]);
      if pattern[0] != ANY {
        var c :| m(pattern[0], c);
        path := [c] + path;
      }
    }
  }

  lemma {:induction false} SomethingExcluded(m: Match, pattern: seq<string>, src: seq<string>) returns (below: seq<string>)
    requires CanMatch(m, pattern) && Compare(m, pattern, src) != Outside
    ensures Excluded(m, pattern, src + below)
  {
    if pattern == [] {
      below := [];
      assert (src + below)[..0] == [];
    } else if src == [] || pattern[0] == ANY {
      below := SomePath(m, pattern);
      if src == [] {
        assert (src + below)[..|below|] == below;
      } else {
        AnyTakesMore(m, pattern, src, below);
        assert (src + below)[..|src + below|] == src + below;
      }
    } else {
      assert forall c :: c in pattern[1..] ==> c in pattern;
      below := SomethingExcluded(m, pattern[1..], src[1..]);
      assert (src + below)[1..] == src[1..] + below;
      PeelComponent(m, pattern, src + below);
    }
  }

  lemma {:induction false} AnyTakesMore(m: Match, pattern: seq<string>, front: seq<string>, path: seq<string>)
    requires pattern != [] && pattern[0] == ANY && Matches(m, pattern, path)
    ensures Matches(m, pattern, front + path)
  {
    if front == [] {
      assert front + path == path;
    } else {
      AnyTakesMore(m, pattern, front[1..], path);
      assert (front + path)[1..] == front[1..] + path;
    }
  }

  /** Outside, exactly: the pattern excludes nothing at or below the source. */
  lemma OutsideExactly(m: Match, pattern: seq<string>, src: seq<string>)
    requires CanMatch(m, pattern)
    ensures Compare(m, pattern, src) == Outside <==> forall below :: !Excluded(m, pattern, src + below)
  {
    hide Compare, Excluded;
    if Compare(m, pattern, src) == Outside {
      forall below
        ensures !Excluded(m, pattern, src + below)
      {
        OutsideExcludesNothing(m, pattern, src, below);
      }
    } else {
      var below := SomethingExcluded(m, pattern, src);
      assert Excluded(m, pattern, src + below);
    }
  }

  /** Main result on the other warning, exactly: with sources that start from
      the root, a pattern is said to be outside every one of them if and only if
      it excludes nothing at or below any. */
  lemma OutsideReportedExactly(m: Match, valid: string -> bool, p: Path, paths: seq<Path>)
    requires p.text != "" && p.anchored && ValidParts(valid, p.parts) && CanMatch(m, p.parts)
    requires paths != [] && forall i :: 0 <= i < |paths| ==> paths[i].anchored
    ensures Judge(m, valid, p, paths) == OutsideEverySource <==>
            forall i, below :: 0 <= i < |paths| ==> !Excluded(m, p.parts, paths[i].parts + below)
  {
    hide Compare, Excluded, CoveredBy;
    forall i | 0 <= i < |paths|
      ensures Compare(m, p.parts, paths[i].parts) == Outside <==>
              forall below :: !Excluded(m, p.parts, paths[i].parts + below)
    {
      OutsideExactly(m, p.parts, paths[i].parts);
    }
    CoveredByExactly(m, p.parts, paths);
    var covered := CoveredBy(m, p.parts, paths);
    if covered != [] {
      assert covered[0] in covered;
    }
  }
}
