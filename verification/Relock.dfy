/** Locking a config's values again for other keys, in the file's own text
    (relockConfig in cmd/rest-o-matic/secret.go). */
module Relock {
  import opened Sequences
  import opened Wrappers

  // ----- Replacing text -----

  /** bytes.Contains. */
  predicate Contains(s: string, was: string) {
    exists i :: 0 <= i <= |s| && HasPrefix(s[i..], was)
  }

  /** bytes.ReplaceAll: from the left, never into what was just put in. An empty
      old text is found before every character and at the end. */
  function ReplaceAll(s: string, was: string, now: string): string
    decreases |s|
  {
    if was == [] then now + (if s == [] then [] else [s[0]] + ReplaceAll(s[1..], was, now))
    else if s == [] then []
    else if HasPrefix(s, was) then now + ReplaceAll(s[|was|..], was, now)
    else [s[0]] + ReplaceAll(s[1..], was, now)
  }

  /** One after another, as the loop does. */
  function Sequential(s: string, olds: seq<string>, news: seq<string>): string
    requires |olds| == |news|
  {
    if olds == [] then s
    else
      var n := |olds| - 1;
      ReplaceAll(Sequential(s, olds[..n], news[..n]), olds[n], news[n])
  }

  // ----- Runs of base64 -----

  predicate IsBase64(c: char) {
    'A' <= c <= 'Z' || 'a' <= c <= 'z' || '0' <= c <= '9' || c in "+/="
  }

  predicate AllBase64(t: string) {
    forall c :: c in t ==> IsBase64(c)
  }

  predicate Run(t: string) {
    t != [] && AllBase64(t)
  }

  function RunEnd(s: string): (n: nat)
    ensures n <= |s| && AllBase64(s[..n]) && (n < |s| ==> !IsBase64(s[n]))
  {
    if s == [] || !IsBase64(s[0]) then 0
    else
      var n := RunEnd(s[1..]) + 1;
      assert s[..n] == [s[0]] + s[1..][..n - 1];
      n
  }

  function FirstLength(s: string): nat
    requires s != []
  {
    if RunEnd(s) == 0 then 1 else RunEnd(s)
  }

  /** A text as its maximal runs of base64 and the characters between them. */
  function Tokens(s: string): seq<string>
    decreases |s|
  {
    if s == [] then []
    else [s[..FirstLength(s)]] + Tokens(s[FirstLength(s)..])
  }

  function Concat(ts: seq<string>): string {
    if ts == [] then [] else ts[0] + Concat(ts[1..])
  }

  /** A run, or one character that is in none; and runs are never side by side. */
  ghost predicate Tokenized(ts: seq<string>) {
    && (forall t :: t in ts ==> Run(t) || (|t| == 1 && !IsBase64(t[0])))
    && (forall i :: 0 <= i < |ts| - 1 && Run(ts[i]) ==> !Run(ts[i + 1]))
  }

  lemma FirstToTake(s: string)
    requires s != []
    ensures var n := FirstLength(s);
            && 0 < n <= |s|
            && (Run(s[..n]) || (n == 1 && !IsBase64(s[..n][0])))
            && (Run(s[..n]) && n < |s| ==> !IsBase64(s[n]))
  {
    hide AllBase64, IsBase64;
    if RunEnd(s) == 0 {
      NotRun(s[..1]);
    }
  }

  lemma TakeFirst(s: string)
    requires s != []
    ensures var n := FirstLength(s); Tokens(s) == [s[..n]] + Tokens(s[n..])
  {
    hide FirstLength;
  }

  lemma StartsAlike(s: string)
    requires s != []
    ensures Tokens(s) != [] && Tokens(s)[0] != [] && Tokens(s)[0][0] == s[0]
  {
  }

  lemma NotRun(t: string)
    requires t != [] && !IsBase64(t[0])
    ensures !Run(t)
  {
    assert t[0] in t;
  }

  lemma {:induction false} TokensAre(s: string)
    ensures Tokenized(Tokens(s)) && Concat(Tokens(s)) == s
    decreases |s|
  {
    hide Tokens, Tokenized, Run, IsBase64, RunEnd, FirstLength;
    if s == [] {
      NoTokensOfNothing();
    } else {
      FirstToTake(s);
      TakeFirst(s);
      var n := FirstLength(s);
      TokensAre(s[n..]);
      assert s == s[..n] + s[n..];
      if n < |s| {
        StartsAlike(s[n..]);
        if Run(s[..n]) {
          NotRun(Tokens(s[n..])[0]);
        }
      } else {
        NoTokensOfNothing();
        assert s[n..] == [];
      }
      Prepend(s[..n], Tokens(s[n..]));
    }
  }

  lemma NoTokensOfNothing()
    ensures Tokens([]) == [] && Tokenized([])
  {
  }

  lemma Prepend(t: string, ts: seq<string>)
    requires Tokenized(ts) && (Run(t) || (|t| == 1 && !IsBase64(t[0])))
    requires ts != [] && Run(t) ==> !Run(ts[0])
    ensures Tokenized([t] + ts)
  {
    hide Run, IsBase64;
    var us := [t] + ts;
    forall i | 0 <= i < |us| - 1 && Run(us[i])
      ensures !Run(us[i + 1])
    {
      if i > 0 {
        assert us[i] == ts[i - 1] && us[i + 1] == ts[i - 1 + 1];
      }
    }
  }

  /** Tokens in their places, each replaced on its own. */
  function Each(ts: seq<string>, f: string -> string): seq<string> {
    seq(|ts|, i requires 0 <= i < |ts| => f(ts[i]))
  }

  // ----- A replacement acts on each run by itself -----

  /** What follows a run, when anything does, cannot continue it. */
  predicate Ends(rest: string) {
    rest != [] ==> !IsBase64(rest[0])
  }

  lemma ReplaceHere(s: string, was: string, now: string)
    requires was != [] && HasPrefix(s, was)
    ensures ReplaceAll(s, was, now) == now + ReplaceAll(s[|was|..], was, now)
  {
  }

  lemma ReplaceLater(s: string, was: string, now: string)
    requires was != [] && s != [] && !HasPrefix(s, was)
    ensures ReplaceAll(s, was, now) == [s[0]] + ReplaceAll(s[1..], was, now)
  {
  }

  lemma Onward(t: string, rest: string, k: nat)
    requires AllBase64(t) && k <= |t|
    ensures AllBase64(t[k..]) && (t + rest)[k..] == t[k..] + rest
  {
    hide IsBase64;
    assert forall c :: c in t[k..] ==> c in t;
  }

  lemma {:induction false} ReplaceInRun(t: string, rest: string, was: string, now: string)
    requires AllBase64(t) && Ends(rest) && Run(was)
    ensures ReplaceAll(t + rest, was, now) == ReplaceAll(t, was, now) + ReplaceAll(rest, was, now)
    decreases |t|
  {
    NonEmpty(was);
    hide ReplaceAll, AllBase64, Run, Ends;
    if t == [] {
      assert t + rest == rest;
      NothingToReplace(was, now);
    } else {
      StartsInRun(t, rest, was);
      if HasPrefix(t, was) {
        ReplaceHere(t + rest, was, now);
        ReplaceHere(t, was, now);
        Onward(t, rest, |was|);
        ReplaceInRun(t[|was|..], rest, was, now);
        Assoc(now, ReplaceAll(t[|was|..], was, now), ReplaceAll(rest, was, now));
      } else {
        ReplaceLater(t + rest, was, now);
        ReplaceLater(t, was, now);
        Onward(t, rest, 1);
        ReplaceInRun(t[1..], rest, was, now);
        Assoc([t[0]], ReplaceAll(t[1..], was, now), ReplaceAll(rest, was, now));
      }
    }
  }

  lemma StartsInRun(t: string, rest: string, was: string)
    requires Ends(rest) && Run(was)
    ensures HasPrefix(t + rest, was) <==> HasPrefix(t, was)
  {
    var s := t + rest;
    if |was| <= |t| {
      assert s[..|was|] == t[..|was|];
    } else if |was| <= |s| {
      assert s[..|was|][|t|] == rest[0] && was[|t|] in was;
    }
  }

  lemma ReplaceSeparator(t: string, rest: string, was: string, now: string)
    requires |t| == 1 && !IsBase64(t[0]) && Run(was)
    ensures ReplaceAll(t + rest, was, now) == ReplaceAll(t, was, now) + ReplaceAll(rest, was, now)
    ensures ReplaceAll(t, was, now) == t
  {
    hide ReplaceAll, AllBase64;
    NotAtSeparator(t, [], was);
    NotAtSeparator(t, rest, was);
    assert t + [] == t;
    NothingToReplace(was, now);
    ReplaceLater(t, was, now);
    ReplaceLater(t + rest, was, now);
    assert (t + rest)[1..] == rest && (t + rest)[0] == t[0] && t[1..] == [] && [t[0]] == t;
  }

  /** A run is not found at a character of none. */
  lemma NotAtSeparator(t: string, rest: string, was: string)
    requires |t| == 1 && !IsBase64(t[0]) && Run(was)
    ensures !HasPrefix(t + rest, was)
  {
    hide IsBase64;
    assert was[0] in was;
    if |was| <= |t + rest| {
      assert (t + rest)[..|was|][0] == t[0];
    }
  }

  lemma HeadEnds(ts: seq<string>)
    requires Tokenized(ts) && ts != [] && Run(ts[0])
    ensures Ends(Concat(ts[1..]))
  {
    if |ts| > 1 {
      assert ts[0 + 1] in ts && !Run(ts[0 + 1]);
      assert Concat(ts[1..])[0] == ts[1][0];
    } else {
      assert ts[1..] == [];
    }
  }

  lemma TokenizedTail(ts: seq<string>)
    requires Tokenized(ts) && ts != []
    ensures Tokenized(ts[1..])
  {
    hide Run, IsBase64;
    var us := ts[1..];
    forall i | 0 <= i < |us| - 1 && Run(us[i])
      ensures !Run(us[i + 1])
    {
      assert us[i] == ts[i + 1] && us[i + 1] == ts[i + 1 + 1];
    }
  }

  lemma FirstToken(ts: seq<string>)
    requires Tokenized(ts) && ts != []
    ensures Run(ts[0]) || (|ts[0]| == 1 && !IsBase64(ts[0][0]))
  {
    assert ts[0] in ts;
  }

  lemma NoTokens(f: string -> string)
    ensures Concat(Each([], f)) == []
  {
  }

  lemma EachHead(ts: seq<string>, f: string -> string)
    requires ts != []
    ensures Each(ts, f) == [f(ts[0])] + Each(ts[1..], f)
    ensures Concat(Each(ts, f)) == f(ts[0]) + Concat(Each(ts[1..], f))
  {
    assert Each(ts, f) == [f(ts[0])] + Each(ts[1..], f);
    assert Each(ts, f)[1..] == Each(ts[1..], f);
  }

  lemma {:induction false} ReplaceEach(ts: seq<string>, was: string, now: string)
    requires Tokenized(ts) && Run(was)
    ensures ReplaceAll(Concat(ts), was, now) == Concat(Each(ts, t => ReplaceAll(t, was, now)))
    decreases |ts|
  {
    hide ReplaceAll, Each, IsBase64, Tokenized;
    var f := t => ReplaceAll(t, was, now);
    if ts == [] {
      NothingToReplace(was, now);
      NoTokens(f);
    } else {
      var t, rest := ts[0], ts[1..];
      FirstToken(ts);
      if Run(t) {
        HeadEnds(ts);
        ReplaceInRun(t, Concat(rest), was, now);
      } else {
        ReplaceSeparator(t, Concat(rest), was, now);
      }
      TokenizedTail(ts);
      ReplaceEach(rest, was, now);
      EachHead(ts, f);
    }
  }

  lemma NothingToReplace(was: string, now: string)
    requires was != []
    ensures ReplaceAll([], was, now) == []
  {
  }

  lemma {:induction false} NoneToReplace(t: string, was: string, now: string)
    requires was != [] && !Contains(t, was)
    ensures ReplaceAll(t, was, now) == t
    decreases |t|
  {
    if t != [] {
      assert t[0..] == t;
      forall i | 0 <= i <= |t| - 1
        ensures !HasPrefix(t[1..][i..], was)
      {
        assert t[1..][i..] == t[i + 1..];
      }
      NoneToReplace(t[1..], was, now);
    }
  }

  lemma ReplaceWhole(was: string, now: string)
    requires was != []
    ensures ReplaceAll(was, was, now) == now
  {
    assert was[|was|..] == [];
    NothingToReplace(was, now);
  }

  // ----- Sequential replacement is simultaneous -----

  /** Which old text this is. */
  function Find(olds: seq<string>, t: string): (r: Option<nat>)
    ensures r.Some? ==> r.value < |olds| && olds[r.value] == t
    ensures r.None? ==> t !in olds
  {
    if olds == [] then None
    else
      var n := |olds| - 1;
      if olds[n] == t then Some(n)
      else
        assert olds == olds[..n] + [olds[n]];
        Find(olds[..n], t)
  }

  function Swap(olds: seq<string>, news: seq<string>, t: string): string
    requires |olds| == |news|
  {
    var i := Find(olds, t);
    if i.Some? then news[i.value] else t
  }

  /** Every old text replaced by its new one at once, and nothing else changed. */
  function Simultaneous(s: string, olds: seq<string>, news: seq<string>): string
    requires |olds| == |news|
  {
    Concat(Each(Tokens(s), t => Swap(olds, news, t)))
  }

  /** An old text stands only as a whole run. */
  ghost predicate WholeRuns(s: string, olds: seq<string>) {
    forall t, was :: t in Tokens(s) && was in olds ==> t == was || !Contains(t, was)
  }

  /** No text put in holds an old one still to be replaced. */
  ghost predicate Inert(olds: seq<string>, news: seq<string>)
    requires |olds| == |news|
  {
    forall i, j :: 0 <= i < j < |olds| ==> !Contains(news[i], olds[j])
  }

  ghost predicate AllRuns(xs: seq<string>) {
    forall x :: x in xs ==> Run(x)
  }

  lemma SwappedTokenized(ts: seq<string>, olds: seq<string>, news: seq<string>)
    requires |olds| == |news| && AllRuns(olds) && AllRuns(news) && Tokenized(ts)
    ensures Tokenized(Each(ts, t => Swap(olds, news, t)))
  {
    hide IsBase64, Find;
    var us := Each(ts, t => Swap(olds, news, t));
    forall i | 0 <= i < |ts|
      ensures Run(us[i]) <==> Run(ts[i])
      ensures !Run(ts[i]) ==> us[i] == ts[i]
    {
      var k := Find(olds, ts[i]);
      if k.Some? {
        assert olds[k.value] in olds && news[k.value] in news;
      }
    }
    assert forall t :: t in us ==> exists i :: 0 <= i < |ts| && us[i] == t;
  }

  lemma EachTwice(ts: seq<string>, f: string -> string, g: string -> string, h: string -> string)
    requires forall i :: 0 <= i < |ts| ==> g(f(ts[i])) == h(ts[i])
    ensures Each(Each(ts, f), g) == Each(ts, h)
  {
  }

  lemma {:induction false} ReplacedLength(t: string, was: string, now: string)
    requires was != []
    ensures |now| >= |was| ==> |ReplaceAll(t, was, now)| >= |t|
    ensures |now| <= |was| ==> |ReplaceAll(t, was, now)| <= |t|
    decreases |t|
  {
    if t != [] {
      ReplacedLength(t[if HasPrefix(t, was) then |was| else 1..], was, now);
    }
  }

  /** A text that is found is changed. */
  lemma {:induction false} ReplacingChanges(t: string, was: string, now: string)
    requires was != [] && was != now && Contains(t, was)
    ensures ReplaceAll(t, was, now) != t
    decreases |t|
  {
    var i :| 0 <= i <= |t| && HasPrefix(t[i..], was);
    if HasPrefix(t, was) {
      ReplacedLength(t[|was|..], was, now);
      if |now| == |was| {
        assert ReplaceAll(t, was, now)[..|was|] == now && t[..|was|] == was;
      }
    } else {
      assert t[0..] == t;
      assert t[1..][i - 1..] == t[i..];
      ReplacingChanges(t[1..], was, now);
      assert ReplaceAll(t, was, now)[1..] == ReplaceAll(t[1..], was, now);
    }
  }

  lemma {:induction false} RunReplaced(t: string, was: string, now: string)
    requires Run(was) && Run(now) && AllBase64(t)
    ensures AllBase64(ReplaceAll(t, was, now))
    ensures t != [] ==> ReplaceAll(t, was, now) != []
    decreases |t|
  {
    hide IsBase64;
    if t != [] {
      var k := if HasPrefix(t, was) then |was| else 1;
      assert forall c :: c in t[k..] ==> c in t;
      RunReplaced(t[k..], was, now);
    }
  }

  lemma RunEndIs(s: string, n: nat)
    requires n <= |s| && AllBase64(s[..n]) && (n < |s| ==> !IsBase64(s[n]))
    ensures RunEnd(s) == n
  {
    hide IsBase64;
    var m := RunEnd(s);
    assert forall i :: 0 <= i < n ==> s[i] == s[..n][i] && s[i] in s[..n];
    assert forall i :: 0 <= i < m ==> s[i] == s[..m][i] && s[i] in s[..m];
  }

  lemma FirstOff(t: string, rest: string)
    requires (Run(t) && Ends(rest)) || (|t| == 1 && !IsBase64(t[0]))
    ensures Tokens(t + rest) == [t] + Tokens(rest)
  {
    hide IsBase64, Run;
    var s := t + rest;
    assert s[..|t|] == t && s[|t|..] == rest;
    if Run(t) {
      RunIs(t);
      RunEndIs(s, |t|);
    } else {
      assert s[..0] == [];
      RunEndIs(s, 0);
    }
  }

  lemma RunIs(t: string)
    requires Run(t)
    ensures t != [] && AllBase64(t)
  {
  }

  /** A text has one tokenization. */
  lemma {:induction false} TokensUnique(ts: seq<string>)
    requires Tokenized(ts)
    ensures Tokens(Concat(ts)) == ts
    decreases |ts|
  {
    hide IsBase64, Tokens, Tokenized, Run;
    if ts == [] {
      NoTokensOfNothing();
    } else {
      TokenizedTail(ts);
      TokensUnique(ts[1..]);
      FirstToken(ts);
      if Run(ts[0]) {
        HeadEnds(ts);
      }
      FirstOff(ts[0], Concat(ts[1..]));
    }
  }

  // ----- When the loop is the simultaneous replacement, exactly -----

  /** The loop on one token. */
  function Through(olds: seq<string>, news: seq<string>, t: string): string
    requires |olds| == |news|
  {
    Sequential(t, olds, news)
  }

  lemma NoLoops(ts: seq<string>)
    ensures Each(ts, t => Through([], [], t)) == ts
  {
  }

  /** The loop acts on each run by itself. */
  lemma {:induction false} SequentialEach(ts: seq<string>, olds: seq<string>, news: seq<string>)
    requires |olds| == |news| && AllRuns(olds) && AllRuns(news) && Tokenized(ts)
    ensures Tokenized(Each(ts, t => Through(olds, news, t)))
    ensures Sequential(Concat(ts), olds, news) == Concat(Each(ts, t => Through(olds, news, t)))
    decreases |olds|
  {
    hide ReplaceAll, Tokenized, Run, Each, Concat;
    if olds == [] {
      NoLoops(ts);
    } else {
      var n := |olds| - 1;
      var olds', news', was, now := olds[..n], news[..n], olds[n], news[n];
      assert olds == olds' + [was] && news == news' + [now];
      SequentialEach(ts, olds', news');
      var f, g, h := t => Through(olds', news', t), t => ReplaceAll(t, was, now), t => Through(olds, news, t);
      ReplaceEach(Each(ts, f), was, now);
      ReplacedTokenized(Each(ts, f), was, now);
      EachTwice(ts, f, g, h);
    }
  }

  lemma {:induction false} SequentialSplit(s: string, a: seq<string>, x: seq<string>, b: seq<string>, y: seq<string>)
    requires |a| == |x| && |b| == |y|
    ensures Sequential(s, a + b, x + y) == Sequential(Sequential(s, a, x), b, y)
    decreases |b|
  {
    hide ReplaceAll;
    if b == [] {
      assert a + b == a && x + y == x;
    } else {
      var n := |b| - 1;
      assert (a + b)[..|a| + n] == a + b[..n] && (x + y)[..|a| + n] == x + y[..n];
      SequentialSplit(s, a, x, b[..n], y[..n]);
    }
  }

  lemma {:induction false} NothingFound(t: string, olds: seq<string>, news: seq<string>)
    requires |olds| == |news| && AllRuns(olds) && forall i :: 0 <= i < |olds| ==> !Contains(t, olds[i])
    ensures Sequential(t, olds, news) == t
    decreases |olds|
  {
    hide ReplaceAll, Contains;
    if olds != [] {
      var n := |olds| - 1;
      NothingFound(t, olds[..n], news[..n]);
      assert olds[n] in olds;
      NoneToReplace(t, olds[n], news[n]);
    }
  }

  /** What the rest of the loop makes of the text it has put in for value i. */
  function Later(olds: seq<string>, news: seq<string>, i: nat): string
    requires |olds| == |news| && i < |olds|
  {
    Sequential(news[i], olds[i + 1..], news[i + 1..])
  }

  lemma ThroughOld(olds: seq<string>, news: seq<string>, i: nat)
    requires |olds| == |news| && AllRuns(olds) && i < |olds|
    requires forall j :: 0 <= j < i ==> !Contains(olds[i], olds[j])
    ensures Through(olds, news, olds[i]) == Later(olds, news, i)
  {
    hide ReplaceAll, Contains, Sequential;
    var a, b, x, y := olds[..i], olds[i + 1..], news[..i], news[i + 1..];
    var t, now := olds[i], news[i];
    assert olds == a + ([t] + b) && news == x + ([now] + y);
    SequentialSplit(t, a, x, [t] + b, [now] + y);
    NothingFound(t, a, x);
    SequentialSplit(t, [t], [now], b, y);
    assert t in olds;
    NonEmpty(t);
    OneWhole(t, now);
  }

  lemma OneWhole(was: string, now: string)
    requires was != []
    ensures Sequential(was, [was], [now]) == now
  {
    assert [was][..0] == [] && [now][..0] == [];
    assert Sequential(was, [], []) == was;
    ReplaceWhole(was, now);
  }

  lemma {:induction false} FindOnly(olds: seq<string>, i: nat)
    requires i < |olds| && NoDuplicates(olds)
    ensures Find(olds, olds[i]) == Some(i)
  {
  }

  /** A token in the loop against the same token swapped at once. */
  lemma TokenExactly(olds: seq<string>, news: seq<string>, t: string)
    requires |olds| == |news| && AllRuns(olds) && NoDuplicates(olds)
    requires forall was :: was in olds ==> t == was || !Contains(t, was)
    ensures var i := Find(olds, t);
            if i.Some? then Through(olds, news, t) == Later(olds, news, i.value) && Swap(olds, news, t) == news[i.value]
            else Through(olds, news, t) == t == Swap(olds, news, t)
  {
    hide ReplaceAll, Contains, Sequential;
    var i := Find(olds, t);
    if i.Some? {
      assert forall j :: 0 <= j < i.value ==> olds[j] in olds;
      ThroughOld(olds, news, i.value);
    } else {
      assert forall j :: 0 <= j < |olds| ==> olds[j] in olds;
      NothingFound(t, olds, news);
    }
  }

  /** Each value in the text is left, by the replacements after its own, as it was put in. */
  ghost predicate LeftAlone(s: string, olds: seq<string>, news: seq<string>)
    requires |olds| == |news|
  {
    forall i :: 0 <= i < |olds| && olds[i] in Tokens(s) ==> Later(olds, news, i) == news[i]
  }

  /** Main result, exactly: for any number of values standing as whole runs, the
      loop is the simultaneous replacement if and only if each text put in is
      left alone by the replacements still to come. */
  lemma SequentialExactly(s: string, olds: seq<string>, news: seq<string>)
    requires |olds| == |news| && AllRuns(olds) && AllRuns(news) && NoDuplicates(olds) && WholeRuns(s, olds)
    ensures Sequential(s, olds, news) == Simultaneous(s, olds, news) <==> LeftAlone(s, olds, news)
  {
    hide ReplaceAll, Tokens, Contains, Tokenized, Run, Sequential, Concat, Through, Later, Swap;
    var ts := Tokens(s);
    var f, h := t => Through(olds, news, t), t => Swap(olds, news, t);
    TokensAre(s);
    SequentialEach(ts, olds, news);
    SwappedTokenized(ts, olds, news);
    TokensUnique(Each(ts, f));
    TokensUnique(Each(ts, h));
    assert Sequential(s, olds, news) == Simultaneous(s, olds, news) <==> Each(ts, f) == Each(ts, h);
    forall k | 0 <= k < |ts|
      ensures Each(ts, f)[k] == Each(ts, h)[k]
         <==> (Find(olds, ts[k]).Some? ==> Later(olds, news, Find(olds, ts[k]).value) == news[Find(olds, ts[k]).value])
    {
      TokenExactly(olds, news, ts[k]);
    }
    SameTokens(ts, olds, news);
    assert Each(ts, f) == Each(ts, h) <==> forall k :: 0 <= k < |ts| ==> Each(ts, f)[k] == Each(ts, h)[k];
  }

  lemma SameTokens(ts: seq<string>, olds: seq<string>, news: seq<string>)
    requires |olds| == |news| && NoDuplicates(olds)
    ensures (forall k :: 0 <= k < |ts| && Find(olds, ts[k]).Some? ==>
               Later(olds, news, Find(olds, ts[k]).value) == news[Find(olds, ts[k]).value])
       <==> (forall i :: 0 <= i < |olds| && olds[i] in ts ==> Later(olds, news, i) == news[i])
  {
    hide Later;
    forall i | 0 <= i < |olds|
      ensures Find(olds, olds[i]) == Some(i)
    {
      FindOnly(olds, i);
    }
  }

  /** So it is enough that no text put in holds one still to be replaced. */
  lemma {:induction false} SequentialIsSwaps(s: string, olds: seq<string>, news: seq<string>)
    requires |olds| == |news| && AllRuns(olds) && AllRuns(news) && NoDuplicates(olds)
    requires WholeRuns(s, olds) && Inert(olds, news)
    ensures Sequential(s, olds, news) == Simultaneous(s, olds, news)
  {
    hide ReplaceAll, Tokens, Contains, Run, Sequential, Simultaneous, WholeRuns;
    forall i | 0 <= i < |olds|
      ensures Later(olds, news, i) == news[i]
    {
      var after := olds[i + 1..];
      forall j | 0 <= j < |after|
        ensures after[j] in olds && !Contains(news[i], after[j])
      {
        assert after[j] == olds[i + 1 + j];
      }
      NothingFound(news[i], olds[i + 1..], news[i + 1..]);
    }
    SequentialExactly(s, olds, news);
  }

  /** For two values that is also needed. */
  lemma TwoExactly(s: string, olds: seq<string>, news: seq<string>)
    requires |olds| == |news| == 2 && AllRuns(olds) && AllRuns(news) && NoDuplicates(olds)
    requires WholeRuns(s, olds) && olds[0] in Tokens(s) && olds[1] != news[1]
    ensures Sequential(s, olds, news) == Simultaneous(s, olds, news) <==> !Contains(news[0], olds[1])
  {
    hide Tokens, Contains, Run, Sequential, Simultaneous, WholeRuns, ReplaceAll;
    SequentialExactly(s, olds, news);
    assert olds[1] in olds;
    NonEmpty(olds[1]);
    LastTwo(olds, news);
    if Contains(news[0], olds[1]) {
      ReplacingChanges(news[0], olds[1], news[1]);
    } else {
      NoneToReplace(news[0], olds[1], news[1]);
    }
  }

  lemma LastTwo(olds: seq<string>, news: seq<string>)
    requires |olds| == |news| == 2
    ensures Later(olds, news, 1) == news[1] && Later(olds, news, 0) == ReplaceAll(news[0], olds[1], news[1])
  {
    hide ReplaceAll;
    assert olds[1..] == [olds[1]] && news[1..] == [news[1]] && olds[2..] == [] && news[2..] == [];
    assert [olds[1]][..0] == [] && [news[1]][..0] == [];
    assert Sequential(news[0], [], []) == news[0];
  }

  /** It fails: `a` becomes `xb`, in which `b` then becomes `y`. */
  lemma SecondSpoilsFirst()
    ensures var olds, news := ["a", "b"], ["xb", "y"];
            Sequential("a b", olds, news) == "xy y" && Simultaneous("a b", olds, news) == "xb y"
  {
    var olds, news := ["a", "b"], ["xb", "y"];
    assert olds[..1] == ["a"] && news[..1] == ["xb"] && ["a"][..0] == [] && ["xb"][..0] == [];
    assert Sequential("a b", ["a"], ["xb"]) == ReplaceAll("a b", "a", "xb");
    SpoiledSteps();
    assert Sequential("a b", olds, news) == ReplaceAll("xb b", "b", "y");
    SpoiledTokens();
    SpoiledSwaps(olds, news);
  }

  lemma SpoiledSteps()
    ensures ReplaceAll("a b", "a", "xb") == "xb b" && ReplaceAll("xb b", "b", "y") == "xy y"
  {
    assert "a b"[1..] == " b" && " b"[1..] == "b" && "b"[1..] == "";
    assert ReplaceAll("b", "a", "xb") == "b" && ReplaceAll(" b", "a", "xb") == " b";
    assert "a b"[..1] == "a";
    assert "xb b"[1..] == "b b" && "b b"[1..] == " b" && "b b"[..1] == "b" && "b"[..1] == "b";
    assert ReplaceAll("b", "b", "y") == "y" && ReplaceAll(" b", "b", "y") == " y";
    assert ReplaceAll("b b", "b", "y") == "y y";
  }

  lemma SpoiledTokens()
    ensures Tokens("a b") == ["a", " ", "b"]
  {
    var ts := ["a", " ", "b"];
    assert ts[1..] == [" ", "b"] && [" ", "b"][1..] == ["b"] && ["b"][1..] == [];
    assert Concat(["b"]) == "b" && Concat([" ", "b"]) == " b";
    assert Concat(ts) == "a b";
    assert Run("a") && Run("b") && !IsBase64(' ');
    assert ' ' in " ";
    TokensUnique(ts);
  }

  lemma SpoiledSwaps(olds: seq<string>, news: seq<string>)
    requires olds == ["a", "b"] && news == ["xb", "y"] && Tokens("a b") == ["a", " ", "b"]
    ensures Simultaneous("a b", olds, news) == "xb y"
  {
    hide Tokens;
    FindOnly(olds, 0);
    FindOnly(olds, 1);
    var us := Each(["a", " ", "b"], t => Swap(olds, news, t));
    assert us == ["xb", " ", "y"];
    assert us[1..] == [" ", "y"] && [" ", "y"][1..] == ["y"] && ["y"][1..] == [];
    assert Concat(["y"]) == "y" && Concat([" ", "y"]) == " y";
  }

  lemma NonEmpty(t: string)
    requires Run(t)
    ensures t != []
  {
  }

  lemma ReplacedTokenized(ts: seq<string>, was: string, now: string)
    requires Tokenized(ts) && Run(was) && Run(now)
    ensures Tokenized(Each(ts, t => ReplaceAll(t, was, now)))
  {
    hide IsBase64, ReplaceAll;
    var us := Each(ts, t => ReplaceAll(t, was, now));
    forall i | 0 <= i < |ts|
      ensures Run(us[i]) <==> Run(ts[i])
      ensures !Run(ts[i]) ==> us[i] == ts[i]
    {
      assert ts[i] in ts;
      if Run(ts[i]) {
        RunReplaced(ts[i], was, now);
      } else {
        ReplaceSeparator(ts[i], [], was, now);
      }
    }
    assert forall t :: t in us ==> exists i :: 0 <= i < |ts| && us[i] == t;
  }

  // ----- relockConfig -----

  type Key = string

  /** LockedValues, and age's Unlock and Lock, left open; the number tells one
      call of Lock, whose result is random, from another. */
  datatype Tools = Tools(
    values: string -> Option<seq<string>>,
    unlock: (string, Key) -> Option<string>,
    lock: (nat, string) -> Option<string>)

  datatype Outcome =
    | Unreadable | Unparsable | NothingLocked | CannotOpen(failed: nat) | WouldRelock
    | NotOnOneLine(i: nat) | NotLocked(i: nat) | NotReadBack | NotReplaced | Relocked

  datatype Verdict = Stop(outcome: Outcome) | Ready(out: string)

  /** The plain texts, "" where a value cannot be opened. */
  function Plain(tools: Tools, key: Key, texts: seq<string>): seq<string> {
    seq(|texts|, i requires 0 <= i < |texts| =>
      var p := tools.unlock(texts[i], key); if p.Some? then p.value else "")
  }

  function Failures(tools: Tools, key: Key, texts: seq<string>): nat {
    if texts == [] then 0
    else
      var n := |texts| - 1;
      Failures(tools, key, texts[..n]) + if tools.unlock(texts[n], key).None? then 1 else 0
  }

  predicate Opens(tools: Tools, key: Key, texts: seq<string>, plain: seq<string>) {
    |texts| == |plain| && forall i :: 0 <= i < |texts| ==> tools.unlock(texts[i], key) == Some(plain[i])
  }

  /** The locked values of the file, where it could be read and parsed. */
  predicate HasValues(tools: Tools, data: Option<string>) {
    data.Some? && tools.values(data.value).Some? && tools.values(data.value).value != []
  }

  function Values(tools: Tools, data: Option<string>): seq<string>
    requires HasValues(tools, data)
  {
    tools.values(data.value).value
  }

  predicate AllOpen(tools: Tools, key: Key, texts: seq<string>) {
    forall i :: 0 <= i < |texts| ==> tools.unlock(texts[i], key).Some?
  }

  /** Which of them do not open. */
  function Closed(tools: Tools, key: Key, texts: seq<string>): set<nat> {
    set i: nat | i < |texts| && tools.unlock(texts[i], key).None?
  }

  lemma {:induction false} FailuresExactly(tools: Tools, key: Key, texts: seq<string>)
    ensures Failures(tools, key, texts) == |Closed(tools, key, texts)|
    ensures Failures(tools, key, texts) == 0 <==> AllOpen(tools, key, texts)
  {
    if texts != [] {
      var n := |texts| - 1;
      FailuresExactly(tools, key, texts[..n]);
      var before, all := Closed(tools, key, texts[..n]), Closed(tools, key, texts);
      if tools.unlock(texts[n], key).None? {
        assert all == before + {n};
      } else {
        assert all == before;
      }
    }
  }

  datatype Rewriting = Rewritten(out: string, news: seq<string>) | Failed(outcome: Outcome)

  function Rewrite(tools: Tools, s: string, olds: seq<string>, plain: seq<string>): Rewriting
    requires |olds| == |plain|
  {
    if olds == [] then Rewritten(s, [])
    else
      var n := |olds| - 1;
      var r := Rewrite(tools, s, olds[..n], plain[..n]);
      if r.Failed? then r
      else if !Contains(r.out, olds[n]) then Failed(NotOnOneLine(n))
      else
        var now := tools.lock(n, plain[n]);
        if now.None? then Failed(NotLocked(n))
        else Rewritten(ReplaceAll(r.out, olds[n], now.value), r.news + [now.value])
  }

  function Decide(tools: Tools, openKey: Key, hostKey: Key, data: Option<string>, dryRun: bool): Verdict {
    if data.None? then Stop(Unreadable)
    else
      var texts := tools.values(data.value);
      if texts.None? then Stop(Unparsable)
      else if texts.value == [] then Stop(NothingLocked)
      else if Failures(tools, openKey, texts.value) > 0 then Stop(CannotOpen(Failures(tools, openKey, texts.value)))
      else if dryRun then Stop(WouldRelock)
      else
        var plain := Plain(tools, openKey, texts.value);
        var r := Rewrite(tools, data.value, texts.value, plain);
        if r.Failed? then Stop(r.outcome)
        else if tools.values(r.out).Some? && Opens(tools, hostKey, tools.values(r.out).value, plain) then Ready(r.out)
        else Stop(NotReadBack)
  }

  /** The config file; None when it cannot be read. */
  class ConfigFile {
    var data: Option<string>

    constructor (data: Option<string>)
      ensures this.data == data
    {
      this.data := data;
    }

    method Open(tools: Tools, key: Key, texts: seq<string>) returns (plain: seq<string>, failed: nat)
      ensures plain == Plain(tools, key, texts) && failed == Failures(tools, key, texts)
    {
      plain, failed := [], 0;
      for i := 0 to |texts|
        invariant plain == Plain(tools, key, texts[..i]) && failed == Failures(tools, key, texts[..i])
      {
        assert texts[..i + 1][..i] == texts[..i];
        var p := tools.unlock(texts[i], key);
        if p.None? {
          failed := failed + 1;
          plain := plain + [""];
        } else {
          plain := plain + [p.value];
        }
      }
      assert texts[..|texts|] == texts;
    }

    method Replace(tools: Tools, s: string, olds: seq<string>, plain: seq<string>) returns (r: Rewriting)
      requires |olds| == |plain|
      ensures r == Rewrite(tools, s, olds, plain)
    {
      hide ReplaceAll, Contains;
      r := Rewritten(s, []);
      for i := 0 to |olds|
        invariant r.Rewritten? && r == Rewrite(tools, s, olds[..i], plain[..i])
      {
        assert olds[..i + 1][..i] == olds[..i] && plain[..i + 1][..i] == plain[..i];
        if !Contains(r.out, olds[i]) {
          r := Failed(NotOnOneLine(i));
          Stopped(tools, s, olds, plain, i + 1);
          return;
        }
        var now := tools.lock(i, plain[i]);
        if now.None? {
          r := Failed(NotLocked(i));
          Stopped(tools, s, olds, plain, i + 1);
          return;
        }
        r := Rewritten(ReplaceAll(r.out, olds[i], now.value), r.news + [now.value]);
      }
      assert olds[..|olds|] == olds && plain[..|plain|] == plain;
    }

    method ReadsBack(tools: Tools, key: Key, out: string, plain: seq<string>) returns (b: bool)
      ensures b == (tools.values(out).Some? && Opens(tools, key, tools.values(out).value, plain))
    {
      var after := tools.values(out);
      if after.None? || |after.value| != |plain| {
        return false;
      }
      for i := 0 to |plain|
        invariant forall j :: 0 <= j < i ==> tools.unlock(after.value[j], key) == Some(plain[j])
      {
        if tools.unlock(after.value[i], key) != Some(plain[i]) {
          return false;
        }
      }
      return true;
    }

    /** relockConfig; replaced says whether the new file can be put in place.
        It changes the file in one case only, and then as decided. */
    method Relock(tools: Tools, openKey: Key, hostKey: Key, dryRun: bool, replaced: bool) returns (r: Outcome)
      modifies this
      ensures var v := Decide(tools, openKey, hostKey, old(data), dryRun);
              && (v.Stop? ==> r == v.outcome)
              && (v.Ready? ==> r == if replaced then Relocked else NotReplaced)
              && data == if v.Ready? && replaced then Some(v.out) else old(data)
      ensures dryRun || r != Relocked ==> data == old(data)
      ensures r == Unreadable <==> old(data).None?
      ensures r == Unparsable <==> old(data).Some? && tools.values(old(data).value).None?
      ensures r == NothingLocked <==> old(data).Some? && tools.values(old(data).value) == Some([])
      ensures r.CannotOpen? <==> HasValues(tools, old(data)) && !AllOpen(tools, openKey, Values(tools, old(data)))
      ensures r.CannotOpen? ==> r.failed == |Closed(tools, openKey, Values(tools, old(data)))|
      ensures r == WouldRelock <==> dryRun && HasValues(tools, old(data)) && AllOpen(tools, openKey, Values(tools, old(data)))
      ensures r == Relocked ==> !dryRun && replaced
      ensures r == NotReplaced ==> !dryRun && !replaced
    {
      hide Rewrite, Plain, Failures, Opens, AllOpen, Closed;
      if HasValues(tools, data) {
        FailuresExactly(tools, openKey, Values(tools, data));
      }
      if data.None? {
        return Unreadable;
      }
      var texts := tools.values(data.value);
      if texts.None? {
        return Unparsable;
      }
      if texts.value == [] {
        return NothingLocked;
      }
      var plain, failed := Open(tools, openKey, texts.value);
      if failed > 0 {
        return CannotOpen(failed);
      }
      if dryRun {
        return WouldRelock;
      }
      PlainLength(tools, openKey, texts.value);
      var w := Replace(tools, data.value, texts.value, plain);
      RewriteStops(tools, data.value, texts.value, plain);
      if w.Failed? {
        return w.outcome;
      }
      var same := ReadsBack(tools, hostKey, w.out, plain);
      if !same {
        return NotReadBack;
      }
      if !replaced {
        return NotReplaced;
      }
      data := Some(w.out);
      return Relocked;
    }
  }

  lemma PlainLength(tools: Tools, key: Key, texts: seq<string>)
    ensures |Plain(tools, key, texts)| == |texts|
  {
  }

  /** Once the loop fails it has failed. */
  lemma {:induction false} Stopped(tools: Tools, s: string, olds: seq<string>, plain: seq<string>, i: nat)
    requires |olds| == |plain| && i <= |olds| && Rewrite(tools, s, olds[..i], plain[..i]).Failed?
    ensures Rewrite(tools, s, olds, plain) == Rewrite(tools, s, olds[..i], plain[..i])
    decreases |olds|
  {
    hide ReplaceAll, Contains;
    if i < |olds| {
      var n := |olds| - 1;
      assert olds[..n][..i] == olds[..i] && plain[..n][..i] == plain[..i];
      Stopped(tools, s, olds[..n], plain[..n], i);
    } else {
      assert olds[..i] == olds && plain[..i] == plain;
    }
  }

  // ----- What a relocked file is -----

  lemma {:induction false} RewriteIsSequential(tools: Tools, s: string, olds: seq<string>, plain: seq<string>)
    requires |olds| == |plain| && Rewrite(tools, s, olds, plain).Rewritten?
    ensures var r := Rewrite(tools, s, olds, plain);
            && |r.news| == |olds| && r.out == Sequential(s, olds, r.news)
            && forall i :: 0 <= i < |olds| ==> tools.lock(i, plain[i]) == Some(r.news[i])
    decreases |olds|
  {
    hide ReplaceAll, Contains;
    if olds != [] {
      var n := |olds| - 1;
      RewriteIsSequential(tools, s, olds[..n], plain[..n]);
      var r := Rewrite(tools, s, olds, plain);
      assert r.news[..n] == Rewrite(tools, s, olds[..n], plain[..n]).news;
    }
  }

  lemma {:induction false} NoFailures(tools: Tools, key: Key, texts: seq<string>)
    ensures Failures(tools, key, texts) == 0 <==> Opens(tools, key, texts, Plain(tools, key, texts))
  {
    if texts != [] {
      var n := |texts| - 1;
      NoFailures(tools, key, texts[..n]);
      assert forall i :: 0 <= i < n ==> texts[..n][i] == texts[i];
    }
  }

  /** Main result on relocking: what is written is the old file with each value
      replaced, one after another, by its own lock, and its values open with
      the host's key to exactly what the old ones held, in order. */
  lemma RelockedReopens(tools: Tools, openKey: Key, hostKey: Key, data: Option<string>, out: string)
    returns (texts: seq<string>, plain: seq<string>, news: seq<string>)
    requires Decide(tools, openKey, hostKey, data, false) == Ready(out)
    ensures data.Some? && tools.values(data.value) == Some(texts) && texts != []
    ensures Opens(tools, openKey, texts, plain)
    ensures tools.values(out).Some? && Opens(tools, hostKey, tools.values(out).value, plain)
    ensures |news| == |texts| && out == Sequential(data.value, texts, news)
    ensures forall i :: 0 <= i < |texts| ==> tools.lock(i, plain[i]) == Some(news[i])
  {
    hide Rewrite, Sequential, Opens, Failures, Plain;
    texts := tools.values(data.value).value;
    plain := Plain(tools, openKey, texts);
    PlainLength(tools, openKey, texts);
    NoFailures(tools, openKey, texts);
    news := Rewrite(tools, data.value, texts, plain).news;
    RewriteIsSequential(tools, data.value, texts, plain);
    OpensLength(tools, openKey, texts, plain);
  }

  /** The file as it stood when value i was come to: those before it replaced,
      each by its own lock. */
  predicate ReplacedTo(tools: Tools, s: string, olds: seq<string>, plain: seq<string>, i: nat, news: seq<string>)
    requires |olds| == |plain|
  {
    && i <= |olds| && |news| == i
    && forall j :: 0 <= j < i ==> tools.lock(j, plain[j]) == Some(news[j])
  }

  /** Where the replacing stops, and why: at the first value that is not in the
      file as it then stands, or else cannot be locked. */
  lemma {:induction false} StopsWhere(tools: Tools, s: string, olds: seq<string>, plain: seq<string>)
    returns (i: nat, news: seq<string>)
    requires |olds| == |plain| && Rewrite(tools, s, olds, plain).Failed?
    ensures i < |olds| && ReplacedTo(tools, s, olds, plain, i, news)
    ensures var found := Contains(Sequential(s, olds[..i], news), olds[i]);
            Rewrite(tools, s, olds, plain).outcome == (if found then NotLocked(i) else NotOnOneLine(i))
            && (found ==> tools.lock(i, plain[i]).None?)
    decreases |olds|
  {
    hide ReplaceAll, Contains, Sequential;
    var n := |olds| - 1;
    var r := Rewrite(tools, s, olds[..n], plain[..n]);
    if r.Failed? {
      i, news := StopsWhere(tools, s, olds[..n], plain[..n]);
      assert olds[..n][..i] == olds[..i];
    } else {
      RewriteIsSequential(tools, s, olds[..n], plain[..n]);
      i, news := n, r.news;
    }
  }

  /** Every value was in the file when it was come to. */
  predicate FoundAll(s: string, olds: seq<string>, news: seq<string>)
    requires |olds| == |news|
  {
    forall i :: 0 <= i < |olds| ==> Contains(Sequential(s, olds[..i], news[..i]), olds[i])
  }

  /** The replacing works exactly when every value can be locked and is in the
      file as it stands when it is come to. */
  lemma {:induction false} RewrittenExactly(tools: Tools, s: string, olds: seq<string>, plain: seq<string>, news: seq<string>)
    requires |olds| == |plain| == |news|
    ensures Rewrite(tools, s, olds, plain) == Rewritten(Sequential(s, olds, news), news)
            <==> ReplacedTo(tools, s, olds, plain, |olds|, news) && FoundAll(s, olds, news)
    decreases |olds|
  {
    hide ReplaceAll, Contains, Sequential, FoundAll, ReplacedTo;
    if olds == [] {
      SequentialOfNone(s, olds, news);
      NothingToFind(tools, s, olds, plain, news);
    } else {
      var n := |olds| - 1;
      RewrittenExactly(tools, s, olds[..n], plain[..n], news[..n]);
      SequentialLast(s, olds, news);
      OneMoreFound(tools, s, olds, plain, news);
      var r := Rewrite(tools, s, olds[..n], plain[..n]);
      if r.Rewritten? {
        RewriteIsSequential(tools, s, olds[..n], plain[..n]);
        assert news[..n] + [news[n]] == news;
      }
    }
  }

  lemma NothingToFind(tools: Tools, s: string, olds: seq<string>, plain: seq<string>, news: seq<string>)
    requires |olds| == |plain| == |news| == 0
    ensures ReplacedTo(tools, s, olds, plain, |olds|, news) && FoundAll(s, olds, news)
  {
  }

  lemma OneMoreFound(tools: Tools, s: string, olds: seq<string>, plain: seq<string>, news: seq<string>)
    requires |olds| == |plain| == |news| && olds != []
    ensures var n := |olds| - 1;
            && (FoundAll(s, olds, news) <==>
                FoundAll(s, olds[..n], news[..n]) && Contains(Sequential(s, olds[..n], news[..n]), olds[n]))
            && (ReplacedTo(tools, s, olds, plain, n + 1, news) <==>
                ReplacedTo(tools, s, olds[..n], plain[..n], n, news[..n]) && tools.lock(n, plain[n]) == Some(news[n]))
  {
    hide Contains, Sequential;
    var n := |olds| - 1;
    forall i | 0 <= i < n
      ensures olds[..n][..i] == olds[..i] && news[..n][..i] == news[..i]
    {
    }
  }

  lemma SequentialOfNone(s: string, olds: seq<string>, news: seq<string>)
    requires |olds| == |news| == 0
    ensures Sequential(s, olds, news) == s
  {
  }

  lemma SequentialLast(s: string, olds: seq<string>, news: seq<string>)
    requires |olds| == |news| && olds != []
    ensures var n := |olds| - 1;
            Sequential(s, olds, news) == ReplaceAll(Sequential(s, olds[..n], news[..n]), olds[n], news[n])
  {
    hide ReplaceAll;
  }

  predicate ReadsSame(tools: Tools, key: Key, out: string, plain: seq<string>) {
    tools.values(out).Some? && Opens(tools, key, tools.values(out).value, plain)
  }

  /** When all values open, relocking is decided upon exactly when each can be
      locked, is found in turn, and the result opens to the same; and is given
      up as not reading back exactly when only the last of these fails. */
  lemma DecidedExactly(tools: Tools, openKey: Key, hostKey: Key, data: Option<string>, plain: seq<string>, news: seq<string>)
    requires HasValues(tools, data) && Opens(tools, openKey, Values(tools, data), plain) && |news| == |plain|
    requires ReplacedTo(tools, data.value, Values(tools, data), plain, |news|, news)
    ensures var v, out := Decide(tools, openKey, hostKey, data, false), Sequential(data.value, Values(tools, data), news);
            && (v == Ready(out) <==> FoundAll(data.value, Values(tools, data), news) && ReadsSame(tools, hostKey, out, plain))
            && (v == Stop(NotReadBack) <==> FoundAll(data.value, Values(tools, data), news) && !ReadsSame(tools, hostKey, out, plain))
            && (v.Ready? ==> v == Ready(out))
  {
    hide Rewrite, Opens, Sequential, FoundAll, Failures;
    var texts := Values(tools, data);
    OpensPlain(tools, openKey, texts, plain);
    RewrittenExactly(tools, data.value, texts, plain, news);
    var r := Rewrite(tools, data.value, texts, plain);
    if r.Rewritten? {
      RewriteIsSequential(tools, data.value, texts, plain);
      assert r.news == news;
    } else {
      RewriteStops(tools, data.value, texts, plain);
    }
  }

  lemma OpensPlain(tools: Tools, key: Key, texts: seq<string>, plain: seq<string>)
    requires Opens(tools, key, texts, plain)
    ensures plain == Plain(tools, key, texts) && Failures(tools, key, texts) == 0
  {
    hide Failures;
    FailuresExactly(tools, key, texts);
  }

  lemma RewriteStops(tools: Tools, s: string, olds: seq<string>, plain: seq<string>)
    requires |olds| == |plain|
    ensures Rewrite(tools, s, olds, plain).Failed? ==>
              Rewrite(tools, s, olds, plain).outcome.NotOnOneLine? || Rewrite(tools, s, olds, plain).outcome.NotLocked?
  {
    if Rewrite(tools, s, olds, plain).Failed? {
      var i, news := StopsWhere(tools, s, olds, plain);
    }
  }

  lemma OpensLength(tools: Tools, key: Key, texts: seq<string>, plain: seq<string>)
    requires Opens(tools, key, texts, plain)
    ensures |texts| == |plain|
  {
  }

  /** Lock always gives a run of base64 that the host's key opens, never holding
      a text it is to replace, and never the same twice. */
  ghost predicate LocksWell(tools: Tools, hostKey: Key, texts: seq<string>) {
    && (forall i, p :: tools.lock(i, p).Some? && Run(tools.lock(i, p).value)
                       && tools.unlock(tools.lock(i, p).value, hostKey) == Some(p)
                       && forall j :: 0 <= j < |texts| ==> !Contains(tools.lock(i, p).value, texts[j]))
    && (forall i, j, p, q :: i != j ==> tools.lock(i, p) != tools.lock(j, q))
  }

  /** The list of values, read again, is the new texts in the old places. */
  ghost predicate ReadsSwapped(tools: Tools, s: string, texts: seq<string>) {
    forall news :: |news| == |texts| && AllRuns(news) && NoDuplicates(news) ==>
      tools.values(Simultaneous(s, texts, news)) == Some(news)
  }

  lemma {:induction false} ConcatContains(ts: seq<string>, k: nat)
    requires k < |ts|
    ensures Contains(Concat(ts), ts[k])
  {
    var s := Concat(ts);
    if k == 0 {
      assert s[0..][..|ts[0]|] == ts[0];
      assert HasPrefix(s[0..], ts[0]);
    } else {
      ConcatContains(ts[1..], k - 1);
      var rest := Concat(ts[1..]);
      var i :| 0 <= i <= |rest| && HasPrefix(rest[i..], ts[k]);
      assert s[|ts[0]| + i..] == rest[i..];
    }
  }

  lemma StillThere(s: string, olds: seq<string>, news: seq<string>, next: string)
    requires |olds| == |news| && next in Tokens(s) && next !in olds
    ensures Contains(Simultaneous(s, olds, news), next)
  {
    hide Tokens, Contains, Concat;
    var us := Each(Tokens(s), t => Swap(olds, news, t));
    var k :| 0 <= k < |Tokens(s)| && Tokens(s)[k] == next;
    assert us[k] == next;
    ConcatContains(us, k);
  }

  /** Values that stand as whole runs, each found. */
  ghost predicate WellWritten(s: string, texts: seq<string>) {
    && AllRuns(texts) && NoDuplicates(texts) && WholeRuns(s, texts)
    && forall t :: t in texts ==> t in Tokens(s)
  }

  /** What was locked, by any number of calls. */
  lemma LockedNews(tools: Tools, hostKey: Key, olds: seq<string>, plain: seq<string>, news: seq<string>)
    requires LocksWell(tools, hostKey, olds) && |olds| == |plain| == |news|
    requires forall i :: 0 <= i < |news| ==> tools.lock(i, plain[i]) == Some(news[i])
    ensures AllRuns(news) && NoDuplicates(news) && Inert(olds, news) && Opens(tools, hostKey, news, plain)
  {
    hide Run, Contains;
    forall i | 0 <= i < |news|
      ensures Run(news[i]) && tools.unlock(news[i], hostKey) == Some(plain[i])
      ensures forall j :: 0 <= j < |olds| ==> !Contains(news[i], olds[j])
      ensures forall j :: 0 <= j < |news| && j != i ==> news[j] != news[i]
    {
      assert tools.lock(i, plain[i]) == Some(news[i]);
    }
  }

  /** What the loop has made of the text, if it got to the end. */
  lemma RewriteIsSimultaneous(tools: Tools, hostKey: Key, s: string, olds: seq<string>, plain: seq<string>)
    requires |olds| == |plain| && WellWritten(s, olds) && LocksWell(tools, hostKey, olds)
    requires Rewrite(tools, s, olds, plain).Rewritten?
    ensures var r := Rewrite(tools, s, olds, plain);
            && |r.news| == |olds| && AllRuns(r.news) && NoDuplicates(r.news)
            && r.out == Simultaneous(s, olds, r.news) && Opens(tools, hostKey, r.news, plain)
  {
    hide Rewrite, Run, Contains, Tokens, Simultaneous, Sequential, LocksWell, Opens, Inert, NoDuplicates;
    RewriteIsSequential(tools, s, olds, plain);
    var news := Rewrite(tools, s, olds, plain).news;
    LockedNews(tools, hostKey, olds, plain, news);
    SequentialIsSwaps(s, olds, news);
  }

  lemma WellBefore(tools: Tools, hostKey: Key, s: string, olds: seq<string>)
    requires olds != [] && WellWritten(s, olds) && LocksWell(tools, hostKey, olds)
    ensures var n := |olds| - 1;
            && WellWritten(s, olds[..n]) && LocksWell(tools, hostKey, olds[..n])
            && olds[n] in Tokens(s) && olds[n] !in olds[..n]
  {
    hide Run, Contains, Tokens;
    var n := |olds| - 1;
    assert olds == olds[..n] + [olds[n]];
    assert olds[n] in olds;
  }

  lemma LocksSome(tools: Tools, hostKey: Key, olds: seq<string>, i: nat, p: string)
    requires LocksWell(tools, hostKey, olds)
    ensures tools.lock(i, p).Some?
  {
  }

  lemma {:induction false} RewriteEnds(tools: Tools, hostKey: Key, s: string, olds: seq<string>, plain: seq<string>)
    requires |olds| == |plain| && WellWritten(s, olds) && LocksWell(tools, hostKey, olds)
    ensures Rewrite(tools, s, olds, plain).Rewritten?
    decreases |olds|
  {
    hide Tokens, Contains, Simultaneous, ReplaceAll, WellWritten, LocksWell, Opens;
    if olds != [] {
      var n := |olds| - 1;
      WellBefore(tools, hostKey, s, olds);
      RewriteEnds(tools, hostKey, s, olds[..n], plain[..n]);
      RewriteIsSimultaneous(tools, hostKey, s, olds[..n], plain[..n]);
      StillThere(s, olds[..n], Rewrite(tools, s, olds[..n], plain[..n]).news, olds[n]);
      LocksSome(tools, hostKey, olds, n, plain[n]);
    }
  }

  /** Main result on success: when every value opens and stands as a run of its
      own, relocking gives the old file with every value replaced at once and
      nothing else changed. */
  lemma RelockSucceeds(tools: Tools, openKey: Key, hostKey: Key, s: string, texts: seq<string>)
    requires tools.values(s) == Some(texts) && texts != [] && Failures(tools, openKey, texts) == 0
    requires WellWritten(s, texts) && LocksWell(tools, hostKey, texts) && ReadsSwapped(tools, s, texts)
    ensures var r := Rewrite(tools, s, texts, Plain(tools, openKey, texts));
            && r.Rewritten? && |r.news| == |texts|
            && Decide(tools, openKey, hostKey, Some(s), false) == Ready(Simultaneous(s, texts, r.news))
  {
    hide Rewrite, Simultaneous, Plain, Failures, WellWritten, LocksWell, Opens, AllRuns, NoDuplicates;
    PlainLength(tools, openKey, texts);
    RewriteEnds(tools, hostKey, s, texts, Plain(tools, openKey, texts));
    RewriteIsSimultaneous(tools, hostKey, s, texts, Plain(tools, openKey, texts));
  }
}
