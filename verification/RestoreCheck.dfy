/** Whether a restore may be in a job's read mode (restoreReadModeCheck in
    internal/execution/exec.go), against how restic reads the same arguments. */
module RestoreCheck {
  import opened Sequences
  import opened Wrappers

  const TAG := "--tag"
  const TAG_IS := "--tag="

  const VALUE_FLAGS: set<string> := {
    "-t", "--target", "-i", "--include", "--iinclude", "--include-file", "--iinclude-file",
    "-e", "--exclude", "--iexclude", "--exclude-file", "--iexclude-file",
    "-H", "--host", "--path", "--tag", "--overwrite", "-r", "--repo", "--repository-file",
    "-p", "--password-file", "--password-command", "--key-hint", "-o", "--option", "--cache-dir", "--cacert",
    "--tls-client-cert", "--compression", "--pack-size", "--limit-download", "--limit-upload", "--retry-lock",
    "--stuck-request-timeout", "--http-user-agent"
  }

  predicate Listed(a: string) {
    '=' !in a && a in VALUE_FLAGS
  }

  predicate TagLike(a: string) {
    a == TAG || HasPrefix(a, TAG_IS)
  }

  /** strings.Cut and strings.Split at one character. */
  function Cut(s: string, at: char): string {
    if s == [] || s[0] == at then [] else [s[0]] + Cut(s[1..], at)
  }

  function Split(s: string, at: char): (r: seq<string>)
    ensures r != []
  {
    if s == [] then [[]]
    else
      var rest := Split(s[1..], at);
      if s[0] == at then [[]] + rest else [[s[0]] + rest[0]] + rest[1..]
  }

  /** What comes before the first such character. */
  lemma {:induction false} CutExactly(s: string, at: char)
    ensures var r := Cut(s, at); |r| <= |s| && r == s[..|r|] && at !in r && (|r| < |s| ==> s[|r|] == at)
  {
    if s != [] && s[0] != at {
      CutExactly(s[1..], at);
      var r := Cut(s[1..], at);
      assert s[..|r| + 1] == [s[0]] + s[1..][..|r|];
    }
  }

  function Join(parts: seq<string>, at: char): string
    requires parts != []
  {
    if |parts| == 1 then parts[0] else parts[0] + [at] + Join(parts[1..], at)
  }

  /** The parts hold no such character, and put together again they are s. */
  lemma {:induction false} SplitExactly(s: string, at: char)
    ensures Join(Split(s, at), at) == s && forall part :: part in Split(s, at) ==> at !in part
  {
    if s != [] {
      SplitExactly(s[1..], at);
      var rest := Split(s[1..], at);
      assert s == [s[0]] + s[1..];
      if s[0] == at {
        assert ([[]] + rest)[1..] == rest;
      } else {
        assert ([[s[0]] + rest[0]] + rest[1..])[1..] == rest[1..];
        assert rest[0] in rest && forall part :: part in rest[1..] ==> part in rest;
      }
    }
  }

  // ----- The arguments as the check reads them -----

  function Positional(args: seq<string>, i: nat): seq<string>
    decreases |args| - i
  {
    if i >= |args| then []
    else if args[i] == "--" then args[i + 1..]
    else if HasPrefix(args[i], "-") then Positional(args, if Listed(args[i]) then i + 2 else i + 1)
    else [args[i]] + Positional(args, i + 1)
  }

  function Filters(args: seq<string>, i: nat): seq<string>
    decreases |args| - i
  {
    if i >= |args| then []
    else if HasPrefix(args[i], TAG_IS) then [args[i][|TAG_IS|..]] + Filters(args, i + 1)
    else if args[i] == TAG && i + 1 < |args| then [args[i + 1]] + Filters(args, i + 2)
    else Filters(args, i + 1)
  }

  /** restoreSnapshotArg; args[0] is "restore". */
  method RestoreSnapshotArg(args: seq<string>) returns (snapshot: string, ok: bool)
    ensures ok <==> |Positional(args, 1)| == 1
    ensures snapshot == if ok then Cut(Positional(args, 1)[0], ':') else ""
  {
    hide HasPrefix, Listed, Cut;
    var positional: seq<string> := [];
    var i := 1;
    while i < |args|
      invariant 0 <= i && positional + Positional(args, i) == Positional(args, 1)
    {
      var a := args[i];
      if a == "--" {
        positional := positional + args[i + 1..];
        i := |args|;
        break;
      }
      if HasPrefix(a, "-") {
        if Listed(a) {
          i := i + 1;
        }
        i := i + 1;
        continue;
      }
      Assoc(positional, [a], Positional(args, i + 1));
      positional := positional + [a];
      i := i + 1;
    }
    assert positional + [] == positional;
    if |positional| != 1 {
      return "", false;
    }
    return Cut(positional[0], ':'), true;
  }

  /** tagFilters. */
  method TagFilters(args: seq<string>) returns (filters: seq<string>)
    ensures filters == Filters(args, 0)
  {
    hide HasPrefix;
    filters := [];
    var i := 0;
    while i < |args|
      invariant 0 <= i && filters + Filters(args, i) == Filters(args, 0)
    {
      if HasPrefix(args[i], TAG_IS) {
        LongEnough(args[i]);
        Assoc(filters, [args[i][|TAG_IS|..]], Filters(args, i + 1));
        filters := filters + [args[i][|TAG_IS|..]];
      } else if args[i] == TAG && i + 1 < |args| {
        Assoc(filters, [args[i + 1]], Filters(args, i + 2));
        filters := filters + [args[i + 1]];
        i := i + 1;
      }
      i := i + 1;
    }
    assert filters + [] == filters;
  }

  lemma LongEnough(a: string)
    requires HasPrefix(a, TAG_IS)
    ensures |TAG_IS| <= |a|
  {
  }

  /** want is the tag of the job's read mode; tagsOf is what restic says of an
      explicit snapshot, None when it cannot say. */
  predicate Allows(args: seq<string>, want: string, tagsOf: string -> Option<set<string>>) {
    |Positional(args, 1)| == 1 &&
    var snapshot := Cut(Positional(args, 1)[0], ':');
    if snapshot == "latest" then Filters(args, 0) != [] && forall f :: f in Filters(args, 0) ==> want in Split(f, ',')
    else tagsOf(snapshot).Some? && want in tagsOf(snapshot).value
  }

  /** restoreReadModeCheck. */
  method RestoreReadModeCheck(args: seq<string>, want: string, tagsOf: string -> Option<set<string>>) returns (allowed: bool)
    ensures allowed == Allows(args, want, tagsOf)
  {
    hide Positional, Filters, Split, Cut;
    var snapshot, ok := RestoreSnapshotArg(args);
    if !ok {
      return false;
    }
    if snapshot == "latest" {
      var filters := TagFilters(args);
      for k := 0 to |filters|
        invariant forall j :: 0 <= j < k ==> want in Split(filters[j], ',')
      {
        if want !in Split(filters[k], ',') {
          return false;
        }
      }
      return |filters| != 0;
    }
    var tags := tagsOf(snapshot);
    return tags.Some? && want in tags.value;
  }

  // ----- The arguments as restic reads them -----

  /** The --tag values and the snapshots named. */
  datatype Reading = Reading(tags: seq<string>, named: seq<string>)

  datatype Kind = End | Name | TagNext | TagHere | Value | Flag

  /** takes says which flags take the next argument as their value. */
  function KindOf(takes: string -> bool, a: string): Kind {
    if a == "--" then End
    else if !HasPrefix(a, "-") || a == "-" then Name
    else if a == TAG then TagNext
    else if HasPrefix(a, TAG_IS) then TagHere
    else if '=' !in a && takes(a) then Value
    else Flag
  }

  /** Restic refuses a flag whose value is missing. */
  function Read(takes: string -> bool, args: seq<string>, i: nat): Option<Reading>
    decreases |args| - i
  {
    if i >= |args| then Some(Reading([], []))
    else
      match KindOf(takes, args[i])
      case End => Some(Reading([], args[i + 1..]))
      case Name => AddNamed(args[i], Read(takes, args, i + 1))
      case TagNext => if i + 1 < |args| then AddTag(args[i + 1], Read(takes, args, i + 2)) else None
      case TagHere => AddTag(args[i][|TAG_IS|..], Read(takes, args, i + 1))
      case Value => if i + 1 < |args| then Read(takes, args, i + 2) else None
      case Flag => Read(takes, args, i + 1)
  }

  function AddNamed(a: string, r: Option<Reading>): Option<Reading> {
    if r.None? then None else Some(r.value.(named := [a] + r.value.named))
  }

  function AddTag(t: string, r: Option<Reading>): Option<Reading> {
    if r.None? then None else Some(r.value.(tags := [t] + r.value.tags))
  }

  /** No value of another flag looks like a --tag, and no value of a flag the
      check does not know looks like a flag. */
  predicate Tame(takes: string -> bool, args: seq<string>, i: nat)
    decreases |args| - i
  {
    if i >= |args| then true
    else
      match KindOf(takes, args[i])
      case End => true
      case TagNext => Tame(takes, args, i + 2)
      case Value =>
        && (i + 1 < |args| ==> !TagLike(args[i + 1]) && (Listed(args[i]) || !HasPrefix(args[i + 1], "-")))
        && Tame(takes, args, i + 2)
      case _ => Tame(takes, args, i + 1)
  }

  /** The check's list holds only flags that do take a value. */
  ghost predicate Knows(takes: string -> bool) {
    forall a :: a in VALUE_FLAGS ==> takes(a)
  }

  lemma ListedTakes(takes: string -> bool, a: string)
    requires Knows(takes) && Listed(a)
    ensures '=' !in a && takes(a)
  {
  }

  lemma Dashes(a: string)
    ensures HasPrefix(a, TAG_IS) ==> '=' in a && HasPrefix(a, "-") && a != "--" && a != "-"
    ensures HasPrefix(TAG, "-") && !HasPrefix(TAG, TAG_IS) && HasPrefix("--", "-") && HasPrefix("-", "-")
  {
    assert TAG[..1] == "-" && "--"[..1] == "-";
    if HasPrefix(a, TAG_IS) {
      assert a[..6][5] == '=' && a[..1] == a[..6][..1] == "-";
    }
  }

  /** A kind of argument, as the check meets it. */
  lemma Kinds(takes: string -> bool, a: string)
    ensures var k := KindOf(takes, a);
            && (k == End <==> a == "--")
            && (a == TAG <==> k == TagNext)
            && (HasPrefix(a, TAG_IS) <==> k == TagHere)
            && (k == Name && HasPrefix(a, "-") ==> a == "-")
            && (k != Name ==> HasPrefix(a, "-"))
            && (Knows(takes) && (k == TagHere || k == Flag) ==> !Listed(a))
            && (k == TagNext ==> Listed(a))
            && (a == "-" ==> !Listed(a))
  {
    hide HasPrefix, Knows;
    Dashes(a);
    if Knows(takes) && Listed(a) {
      ListedTakes(takes, a);
    }
  }

  lemma SeenAfter(args: seq<string>, i: nat)
    requires i < |args| && args[i] != "--"
    ensures HasPrefix(args[i], "-") && Listed(args[i]) ==> Positional(args, i) == Positional(args, i + 2)
    ensures HasPrefix(args[i], "-") && !Listed(args[i]) ==> Positional(args, i) == Positional(args, i + 1)
    ensures !HasPrefix(args[i], "-") ==> Positional(args, i) == [args[i]] + Positional(args, i + 1)
  {
    hide HasPrefix, Listed;
  }

  /** Every snapshot restic takes to be named, the check has seen. */
  lemma {:induction false} NamedIsSeen(takes: string -> bool, args: seq<string>, i: nat, x: string)
    requires Knows(takes) && Tame(takes, args, i) && Read(takes, args, i).Some?
    requires x in Read(takes, args, i).value.named && x != "-"
    ensures x in Positional(args, i)
    decreases |args| - i
  {
    hide HasPrefix, Listed, TagLike, Knows, KindOf;
    if i < |args| {
      var a := args[i];
      var k := KindOf(takes, a);
      Kinds(takes, a);
      if k != End {
        SeenAfter(args, i);
        hide Positional;
        if k == Name {
          if x != a {
            NamedIsSeen(takes, args, i + 1, x);
          }
        } else if k == TagNext {
          NamedIsSeen(takes, args, i + 2, x);
        } else if k == Value {
          NamedIsSeen(takes, args, i + 2, x);
          if !Listed(a) {
            DashIsFlag(args[i + 1]);
            SeenAfter(args, i + 1);
          }
        } else {
          NamedIsSeen(takes, args, i + 1, x);
        }
      }
    }
  }

  lemma DashIsFlag(a: string)
    requires !HasPrefix(a, "-")
    ensures a != "--"
  {
  }

  lemma FilterAfter(args: seq<string>, i: nat)
    requires i < |args|
    ensures HasPrefix(args[i], TAG_IS) ==>
              |TAG_IS| <= |args[i]| && Filters(args, i) == [args[i][|TAG_IS|..]] + Filters(args, i + 1)
    ensures !HasPrefix(args[i], TAG_IS) && args[i] == TAG && i + 1 < |args| ==>
              Filters(args, i) == [args[i + 1]] + Filters(args, i + 2)
    ensures !TagLike(args[i]) ==> Filters(args, i) == Filters(args, i + 1)
  {
  }

  /** Every --tag restic reads is a filter the check reads, and no other is. */
  lemma {:induction false} SameTags(takes: string -> bool, args: seq<string>, i: nat)
    requires Tame(takes, args, i) && Read(takes, args, i).Some?
    requires forall x :: x in Read(takes, args, i).value.named ==> !TagLike(x)
    ensures Filters(args, i) == Read(takes, args, i).value.tags
    decreases |args| - i
  {
    if i < |args| {
      hide HasPrefix, Listed, KindOf, Filters;
      var k := KindOf(takes, args[i]);
      Kinds(takes, args[i]);
      FilterAfter(args, i);
      if k == End {
        NoFilters(args, i + 1);
      } else if k == Name {
        assert forall x :: x in Read(takes, args, i + 1).value.named ==> x in Read(takes, args, i).value.named;
        SameTags(takes, args, i + 1);
      } else if k == TagNext {
        SameTags(takes, args, i + 2);
      } else if k == Value {
        FilterAfter(args, i + 1);
        SameTags(takes, args, i + 2);
      } else {
        SameTags(takes, args, i + 1);
      }
    }
  }

  lemma {:induction false} NoFilters(args: seq<string>, i: nat)
    requires i <= |args| && forall x :: x in args[i..] ==> !TagLike(x)
    ensures Filters(args, i) == []
    decreases |args| - i
  {
    hide HasPrefix;
    if i < |args| {
      assert args[i] in args[i..];
      assert forall x :: x in args[i + 1..] ==> x in args[i..];
      NoFilters(args, i + 1);
    }
  }

  /** A snapshot, by id and tags. Restic matches it against a --tag value when it has
      every tag of the list, and `latest` picks among those matching any. */
  datatype Snapshot = Snapshot(id: string, tags: set<string>)

  predicate Matches(s: Snapshot, filter: string) {
    forall t :: t in Split(filter, ',') ==> t in s.tags
  }

  /** May restic restore this snapshot, given these arguments? */
  ghost predicate Restorable(r: Reading, s: Snapshot) {
    && |r.named| == 1
    && if Cut(r.named[0], ':') == "latest" then r.tags == [] || exists f :: f in r.tags && Matches(s, f)
       else s.id == Cut(r.named[0], ':')
  }

  lemma CutTagLike(x: string)
    requires TagLike(x)
    ensures Cut(x, ':') != "latest"
  {
    assert HasPrefix(x, TAG_IS) ==> x[..6][0] == '-';
    assert Cut(x, ':')[0] == x[0] == '-';
  }

  /** Whatever restic says of snapshots, and whichever there are, each one an
      allowed restore may use carries the tag. */
  ghost predicate Sound(takes: string -> bool, args: seq<string>, want: string) {
    forall tagsOf: string -> Option<set<string>>, s: Snapshot ::
      Restores(takes, args, tagsOf, s) && Allows(args, want, tagsOf) ==> want in s.tags
  }

  /** The restore may use this snapshot, of which restic tells the truth. */
  ghost predicate Restores(takes: string -> bool, args: seq<string>, tagsOf: string -> Option<set<string>>, s: Snapshot) {
    Read(takes, args, 1).Some? && Restorable(Read(takes, args, 1).value, s) && tagsOf(s.id) == Some(s.tags)
  }

  predicate AllCarry(filters: seq<string>, want: string) {
    filters != [] && forall f :: f in filters ==> want in Split(f, ',')
  }

  /** The check and restic agree, as far as it matters, on what the arguments
      say. Where either does not find exactly one snapshot nothing is restored. */
  predicate Agree(takes: string -> bool, args: seq<string>, want: string) {
    var named, r := Positional(args, 1), Read(takes, args, 1);
    |named| == 1 && r.Some? && |r.value.named| == 1 ==>
      var seen, used := Cut(named[0], ':'), Cut(r.value.named[0], ':');
      if used == "latest" then
        (seen == "latest" && !AllCarry(Filters(args, 0), want)) || AllCarry(r.value.tags, want)
      else if seen == "latest" then !AllCarry(Filters(args, 0), want)
      else seen == used
  }

  lemma AgreeingIsSound(takes: string -> bool, args: seq<string>, want: string)
    requires Agree(takes, args, want)
    ensures Sound(takes, args, want)
  {
    hide Read, Positional, Filters, Split, Cut;
  }

  /** A snapshot not carrying the tag that restic takes for the latest. */
  lemma WrongLatest(r: Reading, want: string, id: string) returns (s: Snapshot)
    requires |r.named| == 1 && Cut(r.named[0], ':') == "latest" && !AllCarry(r.tags, want)
    ensures Restorable(r, s) && s.id == id && want !in s.tags
  {
    hide Split, Cut;
    if r.tags == [] {
      s := Snapshot(id, {});
    } else {
      var f :| f in r.tags && want !in Split(f, ',');
      s := Snapshot(id, set t | t in Split(f, ','));
      assert Matches(s, f);
    }
  }

  lemma SoundIsAgreeing(takes: string -> bool, args: seq<string>, want: string)
    requires Sound(takes, args, want)
    ensures Agree(takes, args, want)
  {
    hide Read, Positional, Filters, Split, Cut, AllCarry;
    var named, r := Positional(args, 1), Read(takes, args, 1);
    if |named| == 1 && r.Some? && |r.value.named| == 1 {
      var seen, used := Cut(named[0], ':'), Cut(r.value.named[0], ':');
      if used == "latest" && !AllCarry(r.value.tags, want) {
        var s := WrongLatest(r.value, want, seen + "x");
        var tagsOf := (id: string) => if id == seen then Some({want}) else Some(s.tags);
        assert tagsOf(s.id) == Some(s.tags);
        assert Restores(takes, args, tagsOf, s);
        AllowsLatest(args, want, tagsOf);
      } else if used != "latest" && seen != used {
        var s := Snapshot(used, {});
        var tagsOf := (id: string) => if id == seen then Some({want}) else Some({});
        assert Restores(takes, args, tagsOf, s);
        AllowsLatest(args, want, tagsOf);
      }
    }
  }

  lemma AllowsLatest(args: seq<string>, want: string, tagsOf: string -> Option<set<string>>)
    requires |Positional(args, 1)| == 1
    ensures var seen := Cut(Positional(args, 1)[0], ':');
            Allows(args, want, tagsOf) <==>
            if seen == "latest" then AllCarry(Filters(args, 0), want)
            else tagsOf(seen).Some? && want in tagsOf(seen).value
  {
    hide Positional, Filters, Split, Cut;
  }

  /** Main result, exactly: for any arguments, the check keeps restores to
      snapshots of the mode if and only if it and restic agree on them. */
  lemma SoundExactly(takes: string -> bool, args: seq<string>, want: string)
    ensures Sound(takes, args, want) <==> Agree(takes, args, want)
  {
    hide Sound, Agree;
    if Agree(takes, args, want) {
      AgreeingIsSound(takes, args, want);
    }
    if Sound(takes, args, want) {
      SoundIsAgreeing(takes, args, want);
    }
  }

  /** They agree on any arguments in which no value of another flag looks like
      --tag and no value of an unlisted flag looks like a flag. */
  lemma TameAgrees(takes: string -> bool, args: seq<string>, want: string)
    requires Knows(takes) && Tame(takes, args, 1) && |args| > 0 && args[0] == "restore"
    requires Read(takes, args, 1).Some? ==> Read(takes, args, 1).value.named != ["-"]
    ensures Agree(takes, args, want)
  {
    hide Read, Positional, Filters, Tame, Knows, Split, HasPrefix, Cut, TagLike, AllCarry;
    var r := Read(takes, args, 1);
    if |Positional(args, 1)| == 1 && r.Some? && |r.value.named| == 1 {
      var x := r.value.named[0];
      assert r.value.named == [x];
      NamedIsSeen(takes, args, 1, x);
      assert Positional(args, 1)[0] == x;
      if Cut(x, ':') == "latest" {
        if TagLike(x) {
          CutTagLike(x);
        }
        SameTags(takes, args, 1);
        RestoreIsNoFilter(args);
      }
    }
  }

  /** So each snapshot that an allowed restore with such arguments may use
      carries the tag of the job's read mode. */
  lemma AllowedIsTagged(takes: string -> bool, args: seq<string>, want: string,
                        tagsOf: string -> Option<set<string>>, s: Snapshot)
    requires Knows(takes) && Tame(takes, args, 1) && |args| > 0 && args[0] == "restore"
    requires Read(takes, args, 1).Some? && Restorable(Read(takes, args, 1).value, s)
    requires Read(takes, args, 1).value.named != ["-"] && tagsOf(s.id) == Some(s.tags)
    requires Allows(args, want, tagsOf)
    ensures want in s.tags
  {
    hide Read, Restorable, Allows, Tame, Knows, Agree;
    TameAgrees(takes, args, want);
    SoundExactly(takes, args, want);
    assert Restores(takes, args, tagsOf, s);
  }

  lemma RestoreIsNoFilter(args: seq<string>)
    requires |args| > 0 && args[0] == "restore"
    ensures Filters(args, 0) == Filters(args, 1)
  {
    hide Filters;
    assert "restore"[..6] == "restor" && "restor"[0] == 'r' && TAG_IS[0] == '-';
    FiltersAt(args, 0);
  }

  lemma FiltersAt(args: seq<string>, i: nat)
    requires i < |args| && !TagLike(args[i])
    ensures Filters(args, i) == Filters(args, i + 1)
  {
  }

  /** Every flag with a value of its own is one the check lists, and none is
      named by a lone dash. */
  predicate Familiar(takes: string -> bool, args: seq<string>, i: nat)
    decreases |args| - i
  {
    if i >= |args| then true
    else
      match KindOf(takes, args[i])
      case End => true
      case Name => args[i] != "-" && Familiar(takes, args, i + 1)
      case TagNext => Familiar(takes, args, i + 2)
      case Value => Listed(args[i]) && Familiar(takes, args, i + 2)
      case _ => Familiar(takes, args, i + 1)
  }

  /** Then the check sees just the snapshots restic takes to be named. */
  lemma {:induction false} SeenIsNamed(takes: string -> bool, args: seq<string>, i: nat)
    requires Knows(takes) && Familiar(takes, args, i) && Read(takes, args, i).Some?
    ensures Positional(args, i) == Read(takes, args, i).value.named
    decreases |args| - i
  {
    hide HasPrefix, Listed, Knows, KindOf;
    if i < |args| {
      var k := KindOf(takes, args[i]);
      Kinds(takes, args[i]);
      if k != End {
        SeenAfter(args, i);
        hide Positional;
        SeenIsNamed(takes, args, if k == TagNext || k == Value then i + 2 else i + 1);
      }
    }
  }

  /** So with such arguments nothing is refused that need not be: a restore is
      allowed exactly when it names one snapshot, which carries the tag, or
      the latest of those that each filter says carry it. */
  lemma AllowedExactly(takes: string -> bool, args: seq<string>, want: string, tagsOf: string -> Option<set<string>>)
    requires Knows(takes) && Tame(takes, args, 1) && Familiar(takes, args, 1) && |args| > 0 && args[0] == "restore"
    requires Read(takes, args, 1).Some?
    ensures var r := Read(takes, args, 1).value;
            Allows(args, want, tagsOf) <==>
              && |r.named| == 1
              && if Cut(r.named[0], ':') == "latest" then AllCarry(r.tags, want)
                 else tagsOf(Cut(r.named[0], ':')).Some? && want in tagsOf(Cut(r.named[0], ':')).value
  {
    hide Read, Positional, Filters, Tame, Familiar, Knows, Split, HasPrefix, Cut, TagLike, AllCarry;
    SeenIsNamed(takes, args, 1);
    var named := Read(takes, args, 1).value.named;
    if |named| == 1 {
      AllowsLatest(args, want, tagsOf);
      if Cut(named[0], ':') == "latest" {
        if TagLike(named[0]) {
          CutTagLike(named[0]);
        }
        SameTags(takes, args, 1);
        RestoreIsNoFilter(args);
      }
    }
  }

  /** Flags of restic, restore's own and those it always has, that take a value. */
  const WHAT := ["-t", "--target", "-i", "--include", "--iinclude", "--include-file", "--iinclude-file", "-e", "--exclude"]
  const WHICH := ["--iexclude", "--exclude-file", "--iexclude-file", "-H", "--host", "--path", "--overwrite", "-r", "--repo"]
  const WHERE := ["--repository-file", "-p", "--password-file", "--password-command", "--key-hint", "-o", "--option", "--cache-dir"]
  const HOW := [
    "--cacert", "--tls-client-cert", "--compression", "--pack-size", "--limit-download", "--limit-upload", "--retry-lock",
    "--stuck-request-timeout", "--http-user-agent"
  ]

  predicate Taking(flag: string) {
    flag in WHAT || flag in WHICH || flag in WHERE || flag in HOW
  }

  /** A restore of the latest snapshot with the tag, into a directory or of some
      paths, is allowed, whichever flag says so. */
  lemma TaggedLatestIsAllowed(takes: string -> bool, flag: string, value: string, want: string, tagsOf: string -> Option<set<string>>)
    requires Taking(flag)
    requires !TagLike(value) && want in Split(want, ',')
    ensures var args := ["restore", "latest", flag, value, "--tag", want];
            Allows(args, want, tagsOf) && (takes(flag) ==> Read(takes, args, 1) == Some(Reading([want], ["latest"])))
  {
    hide Split, TagLike, Positional, Filters, HasPrefix, Listed, Taking, KindOf, Read;
    var args := ["restore", "latest", flag, value, "--tag", want];
    LatestCut();
    FlagShape(flag);
    LatestShape();
    TaggedSeen(args, flag);
    TaggedFilters(args);
    if takes(flag) {
      TaggedKinds(takes, flag);
      TaggedRead(takes, args, flag);
    }
  }

  lemma TaggedRead(takes: string -> bool, args: seq<string>, flag: string)
    requires |args| == 6 && args[1] == "latest" && args[2] == flag && args[4] == TAG
    requires KindOf(takes, args[1]) == Name && KindOf(takes, flag) == Value && KindOf(takes, TAG) == TagNext
    ensures Read(takes, args, 1) == Some(Reading([args[5]], ["latest"]))
  {
    hide KindOf, HasPrefix;
    assert Read(takes, args, 6) == Some(Reading([], []));
    assert [args[5]] + [] == [args[5]] && [args[1]] + [] == [args[1]];
    assert KindOf(takes, args[4]) == TagNext && KindOf(takes, args[2]) == Value;
    assert Read(takes, args, 4) == Some(Reading([args[5]], []));
    assert Read(takes, args, 2) == Read(takes, args, 4);
    assert Read(takes, args, 1) == AddNamed(args[1], Read(takes, args, 2));
  }

  lemma TaggedKinds(takes: string -> bool, flag: string)
    requires Taking(flag) && takes(flag)
    ensures KindOf(takes, "latest") == Name && KindOf(takes, flag) == Value && KindOf(takes, TAG) == TagNext
  {
    hide Listed, Taking;
    FlagShape(flag);
    LatestShape();
    Kinds(takes, TAG);
  }

  lemma TaggedSeen(args: seq<string>, flag: string)
    requires |args| == 6 && args[1] == "latest" && args[2] == flag && args[4] == TAG && flag != "--"
    requires HasPrefix(flag, "-") && Listed(flag) && HasPrefix(TAG, "-") && Listed(TAG) && !HasPrefix("latest", "-")
    ensures Positional(args, 1) == ["latest"]
  {
    hide HasPrefix, Listed;
    SeenAfter(args, 1);
    SeenAfter(args, 2);
    SeenAfter(args, 4);
    assert Positional(args, 6) == [];
  }

  lemma TaggedFilters(args: seq<string>)
    requires |args| == 6 && args[4] == TAG && !HasPrefix(TAG, TAG_IS)
    requires !TagLike(args[0]) && !TagLike(args[1]) && !TagLike(args[2]) && !TagLike(args[3])
    ensures Filters(args, 0) == [args[5]]
  {
    hide HasPrefix, TagLike;
    FiltersAt(args, 0);
    FiltersAt(args, 1);
    FiltersAt(args, 2);
    FiltersAt(args, 3);
    FilterAfter(args, 4);
    assert Filters(args, 6) == [];
  }

  predicate Plain(flag: string) {
    HasPrefix(flag, "-") && Listed(flag) && flag != "--" && flag != "-" && !TagLike(flag) && '=' !in flag
  }

  lemma WhatIsPlain(flag: string)
    requires flag in WHAT
    ensures Plain(flag)
  {
    assert flag[..1] == "-";
    assert |flag| >= 6 ==> flag[..6][5] == flag[5];
    assert |flag| >= 6 ==> flag[..6][2] == flag[2];
  }

  lemma WhichIsPlain(flag: string)
    requires flag in WHICH
    ensures Plain(flag)
  {
    assert flag[..1] == "-";
    assert |flag| >= 6 ==> flag[..6][5] == flag[5];
    assert |flag| >= 6 ==> flag[..6][2] == flag[2];
  }

  lemma WhereIsPlain(flag: string)
    requires flag in WHERE
    ensures Plain(flag)
  {
    assert flag[..1] == "-";
    assert |flag| >= 6 ==> flag[..6][5] == flag[5];
    assert |flag| >= 6 ==> flag[..6][2] == flag[2];
  }

  lemma HowIsPlain(flag: string)
    requires flag in HOW
    ensures Plain(flag)
  {
    assert flag[..1] == "-";
    assert |flag| >= 6 ==> flag[..6][5] == flag[5];
    assert |flag| >= 6 ==> flag[..6][2] == flag[2];
  }

  lemma FlagShape(flag: string)
    requires Taking(flag)
    ensures Plain(flag)
  {
    hide Plain, WHAT, WHICH, WHERE, HOW;
    if flag in WHAT {
      WhatIsPlain(flag);
    } else if flag in WHICH {
      WhichIsPlain(flag);
    } else if flag in WHERE {
      WhereIsPlain(flag);
    } else {
      HowIsPlain(flag);
    }
  }

  lemma LatestShape()
    ensures !HasPrefix("latest", "-") && !TagLike("latest") && !TagLike("restore")
    ensures HasPrefix(TAG, "-") && Listed(TAG) && !HasPrefix(TAG, TAG_IS)
  {
    Dashes(TAG);
    assert "latest"[..1][0] == 'l' && "latest"[..6][0] == 'l' && "restore"[..6][0] == 'r';
  }

  /** A flag's value that looks like --tag misleads the check: it takes the
      path for a filter, and restic restores the latest of all snapshots. */
  lemma PathThatLooksLikeTag(takes: string -> bool, want: string, tagsOf: string -> Option<set<string>>, s: Snapshot)
    requires Knows(takes) && want in Split(want, ',')
    ensures var args := ["restore", "latest", "--path", TAG_IS + want];
            Allows(args, want, tagsOf) && Read(takes, args, 1) == Some(Reading([], ["latest"]))
            && Restorable(Read(takes, args, 1).value, s)
  {
    var args := ["restore", "latest", "--path", TAG_IS + want];
    hide Knows, Split;
    assert takes("--path") by {
      ListedTakes(takes, "--path");
    }
    PathArgs(takes, args, want);
    assert Cut("latest", ':') == "latest" by {
      LatestCut();
    }
  }

  lemma LatestCut()
    ensures Cut("latest", ':') == "latest"
  {
    assert Cut("t", ':') == "t";
    assert "est"[1..] == "st" && "st"[1..] == "t";
    assert Cut("st", ':') == "st";
    assert Cut("est", ':') == "est";
    assert "latest"[1..] == "atest" && "atest"[1..] == "test" && "test"[1..] == "est";
    assert Cut("test", ':') == "test";
    assert Cut("atest", ':') == "atest";
  }

  lemma PathArgs(takes: string -> bool, args: seq<string>, want: string)
    requires args == ["restore", "latest", "--path", TAG_IS + want] && takes("--path")
    ensures Filters(args, 0) == [want] && Positional(args, 1) == ["latest"]
    ensures Read(takes, args, 1) == Some(Reading([], ["latest"]))
  {
    var last := args[3];
    assert last[..6] == TAG_IS && last[6..] == want;
    assert "--path"[..6] == "--path" && "--path"[4] != TAG_IS[4];
    assert "latest"[..6][0] == 'l' && "restore"[..6][0] == 'r' && "latest"[..1][0] == 'l';
    assert "--path"[..1] == "-";
    assert Filters(args, 4) == [] && Filters(args, 3) == [want];
    assert Filters(args, 2) == [want];
    assert Filters(args, 1) == [want];
    assert Listed("--path");
    assert Positional(args, 4) == [] && Positional(args, 2) == [];
    assert Read(takes, args, 4) == Some(Reading([], []));
    assert Read(takes, args, 2) == Some(Reading([], []));
  }

  /** A flag that takes a value and is missing from the check's list. */
  predicate Unlisted(takes: string -> bool, flag: string) {
    HasPrefix(flag, "-") && flag != "-" && flag != "--" && '=' !in flag && takes(flag) && !Listed(flag)
  }

  /** Nor does a flag missing from the list always make the check refuse: when
      its value is itself a listed flag, the check loses the snapshot named,
      and judges another argument in its place. */
  lemma UnknownFlagHidesLatest(takes: string -> bool, flag: string, id: string, want: string,
                               tagsOf: string -> Option<set<string>>, s: Snapshot)
    requires Knows(takes) && Unlisted(takes, flag) && id != [] && id[0] != '-' && Cut(id, ':') == id
    requires id != "latest" && tagsOf(id).Some? && want in tagsOf(id).value
    ensures var args := ["restore", flag, "-t", "latest", flag, id];
            Allows(args, want, tagsOf) && Read(takes, args, 1) == Some(Reading([], ["latest"]))
            && Restorable(Read(takes, args, 1).value, s)
  {
    var args := ["restore", flag, "-t", "latest", flag, id];
    hide Knows;
    UnknownArgs(takes, flag, args, id);
    assert Cut("latest", ':') == "latest" by {
      LatestCut();
    }
  }

  lemma UnknownArgs(takes: string -> bool, flag: string, args: seq<string>, id: string)
    requires args == ["restore", flag, "-t", "latest", flag, id]
    requires Unlisted(takes, flag) && id != [] && id[0] != '-'
    ensures Positional(args, 1) == [id] && Read(takes, args, 1) == Some(Reading([], ["latest"]))
  {
    UnknownKinds(takes, flag, id);
    DashIsFlag(id);
    UnknownSeen(flag, args, id);
    UnknownRead(takes, flag, args, id);
  }

  lemma UnknownKinds(takes: string -> bool, flag: string, id: string)
    requires Unlisted(takes, flag) && id != [] && id[0] != '-'
    ensures HasPrefix(flag, "-") && HasPrefix("-t", "-") && !HasPrefix(id, "-") && !HasPrefix("latest", "-")
    ensures Listed("-t") && !Listed(flag)
    ensures flag != "--" && KindOf(takes, flag) == Value && KindOf(takes, "latest") == Name
  {
    Dashes(flag);
    assert Listed(TAG);
    assert "-t"[..1] == "-" && id[..1][0] == id[0] && "latest"[..1][0] == 'l';
  }

  lemma UnknownSeen(flag: string, args: seq<string>, id: string)
    requires args == ["restore", flag, "-t", "latest", flag, id]
    requires HasPrefix(flag, "-") && HasPrefix("-t", "-") && !HasPrefix(id, "-")
    requires Listed("-t") && !Listed(flag) && id != "--" && flag != "--"
    ensures Positional(args, 1) == [id]
  {
    SeenAfter(args, 1);
    SeenAfter(args, 2);
    SeenAfter(args, 4);
    SeenAfter(args, 5);
    assert Positional(args, 6) == [];
    hide Positional, HasPrefix, Listed;
  }

  lemma UnknownRead(takes: string -> bool, flag: string, args: seq<string>, id: string)
    requires args == ["restore", flag, "-t", "latest", flag, id]
    requires KindOf(takes, flag) == Value && KindOf(takes, "latest") == Name
    ensures Read(takes, args, 1) == Some(Reading([], ["latest"]))
  {
    hide KindOf;
    assert Read(takes, args, 6) == Some(Reading([], []));
    assert Read(takes, args, 4) == Some(Reading([], []));
    assert Read(takes, args, 3) == Some(Reading([], [args[3]] + []));
    assert [args[3]] + [] == ["latest"];
  }
}
