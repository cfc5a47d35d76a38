/** Restic's output read a line at a time, however it arrives
    (backupOutput in internal/execution/progress.go). */
module Progress {
  import opened Sequences
  import opened Wrappers

  /** One of restic's progress reports. */
  datatype BackupStatus = BackupStatus(
    percentDone: real, totalFiles: int, filesDone: int, totalBytes: int, bytesDone: int,
    secondsRemaining: Option<int>, currentFiles: seq<string>)

  /** What a line of JSON says: the message type, and the report when it parses as one. */
  datatype Message = NotJson | Summary(snapshotID: string) | Status(report: Option<BackupStatus>) | Other

  type Decoder = string -> Message

  const NEWLINE := '\n'
  const BUFFER_LIMIT: nat := 16 * 1024 * 1024

  // ----- Lines -----

  /** Where the first line ends: at its newline, or with s. */
  function LineEnd(s: string): (i: nat)
    ensures i <= |s| && NEWLINE !in s[..i] && (i < |s| ==> s[i] == NEWLINE)
  {
    if s == [] || s[0] == NEWLINE then 0
    else
      var i := LineEnd(s[1..]) + 1;
      assert s[..i] == [s[0]] + s[1..][..i - 1];
      i
  }

  /** The lines of s that have their newline. */
  function Lines(s: string): seq<string>
    decreases |s|
  {
    var i := LineEnd(s);
    if i == |s| then [] else [s[..i]] + Lines(s[i + 1..])
  }

  /** What follows the last newline. */
  function Rest(s: string): string
    decreases |s|
  {
    var i := LineEnd(s);
    if i == |s| then s else Rest(s[i + 1..])
  }

  function AllLines(s: string): seq<string> {
    Lines(s) + [Rest(s)]
  }

  lemma NotBefore(s: string, n: nat)
    requires n <= |s| && NEWLINE !in s[..n]
    ensures forall i :: 0 <= i < n ==> s[i] != NEWLINE
  {
    forall i | 0 <= i < n
      ensures s[i] != NEWLINE
    {
      assert s[..n][i] == s[i];
    }
  }

  lemma LineEndIs(s: string, i: nat)
    requires i <= |s| && NEWLINE !in s[..i] && (i < |s| ==> s[i] == NEWLINE)
    ensures LineEnd(s) == i
  {
    NotBefore(s, i);
    NotBefore(s, LineEnd(s));
  }

  /** Lines may be taken off the front at any point. */
  lemma {:induction false} LinesOfSum(a: string, b: string)
    ensures Lines(a + b) == Lines(a) + Lines(Rest(a) + b)
    ensures Rest(a + b) == Rest(Rest(a) + b)
    decreases |a|
  {
    hide Lines, Rest;
    var i := LineEnd(a);
    if i < |a| {
      FirstLineOff(a);
      OneLineOff(a, b);
      LinesOfSum(a[i + 1..], b);
      Assoc([a[..i]], Lines(a[i + 1..]), Lines(Rest(a) + b));
    } else {
      NoLineOff(a);
    }
  }

  lemma FirstLineOff(a: string)
    requires LineEnd(a) < |a|
    ensures Lines(a) == [a[..LineEnd(a)]] + Lines(a[LineEnd(a) + 1..]) && Rest(a) == Rest(a[LineEnd(a) + 1..])
  {
    hide LineEnd;
  }

  lemma NoLineOff(a: string)
    requires LineEnd(a) == |a|
    ensures Lines(a) == [] && Rest(a) == a
  {
    hide LineEnd;
  }

  /** What follows the first line has no part in it. */
  lemma OneLineOff(a: string, b: string)
    requires LineEnd(a) < |a|
    ensures var i := LineEnd(a);
            && Lines(a + b) == [a[..i]] + Lines(a[i + 1..] + b)
            && Rest(a + b) == Rest(a[i + 1..] + b)
  {
    var i := LineEnd(a);
    assert (a + b)[..i] == a[..i] && (a + b)[i] == a[i];
    assert (a + b)[i + 1..] == a[i + 1..] + b;
    LineEndIs(a + b, i);
  }

  lemma {:induction false} RestHasNoNewline(s: string)
    ensures NEWLINE !in Rest(s) && Lines(Rest(s)) == [] && Rest(Rest(s)) == Rest(s)
    decreases |s|
  {
    var i := LineEnd(s);
    if i < |s| {
      RestHasNoNewline(s[i + 1..]);
    } else {
      assert s[..i] == s;
    }
  }

  // ----- What one write, and the close, hand on -----

  function Keep(partial: string): string {
    if |partial| > BUFFER_LIMIT then [] else partial
  }

  /** The lines handed on by these writes, and what is kept after them. */
  function Handed(chunks: seq<string>): seq<string> {
    if chunks == [] then []
    else
      var n := |chunks| - 1;
      Handed(chunks[..n]) + Lines(Kept(chunks[..n]) + chunks[n])
  }

  function Kept(chunks: seq<string>): string {
    if chunks == [] then []
    else
      var n := |chunks| - 1;
      Keep(Rest(Kept(chunks[..n]) + chunks[n]))
  }

  /** Every line handled once the output is closed. */
  function Handled(chunks: seq<string>): seq<string> {
    Handed(chunks) + [Kept(chunks)]
  }

  function Joined(chunks: seq<string>): string {
    if chunks == [] then [] else Joined(chunks[..|chunks| - 1]) + chunks[|chunks| - 1]
  }

  ghost predicate Fits(whole: string) {
    forall line :: line in AllLines(whole) ==> |line| <= BUFFER_LIMIT
  }

  /** A line only grows while output arrives. */
  lemma {:induction false} RestIsInALine(a: string, b: string)
    ensures exists line :: line in AllLines(a + b) && |Rest(a)| <= |line|
  {
    RestHasNoNewline(a);
    LinesOfSum(a, b);
    var t := Rest(a) + b;
    var i := LineEnd(t);
    assert t[..|Rest(a)|] == Rest(a);
    NotBefore(t, |Rest(a)|);
    if i == |t| {
      assert Rest(t) == t;
    } else {
      assert t[..i] == Lines(t)[0] == (Lines(a) + Lines(t))[|Lines(a)|];
    }
    assert AllLines(a + b) == Lines(a) + AllLines(t);
    assert AllLines(a + b)[|Lines(a)|] == AllLines(t)[0];
  }

  lemma {:induction false} NothingDropped(chunks: seq<string>, after: string)
    requires Fits(Joined(chunks) + after)
    ensures Handed(chunks) == Lines(Joined(chunks)) && Kept(chunks) == Rest(Joined(chunks))
    decreases |chunks|
  {
    hide Lines, Rest, Fits, AllLines;
    if chunks == [] {
      Nothing();
    } else {
      var n := |chunks| - 1;
      var before, p := Joined(chunks[..n]), chunks[n];
      assert before + p + after == before + (p + after);
      NothingDropped(chunks[..n], p + after);
      LinesOfSum(before, p);
      FitsSoFar(before + p, after);
    }
  }

  lemma Nothing()
    ensures Lines([]) == [] && Rest([]) == []
  {
  }

  lemma FitsSoFar(a: string, b: string)
    requires Fits(a + b)
    ensures |Rest(a)| <= BUFFER_LIMIT
  {
    hide Lines, Rest, AllLines;
    RestIsInALine(a, b);
  }

  /** However output that fits is split into writes, the same lines are handled. */
  lemma ChunksDoNotMatter(chunks: seq<string>)
    requires Fits(Joined(chunks))
    ensures Handled(chunks) == AllLines(Joined(chunks))
  {
    hide Lines, Rest;
    assert Joined(chunks) + [] == Joined(chunks);
    NothingDropped(chunks, []);
  }

  // ----- And only if it fits -----

  /** A line longer than the limit starts at p. */
  predicate LongLineAt(whole: string, p: nat) {
    p + BUFFER_LIMIT < |whole| && Rest(whole[..p]) == [] && NEWLINE !in whole[p..p + BUFFER_LIMIT + 1]
  }

  lemma {:induction false} FindLongLine(whole: string, line: string) returns (p: nat)
    requires line in AllLines(whole) && |line| > BUFFER_LIMIT
    ensures LongLineAt(whole, p)
    decreases |whole|
  {
    hide LineEnd, LongLineAt;
    var i := LineEnd(whole);
    if i > BUFFER_LIMIT {
      p := 0;
      LongAtStart(whole);
    } else {
      assert i < |whole| by {
        assert whole[..i] + whole[i..] == whole;
      }
      var rest := whole[i + 1..];
      assert AllLines(whole) == [whole[..i]] + AllLines(rest);
      var q := FindLongLine(rest, line);
      p := i + 1 + q;
      LongFurtherOn(whole, i, q);
    }
  }

  lemma LongAtStart(whole: string)
    requires LineEnd(whole) > BUFFER_LIMIT
    ensures LongLineAt(whole, 0)
  {
    hide LineEnd;
    assert whole[0..BUFFER_LIMIT + 1] == whole[..LineEnd(whole)][..BUFFER_LIMIT + 1];
    Nothing();
    assert whole[..0] == [];
  }

  lemma LongFurtherOn(whole: string, i: nat, q: nat)
    requires i < |whole| && NEWLINE !in whole[..i] && whole[i] == NEWLINE && LongLineAt(whole[i + 1..], q)
    ensures LongLineAt(whole, i + 1 + q)
  {
    hide Lines, Rest, LineEnd;
    var n := BUFFER_LIMIT + 1;
    var first, rest, p := whole[..i + 1], whole[i + 1..], i + 1 + q;
    assert whole[p..p + n] == rest[q..q + n];
    assert whole[..p] == first + rest[..q] && first[..i] == whole[..i];
    LinesOfSum(first, rest[..q]);
    OneLine(first, i);
    assert [] + rest[..q] == rest[..q];
  }

  lemma OneLine(s: string, i: nat)
    requires |s| == i + 1 && s[i] == NEWLINE && NEWLINE !in s[..i]
    ensures Rest(s) == [] && Lines(s) == [s[..i]]
  {
    LineEndIs(s, i);
    assert s[i + 1..] == [];
    Nothing();
  }

  lemma FirstLine(s: string, n: nat)
    requires n <= |s| && NEWLINE !in s[..n]
    ensures |AllLines(s)[0]| >= n && |AllLines(s)[0]| <= |s|
    ensures AllLines(s)[0] == s[..LineEnd(s)]
  {
    var i := LineEnd(s);
    NotBefore(s, n);
    assert i == |s| ==> s[..i] == s;
  }

  /** Cut inside a line past the limit, the start of that line is dropped. */
  lemma SplitMatters(whole: string, p: nat) returns (x: string, y: string)
    requires LongLineAt(whole, p)
    ensures x + y == whole && Handled([x, y]) != AllLines(whole)
  {
    hide Lines, Rest, Handled, AllLines;
    var n := BUFFER_LIMIT + 1;
    var before, long := whole[..p], whole[p..p + n];
    x, y := before + long, whole[p + n..];
    assert x + y == whole;
    DroppedStart(before, long, y);
  }

  lemma DroppedStart(before: string, long: string, y: string)
    requires Rest(before) == [] && NEWLINE !in long && |long| > BUFFER_LIMIT
    ensures Handled([before + long, y]) != AllLines(before + long + y)
  {
    hide Handled, Lines, Rest;
    Continued(before, long);
    Unended(long);
    Writes(before + long, y);
    assert Lines(before) + [] == Lines(before);
    assert before + long + y == before + (long + y);
    Continued(before, long + y);
    FirstShorter(long, y);
    Differ(Lines(before), Lines(y) + [Keep(Rest(y))], AllLines(long + y));
    assert Lines(before) + Lines(y) + [Keep(Rest(y))] == Lines(before) + (Lines(y) + [Keep(Rest(y))]);
  }

  lemma Continued(before: string, s: string)
    requires Rest(before) == []
    ensures Lines(before + s) == Lines(before) + Lines(s) && Rest(before + s) == Rest(s)
    ensures AllLines(before + s) == Lines(before) + AllLines(s)
  {
    hide Lines, Rest;
    LinesOfSum(before, s);
    assert [] + s == s;
  }

  lemma Differ(a: seq<string>, u: seq<string>, v: seq<string>)
    requires u != [] && v != [] && u[0] != v[0]
    ensures a + u != a + v
  {
    assert (a + u)[|a|] != (a + v)[|a|];
  }

  lemma Unended(s: string)
    requires NEWLINE !in s
    ensures Lines(s) == [] && Rest(s) == s
  {
    assert s[..|s|] == s;
    LineEndIs(s, |s|);
  }

  lemma Writes(x: string, y: string)
    requires |Rest(x)| > BUFFER_LIMIT
    ensures Handled([x, y]) == Lines(x) + Lines(y) + [Keep(Rest(y))]
  {
    hide Lines, Rest;
    assert [x, y][..1] == [x] && [x][..0] == [];
    assert [] + x == x && [] + y == y;
    assert Kept([x]) == Keep(Rest([] + x)) == [] by {
      assert Kept([x][..0]) == [];
    }
    assert Handed([x]) == [] + Lines(x);
    assert Handed([x, y]) == Handed([x]) + Lines(Kept([x]) + y);
  }

  lemma FirstShorter(long: string, y: string)
    requires NEWLINE !in long && |long| > 0
    ensures |(Lines(y) + [Keep(Rest(y))])[0]| < |AllLines(long + y)[0]|
  {
    hide LineEnd;
    LinesOfSum(long, y);
    Unended(long);
    var i := LineEnd(y);
    assert NEWLINE !in (long + y)[..|long| + i] by {
      assert (long + y)[..|long| + i] == long + y[..i];
    }
    FirstLine(long + y, |long| + i);
  }

  /** Main result: every way of splitting the output has the same lines handled
      exactly when no line of it is longer than the buffer's limit. */
  lemma ChunkIndependentExactly(whole: string)
    ensures (forall chunks :: Joined(chunks) == whole ==> Handled(chunks) == AllLines(whole)) <==> Fits(whole)
  {
    hide Handled, AllLines, Joined;
    if Fits(whole) {
      forall chunks | Joined(chunks) == whole
        ensures Handled(chunks) == AllLines(whole)
      {
        ChunksDoNotMatter(chunks);
      }
    } else {
      var line :| line in AllLines(whole) && |line| > BUFFER_LIMIT;
      var p := FindLongLine(whole, line);
      var x, y := SplitMatters(whole, p);
      JoinedTwo(x, y);
    }
  }

  lemma JoinedTwo(x: string, y: string)
    ensures Joined([x, y]) == x + y
  {
    assert [x, y][..1] == [x] && [x][..0] == [];
    assert Joined([x]) == [] + x == x;
  }

  // ----- What a line does: its characters are bytes -----

  /** The bytes of one white space character, which need not be ASCII. */
  predicate IsSpace(s: string) {
    || (|s| == 1 && (s[0] == ' ' || '\t' <= s[0] <= '\r'))
    || (|s| == 2 && s[0] == '\U{C2}' && (s[1] == '\U{85}' || s[1] == '\U{A0}'))
    || (|s| == 3 && s[0] == '\U{E1}' && s[1] == '\U{9A}' && s[2] == '\U{80}')
    || (|s| == 3 && s[0] == '\U{E2}' && s[1] == '\U{80}'
        && ('\U{80}' <= s[2] <= '\U{8A}' || s[2] == '\U{A8}' || s[2] == '\U{A9}' || s[2] == '\U{AF}'))
    || (|s| == 3 && s[0] == '\U{E2}' && s[1] == '\U{81}' && s[2] == '\U{9F}')
    || (|s| == 3 && s[0] == '\U{E3}' && s[1] == '\U{80}' && s[2] == '\U{80}')
  }

  function Byte(b: nat): char
    requires b < 0x100
  {
    b as char
  }

  /** A character of the Basic Multilingual Plane in UTF-8 (RFC 3629, section 3). */
  function Utf8(c: nat): string
    requires c < 0x1_0000
  {
    if c < 0x80 then [Byte(c)]
    else if c < 0x800 then [Byte(0xC0 + c / 0x40), Byte(0x80 + c % 0x40)]
    else [Byte(0xE0 + c / 0x1000), Byte(0x80 + c / 0x40 % 0x40), Byte(0x80 + c % 0x40)]
  }

  /** Unicode's White Space property. */
  predicate WhiteSpace(c: nat) {
    || 9 <= c <= 13 || c == 32 || c == 0x85 || c == 0xA0 || c == 0x1680
    || 0x2000 <= c <= 0x200A || c == 0x2028 || c == 0x2029 || c == 0x202F || c == 0x205F || c == 0x3000
  }

  lemma SpaceExactly(c: nat)
    requires c < 0x1_0000
    ensures IsSpace(Utf8(c)) <==> WhiteSpace(c)
  {
  }

  /** The length of the white space character s begins with, or 0. */
  function SpaceFirst(s: string): (n: nat)
    ensures n <= |s| && (n > 0 ==> IsSpace(s[..n]))
  {
    if |s| >= 1 && IsSpace(s[..1]) then 1
    else if |s| >= 2 && IsSpace(s[..2]) then 2
    else if |s| >= 3 && IsSpace(s[..3]) then 3
    else 0
  }

  /** The length of the one it ends with, or 0. */
  function SpaceLast(s: string): (n: nat)
    ensures n <= |s| && (n > 0 ==> IsSpace(s[|s| - n..]))
  {
    if |s| >= 1 && IsSpace(s[|s| - 1..]) then 1
    else if |s| >= 2 && IsSpace(s[|s| - 2..]) then 2
    else if |s| >= 3 && IsSpace(s[|s| - 3..]) then 3
    else 0
  }

  function TrimLeft(s: string): string {
    var n := SpaceFirst(s);
    if n > 0 then TrimLeft(s[n..]) else s
  }

  function TrimRight(s: string): string {
    var n := SpaceLast(s);
    if n > 0 then TrimRight(s[..|s| - n]) else s
  }

  function TrimSpace(s: string): string {
    TrimRight(TrimLeft(s))
  }

  // ----- What white space comes off -----

  /** White space characters, one after another. */
  ghost predicate Spaces(s: string) {
    exists parts: seq<string> :: (forall x :: x in parts ==> IsSpace(x)) && s == Flat(parts)
  }

  function Flat(parts: seq<string>): string {
    if parts == [] then [] else parts[0] + Flat(parts[1..])
  }

  lemma {:induction false} FlatSum(a: seq<string>, b: seq<string>)
    ensures Flat(a + b) == Flat(a) + Flat(b)
    decreases |a|
  {
    if a == [] {
      assert a + b == b;
    } else {
      FlatSum(a[1..], b);
      assert (a + b)[1..] == a[1..] + b;
    }
  }

  predicate StartsOrEndsInSpace(s: string) {
    || (exists k :: 0 < k <= |s| && IsSpace(s[..k]))
    || (exists k :: 0 <= k < |s| && IsSpace(s[k..]))
  }

  /** What is trimmed off either end is white space, and none is left there. */
  lemma TrimsExactly(s: string) returns (l: string, r: string)
    ensures s == l + TrimSpace(s) + r && Spaces(l) && Spaces(r)
    ensures !StartsOrEndsInSpace(TrimSpace(s))
  {
    hide IsSpace, TrimLeft, TrimRight, Spaces, StartsOrEndsInSpace;
    l := LeftOff(s);
    r := RightOff(TrimLeft(s));
    Assoc(l, TrimSpace(s), r);
    StillNoStart(TrimLeft(s));
    NoneLeft(TrimSpace(s));
  }

  lemma NoSpaces()
    ensures Spaces([])
  {
    var none: seq<string> := [];
    assert Flat(none) == [];
  }

  lemma MoreSpaces(a: string, b: string)
    requires (IsSpace(a) && Spaces(b)) || (Spaces(a) && IsSpace(b))
    ensures Spaces(a + b)
  {
    hide IsSpace;
    if IsSpace(a) && Spaces(b) {
      var parts :| (forall x :: x in parts ==> IsSpace(x)) && b == Flat(parts);
      assert ([a] + parts)[1..] == parts;
      assert Flat([a] + parts) == a + b;
    } else {
      var parts :| (forall x :: x in parts ==> IsSpace(x)) && a == Flat(parts);
      FlatSum(parts, [b]);
      assert [b][1..] == [] && Flat([b]) == b + [] == b;
    }
  }

  lemma {:induction false} LeftOff(s: string) returns (l: string)
    ensures s == l + TrimLeft(s) && Spaces(l) && SpaceFirst(TrimLeft(s)) == 0
    decreases |s|
  {
    hide IsSpace, Spaces, SpaceFirst;
    NoSpaces();
    l := [];
    var n := SpaceFirst(s);
    if n > 0 {
      var rest := LeftOff(s[n..]);
      l := s[..n] + rest;
      MoreSpaces(s[..n], rest);
      assert s == s[..n] + s[n..];
      Assoc(s[..n], rest, TrimLeft(s[n..]));
    }
  }

  lemma {:induction false} RightOff(s: string) returns (r: string)
    ensures s == TrimRight(s) + r && Spaces(r) && SpaceLast(TrimRight(s)) == 0
    decreases |s|
  {
    hide IsSpace, Spaces, SpaceLast;
    NoSpaces();
    r := [];
    var n := SpaceLast(s);
    if n > 0 {
      var rest := RightOff(s[..|s| - n]);
      r := rest + s[|s| - n..];
      MoreSpaces(rest, s[|s| - n..]);
      assert s == s[..|s| - n] + s[|s| - n..];
      Assoc(TrimRight(s[..|s| - n]), rest, s[|s| - n..]);
    }
  }

  /** Taking white space off the end leaves none at the start. */
  lemma {:induction false} StillNoStart(s: string)
    requires SpaceFirst(s) == 0
    ensures SpaceFirst(TrimRight(s)) == 0
    decreases |s|
  {
    hide IsSpace, SpaceLast;
    var n := SpaceLast(s);
    if n > 0 {
      var t := s[..|s| - n];
      assert forall k :: 0 < k <= |t| ==> t[..k] == s[..k];
      StillNoStart(t);
    }
  }

  lemma NoneLeft(s: string)
    requires SpaceFirst(s) == 0 && SpaceLast(s) == 0
    ensures !StartsOrEndsInSpace(s)
  {
    hide IsSpace, SpaceFirst, SpaceLast;
    forall k | 0 < k <= |s|
      ensures !IsSpace(s[..k])
    {
      NoneFirst(s, k);
    }
    forall k | 0 <= k < |s|
      ensures !IsSpace(s[k..])
    {
      NoneLast(s, |s| - k);
      assert s[|s| - (|s| - k)..] == s[k..];
    }
  }

  lemma NoneFirst(s: string, k: nat)
    requires SpaceFirst(s) == 0 && 0 < k <= |s|
    ensures !IsSpace(s[..k])
  {
    hide IsSpace;
    AtMostThree(s[..k]);
  }

  lemma NoneLast(s: string, k: nat)
    requires SpaceLast(s) == 0 && 0 < k <= |s|
    ensures !IsSpace(s[|s| - k..])
  {
    hide IsSpace, SpaceLast;
    AtMostThree(s[|s| - k..]);
    assert |s[|s| - k..]| == k;
    LastThree(s);
  }

  lemma LastThree(s: string)
    requires SpaceLast(s) == 0
    ensures |s| >= 1 ==> !IsSpace(s[|s| - 1..])
    ensures |s| >= 2 ==> !IsSpace(s[|s| - 2..])
    ensures |s| >= 3 ==> !IsSpace(s[|s| - 3..])
  {
    hide IsSpace;
  }

  lemma AtMostThree(s: string)
    ensures IsSpace(s) ==> 1 <= |s| <= 3
  {
  }

  /** The snapshot id kept, and the reports passed to onStatus. */
  datatype Seen = Seen(snapshotID: string, reported: seq<BackupStatus>)

  function AfterLine(decode: Decoder, listening: bool, seen: Seen, line: string): Seen {
    var text := TrimSpace(line);
    if text == [] || text[0] != '{' then seen
    else
      match decode(text)
      case Summary(id) => seen.(snapshotID := id)
      case Status(Some(report)) => if listening then seen.(reported := seen.reported + [report]) else seen
      case _ => seen
  }

  function AfterLines(decode: Decoder, listening: bool, seen: Seen, lines: seq<string>): Seen {
    if lines == [] then seen
    else AfterLine(decode, listening, AfterLines(decode, listening, seen, lines[..|lines| - 1]), lines[|lines| - 1])
  }

  /** The line is JSON text that decodes as a summary, or as a report. */
  predicate IsJson(line: string) {
    TrimSpace(line) != [] && TrimSpace(line)[0] == '{'
  }

  predicate IsSummary(decode: Decoder, line: string) {
    IsJson(line) && decode(TrimSpace(line)).Summary?
  }

  function ReportIn(decode: Decoder, line: string): Option<BackupStatus> {
    if IsJson(line) && decode(TrimSpace(line)).Status? then decode(TrimSpace(line)).report else None
  }

  predicate LastSummary(decode: Decoder, lines: seq<string>, k: nat) {
    k < |lines| && IsSummary(decode, lines[k]) && forall j :: k < j < |lines| ==> !IsSummary(decode, lines[j])
  }

  /** The snapshot id is that of the last summary, and empty when there is none. */
  ghost predicate IdOf(decode: Decoder, lines: seq<string>, id: string) {
    || (id == "" && forall k :: 0 <= k < |lines| ==> !IsSummary(decode, lines[k]))
    || (exists k: nat :: LastSummary(decode, lines, k) && id == decode(TrimSpace(lines[k])).snapshotID)
  }

  /** at is where the reports stand, in order, and reported what they are. */
  predicate ReportsAt(decode: Decoder, lines: seq<string>, reported: seq<BackupStatus>, at: seq<nat>) {
    && |at| == |reported|
    && (forall j, k :: 0 <= j < k < |at| ==> at[j] < at[k])
    && (forall k :: 0 <= k < |at| ==> at[k] < |lines| && ReportIn(decode, lines[at[k]]) == Some(reported[k]))
    && (forall i :: 0 <= i < |lines| && ReportIn(decode, lines[i]).Some? ==> i in at)
  }

  /** All the reports, in order, when someone listens; and none otherwise. */
  ghost predicate ReportsOf(decode: Decoder, listening: bool, lines: seq<string>, reported: seq<BackupStatus>) {
    if listening then exists at: seq<nat> :: ReportsAt(decode, lines, reported, at) else reported == []
  }

  /** What a whole output comes to. */
  lemma {:induction false} SeenExactly(decode: Decoder, listening: bool, lines: seq<string>) returns (at: seq<nat>)
    ensures var seen := AfterLines(decode, listening, Seen("", []), lines);
            && IdOf(decode, lines, seen.snapshotID)
            && (listening ==> ReportsAt(decode, lines, seen.reported, at))
            && (!listening ==> seen.reported == [])
  {
    hide TrimSpace, ReportIn, AfterLine, IdOf;
    at := [];
    NoId(decode);
    if lines != [] {
      var n := |lines| - 1;
      at := SeenExactly(decode, listening, lines[..n]);
      var before := AfterLines(decode, listening, Seen("", []), lines[..n]);
      OneMoreId(decode, lines, before, listening);
      LineReports(decode, listening, before, lines[n]);
      if listening {
        at := OneMoreReport(decode, lines, before, at);
      }
    }
  }

  lemma NoId(decode: Decoder)
    ensures IdOf(decode, [], "")
  {
  }

  lemma OneMoreId(decode: Decoder, lines: seq<string>, before: Seen, listening: bool)
    requires lines != [] && IdOf(decode, lines[..|lines| - 1], before.snapshotID)
    ensures IdOf(decode, lines, AfterLine(decode, listening, before, lines[|lines| - 1]).snapshotID)
  {
    hide TrimSpace;
    var n := |lines| - 1;
    assert forall k :: 0 <= k < n ==> lines[..n][k] == lines[k];
    if IsSummary(decode, lines[n]) {
      assert LastSummary(decode, lines, n);
    } else if k: nat :| LastSummary(decode, lines[..n], k) && before.snapshotID == decode(TrimSpace(lines[..n][k])).snapshotID {
      assert LastSummary(decode, lines, k);
    }
  }

  lemma LineReports(decode: Decoder, listening: bool, before: Seen, line: string)
    ensures AfterLine(decode, listening, before, line).reported
         == if listening && ReportIn(decode, line).Some? then before.reported + [ReportIn(decode, line).value] else before.reported
  {
    hide TrimSpace;
  }

  lemma OneMoreReport(decode: Decoder, lines: seq<string>, before: Seen, at: seq<nat>) returns (more: seq<nat>)
    requires lines != [] && ReportsAt(decode, lines[..|lines| - 1], before.reported, at)
    ensures ReportsAt(decode, lines, AfterLine(decode, true, before, lines[|lines| - 1]).reported, more)
  {
    hide ReportIn, AfterLine, ReportsAt;
    var n := |lines| - 1;
    LineReports(decode, true, before, lines[n]);
    assert lines[..n] + [lines[n]] == lines;
    if ReportIn(decode, lines[n]).Some? {
      more := at + [n];
      ReportAdded(decode, lines[..n], lines[n], before.reported, at);
    } else {
      more := at;
      NoneAdded(decode, lines[..n], lines[n], before.reported, at);
    }
  }

  lemma ReportAdded(decode: Decoder, lines: seq<string>, line: string, reported: seq<BackupStatus>, at: seq<nat>)
    requires ReportsAt(decode, lines, reported, at) && ReportIn(decode, line).Some?
    ensures ReportsAt(decode, lines + [line], reported + [ReportIn(decode, line).value], at + [|lines|])
  {
    hide ReportIn;
    var all, more := lines + [line], at + [|lines|];
    forall i | 0 <= i < |all| && ReportIn(decode, all[i]).Some?
      ensures i in more
    {
      assert i < |lines| ==> all[i] == lines[i] && i in at;
      assert more[|at|] == |lines|;
    }
  }

  lemma NoneAdded(decode: Decoder, lines: seq<string>, line: string, reported: seq<BackupStatus>, at: seq<nat>)
    requires ReportsAt(decode, lines, reported, at) && ReportIn(decode, line).None?
    ensures ReportsAt(decode, lines + [line], reported, at)
  {
    hide ReportIn;
  }

  lemma {:induction false} AfterLinesSum(decode: Decoder, listening: bool, seen: Seen, a: seq<string>, b: seq<string>)
    ensures AfterLines(decode, listening, seen, a + b)
         == AfterLines(decode, listening, AfterLines(decode, listening, seen, a), b)
    decreases |b|
  {
    hide AfterLine;
    if b == [] {
      assert a + b == a;
    } else {
      var n := |b| - 1;
      assert (a + b)[..|a| + n] == a + b[..n];
      AfterLinesSum(decode, listening, seen, a, b[..n]);
    }
  }

  lemma AfterNone(decode: Decoder, listening: bool, seen: Seen)
    ensures AfterLines(decode, listening, seen, []) == seen
  {
  }

  lemma AfterOne(decode: Decoder, listening: bool, seen: Seen, done: seq<string>, line: string)
    ensures AfterLines(decode, listening, seen, done + [line])
         == AfterLine(decode, listening, AfterLines(decode, listening, seen, done), line)
  {
    hide AfterLine;
    assert (done + [line])[..|done|] == done;
  }

  /** The next line off the front. */
  lemma TakeLine(done: seq<string>, s: string)
    ensures var i := LineEnd(s);
            && (i == |s| ==> done + Lines(s) == done && Rest(s) == s)
            && (i < |s| ==> done + Lines(s) == done + [s[..i]] + Lines(s[i + 1..]) && Rest(s) == Rest(s[i + 1..]))
  {
    hide LineEnd;
    var i := LineEnd(s);
    if i == |s| {
      assert done + [] == done;
    } else {
      Assoc(done, [s[..i]], Lines(s[i + 1..]));
    }
  }

  class BackupOutput {
    var partial: string
    var snapshotID: string
    var reported: seq<BackupStatus>
    const decode: Decoder
    const listening: bool

    constructor (decode: Decoder, listening: bool)
      ensures this.decode == decode && this.listening == listening
      ensures partial == [] && SoFar() == Seen("", [])
    {
      this.decode, this.listening := decode, listening;
      partial, snapshotID, reported := [], "", [];
    }

    ghost function SoFar(): Seen
      reads this
    {
      Seen(snapshotID, reported)
    }

    method Line(line: string)
      modifies `snapshotID, `reported
      ensures SoFar() == AfterLine(decode, listening, old(SoFar()), line)
      ensures snapshotID == if IsSummary(decode, line) then decode(TrimSpace(line)).snapshotID else old(snapshotID)
      ensures reported == if listening && ReportIn(decode, line).Some? then old(reported) + [ReportIn(decode, line).value] else old(reported)
    {
      hide TrimSpace;
      var text := TrimSpace(line);
      if text == [] || text[0] != '{' {
        return;
      }
      match decode(text)
      case Summary(id) => snapshotID := id;
      case Status(Some(report)) =>
        if listening {
          reported := reported + [report];
        }
      case _ =>
    }

    method Write(p: string) returns (n: nat)
      modifies this
      ensures n == |p|
      ensures partial == Keep(Rest(old(partial) + p))
      ensures SoFar() == AfterLines(decode, listening, old(SoFar()), Lines(old(partial) + p))
    {
      hide AfterLine, AfterLines, Lines, Rest, LineEnd;
      partial := partial + p;
      ghost var all, done := partial, [];
      AfterNone(decode, listening, SoFar());
      while true
        invariant all == old(partial) + p
        invariant done + Lines(partial) == Lines(all) && Rest(all) == Rest(partial)
        invariant SoFar() == AfterLines(decode, listening, old(SoFar()), done)
        decreases |partial|
      {
        TakeLine(done, partial);
        var i := LineEnd(partial);
        if i == |partial| {
          break;
        }
        AfterOne(decode, listening, old(SoFar()), done, partial[..i]);
        Line(partial[..i]);
        done := done + [partial[..i]];
        partial := partial[i + 1..];
      }
      if |partial| > BUFFER_LIMIT {
        partial := [];
      }
      n := |p|;
    }

    method Close()
      modifies this
      ensures partial == []
      ensures SoFar() == AfterLine(decode, listening, old(SoFar()), old(partial))
    {
      Line(partial);
      partial := [];
    }

    /** A backup's output, written in whatever pieces it comes, then closed. */
    method ReadAll(chunks: seq<string>)
      requires partial == [] && SoFar() == Seen("", [])
      modifies this
      ensures SoFar() == AfterLines(decode, listening, Seen("", []), Handled(chunks))
      ensures Fits(Joined(chunks)) ==>
                SoFar() == AfterLines(decode, listening, Seen("", []), AllLines(Joined(chunks)))
      ensures IdOf(decode, Handled(chunks), snapshotID) && ReportsOf(decode, listening, Handled(chunks), reported)
      ensures Fits(Joined(chunks)) ==>
                && IdOf(decode, AllLines(Joined(chunks)), snapshotID)
                && ReportsOf(decode, listening, AllLines(Joined(chunks)), reported)
    {
      hide AfterLine, Lines, Rest, AllLines, Fits, Joined, IdOf, ReportsAt;
      for i := 0 to |chunks|
        invariant partial == Kept(chunks[..i])
        invariant SoFar() == AfterLines(decode, listening, Seen("", []), Handed(chunks[..i]))
      {
        assert chunks[..i + 1][..i] == chunks[..i];
        AfterLinesSum(decode, listening, Seen("", []), Handed(chunks[..i]), Lines(Kept(chunks[..i]) + chunks[i]));
        var n := Write(chunks[i]);
      }
      assert chunks[..|chunks|] == chunks;
      assert (Handed(chunks) + [Kept(chunks)])[..|Handed(chunks)|] == Handed(chunks);
      Close();
      ghost var at := SeenExactly(decode, listening, Handled(chunks));
      if Fits(Joined(chunks)) {
        ChunksDoNotMatter(chunks);
      }
    }
  }
}
