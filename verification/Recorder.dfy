/** The record of a running job's progress that `status` reads
    (internal/execution/recorder.go). */
module Recorder {
  import opened Wrappers
  import opened Progress
  import opened Schedule

  /** progressWriteInterval. */
  const INTERVAL: int := 5 * SECOND

  datatype Phase = Phase(name: string, repository: string, index: int, count: int)

  /** state.Progress. */
  datatype Record = Record(
    phase: Phase, percentDone: real, bytesDone: int, totalBytes: int, filesDone: int, totalFiles: int,
    secondsRemaining: Option<int>, currentFiles: seq<string>,
    updated: Time, lastReport: Option<Time>, lastMoved: Option<Time>)

  function PhaseProgress(p: Phase): Record {
    Record(p, 0.0, 0, 0, 0, 0, None, [], 0, None, None)
  }

  function ApplyStatus(cur: Record, s: BackupStatus, now: Time): Record {
    var moved := cur.lastMoved.None? || s.bytesDone > cur.bytesDone || s.filesDone > cur.filesDone;
    Record(cur.phase, s.percentDone, s.bytesDone, s.totalBytes, s.filesDone, s.totalFiles, s.secondsRemaining,
           if s.currentFiles != [] then s.currentFiles else cur.currentFiles,
           cur.updated, Some(now), if moved then Some(now) else cur.lastMoved)
  }

  // ----- A run of reports -----

  /** at is the clock when the event is taken in, savedAt when it is written,
      if it is, and ok whether that write works. */
  datatype Event =
    | Phased(phase: Phase, savedAt: Time, ok: bool)
    | Reported(status: BackupStatus, at: Time, savedAt: Time, ok: bool)

  /** Everything written, and what the file last held. */
  datatype Recording = Recording(cur: Record, lastWrite: Time, written: seq<Record>, file: Option<Record>, warnings: nat)

  const BLANK := Recording(PhaseProgress(Phase("", "", 0, 0)), 0, [], None, 0)

  function Save(r: Recording, at: Time, ok: bool): Recording {
    var cur := r.cur.(updated := at);
    Recording(cur, at, r.written + [cur], if ok then Some(cur) else r.file,
              if !ok && r.warnings == 0 then 1 else r.warnings)
  }

  function Step(r: Recording, e: Event): Recording {
    match e
    case Phased(p, savedAt, ok) => Save(r.(cur := PhaseProgress(p)), savedAt, ok)
    case Reported(s, at, savedAt, ok) =>
      var r' := r.(cur := ApplyStatus(r.cur, s, at));
      if r.cur.lastReport.None? || at - r.lastWrite >= INTERVAL then Save(r', savedAt, ok) else r'
  }

  function After(es: seq<Event>): Recording {
    if es == [] then BLANK else Step(After(es[..|es| - 1]), es[|es| - 1])
  }

  /** The clock does not go back. */
  ghost predicate Orderly(es: seq<Event>) {
    && (forall i :: 0 <= i < |es| && es[i].Reported? ==> es[i].at <= es[i].savedAt)
    && (forall i, j :: 0 <= i < j < |es| && es[j].Reported? ==> es[i].savedAt <= es[j].at)
  }

  // ----- Saves of figures are spaced out -----

  ghost predicate Kept(r: Recording) {
    && (r.written == [] ==> r.cur.lastReport.None?)
    && (r.written != [] ==>
          var last := r.written[|r.written| - 1];
          last.updated == r.lastWrite && last.phase == r.cur.phase
          && (last.lastReport.Some? <==> r.cur.lastReport.Some?))
  }

  /** Two saves of figures in a row; a phase, saved at once, starts afresh. */
  ghost predicate Spaced(r: Recording) {
    forall i :: 0 <= i < |r.written| - 1 && r.written[i].lastReport.Some? && r.written[i + 1].lastReport.Some? ==>
      r.written[i].phase == r.written[i + 1].phase && r.written[i + 1].updated - r.written[i].updated >= INTERVAL
  }

  lemma StepKept(r: Recording, e: Event)
    requires Kept(r) && Spaced(r) && (e.Reported? ==> e.at <= e.savedAt)
    ensures Kept(Step(r, e)) && Spaced(Step(r, e))
  {
    var t := Step(r, e);
    var n := |r.written|;
    assert t.written == r.written || (|t.written| == n + 1 && t.written[..n] == r.written);
    forall i | 0 <= i < |t.written| - 1 && t.written[i].lastReport.Some? && t.written[i + 1].lastReport.Some?
      ensures t.written[i].phase == t.written[i + 1].phase && t.written[i + 1].updated - t.written[i].updated >= INTERVAL
    {
      assert t.written[i] == r.written[i];
      if i + 1 < n {
        assert t.written[i + 1] == r.written[i + 1];
      }
    }
  }

  lemma {:induction false} AlwaysKept(es: seq<Event>)
    requires Orderly(es)
    ensures Kept(After(es))
    ensures Spaced(After(es))
  {
    hide Kept, Spaced, Step;
    if es == [] {
      BlankKept();
    } else {
      AlwaysKept(es[..|es| - 1]);
      StepKept(After(es[..|es| - 1]), es[|es| - 1]);
    }
  }

  lemma BlankKept()
    ensures Kept(BLANK) && Spaced(BLANK)
  {
  }

  // ----- What is saved is never long out of date -----

  ghost predicate AllReported(es: seq<Event>, from: nat) {
    forall i :: from <= i < |es| ==> es[i].Reported?
  }

  /** The file is the record as it was after the first k events, and only
      reports came since. */
  ghost predicate SavedAfter(es: seq<Event>, k: nat) {
    && 0 < k <= |es| && AllReported(es, k)
    && After(es).file == Some(After(es[..k]).cur)
    && After(es[..k]).cur.updated == After(es).lastWrite
  }

  lemma {:induction false} LastSaved(es: seq<Event>) returns (k: nat)
    requires Orderly(es) && es != [] && forall e :: e in es ==> e.ok
    ensures SavedAfter(es, k)
  {
    hide After, Kept;
    var n := |es| - 1;
    var init, e := es[..n], es[n];
    assert es[..|es|] == es && es == init + [e];
    AfterLast(es);
    if After(es).written != After(init).written {
      k := |es|;
      SavedNow(After(init), e);
    } else {
      NotSaved(After(init), e);
      AlwaysKept(init);
      NothingYet(init);
      k := LastSaved(init);
      assert es[..k] == init[..k];
    }
  }

  lemma AfterLast(es: seq<Event>)
    requires es != []
    ensures After(es) == Step(After(es[..|es| - 1]), es[|es| - 1])
  {
  }

  lemma SavedNow(r: Recording, e: Event)
    requires e.ok && Step(r, e).written != r.written
    ensures var t := Step(r, e); t.file == Some(t.cur) && t.cur.updated == t.lastWrite
  {
  }

  lemma NotSaved(r: Recording, e: Event)
    requires Step(r, e).written == r.written
    ensures e.Reported? && r.cur.lastReport.Some? && Step(r, e) == r.(cur := ApplyStatus(r.cur, e.status, e.at))
    ensures e.at - r.lastWrite < INTERVAL
  {
    var r' := r.(cur := if e.Reported? then ApplyStatus(r.cur, e.status, e.at) else PhaseProgress(e.phase));
    assert |Save(r', e.savedAt, e.ok).written| == |r.written| + 1;
  }

  lemma NothingYet(es: seq<Event>)
    ensures After(es).cur.lastReport.Some? ==> es != []
  {
  }

  /** Main result: after every report the file holds the record as it stood
      at some moment less than five seconds before, in the same phase. */
  lemma NeverStale(es: seq<Event>) returns (k: nat)
    requires Orderly(es) && (forall e :: e in es ==> e.ok) && es != [] && es[|es| - 1].Reported?
    ensures SavedAfter(es, k)
    ensures After(es).file.Some? && es[|es| - 1].at - After(es).file.value.updated < INTERVAL
  {
    hide After, SavedAfter;
    k := LastSaved(es);
    AfterLast(es);
    SavedIs(es, k);
    var init, e := es[..|es| - 1], es[|es| - 1];
    if After(es).written == After(init).written {
      NotSaved(After(init), e);
    } else {
      SavedNow(After(init), e);
      SavedThen(After(init), e);
    }
  }

  lemma SavedIs(es: seq<Event>, k: nat)
    requires SavedAfter(es, k)
    ensures After(es).file.Some? && After(es).file.value.updated == After(es).lastWrite
  {
    hide After;
  }

  lemma SavedThen(r: Recording, e: Event)
    requires Step(r, e).written != r.written
    ensures Step(r, e).lastWrite == e.savedAt
  {
  }

  // ----- When the figures last moved -----

  /** The reports since the phase began. */
  function InPhase(es: seq<Event>): seq<Event> {
    if es == [] || es[|es| - 1].Phased? then []
    else InPhase(es[..|es| - 1]) + [es[|es| - 1]]
  }

  /** A phase's first report, or one with more bytes or files than the one before it. */
  predicate Rose(rs: seq<Event>, k: nat)
    requires k < |rs| && forall r :: r in rs ==> r.Reported?
  {
    k == 0 || rs[k].status.bytesDone > rs[k - 1].status.bytesDone || rs[k].status.filesDone > rs[k - 1].status.filesDone
  }

  predicate LastRise(rs: seq<Event>, k: nat)
    requires forall r :: r in rs ==> r.Reported?
  {
    k < |rs| && Rose(rs, k) && forall j :: k < j < |rs| ==> !Rose(rs, j)
  }

  /** The last report of a phase to name the files being read. */
  predicate LastFiles(rs: seq<Event>, k: nat)
    requires forall r :: r in rs ==> r.Reported?
  {
    k < |rs| && rs[k].status.currentFiles != [] && forall j :: k < j < |rs| ==> rs[j].status.currentFiles == []
  }

  /** The files shown are those last named, or none. */
  ghost predicate TellsFiles(cur: Record, rs: seq<Event>)
    requires forall r :: r in rs ==> r.Reported?
  {
    || (cur.currentFiles == [] && forall k :: 0 <= k < |rs| ==> rs[k].status.currentFiles == [])
    || (exists k: nat :: LastFiles(rs, k) && cur.currentFiles == rs[k].status.currentFiles)
  }

  /** The record against the phase's reports. */
  ghost predicate Tells(cur: Record, rs: seq<Event>)
    requires forall r :: r in rs ==> r.Reported?
  {
    TellsFiles(cur, rs) &&
    if rs == [] then cur == PhaseProgress(cur.phase).(updated := cur.updated)
    else
      var last := rs[|rs| - 1];
      && cur.percentDone == last.status.percentDone && cur.secondsRemaining == last.status.secondsRemaining
      && cur.lastReport == Some(last.at)
      && cur.bytesDone == last.status.bytesDone && cur.filesDone == last.status.filesDone
      && cur.totalBytes == last.status.totalBytes && cur.totalFiles == last.status.totalFiles
      && exists k: nat :: LastRise(rs, k) && cur.lastMoved == Some(rs[k].at)
  }

  lemma {:induction false} InPhaseReported(es: seq<Event>)
    ensures forall r :: r in InPhase(es) ==> r.Reported?
  {
    if es != [] && es[|es| - 1].Reported? {
      InPhaseReported(es[..|es| - 1]);
    }
  }

  lemma OneMore(cur: Record, rs: seq<Event>, e: Event)
    requires (forall r :: r in rs ==> r.Reported?) && e.Reported? && Tells(cur, rs)
    ensures Tells(ApplyStatus(cur, e.status, e.at), rs + [e])
  {
    var more := rs + [e];
    var n := |rs|;
    FilesTold(cur, rs, e);
    hide TellsFiles;
    assert forall j :: 0 <= j < n ==> Rose(more, j) == Rose(rs, j);
    if Rose(more, n) {
      assert LastRise(more, n);
    } else {
      var k: nat :| LastRise(rs, k) && cur.lastMoved == Some(rs[k].at);
      assert LastRise(more, k) && more[k] == rs[k];
    }
  }

  lemma FilesTold(cur: Record, rs: seq<Event>, e: Event)
    requires (forall r :: r in rs ==> r.Reported?) && e.Reported? && TellsFiles(cur, rs)
    ensures TellsFiles(ApplyStatus(cur, e.status, e.at), rs + [e])
  {
    var more, n := rs + [e], |rs|;
    if e.status.currentFiles != [] {
      assert LastFiles(more, n);
    } else if k: nat :| LastFiles(rs, k) && cur.currentFiles == rs[k].status.currentFiles {
      assert LastFiles(more, k);
    }
  }

  lemma SaveKeepsFigures(r: Recording, e: Event, rs: seq<Event>)
    requires (forall x :: x in rs ==> x.Reported?) && e.Reported? && Tells(ApplyStatus(r.cur, e.status, e.at), rs)
    ensures Tells(Step(r, e).cur, rs)
  {
    hide LastRise, ApplyStatus;
  }

  /** The phase last begun. */
  function PhaseOf(es: seq<Event>): Phase {
    if es == [] then BLANK.cur.phase
    else if es[|es| - 1].Phased? then es[|es| - 1].phase
    else PhaseOf(es[..|es| - 1])
  }

  /** The record is of the phase last begun, with every figure as its latest
      report gave it, and the files last named; before the first report all
      are zero. */
  lemma {:induction false} FiguresTold(es: seq<Event>)
    ensures After(es).cur.phase == PhaseOf(es)
    ensures (forall r :: r in InPhase(es) ==> r.Reported?) && Tells(After(es).cur, InPhase(es))
  {
    hide Tells, Step, ApplyStatus;
    InPhaseReported(es);
    if es == [] {
      FreshTells(BLANK.cur);
    } else {
      var init, e := es[..|es| - 1], es[|es| - 1];
      FiguresTold(init);
      if e.Reported? {
        SamePhase(After(init), e);
        OneMore(After(init).cur, InPhase(init), e);
        SaveKeepsFigures(After(init), e, InPhase(es));
      } else {
        PhaseIsFresh(After(init), e);
        FreshTells(After(es).cur);
      }
    }
  }

  lemma FreshTells(cur: Record)
    requires cur == PhaseProgress(cur.phase).(updated := cur.updated)
    ensures Tells(cur, [])
  {
  }

  lemma PhaseIsFresh(r: Recording, e: Event)
    requires e.Phased?
    ensures var cur := Step(r, e).cur; cur == PhaseProgress(e.phase).(updated := cur.updated)
  {
  }

  lemma SamePhase(r: Recording, e: Event)
    requires e.Reported?
    ensures Step(r, e).cur.phase == r.cur.phase
  {
  }

  // ----- What the file holds -----

  /** Event i wrote the record. */
  ghost predicate WroteAt(es: seq<Event>, i: nat) {
    i < |es| && After(es[..i + 1]).written != After(es[..i]).written
  }

  /** It did, the write worked, and none since has. */
  ghost predicate LastWorked(es: seq<Event>, i: nat) {
    WroteAt(es, i) && es[i].ok && forall j :: i < j < |es| && WroteAt(es, j) ==> !es[j].ok
  }

  /** The file holds the record as it was when a write last worked, stamped with
      that time; a write that fails leaves it. */
  lemma {:induction false} FileIsLastWorked(es: seq<Event>)
    ensures After(es).file == None <==> forall i: nat :: WroteAt(es, i) ==> !es[i].ok
    ensures forall i: nat :: LastWorked(es, i) ==>
              After(es).file == Some(After(es[..i + 1]).cur) && After(es[..i + 1]).cur.updated == es[i].savedAt
  {
    hide After, WroteAt;
    if es == [] {
      NoWrites();
    } else {
      var n := |es| - 1;
      var init := es[..n];
      FileIsLastWorked(init);
      WroteLast(es);
      forall i: nat | i < n
        ensures (WroteAt(es, i) <==> WroteAt(init, i)) && es[..i + 1] == init[..i + 1] && es[i] == init[i]
      {
        WroteBefore(es, i);
      }
      forall i: nat | LastWorked(es, i)
        ensures After(es).file == Some(After(es[..i + 1]).cur) && After(es[..i + 1]).cur.updated == es[i].savedAt
      {
        if i < n {
          assert LastWorked(init, i);
        }
      }
    }
  }

  lemma NoWrites()
    ensures After([]).file == None && forall i: nat :: !WroteAt([], i)
  {
  }

  lemma WroteBefore(es: seq<Event>, i: nat)
    requires i < |es| - 1
    ensures var init := es[..|es| - 1];
            (WroteAt(es, i) <==> WroteAt(init, i)) && es[..i + 1] == init[..i + 1] && es[i] == init[i]
  {
    hide After;
    var init := es[..|es| - 1];
    assert es[..i + 1] == init[..i + 1] && es[..i] == init[..i];
  }

  lemma WroteLast(es: seq<Event>)
    requires es != []
    ensures var n := |es| - 1;
            && es[..n + 1] == es
            && (WroteAt(es, n) && es[n].ok ==> After(es).file == Some(After(es).cur) && After(es).cur.updated == es[n].savedAt)
            && (!WroteAt(es, n) || !es[n].ok ==> After(es).file == After(es[..n]).file)
            && (forall i: nat :: WroteAt(es, i) ==> i <= n)
            && (forall i: nat :: WroteAt(es[..n], i) ==> i < n)
  {
    hide Step;
    var n := |es| - 1;
    assert es[..n + 1] == es;
    StepFile(After(es[..n]), es[n]);
  }

  lemma StepFile(r: Recording, e: Event)
    ensures var t := Step(r, e);
            && (t.written != r.written && e.ok ==> t.file == Some(t.cur) && t.cur.updated == e.savedAt)
            && (t.written == r.written || !e.ok ==> t.file == r.file)
  {
    var cur := if e.Reported? then ApplyStatus(r.cur, e.status, e.at) else PhaseProgress(e.phase);
    assert |Save(r.(cur := cur), e.savedAt, e.ok).written| == |r.written| + 1;
  }

  /** Where the reports of a phase stand among all events. */
  lemma {:induction false} InPhaseIsTail(es: seq<Event>)
    ensures |InPhase(es)| <= |es| && InPhase(es) == es[|es| - |InPhase(es)|..]
  {
    if es != [] && es[|es| - 1].Reported? {
      var init := es[..|es| - 1];
      InPhaseIsTail(init);
      assert es == init + [es[|es| - 1]];
    }
  }

  /** Main result: lastReport is the time of the phase's latest report and
      lastMoved that of the latest to rise over the one before it. */
  lemma MovedIsLastRise(es: seq<Event>)
    requires Orderly(es) && InPhase(es) != []
    ensures var cur, rs := After(es).cur, InPhase(es);
            && (forall r :: r in rs ==> r.Reported?)
            && cur.lastReport == Some(rs[|rs| - 1].at)
            && (exists k: nat :: LastRise(rs, k) && cur.lastMoved == Some(rs[k].at) && rs[k].at <= rs[|rs| - 1].at)
  {
    hide After;
    FiguresTold(es);
    InPhaseIsTail(es);
    var cur, rs := After(es).cur, InPhase(es);
    var k: nat :| LastRise(rs, k) && cur.lastMoved == Some(rs[k].at);
    var from := |es| - |rs|;
    assert rs[k] == es[from + k] && rs[|rs| - 1] == es[|es| - 1];
    assert rs[k].Reported? && rs[|rs| - 1].Reported?;
  }

  /** The event wrote, and the write failed. */
  ghost predicate FailedAt(es: seq<Event>, i: nat) {
    i < |es| && !es[i].ok && After(es[..i + 1]).written != After(es[..i]).written
  }

  /** Failing writes are warned of once, however many there are. */
  lemma {:induction false} WarnedOnce(es: seq<Event>)
    ensures After(es).warnings <= 1
    ensures After(es).warnings == 1 <==> exists i: nat :: FailedAt(es, i)
  {
    hide Step, ApplyStatus;
    if es != [] {
      var n := |es| - 1;
      var init := es[..n];
      assert es[..n + 1] == es;
      WarnedOnce(init);
      forall i: nat | i < n
        ensures FailedAt(es, i) <==> FailedAt(init, i)
      {
        assert es[..i + 1] == init[..i + 1] && es[..i] == init[..i];
      }
      StepWarns(After(init), es[n]);
      assert FailedAt(es, n) <==> !es[n].ok && Step(After(init), es[n]).written != After(init).written;
      if i: nat :| FailedAt(es, i) {
        assert i < n ==> FailedAt(init, i);
      }
      if i: nat :| FailedAt(init, i) {
        assert FailedAt(es, i);
      }
    }
  }

  lemma StepWarns(r: Recording, e: Event)
    ensures Step(r, e).warnings == if !e.ok && Step(r, e).written != r.written && r.warnings == 0 then 1 else r.warnings
  {
    var cur := if e.Reported? then ApplyStatus(r.cur, e.status, e.at) else PhaseProgress(e.phase);
    assert |Save(r.(cur := cur), e.savedAt, e.ok).written| == |r.written| + 1;
  }

  // ----- The recorder -----

  class Recorder {
    const job: string
    var cur: Record
    var lastWrite: Time
    var warned: bool
    var warnings: nat                 // calls to warn
    var file: Option<Record>          // what the saver holds
    ghost var written: seq<Record>

    constructor (job: string)
      ensures this.job == job && Valid() && Contents() == BLANK
    {
      this.job := job;
      cur, lastWrite, warned, warnings, file, written := BLANK.cur, 0, false, 0, None, [];
    }

    ghost predicate Valid()
      reads this
    {
      warnings == if warned then 1 else 0
    }

    ghost function Contents(): Recording
      reads this
    {
      Recording(cur, lastWrite, written, file, warnings)
    }

    /** at is the clock now, and ok whether the saver takes the record. */
    method Write(at: Time, ok: bool)
      requires Valid()
      modifies this
      ensures Valid() && Contents() == Save(old(Contents()), at, ok)
    {
      cur := cur.(updated := at);
      lastWrite := at;
      written := written + [cur];
      if ok {
        file := Some(cur);
      } else if !warned {
        warned := true;
        warnings := warnings + 1;
      }
    }

    method Phase(job: string, p: Phase, at: Time, ok: bool)
      requires Valid()
      modifies this
      ensures Valid()
      ensures Contents() == if job == this.job then Step(old(Contents()), Phased(p, at, ok)) else old(Contents())
    {
      if job != this.job {
        return;
      }
      cur := PhaseProgress(p);
      Write(at, ok);
    }

    method BackupStatus(job: string, s: BackupStatus, now: Time, savedAt: Time, ok: bool)
      requires Valid()
      modifies this
      ensures Valid()
      ensures Contents() == if job == this.job then Step(old(Contents()), Reported(s, now, savedAt, ok)) else old(Contents())
    {
      if job != this.job {
        return;
      }
      var first := cur.lastReport.None?;
      cur := ApplyStatus(cur, s, now);
      if first || now - lastWrite >= INTERVAL {
        Write(savedAt, ok);
      }
    }
  }
}
