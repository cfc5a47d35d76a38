/** The state file and the changes made to it (internal/state/state.go). */
module StateFile {
  import opened Wrappers
  import opened Schedule

  datatype Outcome = Success | Failed

  datatype Trigger = Tick | Run

  datatype RepoResult = RepoResult(name: string, result: string, error: string, snapshotID: string)

  datatype RunRecord = RunRecord(
    started: Time, finished: Time, outcome: Outcome, trigger: Trigger,
    error: string, repositories: seq<RepoResult>)

  datatype Running = Running(started: Time, trigger: Trigger)

  datatype JobState = JobState(
    lastRun: Time, lastOutcome: Option<Outcome>, running: Option<Running>,
    failingSince: Option<Time>, failureNotified: Option<Time>, runs: seq<RunRecord>)

  datatype Failing = Failing(since: Option<Time>, notified: Option<Time>)

  /** The parts of a check-in; a reply may name others, which mean nothing. */
  datatype Part = StatusPart | SnapshotsPart | ConfigPart | UnknownPart(name: string)

  datatype CheckinState = CheckinState(
    hostID: string, lastAttempt: Option<Time>, lastSuccess: Option<Time>, lastError: string,
    acknowledged: map<Part, string>, resend: seq<Part>)

  datatype State = State(
    lastTick: Option<Time>, jobs: map<string, JobState>,
    checkin: Option<CheckinState>, restic: Option<string>)

  const MAX_RUNS: nat := 20

  const NEVER_RAN := JobState(ZERO_TIME, None, None, None, None, [])

  const EMPTY_STATE := State(None, map[], None, None)

  /** What indexing the job map gives: the zero JobState for a job not in it. */
  function JobOf(st: State, job: string): JobState {
    if job in st.jobs then st.jobs[job] else NEVER_RAN
  }

  /** The record for this enrolment; one for another host ID counts for nothing. */
  function CheckinFor(st: State, hostID: string): CheckinState {
    match st.checkin
    case Some(c) => if c.hostID == hostID then c else CheckinState(hostID, None, None, "", map[], [])
    case None => CheckinState(hostID, None, None, "", map[], [])
  }

  // ----- Changes -----

  datatype Change =
    | RecordRun(job: string, run: RunRecord, failing: Failing)
    | MarkRunning(job: string, started: Time, trigger: Trigger)
    | ClearRunning(job: string)
    | RecordTick(at: Time)
    | RecordCheckin(hostID: string, at: Time, sent: map<Part, string>, resend: seq<Part>, error: string)
    | RecordResticVersion(version: string)

  function WithRun(js: JobState, run: RunRecord, failing: Failing): JobState {
    var runs := [run] + js.runs;
    JobState(
      run.finished, Some(run.outcome), None,
      if run.outcome == Success then None else failing.since,
      if run.outcome == Success then None else failing.notified,
      if |runs| > MAX_RUNS then runs[..MAX_RUNS] else runs)
  }

  function WithCheckin(c: CheckinState, at: Time, sent: map<Part, string>, resend: seq<Part>, error: string): CheckinState {
    if error != "" then c.(lastAttempt := Some(at), lastError := error)
    else c.(lastAttempt := Some(at), lastSuccess := Some(at), lastError := "",
            acknowledged := c.acknowledged + sent, resend := resend)
  }

  /** The state a change writes, or None when it alters nothing and nothing is written. */
  function Apply(ch: Change, st: State): Option<State> {
    match ch
    case RecordRun(job, run, failing) =>
      Some(st.(jobs := st.jobs[job := WithRun(JobOf(st, job), run, failing)]))
    case MarkRunning(job, started, trigger) =>
      Some(st.(jobs := st.jobs[job := JobOf(st, job).(running := Some(Running(started, trigger)))]))
    case ClearRunning(job) =>
      if job !in st.jobs || st.jobs[job].running.None? then None
      else Some(st.(jobs := st.jobs[job := st.jobs[job].(running := None)]))
    case RecordTick(at) =>
      Some(st.(lastTick := Some(at)))
    case RecordCheckin(hostID, at, sent, resend, error) =>
      Some(st.(checkin := Some(WithCheckin(CheckinFor(st, hostID), at, sent, resend, error))))
    case RecordResticVersion(version) =>
      Some(st.(restic := Some(version)))
  }

  /** The contents after a change, written or not. */
  function After(ch: Change, st: State): State {
    match Apply(ch, st)
    case Some(next) => next
    case None => st
  }

  function Fold(st: State, changes: seq<Change>): State {
    if changes == [] then st
    else After(changes[|changes| - 1], Fold(st, changes[..|changes| - 1]))
  }

  // ----- What the changes keep -----

  /** The part of a job's state a run starts from and RecordRun alone replaces. */
  datatype Core = Core(lastRun: Time, lastOutcome: Option<Outcome>, failingSince: Option<Time>, failureNotified: Option<Time>)

  function CoreOfJob(js: JobState): Core {
    Core(js.lastRun, js.lastOutcome, js.failingSince, js.failureNotified)
  }

  function CoreOf(st: State, job: string): Core {
    CoreOfJob(JobOf(st, job))
  }

  predicate About(ch: Change, job: string) {
    (ch.RecordRun? || ch.MarkRunning? || ch.ClearRunning?) && ch.job == job
  }

  lemma OtherJobsUnchanged(ch: Change, st: State, job: string)
    requires !About(ch, job)
    ensures JobOf(After(ch, st), job) == JobOf(st, job)
  {
  }

  lemma CoreChangedByRecordRunOnly(ch: Change, st: State, job: string)
    requires !(ch.RecordRun? && ch.job == job)
    ensures CoreOf(After(ch, st), job) == CoreOf(st, job)
    ensures JobOf(After(ch, st), job).runs == JobOf(st, job).runs
  {
  }

  /** The runs recorded for a job by a list of changes, newest first. */
  function RunsIn(changes: seq<Change>, job: string): seq<RunRecord> {
    if changes == [] then []
    else
      var ch := changes[|changes| - 1];
      var earlier := RunsIn(changes[..|changes| - 1], job);
      if ch.RecordRun? && ch.job == job then [ch.run] + earlier else earlier
  }

  /** The history kept is the job's most recent runs, all of them up to
      MAX_RUNS, and last_run and last_outcome are the newest one's. */
  lemma {:induction false} HistoryIsMostRecentRuns(changes: seq<Change>, job: string)
    ensures var js, runs := JobOf(Fold(EMPTY_STATE, changes), job), RunsIn(changes, job);
            && js.runs == (if |runs| > 20 then runs[..20] else runs)
            && (runs == [] ==> js.lastRun == ZERO_TIME && js.lastOutcome == None)
            && (runs != [] ==> js.lastRun == runs[0].finished && js.lastOutcome == Some(runs[0].outcome))
  {
    if changes != [] {
      var earlier, ch := changes[..|changes| - 1], changes[|changes| - 1];
      HistoryIsMostRecentRuns(earlier, job);
      if !(ch.RecordRun? && ch.job == job) {
        CoreChangedByRecordRunOnly(ch, Fold(EMPTY_STATE, earlier), job);
      }
    }
  }

  // ----- Check-ins -----

  /** The attempts to check in under a host ID since the last one under another. */
  function Attempts(changes: seq<Change>, hostID: string): (r: seq<Change>)
    ensures forall ch :: ch in r ==> ch.RecordCheckin? && ch.hostID == hostID
  {
    if changes == [] then []
    else
      var earlier, ch := changes[..|changes| - 1], changes[|changes| - 1];
      if !ch.RecordCheckin? then Attempts(earlier, hostID)
      else if ch.hostID == hostID then Attempts(earlier, hostID) + [ch]
      else []
  }

  /** The last change of a kind. */
  function Latest(changes: seq<Change>, kind: Change -> bool): (r: Option<Change>)
    ensures r.Some? ==> kind(r.value) && r.value in changes
  {
    if changes == [] then None
    else
      var ch := changes[|changes| - 1];
      if kind(ch) then Some(ch) else Latest(changes[..|changes| - 1], kind)
  }

  const WORKED: Change -> bool := (ch: Change) => ch.RecordCheckin? && ch.error == ""

  function Sent(part: Part): Change -> bool {
    (ch: Change) => ch.RecordCheckin? && ch.error == "" && part in ch.sent
  }

  predicate AllCheckins(tries: seq<Change>) {
    forall ch :: ch in tries ==> ch.RecordCheckin?
  }

  /** The record tells the latest attempt, and the latest that worked. */
  predicate TellsOf(c: CheckinState, tries: seq<Change>)
    requires AllCheckins(tries)
  {
    var worked := Latest(tries, WORKED);
    && c.lastAttempt == (if tries == [] then None else Some(tries[|tries| - 1].at))
    && c.lastError == (if tries == [] then "" else tries[|tries| - 1].error)
    && c.lastSuccess == (match worked case Some(ch) => Some(ch.at) case None => None)
    && c.resend == (match worked case Some(ch) => ch.resend case None => [])
  }

  /** And each part acknowledged, as it was when last sent by one that worked. */
  ghost predicate AcknowledgesOf(c: CheckinState, tries: seq<Change>) {
    forall part ::
      var last := Latest(tries, Sent(part));
      && (part in c.acknowledged <==> last.Some?)
      && (last.Some? ==> part in c.acknowledged && c.acknowledged[part] == last.value.sent[part])
  }

  lemma LatestNext(tries: seq<Change>, ch: Change, kind: Change -> bool)
    ensures Latest(tries + [ch], kind) == if kind(ch) then Some(ch) else Latest(tries, kind)
  {
    assert (tries + [ch])[..|tries|] == tries;
  }

  lemma OneMoreAttempt(c: CheckinState, tries: seq<Change>, ch: Change)
    requires AllCheckins(tries) && ch.RecordCheckin? && TellsOf(c, tries) && AcknowledgesOf(c, tries)
    ensures var d := WithCheckin(c, ch.at, ch.sent, ch.resend, ch.error);
            AllCheckins(tries + [ch]) && TellsOf(d, tries + [ch]) && AcknowledgesOf(d, tries + [ch])
  {
    hide Latest;
    LatestNext(tries, ch, WORKED);
    forall part
      ensures Latest(tries + [ch], Sent(part)) == if Sent(part)(ch) then Some(ch) else Latest(tries, Sent(part))
    {
      LatestNext(tries, ch, Sent(part));
    }
  }

  /** After any changes, the record for a host ID tells of its latest attempt,
      with the error it ended in, and of the latest that worked; and knows of
      each part what the app was last sent. So an attempt finds the one before
      it to have failed exactly when that one did. */
  lemma {:induction false} CheckinIsLatest(changes: seq<Change>, hostID: string)
    ensures var c, tries := CheckinFor(Fold(EMPTY_STATE, changes), hostID), Attempts(changes, hostID);
            && c.hostID == hostID && TellsOf(c, tries) && AcknowledgesOf(c, tries)
            && (c.lastError != "" <==> tries != [] && tries[|tries| - 1].error != "")
  {
    hide TellsOf, AcknowledgesOf, WithCheckin, WithRun;
    if changes == [] {
      NoAttempts(CheckinFor(EMPTY_STATE, hostID));
    } else {
      var earlier, ch := changes[..|changes| - 1], changes[|changes| - 1];
      CheckinIsLatest(earlier, hostID);
      var c := CheckinFor(Fold(EMPTY_STATE, earlier), hostID);
      if ch.RecordCheckin? && ch.hostID == hostID {
        OneMoreAttempt(c, Attempts(earlier, hostID), ch);
        KeepsHost(c, ch);
      } else {
        NoAttempts(CheckinState(hostID, None, None, "", map[], []));
        if ch.RecordCheckin? {
          KeepsHost(CheckinFor(Fold(EMPTY_STATE, earlier), ch.hostID), ch);
        }
      }
      LastErrorTold(CheckinFor(Fold(EMPTY_STATE, changes), hostID), Attempts(changes, hostID));
    }
  }

  lemma NoAttempts(c: CheckinState)
    requires c == CheckinState(c.hostID, None, None, "", map[], [])
    ensures TellsOf(c, []) && AcknowledgesOf(c, [])
  {
  }

  lemma KeepsHost(c: CheckinState, ch: Change)
    requires ch.RecordCheckin?
    ensures WithCheckin(c, ch.at, ch.sent, ch.resend, ch.error).hostID == c.hostID
  {
  }

  lemma LastErrorTold(c: CheckinState, tries: seq<Change>)
    requires AllCheckins(tries) && TellsOf(c, tries)
    ensures c.lastError != "" <==> tries != [] && tries[|tries| - 1].error != ""
  {
  }

  // ----- The rest of the file -----

  const TICKS: Change -> bool := (ch: Change) => ch.RecordTick?
  const VERSIONS: Change -> bool := (ch: Change) => ch.RecordResticVersion?

  lemma RestAfter(ch: Change, st: State, job: string)
    ensures var t := After(ch, st);
            && t.lastTick == (if ch.RecordTick? then Some(ch.at) else st.lastTick)
            && t.restic == (if ch.RecordResticVersion? then Some(ch.version) else st.restic)
            && JobOf(t, job).running
               == if ch.MarkRunning? && ch.job == job then Some(Running(ch.started, ch.trigger))
                  else if About(ch, job) then None else JobOf(st, job).running
  {
    hide WithCheckin;
  }

  /** last_tick is the latest tick recorded, the restic version the latest
      noted, and a marker stands exactly while the last change made to the job
      was that it began. */
  lemma {:induction false} RestIsLatest(changes: seq<Change>, job: string)
    ensures var st, tick, noted := Fold(EMPTY_STATE, changes), Latest(changes, TICKS), Latest(changes, VERSIONS);
            var change := Latest(changes, (ch: Change) => About(ch, job));
            && st.lastTick == (match tick case Some(ch) => Some(ch.at) case None => None)
            && st.restic == (match noted case Some(ch) => Some(ch.version) case None => None)
            && JobOf(st, job).running
               == match change
                  case Some(MarkRunning(_, started, trigger)) => Some(Running(started, trigger))
                  case _ => None
  {
    hide After;
    if changes != [] {
      RestAfter(changes[|changes| - 1], Fold(EMPTY_STATE, changes[..|changes| - 1]), job);
      RestIsLatest(changes[..|changes| - 1], job);
    }
  }

  // ----- The store -----

  /** A state file that may be missing or damaged, and the I/O around it.
      Whether a lock is obtained or a system call works is left open, unless
      the store is sound: then nothing is held and nothing fails. */
  class Store {
    const sound: bool
    var file: Option<State>
    var damaged: bool

    /** A missing file means no job has ever run. */
    function Contents(): State
      reads this
    {
      match file
      case Some(st) => st
      case None => EMPTY_STATE
    }

    constructor (sound: bool)
      ensures Contents() == EMPTY_STATE && !damaged && this.sound == sound
    {
      file, damaged, this.sound := None, false, sound;
    }

    /** Reads without locking or creating anything. */
    method Load() returns (st: Option<State>)
      ensures st.Some? ==> !damaged && st.value == Contents()
      ensures sound && !damaged ==> st.Some?
    {
      var readable := Works();
      if damaged || !readable {
        return None;
      }
      return Some(Contents());
    }

    method Works() returns (ok: bool)
      ensures sound ==> ok
    {
      ok := *;
      ok := ok || sound;
    }

    method AcquireState() returns (ok: bool)
      ensures sound ==> ok
    {
      ok := Works();
    }

    /** Temp file, then rename: all of st or none of it. */
    method WriteAtomic(st: State) returns (ok: bool)
      modifies this
      ensures ok ==> file == Some(st) && !damaged
      ensures !ok ==> file == old(file) && damaged == old(damaged)
      ensures sound ==> ok
    {
      var created := Works();
      var written := Works();
      var closed := Works();
      var renamed := Works();
      if !created || !written || !closed || !renamed {
        return false;
      }
      file, damaged := Some(st), false;
      return true;
    }

    /** The one way the file is written. */
    method Update(change: State -> Option<State>) returns (ok: bool)
      modifies this
      ensures ok ==> !old(damaged) && !damaged
      ensures ok ==> Contents() == match change(old(Contents())) case Some(next) => next case None => old(Contents())
      ensures !ok ==> file == old(file) && damaged == old(damaged)
      ensures sound && !old(damaged) ==> ok
    {
      ok := AcquireState();
      if !ok {
        return false;
      }
      var st := Load();
      if st.None? {
        return false;
      }
      var next := change(st.value);
      if next.None? {
        return true;
      }
      ok := WriteAtomic(next.value);
    }

    method RecordRun(job: string, run: RunRecord, failing: Failing) returns (ok: bool)
      modifies this
      ensures ok ==> Contents() == After(Change.RecordRun(job, run, failing), old(Contents()))
      ensures ok ==> var js := JobOf(Contents(), job);
                     && js.failingSince == (if run.outcome == Failed then failing.since else None)
                     && js.failureNotified == (if run.outcome == Failed then failing.notified else None)
                     && js.running == None
      ensures !ok ==> file == old(file) && damaged == old(damaged)
      ensures sound && !old(damaged) ==> ok
    {
      ok := Update((st: State) =>
        var js := JobOf(st, job);
        var js1 := js.(lastRun := run.finished, lastOutcome := Some(run.outcome), running := None);
        var js2 := js1.(failingSince := failing.since, failureNotified := failing.notified);
        var js3 := if run.outcome == Success then js2.(failingSince := None, failureNotified := None) else js2;
        var runs := [run] + js3.runs;
        var js4 := js3.(runs := if |runs| > MAX_RUNS then runs[..MAX_RUNS] else runs);
        Some(st.(jobs := st.jobs[job := js4])));
    }

    method MarkRunning(job: string, started: Time, trigger: Trigger) returns (ok: bool)
      modifies this
      ensures ok ==> Contents() == After(Change.MarkRunning(job, started, trigger), old(Contents()))
      ensures ok ==> JobOf(Contents(), job) == old(JobOf(Contents(), job)).(running := Some(Running(started, trigger)))
      ensures !ok ==> file == old(file) && damaged == old(damaged)
      ensures sound && !old(damaged) ==> ok
    {
      ok := Update((st: State) =>
        Some(st.(jobs := st.jobs[job := JobOf(st, job).(running := Some(Running(started, trigger)))])));
    }

    method ClearRunning(job: string) returns (ok: bool)
      modifies this
      ensures ok ==> Contents() == After(Change.ClearRunning(job), old(Contents()))
      ensures ok ==> JobOf(Contents(), job).running == None
      ensures !ok ==> file == old(file) && damaged == old(damaged)
      ensures sound && !old(damaged) ==> ok
    {
      ok := Update((st: State) =>
        if job !in st.jobs || st.jobs[job].running.None? then None
        else Some(st.(jobs := st.jobs[job := st.jobs[job].(running := None)])));
    }

    method RecordTick(at: Time) returns (ok: bool)
      modifies this
      ensures ok ==> Contents() == After(Change.RecordTick(at), old(Contents()))
      ensures ok ==> Contents() == old(Contents()).(lastTick := Some(at))
      ensures !ok ==> file == old(file) && damaged == old(damaged)
      ensures sound && !old(damaged) ==> ok
    {
      ok := Update((st: State) => Some(st.(lastTick := Some(at))));
    }

    /** wasFailing is whether the attempt before this one had failed. */
    method RecordCheckin(hostID: string, at: Time, sent: map<Part, string>, resend: seq<Part>, error: string)
      returns (wasFailing: bool, ok: bool)
      modifies this
      ensures ok ==> Contents() == After(Change.RecordCheckin(hostID, at, sent, resend, error), old(Contents()))
      ensures ok ==> wasFailing == (CheckinFor(old(Contents()), hostID).lastError != "")
      ensures !ok ==> file == old(file) && damaged == old(damaged)
      ensures sound && !old(damaged) ==> ok
    {
      wasFailing := CheckinFor(Contents(), hostID).lastError != "";
      ok := Update((st: State) =>
        var c := CheckinFor(st, hostID).(lastAttempt := Some(at));
        Some(st.(checkin := Some(
          if error != "" then c.(lastError := error)
          else c.(lastSuccess := Some(at), lastError := "", acknowledged := c.acknowledged + sent, resend := resend)))));
      if !ok {
        // Set by the change itself, which a failed update need not have reached.
        var reached := *;
        wasFailing := wasFailing && reached;
      }
    }
  }
}
