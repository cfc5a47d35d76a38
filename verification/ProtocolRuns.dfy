/** Every run a job makes, recorded or not, over whole runs of the system: what
    its notifications did is what its history decides, and what is recorded of
    the job is what its recorded runs left. */
module ProtocolRuns {
  import opened Wrappers
  import opened Schedule
  import opened StateFile
  import opened Notifications
  import opened Protocol
  import opened ProtocolLocks
  import opened ProtocolState
  import opened ProtocolJobs

  // ----- The invariant -----

  predicate Finished(h: History, at: Time) {
    h.runs != [] ==> h.runs[|h.runs| - 1].finished <= at
  }

  predicate Recorded(js: JobState, h: History) {
    forall j :: 0 <= j < |h.runs| && h.runs[j].recorded ==> ZERO_TIME < h.runs[j].finished <= js.lastRun
  }

  /** A run found due was found so in a later period than any recorded run
      before it finished in. */
  predicate Apart(sched: string, h: History)
    requires |h.due| == |h.runs|
  {
    forall j, k :: 0 <= j < k < |h.runs| && h.runs[j].recorded && h.due[k].Some? && Known(sched) ==>
      Truncate(h.runs[j].finished, sched).value < Truncate(h.due[k].value, sched).value
  }

  predicate Kept(c: Config, job: string, js: JobState, clock: Time, h: History) {
    && |h.did| == |h.due| == |h.runs|
    && Timed(h.runs) && Finished(h, clock) && Recorded(js, h)
    && Apart(JobConfig(c, job).schedule, h)
  }

  /** What is recorded, and what each run did, is what the history says. */
  predicate Decided(js: JobState, h: History)
    requires |h.did| == |h.runs|
  {
    && CoreOfJob(js) == CoreOfJob(StateAfter(h.runs))
    && forall k :: 0 <= k < |h.runs| ==> h.did[k] == NoticeAt(h.runs, k)
  }

  /** The runs of a history that were recorded, and the failing times each left. */
  function OnRecord(runs: seq<Notifications.Run>, did: seq<Notice>): seq<(Notifications.Run, Failing)>
    requires |did| == |runs|
  {
    if runs == [] then []
    else
      var n := |runs| - 1;
      OnRecord(runs[..n], did[..n]) + if runs[n].recorded then [(runs[n], did[n].failing)] else []
  }

  predicate Records(e: Entry, job: string) {
    e.change.RecordRun? && e.change.job == job
  }

  /** What the log of commits says of the same. */
  function Logged(log: seq<Entry>, job: string): seq<(Notifications.Run, Failing)> {
    if log == [] then []
    else
      var last := log[|log| - 1];
      Logged(log[..|log| - 1], job) + if Records(last, job) then [(last.notice.(recorded := true), last.change.failing)] else []
  }

  predicate MakingRecord(pr: Proc) {
    pr.pc.Update? && pr.pc.phase == Recording && Recording !in pr.oks
  }

  /** Before its own run the last has finished; and then its own is the last. */
  predicate HolderOk(h: History, pr: Proc) {
    && (AfterStamp(pr.pc) && !(pr.pc.Update? && pr.pc.phase == Recording) ==> Finished(h, pr.started))
    && (MakingRecord(pr) ==>
          var n := |h.runs| - 1;
          && |h.did| == |h.runs| && n >= 0
          && h.runs[n] == pr.notice && !pr.notice.recorded && h.did[n].failing == pr.failing)
  }

  ghost predicate JobKept(c: Config, s: Sys, job: string) {
    && Kept(c, job, JobOf(s.file, job), s.clock, HistoryOf(s, job))
    && OnRecord(HistoryOf(s, job).runs, HistoryOf(s, job).did) == Logged(s.log, job)
    && (CoreOf(s.initial, job) == CoreOfJob(NEVER_RAN) ==> Decided(JobOf(s.file, job), HistoryOf(s, job)))
  }

  ghost predicate RunsInv(c: Config, s: Sys) {
    && (forall job :: JobKept(c, s, job))
    && forall p :: 0 <= p < |s.procs| && HoldsJob(c, s.procs[p]) ==> HolderOk(HistoryOf(s, JobName(s.procs[p])), s.procs[p])
  }

  // ----- A run is made -----

  /** What its RunJob did is what the history, with this run added, decides. */
  lemma MadeIsDecided(js: JobState, h: History, q: Proc)
    requires |h.did| == |h.runs| && Decided(js, h) && !q.notice.recorded && q.notice.told == q.prior.Some?
    requires q.prior.Some? ==> q.prior.value == CoreOfJob(js)
    ensures Decided(js, WithRunMade(h, q))
  {
    hide Decide, StateAfter;
    var n, g := |h.runs|, WithRunMade(h, q);
    assert g.runs[..n] == h.runs;
    StateStep(g.runs, n);
    assert g.runs[..n + 1] == g.runs;
    forall k | 0 <= k < n
      ensures NoticeAt(g.runs, k) == NoticeAt(h.runs, k)
    {
      assert g.runs[..k] == h.runs[..k];
    }
  }

  lemma MadeIsApart(c: Config, js: JobState, h: History, q: Proc)
    requires |h.due| == |h.runs| && Recorded(js, h) && Apart(JobConfig(c, JobName(q)).schedule, h) && !q.notice.recorded
    requires q.dueAt.Some? ==> js.lastRun <= q.dueAt.value && StillDue(c, JobName(q), js.lastRun, q.dueAt.value)
    ensures Recorded(js, WithRunMade(h, q)) && Apart(JobConfig(c, JobName(q)).schedule, WithRunMade(h, q))
  {
    hide StillDue;
    var sched, n, g := JobConfig(c, JobName(q)).schedule, |h.runs|, WithRunMade(h, q);
    forall j | 0 <= j < n && h.runs[j].recorded && q.dueAt.Some? && Known(sched)
      ensures Truncate(h.runs[j].finished, sched).value < Truncate(q.dueAt.value, sched).value
    {
      DueIsLaterPeriod(c, JobName(q), sched, js.lastRun, q.dueAt.value);
      TruncateMonotone(sched, h.runs[j].finished, js.lastRun);
    }
  }

  lemma MadeIsTimed(h: History, started: Time, q: Proc)
    requires Timed(h.runs) && Finished(h, started)
    requires started <= q.notice.started <= q.notice.asked <= q.notice.sent <= q.notice.finished
    ensures Timed(WithRunMade(h, q).runs) && Finished(WithRunMade(h, q), q.notice.finished)
  {
    hide Decide;
    var n, g := |h.runs|, WithRunMade(h, q).runs;
    forall j, k | 0 <= j < k < |g|
      ensures g[j].finished <= g[k].started
    {
      if k == n && j < n - 1 {
        assert h.runs[j].finished <= h.runs[n - 1].started;
      }
    }
  }

  lemma MadeIsUnrecorded(h: History, q: Proc)
    requires |h.did| == |h.runs| && !q.notice.recorded
    ensures var g := WithRunMade(h, q); OnRecord(g.runs, g.did) == OnRecord(h.runs, h.did)
  {
    hide Decide;
    var n, g := |h.runs|, WithRunMade(h, q);
    assert g.runs[..n] == h.runs && g.did[..n] == h.did;
  }

  /** The step by which RunJob ends. */
  lemma RunEnds(c: Config, intr: bool, pr: Proc, e: Event, q: Proc)
    requires LocalStep(c, intr, pr, e, q) && pr.pc == Pc.Running
    ensures pr.kind.Work? && e.Clock? && Notified(pr, q.run, q.failing, q.notice, e.now)
    ensures q == pr.(pc := Update(Recording, Want), run := q.run, failing := q.failing, notice := q.notice, saves := q.saves)
  {
    hide Repositories, StillDue, Decide;
  }

  /** What is so when RunJob ends, of the job's state and the history before. */
  lemma BeforeMade(c: Config, s: Sys, p: nat, e: Event, q: Proc)
    requires JobInv(c, s) && RunsInv(c, s) && Guard(c, s, Do(p, e, q)) && s.procs[p].pc == Pc.Running
    ensures var pr, job := s.procs[p], JobName(q);
            var js, n := JobOf(s.file, job), q.notice;
            && job == JobName(pr) && Finished(HistoryOf(s, job), pr.started) && HoldsJob(c, pr)
            && !n.recorded && n.told == q.prior.Some? && (q.prior.Some? ==> q.prior.value == CoreOfJob(js))
            && pr.started <= n.started <= n.asked <= n.sent <= n.finished == s.clock
            && (q.dueAt.Some? ==> js.lastRun <= q.dueAt.value && StillDue(c, job, js.lastRun, q.dueAt.value))
            && q.failing == Decide(PriorFrom(q.prior), n).failing
  {
    hide StateInv, ProcsOk, LogOk, LocalStep, StillDue, Decide, CoreOfJob, JobOf, HistoryOf, JobKept, Count;
    var pr := s.procs[p];
    RunEnds(c, s.groups[pr.group].interrupted, pr, e, q);
    ProcOkOf(c, s, p);
    LoadedHoldsJob(c, pr);
    assert HolderOk(HistoryOf(s, JobName(q)), pr);
  }

  lemma MadeHolder(h: History, q: Proc)
    requires |h.did| == |h.runs| && !q.notice.recorded && q.failing == Decide(PriorFrom(q.prior), q.notice).failing
    requires AfterStamp(q.pc) ==> q.pc.Update? && q.pc.phase == Recording
    ensures HolderOk(WithRunMade(h, q), q)
  {
    hide Decide;
  }

  lemma MadeKept(c: Config, s: Sys, p: nat, e: Event, q: Proc)
    requires JobInv(c, s) && RunsInv(c, s) && Guard(c, s, Do(p, e, q)) && s.procs[p].pc == Pc.Running
    ensures var job, h := JobName(q), WithRunMade(HistoryOf(s, JobName(q)), q);
            && job == JobName(s.procs[p]) && HolderOk(h, q)
            && Kept(c, job, JobOf(s.file, job), s.clock, h)
            && OnRecord(h.runs, h.did) == Logged(s.log, job)
            && (CoreOf(s.initial, job) == CoreOfJob(NEVER_RAN) ==> Decided(JobOf(s.file, job), h))
  {
    hide JobInv, LocalStep, EventAllowed, HoldsJob, StillDue, Decide, CoreOfJob, JobOf, HistoryOf, Decided, Apart, Recorded, Timed,
         Finished, OnRecord, Logged, HolderOk;
    var pr, job := s.procs[p], JobName(q);
    var h, js := HistoryOf(s, job), JobOf(s.file, job);
    BeforeMade(c, s, p, e, q);
    RunEnds(c, s.groups[pr.group].interrupted, pr, e, q);
    assert JobKept(c, s, job);
    MadeHolder(h, q);
    MadeIsApart(c, js, h, q);
    MadeIsTimed(h, pr.started, q);
    MadeIsUnrecorded(h, q);
    if CoreOf(s.initial, job) == CoreOfJob(NEVER_RAN) {
      MadeIsDecided(js, h, q);
    }
  }

  // ----- A run is recorded -----

  /** On top of what its history had left: the record leaves what the history
      says with this run recorded. */
  lemma RecordedIsDecided(js: JobState, h: History, run: RunRecord, failing: Failing)
    requires |h.did| == |h.runs| && Decided(js, h) && h.runs != []
    requires var n := |h.runs| - 1;
             && !h.runs[n].recorded && h.did[n].failing == failing
             && run.outcome == (if h.runs[n].success then Success else Failed) && run.finished == h.runs[n].finished
    ensures Decided(WithRun(js, run, failing), WithLastRecorded(h))
  {
    hide Decide, StateAfter, WithRun;
    var n, g := |h.runs| - 1, WithLastRecorded(h);
    StateStep(h.runs, n);
    assert h.runs[..n + 1] == h.runs;
    assert g.runs[..n] == h.runs[..n];
    StateStep(g.runs, n);
    assert g.runs[..n + 1] == g.runs;
    RecordDoesNotMatter(PriorAt(h.runs, n), h.runs[n], g.runs[n]);
    SameCore(js, StateAfter(h.runs), run, RecordOf(g.runs[n]), failing);
    forall k | 0 <= k < n
      ensures NoticeAt(g.runs, k) == NoticeAt(h.runs, k)
    {
      assert g.runs[..k] == h.runs[..k];
    }
  }

  lemma RecordDoesNotMatter(prior: Prior, run: Notifications.Run, again: Notifications.Run)
    requires again == run.(recorded := true)
    ensures Decide(prior, again) == Decide(prior, run)
  {
  }

  lemma SameCore(js: JobState, before: JobState, run: RunRecord, other: RunRecord, failing: Failing)
    requires CoreOfJob(js) == CoreOfJob(before) && run.outcome == other.outcome && run.finished == other.finished
    ensures CoreOfJob(WithRun(js, run, failing)) == CoreOfJob(WithRun(before, other, failing))
  {
  }

  lemma RecordedIsKept(c: Config, job: string, js: JobState, after: JobState, clock: Time, h: History)
    requires Kept(c, job, js, clock, h) && h.runs != []
    requires js.lastRun <= after.lastRun == h.runs[|h.runs| - 1].finished && ZERO_TIME < after.lastRun
    ensures Kept(c, job, after, clock, WithLastRecorded(h))
  {
    hide Truncate, Known;
  }

  lemma RecordedIsLogged(h: History, log: seq<Entry>, e: Entry, job: string)
    requires |h.did| == |h.runs| && h.runs != [] && OnRecord(h.runs, h.did) == Logged(log, job) && Records(e, job)
    requires var n := |h.runs| - 1; h.runs[n] == e.notice && !h.runs[n].recorded && h.did[n].failing == e.change.failing
    ensures var g := WithLastRecorded(h); OnRecord(g.runs, g.did) == Logged(log + [e], job)
  {
    hide OnRecord, Logged;
    var n, g := |h.runs| - 1, WithLastRecorded(h);
    OneMoreOnRecord(h.runs, h.did);
    OneMoreOnRecord(g.runs, g.did);
    assert g.runs[..n] == h.runs[..n];
    OneMoreLogged(log, e, job);
  }

  lemma OneMoreOnRecord(runs: seq<Notifications.Run>, did: seq<Notice>)
    requires |did| == |runs| && runs != []
    ensures var n := |runs| - 1;
            OnRecord(runs, did) == OnRecord(runs[..n], did[..n]) + if runs[n].recorded then [(runs[n], did[n].failing)] else []
  {
  }

  lemma OneMoreLogged(log: seq<Entry>, e: Entry, job: string)
    requires Records(e, job)
    ensures Logged(log + [e], job) == Logged(log, job) + [(e.notice.(recorded := true), e.change.failing)]
  {
    assert (log + [e])[..|log|] == log;
  }

  lemma NotLogged(log: seq<Entry>, e: Entry, job: string)
    requires !Records(e, job)
    ensures Logged(log + [e], job) == Logged(log, job)
  {
    assert (log + [e])[..|log|] == log;
  }

  lemma RecordedKept(c: Config, s: Sys, p: nat, e: Event, q: Proc)
    requires JobInv(c, s) && RunsInv(c, s) && Guard(c, s, Do(p, e, q)) && e.Puts? && e.change.RecordRun?
    ensures var job, h := e.change.job, WithLastRecorded(HistoryOf(s, e.change.job));
            && job == JobName(q) == JobName(s.procs[p]) && HolderOk(h, q) && HoldsJob(c, s.procs[p])
            && Kept(c, job, JobOf(After(e.change, s.file), job), s.clock, h)
            && OnRecord(h.runs, h.did) == Logged(s.log + [EntryFor(p, e, q)], job)
            && (CoreOf(s.initial, job) == CoreOfJob(NEVER_RAN) ==> Decided(JobOf(After(e.change, s.file), job), h))
  {
    hide InOrder, InFlight, LockInv, LogExact, ProcsOk, LogOk, LocalStep, EventAllowed, Protocol.Next, StillDue, Decide, CoreOfJob,
         HistoryOf, Decided, Kept, ProcWf, Blank, HoldsJob, WithRun;
    var pr, job := s.procs[p], e.change.job;
    var h := HistoryOf(s, job);
    CommitApplies(c, s, p, e, q);
    ProcOkOf(c, s, p);
    RecordRunTimes(c, pr, e.phase);
    assert JobKept(c, s, job);
    assert HolderOk(h, pr) && MakingRecord(pr);
    assert NoticeFits(JobOf(s.file, job).lastRun, pr.run, pr.notice);
    LastRunAfter(e.change, s.file, job);
    RecordedIsKept(c, job, JobOf(s.file, job), JobOf(After(e.change, s.file), job), s.clock, h);
    RecordedIsLogged(h, s.log, EntryFor(p, e, q), job);
    if CoreOf(s.initial, job) == CoreOfJob(NEVER_RAN) {
      RecordedIsDecided(JobOf(s.file, job), h, pr.run, pr.failing);
    }
  }

  // ----- Any step -----

  lemma HistoryNext(s: Sys, p: nat, e: Event, q: Proc, job: string)
    requires p < |s.procs|
    ensures HistoryOf(Protocol.Next(s, Do(p, e, q)), job)
         == if s.procs[p].pc == Pc.Running && job == JobName(q) then WithRunMade(HistoryOf(s, job), q)
            else if s.procs[p].pc != Pc.Running && e.Puts? && e.change.RecordRun? && job == e.change.job
            then WithLastRecorded(HistoryOf(s, job))
            else HistoryOf(s, job)
  {
    hide WithRunMade, WithLastRecorded;
  }

  /** A history is about a job whose lock is held, when a step adds to it. */
  lemma JobKeptAfterDo(c: Config, s: Sys, p: nat, e: Event, q: Proc, job: string)
    requires JobInv(c, s) && RunsInv(c, s) && Guard(c, s, Do(p, e, q))
    ensures JobKept(c, Protocol.Next(s, Do(p, e, q)), job)
  {
    hide InOrder, InFlight, LockInv, LogExact, ProcsOk, LogOk, LocalStep, EventAllowed, Protocol.Next, HistoryOf, Decided, Kept,
         CoreOf, JobOf, WithRunMade, WithLastRecorded, After, HolderOk;
    assert JobKept(c, s, job);
    HistoryNext(s, p, e, q, job);
    NextFile(s, p, e, q);
    if s.procs[p].pc == Pc.Running {
      MadeKept(c, s, p, e, q);
      RunEnds(c, s.groups[s.procs[p].group].interrupted, s.procs[p], e, q);
    } else if Commits(e) {
      CommitApplies(c, s, p, e, q);
      if e.change.RecordRun? && e.change.job == job {
        RecordIsPut(c, s.groups[s.procs[p].group].interrupted, s.procs[p], e, q);
        RecordedKept(c, s, p, e, q);
      } else {
        NotLogged(s.log, EntryFor(p, e, q), job);
        CoreUnchanged(e.change, s.file, job);
        SameCoreKept(c, job, JobOf(s.file, job), JobOf(After(e.change, s.file), job), s.clock, HistoryOf(s, job));
      }
    }
  }

  /** Recording a run always alters the file. */
  lemma RecordIsPut(c: Config, intr: bool, pr: Proc, e: Event, q: Proc)
    requires LocalStep(c, intr, pr, e, q) && Commits(e) && e.change.RecordRun?
    ensures e.Puts?
  {
    hide LocalStep, ChangeOf, JobOf, WithRun;
    OnlyUpdatesCommit(c, intr, pr, e, q);
  }

  lemma CoreUnchanged(ch: Change, st: State, job: string)
    requires !(ch.RecordRun? && ch.job == job)
    ensures CoreOfJob(JobOf(After(ch, st), job)) == CoreOfJob(JobOf(st, job))
  {
    CoreChangedByRecordRunOnly(ch, st, job);
  }

  lemma SameCoreKept(c: Config, job: string, js: JobState, after: JobState, clock: Time, h: History)
    requires Kept(c, job, js, clock, h) && CoreOfJob(after) == CoreOfJob(js)
    ensures Kept(c, job, after, clock, h) && (Decided(js, h) ==> Decided(after, h))
  {
    hide Truncate, Known, Timed, NoticeAt;
  }

  lemma UpdateHolder(pr: Proc, phase: Phase, io: Io, e: Event, q: Proc, h: History)
    requires pr.pc == Update(phase, io) && UpdateStep(pr, phase, io, e, q) && !Commits(e) && HolderOk(h, pr)
    ensures HolderOk(h, q)
  {
    hide Finished, Apply;
  }

  lemma StampHolder(c: Config, s: Sys, intr: bool, pr: Proc, e: Event, q: Proc, h: History)
    requires pr.kind.Work? && pr.pc == Stamp && LocalStep(c, intr, pr, e, q) && EventAllowed(s, pr, e) && Finished(h, s.clock)
    ensures HolderOk(h, q)
  {
    hide Finished, Repositories, StillDue;
  }

  /** Before its own start is set, and after its run, a process promises nothing. */
  lemma EarlyHolder(c: Config, intr: bool, pr: Proc, e: Event, q: Proc, h: History)
    requires pr.kind.Work? && LocalStep(c, intr, pr, e, q) && !pr.pc.Update? && pr.pc != Stamp && pr.pc != Pc.Running
    ensures HolderOk(h, q)
  {
    hide Finished, Repositories, StillDue, AcquireStep, RunStep;
    if !pr.pc.Unwind? && AcquireStep(c, intr, pr, e, q) {
      AcquireHolder(c, intr, pr, e, q, h);
    } else if !pr.pc.Unwind? {
      RunHolder(c, pr, e, q, h);
    }
  }

  lemma AcquireHolder(c: Config, intr: bool, pr: Proc, e: Event, q: Proc, h: History)
    requires pr.kind.Work? && AcquireStep(c, intr, pr, e, q)
    ensures HolderOk(h, q)
  {
    hide Finished, Repositories, StillDue;
  }

  lemma RunHolder(c: Config, pr: Proc, e: Event, q: Proc, h: History)
    requires pr.kind.Work? && RunStep(c, pr, e, q) && pr.pc != Stamp && pr.pc != Pc.Running
    ensures HolderOk(h, q)
  {
    hide Finished, Repositories, Notified;
  }

  /** A step that neither ends RunJob nor commits keeps what its process promises. */
  lemma HolderStep(c: Config, s: Sys, intr: bool, pr: Proc, e: Event, q: Proc, h: History)
    requires ProcWf(c, pr) && pr.kind.Work? && pr.pc != Pc.Running
    requires LocalStep(c, intr, pr, e, q) && EventAllowed(s, pr, e) && !Commits(e)
    requires Finished(h, s.clock) && (HoldsJob(c, pr) ==> HolderOk(h, pr))
    ensures HolderOk(h, q)
  {
    hide Finished, Repositories, AcquireStep, RunStep, UpdateStep, EventAllowed, HolderOk, Count, HoldsJob, ProcWf;
    if pr.pc.Update? {
      StepIsUpdate(c, intr, pr, e, q);
      UpdaterHoldsJob(c, pr);
      UpdateHolder(pr, pr.pc.phase, pr.pc.io, e, q, h);
    } else if pr.pc == Stamp {
      StampHolder(c, s, intr, pr, e, q, h);
    } else {
      EarlyHolder(c, intr, pr, e, q, h);
    }
  }

  /** One that commits anything but a run does too. */
  lemma CommitHolder(pr: Proc, phase: Phase, q: Proc, h: History)
    requires pr.pc.Update? && pr.pc.phase == phase && q == pr.(pc := Update(phase, Unlock), oks := pr.oks + {phase})
    requires HolderOk(h, pr)
    ensures HolderOk(h, q)
  {
    hide Finished;
  }

  lemma SelfHolder(c: Config, s: Sys, p: nat, e: Event, q: Proc)
    requires JobInv(c, s) && RunsInv(c, s) && Guard(c, s, Do(p, e, q)) && HoldsJob(c, q)
    ensures HolderOk(HistoryOf(Protocol.Next(s, Do(p, e, q)), JobName(q)), q)
  {
    hide InOrder, InFlight, LockInv, LogExact, ProcsOk, LogOk, LocalStep, EventAllowed, Protocol.Next, HistoryOf, Decided, HoldsJob,
         CoreOf, JobOf, WithRunMade, WithLastRecorded, After, HolderOk, Apart, Timed, Recorded, ProcWf, Blank, ProcOk, ChangeOf;
    var pr := s.procs[p];
    var intr := s.groups[pr.group].interrupted;
    ProcOkOf(c, s, p);
    LocalHolds(c, intr, pr, e, q);
    SelfAfterDo(c, s, p, e, q);
    WorkHolds(c, q);
    HistoryNext(s, p, e, q, JobName(q));
    assert JobKept(c, s, JobName(q));
    if pr.pc == Pc.Running {
      MadeKept(c, s, p, e, q);
    } else if Commits(e) {
      CommitApplies(c, s, p, e, q);
      UpdaterHoldsJob(c, pr);
      if e.Puts? && e.change.RecordRun? {
        RecordedKept(c, s, p, e, q);
      } else {
        CommitHolder(pr, e.phase, q, HistoryOf(s, JobName(q)));
      }
    } else {
      HolderStep(c, s, intr, pr, e, q, HistoryOf(s, JobName(q)));
    }
  }

  lemma WorkHolds(c: Config, pr: Proc)
    requires HoldsJob(c, pr)
    ensures pr.kind.Work?
  {
    hide Count;
  }

  /** Histories change under the job's lock only. */
  lemma OtherHolder(c: Config, s: Sys, p: nat, e: Event, q: Proc, i: nat)
    requires JobInv(c, s) && RunsInv(c, s) && Guard(c, s, Do(p, e, q)) && i < |s.procs| && i != p && HoldsJob(c, s.procs[i])
    ensures HolderOk(HistoryOf(Protocol.Next(s, Do(p, e, q)), JobName(s.procs[i])), s.procs[i])
  {
    hide InOrder, InFlight, LogExact, LockInv, ProcsOk, LogOk, LocalStep, EventAllowed, Protocol.Next, HistoryOf, Decided, HoldsJob,
         CoreOf, JobOf, WithRunMade, WithLastRecorded, After, HolderOk, Kept, ProcWf, Blank, ProcOk, ChangeOf, JobKept;
    var job := JobName(s.procs[i]);
    HistoryNext(s, p, e, q, job);
    if s.procs[p].pc == Pc.Running {
      RunEnds(c, s.groups[s.procs[p].group].interrupted, s.procs[p], e, q);
      ProcOkOf(c, s, p);
      LoadedHoldsJob(c, s.procs[p]);
      if job == JobName(q) {
        OneHolder(c, s, p, i);
      }
    } else if e.Puts? && e.change.RecordRun? {
      RecordedKept(c, s, p, e, q);
      if job == e.change.job {
        OneHolder(c, s, p, i);
      }
    }
  }

  lemma DoKeepsRuns(c: Config, s: Sys, p: nat, e: Event, q: Proc)
    requires JobInv(c, s) && RunsInv(c, s) && Guard(c, s, Do(p, e, q))
    ensures RunsInv(c, Protocol.Next(s, Do(p, e, q)))
  {
    hide JobInv, LocalStep, EventAllowed, Protocol.Next, HistoryOf, HoldsJob, HolderOk, JobKept;
    var t := Protocol.Next(s, Do(p, e, q));
    NextFile(s, p, e, q);
    forall job
      ensures JobKept(c, t, job)
    {
      JobKeptAfterDo(c, s, p, e, q, job);
    }
    forall i | 0 <= i < |t.procs| && HoldsJob(c, t.procs[i])
      ensures HolderOk(HistoryOf(t, JobName(t.procs[i])), t.procs[i])
    {
      if i == p {
        SelfHolder(c, s, p, e, q);
      } else {
        assert t.procs[i] == s.procs[i];
        OtherHolder(c, s, p, e, q, i);
      }
    }
  }

  /** Steps that run nothing: the clock may go on, processes end or begin. */
  lemma QuietKeepsRuns(c: Config, s: Sys, t: Sys)
    requires RunsInv(c, s) && t.file == s.file && t.initial == s.initial && t.log == s.log && t.ran == s.ran && s.clock <= t.clock
    requires forall p :: 0 <= p < |t.procs| && HoldsJob(c, t.procs[p]) ==> p < |s.procs| && t.procs[p] == s.procs[p]
    ensures RunsInv(c, t)
  {
    hide HolderOk, Decided, Apart, Timed, Recorded, HoldsJob;
    forall job
      ensures JobKept(c, t, job)
    {
      assert JobKept(c, s, job);
    }
  }

  lemma StepKeepsRuns(c: Config, s: Sys, l: Label)
    requires JobInv(c, s) && RunsInv(c, s) && Guard(c, s, l)
    ensures RunsInv(c, Protocol.Next(s, l))
  {
    hide StateInv, LocalStep, EventAllowed, ClockOk, LogOk, ProcOk, HoldsJob, RunsInv;
    var t := Protocol.Next(s, l);
    match l
    case Do(p, e, q) => DoKeepsRuns(c, s, p, e, q);
    case Kill(g) =>
      forall p | 0 <= p < |t.procs|
        ensures HoldsJob(c, t.procs[p]) ==> t.procs[p] == s.procs[p]
      {
        EndedHoldsNoJob(c, s.procs[p]);
      }
      QuietKeepsRuns(c, s, t);
    case Spawn(g) =>
      FreshHoldsNoJob(c, Work(s.groups[g].due[s.groups[g].next], s.groups[g].trigger), g);
      QuietKeepsRuns(c, s, t);
    case Arrive(group, kinds) =>
      forall p | |s.procs| <= p < |t.procs|
        ensures !HoldsJob(c, t.procs[p])
      {
        FreshHoldsNoJob(c, kinds[p - |s.procs|], |s.groups|);
      }
      QuietKeepsRuns(c, s, t);
    case _ => QuietKeepsRuns(c, s, t);
  }

  lemma InitRuns(c: Config, s: Sys)
    requires Init(s)
    ensures RunsInv(c, s)
  {
    forall job
      ensures JobKept(c, s, job)
    {
    }
  }

  lemma {:induction false} RunsAlways(c: Config, b: seq<Sys>, i: nat)
    requires Behaviour(c, b) && i < |b|
    ensures RunsInv(c, b[i])
  {
    hide JobInv, Guard, RunsInv, Protocol.Next, Init;
    if i == 0 {
      InitRuns(c, b[0]);
    } else {
      RunsAlways(c, b, i - 1);
      JobsAlways(c, b, i - 1);
      var l := StepLabel(c, b, i - 1);
      StepKeepsRuns(c, b[i - 1], l);
    }
  }
}
