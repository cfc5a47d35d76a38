/** What a job's lock protects: its recorded outcome, its running marker, its
    snapshot lists, and the schedule's promise of one run a period. */
module ProtocolJobs {
  import opened Wrappers
  import Notifications
  import opened Schedule
  import opened StateFile
  import opened Protocol
  import opened ProtocolLocks
  import opened ProtocolState

  // ----- One process that holds its job's lock -----

  /** The running marker the holder has left in the state file. */
  function MarkerOf(pr: Proc): Option<Running> {
    if Marking in pr.oks && Recording !in pr.oks then Some(StateFile.Running.Running(pr.started, TriggerOf(pr))) else None
  }

  predicate AfterLoad(pc: Pc) {
    match pc
    case Stamp => true
    case Running => true
    case Update(phase, _) => phase == Marking || phase == Recording
    case _ => false
  }

  /** What it read before its run is still what is recorded. */
  predicate PriorOk(js: JobState, pr: Proc) {
    AfterLoad(pr.pc) && Recording !in pr.oks && pr.prior.Some? ==> pr.prior.value == CoreOfJob(js)
  }

  /** Once it has cleared what a killed run left, the marker is its own. */
  predicate MarkerOk(js: JobState, pr: Proc) {
    Clearing in pr.oks ==> js.running == MarkerOf(pr)
  }

  predicate ListsOk(lists: map<string, SnapshotList>, pr: Proc) {
    pr.pc.SaveSnapshots? ==> pr.pc.lists == if pr.pc.read then lists else map[]
  }

  /** The run it is making is due with respect to the last one recorded. */
  predicate DueOk(c: Config, js: JobState, clock: Time, pr: Proc) {
    && js.lastRun <= clock && ZERO_TIME < clock
    && (pr.pc.CheckNow? ==> pr.pc.lastRun == js.lastRun)
    && (Recording !in pr.oks && pr.dueAt.Some? ==>
          js.lastRun <= pr.dueAt.value <= clock && StillDue(c, JobName(pr), js.lastRun, pr.dueAt.value))
    && (Recording !in pr.oks && pr.pc.Update? && pr.pc.phase == Recording ==>
          && js.lastRun <= pr.run.finished <= clock && ZERO_TIME < pr.run.finished
          && (pr.dueAt.Some? ==> pr.dueAt.value <= pr.run.finished))
  }

  /** Whether its own start is set. */
  predicate AfterStamp(pc: Pc) {
    AfterLoad(pc) && pc != Stamp
  }

  /** A run and its notifications agree, and come after the run before. */
  predicate NoticeFits(lastRun: Time, run: RunRecord, n: Notifications.Run) {
    && run.outcome == (if n.success then Success else Failed) && n.finished == run.finished
    && lastRun <= n.started <= n.asked <= n.sent <= n.finished
  }

  /** What it is about to record of its notifications is what they came to. */
  predicate NoticeOk(js: JobState, clock: Time, pr: Proc) {
    Recording !in pr.oks ==>
      && (AfterStamp(pr.pc) ==> js.lastRun <= pr.started <= clock)
      && (pr.pc.Update? && pr.pc.phase == Recording ==>
            && pr.failing == Notifications.Decide(PriorFrom(pr.prior), pr.notice).failing && pr.notice.told == pr.prior.Some?
            && NoticeFits(js.lastRun, pr.run, pr.notice))
  }

  predicate HoldsJob(c: Config, pr: Proc) {
    pr.kind.Work? && Count(c, pr) >= 1
  }

  predicate ProcOk(c: Config, js: JobState, lists: map<string, SnapshotList>, clock: Time, pr: Proc) {
    PriorOk(js, pr) && MarkerOk(js, pr) && ListsOk(lists, pr) && DueOk(c, js, clock, pr) && NoticeOk(js, clock, pr)
  }

  /** A process that has not begun has nothing yet; a writer leaves jobs alone. */
  predicate Blank(pr: Proc) {
    && (pr.pc.Start? ==> pr == Fresh(pr.kind, pr.group))
    && (pr.kind.Writer? ==> pr.kind.change.RecordTick? || pr.kind.change.RecordCheckin? || pr.kind.change.RecordResticVersion?)
  }

  // ----- Its own steps -----

  lemma AcquireOk(c: Config, intr: bool, s: Sys, pr: Proc, e: Event, q: Proc)
    requires ProcWf(c, pr) && InOrder(pr) && Blank(pr) && pr.kind.Work?
    requires AcquireStep(c, intr, pr, e, q) && EventAllowed(s, pr, e)
    requires JobOf(s.file, pr.kind.job).lastRun <= s.clock && ZERO_TIME < s.clock
    requires HoldsJob(c, pr) ==> ProcOk(c, JobOf(s.file, pr.kind.job), ListsOf(s, pr.kind.job), s.clock, pr)
    ensures HoldsJob(c, q) ==> ProcOk(c, JobOf(s.file, pr.kind.job), ListsOf(s, pr.kind.job), s.clock, q)
  {
    hide AcquireStep, EventAllowed, JobOf, ListsOf, InOrder, ProcOk, ProcWf, Blank, HoldsJob;
    if pr.pc.CheckDue? || pr.pc.CheckNow? {
      CheckOk(c, intr, s, pr, e, q);
    } else {
      AcquireMoves(c, intr, pr, e, q);
      if HoldsJob(c, pr) {
        MovedOk(c, JobOf(s.file, pr.kind.job), ListsOf(s, pr.kind.job), s.clock, pr, q);
      } else if pr.pc == Start {
        BlankOk(c, JobOf(s.file, pr.kind.job), ListsOf(s, pr.kind.job), s.clock, pr, q);
      }
    }
  }

  lemma CheckOk(c: Config, intr: bool, s: Sys, pr: Proc, e: Event, q: Proc)
    requires ProcWf(c, pr) && InOrder(pr) && pr.kind.Work? && (pr.pc.CheckDue? || pr.pc.CheckNow?)
    requires AcquireStep(c, intr, pr, e, q) && EventAllowed(s, pr, e)
    requires JobOf(s.file, pr.kind.job).lastRun <= s.clock && ZERO_TIME < s.clock
    requires HoldsJob(c, pr) ==> ProcOk(c, JobOf(s.file, pr.kind.job), ListsOf(s, pr.kind.job), s.clock, pr)
    ensures HoldsJob(c, q) ==> ProcOk(c, JobOf(s.file, pr.kind.job), ListsOf(s, pr.kind.job), s.clock, q)
  {
    hide Repositories, StillDue, ListsOf, JobOf;
  }

  lemma MovedOk(c: Config, js: JobState, lists: map<string, SnapshotList>, clock: Time, pr: Proc, q: Proc)
    requires ProcOk(c, js, lists, clock, pr) && q == pr.(pc := q.pc, slot := q.slot)
    requires !AfterLoad(q.pc) && !q.pc.CheckNow? && !q.pc.SaveSnapshots?
    ensures ProcOk(c, js, lists, clock, q)
  {
    hide StillDue;
  }

  lemma BlankOk(c: Config, js: JobState, lists: map<string, SnapshotList>, clock: Time, pr: Proc, q: Proc)
    requires Blank(pr) && pr.pc == Start && q == pr.(pc := q.pc, slot := q.slot)
    requires !AfterLoad(q.pc) && !q.pc.CheckNow? && !q.pc.SaveSnapshots? && js.lastRun <= clock && ZERO_TIME < clock
    ensures ProcOk(c, js, lists, clock, q)
  {
    hide StillDue;
  }

  /** Getting locks changes nothing a job's lock protects. */
  lemma AcquireMoves(c: Config, intr: bool, pr: Proc, e: Event, q: Proc)
    requires ProcWf(c, pr) && pr.kind.Work? && AcquireStep(c, intr, pr, e, q) && !pr.pc.CheckDue? && !pr.pc.CheckNow?
    ensures q == pr.(pc := q.pc, slot := q.slot) && !AfterLoad(q.pc) && !q.pc.CheckNow? && !q.pc.SaveSnapshots?
    ensures HoldsJob(c, q) ==> HoldsJob(c, pr) || pr.pc == Start
  {
    hide Repositories, StillDue;
  }

  lemma RunOk(c: Config, s: Sys, pr: Proc, e: Event, q: Proc)
    requires ProcWf(c, pr) && InOrder(pr) && pr.kind.Work?
    requires RunStep(c, pr, e, q) && EventAllowed(s, pr, e) && !e.PutsLists?
    requires ProcOk(c, JobOf(s.file, pr.kind.job), ListsOf(s, pr.kind.job), s.clock, pr)
    ensures ProcOk(c, JobOf(s.file, pr.kind.job), ListsOf(s, pr.kind.job), s.clock, q)
  {
    hide Repositories, StillDue, JobOf, ListsOf;
  }

  lemma UpdateOk(c: Config, s: Sys, pr: Proc, phase: Phase, io: Io, e: Event, q: Proc)
    requires ProcWf(c, pr) && InOrder(pr) && pr.kind.Work? && pr.pc == Update(phase, io)
    requires UpdateStep(pr, phase, io, e, q) && EventAllowed(s, pr, e) && !Commits(e)
    requires ProcOk(c, JobOf(s.file, pr.kind.job), ListsOf(s, pr.kind.job), s.clock, pr)
    ensures ProcOk(c, JobOf(s.file, pr.kind.job), ListsOf(s, pr.kind.job), s.clock, q)
  {
    hide Repositories, StillDue, JobOf, ListsOf, Apply, Count;
  }

  lemma CommitOk(c: Config, st: State, lists: map<string, SnapshotList>, clock: Time, pr: Proc, phase: Phase, q: Proc)
    requires ProcWf(c, pr) && InOrder(pr) && pr.kind.Work? && pr.pc.Update? && pr.pc.phase == phase && phase !in pr.oks
    requires q == pr.(pc := Update(phase, Unlock), oks := pr.oks + {phase})
    requires ProcOk(c, JobOf(st, pr.kind.job), lists, clock, pr)
    ensures ProcOk(c, JobOf(After(ChangeOf(pr, phase), st), pr.kind.job), lists, clock, q)
    ensures phase != Recording ==> JobOf(After(ChangeOf(pr, phase), st), pr.kind.job).lastRun == JobOf(st, pr.kind.job).lastRun
    ensures phase == Recording ==> JobOf(After(ChangeOf(pr, phase), st), pr.kind.job).lastRun == pr.run.finished
  {
    hide Repositories, StillDue, Count;
  }

  // ----- The invariant -----

  /** A recorded run started no earlier in the schedule than its due check, and
      the one recorded before it was over by then. */
  predicate EntryOk(c: Config, before: State, e: Entry) {
    e.change.RecordRun? ==>
      var last := JobOf(before, e.change.job).lastRun;
      && last <= e.change.run.finished && ZERO_TIME < e.change.run.finished
      && NoticeFits(last, e.change.run, e.notice)
      && e.change.failing
           == Notifications.Decide(Notifications.PriorGiven(e.notice.told, CoreOf(before, e.change.job)), e.notice).failing
      && (e.dueAt.Some? ==>
            last <= e.dueAt.value <= e.change.run.finished && StillDue(c, e.change.job, last, e.dueAt.value))
  }

  ghost predicate LogOk(c: Config, s: Sys) {
    forall k :: 0 <= k < |s.log| ==> EntryOk(c, FoldLog(s.initial, s.log[..k]), s.log[k])
  }

  ghost predicate ClockOk(s: Sys) {
    ZERO_TIME < s.clock && forall job :: JobOf(s.file, job).lastRun <= s.clock
  }

  ghost predicate ProcsOk(c: Config, s: Sys) {
    forall p :: 0 <= p < |s.procs| ==>
      var pr := s.procs[p];
      && Blank(pr)
      && (HoldsJob(c, pr) ==> ProcOk(c, JobOf(s.file, JobName(pr)), ListsOf(s, JobName(pr)), s.clock, pr))
  }

  ghost predicate JobInv(c: Config, s: Sys) {
    StateInv(c, s) && ClockOk(s) && ProcsOk(c, s) && LogOk(c, s)
  }

  lemma HoldsJobOwns(c: Config, s: Sys, p: nat)
    requires LockInv(c, s) && p < |s.procs| && HoldsJob(c, s.procs[p])
    ensures var r := JobLock(JobName(s.procs[p])); r in s.owner && s.owner[r] == p
  {
    hide LockInv, Count, Repositories;
    OwnsAt(c, s, p, 0);
  }

  lemma OneHolder(c: Config, s: Sys, p: nat, i: nat)
    requires LockInv(c, s) && p < |s.procs| && i < |s.procs|
    requires HoldsJob(c, s.procs[p]) && HoldsJob(c, s.procs[i]) && JobName(s.procs[p]) == JobName(s.procs[i])
    ensures p == i
  {
    hide LockInv, HoldsJob;
    HoldsJobOwns(c, s, p);
    HoldsJobOwns(c, s, i);
  }

  /** A process updating a job's state, or its lists, holds the job's lock. */
  lemma UpdaterHoldsJob(c: Config, pr: Proc)
    requires ProcWf(c, pr) && pr.kind.Work? && (pr.pc.Update? || pr.pc.SaveSnapshots?)
    ensures HoldsJob(c, pr)
  {
    hide Repositories;
  }

  lemma NextLists(c: Config, s: Sys, p: nat, e: Event, q: Proc)
    requires p < |s.procs|
    ensures var t := Protocol.Next(s, Do(p, e, q));
            forall job :: ListsOf(t, job) == if e.PutsLists? && job == JobName(q) then e.lists else ListsOf(s, job)
  {
  }

  lemma OnlySavingPutsLists(c: Config, intr: bool, pr: Proc, e: Event, q: Proc)
    requires LocalStep(c, intr, pr, e, q) && e.PutsLists?
    ensures pr.pc.SaveSnapshots? && pr.kind.Work? && JobName(q) == JobName(pr) && q.pc.Snapshots?
  {
    hide Repositories, StillDue, UpdateStep, AcquireStep;
    if pr.pc.Update? {
      UpdatePutsNoLists(pr, pr.pc.phase, pr.pc.io, e, q);
    } else if pr.kind.Work? && AcquireStep(c, intr, pr, e, q) {
      AcquirePutsNoLists(c, intr, pr, e, q);
    }
  }

  lemma UpdatePutsNoLists(pr: Proc, phase: Phase, io: Io, e: Event, q: Proc)
    requires UpdateStep(pr, phase, io, e, q)
    ensures !e.PutsLists?
  {
    hide Apply;
  }

  lemma AcquirePutsNoLists(c: Config, intr: bool, pr: Proc, e: Event, q: Proc)
    requires pr.kind.Work? && AcquireStep(c, intr, pr, e, q)
    ensures !e.PutsLists?
  {
    hide Repositories, StillDue;
  }

  /** Main step: no process changes what another has under its job's lock. */
  lemma OthersLeaveJob(c: Config, s: Sys, p: nat, e: Event, q: Proc, i: nat)
    requires StateInv(c, s) && ProcsOk(c, s) && Guard(c, s, Do(p, e, q)) && i < |s.procs| && i != p
    requires HoldsJob(c, s.procs[i])
    ensures var t, job := Protocol.Next(s, Do(p, e, q)), JobName(s.procs[i]);
            JobOf(t.file, job) == JobOf(s.file, job) && ListsOf(t, job) == ListsOf(s, job)
  {
    hide LockInv, InOrder, InFlight, LogExact, LocalStep, EventAllowed, Protocol.Next, HoldsJob, ProcOk, JobOf, ListsOf, After;
    var pr, job := s.procs[p], JobName(s.procs[i]);
    NextFile(s, p, e, q);
    NextLists(c, s, p, e, q);
    WfOf(c, s, p);
    if e.Puts? {
      CommitApplies(c, s, p, e, q);
      if pr.kind.Work? {
        UpdaterHoldsJob(c, pr);
        if JobName(pr) == job {
          OneHolder(c, s, p, i);
        }
      }
      OtherJobsUnchanged(e.change, s.file, job);
    } else if e.PutsLists? {
      OnlySavingPutsLists(c, s.groups[pr.group].interrupted, pr, e, q);
      UpdaterHoldsJob(c, pr);
      if JobName(pr) == job {
        OneHolder(c, s, p, i);
      }
    }
  }

  // ----- Steps -----

  lemma UnwindOk(c: Config, s: Sys, intr: bool, pr: Proc, e: Event, q: Proc)
    requires LocalStep(c, intr, pr, e, q) && pr.kind.Work? && pr.pc.Unwind?
    requires HoldsJob(c, pr) ==> ProcOk(c, JobOf(s.file, pr.kind.job), ListsOf(s, pr.kind.job), s.clock, pr)
    ensures HoldsJob(c, q) ==> ProcOk(c, JobOf(s.file, pr.kind.job), ListsOf(s, pr.kind.job), s.clock, q)
    ensures !Commits(e) && !e.PutsLists?
  {
    hide Repositories, StillDue, JobOf, ListsOf;
  }

  lemma PutsListsOk(c: Config, js: JobState, lists: map<string, SnapshotList>, after: map<string, SnapshotList>, clock: Time, pr: Proc, e: Event, q: Proc)
    requires pr.kind.Work? && RunStep(c, pr, e, q) && pr.pc.SaveSnapshots? && ProcOk(c, js, lists, clock, pr)
    ensures ProcOk(c, js, after, clock, q)
  {
    hide Repositories, StillDue;
  }

  lemma SavingIsRunStep(c: Config, intr: bool, pr: Proc, e: Event, q: Proc)
    requires LocalStep(c, intr, pr, e, q) && pr.kind.Work? && pr.pc.SaveSnapshots?
    ensures RunStep(c, pr, e, q)
  {
    hide Repositories, StillDue;
  }

  /** The invariant of the process taking a step that is not a commit. */
  lemma OwnOk(c: Config, s: Sys, intr: bool, pr: Proc, e: Event, q: Proc)
    requires ProcWf(c, pr) && InOrder(pr) && Blank(pr) && pr.kind.Work?
    requires LocalStep(c, intr, pr, e, q) && EventAllowed(s, pr, e) && !Commits(e) && !e.PutsLists?
    requires JobOf(s.file, pr.kind.job).lastRun <= s.clock && ZERO_TIME < s.clock
    requires HoldsJob(c, pr) ==> ProcOk(c, JobOf(s.file, pr.kind.job), ListsOf(s, pr.kind.job), s.clock, pr)
    ensures HoldsJob(c, q) ==> ProcOk(c, JobOf(s.file, pr.kind.job), ListsOf(s, pr.kind.job), s.clock, q)
  {
    hide ProcOk, Repositories, AcquireStep, RunStep, UpdateStep, EventAllowed, JobOf, ListsOf, InOrder, Blank;
    if pr.pc.Update? {
      StepIsUpdate(c, intr, pr, e, q);
      UpdateOk(c, s, pr, pr.pc.phase, pr.pc.io, e, q);
    } else if pr.pc.Unwind? {
      UnwindOk(c, s, intr, pr, e, q);
    } else if pr.pc.Ended? {
    } else if AcquireStep(c, intr, pr, e, q) {
      AcquireOk(c, intr, s, pr, e, q);
    } else {
      RunHoldsJob(c, pr, e, q);
      RunOk(c, s, pr, e, q);
    }
  }

  lemma RunHoldsJob(c: Config, pr: Proc, e: Event, q: Proc)
    requires pr.kind.Work? && RunStep(c, pr, e, q)
    ensures HoldsJob(c, pr)
  {
    hide Repositories;
  }

  lemma ProcOkOf(c: Config, s: Sys, p: nat)
    requires JobInv(c, s) && p < |s.procs|
    ensures var pr := s.procs[p];
            && ProcWf(c, pr) && InOrder(pr) && Blank(pr)
            && (HoldsJob(c, pr) ==> ProcOk(c, JobOf(s.file, JobName(pr)), ListsOf(s, JobName(pr)), s.clock, pr))
  {
    hide Owned, ProcWf, InOrder, InFlight, LogExact, Blank, HoldsJob, ProcOk, LogOk;
  }

  lemma SelfAfterDo(c: Config, s: Sys, p: nat, e: Event, q: Proc)
    requires JobInv(c, s) && Guard(c, s, Do(p, e, q))
    ensures var t := Protocol.Next(s, Do(p, e, q));
            && Blank(q) && JobName(q) == JobName(s.procs[p])
            && (HoldsJob(c, q) ==> ProcOk(c, JobOf(t.file, JobName(q)), ListsOf(t, JobName(q)), t.clock, q))
  {
    hide LockInv, InOrder, InFlight, LogExact, LogOk, ProcsOk, LocalStep, EventAllowed, Protocol.Next, HoldsJob, ProcOk, ProcWf,
         JobOf, ListsOf, After, ChangeOf, Blank;
    var pr := s.procs[p];
    var intr := s.groups[pr.group].interrupted;
    ProcOkOf(c, s, p);
    NextFile(s, p, e, q);
    NextLists(c, s, p, e, q);
    LocalHolds(c, intr, pr, e, q);
    LocalInOrder(c, intr, pr, e, q);
    BlankAfter(pr, q);
    if !pr.kind.Work? {
      NotWork(c, q);
    } else if Commits(e) {
      CommitApplies(c, s, p, e, q);
      UpdaterHoldsJob(c, pr);
      CommitOk(c, s.file, ListsOf(s, JobName(pr)), s.clock, pr, e.phase, q);
    } else if e.PutsLists? {
      OnlySavingPutsLists(c, intr, pr, e, q);
      SavingIsRunStep(c, intr, pr, e, q);
      UpdaterHoldsJob(c, pr);
      PutsListsOk(c, JobOf(s.file, JobName(pr)), ListsOf(s, JobName(pr)), e.lists, s.clock, pr, e, q);
    } else {
      OwnOk(c, s, intr, pr, e, q);
    }
  }

  lemma BlankAfter(pr: Proc, q: Proc)
    requires Blank(pr) && q.kind == pr.kind && !q.pc.Start?
    ensures Blank(q) && JobName(q) == JobName(pr)
  {
  }

  lemma NotWork(c: Config, pr: Proc)
    requires !pr.kind.Work?
    ensures !HoldsJob(c, pr)
  {
  }

  lemma ProcsAfterDo(c: Config, s: Sys, p: nat, e: Event, q: Proc)
    requires JobInv(c, s) && Guard(c, s, Do(p, e, q))
    ensures ProcsOk(c, Protocol.Next(s, Do(p, e, q)))
  {
    hide LockInv, InOrder, InFlight, LogExact, LogOk, LocalStep, EventAllowed, Protocol.Next, HoldsJob, ProcOk, Blank, JobOf, ListsOf;
    var t := Protocol.Next(s, Do(p, e, q));
    NextFile(s, p, e, q);
    SelfAfterDo(c, s, p, e, q);
    forall i | 0 <= i < |t.procs| && i != p
      ensures Blank(t.procs[i])
      ensures HoldsJob(c, t.procs[i]) ==> ProcOk(c, JobOf(t.file, JobName(t.procs[i])), ListsOf(t, JobName(t.procs[i])), t.clock, t.procs[i])
    {
      assert t.procs[i] == s.procs[i];
      if HoldsJob(c, s.procs[i]) {
        OthersLeaveJob(c, s, p, e, q, i);
      }
    }
    assert t.procs[p] == q;
  }

  /** What a commit does to the times runs were recorded, and why. */
  lemma CommitTimes(c: Config, s: Sys, p: nat, e: Event, q: Proc)
    requires JobInv(c, s) && Guard(c, s, Do(p, e, q)) && Commits(e)
    ensures EntryOk(c, s.file, EntryFor(p, e, q))
    ensures forall job :: JobOf(After(e.change, s.file), job).lastRun <= s.clock
  {
    hide LockInv, InFlight, LogExact, LogOk, ProcsOk, LocalStep, EventAllowed, Protocol.Next, ProcWf, StillDue;
    var pr := s.procs[p];
    CommitApplies(c, s, p, e, q);
    ProcOkOf(c, s, p);
    RecordRunTimes(c, pr, e.phase);
    forall job
      ensures JobOf(After(e.change, s.file), job).lastRun <= s.clock
    {
      LastRunAfter(e.change, s.file, job);
    }
  }

  lemma LastRunAfter(ch: Change, st: State, job: string)
    ensures JobOf(After(ch, st), job).lastRun == if ch.RecordRun? && ch.job == job then ch.run.finished else JobOf(st, job).lastRun
  {
  }

  lemma RecordRunTimes(c: Config, pr: Proc, phase: Phase)
    requires ProcWf(c, pr) && Blank(pr) && pr.pc.Update? && pr.pc.phase == phase
    ensures ChangeOf(pr, phase).RecordRun? ==>
              phase == Recording && HoldsJob(c, pr) && ChangeOf(pr, phase) == RecordRun(JobName(pr), pr.run, pr.failing)
  {
    hide Repositories;
  }

  lemma LogAfterCommit(c: Config, s: Sys, t: Sys, e: Entry)
    requires LogOk(c, s) && s.file == FoldLog(s.initial, s.log) && EntryOk(c, s.file, e)
    requires t.log == s.log + [e] && t.initial == s.initial
    ensures LogOk(c, t)
  {
    hide EntryOk, FoldLog;
    forall k | 0 <= k < |t.log|
      ensures EntryOk(c, FoldLog(t.initial, t.log[..k]), t.log[k])
    {
      assert t.log[..k] == s.log[..k];
    }
    assert s.log[..|s.log|] == s.log;
  }

  lemma DoKeepsJobs(c: Config, s: Sys, p: nat, e: Event, q: Proc)
    requires JobInv(c, s) && Guard(c, s, Do(p, e, q))
    ensures JobInv(c, Protocol.Next(s, Do(p, e, q)))
  {
    hide LockInv, InOrder, InFlight, ProcsOk, LocalStep, EventAllowed, Protocol.Next, EntryOk, JobOf, After, FoldLog, Times, ChangeOf;
    var t := Protocol.Next(s, Do(p, e, q));
    DoKeepsState(c, s, p, e, q);
    ProcsAfterDo(c, s, p, e, q);
    NextFile(s, p, e, q);
    if Commits(e) {
      CommitTimes(c, s, p, e, q);
      CommitApplies(c, s, p, e, q);
      LogAfterCommit(c, s, t, EntryFor(p, e, q));
    }
  }

  lemma ClockMonotone(c: Config, js: JobState, lists: map<string, SnapshotList>, clock: Time, later: Time, pr: Proc)
    requires clock <= later && ProcOk(c, js, lists, clock, pr)
    ensures ProcOk(c, js, lists, later, pr)
  {
    hide StillDue, CoreOfJob, MarkerOf;
  }

  lemma AdvanceKeepsJobs(c: Config, s: Sys, t: Sys)
    requires JobInv(c, s) && StateInv(c, t)
    requires t.procs == s.procs && t.file == s.file && t.lists == s.lists && t.log == s.log && t.initial == s.initial && s.clock <= t.clock
    ensures JobInv(c, t)
  {
    hide StateInv, ProcOk, Blank, HoldsJob, EntryOk, FoldLog;
    forall p | 0 <= p < |t.procs|
      ensures HoldsJob(c, t.procs[p]) ==> ProcOk(c, JobOf(t.file, JobName(t.procs[p])), ListsOf(t, JobName(t.procs[p])), t.clock, t.procs[p])
    {
      assert ListsOf(t, JobName(t.procs[p])) == ListsOf(s, JobName(t.procs[p]));
      if HoldsJob(c, t.procs[p]) {
        ClockMonotone(c, JobOf(s.file, JobName(t.procs[p])), ListsOf(s, JobName(t.procs[p])), s.clock, t.clock, t.procs[p]);
      }
    }
  }

  /** Steps that leave every process as it was, ended, or newly begun. */
  lemma OthersKeepJobs(c: Config, s: Sys, t: Sys)
    requires JobInv(c, s) && StateInv(c, t)
    requires t.file == s.file && t.lists == s.lists && t.log == s.log && t.initial == s.initial && s.clock == t.clock
    requires forall p :: 0 <= p < |t.procs| ==>
               Blank(t.procs[p]) && (!HoldsJob(c, t.procs[p]) || (p < |s.procs| && t.procs[p] == s.procs[p]))
    ensures JobInv(c, t)
  {
    hide StateInv, ProcOk, Blank, HoldsJob, EntryOk, FoldLog;
    assert forall job :: ListsOf(t, job) == ListsOf(s, job);
  }

  lemma EndedHoldsNoJob(c: Config, pr: Proc)
    requires Blank(pr)
    ensures Blank(AfterKill(pr)) && !HoldsJob(c, AfterKill(pr))
  {
  }

  lemma FreshHoldsNoJob(c: Config, kind: Kind, g: nat)
    ensures !HoldsJob(c, Fresh(kind, g))
  {
  }

  lemma StepKeepsJobs(c: Config, s: Sys, l: Label)
    requires JobInv(c, s) && Guard(c, s, l)
    ensures JobInv(c, Protocol.Next(s, l))
  {
    hide LockInv, StateInv, LocalStep, EventAllowed, ClockOk, LogOk, ProcOk, HoldsJob;
    StepKeepsState(c, s, l);
    var t := Protocol.Next(s, l);
    match l
    case Do(p, e, q) => DoKeepsJobs(c, s, p, e, q);
    case Kill(g) =>
      forall p | 0 <= p < |t.procs|
        ensures Blank(t.procs[p]) && (!HoldsJob(c, t.procs[p]) || (p < |s.procs| && t.procs[p] == s.procs[p]))
      {
        EndedHoldsNoJob(c, s.procs[p]);
      }
      OthersKeepJobs(c, s, t);
    case Spawn(g) =>
      FreshHoldsNoJob(c, Work(s.groups[g].due[s.groups[g].next], s.groups[g].trigger), g);
      OthersKeepJobs(c, s, t);
    case Arrive(group, kinds) =>
      forall p | |s.procs| <= p < |t.procs|
        ensures Blank(t.procs[p]) && !HoldsJob(c, t.procs[p])
      {
        assert kinds[p - |s.procs|] in kinds;
        FreshHoldsNoJob(c, kinds[p - |s.procs|], |s.groups|);
      }
      OthersKeepJobs(c, s, t);
    case _ => AdvanceKeepsJobs(c, s, t);
  }

  lemma InitJobs(c: Config, s: Sys)
    requires Init(s) && StateInv(c, s)
    ensures JobInv(c, s)
  {
  }

  lemma {:induction false} JobsAlways(c: Config, b: seq<Sys>, i: nat)
    requires Behaviour(c, b) && i < |b|
    ensures JobInv(c, b[i])
  {
    hide JobInv, Guard, StateInv, Protocol.Next, Init;
    if i == 0 {
      StateAlways(c, b, 0);
      InitJobs(c, b[0]);
    } else {
      JobsAlways(c, b, i - 1);
      var l := StepLabel(c, b, i - 1);
      StepKeepsJobs(c, b[i - 1], l);
    }
  }

  // ----- Main results -----

  /** From reading the job's state before the run until the run is recorded,
      nothing another process does changes the job's outcome or failing fields:
      what was read is what the run is recorded on top of. */
  lemma PriorStaysCurrent(c: Config, b: seq<Sys>, i: nat, p: nat)
    requires Behaviour(c, b) && i < |b| && p < |b[i].procs|
    requires var pr := b[i].procs[p]; pr.kind.Work? && AfterLoad(pr.pc) && Recording !in pr.oks && pr.prior.Some?
    ensures b[i].procs[p].prior.value == CoreOf(b[i].file, JobName(b[i].procs[p]))
  {
    hide JobInv, Step;
    JobsAlways(c, b, i);
    ProcOkOf(c, b[i], p);
    LoadedHoldsJob(c, b[i].procs[p]);
  }

  lemma LoadedHoldsJob(c: Config, pr: Proc)
    requires ProcWf(c, pr) && pr.kind.Work? && AfterLoad(pr.pc)
    ensures HoldsJob(c, pr)
  {
    hide Repositories;
  }

  /** Past ClearRunning, a running marker in the file is the holder's own: none
      until it marks the job running, its own from then until it records the run. */
  lemma MarkerIsTheHoldersOwn(c: Config, b: seq<Sys>, i: nat, p: nat)
    requires Behaviour(c, b) && i < |b| && p < |b[i].procs|
    requires HoldsJob(c, b[i].procs[p]) && Clearing in b[i].procs[p].oks
    ensures JobOf(b[i].file, JobName(b[i].procs[p])).running == MarkerOf(b[i].procs[p])
  {
    hide JobInv, Step, HoldsJob;
    JobsAlways(c, b, i);
    ProcOkOf(c, b[i], p);
  }

  /** Replacing a job's snapshot lists, with no lock but the job's, changes the
      one repository's list and no other: provided the file could be read.
      When it could not, the job's other lists are dropped. */
  lemma SavingListsLosesNothing(c: Config, b: seq<Sys>, i: nat, p: nat, e: Event, q: Proc)
    requires Behaviour(c, b) && i < |b| && Guard(c, b[i], Do(p, e, q)) && e.PutsLists?
    ensures var s, t, pr := b[i], Protocol.Next(b[i], Do(p, e, q)), b[i].procs[p];
            && pr.pc.SaveSnapshots? && pr.pc.left != [] && pr.pc.left[0] in e.lists
            && (forall job :: job != JobName(pr) ==> ListsOf(t, job) == ListsOf(s, job))
            && ListsOf(t, JobName(pr)) ==
                 (if pr.pc.read then ListsOf(s, JobName(pr)) else map[])[pr.pc.left[0] := e.lists[pr.pc.left[0]]]
  {
    hide JobInv, Step, LocalStep, Protocol.Next, JobOf, ListsOf;
    var pr := b[i].procs[p];
    var intr := b[i].groups[pr.group].interrupted;
    JobsAlways(c, b, i);
    ProcOkOf(c, b[i], p);
    OnlySavingPutsLists(c, intr, pr, e, q);
    SavingIsRunStep(c, intr, pr, e, q);
    UpdaterHoldsJob(c, pr);
    NextLists(c, b[i], p, e, q);
  }

  /** The lists of a job's repositories other than this one. */
  function OtherLists(s: Sys, job: string, repo: string): map<string, SnapshotList> {
    ListsOf(s, job) - {repo}
  }

  /** So saving one repository's list leaves the job's other lists as they were
      if and only if the file could be read or held no other. */
  lemma OthersKeptExactly(c: Config, b: seq<Sys>, i: nat, p: nat, e: Event, q: Proc)
    requires Behaviour(c, b) && i < |b| && Guard(c, b[i], Do(p, e, q)) && e.PutsLists?
    ensures var s, t, pr := b[i], Protocol.Next(b[i], Do(p, e, q)), b[i].procs[p];
            && pr.pc.SaveSnapshots? && pr.pc.left != []
            && (OtherLists(t, JobName(pr), pr.pc.left[0]) == OtherLists(s, JobName(pr), pr.pc.left[0])
                <==> pr.pc.read || OtherLists(s, JobName(pr), pr.pc.left[0]) == map[])
  {
    hide JobInv, Step, LocalStep, EventAllowed, Protocol.Next, JobOf, ListsOf, Behaviour;
    SavingListsLosesNothing(c, b, i, p, e, q);
    var s, t, pr := b[i], Protocol.Next(b[i], Do(p, e, q)), b[i].procs[p];
    var repo := pr.pc.left[0];
  }

  /** And it does lose them: from wherever a run is about to save a list, a read
      that fails and a write that works take two steps to a file in which the
      job has this list alone. */
  lemma UnreadListsAreDropped(c: Config, b: seq<Sys>, p: nat, list: SnapshotList)
    requires Behaviour(c, b) && p < |b[|b| - 1].procs|
    requires var pr := b[|b| - 1].procs[p]; pr.kind.Work? && pr.pc.Snapshots? && pr.pc.left != []
    ensures exists s, t :: Behaviour(c, b + [s, t])
                           && ListsOf(t, JobName(b[|b| - 1].procs[p])) == map[b[|b| - 1].procs[p].pc.left[0] := list]
  {
    hide JobInv, StateInv, LocalStep, Step, ListsOf, ProcOk, Init;
    var was := b[|b| - 1];
    var pr := was.procs[p];
    var left, lists := pr.pc.left, map[pr.pc.left[0] := list];
    var read, saved := pr.(pc := SaveSnapshots(left, false, map[])), pr.(pc := Snapshots(left[1..]));
    JobsAlways(c, b, |b| - 1);
    InItsGroup(c, was, p);
    FailedRead(c, was, p);
    BehaviourNext(c, b, Do(p, IoError, read));
    var s := Protocol.Next(was, Do(p, IoError, read));
    UnreadWrite(c, s, p, list);
    BehaviourNext(c, b + [s], Do(p, PutsLists(lists), saved));
    var t := Protocol.Next(s, Do(p, PutsLists(lists), saved));
    NextLists(c, s, p, PutsLists(lists), saved);
    assert b + [s] + [t] == b + [s, t];
  }

  lemma InItsGroup(c: Config, s: Sys, p: nat)
    requires JobInv(c, s) && p < |s.procs|
    ensures s.procs[p].group < |s.groups|
  {
    hide ProcsOk, InFlight, LogExact, HoldsJob;
  }

  lemma FailedRead(c: Config, s: Sys, p: nat)
    requires p < |s.procs| && s.procs[p].group < |s.groups|
    requires s.procs[p].kind.Work? && s.procs[p].pc.Snapshots? && s.procs[p].pc.left != []
    ensures Guard(c, s, Do(p, IoError, s.procs[p].(pc := SaveSnapshots(s.procs[p].pc.left, false, map[]))))
  {
    hide AcquireStep;
  }

  lemma UnreadWrite(c: Config, s: Sys, p: nat, list: SnapshotList)
    requires p < |s.procs| && s.procs[p].group < |s.groups|
    requires s.procs[p].kind.Work? && s.procs[p].pc.SaveSnapshots? && s.procs[p].pc.left != [] && s.procs[p].pc.lists == map[]
    ensures var pr := s.procs[p];
            Guard(c, s, Do(p, PutsLists(map[pr.pc.left[0] := list]), pr.(pc := Snapshots(pr.pc.left[1..]))))
  {
    hide AcquireStep;
    assert map[][s.procs[p].pc.left[0] := list] == map[s.procs[p].pc.left[0] := list];
  }

  /** What one commit does to a job's last run: it never goes back. */
  lemma LastRunMoves(c: Config, s: Sys, k: nat, job: string)
    requires LogOk(c, s) && k < |s.log|
    ensures var before, after := FoldLog(s.initial, s.log[..k]), FoldLog(s.initial, s.log[..k + 1]);
            && JobOf(before, job).lastRun <= JobOf(after, job).lastRun
            && (About(s.log[k].change, job) && s.log[k].change.RecordRun? ==>
                  JobOf(after, job).lastRun == s.log[k].change.run.finished)
  {
    hide After, StillDue, JobOf, NoticeFits;
    var before := FoldLog(s.initial, s.log[..k]);
    assert s.log[..k + 1][..k] == s.log[..k];
    assert EntryOk(c, before, s.log[k]);
    LastRunAfter(s.log[k].change, before, job);
  }

  /** Once a run is recorded, last_run is never before it finished. */
  lemma {:induction false} LastRunAtLeast(c: Config, s: Sys, m: nat, k: nat)
    requires LogOk(c, s) && m < k <= |s.log| && s.log[m].change.RecordRun?
    ensures s.log[m].change.run.finished <= JobOf(FoldLog(s.initial, s.log[..k]), s.log[m].change.job).lastRun
  {
    hide LogOk, FoldLog, JobOf;
    LastRunMoves(c, s, k - 1, s.log[m].change.job);
    if m < k - 1 {
      LastRunAtLeast(c, s, m, k - 1);
    }
  }

  /** Being due, with the clock not gone back, means a later period. */
  lemma DueIsLaterPeriod(c: Config, job: string, sched: string, last: Time, now: Time)
    requires sched == JobConfig(c, job).schedule && Known(sched)
    requires ZERO_TIME < last <= now && StillDue(c, job, last, now)
    ensures Truncate(last, sched).value < Truncate(now, sched).value
  {
    CatchesUpOnce(sched, last, now);
    TruncateMonotone(sched, last, now);
    DueExactly(sched, last, now);
    PeriodsPartitionTime(sched, last, now);
  }

  /** Main result: at most one tick run per period. A run recorded after
      another, and found due by a check that could read the state, was found
      due in a later period than the one the other finished in, so the periods
      of a job's tick runs strictly increase: at the check as at the finish, and
      across overlapping ticks, manual runs, missed periods and killed runs. */
  lemma OneTickRunPerPeriod(c: Config, b: seq<Sys>, i: nat, m: nat, k: nat, sched: string)
    requires Behaviour(c, b) && i < |b| && m < k < |b[i].log|
    requires var log := b[i].log;
             && log[m].change.RecordRun? && log[k].change.RecordRun? && log[k].change.job == log[m].change.job
             && log[k].dueAt.Some?
             && sched == JobConfig(c, log[k].change.job).schedule && Known(sched)
    ensures var first, second := b[i].log[m], b[i].log[k];
            && Truncate(first.change.run.finished, sched).value < Truncate(second.dueAt.value, sched).value
            && Truncate(second.dueAt.value, sched).value <= Truncate(second.change.run.finished, sched).value
            && (first.dueAt.Some? ==> Truncate(first.dueAt.value, sched).value < Truncate(second.dueAt.value, sched).value)
  {
    hide Step, StateInv, ProcsOk, ClockOk, StillDue, Truncate, FoldLog;
    JobsAlways(c, b, i);
    var s := b[i];
    LastRunAtLeast(c, s, m, k);
    var job, last := s.log[k].change.job, JobOf(FoldLog(s.initial, s.log[..k]), s.log[k].change.job).lastRun;
    assert EntryOk(c, FoldLog(s.initial, s.log[..k]), s.log[k]);
    assert EntryOk(c, FoldLog(s.initial, s.log[..m]), s.log[m]);
    DueIsLaterPeriod(c, job, sched, last, s.log[k].dueAt.value);
    TruncateMonotone(sched, s.log[m].change.run.finished, last);
    TruncateMonotone(sched, s.log[k].dueAt.value, s.log[k].change.run.finished);
    if s.log[m].dueAt.Some? {
      TruncateMonotone(sched, s.log[m].dueAt.value, s.log[m].change.run.finished);
    }
  }

  /** The same holds of a tick run still under way, whether or not it will live
      to be recorded: no run of the job on record finished in its period. */
  lemma FirstInItsPeriod(c: Config, b: seq<Sys>, i: nat, p: nat, m: nat, sched: string)
    requires Behaviour(c, b) && i < |b| && p < |b[i].procs| && m < |b[i].log|
    requires var pr, e := b[i].procs[p], b[i].log[m];
             && Executing(pr) && Recording !in pr.oks && pr.dueAt.Some?
             && e.change.RecordRun? && e.change.job == JobName(pr)
             && sched == JobConfig(c, JobName(pr)).schedule && Known(sched)
    ensures Truncate(b[i].log[m].change.run.finished, sched).value < Truncate(b[i].procs[p].dueAt.value, sched).value
  {
    hide Step, InOrder, InFlight, LockInv, ProcsOk, ClockOk, StillDue, Truncate, HoldsJob, Times;
    JobsAlways(c, b, i);
    var s, pr := b[i], b[i].procs[p];
    ProcOkOf(c, s, p);
    ExecutingHoldsJob(c, pr);
    LastRunAtLeast(c, s, m, |s.log|);
    assert s.log[..|s.log|] == s.log;
    assert EntryOk(c, FoldLog(s.initial, s.log[..m]), s.log[m]);
    var last := JobOf(s.file, JobName(pr)).lastRun;
    DueIsLaterPeriod(c, JobName(pr), sched, last, pr.dueAt.value);
    TruncateMonotone(sched, s.log[m].change.run.finished, last);
  }

  lemma ExecutingHoldsJob(c: Config, pr: Proc)
    requires ProcWf(c, pr) && Executing(pr)
    ensures HoldsJob(c, pr)
  {
    hide Repositories;
  }
}
