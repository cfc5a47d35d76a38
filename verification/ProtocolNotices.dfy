/** Notifications, and the periods of tick runs, over whole runs of the system:
    every run of a job counts, whether or not it was recorded. */
module ProtocolNotices {
  import opened Wrappers
  import opened Schedule
  import opened StateFile
  import opened Notifications
  import opened Protocol
  import opened ProtocolLocks
  import opened ProtocolState
  import opened ProtocolJobs
  import opened ProtocolRuns

  // ----- Histories -----

  /** A run of the system from a state with nothing recorded of the job. */
  ghost predicate From(c: Config, b: seq<Sys>, i: nat, job: string) {
    Behaviour(c, b) && i < |b| && CoreOf(b[i].initial, job) == CoreOfJob(NEVER_RAN)
  }

  lemma HistoryAt(c: Config, b: seq<Sys>, i: nat, job: string)
    requires Behaviour(c, b) && i < |b|
    ensures JobKept(c, b[i], job)
  {
    hide JobKept, HoldsJob, HolderOk;
    RunsAlways(c, b, i);
  }

  /** Over any run of the system, whichever processes make a job's runs and
      whatever else happens: each run did what the history of those before it
      decides, what the file records of the job is what the history leaves, and
      the runs recorded are those of the log, with the failing times it has. */
  lemma DidAsDecided(c: Config, b: seq<Sys>, i: nat, job: string)
    requires From(c, b, i, job)
    ensures var h, runs := HistoryOf(b[i], job), HistoryOf(b[i], job).runs;
            && |h.did| == |h.due| == |runs| && Timed(runs)
            && (forall k :: 0 <= k < |runs| ==> h.did[k] == NoticeAt(runs, k))
            && CoreOf(b[i].file, job) == CoreOfJob(StateAfter(runs))
            && OnRecord(runs, h.did) == Logged(b[i].log, job)
  {
    hide HistoryOf, Apart, Recorded, Timed, StateAfter, OnRecord, Logged;
    HistoryAt(c, b, i, job);
  }

  /** Later, a history has the same runs, and more: they did what they did, and
      all that may have become of them is that they were recorded. */
  ghost predicate Grown(h: History, g: History) {
    && |h.runs| <= |g.runs| && h.did <= g.did && h.due <= g.due
    && forall k :: 0 <= k < |h.runs| ==> g.runs[k] == h.runs[k] || g.runs[k] == h.runs[k].(recorded := true)
  }

  lemma {:induction false} HistoriesGrow(c: Config, b: seq<Sys>, i: nat, j: nat, job: string)
    requires Behaviour(c, b) && i <= j < |b|
    ensures Grown(HistoryOf(b[i], job), HistoryOf(b[j], job))
    decreases j
  {
    hide Step, HistoryOf, Grown;
    if i == j {
      GrownItself(HistoryOf(b[i], job));
    } else {
      HistoriesGrow(c, b, i, j - 1, job);
      StepGrows(c, b, j - 1, job);
      GrownOn(HistoryOf(b[i], job), HistoryOf(b[j - 1], job), HistoryOf(b[j], job));
    }
  }

  lemma GrownItself(h: History)
    ensures Grown(h, h)
  {
  }

  lemma GrownOn(h: History, g: History, f: History)
    requires Grown(h, g) && Grown(g, f)
    ensures Grown(h, f)
  {
  }

  lemma StepGrows(c: Config, b: seq<Sys>, i: nat, job: string)
    requires Behaviour(c, b) && i + 1 < |b|
    ensures Grown(HistoryOf(b[i], job), HistoryOf(b[i + 1], job))
  {
    hide LocalStep, EventAllowed, HistoryOf, Grown, WithRunMade, WithLastRecorded, Protocol.Next, Init;
    var l := StepLabel(c, b, i);
    var h := HistoryOf(b[i], job);
    GrownItself(h);
    if l.Do? {
      HistoryNext(b[i], l.p, l.e, l.q, job);
      MadeGrows(h, l.q);
      RecordedGrows(h);
    } else {
      OnlyDoRuns(b[i], l, job);
    }
  }

  lemma OnlyDoRuns(s: Sys, l: Label, job: string)
    requires !l.Do? && (l.Spawn? ==> l.g < |s.groups| && s.groups[l.g].next < |s.groups[l.g].due|)
    requires l.Interrupt? || l.Kill? ==> l.g < |s.groups|
    ensures HistoryOf(Protocol.Next(s, l), job) == HistoryOf(s, job)
  {
  }

  lemma MadeGrows(h: History, q: Proc)
    ensures Grown(h, WithRunMade(h, q))
  {
    hide Decide;
  }

  lemma RecordedGrows(h: History)
    ensures Grown(h, WithLastRecorded(h))
  {
  }

  // ----- Notifications -----

  /** In the file, failing_since is set exactly while the last run recorded
      failed, and is when the first run of that streak of failures started. A
      streak begins again at a run that could not read the state. */
  lemma FailingSinceOverRuns(c: Config, b: seq<Sys>, i: nat, job: string)
    requires From(c, b, i, job)
    ensures var core, runs := CoreOf(b[i].file, job), HistoryOf(b[i], job).runs;
            && (core.failingSince.Some? <==> core.lastOutcome == Some(Failed))
            && (core.lastOutcome == Some(Failed) <==> FailedBefore(runs, |runs|))
            && (FailedBefore(runs, |runs|) ==> core.failingSince == Some(runs[StreakStart(runs, RecordedBefore(runs, |runs|) - 1)].started))
  {
    hide HistoryOf, StateAfter;
    DidAsDecided(c, b, i, job);
    var runs := HistoryOf(b[i], job).runs;
    FailingSinceIsStreakStart(runs, |runs|);
    assert runs[..|runs|] == runs;
  }

  /** Run k of the history notified someone of a failure, and got through. */
  predicate GotThrough(h: History, k: nat)
    requires k < |h.runs| && |h.did| == |h.runs|
  {
    h.did[k].failure.Some? && Failures(h.runs[k].failure) == 0
  }

  lemma CountedIsGotThrough(h: History, k: nat)
    requires |h.did| == |h.runs| && k < |h.runs| && h.did[k] == NoticeAt(h.runs, k)
    ensures GotThrough(h, k) <==> Counted(h.runs, k)
    ensures h.did[k].failure.Some? <==> Tried(h.runs, k)
  {
    hide NoticeAt;
  }

  lemma CountedAreGotThrough(h: History)
    requires |h.did| == |h.runs| && forall k :: 0 <= k < |h.runs| ==> h.did[k] == NoticeAt(h.runs, k)
    ensures forall k :: 0 <= k < |h.runs| ==>
              && (GotThrough(h, k) <==> Counted(h.runs, k))
              && (h.did[k].failure.Some? <==> Tried(h.runs, k))
  {
    hide NoticeAt, GotThrough, Counted, Tried;
    forall k | 0 <= k < |h.runs|
      ensures (GotThrough(h, k) <==> Counted(h.runs, k)) && (h.did[k].failure.Some? <==> Tried(h.runs, k))
    {
      CountedIsGotThrough(h, k);
    }
  }

  /** Main result: of all the failed runs of a job, recorded or not, one with
      someone to notify tries to, if and only if none it follows in its streak
      got through in the 24 hours before. */
  lemma DayApartOverRuns(c: Config, b: seq<Sys>, i: nat, job: string, k: nat)
    requires From(c, b, i, job)
    requires var runs := HistoryOf(b[i], job).runs; k < |runs| && !runs[k].success && runs[k].failure != []
    ensures var h := HistoryOf(b[i], job);
            && |h.did| == |h.runs|
            && (h.did[k].failure.Some? <==>
                forall j :: 0 <= j < k && Follows(h.runs, j, k) && GotThrough(h, j) ==>
                  h.runs[j].sent + Notifications.INTERVAL <= h.runs[k].asked)
  {
    hide HistoryOf, StateAfter, Follows, Counted, Tried, GotThrough, NoticeAt, Timed;
    DidAsDecided(c, b, i, job);
    CountedAreGotThrough(HistoryOf(b[i], job));
    TriedExactly(HistoryOf(b[i], job).runs, k);
  }

  /** So while all of a job's recorded runs fail, one notifies again within the
      day only if the run that got through was not recorded, or one since, this
      one or one recorded, could not read the state. */
  lemma RepeatsOverRuns(c: Config, b: seq<Sys>, i: nat, job: string, j: nat, k: nat)
    requires From(c, b, i, job)
    requires var runs := HistoryOf(b[i], job).runs;
             && j < k < |runs| && runs[k].asked < runs[j].sent + Notifications.INTERVAL
             && forall m :: j < m < k && runs[m].recorded ==> !runs[m].success
    ensures var h := HistoryOf(b[i], job);
            && |h.did| == |h.runs|
            && (GotThrough(h, j) && h.did[k].failure.Some? ==>
                  !h.runs[j].recorded || exists m :: j < m <= k && !h.runs[m].told && (m == k || h.runs[m].recorded))
  {
    hide HistoryOf, StateAfter, Counted, Tried, GotThrough, NoticeAt, Timed;
    DidAsDecided(c, b, i, job);
    var h := HistoryOf(b[i], job);
    CountedAreGotThrough(h);
    if GotThrough(h, j) && h.did[k].failure.Some? {
      RepeatNeeds(h.runs, j, k);
    }
  }

  /** Exactly, for two runs of a job one after the other: the second, when it
      fails within the day of a notification of the first, notifies again if and
      only if it could not read the state; or the first was not recorded, and
      had read the state or found nothing in it to keep the second from notifying. */
  lemma NextOverRuns(c: Config, b: seq<Sys>, i: nat, job: string, j: nat)
    requires From(c, b, i, job)
    requires var runs := HistoryOf(b[i], job).runs;
             && j + 1 < |runs| && !runs[j + 1].success && runs[j + 1].failure != []
             && runs[j + 1].asked < runs[j].sent + Notifications.INTERVAL
    ensures var h, k := HistoryOf(b[i], job), j + 1;
            && |h.did| == |h.runs|
            && (GotThrough(h, j) ==>
                (h.did[k].failure.Some? <==>
                  || !h.runs[k].told
                  || (!h.runs[j].recorded
                      && (h.runs[j].told
                          || forall m :: 0 <= m < j && Follows(h.runs, m, k) && GotThrough(h, m) ==>
                               h.runs[m].sent + Notifications.INTERVAL <= h.runs[k].asked))))
  {
    hide HistoryOf, StateAfter, Counted, Tried, GotThrough, NoticeAt, Timed, Follows;
    DidAsDecided(c, b, i, job);
    var h := HistoryOf(b[i], job);
    CountedAreGotThrough(h);
    if GotThrough(h, j) {
      NextWithinTheDay(h.runs, j);
    }
  }

  /** Recovery goes out on exactly the successes that could read that the last
      run recorded failed, and tells when that streak began. It goes out as
      promised, on a success straight after a failure and on no other, exactly
      when the state could be read, or there was no failure to read of; and the
      run before was recorded, or came out as the last one that was. */
  lemma RecoveryOverRuns(c: Config, b: seq<Sys>, i: nat, job: string, k: nat)
    requires From(c, b, i, job)
    requires k < |HistoryOf(b[i], job).runs| && HistoryOf(b[i], job).runs[k].success
    ensures var h, runs := HistoryOf(b[i], job), HistoryOf(b[i], job).runs;
            && |h.did| == |runs| && h.did[k].onSuccess
            && (h.did[k].recovery.Some? <==> runs[k].told && FailedBefore(runs, k))
            && (h.did[k].recovery.Some? ==> h.did[k].recovery == Some(runs[StreakStart(runs, RecordedBefore(runs, k) - 1)].started))
            && (k > 0 ==>
                ((h.did[k].recovery.Some? <==> !runs[k - 1].success) <==>
                 if runs[k].told then runs[k - 1].recorded || (FailedBefore(runs, k - 1) <==> !runs[k - 1].success)
                 else runs[k - 1].success))
  {
    hide HistoryOf, StateAfter, NoticeAt, Timed, FailedBefore;
    DidAsDecided(c, b, i, job);
    var runs := HistoryOf(b[i], job).runs;
    RecoveryExactly(runs, k);
    if k > 0 {
      RecoveryAsPromised(runs, k);
    }
  }

  // ----- Periods -----

  /** Of all runs of a job, one found due was found so in a later period than any
      recorded run before it finished in. A second tick run in a period follows
      only runs that were not recorded, or a check that could not read. */
  lemma TickRunsOverRuns(c: Config, b: seq<Sys>, i: nat, job: string, j: nat, k: nat, sched: string)
    requires Behaviour(c, b) && i < |b| && j < k < |HistoryOf(b[i], job).runs|
    requires sched == JobConfig(c, job).schedule && Known(sched)
    ensures var h := HistoryOf(b[i], job);
            && |h.due| == |h.runs|
            && (h.runs[j].recorded && h.due[k].Some? ==>
                  Truncate(h.runs[j].finished, sched).value < Truncate(h.due[k].value, sched).value)
  {
    hide HistoryOf, Recorded, Timed, Truncate;
    HistoryAt(c, b, i, job);
  }

  /** Exactly, for a check that could read the state: the tick goes on if and
      only if no recorded run of the job finished in the period of now. */
  lemma GoesOnExactly(c: Config, b: seq<Sys>, i: nat, p: nat, now: Time, q: Proc, sched: string)
    requires Behaviour(c, b) && i < |b| && Guard(c, b[i], Do(p, Clock(now), q)) && b[i].procs[p].pc.CheckNow?
    requires From(c, b, i, JobName(q)) && sched == JobConfig(c, JobName(q)).schedule && Known(sched)
    ensures var runs := HistoryOf(b[i], JobName(q)).runs;
            q.pc == Repos(0) <==> forall j :: 0 <= j < |runs| && runs[j].recorded ==> Truncate(runs[j].finished, sched) != Truncate(now, sched)
  {
    hide HistoryOf, LocalStep, EventAllowed, Truncate, From, Recorded, StillDue;
    var s, pr, job := b[i], b[i].procs[p], JobName(q);
    CheckEnds(c, s.groups[pr.group].interrupted, pr, now, q);
    CheckedTimes(c, b, i, p);
    ClockIsNow(s, pr, now);
    DueInPeriods(c, job, sched, HistoryOf(s, job).runs, pr.pc.lastRun, now);
  }

  lemma ClockIsNow(s: Sys, pr: Proc, now: Time)
    requires EventAllowed(s, pr, Clock(now))
    ensures now == s.clock
  {
  }

  /** What it read is still the last run on record. */
  lemma CheckedTimes(c: Config, b: seq<Sys>, i: nat, p: nat)
    requires i < |b| && p < |b[i].procs| && From(c, b, i, JobName(b[i].procs[p]))
    requires b[i].procs[p].kind.Work? && b[i].procs[p].pc.CheckNow?
    ensures var pr, runs := b[i].procs[p], HistoryOf(b[i], JobName(b[i].procs[p])).runs;
            && pr.pc.lastRun <= b[i].clock
            && (forall j :: 0 <= j < |runs| && runs[j].recorded ==> ZERO_TIME < runs[j].finished <= pr.pc.lastRun)
            && var n := RecordedBefore(runs, |runs|); pr.pc.lastRun == if n > 0 then runs[n - 1].finished else ZERO_TIME
  {
    hide HistoryOf, StateAfter, Behaviour, Apart, Timed, HoldsJob, StateInv, ProcsOk, LogOk, StillDue, OnRecord, Logged, NoticeAt;
    var s, pr := b[i], b[i].procs[p];
    var job := JobName(pr);
    JobsAlways(c, b, i);
    ProcOkOf(c, s, p);
    CheckerHoldsJob(c, pr);
    DidAsDecided(c, b, i, job);
    HistoryAt(c, b, i, job);
    LastRunIs(HistoryOf(s, job).runs);
  }

  /** A schedule that is not known leaves the earlier answer standing. */
  lemma UnknownGoesOn(c: Config, s: Sys, p: nat, now: Time, q: Proc)
    requires Guard(c, s, Do(p, Clock(now), q)) && s.procs[p].pc.CheckNow? && !Known(JobConfig(c, JobName(q)).schedule)
    ensures q.pc == Repos(0)
  {
    hide EventAllowed, StillDue;
    CheckEnds(c, s.groups[s.procs[p].group].interrupted, s.procs[p], now, q);
    UnknownIsRefused(JobConfig(c, JobName(q)).schedule, s.procs[p].pc.lastRun, now);
    NotRefuted(c, JobName(q), s.procs[p].pc.lastRun, now);
  }

  lemma NotRefuted(c: Config, job: string, last: Time, now: Time)
    requires !Known(JobConfig(c, job).schedule)
    ensures StillDue(c, job, last, now)
  {
  }

  /** What the check decides. */
  lemma CheckEnds(c: Config, intr: bool, pr: Proc, now: Time, q: Proc)
    requires LocalStep(c, intr, pr, Clock(now), q) && pr.pc.CheckNow?
    ensures pr.kind.Work? && JobName(q) == JobName(pr) && (q.pc == Repos(0) <==> StillDue(c, JobName(q), pr.pc.lastRun, now))
  {
    hide Repositories, StillDue;
  }

  lemma CheckerHoldsJob(c: Config, pr: Proc)
    requires ProcWf(c, pr) && pr.kind.Work? && pr.pc.CheckNow?
    ensures HoldsJob(c, pr)
  {
    hide Repositories;
  }

  lemma LastRunIs(runs: seq<Notifications.Run>)
    ensures var n := RecordedBefore(runs, |runs|);
            StateAfter(runs).lastRun == if n > 0 then runs[n - 1].finished else ZERO_TIME
  {
    var n := RecordedBefore(runs, |runs|);
    assert runs[..|runs|] == runs;
    StateBefore(runs, |runs|);
    if n > 0 {
      StateStep(runs, n - 1);
      assert runs[..n - 1 + 1] == runs[..n];
    }
  }

  lemma DueInPeriods(c: Config, job: string, sched: string, runs: seq<Notifications.Run>, last: Time, now: Time)
    requires sched == JobConfig(c, job).schedule && Known(sched) && last <= now
    requires forall j :: 0 <= j < |runs| && runs[j].recorded ==> ZERO_TIME < runs[j].finished <= last
    requires var n := RecordedBefore(runs, |runs|); last == if n > 0 then runs[n - 1].finished else ZERO_TIME
    ensures StillDue(c, job, last, now) <==>
            forall j :: 0 <= j < |runs| && runs[j].recorded ==> Truncate(runs[j].finished, sched) != Truncate(now, sched)
  {
    hide Truncate;
    DueExactly(sched, last, now);
    PeriodsPartitionTime(sched, last, now);
    forall j | 0 <= j < |runs| && runs[j].recorded
      ensures Truncate(runs[j].finished, sched) == Truncate(now, sched) ==> Truncate(last, sched) == Truncate(now, sched)
    {
      TruncateMonotone(sched, runs[j].finished, last);
      TruncateMonotone(sched, last, now);
    }
  }

  /** And one that could not read it always goes on. */
  lemma UnreadGoesOn(c: Config, b: seq<Sys>, p: nat)
    requires Behaviour(c, b) && p < |b[|b| - 1].procs| && b[|b| - 1].procs[p].kind.Work? && b[|b| - 1].procs[p].pc == CheckDue
    ensures exists t :: Behaviour(c, b + [t]) && t.procs == b[|b| - 1].procs[p := b[|b| - 1].procs[p].(pc := Repos(0))]
  {
    hide JobInv, Step, LocalStep, Init;
    var s := b[|b| - 1];
    var q := s.procs[p].(pc := Repos(0));
    JobsAlways(c, b, |b| - 1);
    InItsGroup(c, s, p);
    CheckFails(c, s.groups[s.procs[p].group].interrupted, s.procs[p]);
    var t := Protocol.Next(s, Do(p, IoError, q));
    BehaviourNext(c, b, Do(p, IoError, q));
  }

  lemma CheckFails(c: Config, intr: bool, pr: Proc)
    requires pr.kind.Work? && pr.pc == CheckDue
    ensures LocalStep(c, intr, pr, IoError, pr.(pc := Repos(0)))
  {
    hide Repositories, StillDue;
  }
}
