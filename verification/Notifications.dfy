/** Failure, recovery and success notifications over a job's history
    (internal/execution/job.go, internal/state/state.go). */
module Notifications {
  import opened Wrappers
  import opened Schedule
  import opened StateFile

  /** The least time between failure notifications for a job that keeps failing. */
  const INTERVAL: int := 24 * HOUR

  /** What was recorded about the job before this run. */
  datatype Prior = Prior(failed: bool, lastRun: Time, failingSince: Option<Time>, failureNotified: Option<Time>)

  function PriorOfCore(c: Core): Prior {
    Prior(c.lastOutcome == Some(Failed), c.lastRun, c.failingSince, c.failureNotified)
  }

  /** A run that cannot read the state counts the job as never run. */
  const UNTOLD := Prior(false, ZERO_TIME, None, None)

  function PriorGiven(told: bool, c: Core): Prior {
    if told then PriorOfCore(c) else UNTOLD
  }

  /** The recorded time, or the last run for a state that never recorded one. */
  function PriorFailingSince(prior: Prior): Time {
    match prior.failingSince
    case Some(t) => t
    case None => prior.lastRun
  }

  /** One run as notify sees it. Each command list holds whether each command
      would work; asked and sent are the clock before and after sending. told
      is whether the state could be read before the run, and recorded whether
      it was written after it. */
  datatype Run = Run(
    started: Time, success: bool,
    failure: seq<bool>, recovery: seq<bool>, onSuccess: seq<bool>,
    asked: Time, sent: Time, finished: Time, told: bool, recorded: bool)

  /** Which lists were run, with the failing-since time they were told, and
      what is recorded with the run. */
  datatype Notice = Notice(failure: Option<Time>, recovery: Option<Time>, onSuccess: bool, errs: nat, failing: Failing)

  function Failures(results: seq<bool>): nat {
    if results == [] then 0 else Failures(results[..|results| - 1]) + if results[|results| - 1] then 0 else 1
  }

  function FailedAt(results: seq<bool>): set<nat> {
    set i: nat | i < |results| && !results[i]
  }

  lemma {:induction false} FailuresAreFailed(results: seq<bool>)
    ensures Failures(results) == |FailedAt(results)|
  {
    if results != [] {
      var n := |results| - 1;
      FailuresAreFailed(results[..n]);
      assert FailedAt(results) == FailedAt(results[..n]) + if results[n] then {} else {n};
    }
  }

  function Decide(prior: Prior, run: Run): Notice {
    if run.success then
      Notice(None, if prior.failed then Some(PriorFailingSince(prior)) else None, true,
             (if prior.failed then Failures(run.recovery) else 0) + Failures(run.onSuccess),
             Failing(None, None))
    else
      var since := if prior.failed then PriorFailingSince(prior) else run.started;
      var notified := if prior.failed then prior.failureNotified else None;
      if run.failure != [] && (notified == None || run.asked - notified.value >= INTERVAL) then
        Notice(Some(since), None, false, Failures(run.failure),
               Failing(Some(since), if Failures(run.failure) == 0 then Some(run.sent) else None))
      else
        Notice(None, None, false, 0, Failing(Some(since), notified))
  }

  /** runHooksAll: every command, whatever the others did. */
  method RunAll(results: seq<bool>) returns (errs: nat)
    ensures errs == Failures(results) == |FailedAt(results)|
  {
    FailuresAreFailed(results);
    errs := 0;
    for i := 0 to |results|
      invariant errs == Failures(results[..i])
    {
      assert results[..i + 1][..i] == results[..i];
      if !results[i] {
        errs := errs + 1;
      }
    }
    assert results[..|results|] == results;
  }

  /** notify. */
  method Notify(prior: Prior, run: Run) returns (n: Notice)
    ensures n == Decide(prior, run)
    ensures n.errs == (if n.failure.Some? then Failures(run.failure) else 0)
                      + (if n.recovery.Some? then Failures(run.recovery) else 0)
                      + (if n.onSuccess then Failures(run.onSuccess) else 0)
    ensures prior.failed && prior.failingSince == None ==>
              && (n.failure.Some? ==> n.failure == Some(prior.lastRun)) && (n.recovery.Some? ==> n.recovery == Some(prior.lastRun))
              && (!run.success ==> n.failing.since == Some(prior.lastRun))
    ensures n.failure.Some? && n.errs == 0 ==> n.failing.notified == Some(run.sent)
    ensures n.failure.Some? && n.errs != 0 ==> n.failing.notified == None
  {
    if run.success {
      n := Notice(None, None, true, 0, Failing(None, None));
      if prior.failed {
        var errs := RunAll(run.recovery);
        n := n.(recovery := Some(PriorFailingSince(prior)), errs := errs);
      }
      var more := RunAll(run.onSuccess);
      return n.(errs := n.errs + more);
    }
    var since, notified := run.started, None;
    if prior.failed {
      since, notified := PriorFailingSince(prior), prior.failureNotified;
    }
    n := Notice(None, None, false, 0, Failing(None, None));
    if |run.failure| > 0 && (notified == None || run.asked - notified.value >= INTERVAL) {
      var errs := RunAll(run.failure);
      n := n.(failure := Some(since), errs := errs);
      notified := None;
      if errs == 0 {
        notified := Some(run.sent);
      }
    }
    n := n.(failing := Failing(Some(since), notified));
  }

  // ----- Histories -----

  function RecordOf(run: Run): RunRecord {
    RunRecord(run.started, run.finished, if run.success then Success else Failed, Tick, "", [])
  }

  /** The job's state after its runs, each one recorded on top of those before. */
  function StateAfter(h: seq<Run>): JobState {
    if h == [] then NEVER_RAN
    else
      var before, last := StateAfter(h[..|h| - 1]), h[|h| - 1];
      if last.recorded then WithRun(before, RecordOf(last), Decide(PriorGiven(last.told, CoreOfJob(before)), last).failing)
      else before
  }

  /** What run k was told of those before it. */
  function PriorAt(h: seq<Run>, k: nat): Prior
    requires k < |h|
  {
    PriorGiven(h[k].told, CoreOfJob(StateAfter(h[..k])))
  }

  /** What run k of a history did. */
  function NoticeAt(h: seq<Run>, k: nat): Notice
    requires k < |h|
  {
    Decide(PriorAt(h, k), h[k])
  }

  /** A clock that does not go back, within a run and from one to the next. */
  predicate Timed(h: seq<Run>) {
    && (forall k :: 0 <= k < |h| ==> h[k].started <= h[k].asked <= h[k].sent <= h[k].finished)
    && (forall j, k :: 0 <= j < k < |h| ==> h[j].finished <= h[k].started)
  }

  /** Where the last run recorded before run k ends: it is run n - 1, if n is not 0. */
  function RecordedBefore(h: seq<Run>, k: nat): (n: nat)
    requires k <= |h|
    ensures n <= k && (n > 0 ==> h[n - 1].recorded) && forall i :: n <= i < k ==> !h[i].recorded
  {
    if k == 0 || h[k - 1].recorded then k else RecordedBefore(h, k - 1)
  }

  /** The last run recorded before run k failed. */
  predicate FailedBefore(h: seq<Run>, k: nat)
    requires k <= |h|
  {
    var n := RecordedBefore(h, k);
    n > 0 && !h[n - 1].success
  }

  /** Run k follows run i in one streak of failures: run i is recorded, all
      recorded from it on failed, and those after it, and run k, could read so. */
  predicate Follows(h: seq<Run>, i: nat, k: nat)
    requires i < k < |h|
  {
    && h[i].recorded && h[k].told
    && (forall m :: i <= m < k && h[m].recorded ==> !h[m].success)
    && (forall m :: i < m < k && h[m].recorded ==> h[m].told)
  }

  /** The first run of the streak of failures that run k belongs to. */
  function StreakStart(h: seq<Run>, k: nat): (start: nat)
    requires k < |h|
    ensures start <= k && (start < k ==> Follows(h, start, k))
  {
    var n := RecordedBefore(h, k);
    if h[k].told && n > 0 && !h[n - 1].success then
      var start := StreakStart(h, n - 1);
      assert start < n - 1 ==> Follows(h, start, n - 1);
      start
    else k
  }

  /** And it is the first: nothing before it is followed by run k. */
  lemma {:induction false} StreakStartIsFirst(h: seq<Run>, i: nat, k: nat)
    requires i < k < |h| && Follows(h, i, k)
    ensures StreakStart(h, k) <= i
  {
    var n := RecordedBefore(h, k);
    FollowsLast(h, i, k);
    if i < n - 1 {
      StreakStartIsFirst(h, i, n - 1);
    }
  }

  /** Following goes by way of the last run recorded. */
  lemma FollowsLast(h: seq<Run>, i: nat, k: nat)
    requires i < k < |h|
    ensures var n := RecordedBefore(h, k);
            Follows(h, i, k) <==> h[k].told && n > 0 && !h[n - 1].success && (i == n - 1 || (i < n - 1 && Follows(h, i, n - 1)))
  {
    var n := RecordedBefore(h, k);
    if Follows(h, i, k) {
      assert i <= n - 1 && h[n - 1].recorded;
    }
  }

  /** A notification is tried, and counts when every command worked. */
  predicate Tried(h: seq<Run>, k: nat)
    requires k < |h|
  {
    NoticeAt(h, k).failure.Some?
  }

  predicate Counted(h: seq<Run>, k: nat)
    requires k < |h|
  {
    Tried(h, k) && Failures(h[k].failure) == 0
  }

  lemma StateStep(h: seq<Run>, k: nat)
    requires k < |h|
    ensures StateAfter(h[..k + 1]) == if h[k].recorded then WithRun(StateAfter(h[..k]), RecordOf(h[k]), NoticeAt(h, k).failing)
                                      else StateAfter(h[..k])
  {
    assert h[..k + 1][..k] == h[..k];
  }

  /** Runs that are not recorded leave no trace. */
  lemma {:induction false} StateBefore(h: seq<Run>, k: nat)
    requires k <= |h|
    ensures StateAfter(h[..k]) == StateAfter(h[..RecordedBefore(h, k)])
    ensures RecordedBefore(h, k) == 0 ==> StateAfter(h[..k]) == NEVER_RAN
  {
    if k > 0 && !h[k - 1].recorded {
      StateStep(h, k - 1);
      StateBefore(h, k - 1);
    }
  }

  lemma LastOutcome(h: seq<Run>, k: nat)
    requires k <= |h|
    ensures StateAfter(h[..k]).lastOutcome == Some(Failed) <==> FailedBefore(h, k)
  {
    hide StateAfter, NoticeAt;
    StateBefore(h, k);
    var n := RecordedBefore(h, k);
    if n > 0 {
      StateStep(h, n - 1);
    }
  }

  lemma PriorFailed(h: seq<Run>, k: nat)
    requires k < |h|
    ensures PriorAt(h, k).failed <==> h[k].told && FailedBefore(h, k)
  {
    hide StateAfter;
    LastOutcome(h, k);
  }

  /** What a run leaves of the failing times, when it is recorded. */
  lemma FailingAfter(h: seq<Run>, k: nat)
    requires k < |h| && h[k].recorded
    requires FailedBefore(h, k) ==> StateAfter(h[..k]).failingSince == Some(h[StreakStart(h, RecordedBefore(h, k) - 1)].started)
    ensures var js := StateAfter(h[..k + 1]);
            && (js.failingSince.Some? <==> !h[k].success)
            && (!h[k].success ==> js.failingSince == Some(h[StreakStart(h, k)].started))
            && (h[k].success ==> js.failureNotified == None)
  {
    hide StateAfter, Failures;
    StateStep(h, k);
    PriorFailed(h, k);
  }

  /** failing_since is set exactly while the last run recorded failed, and is when
      the first run of that streak of failures started. */
  lemma {:induction false} FailingSinceIsStreakStart(h: seq<Run>, k: nat)
    requires k <= |h|
    ensures var js, n := StateAfter(h[..k]), RecordedBefore(h, k);
            && (js.failingSince.Some? <==> js.lastOutcome == Some(Failed))
            && (js.lastOutcome == Some(Failed) <==> FailedBefore(h, k))
            && (FailedBefore(h, k) ==> js.failingSince == Some(h[StreakStart(h, n - 1)].started))
            && (!FailedBefore(h, k) ==> js.failureNotified == None)
  {
    hide StateAfter, NoticeAt, Follows, WithRun, Decide, Failures;
    var n := RecordedBefore(h, k);
    LastOutcome(h, k);
    StateBefore(h, k);
    if n > 0 {
      assert h[..n - 1 + 1] == h[..n];
      FailingSinceIsStreakStart(h, n - 1);
      FailingAfter(h, n - 1);
    }
  }

  /** Recovery runs on exactly the successes that could read that the last run
      recorded failed, and is told when the streak that just ended began. */
  lemma RecoveryExactly(h: seq<Run>, k: nat)
    requires k < |h|
    ensures NoticeAt(h, k).recovery.Some? <==> h[k].success && h[k].told && FailedBefore(h, k)
    ensures NoticeAt(h, k).recovery.Some? ==>
              NoticeAt(h, k).recovery == Some(h[StreakStart(h, RecordedBefore(h, k) - 1)].started)
    ensures NoticeAt(h, k).onSuccess <==> h[k].success
  {
    hide StateAfter;
    PriorFailed(h, k);
    FailingSinceIsStreakStart(h, k);
  }

  /** Recovery is promised of a success straight after a failure. A success does
      as promised exactly when it could read the state, or follows no failure;
      and the run before it was recorded, or came out as what was. */
  lemma RecoveryAsPromised(h: seq<Run>, k: nat)
    requires 0 < k < |h| && h[k].success
    ensures (NoticeAt(h, k).recovery.Some? <==> !h[k - 1].success) <==>
            if h[k].told then h[k - 1].recorded || (FailedBefore(h, k - 1) <==> !h[k - 1].success) else h[k - 1].success
  {
    hide NoticeAt;
    RecoveryExactly(h, k);
  }

  /** A failure, and a success that could not read the state: no recovery, then or ever. */
  const LOST := [Run.Run(0, false, [true], [], [], 1, 2, 3, true, true), Run.Run(4, true, [], [true], [], 5, 6, 7, false, true),
                 Run.Run(8, true, [], [true], [], 9, 10, 11, true, true)]

  lemma RecoveryLost()
    ensures Timed(LOST) && forall k :: 0 <= k < 3 ==> NoticeAt(LOST, k).recovery == None
  {
    hide NoticeAt;
    forall k | 0 <= k < 3
      ensures NoticeAt(LOST, k).recovery == None
    {
      RecoveryExactly(LOST, k);
    }
  }

  /** A failure, and two successes the first of which was not recorded: recovery twice. */
  const AGAIN := [Run.Run(0, false, [true], [], [], 1, 2, 3, true, true), Run.Run(4, true, [], [true], [], 5, 6, 7, true, false),
                  Run.Run(8, true, [], [true], [], 9, 10, 11, true, true)]

  lemma RecoveryAgain()
    ensures Timed(AGAIN) && forall k :: 1 <= k < 3 ==> NoticeAt(AGAIN, k).recovery == Some(0)
  {
    hide NoticeAt;
    forall k | 1 <= k < 3
      ensures NoticeAt(AGAIN, k).recovery == Some(0)
    {
      RecoveryExactly(AGAIN, k);
    }
  }

  /** After a failure, a notification is tried exactly when none is on record or
      the last is old enough. */
  lemma TriedNeeds(h: seq<Run>, k: nat)
    requires k < |h| && !h[k].success && h[k].failure != []
    ensures var notified := StateAfter(h[..k]).failureNotified;
            Tried(h, k) <==> !h[k].told || !FailedBefore(h, k) || notified == None || h[k].asked - notified.value >= INTERVAL
  {
    hide StateAfter;
    PriorFailed(h, k);
  }

  /** What a failed run leaves of notifications, when it is recorded. */
  lemma NotifiedAfter(h: seq<Run>, k: nat)
    requires k < |h| && !h[k].success && h[k].recorded
    ensures StateAfter(h[..k + 1]).failureNotified
         == if Tried(h, k) then if Failures(h[k].failure) == 0 then Some(h[k].sent) else None
            else if h[k].told && FailedBefore(h, k) then StateAfter(h[..k]).failureNotified
            else None
  {
    StateStep(h, k);
    PriorFailed(h, k);
    hide StateAfter;
  }

  lemma TriedHasCommands(h: seq<Run>, k: nat)
    requires k < |h| && Tried(h, k)
    ensures !h[k].success && h[k].failure != []
    ensures NoticeAt(h, k).failure == Some(h[StreakStart(h, k)].started)
  {
    hide StateAfter;
    PriorFailed(h, k);
    FailingSinceIsStreakStart(h, k);
  }

  /** Since a notification counted in this streak, either a later one is on
      record, or another was tried no sooner than the interval allows. */
  lemma {:induction false} SinceCounted(h: seq<Run>, i: nat, k: nat)
    requires Timed(h) && i <= k < |h| && !h[k].success && h[k].recorded && (i == k || Follows(h, i, k)) && Counted(h, i)
    ensures match StateAfter(h[..k + 1]).failureNotified
            case Some(t) => h[i].sent <= t
            case None => h[i].sent + INTERVAL <= h[k].asked
  {
    hide StateAfter, Tried, Follows, Failures;
    NotifiedAfter(h, k);
    if i < k {
      var n := RecordedBefore(h, k);
      FollowsLast(h, i, k);
      SinceCounted(h, i, n - 1);
      StateBefore(h, k);
      if Tried(h, k) {
        TriedHasCommands(h, k);
        TriedNeeds(h, k);
      }
    }
  }

  /** What is on record as notified is the sending of some run of the streak. */
  lemma {:induction false} WhoCounted(h: seq<Run>, k: nat) returns (i: nat)
    requires k < |h| && !h[k].success && h[k].recorded && StateAfter(h[..k + 1]).failureNotified.Some?
    ensures i <= k && (i == k || Follows(h, i, k)) && Counted(h, i)
    ensures StateAfter(h[..k + 1]).failureNotified == Some(h[i].sent)
  {
    hide StateAfter, Tried, Follows, Failures;
    NotifiedAfter(h, k);
    if Tried(h, k) {
      i := k;
    } else {
      var n := RecordedBefore(h, k);
      StateBefore(h, k);
      i := WhoCounted(h, n - 1);
      FollowsLast(h, i, k);
    }
  }

  /** Main result: a failed run with someone to notify tries to, if and only if
      no run it follows in its streak got a notification through in the 24
      hours before. */
  lemma TriedExactly(h: seq<Run>, k: nat)
    requires Timed(h) && k < |h| && !h[k].success && h[k].failure != []
    ensures Tried(h, k) <==> forall i :: 0 <= i < k && Follows(h, i, k) && Counted(h, i) ==> h[i].sent + INTERVAL <= h[k].asked
  {
    hide StateAfter, Tried, Follows, Failures;
    TriedNeeds(h, k);
    StateBefore(h, k);
    var n := RecordedBefore(h, k);
    if Tried(h, k) {
      forall i | 0 <= i < k && Follows(h, i, k) && Counted(h, i)
        ensures h[i].sent + INTERVAL <= h[k].asked
      {
        FollowsLast(h, i, k);
        SinceCounted(h, i, n - 1);
      }
    } else {
      var i := WhoCounted(h, n - 1);
      FollowsLast(h, i, k);
    }
  }

  /** All who are notified of a streak are told its start; and the first failure
      of one is notified at once. */
  lemma StreakIsNotified(h: seq<Run>, k: nat)
    requires k < |h| && !h[k].success && h[k].failure != []
    ensures StreakStart(h, k) == k ==> Tried(h, k)
    ensures Tried(h, k) ==> NoticeAt(h, k).failure == Some(h[StreakStart(h, k)].started)
  {
    hide StateAfter, NoticeAt;
    TriedNeeds(h, k);
    if Tried(h, k) {
      TriedHasCommands(h, k);
    }
  }

  /** One that did not get through is tried again by the next failed run, unless
      it could not be recorded that it did not. */
  lemma UnsentIsRetried(h: seq<Run>, i: nat, k: nat)
    requires i < k < |h| && !h[k].success && h[k].failure != []
    requires i == RecordedBefore(h, k) - 1 && Tried(h, i) && !Counted(h, i)
    ensures Tried(h, k)
  {
    hide StateAfter, Tried, Failures;
    TriedNeeds(h, k);
    StateBefore(h, k);
    TriedHasCommands(h, i);
    NotifiedAfter(h, i);
  }

  /** So while every run recorded fails, a notification is repeated within the
      day only if the run that sent it was not recorded, or one since, this one
      or one recorded, could not read the state. */
  lemma RepeatNeeds(h: seq<Run>, i: nat, k: nat)
    requires Timed(h) && i < k < |h| && (forall m :: i < m < k && h[m].recorded ==> !h[m].success)
    requires Counted(h, i) && Tried(h, k) && h[k].asked < h[i].sent + INTERVAL
    ensures !h[i].recorded || exists m :: i < m <= k && !h[m].told && (m == k || h[m].recorded)
  {
    hide Counted, Tried, NoticeAt, Timed, Follows;
    TriedIfCounted(h, i);
    TriedHasCommands(h, i);
    TriedHasCommands(h, k);
    TriedExactly(h, k);
    if h[i].recorded && forall m :: i < m <= k && (m == k || h[m].recorded) ==> h[m].told {
      FollowsWhenTold(h, i, k);
    }
  }

  lemma FollowsWhenTold(h: seq<Run>, i: nat, k: nat)
    requires i < k < |h| && h[i].recorded && !h[i].success
    requires forall m :: i < m < k && h[m].recorded ==> !h[m].success
    requires forall m :: i < m <= k && (m == k || h[m].recorded) ==> h[m].told
    ensures Follows(h, i, k)
  {
  }

  lemma TriedIfCounted(h: seq<Run>, i: nat)
    requires i < |h| && Counted(h, i)
    ensures Tried(h, i)
  {
    hide Tried;
  }

  /** Exactly: a job that fails next after a notification got through, within
      the day, notifies again if and only if the run cannot read the state; or
      the run before was not recorded, and either had read the state itself or
      had nothing in it to keep this one from notifying. */
  lemma NextWithinTheDay(h: seq<Run>, i: nat)
    requires Timed(h) && i + 1 < |h| && Counted(h, i)
    requires !h[i + 1].success && h[i + 1].failure != [] && h[i + 1].asked < h[i].sent + INTERVAL
    ensures var k := i + 1;
            Tried(h, k) <==>
            || !h[k].told
            || (!h[i].recorded
                && (h[i].told || forall j :: 0 <= j < i && Follows(h, j, k) && Counted(h, j) ==> h[j].sent + INTERVAL <= h[k].asked))
  {
    hide Counted, Tried, NoticeAt, Timed, Follows;
    var k := i + 1;
    TriedIfCounted(h, i);
    TriedHasCommands(h, i);
    TriedExactly(h, i);
    TriedExactly(h, k);
    FollowsNext(h, i, k);
    assert h[i].asked <= h[k].asked by {
      TimedNext(h, i);
    }
  }

  lemma TimedNext(h: seq<Run>, i: nat)
    requires Timed(h) && i + 1 < |h|
    ensures h[i].asked <= h[i + 1].asked
  {
  }

  /** What the next run follows: a failed run that was recorded; or, when this
      one was not recorded but both could read, whatever this one follows. */
  lemma FollowsNext(h: seq<Run>, i: nat, k: nat)
    requires k == i + 1 < |h| && !h[i].success
    ensures Follows(h, i, k) <==> h[i].recorded && h[k].told
    ensures !h[k].told ==> forall j :: 0 <= j <= i ==> !Follows(h, j, k)
    ensures !h[i].recorded && h[i].told ==> forall j :: 0 <= j < i && Follows(h, j, k) ==> Follows(h, j, i)
  {
  }

  /** Two failures within moments, the second of which could not read the state,
      or the first of which was not recorded. */
  const UNREAD := [Run.Run(0, false, [true], [], [], 1, 2, 3, true, true), Run.Run(4, false, [true], [], [], 5, 6, 7, false, true)]

  const UNWRITTEN := [Run.Run(0, false, [true], [], [], 1, 2, 3, true, false), Run.Run(4, false, [true], [], [], 5, 6, 7, true, true)]

  /** Both are notified, and failing_since is that of the second. */
  lemma RepeatedWithinTheDay(h: seq<Run>)
    requires h == UNREAD || h == UNWRITTEN
    ensures Timed(h) && Counted(h, 0) && Counted(h, 1) && h[1].asked < h[0].sent + INTERVAL
    ensures StateAfter(h).failingSince == Some(4)
  {
    hide StateAfter, Tried;
    assert [true][..0] == [] && Failures([true]) == 0;
    TriedNeeds(h, 0);
    TriedNeeds(h, 1);
    FailingSinceIsStreakStart(h, 2);
    assert h[..2] == h;
  }
}
