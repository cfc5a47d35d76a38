# rest-o-matic, modelled and proved

rest-o-matic schedules restic backups without a daemon. Every `tick`, `run` and
`exec` is a process of its own; they meet only in lock files, one JSON state
file and a snapshot-list file for each job. This project models the parts of it
in which the difficulty lies, in Dafny, and proves what they promise:

- **The execution protocol** (`Protocol*.dfy`, `Execute.dfy`). Any number of
  processes, each a program with a program counter, run against shared lock
  tables, a state file that is replaced by a rename, per-job snapshot lists and
  a clock. Interrupts, kills at any point, probes by `status`, failing system
  calls and newly started invocations are steps like any other. Proved over
  whole runs: mutual exclusion, deadlock freedom, termination, linearizable
  updates of the state file, what a job's lock protects, at most one tick run
  per schedule period so long as its due check could read the state and the run
  before it was recorded, what each way of ending means, that nothing interrupted
  in time is run, and exactly when each of a job's runs notifies, whether
  or not it was recorded. Every history of such runs also happens in some run
  of the system. `Execute.dfy` is the code itself, with its polling loops, slot scan and
  deferred releases, acting on that shared world with anything the others do in
  between; it is proved to make nothing but runs of the protocol, to which all
  of the above applies.
- **State machines over histories.** The state file and its changes
  (`StateFile.dfy`), failure and recovery notifications (`Notifications.dfy`),
  one job run from its hooks to its notifications (`RunJob.dfy`), check-ins with
  lost requests and replies (`Checkin.dfy`) and the throttled progress record
  (`Recorder.dfy`).
- **Algorithms against what they mean.** Schedule arithmetic (`Schedule.dfy`),
  edit distance and suggestions (`EditDistance.dfy`), exclude patterns
  (`Excludes.dfy`), locked values in a YAML graph with aliases and merges, which
  may be cyclic (`Locked.dfy`, `LockedUse.dfy`), restic's output read in pieces
  (`Progress.dfy`), locking values again in a file's own text (`Relock.dfy`) and
  the read-mode check on restores (`RestoreCheck.dfy`).

`Wrappers.dfy`, `Sequences.dfy`, `StableSort.dfy` and `Names.dfy` hold what these
share.

Restic, hooks, age encryption, fingerprints, `filepath.Match` and JSON decoding
are open: nondeterministic results or function parameters. Where a theorem needs
something of them it says so in its `requires` (fingerprints tell contents
apart, a lock opens to what was locked). Lock files are exclusive and die with
their process. All processes share one configuration.

## Where the code and its description part

The model follows the code. In these places what the code does is not what its
comments or documentation promise; each has a lemma that gives the input, and
one that says exactly when the promise does hold.

- A top-level `<<` supplies sections to the decoder (internal/config/load.go:48)
  and to the walk for unknown keys (internal/config/unknown.go:53), but neither
  the placement walk nor the list of locked values looks into it: a locked value
  there can stand anywhere and is not listed (`LockedUse.MergedInIsMissed`). That
  is the only way, when every `<<` names one mapping (`LockedUse.DocumentExactly`).
- A list of mappings merged into `repositories` (`<<: [*a, *b]`) is judged one
  level deeper than its entries stand, so a locked value that may not stand
  where it is used can be accepted, and is then not listed
  (`LockedUse.ListedIsMisplaced`, `LockedUse.PlacementExactly`).
- Restic's output is split into lines independently of how it arrives only while
  no line is longer than 16 MiB: any longer line has a split that shows it
  (`Progress.SplitMatters`, `Progress.ChunkIndependentExactly`).
- Replacing locked values one after another is replacing them all at once if and
  only if each text put in is left alone by the replacements still to come
  (`Relock.SecondSpoilsFirst`, `Relock.SequentialExactly`).
- A restore flag missing from the check's list does not always make the check
  refuse (`RestoreCheck.UnknownFlagHidesLatest`), and a flag's value that looks
  like `--tag` is taken for a filter (`RestoreCheck.PathThatLooksLikeTag`); the
  check is sound exactly when it and restic agree on the arguments
  (`RestoreCheck.SoundExactly`).
- A job is due from the next boundary on, except that one whose last run is the
  zero time itself always is (`Schedule.DueAtZeroTime`, `Schedule.DueFromNext`).
- Two kinds of rooted pattern exclude all of a rooted source without being
  reported: one that
  adds only `**` to it (`Excludes.StarsAreNotReported`), and one that meets a
  `**` within it and whose rest matches a stretch of it from there on, as `/**/d`
  does on `/a/d` (`Excludes.AnyWithinIsNotReported`). There are no others
  (`Excludes.UnreportedExactly`).
- Saving a snapshot list keeps the job's other lists if and only if the file
  could be read or held no other (`ProtocolJobs.OthersKeptExactly`); wherever a
  list is about to be saved, a read that fails and a write that works drop the
  others (`ProtocolJobs.UnreadListsAreDropped`).
- A failing job is notified of again within 24 hours of a notification that got
  through, though no success came between, if the run that notified could not be
  recorded, or a run since could not read the state. A state file that can be
  read and not written lets it notify at every tick
  (`ProtocolHistories.UnwrittenRepeats`, `ProtocolHistories.UnreadRepeats`). These
  are the only ways (`ProtocolNotices.RepeatsOverRuns`), and of two runs in a row
  the exact ones (`ProtocolNotices.NextOverRuns`).
- A success after a failure can go without its recovery notification, and a
  recovery can be notified twice, for the same two reasons
  (`ProtocolHistories.RecoveryGoesAstray`); `ProtocolNotices.RecoveryOverRuns` says
  exactly when it goes out, and when that is as promised.
- A second tick run of a job falls in one period if its due check could not read
  the state (`ProtocolNotices.UnreadGoesOn`) or no run that finished in the period
  was recorded (`ProtocolHistories.UnwrittenRepeats`), and in no other case
  (`ProtocolNotices.GoesOnExactly`, `ProtocolNotices.TickRunsOverRuns`).

## Model

| member | source | states |
|---|---|---|
| `ProtocolLocks.LocksAlways` | internal/lock/lock.go:38-80 | in every state of every run, with kills and interrupts anywhere, a lock file is owned by exactly the process whose program says it holds it |
| `ProtocolLocks.ExecutingHoldsEverything` | cmd/rest-o-matic/exec.go:54-93 | no hook or backup starts before the job lock, every repository's lock and a slot are held, and all are kept until the run and its snapshot lists are recorded |
| `ProtocolLocks.NoJobTwice` | internal/lock/lock.go:111-118 | no two processes ever run, or wait to run, the same job |
| `ProtocolLocks.NoRepositoryTwice` | internal/execution/exec.go:313-333 | no repository is used by two running jobs, by a running job and a locking `exec`, or by two such `exec`s |
| `ProtocolLocks.AtMostMaxConcurrent` | internal/lock/lock.go:171-195 | the set of running processes never has more than max_concurrent members, or one if that is not positive |
| `ProtocolLocks.JobHeldIsAccurate` | internal/lock/lock.go:122-145 | the shared probe fails exactly when some process holds the job's lock |
| `ProtocolProgress.RepoWaiterMoves` | cmd/rest-o-matic/exec.go:72-80 | following who holds the repository waited for leads, through ever later names, to a process that can go on: the sorted order admits no cycle of waits |
| `ProtocolProgress.DeadlockFree` | cmd/rest-o-matic/exec.go:46-93 | in every reachable state with anything unfinished some invocation has a step of its own, not a poll and not a failure |
| `ProtocolTermination.StepLowers` | cmd/rest-o-matic/tick.go:150-187 | every step of an invocation, and every interrupt and kill, lowers one measure of the whole system; the clock and probes never raise it |
| `ProtocolTermination.StepsAreBounded` | cmd/rest-o-matic/tick.go:150-187 | with nothing new started, at most that many steps of invocations are left, however everything interleaves |
| `ProtocolTermination.CanFinish` | cmd/rest-o-matic/tick.go:150-187 | from every reachable state there is a way for all invocations to end without a failure |
| `ProtocolTermination.StoppedIsFinished` | cmd/rest-o-matic/tick.go:150-187 | a run in which no step is left has ended every process and started every due job not given up on |
| `ProtocolState.StateAlways` | internal/state/state.go:274-331 | in every state of every run what a process is about to write is its change made to what the file holds now, and the log of commits explains the file |
| `ProtocolState.UpdatesAreLinearizable` | internal/state/state.go:274-331 | the file is the fold of the committed changes in commit order; an update that returned without error is in the log exactly once, as it was meant, and one that failed is not in it |
| `ProtocolState.ReadersSeeAPrefix` | internal/state/state.go:152-170 | whoever reads the file, with no lock, sees the fold of a prefix of the commits |
| `ProtocolState.LogGrows` | internal/state/state.go:274-331 | no committed update is ever lost: the log at one time is a prefix of the log later |
| `ProtocolJobs.OthersLeaveJob` | cmd/rest-o-matic/exec.go:54-66 | a step of another process leaves the job state and snapshot lists of a job whose lock is held |
| `ProtocolJobs.PriorStaysCurrent` | cmd/rest-o-matic/exec.go:115-158 | what a run read of the job's outcome and failing times is still what is recorded when it records its own |
| `ProtocolJobs.MarkerIsTheHoldersOwn` | cmd/rest-o-matic/exec.go:63-66 | past ClearRunning a running marker in the file is the holder's own: none before it marks the job, its own until it records the run |
| `ProtocolJobs.SavingListsLosesNothing` | internal/state/snapshots.go:77-94 | saving a list with no lock but the job's changes that repository's list and no other, in this job or any, provided the file could be read; the others are dropped when it could not |
| `ProtocolJobs.OthersKeptExactly` | internal/state/snapshots.go:84-94 | the job's other lists stay as they were if and only if the file could be read or held no other |
| `ProtocolJobs.UnreadListsAreDropped` | internal/state/snapshots.go:84-94 | any run of the system with a process about to save a list goes on, by a read that fails and a write that works, to a file in which the job has that list alone |
| `ProtocolJobs.OneTickRunPerPeriod` | cmd/rest-o-matic/tick.go:158-184 | of two recorded runs of a job the later, if a tick's check could read the state and found it due, was found so in a period after the one the earlier finished in, and finished no earlier than that: over overlapping ticks, manual runs, missed periods and kills |
| `ProtocolJobs.FirstInItsPeriod` | cmd/rest-o-matic/exec.go:67-71 | while a tick run is under way no recorded run of the job finished in the period it was found due in |
| `ProtocolNotices.FailingSinceOverRuns` | internal/execution/job.go:227-270 | in any run of the system from a state with nothing recorded of the job, failing-since in the file is set exactly while the last recorded run failed, to the start of the first of its streak; a streak begins at a failure after a recorded success and again at one whose run could not read the state |
| `ProtocolNotices.DayApartOverRuns` | internal/execution/job.go:57-60 | in any such run of the system, of all failed runs of the job, recorded or not and whichever processes make them, one with someone to notify tries to if and only if no run it follows in its streak got a notification through in the 24 hours before |
| `ProtocolNotices.RepeatsOverRuns` | internal/execution/job.go:243-261 | while all recorded runs fail, a run notifies again within 24 hours of a notification that got through only if the run that sent it was not recorded, or one since, itself or a recorded one, could not read the state |
| `ProtocolNotices.NextOverRuns` | cmd/rest-o-matic/exec.go:116-148 | of two runs in a row, when the first got a notification through and the second fails within 24 hours, the second notifies again if and only if it could not read the state; or the first was not recorded, and had itself read the state or nothing recorded before holds the second back |
| `ProtocolNotices.RecoveryOverRuns` | internal/execution/job.go:229-241 | of all runs of a job, recovery goes out on exactly the successes that could read that the last recorded run failed, telling when that streak began; and it goes out on the first success after a failure and no other exactly when the state could be read, or no failure came before; and the run before was recorded, or came out as the last recorded one did |
| `ProtocolNotices.HistoriesGrow` | cmd/rest-o-matic/exec.go:115-148 | a job's runs stay as they were and did what they did; all that may still become of one is that it is recorded |
| `ProtocolNotices.TickRunsOverRuns` | cmd/rest-o-matic/tick.go:158-184 | of all runs of a job, one whose check found it due was found so in a later period than any recorded run before it finished in |
| `ProtocolNotices.GoesOnExactly` | cmd/rest-o-matic/tick.go:174-181 | a tick whose check could read the state goes on if and only if no recorded run of the job finished in the period of now |
| `ProtocolNotices.UnknownGoesOn` | cmd/rest-o-matic/tick.go:174-181 | one whose schedule is not known goes on |
| `ProtocolNotices.UnreadGoesOn` | cmd/rest-o-matic/tick.go:174-181 | any run of the system with a tick about to check goes on, by a read that fails, to one in which that tick goes ahead |
| `ProtocolNotices.DidAsDecided` | cmd/rest-o-matic/exec.go:115-148 | each run of a job did what its place in the history of all of them decides; what the file records of the job is what the recorded ones leave; and those are, in order and with the failing times each left, the ones in the log of commits |
| `ProtocolHistories.EveryHistoryHappens` | cmd/rest-o-matic/exec.go:46-159 | for any configuration and any history of a job with a clock that does not go back, whichever runs failed, could read the state and were recorded, some run of the system makes exactly those runs, found due as the schedule says and notifying as the history decides |
| `ProtocolHistories.UnwrittenRepeats` | cmd/rest-o-matic/exec.go:146-148 | failing runs that can read the state and are not recorded, however close together and in one period too: all are found due, and all get a notification through |
| `ProtocolHistories.UnreadRepeats` | cmd/rest-o-matic/exec.go:116-128 | a run of the system in which two failing runs moments apart, the second of which could not read the state, both notify |
| `ProtocolHistories.RecoveryGoesAstray` | internal/execution/job.go:229-241 | a run of the system with a success after a failure and no recovery ever, and one in which recovery from one failure goes out twice |
| `ProtocolEndings.InterruptedIsNotStarted` | cmd/rest-o-matic/exec.go:86-91 | an execution interrupted before its last look, wherever it is, is never run: from then on it is on its way to that look or leaving without having run, and the log never holds a marker or a run of its own |
| `ProtocolEndings.NoneStartedAfter` | cmd/rest-o-matic/tick.go:157-166 | once an invocation is interrupted no further job of it is started |
| `ProtocolEndings.InterruptedCanStop` | internal/lock/lock.go:62-80 | an interrupted execution waiting for a repository or a slot can stop waiting at any moment |
| `ProtocolEndings.GivesUpExactly` | cmd/rest-o-matic/exec.go:46-62 | before it has everything an execution gives up as already running only on finding the job's lock busy, as not started only when interrupted, and as failed only on a failure when not; with everything held, exactly when interrupted |
| `ProtocolEndings.EndingsTell` | cmd/rest-o-matic/exec.go:11-33 | over any run of the system, an execution that ended as run tried to clear, to mark and to record its own run; one that ended otherwise, if not killed, neither marked nor recorded; not started means interrupted, and not due means a tick |
| `ProtocolEndings.TickLooks` | cmd/rest-o-matic/exec.go:68-70 | no job of a tick goes on to run, or is found not due, without a look at the state under its lock |
| `ProtocolEndings.StartedInOrder` | cmd/rest-o-matic/tick.go:150-187 | an invocation starts its jobs in the order found due, each once and under its own trigger, and has no more than max_concurrent of them going, or one if that is not positive |
| `ProtocolEndings.FillsUp` | cmd/rest-o-matic/tick.go:150-166 | and not interrupted it can always start more, until that many are going or none is left |
| `ProtocolEndings.ListsInOrder` | cmd/rest-o-matic/exec.go:150-157 | an execution has come to each snapshot list its run had to save before those still left, in order and whatever became of the others; to all of them when it has run |
| `Execute.World.TryFile` | internal/lock/lock.go:38-55 | one attempt never waits: it takes a lock that is free at that moment, reports one held, or fails, and does nothing else |
| `Execute.World.AcquireSlot` | internal/lock/lock.go:176-199 | tries the slot files below the limit from the lowest, with others acting between tries; gets one after finding each lower one held, and reports none only after finding every one held |
| `Execute.Observer.JobHeld` | internal/lock/lock.go:122-145 | the answer is true of some moment of the call: some process then held the job's lock, or, when it says no, none did; a lock file that does not exist included |
| `Execute.World.WaitFile` | internal/lock/lock.go:62-80 | tries, and while the lock is held polls, until it is got, an attempt fails, or the work is cancelled, or is waiting still; the process has moved only if it got it, and without a failure gives up or waits only if it found the lock held |
| `Execute.World.WaitSlot` | internal/lock/lock.go:201-203 | polls over all slots, and ends with one below the limit, an error, a cancellation, or waiting still; the last two only after finding every slot held |
| `Execute.World.Others` | cmd/rest-o-matic/tick.go:140-146 | whatever else happens in between, the run stays one of the protocol and this process stays where it is |
| `Execute.UpdateState` | internal/state/state.go:274-331 | Store.update takes the program's steps of one update, and reports success exactly when it is in the log, once; where no system call fails it does not, unless the state lock was found held |
| `Execute.ReleaseAll` | cmd/rest-o-matic/exec.go:52-93 | the deferred releases free every lock held, last taken first |
| `Execute.AcquireJob` | internal/lock/lock.go:111-118 | goes on with the job lock, or reports the job running only if it found the lock held or being looked at |
| `Execute.CheckStillDue` | cmd/rest-o-matic/tick.go:174-181 | goes on when the schedule is still due or cannot be told, and otherwise gives the job lock back |
| `Execute.ClearStale` | cmd/rest-o-matic/exec.go:63-66 | clears a marker left behind, and tries once to take the progress record away |
| `Execute.WaitRepositories` | cmd/rest-o-matic/exec.go:72-80 | takes every repository lock in the program's order, unwinds those it got, or is waiting for the next |
| `Execute.ExecuteAndRecord` | cmd/rest-o-matic/exec.go:115-159 | from reading the prior state to the last snapshot list, whatever fails, it follows the program and ends ready to release everything, having tried once to take the progress record away; where no system call fails the prior state was read, that record is gone, and the run is recorded unless the state lock was found held |
| `Execute.SaveList` | internal/state/snapshots.go:84-94 | when it writes, which it does where no system call fails, the job's lists are those of the moment before with this repository's replaced, or this one alone when they could not be read |
| `Execute.ExecuteWithSlot` | cmd/rest-o-matic/exec.go:46-93 | whatever others do meanwhile, every execution of the code extends the run of the system to another run of the protocol, in which this process has come to its end and owns no lock, or is waiting for a repository or slots it found held; interrupted from the start it neither runs nor records anything; and where no system call fails it ends as already running, not started, not due, or run and recorded (unless the state lock was found held) |
| `StateFile.Store.Update` | internal/state/state.go:274-297 | on success the contents are the change applied to the old ones; on any failure the file is as it was; and it succeeds when nothing fails, the lock is free and the file is not damaged |
| `StateFile.Store.WriteAtomic` | internal/state/state.go:300-331 | all of the new contents or none of them |
| `StateFile.Store.RecordRun` | internal/state/state.go:181-198 | the field-by-field closure makes the RecordRun change: a failure leaves the failing times given, a success none, and either no marker |
| `StateFile.Store.MarkRunning` | internal/state/state.go:201-209 | makes the MarkRunning change |
| `StateFile.Store.ClearRunning` | internal/state/state.go:213-223 | leaves no marker, and writes nothing when there was none |
| `StateFile.Store.RecordTick` | internal/state/state.go:226-231 | makes the RecordTick change |
| `StateFile.Store.RecordCheckin` | internal/state/state.go:239-261 | makes the RecordCheckin change and says whether the attempt before had failed |
| `StateFile.CheckinIsLatest` | internal/state/state.go:239-261 | after any changes the record for a host ID tells the time and error of its latest attempt (none if that worked), the time and resend list of the latest that worked, and of each part the fingerprint last sent by one that worked: so an attempt finds the one before it failed exactly when it did |
| `StateFile.RestIsLatest` | internal/state/state.go:201-231 | after any changes last_tick is the latest tick, the restic version the latest noted, and a marker stands exactly while the last change made to the job was its beginning |
| `StateFile.HistoryIsMostRecentRuns` | internal/state/state.go:181-198 | after any changes a job's history is its most recent runs, newest first, all of them up to 20, and its last run and outcome are the newest one's |
| `StateFile.OtherJobsUnchanged` | internal/state/state.go:181-223 | a change leaves every job it is not about |
| `StateFile.CoreChangedByRecordRunOnly` | internal/state/state.go:181-261 | only recording a run of the job changes its outcome, failing times or history |
| `Names.CollectRepositoryNames` | cmd/rest-o-matic/exec.go:99-110 | the loop and sort give the distinct names sorted |
| `Names.RepositoryNamesSorted` | cmd/rest-o-matic/exec.go:95-110 | strictly ascending, with exactly the job's names |
| `Names.RepositoryNamesUnique` | cmd/rest-o-matic/exec.go:95-110 | the only such list, whatever order the job gives: two jobs lock shared repositories in the same order |
| `Schedule.TruncateIsLatestBoundary` | internal/schedule/schedule.go:15-48 | for every instant, before 1970 too, Truncate is the last boundary at or before it and Next the first after it, weeks starting on Sunday |
| `Schedule.PeriodsPartitionTime` | internal/schedule/schedule.go:15-48 | two instants have the same Truncate exactly when one lies between the other's Truncate and Next |
| `Schedule.TruncateMonotone` | internal/schedule/schedule.go:17-30 | keeps the order of instants |
| `Schedule.TruncateIdempotent` | internal/schedule/schedule.go:17-30 | a boundary is its own |
| `Schedule.DueExactly` | internal/schedule/schedule.go:50-65 | due exactly when the job never ran or now is outside the period of its last run |
| `Schedule.DueFromNext` | internal/schedule/schedule.go:32-65 | with the clock not gone back, due agrees with "from Next on" if and only if the last run is not the zero time, or Next has been reached anyway |
| `Schedule.DueAtZeroTime` | internal/schedule/schedule.go:50-55 | a job that last ran at the zero time is due again in the same instant |
| `Schedule.CatchesUpOnce` | internal/schedule/schedule.go:4-7 | however many periods were missed, a job that has run is not due again in the same period |
| `Schedule.UnknownIsRefused` | internal/schedule/schedule.go:27-65 | an unknown schedule is an error everywhere, except that a job that never ran is due |
| `Notifications.Notify` | internal/execution/job.go:227-262 | the step-by-step code decides as the specification does, field by field; it counts the failing commands of just the lists it ran, a notification is kept as sent only when none failed, and a failure recorded without its beginning is told the last run |
| `Notifications.RunAll` | internal/execution/hook.go:48-57 | counts each command that fails, and stops at none |
| `Notifications.FailingSinceIsStreakStart` | internal/execution/job.go:227-270 | over any history failing-since is set exactly while the last recorded run failed, and is the start of the first run of that streak, which begins again at a run that could not read the state |
| `Notifications.RecoveryExactly` | internal/execution/job.go:229-241 | recovery runs on exactly the successes that could read that the last recorded run failed, told when that streak began; success commands on every success |
| `Notifications.RecoveryAsPromised` | internal/execution/job.go:229-241 | a success has a recovery just when the run before it failed, if and only if the state could be read, or there was no failure to read of; and the run before was recorded, or came out as the last recorded one did |
| `Notifications.RecoveryLost` | cmd/rest-o-matic/exec.go:116-128 | a failure, then a success that could not read the state: no recovery, then or on the next success |
| `Notifications.RecoveryAgain` | cmd/rest-o-matic/exec.go:146-148 | a failure, then two successes the first of which is not recorded: recovery twice |
| `Notifications.StreakIsNotified` | internal/execution/job.go:243-261 | the first failure of a streak is notified at once, and all notified of a streak are told its start |
| `Notifications.UnsentIsRetried` | internal/execution/job.go:243-261 | a notification that did not get through, of the last run recorded, is tried again by the next failed run |
| `Notifications.TriedExactly` | internal/execution/job.go:57-60 | a failed run with someone to notify tries to, if and only if no run it follows in its streak got a notification through in the 24 hours before |
| `Notifications.RepeatNeeds` | internal/execution/job.go:243-261 | while every recorded run fails, a notification is repeated within 24 hours only if the run that sent it was not recorded, or a run since, the one repeating it or a recorded one, could not read the state |
| `Notifications.NextWithinTheDay` | cmd/rest-o-matic/exec.go:116-148 | the failure next after a notification that got through, and within 24 hours of it, is notified if and only if its run could not read the state; or the run before was not recorded, and had read the state or nothing recorded before holds this one back |
| `Notifications.RepeatedWithinTheDay` | cmd/rest-o-matic/exec.go:116-148 | two failures moments apart, the second of which could not read the state or the first of which was not recorded: both are notified, and failing-since is the start of the second |
| `RunJob.RunHooksStopOnError` | internal/execution/hook.go:36-44 | runs a prefix of the commands, ending at the first failure |
| `RunJob.RunHooksAll` | internal/execution/hook.go:48-57 | runs every command once, in order, and counts failures |
| `RunJob.RunRepo` | internal/execution/job.go:333-364 | a backup, then retention only after it worked |
| `RunJob.RunRepos` | internal/execution/job.go:183-188 | a look before each repository, which is begun only if that saw no interrupt, whatever became of the others; the first to see one is the last |
| `RunJob.RunOneJob` | internal/execution/job.go:164-216 | under any results and an interrupt at any moment, during the after hooks too, the effects and looks are a sentence of the grammar, and agree with when the interrupt came |
| `RunJob.ForgetFollowsBackup` | internal/execution/job.go:333-364 | in any such trace a backup comes straight after a look that saw no interrupt, a forget straight after a backup of its repository that worked, and neither after a failed before hook |
| `RunJob.NothingAfterSeen` | internal/execution/job.go:183-188 | once a look has seen the interrupt no backup is begun |
| `RunJob.AtMostOneAfterSignal` | internal/execution/job.go:183-188 | after the interrupt at most one backup is begun, the one already allowed, and it fails |
| `RunJob.InterruptedExactly` | internal/execution/job.go:190-193 | a run counts as interrupted if and only if the interrupt came before its last look, which all work precedes and all after hooks follow |
| `RunJob.AfterHooksRun` | internal/execution/job.go:190-214 | on every outcome all always hooks run, then exactly one of the success and failure lists, in order |
| `RunJob.SuccessExactly` | internal/execution/job.go:122-134 | success if and only if no interrupt came before the last look, every repository attempted had a retention, and every before, backup, forget and always step of the trace worked |
| `RunJob.SuccessIsComplete` | internal/execution/job.go:122-134 | a success has run every before hook and, in order, both backed up and enforced retention on every repository listed |
| `RunJob.PartsInOrder` | internal/execution/job.go:164-216 | before hooks, work, always hooks, the outcome's hooks and notifications come in that order, and notifications once, at the end |
| `RunJob.BackedUpInOrder` | internal/execution/job.go:183-188 | the repositories backed up are the first of the job's, in the order listed, and all of them unless a before hook failed or the run was interrupted |
| `Checkin.IsWanted` | cmd/rest-o-matic/checkin.go:293-303 | a part is wanted when all are, when its fingerprint is not the one acknowledged, or when it was asked for |
| `Checkin.BuildCheckin` | cmd/rest-o-matic/checkin.go:305-326 | the request built field by field is the specified one |
| `Checkin.BuildOf` | cmd/rest-o-matic/checkin.go:305-326 | every part's fingerprint is sent, its content exactly when it may be sent and is wanted, and the config is said to be withheld exactly when it is |
| `Checkin.CheckIn` | cmd/rest-o-matic/checkin.go:148-192 | builds the request from the record read, and records a failure, or the fingerprints of the parts sent and the parts asked for; with the state readable and writable it always does, and tells whether the attempt before had failed |
| `Checkin.CheckInFromTick` | cmd/rest-o-matic/checkin.go:197-214 | a tick says something exactly when check-ins start failing or start working again |
| `Checkin.HappensAsRecorded` | internal/state/state.go:239-261 | over overlapping check-ins too, a request is built from the record in the state file, and a reply or a failure changes that record as recording it does |
| `Checkin.RoundIsCheckIn` | internal/state/state.go:239-261 | and so does one of a sequence of check-ins |
| `Checkin.AcknowledgedWasReceived` | cmd/rest-o-matic/checkin.go:148-192 | over overlapping check-ins, lost requests and replies, enrolments and deleted state, every acknowledged fingerprint is of content received in full under that host ID |
| `Checkin.TwoCheckinsAgree` | internal/state/state.go:239-261 | from any record, and any server contents stored with their own fingerprints, once two check-ins of unchanged contents have completed, with any lost around them, the server holds every part that may be sent as the host has it, and later check-ins carry nothing |
| `Checkin.OneCheckinIsNotEnough` | internal/state/state.go:239-261 | after one, a server that lost its data may hold nothing yet and has asked |
| `Recorder.Recorder.Phase` | internal/execution/recorder.go:47-55 | starts the figures afresh and writes at once, for this job only |
| `Recorder.Recorder.BackupStatus` | internal/execution/recorder.go:85-97 | takes a report in and writes it if it is the phase's first or the interval has passed |
| `Recorder.Recorder.Write` | internal/execution/recorder.go:100-110 | stamps and saves the record, and warns of the first failure only |
| `Recorder.NeverStale` | internal/execution/recorder.go:81-97 | over any events, after each report the file is the record as it stood at a moment less than 5 seconds before, with only reports of the same phase since |
| `Recorder.AlwaysKept` | internal/execution/recorder.go:10-13 | two saves of figures in a row are in one phase and at least 5 seconds apart |
| `Recorder.MovedIsLastRise` | internal/execution/recorder.go:63-79 | LastReport is the time of the phase's latest report, LastMoved that of the latest to rise over the one before it, or of the first, and no later than LastReport |
| `Recorder.WarnedOnce` | internal/execution/recorder.go:24-26 | there is one warning if any write failed, and none otherwise |
| `Recorder.FiguresTold` | internal/execution/recorder.go:57-79 | the record is of the phase last begun, with every figure as the phase's latest report gave it and the files last named; before the first report all are zero |
| `Recorder.FileIsLastWorked` | internal/execution/recorder.go:99-110 | the file holds the record as it was when a write last worked, stamped with that time; one that fails leaves it |
| `EditDistance.Distance` | internal/config/unknown.go:215-234 | row by row, the length of a shortest edit script |
| `EditDistance.NextRow` | internal/config/unknown.go:221-232 | one row of the table from the one before it |
| `EditDistance.LevIsShortest` | internal/config/unknown.go:214-234 | some script of single insertions, deletions and replacements has that length, and none is shorter |
| `EditDistance.LowerBound` | internal/config/unknown.go:214-234 | no script is shorter |
| `EditDistance.Achieved` | internal/config/unknown.go:214-234 | builds a script of that length |
| `EditDistance.Symmetric` | internal/config/unknown.go:214-234 | the same both ways |
| `EditDistance.ZeroIffEqual` | internal/config/unknown.go:214-234 | zero exactly between equal strings |
| `EditDistance.Triangle` | internal/config/unknown.go:214-234 | never longer than by way of a third string |
| `EditDistance.Suggest` | internal/config/unknown.go:192-204 | the nearest candidate within two edits, the first in sorted order of those equally near, or none |
| `EditDistance.ClosestUnique` | internal/config/unknown.go:192-204 | the same suggestion whatever order the candidates come in |
| `Excludes.ComparePattern` | internal/config/excludes.go:105-118 | the loop computes the specified relation |
| `Excludes.OutsideExcludesNothing` | internal/config/excludes.go:95-118 | Outside: nothing at or below the source is excluded, whatever is there |
| `Excludes.CoversMatchesAbove` | internal/config/excludes.go:95-118 | Covers: the pattern matches the source or a directory above it |
| `Excludes.CoversExcludesAll` | internal/config/excludes.go:95-118 | so everything at and below the source is excluded |
| `Excludes.UnderExactly` | internal/config/excludes.go:95-118 | Under: the source itself is excluded if and only if only `**` is left of the pattern beyond it |
| `Excludes.UnsureExactly` | internal/config/excludes.go:95-118 | Unsure: the source itself is excluded if and only if what follows the pattern's first `**` matches a stretch of the source from there on |
| `Excludes.StarsAreNotReported` | internal/config/excludes.go:53-58 | a source with `**` added excludes everything at and below that source, and no warning is given |
| `Excludes.AnyWithinIsNotReported` | internal/config/excludes.go:53-58 | `/**/d` excludes everything at and below the source `/a/d`, and no warning is given |
| `Excludes.UnreportedExactly` | internal/config/excludes.go:20-61 | a source that a rooted pattern takes out goes unreported if and only if it compares as Under with only `**` left, or as Unsure with the rest after the first `**` matching a stretch of it from there on |
| `Excludes.PlainIsExact` | internal/config/excludes.go:95-118 | without `**` the answer is never Unsure, Covers exactly when the source is excluded and Outside exactly when nothing at or below it can be |
| `Excludes.CheckPattern` | internal/config/excludes.go:21-58 | empty exactly when it has no text, invalid exactly when some component is neither `**` nor valid, and never warned of unless rooted; otherwise the flags kept over the sources give the specified answer, with each source covered, in the order listed |
| `Excludes.CheckExcludes` | internal/config/excludes.go:20-61 | one answer for each pattern, in order: refused exactly when it is empty or some component is neither `**` nor valid |
| `Excludes.WarningsAreTrue` | internal/config/excludes.go:53-58 | each source said to be excluded loses everything at and below it, and a pattern said to be outside excludes nothing at or below any source |
| `Excludes.OutsideExactly` | internal/config/excludes.go:95-118 | Outside exactly when nothing at or below the source can be excluded, each component of the pattern matching some name |
| `Excludes.OutsideReportedExactly` | internal/config/excludes.go:53-58 | with sources that all start at the root, a pattern is said to be outside every one of them if and only if it excludes nothing at or below any |
| `Locked.WalkExactly` | internal/config/load.go:134-171 | over any graph, cyclic ones included, the walk accepts if and only if no trail down the unfolded document is longer than the limit and every value is allowed where its trail puts it |
| `Locked.AllowedExactly` | internal/config/load.go:106-129 | a locked value may stand as `repositories.<name>.password` or `repositories.<name>.env.<name>`, one kept plain on purpose only as the latter, and nowhere else |
| `Locked.SectionIsNotLocked` | internal/config/load.go:81-129 | in each of the six sections a locked value in place of the whole section is refused |
| `Locked.DepthLimit` | internal/config/load.go:131-137 | a value behind sixty-four aliases is accepted, and behind more refused |
| `Locked.ResolveSettles` | internal/config/locked.go:140-146 | where the walk accepts, following aliases ends at what is no alias, and more hops change nothing |
| `Locked.MappingEntries` | internal/config/locked.go:106-138 | the loops, recursion and seen set compute the specified entries |
| `Locked.EntriesAreLookup` | internal/config/locked.go:103-138 | each key is listed once, with the mapping's own value, or else that of the first merge and first mapping of a merged list to have one |
| `Locked.EntriesSettle` | internal/config/locked.go:106-138 | where the walk accepts, more levels change no mapping's entries |
| `Locked.EntryWalked` | internal/config/load.go:157-168 | where the walk accepts a mapping it has accepted the value of every entry, at the place the entry says |
| `LockedUse.LockedValues` | internal/config/locked.go:30-92 | refused exactly when the placement walk refuses; otherwise each locked text is listed once, with each of its uses once and the line of its first use, by those lines, and on one line in the order first met |
| `StableSort.ByLineSorts` | internal/config/locked.go:85-91 | the stable sort leaves the same texts in order of line, and those on one line as they were |
| `LockedUse.UsesAreReached` | internal/config/locked.go:61-83 | the uses are exactly the locked values that a `repositories` written in the document gives some repository as its password or in its env; those a top-level `<<` supplies are not among them |
| `LockedUse.NothingCutOff` | internal/config/load.go:131-137 | in an accepted section, under any keys, no alias and no merge is cut off by a depth limit |
| `LockedUse.PlacementExactly` | internal/config/load.go:106-129 | a locked value an accepted section gives under any keys stands where one is allowed if and only if its repository was not merged in through a list (or is called `env` and the value its password) |
| `LockedUse.DocumentExactly` | internal/config/load.go:106-129 | from the document node down: when every `<<` names one mapping, an accepted document has each locked value of its sections where one is allowed, and the list holds exactly those decoded under `repositories`, if and only if no section holding one is supplied by a top-level `<<` alone |
| `LockedUse.MergedInIsMissed` | internal/config/locked.go:61-66 | a document with one mapping merged in at the top that is accepted, gives a locked value where none is allowed, and lists nothing |
| `LockedUse.ListedExactly` | internal/config/locked.go:25-92 | of the `repositories` written in the document itself, when every `<<` names one mapping, the texts listed are exactly the locked texts reached, whatever keys lead there |
| `LockedUse.ListedIsMisplaced` | internal/config/load.go:157-168 | a document with a list merged into `repositories` that is accepted, gives a locked value where none is allowed, and lists nothing |
| `Progress.ChunkIndependentExactly` | internal/execution/progress.go:79-105 | every way of splitting the output into writes has the same lines handled if and only if no line of it is longer than 16 MiB |
| `Progress.SplitMatters` | internal/execution/progress.go:92-96 | a line longer than the limit has a split after which what is handled is not the lines of the whole |
| `Progress.ChunksDoNotMatter` | internal/execution/progress.go:79-105 | the lines handled are then those of the whole output split at its newlines, with what follows the last one |
| `Progress.BackupOutput.Write` | internal/execution/progress.go:79-97 | handles each line completed, in order, and keeps the rest unless it is too long |
| `Progress.BackupOutput.Line` | internal/execution/progress.go:107-131 | takes over the snapshot id of a line that decodes as a summary, passes a report on when someone listens, and does nothing else |
| `Progress.BackupOutput.Close` | internal/execution/progress.go:99-105 | handles the last line that had no newline |
| `Progress.BackupOutput.ReadAll` | internal/execution/restic.go:183-197 | the snapshot id is that of the last line that is JSON and decodes as a summary, or empty when there is none; the reports passed on are those of all lines that decode as one, in order, or none when nobody listens |
| `Progress.TrimsExactly` | internal/execution/progress.go:108 | what is trimmed off a line's ends is white space, and none is left at either |
| `Progress.SpaceExactly` | internal/execution/progress.go:108 | white space is what Unicode calls so, as it stands in UTF-8 |
| `Relock.SequentialIsSwaps` | cmd/rest-o-matic/secret.go:313-325 | with old texts standing only as whole base64 runs, and none in a text put in before it, the loop of ReplaceAll replaces each run that is an old text by its new one, all at once, and changes nothing else |
| `Relock.ReplaceEach` | cmd/rest-o-matic/secret.go:324 | one ReplaceAll of a base64 text acts on each run of the file by itself |
| `Relock.SequentialExactly` | cmd/rest-o-matic/secret.go:313-325 | for any number of values standing as whole runs, the loop is the simultaneous replacement if and only if, for each value in the text, the replacements after its own leave what was put in for it as it is |
| `Relock.TwoExactly` | cmd/rest-o-matic/secret.go:313-325 | for two values that is when the first new text does not hold the second old one |
| `Relock.SecondSpoilsFirst` | cmd/rest-o-matic/secret.go:313-325 | a text and two values for which the loop and the simultaneous replacement differ |
| `Relock.ConfigFile.Open` | cmd/rest-o-matic/secret.go:294-304 | opens every value, and counts those that cannot be |
| `Relock.ConfigFile.Replace` | cmd/rest-o-matic/secret.go:311-325 | replaces one value after another, or stops at the first that is not in the text or cannot be locked |
| `Relock.ConfigFile.ReadsBack` | cmd/rest-o-matic/secret.go:327-336 | true exactly when the result opens, value by value, to the same plain texts |
| `Relock.ConfigFile.Relock` | cmd/rest-o-matic/secret.go:276-341 | the file changes only when everything opened, was replaced and read back, and then to the decided text; a dry run never changes it, and says it would relock exactly when there are values and each opens; every other way of stopping before the replacing is reported exactly when it applies, with the number of values that do not open |
| `Relock.StopsWhere` | cmd/rest-o-matic/secret.go:311-325 | the replacing stops at the first value that is not in the text as it then stands, or is there and cannot be locked, and reports which |
| `Relock.DecidedExactly` | cmd/rest-o-matic/secret.go:311-336 | when all values open and can be locked, relocking is decided upon exactly when each is found in turn and the result opens to the same, and is given up as not reading back exactly when only that fails |
| `Relock.RelockedReopens` | cmd/rest-o-matic/secret.go:272-341 | what is written is the old text with each value replaced in turn by its own lock, and opens with the host's key to the old plain texts, in order |
| `Relock.RelockSucceeds` | cmd/rest-o-matic/secret.go:272-341 | when all values open and stand as runs of their own, and Lock works as age does, relocking is decided upon and gives the simultaneous replacement |
| `RestoreCheck.RestoreSnapshotArg` | internal/execution/exec.go:130-154 | the only positional argument as the check counts them, up to its colon, or none |
| `RestoreCheck.TagFilters` | internal/execution/exec.go:156-168 | the value of every --tag met from the left |
| `RestoreCheck.CutExactly` | internal/execution/exec.go:152 | what stands before the first colon, or all of it |
| `RestoreCheck.SplitExactly` | internal/execution/exec.go:184 | the parts of a filter hold no comma, and joined by commas are the filter |
| `RestoreCheck.RestoreReadModeCheck` | internal/execution/exec.go:174-209 | allows exactly as specified: every filter names the tag and there is one, or the explicit snapshot carries it |
| `RestoreCheck.SameTags` | internal/execution/exec.go:156-168 | when no other flag's value looks like --tag, the filters are the tags restic reads from the same arguments |
| `RestoreCheck.SoundExactly` | internal/execution/exec.go:170-192 | for any arguments, each snapshot restic may restore from them when allowed carries the mode's tag, whatever the snapshots, if and only if check and restic agree on the arguments: on the one snapshot named and, for `latest`, on tags that all carry it |
| `RestoreCheck.TameAgrees` | internal/execution/exec.go:130-168 | they agree when no other flag's value looks like --tag and no unlisted flag's value looks like a flag |
| `RestoreCheck.AllowedIsTagged` | internal/execution/exec.go:170-192 | so with such arguments each snapshot an allowed restore may use carries the mode's tag |
| `RestoreCheck.AllowedExactly` | internal/execution/exec.go:170-209 | with such arguments, and no flag with a value that the check does not list, a restore is allowed exactly when it names one snapshot that carries the tag, or the latest of those that each filter says carry it |
| `RestoreCheck.TaggedLatestIsAllowed` | internal/execution/exec.go:118-127 | `restore latest --tag T` with any one of the flags listed and its value is allowed, and restic reads it so |
| `RestoreCheck.PathThatLooksLikeTag` | internal/execution/exec.go:156-168 | a path value that looks like --tag: allowed, while restic filters by no tag |
| `RestoreCheck.UnknownFlagHidesLatest` | internal/execution/exec.go:113-117 | any unlisted flag that takes a value, given a listed flag as its value: the check judges another argument than the snapshot restic restores |

## Left out

- LockedUse.LockedValues: gives a text's places in the order they are found; their wording, and sorting them by it, are not modelled.
- Locked.MappingEntries: leaves out the key node and the alias an entry was merged through, which only error messages use; keys are plain texts.
- Progress.BackupOutput.Line: takes the JSON decoder as given.
- Checkin.BuildCheckin: the parts' contents are given; how status, snapshots and config are encoded, the host fields and the fields named as withheld are not modelled.
- Execute.World.WaitFile: the time between polls is not modelled; a wait is any number of polls, and may not be over.
- Execute.FinishRun: RunJob is one step of the protocol with any results, the failing times its notifications then decide, and any lists to save, no more than it has repositories; its inside is `RunJob.dfy` and `Notifications.dfy`. A kill after the notifications and before the run is recorded is a step; one between two commands of a notification is not.
- Relock.RelockSucceeds: that a document with values swapped for new runs reads back with the new values in the old places is assumed of LockedValues, not derived from the YAML text.
- Dispatch's goroutines are processes of one group whose number is bounded; the slice of attempts and the exit status made from it are not modelled.
- Where in a tick its RecordTick and check-in come: they are updates any process may make at any time.
- The 250 ms and 5 s limits on short waits: failing to get the state lock in time is a failing step.
- The configuration is one value for all processes; two with different max_concurrent or repositories are not modelled.
- Calendar fields of time.Date: an instant is a count of nanoseconds, and days are 86400 seconds, as in UTC; overflow of int64 is not modelled.
- Splitting and cleaning of paths, `~` expansion, Windows separators and restic's own special cases in patterns: patterns and paths are lists of components.
- HTTP, TLS, compression and enrolment: a check-in is delivered or not, and answered or not.
- Running restic, podman and shells, signals and process groups: results are open and a signal is a cancellation.
- age, base64 decoding and SHA-256: functions with the properties a theorem names.
- YAML and JSON parsing and the JSON Schema walk for unknown keys. That the decoder gives each key its own value, or else that of the first merge to have one, is taken as `Locked.Lookup` says.
- Error summaries, environment variables for hooks, status tables, colours and messages.
- Retention merging, CheckURL, PlainTextSecrets, the tag gate and the shared-lock list of `exec`: each is settled by reading one branch.
