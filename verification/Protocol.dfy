/** The processes that run jobs, and what they share: lock files, the state
    file, snapshot lists and the clock (cmd/rest-o-matic/exec.go,
    cmd/rest-o-matic/tick.go, internal/lock/lock.go, internal/state/state.go).

    A process is described twice over. LocalStep is its program: which events
    it can take part in and where each leaves it. Guard and Next say which
    events the shared world allows and what they do to it. A run interleaves
    any number of processes, with interrupts, kills, probes by `status` and
    new arrivals in between. */
module Protocol {
  import opened Wrappers
  import opened Names
  import Notifications
  import opened Schedule
  import opened Sequences
  import opened StateFile

  // ----- Configuration, shared by every process -----

  datatype Job = Job(repositories: seq<string>, schedule: string)

  datatype Config = Config(backups: map<string, Job>, maxConcurrent: int)

  function JobConfig(c: Config, job: string): Job {
    if job in c.backups then c.backups[job] else Job([], "")
  }

  function Repositories(c: Config, job: string): seq<string> {
    RepositoryNames(JobConfig(c, job).repositories)
  }

  function Slots(c: Config): nat {
    if c.maxConcurrent <= 0 then 1 else c.maxConcurrent
  }

  // ----- Processes -----

  datatype Resource = JobLock(job: string) | RepoLock(repo: string) | SlotLock(slot: nat) | StateLock

  datatype Kind =
    | Work(job: string, trigger: Trigger)  // a tick worker or `run`
    | Exec(repo: string)                   // `exec` of a command that needs the repository to itself
    | Writer(change: Change)               // any other update of the state file

  /** The updates a process makes; each at most once. */
  datatype Phase = Clearing | Marking | Recording | Writing

  /** Where an update has got to: Store.update and writeAtomic. Rename holds
      what the temp file contains. */
  datatype Io = Want | Load | Write(next: State) | Rename(next: State) | Unlock

  datatype Ending = Ran | NotStarted | AlreadyRunning | NotDue | SetupFailed | Refused | Killed

  datatype Pc =
    | Start
    | Update(phase: Phase, io: Io)
    | CheckDue
    | CheckNow(lastRun: Time)
    | Repos(k: nat)
    | AwaitSlot
    | GotSlot
    | LoadPrior
    | Stamp
    | Running
    | Snapshots(left: seq<string>)
    | SaveSnapshots(left: seq<string>, read: bool, lists: map<string, SnapshotList>)
    | Using
    | Unwind(held: nat, ending: Ending)
    | Ended(ending: Ending)

  datatype SnapshotList = SnapshotList(listedAt: Time, snapshots: seq<string>)

  datatype Proc = Proc(
    kind: Kind, group: nat, pc: Pc,
    slot: nat,
    dueAt: Option<Time>,      // when the schedule was found to be due
    prior: Option<Core>,      // the job's state as read before the run
    started: Time,
    run: RunRecord, failing: Failing,
    notice: Notifications.Run, // the run as its notifications saw it
    saves: seq<string>,       // repositories whose snapshot list is to be saved
    oks: set<Phase>,          // updates that took effect
    bad: set<Phase>)          // updates that returned an error

  const NO_NOTICE := Notifications.Run(ZERO_TIME, true, [], [], [], ZERO_TIME, ZERO_TIME, ZERO_TIME, false, false)

  const NO_RUN := RunRecord(ZERO_TIME, ZERO_TIME, Failed, Trigger.Run, "", [])

  function Fresh(kind: Kind, group: nat): Proc {
    Proc(kind, group, Start, 0, None, None, ZERO_TIME, NO_RUN, Failing(None, None), NO_NOTICE, [], {}, {})
  }

  function JobName(pr: Proc): string {
    if pr.kind.Work? then pr.kind.job else ""
  }

  // ----- Locks -----

  /** Locks are taken in one order: the job's, its repositories' by name, a
      slot. This is the one taken when i are held already. */
  function LockAt(c: Config, kind: Kind, slot: nat, i: nat): Resource {
    match kind
    case Work(job, _) =>
      var names := Repositories(c, job);
      if i == 0 then JobLock(job)
      else if i <= |names| then RepoLock(names[i - 1])
      else SlotLock(slot)
    case Exec(repo) => RepoLock(repo)
    case Writer(_) => StateLock
  }

  /** How many of them a process has taken and not released. */
  function Count(c: Config, pr: Proc): nat {
    var all := |Repositories(c, JobName(pr))| + 2;
    match pr.pc
    case Start => 0
    case Update(phase, _) =>
      (match phase
       case Clearing => 1
       case Writing => 0
       case _ => all)
    case CheckDue => 1
    case CheckNow(_) => 1
    case Repos(k) => k + 1
    case AwaitSlot => all - 1
    case Using => 1
    case Unwind(held, _) => held
    case Ended(_) => 0
    case _ => all
  }

  /** One of the first n locks of that order. */
  predicate Among(c: Config, kind: Kind, slot: nat, n: nat, r: Resource) {
    exists i: nat :: i < n && LockAt(c, kind, slot, i) == r
  }

  /** Whether a process holds a lock. The state lock is held only within an
      update, on top of whatever else is. */
  predicate Holds(c: Config, pr: Proc, r: Resource) {
    if r == StateLock then pr.pc.Update? && !pr.pc.io.Want?
    else Among(c, pr.kind, pr.slot, Count(c, pr), r)
  }

  function ChangeOf(pr: Proc, phase: Phase): Change {
    match phase
    case Clearing => ClearRunning(JobName(pr))
    case Marking => MarkRunning(JobName(pr), pr.started, TriggerOf(pr))
    case Recording => RecordRun(JobName(pr), pr.run, pr.failing)
    case Writing => if pr.kind.Writer? then pr.kind.change else RecordTick(ZERO_TIME)
  }

  function TriggerOf(pr: Proc): Trigger {
    if pr.kind.Work? then pr.kind.trigger else Trigger.Run
  }

  // ----- The program of one process -----

  datatype Event =
    | Tau
    | Took(r: Resource)                                   // TryLock got it
    | Busy(r: Resource)                                   // TryLock found it held
    | Freed(r: Resource)
    | LockError
    | IoError                                             // a read or write of state failed
    | Sees(st: State)                                     // read the state file
    | Puts(next: State, phase: Phase, change: Change)     // renamed the temp file over it
    | Keeps(st: State, phase: Phase, change: Change)      // read it and found nothing to alter
    | Clock(now: Time)
    | SeesLists(lists: map<string, SnapshotList>)
    | PutsLists(lists: map<string, SnapshotList>)

  /** Leaving executeWithSlot: the deferred releases, last taken first. */
  function Leave(c: Config, pr: Proc, ending: Ending): Proc {
    pr.(pc := Unwind(Count(c, pr), ending))
  }

  function AfterUpdate(pr: Proc, phase: Phase): Proc {
    pr.(pc :=
      match phase
      case Clearing => if TriggerOf(pr) == Tick then CheckDue else Repos(0)
      case Marking => Pc.Running
      case Recording => Snapshots(pr.saves)
      case Writing => Unwind(0, Ran))
  }

  /** An unreadable state or an unknown schedule leaves the earlier answer standing. */
  predicate StillDue(c: Config, job: string, lastRun: Time, now: Time) {
    Due(JobConfig(c, job).schedule, lastRun, now) != Some(false)
  }

  predicate UpdateStep(pr: Proc, phase: Phase, io: Io, e: Event, q: Proc) {
    var ch := ChangeOf(pr, phase);
    match io
    case Want =>
      || (e == Took(StateLock) && q == pr.(pc := Update(phase, Load)))
      || (e == IoError && q == AfterUpdate(pr.(bad := pr.bad + {phase}), phase))
    case Load =>
      || (e.Sees? && Apply(ch, e.st).Some? && q == pr.(pc := Update(phase, Write(Apply(ch, e.st).value))))
      || (e.Keeps? && e.phase == phase && e.change == ch && Apply(ch, e.st).None?
          && q == pr.(pc := Update(phase, Unlock), oks := pr.oks + {phase}))
      || (e == IoError && q == pr.(pc := Update(phase, Unlock), bad := pr.bad + {phase}))
    case Write(next) =>
      || (e == Tau && q == pr.(pc := Update(phase, Rename(next))))
      || (e == IoError && q == pr.(pc := Update(phase, Unlock), bad := pr.bad + {phase}))
    case Rename(next) =>
      || (e == Puts(next, phase, ch) && q == pr.(pc := Update(phase, Unlock), oks := pr.oks + {phase}))
      || (e == IoError && q == pr.(pc := Update(phase, Unlock), bad := pr.bad + {phase}))
    case Unlock =>
      e == Freed(StateLock) && q == AfterUpdate(pr, phase)
  }

  /** Obtaining what the job needs; intr is whether its work has been cancelled. */
  predicate AcquireStep(c: Config, intr: bool, pr: Proc, e: Event, q: Proc)
    requires pr.kind.Work?
  {
    var names := Repositories(c, pr.kind.job);
    var failed := Leave(c, pr, if intr then NotStarted else SetupFailed);
    match pr.pc
    case Start =>
      || (e == Took(JobLock(pr.kind.job)) && q == pr.(pc := Update(Clearing, Want)))
      || (e == Busy(JobLock(pr.kind.job)) && q == Leave(c, pr, AlreadyRunning))
      || (e == LockError && q == failed)
    case CheckDue =>
      || (e.Sees? && q == pr.(pc := CheckNow(JobOf(e.st, pr.kind.job).lastRun)))
      || (e == IoError && q == pr.(pc := Repos(0)))
    case CheckNow(lastRun) =>
      && e.Clock?
      && q == if StillDue(c, pr.kind.job, lastRun, e.now)
              then pr.(pc := Repos(0), dueAt := Some(e.now))
              else Leave(c, pr, NotDue)
    case Repos(k) =>
      || (k < |names| && e == Took(RepoLock(names[k])) && q == pr.(pc := Repos(k + 1)))
      || (k < |names| && intr && e == Tau && q == failed)
      || (k < |names| && e == LockError && q == failed)
      || (k >= |names| && e == Tau && q == pr.(pc := AwaitSlot))
    case AwaitSlot =>
      || (e.Took? && e.r.SlotLock? && e.r.slot < Slots(c) && q == pr.(pc := GotSlot, slot := e.r.slot))
      || (intr && e == Tau && q == failed)
      || (e == LockError && q == failed)
    case GotSlot =>
      e == Tau && q == if intr then Leave(c, pr, NotStarted) else pr.(pc := LoadPrior)
    case _ => false
  }

  /** What RunJob is told of the runs before: nothing when the state could not be read. */
  function PriorFrom(prior: Option<Core>): Notifications.Prior {
    match prior
    case Some(core) => Notifications.PriorOfCore(core)
    case None => Notifications.UNTOLD
  }

  /** What a run that ends now records: its outcome, and the failing times its
      notifications left. The clock it read lies between its start and its end,
      unless that has gone back. */
  predicate Notified(pr: Proc, run: RunRecord, failing: Failing, n: Notifications.Run, now: Time) {
    && run.started == pr.started && run.finished == now == n.finished && n.told == pr.prior.Some? && !n.recorded
    && run.outcome == (if n.success then Success else Failed)
    && failing == Notifications.Decide(PriorFrom(pr.prior), n).failing
    && (pr.started <= now ==> pr.started <= n.started <= n.asked <= n.sent <= now)
  }

  /** executeAndRecord, once everything is held. Running is RunJob as a whole. */
  predicate RunStep(c: Config, pr: Proc, e: Event, q: Proc)
    requires pr.kind.Work?
  {
    match pr.pc
    case LoadPrior =>
      || (e.Sees? && q == pr.(pc := Stamp, prior := Some(CoreOf(e.st, pr.kind.job))))
      || (e == IoError && q == pr.(pc := Stamp, prior := None))
    case Stamp =>
      e.Clock? && q == pr.(pc := Update(Marking, Want), started := e.now)
    case Running =>
      && e.Clock? && q.run.trigger == pr.kind.trigger && Notified(pr, q.run, q.failing, q.notice, e.now)
      && |q.saves| <= |JobConfig(c, pr.kind.job).repositories|
      && q == pr.(pc := Update(Recording, Want), run := q.run, failing := q.failing, notice := q.notice, saves := q.saves)
    case Snapshots(left) =>
      if left == [] then e == Tau && q == Leave(c, pr, Ran)
      else
        || (e.SeesLists? && q == pr.(pc := SaveSnapshots(left, true, e.lists)))
        || (e == IoError && q == pr.(pc := SaveSnapshots(left, false, map[])))
    case SaveSnapshots(left, _, lists) =>
      && left != []
      && q == pr.(pc := Snapshots(left[1..]))
      && (e == IoError
          || (e.PutsLists? && left[0] in e.lists && e.lists == lists[left[0] := e.lists[left[0]]]))
    case _ => false
  }

  predicate ExecStep(c: Config, pr: Proc, e: Event, q: Proc)
    requires pr.kind.Exec?
  {
    match pr.pc
    case Start =>
      || (e == Took(RepoLock(pr.kind.repo)) && q == pr.(pc := Using))
      || (e == Busy(RepoLock(pr.kind.repo)) && q == Leave(c, pr, Refused))
      || (e == LockError && q == Leave(c, pr, SetupFailed))
    case Using =>
      e == Tau && q == Leave(c, pr, Ran)
    case _ => false
  }

  predicate LocalStep(c: Config, intr: bool, pr: Proc, e: Event, q: Proc) {
    match pr.pc
    case Update(phase, io) => UpdateStep(pr, phase, io, e, q)
    case Unwind(held, ending) =>
      if held == 0 then e == Tau && q == pr.(pc := Ended(ending))
      else e == Freed(LockAt(c, pr.kind, pr.slot, held - 1)) && q == pr.(pc := Unwind(held - 1, ending))
    case Ended(_) => false
    case _ =>
      match pr.kind
      case Work(_, _) => AcquireStep(c, intr, pr, e, q) || RunStep(c, pr, e, q)
      case Exec(_) => ExecStep(c, pr, e, q)
      case Writer(_) => pr.pc == Start && e == Tau && q == pr.(pc := Update(Writing, Want))
  }

  // ----- The shared world -----

  /** One invocation: a tick with the jobs it found due and a bounded pool of
      workers, a `run` with one job, or anything else with none. */
  datatype Group = Group(due: seq<string>, next: nat, trigger: Trigger, interrupted: bool, alive: bool)

  function Limit(c: Config, g: Group): nat {
    if g.trigger == Tick then Slots(c) else 1
  }

  /** One committed update, by which process and as which of its phases; and
      what the process knew: when it was found due, and how the notifications of
      its run went. */
  datatype Entry = Entry(pid: nat, phase: Phase, change: Change, dueAt: Option<Time>, notice: Notifications.Run)

  function EntryFor(p: nat, e: Event, q: Proc): Entry
    requires e.Puts? || e.Keeps?
  {
    Entry(p, e.phase, e.change, q.dueAt, q.notice)
  }

  /** The runs of one job that got as far as their notifications, in order: each
      as those saw it and whether it was recorded, what they did, and when it
      was found due. */
  datatype History = History(runs: seq<Notifications.Run>, did: seq<Notifications.Notice>, due: seq<Option<Time>>)

  function WithRunMade(h: History, q: Proc): History {
    History(h.runs + [q.notice], h.did + [Notifications.Decide(PriorFrom(q.prior), q.notice)], h.due + [q.dueAt])
  }

  function WithLastRecorded(h: History): History {
    var n := |h.runs| - 1;
    if n < 0 then h else h.(runs := h.runs[..n] + [h.runs[n].(recorded := true)])
  }

  datatype Sys = Sys(
    procs: seq<Proc>, groups: seq<Group>,
    owner: map<Resource, nat>,   // who holds each lock file exclusively
    probed: set<string>,         // jobs whose lock `status` holds shared for a moment
    file: State,
    lists: map<string, map<string, SnapshotList>>,
    clock: Time,
    initial: State,              // the state file at the start
    log: seq<Entry>,             // and the updates committed since, in order
    ran: map<string, History>)   // what each job's runs did, recorded or not

  datatype Label =
    | Do(p: nat, e: Event, q: Proc)
    | Spawn(g: nat)
    | Interrupt(g: nat)
    | Kill(g: nat)
    | Advance(now: Time)
    | ProbeOn(job: string)
    | ProbeOff(job: string)
    | Arrive(group: Group, kinds: seq<Kind>)

  predicate Done(pr: Proc) {
    pr.pc.Ended?
  }

  function Active(procs: seq<Proc>, g: nat): nat {
    if procs == [] then 0
    else
      var last := procs[|procs| - 1];
      Active(procs[..|procs| - 1], g) + if last.group == g && !Done(last) then 1 else 0
  }

  predicate EventAllowed(s: Sys, pr: Proc, e: Event) {
    match e
    case Took(r) => r !in s.owner && (r.JobLock? ==> r.job !in s.probed)
    case Busy(r) => r in s.owner || (r.JobLock? && r.job in s.probed)
    case Sees(st) => st == s.file
    case Keeps(st, _, _) => st == s.file
    case Clock(now) => now == s.clock
    case SeesLists(lists) => lists == ListsOf(s, JobName(pr))
    case _ => true
  }

  function ListsOf(s: Sys, job: string): map<string, SnapshotList> {
    if job in s.lists then s.lists[job] else map[]
  }

  function HistoryOf(s: Sys, job: string): History {
    if job in s.ran then s.ran[job] else History([], [], [])
  }

  /** A run joins its job's history when RunJob ends, and is recorded when the
      state file says so. */
  function RanAfter(s: Sys, p: nat, e: Event, q: Proc): map<string, History>
    requires p < |s.procs|
  {
    if s.procs[p].pc == Pc.Running then s.ran[JobName(q) := WithRunMade(HistoryOf(s, JobName(q)), q)]
    else if e.Puts? && e.change.RecordRun? then s.ran[e.change.job := WithLastRecorded(HistoryOf(s, e.change.job))]
    else s.ran
  }

  function AfterKill(pr: Proc): Proc {
    pr.(pc := if Done(pr) then pr.pc else Ended(Ending.Killed))
  }

  function KillGroup(procs: seq<Proc>, g: nat): seq<Proc> {
    seq(|procs|, i requires 0 <= i < |procs| => if procs[i].group == g then AfterKill(procs[i]) else procs[i])
  }

  function FreshAll(kinds: seq<Kind>, g: nat): seq<Proc> {
    seq(|kinds|, i requires 0 <= i < |kinds| => Fresh(kinds[i], g))
  }

  predicate Guard(c: Config, s: Sys, l: Label) {
    match l
    case Do(p, e, q) =>
      && p < |s.procs|
      && s.procs[p].group < |s.groups|
      && LocalStep(c, s.groups[s.procs[p].group].interrupted, s.procs[p], e, q)
      && EventAllowed(s, s.procs[p], e)
    case Spawn(g) =>
      && g < |s.groups|
      && var group := s.groups[g];
         group.alive && !group.interrupted && group.next < |group.due| && Active(s.procs, g) < Limit(c, group)
    case Interrupt(g) => g < |s.groups| && s.groups[g].alive && !s.groups[g].interrupted
    case Kill(g) => g < |s.groups| && s.groups[g].alive
    case Advance(now) => s.clock <= now
    case ProbeOn(job) => JobLock(job) !in s.owner
    case ProbeOff(job) => job in s.probed
    case Arrive(group, kinds) =>
      && group.next == 0 && !group.interrupted && group.alive
      && NoDuplicates(group.due)
      && (group.trigger == Trigger.Run ==> |group.due| <= 1)
      && forall k :: k in kinds ==>
           k.Exec? || (k.Writer? && (k.change.RecordTick? || k.change.RecordCheckin? || k.change.RecordResticVersion?))
  }

  function Next(s: Sys, l: Label): Sys
    requires l.Do? ==> l.p < |s.procs|
    requires l.Spawn? ==> l.g < |s.groups| && s.groups[l.g].next < |s.groups[l.g].due|
    requires l.Interrupt? || l.Kill? ==> l.g < |s.groups|
  {
    match l
    case Do(p, e, q) =>
      var t := s.(procs := s.procs[p := q], ran := RanAfter(s, p, e, q));
      (match e
       case Took(r) => t.(owner := s.owner[r := p])
       case Freed(r) => t.(owner := s.owner - {r})
       case Puts(next, _, _) => t.(file := next, log := s.log + [EntryFor(p, e, q)])
       case Keeps(_, _, _) => t.(log := s.log + [EntryFor(p, e, q)])
       case PutsLists(lists) => t.(lists := s.lists[JobName(q) := lists])
       case _ => t)
    case Spawn(g) =>
      var group := s.groups[g];
      s.(procs := s.procs + [Fresh(Work(group.due[group.next], group.trigger), g)],
         groups := s.groups[g := group.(next := group.next + 1)])
    case Interrupt(g) => s.(groups := s.groups[g := s.groups[g].(interrupted := true)])
    case Kill(g) =>
      // The kernel releases a dead process's locks; its marker and temp file stay.
      s.(procs := KillGroup(s.procs, g),
         groups := s.groups[g := s.groups[g].(alive := false)],
         owner := map r | r in s.owner && (s.owner[r] < |s.procs| ==> s.procs[s.owner[r]].group != g) :: s.owner[r])
    case Advance(now) => s.(clock := now)
    case ProbeOn(job) => s.(probed := s.probed + {job})
    case ProbeOff(job) => s.(probed := s.probed - {job})
    case Arrive(group, kinds) =>
      s.(groups := s.groups + [group], procs := s.procs + FreshAll(kinds, |s.groups|))
  }

  ghost predicate Step(c: Config, s: Sys, t: Sys) {
    exists l :: Guard(c, s, l) && t == Next(s, l)
  }

  /** A start: no process yet, a clock past the zero instant, and no recorded
      run in the future. */
  predicate Init(s: Sys) {
    && s.procs == [] && s.groups == [] && s.owner == map[] && s.log == [] && s.ran == map[]
    && s.file == s.initial && s.clock > ZERO_TIME
    && forall job :: job in s.initial.jobs ==> s.initial.jobs[job].lastRun <= s.clock
  }

  ghost predicate Behaviour(c: Config, b: seq<Sys>) {
    && b != [] && Init(b[0])
    && forall i :: 0 <= i < |b| - 1 ==> Step(c, b[i], b[i + 1])
  }
}
