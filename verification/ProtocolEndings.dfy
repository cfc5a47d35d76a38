/** How executions end, over whole runs of the system: what each ending means
    was done, what an interrupt keeps from being begun, and which jobs of an
    invocation are started. */
module ProtocolEndings {
  import opened Wrappers
  import opened Schedule
  import opened StateFile
  import opened Protocol
  import opened ProtocolLocks
  import opened ProtocolProgress
  import opened ProtocolState

  // ----- What an execution has done by the time it is where it is -----

  /** The update took effect, or returned an error. */
  predicate Attempted(pr: Proc, phase: Phase) {
    phase in pr.oks || phase in pr.bad
  }

  predicate BegunNothing(pr: Proc) {
    !Attempted(pr, Marking) && !Attempted(pr, Recording)
  }

  predicate RunOver(pr: Proc) {
    && Attempted(pr, Clearing) && Attempted(pr, Marking) && Attempted(pr, Recording)
    && RunOwn(pr)
  }

  /** The run it records is its own. */
  predicate RunOwn(pr: Proc)
  {
    pr.kind.Work? && pr.run.trigger == pr.kind.trigger && pr.run.started == pr.started
  }

  predicate EndOk(intr: bool, pr: Proc, ending: Ending)
    requires pr.kind.Work?
  {
    match ending
    case Ran => RunOver(pr)
    case NotStarted => BegunNothing(pr) && intr
    case SetupFailed => BegunNothing(pr)
    case AlreadyRunning => BegunNothing(pr) && !Attempted(pr, Clearing)
    case NotDue => BegunNothing(pr) && Attempted(pr, Clearing) && pr.kind.trigger == Tick
    case Refused => false
    case Killed => true
  }

  predicate WayOk(intr: bool, pr: Proc)
    requires pr.kind.Work?
  {
    match pr.pc
    case Start => BegunNothing(pr) && !Attempted(pr, Clearing)
    case Update(phase, _) =>
      (match phase
       case Clearing => BegunNothing(pr)
       case Marking => Attempted(pr, Clearing) && !Attempted(pr, Recording)
       case Recording => Attempted(pr, Clearing) && Attempted(pr, Marking) && RunOwn(pr)
       case Writing => false)
    case CheckDue => BegunNothing(pr) && Attempted(pr, Clearing) && pr.kind.trigger == Tick
    case CheckNow(_) => BegunNothing(pr) && Attempted(pr, Clearing) && pr.kind.trigger == Tick
    case Running => Attempted(pr, Clearing) && Attempted(pr, Marking) && !Attempted(pr, Recording)
    case Snapshots(_) => RunOver(pr)
    case SaveSnapshots(_, _, _) => RunOver(pr)
    case Using => false
    case Unwind(_, ending) => EndOk(intr, pr, ending)
    case Ended(ending) => EndOk(intr, pr, ending)
    case _ => BegunNothing(pr) && Attempted(pr, Clearing)
  }

  lemma UpdateWay(intr: bool, pr: Proc, phase: Phase, io: Io, e: Event, q: Proc)
    requires pr.kind.Work? && pr.pc == Update(phase, io) && UpdateStep(pr, phase, io, e, q) && InOrder(pr) && WayOk(intr, pr)
    ensures q.kind == pr.kind && WayOk(intr, q)
  {
    hide Apply;
  }

  lemma AcquireWay(c: Config, intr: bool, pr: Proc, e: Event, q: Proc)
    requires pr.kind.Work? && AcquireStep(c, intr, pr, e, q) && WayOk(intr, pr)
    ensures q.kind == pr.kind && WayOk(intr, q)
  {
    hide Repositories, StillDue, Count;
  }

  lemma RunWay(c: Config, intr: bool, pr: Proc, e: Event, q: Proc)
    requires pr.kind.Work? && RunStep(c, pr, e, q) && WayOk(intr, pr)
    ensures q.kind == pr.kind && WayOk(intr, q)
  {
    hide Repositories, Count;
  }

  lemma StepWay(c: Config, intr: bool, pr: Proc, e: Event, q: Proc)
    requires pr.kind.Work? && LocalStep(c, intr, pr, e, q) && InOrder(pr) && WayOk(intr, pr)
    ensures q.kind == pr.kind && WayOk(intr, q)
  {
    hide AcquireStep, RunStep, UpdateStep, InOrder, Attempted, RunOwn;
    if pr.pc.Update? {
      UpdateWay(intr, pr, pr.pc.phase, pr.pc.io, e, q);
    } else if pr.pc.Unwind? || pr.pc.Ended? {
      LeavingKeeps(c, intr, pr, e, q);
    } else if AcquireStep(c, intr, pr, e, q) {
      AcquireWay(c, intr, pr, e, q);
    } else {
      RunWay(c, intr, pr, e, q);
    }
  }

  lemma LeavingKeeps(c: Config, intr: bool, pr: Proc, e: Event, q: Proc)
    requires pr.kind.Work? && LocalStep(c, intr, pr, e, q) && WayOk(intr, pr) && (pr.pc.Unwind? || pr.pc.Ended?)
    ensures q.kind == pr.kind && WayOk(intr, q)
  {
    hide Repositories;
  }

  lemma InterruptedLater(intr: bool, pr: Proc)
    requires pr.kind.Work? && WayOk(intr, pr)
    ensures WayOk(true, pr)
  {
    hide Attempted, RunOwn;
  }

  // ----- What steps leave of groups and processes -----

  /** Nothing is done to a process but by itself, or by a kill. */
  lemma OthersLeave(c: Config, s: Sys, l: Label, p: nat)
    requires Guard(c, s, l) && p < |s.procs| && !(l.Do? && l.p == p)
    ensures (l.Do? ==> l.p < |s.procs|) && (l.Interrupt? || l.Kill? ==> l.g < |s.groups|)
    ensures l.Spawn? ==> l.g < |s.groups| && s.groups[l.g].next < |s.groups[l.g].due|
    ensures var t := Protocol.Next(s, l); p < |t.procs| && (t.procs[p] == s.procs[p] || t.procs[p] == AfterKill(s.procs[p]))
  {
    hide LocalStep, EventAllowed, Active, AfterKill, RanAfter;
    GuardInRange(c, s, l);
  }

  /** An invocation's list and trigger stand, and an interrupt is for good: no
      more of its jobs are started. */
  lemma GroupLater(c: Config, s: Sys, l: Label, g: nat)
    requires Guard(c, s, l) && g < |s.groups|
    ensures (l.Do? ==> l.p < |s.procs|) && (l.Interrupt? || l.Kill? ==> l.g < |s.groups|)
    ensures l.Spawn? ==> l.g < |s.groups| && s.groups[l.g].next < |s.groups[l.g].due|
    ensures var t := Protocol.Next(s, l);
            && g < |t.groups| && t.groups[g].due == s.groups[g].due && t.groups[g].trigger == s.groups[g].trigger
            && (s.groups[g].interrupted ==> t.groups[g].interrupted && t.groups[g].next == s.groups[g].next)
            && |s.procs| <= |t.procs|
            && (s.groups[g].interrupted ==> forall p :: |s.procs| <= p < |t.procs| ==> t.procs[p].group != g)
  {
    hide LocalStep, EventAllowed, Active, RanAfter;
    GuardInRange(c, s, l);
  }

  // ----- Endings -----

  ghost predicate WaysOk(s: Sys) {
    forall p :: 0 <= p < |s.procs| && s.procs[p].kind.Work? && s.procs[p].group < |s.groups| ==>
      WayOk(s.groups[s.procs[p].group].interrupted, s.procs[p])
  }

  lemma DoKeepsWays(c: Config, s: Sys, p: nat, e: Event, q: Proc)
    requires StateInv(c, s) && WaysOk(s) && Guard(c, s, Do(p, e, q))
    ensures WaysOk(Protocol.Next(s, Do(p, e, q)))
  {
    hide LocalStep, EventAllowed, Protocol.Next, WayOk, InOrder, InFlight, LogExact, ProcWf, Owned;
    NextFile(s, p, e, q);
    LocalHolds(c, s.groups[s.procs[p].group].interrupted, s.procs[p], e, q);
    if s.procs[p].kind.Work? {
      StepWay(c, s.groups[s.procs[p].group].interrupted, s.procs[p], e, q);
    }
  }

  lemma FreshWay(kind: Kind, g: nat)
    ensures kind.Work? ==> WayOk(false, Fresh(kind, g))
  {
  }

  lemma KilledWay(intr: bool, pr: Proc)
    ensures AfterKill(pr).kind == pr.kind && AfterKill(pr).group == pr.group
    ensures pr.kind.Work? && WayOk(intr, pr) ==> WayOk(intr, AfterKill(pr))
  {
  }

  lemma StepKeepsWays(c: Config, s: Sys, l: Label)
    requires StateInv(c, s) && WaysOk(s) && Guard(c, s, l)
    ensures WaysOk(Protocol.Next(s, l))
  {
    hide StateInv, LocalStep, EventAllowed, Active, WayOk, RanAfter;
    GuardInRange(c, s, l);
    var t := Protocol.Next(s, l);
    match l
    case Do(p, e, q) => DoKeepsWays(c, s, p, e, q);
    case Kill(g) =>
      forall p | 0 <= p < |s.procs|
        ensures t.procs[p].kind == s.procs[p].kind && t.procs[p].group == s.procs[p].group
        ensures s.procs[p].kind.Work? && s.procs[p].group < |s.groups| ==>
                  WayOk(t.groups[t.procs[p].group].interrupted, t.procs[p])
      {
        KilledWay(s.groups[g].interrupted, s.procs[p]);
      }
    case Interrupt(g) =>
      forall p | 0 <= p < |s.procs| && s.procs[p].kind.Work? && s.procs[p].group < |s.groups|
        ensures WayOk(t.groups[t.procs[p].group].interrupted, t.procs[p])
      {
        InterruptedLater(s.groups[s.procs[p].group].interrupted, s.procs[p]);
      }
    case Spawn(g) =>
      FreshWay(Work(s.groups[g].due[s.groups[g].next], s.groups[g].trigger), g);
    case Arrive(group, kinds) =>
      forall p | |s.procs| <= p < |t.procs|
        ensures !t.procs[p].kind.Work?
      {
        assert kinds[p - |s.procs|] in kinds;
      }
      InGroups(c, s);
    case _ =>
  }

  lemma InGroups(c: Config, s: Sys)
    requires StateInv(c, s)
    ensures forall p :: 0 <= p < |s.procs| ==> s.procs[p].group < |s.groups|
  {
    hide InFlight, LogExact, InOrder, ProcWf, Owned;
  }

  lemma {:induction false} WaysAlways(c: Config, b: seq<Sys>, i: nat)
    requires Behaviour(c, b) && i < |b|
    ensures WaysOk(b[i])
  {
    hide StateInv, Guard, WayOk, Protocol.Next;
    if i > 0 {
      WaysAlways(c, b, i - 1);
      StateAlways(c, b, i - 1);
      var l := StepLabel(c, b, i - 1);
      StepKeepsWays(c, b[i - 1], l);
    }
  }

  /** What each ending of a job's execution means was done: it ran only if it
      tried to clear, to mark and to record its own run; and in any other case
      (killed apart) it neither marked the job running nor recorded a run. It
      was not started only if interrupted, and only a tick finds a job not due. */
  lemma EndingsTell(c: Config, b: seq<Sys>, i: nat, p: nat)
    requires Behaviour(c, b) && i < |b| && p < |b[i].procs|
    requires b[i].procs[p].kind.Work? && b[i].procs[p].pc.Ended?
    ensures var s, pr := b[i], b[i].procs[p];
            && pr.group < |s.groups| && pr.pc.ending != Refused
            && (pr.pc.ending == Ran ==> RunOver(pr))
            && (pr.pc.ending != Ran && pr.pc.ending != Killed ==> BegunNothing(pr))
            && (pr.pc.ending == NotStarted ==> s.groups[pr.group].interrupted)
            && (pr.pc.ending == NotDue ==> pr.kind.trigger == Tick)
            && (pr.pc.ending == AlreadyRunning ==> !Attempted(pr, Clearing))
  {
    hide StateInv, Attempted, RunOwn;
    StateAlways(c, b, i);
    InGroups(c, b[i]);
    WaysAlways(c, b, i);
    assert WayOk(b[i].groups[b[i].procs[p].group].interrupted, b[i].procs[p]);
  }

  /** Why an execution that has not got all it needs gives up: the job's lock is
      held or looked at; or else it is interrupted, or something failed. */
  lemma GivesUpExactly(c: Config, intr: bool, pr: Proc, e: Event, q: Proc)
    requires pr.kind.Work? && LocalStep(c, intr, pr, e, q) && (pr.pc.Start? || pr.pc.Repos? || pr.pc.AwaitSlot? || pr.pc.GotSlot?)
    ensures q.pc.Unwind? ==> q.pc.ending in {AlreadyRunning, NotStarted, SetupFailed}
    ensures q.pc.Unwind? && q.pc.ending == AlreadyRunning <==> pr.pc.Start? && e == Busy(JobLock(pr.kind.job))
    ensures q.pc.Unwind? && q.pc.ending == NotStarted ==> intr
    ensures q.pc.Unwind? && q.pc.ending == SetupFailed ==> !intr && e == LockError
    ensures pr.pc.GotSlot? ==> (q.pc.Unwind? <==> intr)
  {
    hide Repositories, StillDue, Count;
  }

  /** An interrupted execution need not wait for what it waits for. */
  lemma InterruptedCanStop(c: Config, b: seq<Sys>, i: nat, p: nat)
    requires Behaviour(c, b) && i < |b| && p < |b[i].procs| && Waits(c, b[i].procs[p])
    requires b[i].procs[p].group < |b[i].groups| && b[i].groups[b[i].procs[p].group].interrupted
    ensures exists q :: Guard(c, b[i], Do(p, Tau, q)) && q == Leave(c, b[i].procs[p], NotStarted)
  {
    hide StateInv, Repositories, Step, Count;
    StateAlways(c, b, i);
    WaiterWorks(c, b[i], p);
    StopsWaiting(c, b[i].procs[p]);
    assert Guard(c, b[i], Do(p, Tau, Leave(c, b[i].procs[p], NotStarted)));
  }

  lemma WaiterWorks(c: Config, s: Sys, p: nat)
    requires StateInv(c, s) && p < |s.procs| && Waits(c, s.procs[p])
    ensures s.procs[p].kind.Work?
  {
    hide InFlight, LogExact, InOrder, Owned, Repositories;
  }

  lemma StopsWaiting(c: Config, pr: Proc)
    requires pr.kind.Work? && Waits(c, pr)
    ensures LocalStep(c, true, pr, Tau, Leave(c, pr, NotStarted))
  {
    hide Count, StillDue;
  }

  // ----- What an interrupt keeps from being begun -----

  /** Before the last look for an interrupt. */
  predicate BeforeLook(pc: Pc) {
    match pc
    case Start => true
    case Update(phase, _) => phase == Clearing
    case CheckDue => true
    case CheckNow(_) => true
    case Repos(_) => true
    case AwaitSlot => true
    case GotSlot => true
    case _ => false
  }

  /** It has run nothing, and will not when interrupted. */
  predicate Idle(pr: Proc) {
    && BegunNothing(pr)
    && (BeforeLook(pr.pc) || ((pr.pc.Unwind? || pr.pc.Ended?) && pr.pc.ending != Ran))
  }

  lemma IdleStays(c: Config, pr: Proc, e: Event, q: Proc)
    requires pr.kind.Work? && LocalStep(c, true, pr, e, q) && Idle(pr)
    ensures Idle(q) && q.kind == pr.kind
  {
    hide AcquireStep, UpdateStep, Attempted;
    if pr.pc.Update? {
      StepIsUpdate(c, true, pr, e, q);
      IdleUpdates(pr, pr.pc.io, e, q);
    } else if pr.pc.Unwind? || pr.pc.Ended? {
      IdleLeaves(c, pr, e, q);
    } else if AcquireStep(c, true, pr, e, q) {
      IdleAcquires(c, pr, e, q);
    }
  }

  lemma IdleLeaves(c: Config, pr: Proc, e: Event, q: Proc)
    requires LocalStep(c, true, pr, e, q) && Idle(pr) && (pr.pc.Unwind? || pr.pc.Ended?)
    ensures Idle(q) && q.kind == pr.kind
  {
    hide Repositories;
  }

  lemma IdleUpdates(pr: Proc, io: Io, e: Event, q: Proc)
    requires pr.kind.Work? && pr.pc == Update(Clearing, io) && UpdateStep(pr, Clearing, io, e, q) && BegunNothing(pr)
    ensures Idle(q) && q.kind == pr.kind
  {
    hide Apply;
  }

  lemma IdleAcquires(c: Config, pr: Proc, e: Event, q: Proc)
    requires pr.kind.Work? && AcquireStep(c, true, pr, e, q) && BegunNothing(pr)
    ensures Idle(q) && q.kind == pr.kind
  {
    hide Repositories, StillDue, Count;
  }

  lemma KilledIsIdle(pr: Proc)
    requires Idle(pr)
    ensures Idle(AfterKill(pr)) && AfterKill(pr).kind == pr.kind && AfterKill(pr).group == pr.group
  {
  }

  /** Interrupted and idle now, a process is so after any step. */
  lemma StepStaysIdle(c: Config, s: Sys, l: Label, p: nat)
    requires StateInv(c, s) && Guard(c, s, l) && p < |s.procs| && s.procs[p].kind.Work? && Idle(s.procs[p])
    requires s.procs[p].group < |s.groups| && s.groups[s.procs[p].group].interrupted
    ensures (l.Do? ==> l.p < |s.procs|) && (l.Interrupt? || l.Kill? ==> l.g < |s.groups|)
    ensures l.Spawn? ==> l.g < |s.groups| && s.groups[l.g].next < |s.groups[l.g].due|
    ensures var t := Protocol.Next(s, l);
            && p < |t.procs| && t.procs[p].kind == s.procs[p].kind && t.procs[p].group == s.procs[p].group && Idle(t.procs[p])
            && t.procs[p].group < |t.groups| && t.groups[t.procs[p].group].interrupted
  {
    hide StateInv, LocalStep, EventAllowed, Active, Idle, Protocol.Next, AfterKill;
    GroupLater(c, s, l, s.procs[p].group);
    if l.Do? && l.p == p {
      NextFile(s, p, l.e, l.q);
      WellFormed(c, s, p);
      LocalHolds(c, true, s.procs[p], l.e, l.q);
      IdleStays(c, s.procs[p], l.e, l.q);
    } else {
      OthersLeave(c, s, l, p);
      KilledIsIdle(s.procs[p]);
    }
  }

  lemma WellFormed(c: Config, s: Sys, p: nat)
    requires StateInv(c, s) && p < |s.procs|
    ensures ProcWf(c, s.procs[p]) && InOrder(s.procs[p]) && s.procs[p].group < |s.groups|
  {
    hide InFlight, LogExact, InOrder, Owned, ProcWf;
  }

  lemma EarlyIsIdle(s: Sys, p: nat)
    requires WaysOk(s) && p < |s.procs| && s.procs[p].kind.Work? && s.procs[p].group < |s.groups| && BeforeLook(s.procs[p].pc)
    ensures Idle(s.procs[p])
  {
    assert WayOk(s.groups[s.procs[p].group].interrupted, s.procs[p]);
  }

  lemma {:induction false} StaysIdle(c: Config, b: seq<Sys>, i: nat, j: nat, p: nat)
    requires Behaviour(c, b) && i <= j < |b| && p < |b[i].procs| && b[i].procs[p].kind.Work? && Idle(b[i].procs[p])
    requires b[i].procs[p].group < |b[i].groups| && b[i].groups[b[i].procs[p].group].interrupted
    ensures var t := b[j];
            && p < |t.procs| && t.procs[p].kind == b[i].procs[p].kind && t.procs[p].group == b[i].procs[p].group && Idle(t.procs[p])
            && t.procs[p].group < |t.groups| && t.groups[t.procs[p].group].interrupted
    decreases j
  {
    hide StateInv, Guard, Idle, Protocol.Next;
    if i < j {
      StaysIdle(c, b, i, j - 1, p);
      StateAlways(c, b, j - 1);
      var l := StepLabel(c, b, j - 1);
      StepStaysIdle(c, b[j - 1], l, p);
    }
  }

  /** Main result: an execution interrupted before its last look is never run.
      From then on it is on its way to that look, or leaving without having
      run; it has marked nothing, and no run of its own is ever recorded. */
  lemma InterruptedIsNotStarted(c: Config, b: seq<Sys>, i: nat, j: nat, p: nat)
    requires Behaviour(c, b) && i <= j < |b| && p < |b[i].procs| && b[i].procs[p].kind.Work? && BeforeLook(b[i].procs[p].pc)
    requires b[i].procs[p].group < |b[i].groups| && b[i].groups[b[i].procs[p].group].interrupted
    ensures p < |b[j].procs|
    ensures var pc := b[j].procs[p].pc; BeforeLook(pc) || ((pc.Unwind? || pc.Ended?) && pc.ending != Ran)
    ensures forall k :: 0 <= k < |b[j].log| && b[j].log[k].pid == p ==>
              !b[j].log[k].change.RecordRun? && !b[j].log[k].change.MarkRunning?
  {
    hide StateInv, Step, LogExact, ChangeOf, WaysOk;
    WaysAlways(c, b, i);
    EarlyIsIdle(b[i], p);
    StaysIdle(c, b, i, j, p);
    StateAlways(c, b, j);
    NothingLogged(c, b[j], p);
  }

  lemma NothingLogged(c: Config, s: Sys, p: nat)
    requires StateInv(c, s) && p < |s.procs| && s.procs[p].kind.Work? && BegunNothing(s.procs[p])
    ensures forall k :: 0 <= k < |s.log| && s.log[k].pid == p ==> !s.log[k].change.RecordRun? && !s.log[k].change.MarkRunning?
  {
    hide InFlight, InOrder, LockInv, FoldLog, Times;
  }

  /** Nor is any further job of an interrupted invocation started. */
  lemma {:induction false} NoneStartedAfter(c: Config, b: seq<Sys>, i: nat, j: nat, g: nat)
    requires Behaviour(c, b) && i <= j < |b| && g < |b[i].groups| && b[i].groups[g].interrupted
    ensures g < |b[j].groups| && b[j].groups[g].interrupted && b[j].groups[g].next == b[i].groups[g].next
    ensures |b[i].procs| <= |b[j].procs| && forall p :: |b[i].procs| <= p < |b[j].procs| ==> b[j].procs[p].group != g
    decreases j
  {
    hide Guard, Protocol.Next, LockInv;
    if i < j {
      NoneStartedAfter(c, b, i, j - 1, g);
      LocksAlways(c, b, j - 1);
      var l := StepLabel(c, b, j - 1);
      GroupLater(c, b[j - 1], l, g);
      forall p | 0 <= p < |b[j - 1].procs|
        ensures b[j].procs[p].group == b[j - 1].procs[p].group
      {
        SameGroup(c, b[j - 1], l, p);
      }
    }
  }

  lemma SameGroup(c: Config, s: Sys, l: Label, p: nat)
    requires LockInv(c, s) && Guard(c, s, l) && p < |s.procs|
    ensures (l.Do? ==> l.p < |s.procs|) && (l.Interrupt? || l.Kill? ==> l.g < |s.groups|)
    ensures l.Spawn? ==> l.g < |s.groups| && s.groups[l.g].next < |s.groups[l.g].due|
    ensures var t := Protocol.Next(s, l);
            p < |t.procs| && t.procs[p].group == s.procs[p].group && t.procs[p].kind == s.procs[p].kind
  {
    hide LockInv, LocalStep, EventAllowed, Active, Protocol.Next;
    GuardInRange(c, s, l);
    if l.Do? && l.p == p {
      WfOf(c, s, p);
      NextFile(s, p, l.e, l.q);
      LocalHolds(c, s.groups[s.procs[p].group].interrupted, s.procs[p], l.e, l.q);
    } else {
      OthersLeave(c, s, l, p);
    }
  }

  // ----- Which jobs are started, and how many at a time -----

  /** The jobs an invocation has started, in order. */
  function JobsOf(procs: seq<Proc>, g: nat): seq<string> {
    if procs == [] then []
    else
      var last := procs[|procs| - 1];
      JobsOf(procs[..|procs| - 1], g) + if last.kind.Work? && last.group == g then [last.kind.job] else []
  }

  /** How many of them have not ended. */
  function ActiveJobs(procs: seq<Proc>, g: nat): nat {
    if procs == [] then 0
    else
      var last := procs[|procs| - 1];
      ActiveJobs(procs[..|procs| - 1], g) + if last.kind.Work? && last.group == g && !Done(last) then 1 else 0
  }

  predicate SameKinds(procs: seq<Proc>, later: seq<Proc>) {
    && |later| == |procs|
    && forall p :: 0 <= p < |procs| ==>
         later[p].kind == procs[p].kind && later[p].group == procs[p].group && (Done(procs[p]) ==> Done(later[p]))
  }

  lemma {:induction false} SameJobs(procs: seq<Proc>, later: seq<Proc>, g: nat)
    requires SameKinds(procs, later)
    ensures JobsOf(later, g) == JobsOf(procs, g) && ActiveJobs(later, g) <= ActiveJobs(procs, g)
  {
    if procs != [] {
      SameJobs(procs[..|procs| - 1], later[..|procs| - 1], g);
    }
  }

  lemma {:induction false} ActiveAtLeast(procs: seq<Proc>, g: nat)
    ensures ActiveJobs(procs, g) <= Active(procs, g)
  {
    if procs != [] {
      ActiveAtLeast(procs[..|procs| - 1], g);
    }
  }

  lemma {:induction false} NoJobsAdded(procs: seq<Proc>, more: seq<Proc>, g: nat)
    requires forall p :: 0 <= p < |more| ==> !more[p].kind.Work? || more[p].group != g
    ensures JobsOf(procs + more, g) == JobsOf(procs, g) && ActiveJobs(procs + more, g) == ActiveJobs(procs, g)
    decreases |more|
  {
    if more == [] {
      assert procs + more == procs;
    } else {
      var n := |more| - 1;
      NoJobsAdded(procs, more[..n], g);
      assert (procs + more)[..|procs| + n] == procs + more[..n];
    }
  }

  lemma {:induction false} NoneOf(procs: seq<Proc>, g: nat)
    requires forall p :: 0 <= p < |procs| ==> procs[p].group < g
    ensures JobsOf(procs, g) == [] && ActiveJobs(procs, g) == 0
  {
    if procs != [] {
      NoneOf(procs[..|procs| - 1], g);
    }
  }

  /** A tick runs no more jobs at a time than max_concurrent, or one; `run` one. */
  ghost predicate StartedOk(c: Config, s: Sys, g: nat)
    requires g < |s.groups|
  {
    var group := s.groups[g];
    && group.next <= |group.due| && JobsOf(s.procs, g) == group.due[..group.next]
    && (ActiveJobs(s.procs, g) <= 1 || (group.trigger == Tick && ActiveJobs(s.procs, g) <= c.maxConcurrent))
    && (forall p :: 0 <= p < |s.procs| && s.procs[p].kind.Work? && s.procs[p].group == g ==> s.procs[p].kind.trigger == group.trigger)
  }

  ghost predicate AllStartedOk(c: Config, s: Sys) {
    forall g :: 0 <= g < |s.groups| ==> StartedOk(c, s, g)
  }

  lemma QuietKeepsStarted(c: Config, s: Sys, t: Sys)
    requires AllStartedOk(c, s) && SameKinds(s.procs, t.procs) && |t.groups| == |s.groups|
    requires forall g :: 0 <= g < |s.groups| ==>
               t.groups[g].due == s.groups[g].due && t.groups[g].next == s.groups[g].next && t.groups[g].trigger == s.groups[g].trigger
    ensures AllStartedOk(c, t)
  {
    hide JobsOf, ActiveJobs;
    forall g | 0 <= g < |t.groups|
      ensures StartedOk(c, t, g)
    {
      assert StartedOk(c, s, g);
      SameJobs(s.procs, t.procs, g);
    }
  }

  lemma SpawnKeepsStarted(c: Config, s: Sys, g: nat)
    requires LockInv(c, s) && AllStartedOk(c, s) && Guard(c, s, Spawn(g))
    ensures AllStartedOk(c, Protocol.Next(s, Spawn(g)))
  {
    hide JobsOf, ActiveJobs, Active, LockInv, StartedOk;
    var t := Protocol.Next(s, Spawn(g));
    forall h | 0 <= h < |t.groups|
      ensures StartedOk(c, t, h)
    {
      assert StartedOk(c, s, h);
      SpawnStarted(c, s, t, g, h);
    }
  }

  lemma SpawnStarted(c: Config, s: Sys, t: Sys, g: nat, h: nat)
    requires g < |s.groups| && h < |s.groups| && StartedOk(c, s, h) && s.groups[g].next < |s.groups[g].due|
    requires Active(s.procs, g) < Limit(c, s.groups[g])
    requires t.procs == s.procs + [Fresh(Work(s.groups[g].due[s.groups[g].next], s.groups[g].trigger), g)]
    requires t.groups == s.groups[g := s.groups[g].(next := s.groups[g].next + 1)]
    ensures StartedOk(c, t, h)
  {
    hide JobsOf, ActiveJobs, Active;
    var added := t.procs[|s.procs|];
    if h == g {
      OneJobAdded(s.procs, added, g);
      ActiveAtLeast(s.procs, g);
      var due, n := s.groups[g].due, s.groups[g].next;
      assert due[..n + 1] == due[..n] + [due[n]];
    } else {
      NoJobsAdded(s.procs, [added], h);
    }
  }

  lemma OneJobAdded(procs: seq<Proc>, added: Proc, g: nat)
    requires added.kind.Work? && added.group == g && !Done(added)
    ensures JobsOf(procs + [added], g) == JobsOf(procs, g) + [added.kind.job]
    ensures ActiveJobs(procs + [added], g) == ActiveJobs(procs, g) + 1
    ensures Active(procs + [added], g) == Active(procs, g) + 1
  {
    assert (procs + [added])[..|procs|] == procs;
  }

  lemma ArriveKeepsStarted(c: Config, s: Sys, group: Group, kinds: seq<Kind>)
    requires LockInv(c, s) && AllStartedOk(c, s) && Guard(c, s, Arrive(group, kinds))
    ensures AllStartedOk(c, Protocol.Next(s, Arrive(group, kinds)))
  {
    hide JobsOf, ActiveJobs, ProcWf, Owned;
    var t := Protocol.Next(s, Arrive(group, kinds));
    var more := FreshAll(kinds, |s.groups|);
    forall p | 0 <= p < |more|
      ensures !more[p].kind.Work?
    {
      assert kinds[p] in kinds;
    }
    NoneOf(s.procs, |s.groups|);
    forall h | 0 <= h < |t.groups|
      ensures StartedOk(c, t, h)
    {
      assert h < |s.groups| ==> StartedOk(c, s, h);
      NoJobsAdded(s.procs, more, h);
    }
  }

  lemma StepKeepsStarted(c: Config, s: Sys, l: Label)
    requires LockInv(c, s) && AllStartedOk(c, s) && Guard(c, s, l)
    ensures AllStartedOk(c, Protocol.Next(s, l))
  {
    hide LockInv, AllStartedOk, StartedOk, LocalStep, EventAllowed, RanAfter, JobsOf, ActiveJobs, Active;
    GuardInRange(c, s, l);
    match l
    case Spawn(g) => SpawnKeepsStarted(c, s, g);
    case Arrive(group, kinds) => ArriveKeepsStarted(c, s, group, kinds);
    case Do(p, e, q) =>
      DoKeepsKinds(c, s, p, e, q);
      QuietKeepsStarted(c, s, Protocol.Next(s, l));
    case _ =>
      QuietKeepsStarted(c, s, Protocol.Next(s, l));
  }

  lemma DoKeepsKinds(c: Config, s: Sys, p: nat, e: Event, q: Proc)
    requires LockInv(c, s) && Guard(c, s, Do(p, e, q))
    ensures SameKinds(s.procs, Protocol.Next(s, Do(p, e, q)).procs)
  {
    hide LockInv, LocalStep, EventAllowed, Protocol.Next;
    NextFile(s, p, e, q);
    NotDone(c, s.groups[s.procs[p].group].interrupted, s.procs[p], e, q);
    WfOf(c, s, p);
    LocalHolds(c, s.groups[s.procs[p].group].interrupted, s.procs[p], e, q);
  }

  lemma NotDone(c: Config, intr: bool, pr: Proc, e: Event, q: Proc)
    requires LocalStep(c, intr, pr, e, q)
    ensures !Done(pr)
  {
  }

  /** Over any run of the system: an invocation starts its jobs in order, each
      once and under its own trigger, and no more at a time than it may. */
  lemma {:induction false} StartedInOrder(c: Config, b: seq<Sys>, i: nat, g: nat)
    requires Behaviour(c, b) && i < |b| && g < |b[i].groups|
    ensures StartedOk(c, b[i], g)
  {
    hide StartedOk, Guard, Protocol.Next;
    AllStarted(c, b, i);
  }

  lemma {:induction false} AllStarted(c: Config, b: seq<Sys>, i: nat)
    requires Behaviour(c, b) && i < |b|
    ensures AllStartedOk(c, b[i])
  {
    hide StartedOk, Guard, Protocol.Next, LockInv;
    if i > 0 {
      AllStarted(c, b, i - 1);
      LocksAlways(c, b, i - 1);
      var l := StepLabel(c, b, i - 1);
      StepKeepsStarted(c, b[i - 1], l);
    }
  }

  /** And as many as it may: unless interrupted, it can start more until it has
      max_concurrent running, or one, or nothing left to start. */
  lemma {:induction false} FillsUp(c: Config, b: seq<Sys>, g: nat) returns (d: seq<Sys>)
    requires Behaviour(c, b) && g < |b[|b| - 1].groups| && b[|b| - 1].groups[g].next <= |b[|b| - 1].groups[g].due|
    requires b[|b| - 1].groups[g].alive && !b[|b| - 1].groups[g].interrupted
    ensures Behaviour(c, d) && b <= d && g < |d[|d| - 1].groups|
    ensures var t := d[|d| - 1];
            && t.groups[g].due == b[|b| - 1].groups[g].due && t.groups[g].trigger == b[|b| - 1].groups[g].trigger
            && (t.groups[g].next < |t.groups[g].due| ==>
                  Active(t.procs, g) >= 1 && (t.groups[g].trigger == Tick ==> Active(t.procs, g) >= c.maxConcurrent))
    decreases |b[|b| - 1].groups[g].due| - b[|b| - 1].groups[g].next
  {
    hide Step, Active;
    var s := b[|b| - 1];
    d := b;
    if s.groups[g].next < |s.groups[g].due| && Active(s.procs, g) < Limit(c, s.groups[g]) {
      BehaviourNext(c, b, Spawn(g));
      var t := Protocol.Next(s, Spawn(g));
      assert (b + [t])[|b + [t]| - 1] == t;
      d := FillsUp(c, b + [t], g);
    }
  }

  // ----- A tick looks again -----

  /** From a tick's second look at the schedule on. */
  predicate Looked(pc: Pc) {
    match pc
    case Start => false
    case Update(phase, _) => phase != Clearing
    case Unwind(_, ending) => ending == Ran || ending == NotDue
    case Ended(ending) => ending == Ran || ending == NotDue
    case _ => true
  }

  ghost predicate LookedAt(b: seq<Sys>, i: nat, p: nat) {
    exists j: nat :: j <= i && j < |b| && p < |b[j].procs| && b[j].procs[p].pc == CheckDue
  }

  lemma LookStep(c: Config, intr: bool, pr: Proc, e: Event, q: Proc)
    requires pr.kind.Work? && pr.kind.trigger == Tick && LocalStep(c, intr, pr, e, q) && Looked(q.pc)
    ensures Looked(pr.pc) || q.pc == CheckDue
  {
    hide AcquireStep, RunStep, UpdateStep;
    if pr.pc.Update? {
      StepIsUpdate(c, intr, pr, e, q);
      LookUpdates(pr, pr.pc.phase, pr.pc.io, e, q);
    } else if pr.pc == Start {
      LookStarts(c, intr, pr, e, q);
    } else if pr.pc.Unwind? {
      LookLeaves(c, intr, pr, e, q);
    }
  }

  lemma LookUpdates(pr: Proc, phase: Phase, io: Io, e: Event, q: Proc)
    requires pr.kind.Work? && pr.kind.trigger == Tick && pr.pc == Update(phase, io) && UpdateStep(pr, phase, io, e, q) && Looked(q.pc)
    ensures Looked(pr.pc) || q.pc == CheckDue
  {
    hide Apply;
  }

  lemma LookStarts(c: Config, intr: bool, pr: Proc, e: Event, q: Proc)
    requires pr.kind.Work? && pr.pc == Start && LocalStep(c, intr, pr, e, q)
    ensures !Looked(q.pc)
  {
    hide Repositories, Count;
  }

  lemma LookLeaves(c: Config, intr: bool, pr: Proc, e: Event, q: Proc)
    requires pr.pc.Unwind? && LocalStep(c, intr, pr, e, q)
    ensures Looked(q.pc) ==> Looked(pr.pc)
  {
    hide Repositories;
  }

  lemma NewOrKilled(c: Config, s: Sys, l: Label, p: nat)
    requires Guard(c, s, l) && !(l.Do? && l.p == p)
    ensures (l.Do? ==> l.p < |s.procs|) && (l.Interrupt? || l.Kill? ==> l.g < |s.groups|)
    ensures l.Spawn? ==> l.g < |s.groups| && s.groups[l.g].next < |s.groups[l.g].due|
    ensures var t := Protocol.Next(s, l);
            p < |t.procs| && Looked(t.procs[p].pc) ==> p < |s.procs| && t.procs[p] == s.procs[p]
  {
    hide LocalStep, EventAllowed, Active, RanAfter;
    GuardInRange(c, s, l);
  }

  /** Whatever its tick had found, no job of a tick goes on to run, or is found
      not due, without a look at the state under its lock. */
  lemma {:induction false} TickLooks(c: Config, b: seq<Sys>, i: nat, p: nat)
    requires Behaviour(c, b) && i < |b| && p < |b[i].procs| && Looked(b[i].procs[p].pc)
    requires b[i].procs[p].kind.Work? && b[i].procs[p].kind.trigger == Tick
    ensures LookedAt(b, i, p)
  {
    hide StateInv, LocalStep, EventAllowed, Active, Protocol.Next;
    if i > 0 {
      StateAlways(c, b, i - 1);
      var l := StepLabel(c, b, i - 1);
      GuardInRange(c, b[i - 1], l);
      if l.Do? && l.p == p {
        NextFile(b[i - 1], p, l.e, l.q);
        var intr := b[i - 1].groups[b[i - 1].procs[p].group].interrupted;
        WellFormed(c, b[i - 1], p);
        LocalHolds(c, intr, b[i - 1].procs[p], l.e, l.q);
        LookStep(c, intr, b[i - 1].procs[p], l.e, l.q);
        if Looked(b[i - 1].procs[p].pc) {
          TickLooks(c, b, i - 1, p);
        }
      } else {
        NewOrKilled(c, b[i - 1], l, p);
        TickLooks(c, b, i - 1, p);
      }
    }
  }

  // ----- Snapshot lists -----

  /** At some moment up to i the process was about to save its k-th list. */
  ghost predicate TriedList(b: seq<Sys>, i: nat, p: nat, k: nat)
    requires i < |b| && p < |b[i].procs| && k <= |b[i].procs[p].saves|
  {
    exists j: nat :: j <= i && p < |b[j].procs| && b[j].procs[p].pc.SaveSnapshots? && b[j].procs[p].pc.left == b[i].procs[p].saves[k..]
  }

  /** How many of its lists a process has come to. */
  function ListsLeft(pr: Proc): nat {
    match pr.pc
    case Snapshots(left) => |left|
    case SaveSnapshots(left, _, _) => |left|
    case _ => 0
  }

  /** At its lists, or past them all. */
  predicate Saving(pr: Proc) {
    || pr.pc.Snapshots? || pr.pc.SaveSnapshots?
    || ((pr.pc.Unwind? || pr.pc.Ended?) && pr.pc.ending == Ran)
  }

  /** Those left are the last ones of what its run had to save. */
  predicate SavesRest(pr: Proc) {
    && ListsLeft(pr) <= |pr.saves|
    && (pr.pc.Snapshots? || pr.pc.SaveSnapshots? ==> pr.pc.left == pr.saves[|pr.saves| - ListsLeft(pr)..])
  }

  /** From one list to the next, from q's first step at them on. */
  predicate NextList(pr: Proc, q: Proc) {
    if !Saving(pr) then q.pc == Snapshots(q.saves)
    else
      && q.saves == pr.saves
      && (SavesRest(pr) ==> SavesRest(q))
      && (if pr.pc.SaveSnapshots? then ListsLeft(q) == ListsLeft(pr) - 1 && q.pc.Snapshots? else ListsLeft(q) == ListsLeft(pr))
  }

  lemma SavingStep(c: Config, intr: bool, pr: Proc, e: Event, q: Proc)
    requires ProcWf(c, pr) && pr.kind.Work? && LocalStep(c, intr, pr, e, q) && Saving(q)
    ensures NextList(pr, q)
  {
    hide AcquireStep, RunStep, UpdateStep, Saving, NextList, ProcWf;
    if pr.pc.Update? {
      StepIsUpdate(c, intr, pr, e, q);
      NotWriting(c, pr);
      SavingAfterUpdate(pr, pr.pc.phase, pr.pc.io, e, q);
    } else if pr.pc.Unwind? || pr.pc.Ended? {
      SavingLeaves(c, intr, pr, e, q);
    } else if AcquireStep(c, intr, pr, e, q) {
      NotSavingYet(c, intr, pr, e, q);
    } else {
      SavingRuns(c, pr, e, q);
    }
  }

  lemma NotWriting(c: Config, pr: Proc)
    requires ProcWf(c, pr) && pr.kind.Work? && pr.pc.Update?
    ensures pr.pc.phase != Writing
  {
    hide Repositories;
  }

  lemma SavingAfterUpdate(pr: Proc, phase: Phase, io: Io, e: Event, q: Proc)
    requires pr.kind.Work? && pr.pc == Update(phase, io) && phase != Writing && UpdateStep(pr, phase, io, e, q) && Saving(q)
    ensures NextList(pr, q)
  {
    hide Apply;
  }

  lemma SavingLeaves(c: Config, intr: bool, pr: Proc, e: Event, q: Proc)
    requires pr.kind.Work? && LocalStep(c, intr, pr, e, q) && Saving(q) && (pr.pc.Unwind? || pr.pc.Ended?)
    ensures NextList(pr, q)
  {
    hide Repositories;
  }

  lemma NotSavingYet(c: Config, intr: bool, pr: Proc, e: Event, q: Proc)
    requires pr.kind.Work? && AcquireStep(c, intr, pr, e, q)
    ensures !Saving(q)
  {
    hide Repositories, StillDue, Count;
  }

  lemma SavingRuns(c: Config, pr: Proc, e: Event, q: Proc)
    requires ProcWf(c, pr) && pr.kind.Work? && RunStep(c, pr, e, q) && Saving(q)
    ensures NextList(pr, q)
  {
    hide Repositories, Notified, Count, SavesRest;
    if pr.pc.SaveSnapshots? {
      ListSaved(pr, q);
    } else if pr.pc.Snapshots? {
      ListNext(pr, q);
    }
  }

  lemma ListSaved(pr: Proc, q: Proc)
    requires pr.pc.SaveSnapshots? && pr.pc.left != [] && q == pr.(pc := Snapshots(pr.pc.left[1..]))
    ensures SavesRest(pr) ==> SavesRest(q)
  {
  }

  lemma ListNext(pr: Proc, q: Proc)
    requires pr.pc.Snapshots? && q == pr.(pc := q.pc)
    requires if pr.pc.left == [] then q.pc.Unwind? else q.pc.SaveSnapshots? && q.pc.left == pr.pc.left
    ensures SavesRest(pr) ==> SavesRest(q)
  {
  }

  lemma KilledSaving(pr: Proc)
    requires Saving(AfterKill(pr))
    ensures AfterKill(pr) == pr
  {
  }

  lemma NewNotSaving(c: Config, s: Sys, l: Label, p: nat)
    requires Guard(c, s, l) && |s.procs| <= p
    ensures (l.Do? ==> l.p < |s.procs|) && (l.Interrupt? || l.Kill? ==> l.g < |s.groups|)
    ensures l.Spawn? ==> l.g < |s.groups| && s.groups[l.g].next < |s.groups[l.g].due|
    ensures p < |Protocol.Next(s, l).procs| ==> !Saving(Protocol.Next(s, l).procs[p])
  {
    hide LocalStep, EventAllowed, Active, RanAfter;
    GuardInRange(c, s, l);
  }

  /** Every list up to those left has been come to. */
  ghost predicate ListsTried(b: seq<Sys>, i: nat, p: nat)
    requires i < |b| && p < |b[i].procs|
  {
    var pr := b[i].procs[p];
    SavesRest(pr) && forall k: nat :: k < |pr.saves| - ListsLeft(pr) ==> TriedList(b, i, p, k)
  }

  lemma TriedLater(b: seq<Sys>, i: nat, p: nat, pr: Proc, q: Proc)
    requires 0 < i < |b| && p < |b[i - 1].procs| && p < |b[i].procs| && pr == b[i - 1].procs[p] && q == b[i].procs[p]
    requires Saving(pr) && ListsTried(b, i - 1, p) && NextList(pr, q)
    ensures ListsTried(b, i, p)
  {
    hide Saving;
    forall k: nat | k < |q.saves| - ListsLeft(q)
      ensures TriedList(b, i, p, k)
    {
      if k < |pr.saves| - ListsLeft(pr) {
        assert TriedList(b, i - 1, p, k);
      }
    }
  }

  lemma TriedStill(b: seq<Sys>, i: nat, p: nat)
    requires 0 < i < |b| && p < |b[i - 1].procs| && p < |b[i].procs| && b[i].procs[p] == b[i - 1].procs[p] && ListsTried(b, i - 1, p)
    ensures ListsTried(b, i, p)
  {
    hide SavesRest, ListsLeft;
    var pr := b[i].procs[p];
    forall k: nat | k < |pr.saves| - ListsLeft(pr) && SavesRest(pr)
      ensures TriedList(b, i, p, k)
    {
      assert TriedList(b, i - 1, p, k);
    }
  }

  lemma FirstList(b: seq<Sys>, i: nat, p: nat)
    requires i < |b| && p < |b[i].procs| && b[i].procs[p].pc == Snapshots(b[i].procs[p].saves)
    ensures ListsTried(b, i, p)
  {
  }

  /** Main result: a job's execution has come to each list its run had to save
      before those left, in order and whatever became of the others; when it has
      run, to all of them. */
  lemma {:induction false} ListsInOrder(c: Config, b: seq<Sys>, i: nat, p: nat)
    requires Behaviour(c, b) && i < |b| && p < |b[i].procs| && b[i].procs[p].kind.Work? && Saving(b[i].procs[p])
    ensures ListsTried(b, i, p)
    decreases i, 1
  {
    hide StateInv, LocalStep, EventAllowed, Active, Protocol.Next, ListsTried, AfterKill, Saving, NextList;
    if i > 0 {
      StateAlways(c, b, i - 1);
      var l := StepLabel(c, b, i - 1);
      GuardInRange(c, b[i - 1], l);
      if p >= |b[i - 1].procs| {
        NewNotSaving(c, b[i - 1], l, p);
      } else if l.Do? && l.p == p {
        NextFile(b[i - 1], p, l.e, l.q);
        ListsGoOn(c, b, i, p, l.e, l.q);
      } else {
        OthersLeave(c, b[i - 1], l, p);
        if b[i].procs[p] != b[i - 1].procs[p] {
          KilledSaving(b[i - 1].procs[p]);
        }
        ListsInOrder(c, b, i - 1, p);
        TriedStill(b, i, p);
      }
    }
  }

  lemma ListsGoOn(c: Config, b: seq<Sys>, i: nat, p: nat, e: Event, q: Proc)
    requires Behaviour(c, b) && 0 < i < |b| && StateInv(c, b[i - 1]) && Guard(c, b[i - 1], Do(p, e, q))
    requires b[i] == Protocol.Next(b[i - 1], Do(p, e, q)) && q.kind.Work? && Saving(q)
    ensures p < |b[i].procs| && ListsTried(b, i, p)
    decreases i, 0
  {
    hide StateInv, LocalStep, EventAllowed, Protocol.Next, ListsTried, Saving;
    var pr := b[i - 1].procs[p];
    var intr := b[i - 1].groups[pr.group].interrupted;
    NextFile(b[i - 1], p, e, q);
    WellFormed(c, b[i - 1], p);
    LocalHolds(c, intr, pr, e, q);
    SavingStep(c, intr, pr, e, q);
    if Saving(pr) {
      ListsInOrder(c, b, i - 1, p);
      TriedLater(b, i, p, pr, q);
    } else {
      FirstList(b, i, p);
    }
  }
}
