/** The state file under concurrency: every update takes effect exactly once or
    not at all, and a job's lock protects what is recorded about it. */
module ProtocolState {
  import opened Wrappers
  import opened StateFile
  import opened Protocol
  import opened ProtocolLocks

  // ----- The log -----

  /** The contents a log of updates leaves, applied in order. */
  function FoldLog(st: State, log: seq<Entry>): State {
    if log == [] then st else After(log[|log| - 1].change, FoldLog(st, log[..|log| - 1]))
  }

  /** How often an update of a process is in the log. */
  function Times(log: seq<Entry>, p: nat, phase: Phase): nat {
    if log == [] then 0
    else
      var e := log[|log| - 1];
      Times(log[..|log| - 1], p, phase) + if e.pid == p && e.phase == phase then 1 else 0
  }

  lemma LogAppend(st: State, log: seq<Entry>, e: Entry)
    ensures FoldLog(st, log + [e]) == After(e.change, FoldLog(st, log))
    ensures forall p, phase :: Times(log + [e], p, phase) ==
              Times(log, p, phase) + if e.pid == p && e.phase == phase then 1 else 0
  {
    assert (log + [e])[..|log|] == log;
  }

  // ----- The order of a process's updates -----

  function Stage(pc: Pc): nat {
    match pc
    case Start => 0
    case Update(phase, _) =>
      (match phase case Clearing => 1 case Marking => 3 case Recording => 5 case Writing => 1)
    case CheckDue => 2
    case CheckNow(_) => 2
    case Repos(_) => 2
    case AwaitSlot => 2
    case GotSlot => 2
    case LoadPrior => 2
    case Stamp => 2
    case Running => 4
    case Using => 2
    case _ => 6
  }

  function StageOf(phase: Phase): nat {
    match phase case Clearing => 1 case Marking => 3 case Recording => 5 case Writing => 1
  }

  /** Each update is made once, in its place: until it has been attempted it
      has neither taken effect nor failed, and it does not do both. */
  ghost predicate InOrder(pr: Proc) {
    && pr.oks !! pr.bad
    && (forall phase :: phase in pr.oks || phase in pr.bad ==> StageOf(phase) <= Stage(pr.pc))
    && (pr.pc.Update? && !pr.pc.io.Unlock? ==> pr.pc.phase !in pr.oks && pr.pc.phase !in pr.bad)
    && (pr.pc.Update? && pr.pc.io.Unlock? ==> pr.pc.phase in pr.oks || pr.pc.phase in pr.bad)
  }

  lemma UpdateInOrder(c: Config, pr: Proc, phase: Phase, io: Io, e: Event, q: Proc)
    requires ProcWf(c, pr) && InOrder(pr) && pr.pc == Update(phase, io) && UpdateStep(pr, phase, io, e, q)
    ensures InOrder(q) && !q.pc.Start?
  {
    hide Apply, Repositories;
  }

  /** Between updates a process only moves forward, and begins an update it
      has not begun before. */
  ghost predicate Forward(pr: Proc, q: Proc) {
    && q.oks == pr.oks && q.bad == pr.bad && !q.pc.Start?
    && Stage(pr.pc) <= Stage(q.pc)
    && (q.pc.Update? ==> q.pc.io.Want? && Stage(pr.pc) < Stage(q.pc) == StageOf(q.pc.phase))
  }

  /** What an update will write is settled by the time it begins. */
  ghost predicate Settled(pr: Proc, q: Proc) {
    && (forall phase :: StageOf(phase) <= Stage(pr.pc) ==> ChangeOf(q, phase) == ChangeOf(pr, phase))
    && (2 < Stage(pr.pc) ==> q.dueAt == pr.dueAt)
  }

  lemma LocalForward(c: Config, intr: bool, pr: Proc, e: Event, q: Proc)
    requires ProcWf(c, pr) && LocalStep(c, intr, pr, e, q) && !pr.pc.Update?
    ensures Forward(pr, q) && Settled(pr, q)
  {
    hide Repositories, StillDue, UpdateStep, Count, AcquireStep, RunStep, ExecStep;
    if pr.pc.Unwind? || pr.pc.Ended? {
    } else if pr.kind.Work? {
      if AcquireStep(c, intr, pr, e, q) {
        AcquireForward(c, intr, pr, e, q);
      } else {
        RunForward(c, pr, e, q);
      }
    } else if pr.kind.Exec? {
      ExecForward(c, pr, e, q);
    }
  }

  lemma AcquireForward(c: Config, intr: bool, pr: Proc, e: Event, q: Proc)
    requires ProcWf(c, pr) && pr.kind.Work? && AcquireStep(c, intr, pr, e, q)
    ensures Forward(pr, q) && Settled(pr, q)
  {
    hide Repositories, StillDue, Count;
  }

  lemma RunForward(c: Config, pr: Proc, e: Event, q: Proc)
    requires ProcWf(c, pr) && pr.kind.Work? && RunStep(c, pr, e, q)
    ensures Forward(pr, q) && Settled(pr, q)
  {
    hide Repositories, Count;
  }

  lemma ExecForward(c: Config, pr: Proc, e: Event, q: Proc)
    requires ProcWf(c, pr) && pr.kind.Exec? && ExecStep(c, pr, e, q)
    ensures Forward(pr, q) && Settled(pr, q)
  {
    hide Repositories, Count;
  }

  lemma LocalInOrder(c: Config, intr: bool, pr: Proc, e: Event, q: Proc)
    requires ProcWf(c, pr) && InOrder(pr) && LocalStep(c, intr, pr, e, q)
    ensures InOrder(q) && !q.pc.Start?
  {
    hide LocalStep, ProcWf, Stage;
    if pr.pc.Update? {
      StepIsUpdate(c, intr, pr, e, q);
      UpdateInOrder(c, pr, pr.pc.phase, pr.pc.io, e, q);
    } else {
      LocalForward(c, intr, pr, e, q);
    }
  }

  lemma StepIsUpdate(c: Config, intr: bool, pr: Proc, e: Event, q: Proc)
    requires LocalStep(c, intr, pr, e, q) && pr.pc.Update?
    ensures UpdateStep(pr, pr.pc.phase, pr.pc.io, e, q)
  {
    hide UpdateStep;
  }

  // ----- The invariant -----

  /** What is about to be written is the change made to what the file still holds. */
  ghost predicate InFlight(s: Sys) {
    forall p :: 0 <= p < |s.procs| && s.procs[p].pc.Update? ==>
      var phase, io := s.procs[p].pc.phase, s.procs[p].pc.io;
      io.Write? || io.Rename? ==> Apply(ChangeOf(s.procs[p], phase), s.file) == Some(io.next)
  }

  /** The log holds exactly the updates that took effect, each once, as the
      process meant them. */
  ghost predicate LogExact(s: Sys) {
    && s.file == FoldLog(s.initial, s.log)
    && (forall p: nat, phase :: Times(s.log, p, phase) ==
          if p < |s.procs| && phase in s.procs[p].oks then 1 else 0)
    && (forall k :: 0 <= k < |s.log| ==>
          var e := s.log[k];
          && e.pid < |s.procs| && e.phase in s.procs[e.pid].oks
          && e.change == ChangeOf(s.procs[e.pid], e.phase))
  }

  ghost predicate StateInv(c: Config, s: Sys) {
    && LockInv(c, s)
    && (forall p :: 0 <= p < |s.procs| ==> InOrder(s.procs[p]))
    && InFlight(s)
    && LogExact(s)
  }

  predicate Commits(e: Event) {
    e.Puts? || e.Keeps?
  }

  lemma NextFile(s: Sys, p: nat, e: Event, q: Proc)
    requires p < |s.procs|
    ensures var t := Protocol.Next(s, Do(p, e, q));
            && t.procs == s.procs[p := q] && t.groups == s.groups && t.initial == s.initial && t.clock == s.clock
            && t.file == (if e.Puts? then e.next else s.file)
            && t.log == (if Commits(e) then s.log + [EntryFor(p, e, q)] else s.log)
  {
  }

  /** A commit applies the process's own change to the current contents. */
  lemma CommitApplies(c: Config, s: Sys, p: nat, e: Event, q: Proc)
    requires StateInv(c, s) && Guard(c, s, Do(p, e, q)) && Commits(e)
    ensures var pr := s.procs[p];
            && pr.pc.Update? && StateLockHeld(pr)
            && e.phase == pr.pc.phase && e.change == ChangeOf(pr, e.phase) == ChangeOf(q, e.phase)
            && e.phase !in pr.oks && q == pr.(pc := Update(e.phase, Unlock), oks := pr.oks + {e.phase})
            && Protocol.Next(s, Do(p, e, q)).file == After(e.change, s.file)
  {
    hide Apply, LogExact, LockInv, UpdateStep, Protocol.Next, AcquireStep, RunStep, ExecStep;
    NextFile(s, p, e, q);
    OnlyUpdatesCommit(c, s.groups[s.procs[p].group].interrupted, s.procs[p], e, q);
    CommitShape(s.procs[p], s.procs[p].pc.phase, s.procs[p].pc.io, e, q);
  }

  lemma OnlyUpdatesCommit(c: Config, intr: bool, pr: Proc, e: Event, q: Proc)
    requires LocalStep(c, intr, pr, e, q) && Commits(e)
    ensures pr.pc.Update? && UpdateStep(pr, pr.pc.phase, pr.pc.io, e, q)
  {
    hide UpdateStep, Repositories, StillDue;
  }

  lemma CommitShape(pr: Proc, phase: Phase, io: Io, e: Event, q: Proc)
    requires UpdateStep(pr, phase, io, e, q) && Commits(e)
    ensures e.phase == phase && e.change == ChangeOf(pr, phase) == ChangeOf(q, phase)
    ensures q == pr.(pc := Update(phase, Unlock), oks := pr.oks + {phase})
    ensures if e.Puts? then io == Rename(e.next) else io.Load? && Apply(e.change, e.st).None?
  {
    hide Apply;
  }

  /** Steps other than commits leave oks alone. */
  lemma NoCommitKeepsOks(c: Config, intr: bool, pr: Proc, e: Event, q: Proc)
    requires ProcWf(c, pr) && InOrder(pr) && LocalStep(c, intr, pr, e, q) && !Commits(e)
    ensures q.oks == pr.oks
    ensures forall phase :: phase in pr.oks ==> ChangeOf(q, phase) == ChangeOf(pr, phase)
  {
    hide LocalStep, ProcWf, Stage, ChangeOf;
    if pr.pc.Update? {
      StepIsUpdate(c, intr, pr, e, q);
      UpdateKeepsOks(pr, pr.pc.phase, pr.pc.io, e, q);
    } else {
      LocalForward(c, intr, pr, e, q);
    }
  }

  lemma UpdateKeepsOks(pr: Proc, phase: Phase, io: Io, e: Event, q: Proc)
    requires UpdateStep(pr, phase, io, e, q) && !Commits(e)
    ensures q.oks == pr.oks && forall x :: ChangeOf(q, x) == ChangeOf(pr, x)
  {
    hide Apply;
  }

  lemma LogExactAfterCommit(s: Sys, t: Sys, p: nat, e: Entry)
    requires LogExact(s) && p < |s.procs| && e.pid == p && e.phase !in s.procs[p].oks
    requires |t.procs| == |s.procs| && forall i :: 0 <= i < |s.procs| && i != p ==> t.procs[i] == s.procs[i]
    requires t.procs[p].oks == s.procs[p].oks + {e.phase} && e.change == ChangeOf(t.procs[p], e.phase)
    requires forall phase :: phase in s.procs[p].oks ==> ChangeOf(t.procs[p], phase) == ChangeOf(s.procs[p], phase)
    requires t.log == s.log + [e] && t.initial == s.initial && t.file == After(e.change, s.file)
    ensures LogExact(t)
  {
    hide ChangeOf, After;
    LogAppend(s.initial, s.log, e);
    hide FoldLog, Times;
  }

  lemma LogExactAfterOther(s: Sys, t: Sys, p: nat)
    requires LogExact(s) && p < |s.procs|
    requires |t.procs| == |s.procs| && forall i :: 0 <= i < |s.procs| && i != p ==> t.procs[i] == s.procs[i]
    requires t.procs[p].oks == s.procs[p].oks
    requires forall phase :: phase in s.procs[p].oks ==> ChangeOf(t.procs[p], phase) == ChangeOf(s.procs[p], phase)
    requires t.log == s.log && t.initial == s.initial && t.file == s.file
    ensures LogExact(t)
  {
    hide ChangeOf, After, FoldLog, Times;
  }

  lemma LogExactAfterDo(c: Config, s: Sys, p: nat, e: Event, q: Proc)
    requires StateInv(c, s) && Guard(c, s, Do(p, e, q))
    ensures LogExact(Protocol.Next(s, Do(p, e, q)))
  {
    hide LocalStep, EventAllowed, ProcWf, Owned, Protocol.Next, InFlight, LogExact, ChangeOf, Stage, StageOf, After;
    NextFile(s, p, e, q);
    var pr, t := s.procs[p], Protocol.Next(s, Do(p, e, q));
    if Commits(e) {
      CommitApplies(c, s, p, e, q);
      CommitKeepsOthers(c, s, p, e, q);
      LogExactAfterCommit(s, t, p, EntryFor(p, e, q));
    } else {
      NoCommitKeepsOks(c, s.groups[pr.group].interrupted, pr, e, q);
      LogExactAfterOther(s, t, p);
    }
  }

  lemma CommitKeepsOthers(c: Config, s: Sys, p: nat, e: Event, q: Proc)
    requires StateInv(c, s) && Guard(c, s, Do(p, e, q)) && Commits(e)
    ensures forall phase :: phase in s.procs[p].oks ==> ChangeOf(q, phase) == ChangeOf(s.procs[p], phase)
  {
    hide Apply, LogExact, LockInv, AcquireStep, RunStep, ExecStep;
    OnlyUpdatesCommit(c, s.groups[s.procs[p].group].interrupted, s.procs[p], e, q);
  }

  /** Only the process holding the state lock writes, so what another is
      about to write stays current. */
  lemma InFlightAfterDo(c: Config, s: Sys, p: nat, e: Event, q: Proc)
    requires StateInv(c, s) && Guard(c, s, Do(p, e, q))
    ensures InFlight(Protocol.Next(s, Do(p, e, q)))
  {
    hide LocalStep, ProcWf, Protocol.Next, LogExact, InOrder, ChangeOf, Apply, Count, Among;
    NextFile(s, p, e, q);
    var t := Protocol.Next(s, Do(p, e, q));
    forall i | 0 <= i < |t.procs| && t.procs[i].pc.Update? && (t.procs[i].pc.io.Write? || t.procs[i].pc.io.Rename?)
      ensures Apply(ChangeOf(t.procs[i], t.procs[i].pc.phase), t.file) == Some(t.procs[i].pc.io.next)
    {
      if i == p {
        assert t.procs[i] == q;
        WritesCurrent(c, s, p, e, q);
      } else {
        assert t.procs[i] == s.procs[i];
        if e.Puts? {
          CommitApplies(c, s, p, e, q);
          OneUpdater(c, s, p, i);
        }
      }
    }
  }

  lemma OneUpdater(c: Config, s: Sys, p: nat, i: nat)
    requires LockInv(c, s) && p < |s.procs| && i < |s.procs|
    requires StateLockHeld(s.procs[p]) && StateLockHeld(s.procs[i])
    ensures p == i
  {
    hide ProcWf, Holds, StateLockHeld;
    HoldsState(c, s.procs[p]);
    HoldsState(c, s.procs[i]);
    assert s.owner[StateLock] == p;
    assert s.owner[StateLock] == i;
  }

  lemma HoldsState(c: Config, pr: Proc)
    ensures Holds(c, pr, StateLock) <==> StateLockHeld(pr)
  {
  }

  lemma WritesCurrent(c: Config, s: Sys, p: nat, e: Event, q: Proc)
    requires StateInv(c, s) && Guard(c, s, Do(p, e, q))
    requires q.pc.Update? && (q.pc.io.Write? || q.pc.io.Rename?)
    ensures !e.Puts? && Apply(ChangeOf(q, q.pc.phase), s.file) == Some(q.pc.io.next)
  {
    hide ProcWf, LogExact, Owned, Apply, AcquireStep, RunStep, ExecStep, UpdateStep;
    var pr := s.procs[p];
    var intr := s.groups[pr.group].interrupted;
    if pr.pc.Update? {
      StepIsUpdate(c, intr, pr, e, q);
      WriteStage(pr, pr.pc.phase, pr.pc.io, e, q);
    } else {
      LocalForward(c, intr, pr, e, q);
    }
  }

  lemma WriteStage(pr: Proc, phase: Phase, io: Io, e: Event, q: Proc)
    requires pr.pc == Update(phase, io) && UpdateStep(pr, phase, io, e, q)
    requires q.pc.Update? && (q.pc.io.Write? || q.pc.io.Rename?)
    ensures q.pc.phase == phase && ChangeOf(q, phase) == ChangeOf(pr, phase) && !e.Puts?
    ensures if q.pc.io.Write? then e.Sees? && Apply(ChangeOf(pr, phase), e.st) == Some(q.pc.io.next)
            else io == Write(q.pc.io.next)
  {
    hide Apply;
  }

  lemma DoKeepsState(c: Config, s: Sys, p: nat, e: Event, q: Proc)
    requires StateInv(c, s) && Guard(c, s, Do(p, e, q))
    ensures StateInv(c, Protocol.Next(s, Do(p, e, q)))
  {
    hide LocalStep, ProcWf, EventAllowed, LockInv, InFlight, LogExact, InOrder, Protocol.Next;
    NextFile(s, p, e, q);
    WfOf(c, s, p);
    LocalInOrder(c, s.groups[s.procs[p].group].interrupted, s.procs[p], e, q);
    StepKeepsLocks(c, s, Do(p, e, q));
    LogExactAfterDo(c, s, p, e, q);
    InFlightAfterDo(c, s, p, e, q);
  }

  lemma WfOf(c: Config, s: Sys, p: nat)
    requires LockInv(c, s) && p < |s.procs|
    ensures ProcWf(c, s.procs[p])
  {
    hide ProcWf, Owned;
  }

  lemma KillKeepsState(c: Config, s: Sys, g: nat)
    requires StateInv(c, s) && g < |s.groups| && LockInv(c, Protocol.Next(s, Kill(g)))
    ensures StateInv(c, Protocol.Next(s, Kill(g)))
  {
    hide LockInv, ChangeOf, Apply;
    var t := Protocol.Next(s, Kill(g));
    forall p | 0 <= p < |t.procs|
      ensures InOrder(t.procs[p]) && t.procs[p].oks == s.procs[p].oks
      ensures t.procs[p] == s.procs[p] || t.procs[p].pc.Ended?
      ensures forall phase :: ChangeOf(t.procs[p], phase) == ChangeOf(s.procs[p], phase)
    {
      KilledInOrder(s.procs[p]);
    }
  }

  lemma KilledInOrder(pr: Proc)
    requires InOrder(pr)
    ensures InOrder(AfterKill(pr)) && AfterKill(pr).oks == pr.oks
    ensures forall phase :: ChangeOf(AfterKill(pr), phase) == ChangeOf(pr, phase)
  {
  }

  lemma GrowKeepsState(c: Config, s: Sys, t: Sys)
    requires StateInv(c, s) && LockInv(c, t)
    requires |s.procs| <= |t.procs| && t.procs[..|s.procs|] == s.procs
    requires forall p :: |s.procs| <= p < |t.procs| ==> t.procs[p].pc == Start && t.procs[p].oks == {} && t.procs[p].bad == {}
    requires t.file == s.file && t.log == s.log && t.initial == s.initial
    ensures StateInv(c, t)
  {
    hide LockInv, ChangeOf, Apply, FoldLog, Times, Stage;
    assert forall p :: 0 <= p < |s.procs| ==> t.procs[p] == t.procs[..|s.procs|][p];
  }

  lemma StepKeepsState(c: Config, s: Sys, l: Label)
    requires StateInv(c, s) && Guard(c, s, l)
    ensures StateInv(c, Protocol.Next(s, l))
  {
    hide LocalStep, EventAllowed, LockInv, InFlight, LogExact, InOrder, Guard;
    GuardInRange(c, s, l);
    StepKeepsLocks(c, s, l);
    match l
    case Do(p, e, q) => DoKeepsState(c, s, p, e, q);
    case Kill(g) => KillKeepsState(c, s, g);
    case _ => GrowKeepsState(c, s, Protocol.Next(s, l));
  }

  lemma {:induction false} StateAlways(c: Config, b: seq<Sys>, i: nat)
    requires Behaviour(c, b) && i < |b|
    ensures StateInv(c, b[i])
  {
    hide LocalStep, EventAllowed, LockInv, Guard, InOrder, Protocol.Next;
    if i == 0 {
      LocksAlways(c, b, 0);
    } else {
      StateAlways(c, b, i - 1);
      var l := StepLabel(c, b, i - 1);
      StepKeepsState(c, b[i - 1], l);
    }
  }

  // ----- Linearizable updates -----

  lemma LogAfterStep(s: Sys, l: Label)
    requires (l.Do? ==> l.p < |s.procs|) && (l.Interrupt? || l.Kill? ==> l.g < |s.groups|)
    requires l.Spawn? ==> l.g < |s.groups| && s.groups[l.g].next < |s.groups[l.g].due|
    ensures s.log <= Protocol.Next(s, l).log && Protocol.Next(s, l).initial == s.initial
  {
    hide RanAfter;
    if l.Do? {
      NextFile(s, l.p, l.e, l.q);
    }
  }

  lemma {:induction false} LogGrows(c: Config, b: seq<Sys>, i: nat, j: nat)
    requires Behaviour(c, b) && i <= j < |b|
    ensures b[i].log <= b[j].log && b[i].initial == b[j].initial
  {
    hide LocalStep, EventAllowed, Active, Protocol.Next, Step, Init;
    if i < j {
      LogGrows(c, b, i, j - 1);
      var l := StepLabel(c, b, j - 1);
      LogAfterStep(b[j - 1], l);
    }
  }

  /** Main result: whatever the interleaving, and wherever processes are killed
      or I/O fails, the file is the committed changes applied in order; the log
      only grows; an update that has returned without an error is in it exactly
      once, as the change it was asked for, and one that returned an error not
      at all. */
  lemma UpdatesAreLinearizable(c: Config, b: seq<Sys>, i: nat, j: nat)
    requires Behaviour(c, b) && i <= j < |b|
    ensures b[j].file == FoldLog(b[0].file, b[j].log) && b[i].log <= b[j].log
    ensures forall p: nat, phase :: p < |b[j].procs| && phase in b[j].procs[p].oks ==> Times(b[j].log, p, phase) == 1
    ensures forall p: nat, phase :: p < |b[j].procs| && phase in b[j].procs[p].bad ==> Times(b[j].log, p, phase) == 0
    ensures forall k :: 0 <= k < |b[j].log| ==>
              var e := b[j].log[k];
              e.pid < |b[j].procs| && e.change == ChangeOf(b[j].procs[e.pid], e.phase)
  {
    hide Guard, Step, LockInv, InFlight, FoldLog, Times, ChangeOf;
    StateAlways(c, b, j);
    LogGrows(c, b, i, j);
    LogGrows(c, b, 0, j);
  }

  /** A reader without any lock sees the effect of some first part of the final log. */
  lemma ReadersSeeAPrefix(c: Config, b: seq<Sys>, i: nat, p: nat, st: State, q: Proc)
    requires Behaviour(c, b) && i < |b| && Guard(c, b[i], Do(p, Sees(st), q))
    ensures var log := b[|b| - 1].log;
            |b[i].log| <= |log| && st == FoldLog(b[0].file, log[..|b[i].log|])
  {
    hide Step, LockInv, InFlight, FoldLog, Times, ChangeOf, LocalStep;
    StateAlways(c, b, i);
    LogGrows(c, b, 0, i);
    LogGrows(c, b, i, |b| - 1);
    assert b[|b| - 1].log[..|b[i].log|] == b[i].log;
  }
}
