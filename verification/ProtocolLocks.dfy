/** Mutual exclusion: what holds of the locks in every reachable state. */
module ProtocolLocks {
  import opened Names
  import opened StateFile
  import opened Protocol

  function MaxCount(c: Config, kind: Kind): nat {
    match kind
    case Work(job, _) => |Repositories(c, job)| + 2
    case Exec(_) => 1
    case Writer(_) => 0
  }

  predicate ProcWf(c: Config, pr: Proc) {
    var raw := |JobConfig(c, JobName(pr)).repositories|;
    && |pr.saves| <= raw
    && Count(c, pr) <= MaxCount(c, pr.kind)
    && (pr.kind.Work? && Count(c, pr) == MaxCount(c, pr.kind) ==> pr.slot < Slots(c))
    && match pr.pc
       case Start => true
       case Update(phase, _) => if phase == Writing then pr.kind.Writer? else pr.kind.Work?
       case CheckDue => pr.kind.Work? && pr.kind.trigger == Tick
       case CheckNow(_) => pr.kind.Work? && pr.kind.trigger == Tick
       case Repos(k) => pr.kind.Work? && k <= |Repositories(c, pr.kind.job)|
       case Using => pr.kind.Exec?
       case Unwind(_, _) => true
       case Ended(_) => true
       case Snapshots(left) => pr.kind.Work? && |left| <= raw
       case SaveSnapshots(left, _, _) => pr.kind.Work? && left != [] && |left| <= raw
       case _ => pr.kind.Work?
  }

  ghost predicate AllWf(c: Config, s: Sys) {
    && (forall p :: 0 <= p < |s.procs| ==> ProcWf(c, s.procs[p]) && s.procs[p].group < |s.groups|)
    && (forall g :: 0 <= g < |s.groups| ==> s.groups[g].next <= |s.groups[g].due|)
  }

  /** The lock table says exactly what the processes hold. */
  ghost predicate Owned(c: Config, s: Sys) {
    && (forall p, r :: 0 <= p < |s.procs| && Holds(c, s.procs[p], r) ==> r in s.owner && s.owner[r] == p)
    && (forall r :: r in s.owner ==> s.owner[r] < |s.procs| && Holds(c, s.procs[s.owner[r]], r))
  }

  ghost predicate LockInv(c: Config, s: Sys) {
    AllWf(c, s) && Owned(c, s)
  }

  // ----- One process -----

  /** The order of taking locks names each of them once. */
  lemma LocksDistinct(c: Config, kind: Kind, slot: nat, i: nat, j: nat)
    requires i < MaxCount(c, kind) && j < MaxCount(c, kind) && LockAt(c, kind, slot, i) == LockAt(c, kind, slot, j)
    ensures i == j
  {
    if kind.Work? && LockAt(c, kind, slot, i).RepoLock? {
      RepositoryNamesSorted(JobConfig(c, kind.job).repositories);
      AscendingDistinct(Repositories(c, kind.job), i - 1, j - 1);
    }
  }

  lemma AmongNext(c: Config, kind: Kind, slot: nat, n: nat)
    ensures forall x :: Among(c, kind, slot, n + 1, x) <==> Among(c, kind, slot, n, x) || x == LockAt(c, kind, slot, n)
    ensures n < MaxCount(c, kind) ==> !Among(c, kind, slot, n, LockAt(c, kind, slot, n))
  {
    forall x
      ensures Among(c, kind, slot, n + 1, x) <==> Among(c, kind, slot, n, x) || x == LockAt(c, kind, slot, n)
    {
      if Among(c, kind, slot, n, x) {
        var i: nat :| i < n && LockAt(c, kind, slot, i) == x;
        assert i < n + 1;
      }
    }
    if n < MaxCount(c, kind) && Among(c, kind, slot, n, LockAt(c, kind, slot, n)) {
      var i: nat :| i < n && LockAt(c, kind, slot, i) == LockAt(c, kind, slot, n);
      LocksDistinct(c, kind, slot, i, n);
    }
  }

  /** Which slot it will be does not matter until the slot is taken. */
  lemma AmongAnySlot(c: Config, kind: Kind, slot: nat, other: nat, n: nat, x: Resource)
    requires n < MaxCount(c, kind)
    ensures Among(c, kind, slot, n, x) <==> Among(c, kind, other, n, x)
  {
    assert forall i: nat :: i < n ==> LockAt(c, kind, slot, i) == LockAt(c, kind, other, i);
  }

  lemma NotStateLock(c: Config, kind: Kind, slot: nat, i: nat)
    requires i < MaxCount(c, kind)
    ensures LockAt(c, kind, slot, i) != StateLock
  {
  }

  /** How an event changes what a process holds. */
  ghost predicate Changes(c: Config, e: Event, pr: Proc, q: Proc) {
    match e
    case Took(r) => forall x :: Holds(c, q, x) <==> Holds(c, pr, x) || x == r
    case Freed(r) => Holds(c, pr, r) && forall x :: Holds(c, q, x) <==> Holds(c, pr, x) && x != r
    case _ => forall x :: Holds(c, q, x) <==> Holds(c, pr, x)
  }

  predicate StateLockHeld(pr: Proc) {
    pr.pc.Update? && !pr.pc.io.Want?
  }

  /** Steps that neither take nor release a job, repository or slot lock. */
  lemma SameCount(c: Config, e: Event, pr: Proc, q: Proc)
    requires pr.kind == q.kind && pr.slot == q.slot && Count(c, pr) == Count(c, q)
    requires match e
             case Took(r) => r == StateLock && StateLockHeld(q)
             case Freed(r) => r == StateLock && StateLockHeld(pr) && !StateLockHeld(q)
             case _ => StateLockHeld(pr) == StateLockHeld(q)
    ensures Changes(c, e, pr, q)
  {
  }

  lemma TookNext(c: Config, pr: Proc, q: Proc)
    requires pr.kind == q.kind && Count(c, q) == Count(c, pr) + 1 <= MaxCount(c, pr.kind)
    requires !StateLockHeld(pr) && !StateLockHeld(q)
    ensures Changes(c, Took(LockAt(c, q.kind, q.slot, Count(c, pr))), pr, q)
  {
    var n := Count(c, pr);
    AmongNext(c, q.kind, q.slot, n);
    NotStateLock(c, q.kind, q.slot, n);
    forall x
      ensures Among(c, pr.kind, pr.slot, n, x) <==> Among(c, q.kind, q.slot, n, x)
    {
      AmongAnySlot(c, pr.kind, pr.slot, q.slot, n, x);
    }
  }

  lemma FreedLast(c: Config, pr: Proc, q: Proc)
    requires pr.kind == q.kind && pr.slot == q.slot && Count(c, pr) == Count(c, q) + 1 <= MaxCount(c, pr.kind)
    requires !StateLockHeld(pr) && !StateLockHeld(q)
    ensures Changes(c, Freed(LockAt(c, pr.kind, pr.slot, Count(c, q))), pr, q)
  {
    AmongNext(c, pr.kind, pr.slot, Count(c, q));
    NotStateLock(c, pr.kind, pr.slot, Count(c, q));
  }

  lemma UpdateHolds(c: Config, pr: Proc, phase: Phase, io: Io, e: Event, q: Proc)
    requires ProcWf(c, pr) && pr.pc == Update(phase, io) && UpdateStep(pr, phase, io, e, q)
    ensures ProcWf(c, q) && Changes(c, e, pr, q)
    ensures q.kind == pr.kind && q.group == pr.group
  {
    hide RepositoryNames, Apply, Holds;
    SameCount(c, e, pr, q);
  }

  lemma AcquireHolds(c: Config, intr: bool, pr: Proc, e: Event, q: Proc)
    requires ProcWf(c, pr) && pr.kind.Work? && AcquireStep(c, intr, pr, e, q)
    ensures ProcWf(c, q) && Changes(c, e, pr, q)
    ensures q.kind == pr.kind && q.group == pr.group
  {
    hide RepositoryNames, Holds, Changes, StillDue;
    if e.Took? {
      AcquireTakesNext(c, intr, pr, e, q);
      TookNext(c, pr, q);
    } else {
      SameCount(c, e, pr, q);
    }
  }

  lemma AcquireTakesNext(c: Config, intr: bool, pr: Proc, e: Event, q: Proc)
    requires ProcWf(c, pr) && pr.kind.Work? && AcquireStep(c, intr, pr, e, q) && e.Took?
    ensures Count(c, q) == Count(c, pr) + 1 <= MaxCount(c, pr.kind)
    ensures e.r == LockAt(c, q.kind, q.slot, Count(c, pr)) && !pr.pc.Update? && !StateLockHeld(q)
  {
    hide RepositoryNames;
  }

  lemma RunHolds(c: Config, pr: Proc, e: Event, q: Proc)
    requires ProcWf(c, pr) && pr.kind.Work? && RunStep(c, pr, e, q)
    ensures ProcWf(c, q) && Changes(c, e, pr, q)
    ensures q.kind == pr.kind && q.group == pr.group
  {
    hide RepositoryNames, Holds;
    SameCount(c, e, pr, q);
  }

  lemma ExecHolds(c: Config, pr: Proc, e: Event, q: Proc)
    requires ProcWf(c, pr) && pr.kind.Exec? && ExecStep(c, pr, e, q)
    ensures ProcWf(c, q) && Changes(c, e, pr, q)
    ensures q.kind == pr.kind && q.group == pr.group
  {
    hide RepositoryNames, Holds;
    if e.Took? {
      TookNext(c, pr, q);
    } else {
      SameCount(c, e, pr, q);
    }
  }

  lemma LocalHolds(c: Config, intr: bool, pr: Proc, e: Event, q: Proc)
    requires ProcWf(c, pr) && LocalStep(c, intr, pr, e, q)
    ensures ProcWf(c, q) && Changes(c, e, pr, q)
    ensures q.kind == pr.kind && q.group == pr.group
  {
    hide RepositoryNames, AcquireStep, RunStep, ExecStep, UpdateStep, Changes;
    match pr.pc
    case Update(phase, io) => UpdateHolds(c, pr, phase, io, e, q);
    case Unwind(held, _) =>
      if held == 0 {
        SameCount(c, e, pr, q);
      } else {
        FreedLast(c, pr, q);
      }
    case Ended(_) =>
    case _ =>
      match pr.kind
      case Work(_, _) =>
        if AcquireStep(c, intr, pr, e, q) {
          AcquireHolds(c, intr, pr, e, q);
        } else {
          RunHolds(c, pr, e, q);
        }
      case Exec(_) => ExecHolds(c, pr, e, q);
      case Writer(_) => SameCount(c, e, pr, q);
  }

  // ----- The whole system -----

  lemma DoKeepsLocks(c: Config, s: Sys, p: nat, e: Event, q: Proc)
    requires LockInv(c, s) && Guard(c, s, Do(p, e, q))
    ensures LockInv(c, Protocol.Next(s, Do(p, e, q)))
  {
    hide ProcWf, Holds, Owned, LocalStep, Protocol.Next;
    NextOwner(s, p, e, q);
    LocalHolds(c, s.groups[s.procs[p].group].interrupted, s.procs[p], e, q);
    OwnedAfterDo(c, s, p, e, q);
  }

  function OwnerAfter(owner: map<Resource, nat>, p: nat, e: Event): map<Resource, nat> {
    match e
    case Took(r) => owner[r := p]
    case Freed(r) => owner - {r}
    case _ => owner
  }

  lemma NextOwner(s: Sys, p: nat, e: Event, q: Proc)
    requires p < |s.procs|
    ensures var t := Protocol.Next(s, Do(p, e, q));
            t.procs == s.procs[p := q] && t.owner == OwnerAfter(s.owner, p, e) && t.groups == s.groups
  {
  }

  lemma OwnedOne(c: Config, s: Sys, p: nat, e: Event, q: Proc, i: nat, r: Resource)
    requires Owned(c, s) && p < |s.procs| && EventAllowed(s, s.procs[p], e) && Changes(c, e, s.procs[p], q)
    requires i < |s.procs| && Holds(c, s.procs[p := q][i], r)
    ensures var owner := OwnerAfter(s.owner, p, e); r in owner && owner[r] == i
  {
    hide RepositoryNames, Holds;
    var pr := s.procs[p];
    if i == p {
      assert Holds(c, q, r);
      assert Holds(c, pr, r) || (e.Took? && r == e.r);
      assert Holds(c, pr, r) ==> r in s.owner && s.owner[r] == p;
    } else {
      assert Holds(c, s.procs[i], r);
      assert r in s.owner && s.owner[r] == i;
      if e.Freed? {
        assert Holds(c, pr, e.r);
        assert s.owner[e.r] == p;
      }
    }
  }

  lemma OwnedAfterDo(c: Config, s: Sys, p: nat, e: Event, q: Proc)
    requires Owned(c, s) && p < |s.procs| && EventAllowed(s, s.procs[p], e) && Changes(c, e, s.procs[p], q)
    ensures Owned(c, Protocol.Next(s, Do(p, e, q)))
  {
    hide RepositoryNames, Holds, Protocol.Next;
    var t := Protocol.Next(s, Do(p, e, q));
    NextOwner(s, p, e, q);
    forall i, r | 0 <= i < |t.procs| && Holds(c, t.procs[i], r)
      ensures r in t.owner && t.owner[r] == i
    {
      OwnedOne(c, s, p, e, q, i, r);
    }
    forall r | r in t.owner
      ensures t.owner[r] < |t.procs| && Holds(c, t.procs[t.owner[r]], r)
    {
      assert e.Took? ==> Holds(c, q, e.r);
    }
  }

  lemma KilledHoldsNothing(c: Config, pr: Proc)
    requires ProcWf(c, pr)
    ensures ProcWf(c, AfterKill(pr)) && forall r :: !Holds(c, AfterKill(pr), r)
  {
    hide RepositoryNames;
  }

  lemma KillKeepsLocks(c: Config, s: Sys, g: nat)
    requires LockInv(c, s) && g < |s.groups|
    ensures LockInv(c, Protocol.Next(s, Kill(g)))
  {
    hide ProcWf, Holds, AfterKill;
    var t := Protocol.Next(s, Kill(g));
    forall i | 0 <= i < |t.procs| && s.procs[i].group == g
      ensures ProcWf(c, t.procs[i]) && t.procs[i].group == g && forall r :: !Holds(c, t.procs[i], r)
    {
      KilledHoldsNothing(c, s.procs[i]);
      KilledKeepsGroup(s.procs[i]);
    }
    forall i, r | 0 <= i < |t.procs| && Holds(c, t.procs[i], r)
      ensures r in t.owner && t.owner[r] == i
    {
      assert s.procs[i].group != g;
      assert Holds(c, s.procs[i], r);
    }
  }

  lemma KilledKeepsGroup(pr: Proc)
    ensures AfterKill(pr).group == pr.group
  {
  }

  lemma OtherKeepsLocks(c: Config, s: Sys, l: Label)
    requires LockInv(c, s) && (l.Interrupt? || l.Advance? || l.ProbeOn? || l.ProbeOff?)
    requires l.Interrupt? ==> l.g < |s.groups|
    ensures LockInv(c, Protocol.Next(s, l))
  {
    hide ProcWf, Holds;
  }

  lemma GuardInRange(c: Config, s: Sys, l: Label)
    requires Guard(c, s, l)
    ensures l.Do? ==> l.p < |s.procs| && s.procs[l.p].group < |s.groups|
    ensures l.Spawn? ==> l.g < |s.groups| && s.groups[l.g].next < |s.groups[l.g].due|
    ensures l.Interrupt? || l.Kill? ==> l.g < |s.groups|
    ensures l.Arrive? ==> l.group.next == 0
  {
    hide LocalStep, EventAllowed, Active;
  }

  lemma StepKeepsLocks(c: Config, s: Sys, l: Label)
    requires LockInv(c, s) && Guard(c, s, l)
    ensures LockInv(c, Protocol.Next(s, l))
  {
    hide LockInv, Guard, Protocol.Next;
    GuardInRange(c, s, l);
    match l
    case Do(p, e, q) => DoKeepsLocks(c, s, p, e, q);
    case Kill(g) => KillKeepsLocks(c, s, g);
    case Arrive(group, kinds) => ArriveKeepsLocks(c, s, group, kinds);
    case Spawn(g) => SpawnKeepsLocks(c, s, g);
    case _ => OtherKeepsLocks(c, s, l);
  }

  lemma FreshHoldsNothing(c: Config, kind: Kind, g: nat)
    ensures ProcWf(c, Fresh(kind, g)) && forall r :: !Holds(c, Fresh(kind, g), r)
  {
  }

  lemma ArriveKeepsLocks(c: Config, s: Sys, group: Group, kinds: seq<Kind>)
    requires LockInv(c, s) && group.next == 0
    ensures LockInv(c, Protocol.Next(s, Arrive(group, kinds)))
  {
    hide ProcWf, Holds;
    var t := Protocol.Next(s, Arrive(group, kinds));
    forall p | |s.procs| <= p < |t.procs|
      ensures ProcWf(c, t.procs[p]) && t.procs[p].group < |t.groups| && forall r :: !Holds(c, t.procs[p], r)
    {
      FreshHoldsNothing(c, kinds[p - |s.procs|], |s.groups|);
    }
  }

  lemma SpawnKeepsLocks(c: Config, s: Sys, g: nat)
    requires LockInv(c, s) && g < |s.groups| && s.groups[g].next < |s.groups[g].due|
    ensures LockInv(c, Protocol.Next(s, Spawn(g)))
  {
    hide ProcWf, Holds;
    var group := s.groups[g];
    FreshHoldsNothing(c, Work(group.due[group.next], group.trigger), g);
  }

  lemma StepLabel(c: Config, b: seq<Sys>, i: nat) returns (l: Label)
    requires Behaviour(c, b) && i + 1 < |b|
    ensures Guard(c, b[i], l) && b[i + 1] == Protocol.Next(b[i], l)
  {
    hide LocalStep, EventAllowed;
    assert Step(c, b[i], b[i + 1]);
    l :| Guard(c, b[i], l) && b[i + 1] == Protocol.Next(b[i], l);
  }

  /** A run goes on by any step the system allows. */
  lemma BehaviourNext(c: Config, b: seq<Sys>, l: Label)
    requires Behaviour(c, b) && Guard(c, b[|b| - 1], l)
    ensures (l.Do? ==> l.p < |b[|b| - 1].procs|) && (l.Interrupt? || l.Kill? ==> l.g < |b[|b| - 1].groups|)
    ensures l.Spawn? ==> l.g < |b[|b| - 1].groups| && b[|b| - 1].groups[l.g].next < |b[|b| - 1].groups[l.g].due|
    ensures Behaviour(c, b + [Protocol.Next(b[|b| - 1], l)])
  {
    hide Guard, Protocol.Next, Init;
    GuardInRange(c, b[|b| - 1], l);
    var t := b + [Protocol.Next(b[|b| - 1], l)];
    forall i | 0 <= i < |t| - 1
      ensures Step(c, t[i], t[i + 1])
    {
      if i < |b| - 1 {
        assert Step(c, b[i], b[i + 1]);
      }
    }
  }

  lemma InitLocks(c: Config, s: Sys)
    requires Init(s)
    ensures LockInv(c, s)
  {
  }

  lemma {:induction false} LocksAlways(c: Config, b: seq<Sys>, i: nat)
    requires Behaviour(c, b) && i < |b|
    ensures LockInv(c, b[i])
  {
    hide LockInv, Guard, Protocol.Next, Init;
    if i == 0 {
      InitLocks(c, b[0]);
    } else {
      LocksAlways(c, b, i - 1);
      var l := StepLabel(c, b, i - 1);
      StepKeepsLocks(c, b[i - 1], l);
    }
  }

  // ----- Main results -----

  /** The job's hooks and backups are under way, or its result is being recorded. */
  predicate Executing(pr: Proc) {
    match pr.pc
    case LoadPrior => true
    case Stamp => true
    case Update(phase, _) => phase == Marking || phase == Recording
    case Running => true
    case Snapshots(_) => true
    case SaveSnapshots(_, _, _) => true
    case _ => false
  }

  /** An execution of the job is running or waiting to start: what JobHeld reports. */
  predicate Holding(pr: Proc, job: string) {
    pr.kind.Work? && pr.kind.job == job && !pr.pc.Start? && !pr.pc.Unwind? && !pr.pc.Ended?
  }

  predicate Uses(c: Config, pr: Proc, repo: string) {
    if pr.kind.Exec? then pr.pc.Using? && pr.kind.repo == repo
    else Executing(pr) && repo in JobConfig(c, JobName(pr)).repositories
  }

  /** p has the job's lock, all its repositories' locks and a slot. */
  ghost predicate OwnsEverything(c: Config, s: Sys, p: nat)
    requires p < |s.procs|
  {
    var pr := s.procs[p];
    && pr.kind.Work?
    && JobLock(pr.kind.job) in s.owner && s.owner[JobLock(pr.kind.job)] == p
    && (forall repo :: repo in JobConfig(c, pr.kind.job).repositories ==>
          RepoLock(repo) in s.owner && s.owner[RepoLock(repo)] == p)
    && SlotLock(pr.slot) in s.owner && s.owner[SlotLock(pr.slot)] == p
    && pr.slot < Slots(c)
  }

  lemma OwnsAt(c: Config, s: Sys, p: nat, i: nat)
    requires LockInv(c, s) && p < |s.procs| && i < Count(c, s.procs[p])
    ensures var pr := s.procs[p];
            var r := LockAt(c, pr.kind, pr.slot, i);
            r in s.owner && s.owner[r] == p
  {
    hide RepositoryNames, Holds, Count, LockAt;
    var pr := s.procs[p];
    assert ProcWf(c, pr);
    NotStateLock(c, pr.kind, pr.slot, i);
    HoldsAt(c, pr, i);
  }

  lemma ExecutingOwns(c: Config, s: Sys, p: nat)
    requires LockInv(c, s) && p < |s.procs| && Executing(s.procs[p])
    ensures OwnsEverything(c, s, p)
  {
    hide RepositoryNames, Repositories, ProcWf, LockInv, Executing, Count, Slots, Before, Ascending;
    var pr := s.procs[p];
    ExecutingCount(c, s, p);
    var names := Repositories(c, pr.kind.job);
    OwnsAt(c, s, p, 0);
    OwnsAt(c, s, p, |names| + 1);
    forall repo | repo in JobConfig(c, pr.kind.job).repositories
      ensures RepoLock(repo) in s.owner && s.owner[RepoLock(repo)] == p
    {
      var k := RepositoryIndex(c, pr.kind.job, repo);
      OwnsAt(c, s, p, k + 1);
    }
  }

  lemma RepositoryIndex(c: Config, job: string, repo: string) returns (k: nat)
    requires repo in JobConfig(c, job).repositories
    ensures k < |Repositories(c, job)| && Repositories(c, job)[k] == repo
  {
    hide Before, Sort, Distinct;
    var refs := JobConfig(c, job).repositories;
    RepositoryNamesSorted(refs);
    assert repo in RepositoryNames(refs);
    k :| k < |RepositoryNames(refs)| && RepositoryNames(refs)[k] == repo;
  }

  /** Nothing of a job runs before it holds its job lock, the lock of every
      repository it backs up to, and a slot; and it keeps them all until the
      run and its snapshot lists are recorded. */
  lemma ExecutingHoldsEverything(c: Config, b: seq<Sys>, i: nat, p: nat)
    requires Behaviour(c, b) && i < |b| && p < |b[i].procs| && Executing(b[i].procs[p])
    ensures OwnsEverything(c, b[i], p)
  {
    LocksAlways(c, b, i);
    ExecutingOwns(c, b[i], p);
  }

  lemma ExecutingCount(c: Config, s: Sys, p: nat)
    requires LockInv(c, s) && p < |s.procs| && Executing(s.procs[p])
    ensures var pr := s.procs[p];
            pr.kind.Work? && Count(c, pr) == |Repositories(c, pr.kind.job)| + 2 && pr.slot < Slots(c)
  {
    hide RepositoryNames, Owned;
    assert ProcWf(c, s.procs[p]);
  }

  lemma HoldsAt(c: Config, pr: Proc, i: nat)
    requires i < Count(c, pr)
    ensures LockAt(c, pr.kind, pr.slot, i) != StateLock ==> Holds(c, pr, LockAt(c, pr.kind, pr.slot, i))
  {
  }

  lemma HoldingOwns(c: Config, s: Sys, p: nat, job: string)
    requires LockInv(c, s) && p < |s.procs| && Holding(s.procs[p], job)
    ensures JobLock(job) in s.owner && s.owner[JobLock(job)] == p
  {
    OwnsAt(c, s, p, 0);
  }

  /** No job is ever run, or waited for, twice at once. */
  lemma NoJobTwice(c: Config, b: seq<Sys>, i: nat, p: nat, q: nat, job: string)
    requires Behaviour(c, b) && i < |b| && p < |b[i].procs| && q < |b[i].procs|
    requires Holding(b[i].procs[p], job) && Holding(b[i].procs[q], job)
    ensures p == q
  {
    LocksAlways(c, b, i);
    HoldingOwns(c, b[i], p, job);
    HoldingOwns(c, b[i], q, job);
  }

  /** No repository is used by two running jobs, nor by a running job and a
      locking exec, nor by two of those. */
  lemma NoRepositoryTwice(c: Config, b: seq<Sys>, i: nat, p: nat, q: nat, repo: string)
    requires Behaviour(c, b) && i < |b| && p < |b[i].procs| && q < |b[i].procs|
    requires Uses(c, b[i].procs[p], repo) && Uses(c, b[i].procs[q], repo)
    ensures p == q
  {
    LocksAlways(c, b, i);
    UserOwns(c, b, i, p, repo);
    UserOwns(c, b, i, q, repo);
  }

  lemma UserOwns(c: Config, b: seq<Sys>, i: nat, p: nat, repo: string)
    requires Behaviour(c, b) && i < |b| && p < |b[i].procs| && Uses(c, b[i].procs[p], repo)
    ensures RepoLock(repo) in b[i].owner && b[i].owner[RepoLock(repo)] == p
  {
    LocksAlways(c, b, i);
    if b[i].procs[p].kind.Exec? {
      OwnsAt(c, b[i], p, 0);
    } else {
      ExecutingHoldsEverything(c, b, i, p);
    }
  }

  /** At most max_concurrent jobs run at once. */
  lemma AtMostMaxConcurrent(c: Config, b: seq<Sys>, i: nat)
    requires Behaviour(c, b) && i < |b|
    ensures var n := |set p | 0 <= p < |b[i].procs| && Executing(b[i].procs[p])|; n <= 1 || n <= c.maxConcurrent
  {
    var s := b[i];
    var running := set p | 0 <= p < |s.procs| && Executing(s.procs[p]);
    forall p | p in running
      ensures s.procs[p].slot < Slots(c)
      ensures SlotLock(s.procs[p].slot) in s.owner && s.owner[SlotLock(s.procs[p].slot)] == p
    {
      ExecutingHoldsEverything(c, b, i, p);
    }
    Pigeonhole(running, s, Slots(c));
  }

  lemma {:induction false} Pigeonhole(running: set<nat>, s: Sys, n: nat)
    requires forall p :: p in running ==> p < |s.procs| && s.procs[p].slot < n
    requires forall p, q :: p in running && q in running && s.procs[p].slot == s.procs[q].slot ==> p == q
    ensures |running| <= n
  {
    if running != {} {
      assert n > 0 by {
        var p :| p in running;
      }
      if p :| p in running && s.procs[p].slot == n - 1 {
        Pigeonhole(running - {p}, s, n - 1);
      } else {
        Pigeonhole(running, s, n - 1);
      }
    }
  }

  /** `status` asks by taking the lock shared: it fails exactly when an
      execution of the job is running, waiting or letting go. */
  lemma JobHeldIsAccurate(c: Config, b: seq<Sys>, i: nat, job: string)
    requires Behaviour(c, b) && i < |b|
    ensures (!Guard(c, b[i], ProbeOn(job)) <==>
             exists p :: 0 <= p < |b[i].procs| && Holds(c, b[i].procs[p], JobLock(job)))
  {
    LocksAlways(c, b, i);
  }
}
