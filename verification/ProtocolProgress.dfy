/** Deadlock freedom and termination. */
module ProtocolProgress {
  import opened Wrappers
  import opened Names
  import Notifications
  import opened StateFile
  import opened Protocol
  import opened ProtocolLocks

  /** Nothing runs and nothing is left to start. */
  ghost predicate Finished(s: Sys) {
    && (forall p :: 0 <= p < |s.procs| ==> Done(s.procs[p]))
    && (forall g :: 0 <= g < |s.groups| ==> !Pending(s.groups[g]))
  }

  predicate Pending(group: Group) {
    group.alive && !group.interrupted && group.next < |group.due|
  }

  /** A step of an invocation itself, other than one in which something fails.
      Waiting is not a step: a poll that finds a lock held changes nothing. */
  predicate Working(l: Label) {
    l.Spawn? || (l.Do? && l.e != IoError && l.e != LockError)
  }

  ghost predicate CanWork(c: Config, s: Sys) {
    exists l :: Working(l) && Guard(c, s, l)
  }

  // ----- Deadlock freedom -----

  lemma Moves(c: Config, s: Sys, p: nat, e: Event, q: Proc)
    requires p < |s.procs| && s.procs[p].group < |s.groups| && e != IoError && e != LockError
    requires LocalStep(c, s.groups[s.procs[p].group].interrupted, s.procs[p], e, q) && EventAllowed(s, s.procs[p], e)
    ensures CanWork(c, s)
  {
    hide LocalStep, EventAllowed;
    assert Working(Do(p, e, q)) && Guard(c, s, Do(p, e, q));
  }

  lemma UpdateMoves(c: Config, s: Sys, p: nat)
    requires p < |s.procs| && s.procs[p].group < |s.groups| && StateLockHeld(s.procs[p])
    ensures CanWork(c, s)
  {
    hide RepositoryNames, CanWork;
    var pr := s.procs[p];
    var phase := pr.pc.phase;
    var ch := ChangeOf(pr, phase);
    match pr.pc.io
    case Load =>
      match Apply(ch, s.file) {
        case Some(next) => Moves(c, s, p, Sees(s.file), pr.(pc := Update(phase, Write(next))));
        case None => Moves(c, s, p, Keeps(s.file, phase, ch), pr.(pc := Update(phase, Unlock), oks := pr.oks + {phase}));
      }
    case Write(next) => Moves(c, s, p, Tau, pr.(pc := Update(phase, Rename(next))));
    case Rename(next) => Moves(c, s, p, Puts(next, phase, ch), pr.(pc := Update(phase, Unlock), oks := pr.oks + {phase}));
    case Unlock => Moves(c, s, p, Freed(StateLock), AfterUpdate(pr, phase));
    case _ =>
  }

  /** Wanting the state lock is not for long: whoever holds it is mid-update. */
  lemma WantMoves(c: Config, s: Sys, p: nat)
    requires LockInv(c, s) && p < |s.procs| && s.procs[p].pc.Update? && s.procs[p].pc.io.Want?
    ensures CanWork(c, s)
  {
    hide RepositoryNames, CanWork, ProcWf, Among, Count;
    var pr := s.procs[p];
    if StateLock in s.owner {
      assert Holds(c, s.procs[s.owner[StateLock]], StateLock);
      UpdateMoves(c, s, s.owner[StateLock]);
    } else {
      Moves(c, s, p, Took(StateLock), pr.(pc := Update(pr.pc.phase, Load)));
    }
  }

  lemma StartMoves(c: Config, s: Sys, p: nat)
    requires p < |s.procs| && s.procs[p].group < |s.groups| && s.procs[p].pc.Start?
    ensures CanWork(c, s)
  {
    hide RepositoryNames, CanWork;
    var pr := s.procs[p];
    match pr.kind
    case Work(job, _) =>
      if JobLock(job) in s.owner || job in s.probed {
        Moves(c, s, p, Busy(JobLock(job)), Leave(c, pr, AlreadyRunning));
      } else {
        Moves(c, s, p, Took(JobLock(job)), pr.(pc := Update(Clearing, Want)));
      }
    case Exec(repo) =>
      if RepoLock(repo) in s.owner {
        Moves(c, s, p, Busy(RepoLock(repo)), Leave(c, pr, Refused));
      } else {
        Moves(c, s, p, Took(RepoLock(repo)), pr.(pc := Using));
      }
    case Writer(_) => Moves(c, s, p, Tau, pr.(pc := Update(Writing, Want)));
  }

  /** The steps of a job that need no lock. */
  lemma FreeMoves(c: Config, s: Sys, p: nat)
    requires p < |s.procs| && s.procs[p].group < |s.groups| && s.procs[p].kind.Work?
    requires match s.procs[p].pc
             case CheckDue => true
             case CheckNow(_) => true
             case GotSlot => true
             case LoadPrior => true
             case Stamp => true
             case Running => true
             case Repos(k) => k >= |Repositories(c, s.procs[p].kind.job)|
             case _ => false
    ensures CanWork(c, s)
  {
    hide RepositoryNames, CanWork, StillDue;
    var pr := s.procs[p];
    match pr.pc
    case CheckDue => Moves(c, s, p, Sees(s.file), pr.(pc := CheckNow(JobOf(s.file, pr.kind.job).lastRun)));
    case CheckNow(lastRun) =>
      Moves(c, s, p, Clock(s.clock),
            if StillDue(c, pr.kind.job, lastRun, s.clock) then pr.(pc := Repos(0), dueAt := Some(s.clock)) else Leave(c, pr, NotDue));
    case GotSlot =>
      Moves(c, s, p, Tau, if s.groups[pr.group].interrupted then Leave(c, pr, NotStarted) else pr.(pc := LoadPrior));
    case LoadPrior => Moves(c, s, p, Sees(s.file), pr.(pc := Stamp, prior := Some(CoreOf(s.file, pr.kind.job))));
    case Stamp => Moves(c, s, p, Clock(s.clock), pr.(pc := Update(Marking, Want), started := s.clock));
    case Running =>
      var run := RunRecord(pr.started, s.clock, Success, pr.kind.trigger, "", []);
      var n := Notifications.Run(s.clock, true, [], [], [], s.clock, s.clock, s.clock, pr.prior.Some?, false);
      Moves(c, s, p, Clock(s.clock),
            pr.(pc := Update(Recording, Want), run := run, failing := Failing(None, None), notice := n, saves := []));
    case Repos(k) => Moves(c, s, p, Tau, pr.(pc := AwaitSlot));
    case _ =>
  }

  lemma SavingMoves(c: Config, s: Sys, p: nat)
    requires p < |s.procs| && s.procs[p].group < |s.groups| && s.procs[p].kind.Work?
    requires s.procs[p].pc.Snapshots? || (s.procs[p].pc.SaveSnapshots? && s.procs[p].pc.left != [])
    ensures CanWork(c, s)
  {
    hide RepositoryNames, CanWork;
    var pr := s.procs[p];
    match pr.pc
    case Snapshots(left) =>
      if left == [] {
        Moves(c, s, p, Tau, Leave(c, pr, Ran));
      } else {
        var lists := ListsOf(s, JobName(pr));
        Moves(c, s, p, SeesLists(lists), pr.(pc := SaveSnapshots(left, true, lists)));
      }
    case SaveSnapshots(left, _, lists) =>
      var saved := lists[left[0] := SnapshotList(s.clock, [])];
      Moves(c, s, p, PutsLists(saved), pr.(pc := Snapshots(left[1..])));
    case _ =>
  }

  lemma EndingMoves(c: Config, s: Sys, p: nat)
    requires p < |s.procs| && s.procs[p].group < |s.groups|
    requires s.procs[p].pc.Unwind? || (s.procs[p].kind.Exec? && s.procs[p].pc.Using?)
    ensures CanWork(c, s)
  {
    hide RepositoryNames, CanWork;
    var pr := s.procs[p];
    match pr.pc
    case Unwind(held, ending) =>
      if held == 0 {
        Moves(c, s, p, Tau, pr.(pc := Ended(ending)));
      } else {
        Moves(c, s, p, Freed(LockAt(c, pr.kind, pr.slot, held - 1)), pr.(pc := Unwind(held - 1, ending)));
      }
    case _ => Moves(c, s, p, Tau, Leave(c, pr, Ran));
  }

  predicate WaitsForRepo(c: Config, pr: Proc) {
    pr.kind.Work? && pr.pc.Repos? && pr.pc.k < |Repositories(c, pr.kind.job)|
  }

  predicate Waits(c: Config, pr: Proc) {
    WaitsForRepo(c, pr) || pr.pc.AwaitSlot?
  }

  lemma OthersMove(c: Config, s: Sys, p: nat)
    requires LockInv(c, s) && p < |s.procs| && !Done(s.procs[p]) && !Waits(c, s.procs[p])
    ensures CanWork(c, s)
  {
    hide RepositoryNames, CanWork, Owned, Count;
    assert ProcWf(c, s.procs[p]);
    match s.procs[p].pc
    case Start => StartMoves(c, s, p);
    case Update(_, io) =>
      if io.Want? {
        WantMoves(c, s, p);
      } else {
        UpdateMoves(c, s, p);
      }
    case Snapshots(_) => SavingMoves(c, s, p);
    case SaveSnapshots(_, _, _) => SavingMoves(c, s, p);
    case Using => EndingMoves(c, s, p);
    case Unwind(_, _) => EndingMoves(c, s, p);
    case _ => FreeMoves(c, s, p);
  }

  /** Whoever holds a slot holds everything, so it is not waiting. */
  lemma SlotHolderDoesNotWait(c: Config, pr: Proc, i: nat)
    requires ProcWf(c, pr) && Holds(c, pr, SlotLock(i))
    ensures !Waits(c, pr) && !Done(pr)
  {
    hide RepositoryNames;
  }

  lemma SlotWaiterMoves(c: Config, s: Sys, p: nat)
    requires LockInv(c, s) && p < |s.procs| && s.procs[p].pc.AwaitSlot?
    ensures CanWork(c, s)
  {
    hide RepositoryNames, CanWork, Count, Holds;
    var pr := s.procs[p];
    assert ProcWf(c, pr);
    if SlotLock(0) in s.owner {
      var q := s.owner[SlotLock(0)];
      assert ProcWf(c, s.procs[q]) && Holds(c, s.procs[q], SlotLock(0));
      SlotHolderDoesNotWait(c, s.procs[q], 0);
      OthersMove(c, s, q);
    } else {
      Moves(c, s, p, Took(SlotLock(0)), pr.(pc := GotSlot, slot := 0));
    }
  }

  function Wanted(c: Config, pr: Proc): string
    requires WaitsForRepo(c, pr)
  {
    Repositories(c, pr.kind.job)[pr.pc.k]
  }

  /** A waiting holder of a repository waits for a later one. */
  lemma WaitsForLater(c: Config, pr: Proc, repo: string)
    requires WaitsForRepo(c, pr) && Holds(c, pr, RepoLock(repo))
    ensures Before(repo, Wanted(c, pr))
  {
    RepositoryNamesSorted(JobConfig(c, pr.kind.job).repositories);
    hide RepositoryNames, Before;
    var i: nat :| i < Count(c, pr) && LockAt(c, pr.kind, pr.slot, i) == RepoLock(repo);
    assert 0 < i && Repositories(c, pr.kind.job)[i - 1] == repo;
  }

  /** The processes waiting for a repository after this one. */
  function WaitingAfter(c: Config, s: Sys, repo: string): set<nat> {
    set p: nat | p < |s.procs| && WaitsForRepo(c, s.procs[p]) && Before(repo, Wanted(c, s.procs[p]))
  }

  /** Following who holds what leads, through ever later repositories, to a
      process that can go on: no cycle of waits can form. */
  lemma {:induction false} RepoWaiterMoves(c: Config, s: Sys, p: nat)
    requires LockInv(c, s) && p < |s.procs| && WaitsForRepo(c, s.procs[p])
    ensures CanWork(c, s)
    decreases |WaitingAfter(c, s, Wanted(c, s.procs[p]))|
  {
    hide RepositoryNames, CanWork, Before, Count, Among;
    var pr := s.procs[p];
    var repo := Wanted(c, pr);
    if RepoLock(repo) in s.owner {
      var q := s.owner[RepoLock(repo)];
      assert ProcWf(c, s.procs[q]) && Holds(c, s.procs[q], RepoLock(repo));
      if WaitsForRepo(c, s.procs[q]) {
        WaitsForLater(c, s.procs[q], repo);
        Shrinks(c, s, repo, q);
        RepoWaiterMoves(c, s, q);
      } else if s.procs[q].pc.AwaitSlot? {
        SlotWaiterMoves(c, s, q);
      } else {
        DoneHoldsNothing(c, s.procs[q], RepoLock(repo));
        OthersMove(c, s, q);
      }
    } else {
      assert ProcWf(c, pr);
      Moves(c, s, p, Took(RepoLock(repo)), pr.(pc := Repos(pr.pc.k + 1)));
    }
  }

  lemma DoneHoldsNothing(c: Config, pr: Proc, r: Resource)
    requires Holds(c, pr, r)
    ensures !Done(pr)
  {
    hide RepositoryNames;
  }

  lemma Shrinks(c: Config, s: Sys, repo: string, q: nat)
    requires q < |s.procs| && WaitsForRepo(c, s.procs[q]) && Before(repo, Wanted(c, s.procs[q]))
    ensures |WaitingAfter(c, s, Wanted(c, s.procs[q]))| < |WaitingAfter(c, s, repo)|
  {
    hide RepositoryNames, Before, WaitsForRepo, Wanted;
    var later := Wanted(c, s.procs[q]);
    var small, big := WaitingAfter(c, s, later), WaitingAfter(c, s, repo);
    BeforeIrreflexive(later);
    assert q in big && q !in small;
    forall p | p in small
      ensures p in big
    {
      BeforeTransitive(repo, later, Wanted(c, s.procs[p]));
    }
    SmallerSubset(small, big);
  }

  lemma SmallerSubset<T>(a: set<T>, b: set<T>)
    requires a < b
    ensures |a| < |b|
  {
    assert b == a + (b - a) && a * (b - a) == {};
    assert b - a != {};
  }

  lemma {:induction false} ActiveWitness(procs: seq<Proc>, g: nat)
    requires Active(procs, g) > 0
    ensures exists p :: 0 <= p < |procs| && !Done(procs[p])
  {
    var n := |procs| - 1;
    if procs[n].group == g && !Done(procs[n]) {
    } else {
      ActiveWitness(procs[..n], g);
      var p :| 0 <= p < n && !Done(procs[..n][p]);
      assert !Done(procs[p]);
    }
  }

  lemma WorkRemains(c: Config, s: Sys)
    requires LockInv(c, s) && !Finished(s)
    ensures CanWork(c, s)
  {
    hide LockInv, LocalStep, CanWork;
    if p :| 0 <= p < |s.procs| && !Done(s.procs[p]) {
      UnfinishedMoves(c, s, p);
    } else {
      var g :| 0 <= g < |s.groups| && Pending(s.groups[g]);
      if Active(s.procs, g) > 0 {
        ActiveWitness(s.procs, g);
      }
      SpawnMoves(c, s, g);
    }
  }

  lemma SpawnMoves(c: Config, s: Sys, g: nat)
    requires g < |s.groups| && Pending(s.groups[g]) && Active(s.procs, g) == 0
    ensures CanWork(c, s)
  {
    hide LocalStep, EventAllowed;
    assert Working(Spawn(g)) && Guard(c, s, Spawn(g));
  }

  lemma UnfinishedMoves(c: Config, s: Sys, p: nat)
    requires LockInv(c, s) && p < |s.procs| && !Done(s.procs[p])
    ensures CanWork(c, s)
  {
    hide LockInv, CanWork, RepositoryNames;
    if WaitsForRepo(c, s.procs[p]) {
      RepoWaiterMoves(c, s, p);
    } else if s.procs[p].pc.AwaitSlot? {
      SlotWaiterMoves(c, s, p);
    } else {
      OthersMove(c, s, p);
    }
  }

  /** Main result: in every reachable state in which anything is unfinished,
      some invocation can take a step of its own, and one that does not fail. */
  lemma DeadlockFree(c: Config, b: seq<Sys>, i: nat)
    requires Behaviour(c, b) && i < |b|
    ensures Finished(b[i]) || exists l :: Working(l) && Guard(c, b[i], l)
  {
    hide LockInv, Guard, Finished;
    LocksAlways(c, b, i);
    if !Finished(b[i]) {
      WorkRemains(c, b[i]);
    }
  }
}
