/** Every invocation ends: a measure falls with each step of an invocation. */
module ProtocolTermination {
  import opened Names
  import opened StateFile
  import opened Protocol
  import opened ProtocolLocks
  import opened ProtocolProgress

  // ----- Sums -----

  function Sum(xs: seq<nat>): nat {
    if xs == [] then 0 else Sum(xs[..|xs| - 1]) + xs[|xs| - 1]
  }

  lemma {:induction false} SumUpdate(xs: seq<nat>, i: nat, x: nat)
    requires i < |xs|
    ensures Sum(xs[i := x]) == Sum(xs) - xs[i] + x
  {
    var n := |xs| - 1;
    if i < n {
      assert xs[i := x][..n] == xs[..n][i := x];
      SumUpdate(xs[..n], i, x);
    } else {
      assert xs[i := x][..n] == xs[..n];
    }
  }

  lemma {:induction false} SumMonotone(xs: seq<nat>, ys: seq<nat>)
    requires |xs| == |ys| && forall i :: 0 <= i < |xs| ==> xs[i] <= ys[i]
    ensures Sum(xs) <= Sum(ys)
  {
    if xs != [] {
      SumMonotone(xs[..|xs| - 1], ys[..|ys| - 1]);
    }
  }

  lemma SumAppend(xs: seq<nat>, x: nat)
    ensures Sum(xs + [x]) == Sum(xs) + x
  {
    assert (xs + [x])[..|xs|] == xs;
  }

  // ----- The measure -----

  function IoRank(io: Io): nat {
    match io
    case Want => 5
    case Load => 4
    case Write(_) => 3
    case Rename(_) => 2
    case Unlock => 1
  }

  /** How many steps a process has before it, at most. repos is how many
      repositories its job has and listed how often they are listed. */
  function PcRank(repos: nat, listed: nat, pc: Pc): nat {
    var saving := repos + 4;
    var recording := saving + 2 * listed + 1;
    match pc
    case Ended(_) => 0
    case Unwind(held, _) => held + 1
    case Using => 3
    case Snapshots(left) => saving + 2 * |left|
    case SaveSnapshots(left, _, _) => saving + 2 * |left| - 1
    case Update(phase, io) =>
      (match phase
       case Writing => 1
       case Recording => recording
       case Marking => recording + 6
       case Clearing => recording + 18 + repos) + IoRank(io)
    case Running => recording + 6
    case Stamp => recording + 12
    case LoadPrior => recording + 13
    case GotSlot => recording + 14
    case AwaitSlot => recording + 15
    case Repos(k) => recording + 16 + if k <= repos then repos - k else 0
    case CheckNow(_) => recording + 17 + repos
    case CheckDue => recording + 18 + repos
    case Start => recording + 24 + repos
  }

  function Rank(c: Config, pr: Proc): nat {
    PcRank(|Repositories(c, JobName(pr))|, |JobConfig(c, JobName(pr)).repositories|, pr.pc)
  }

  function Ranks(c: Config, procs: seq<Proc>): seq<nat> {
    seq(|procs|, i requires 0 <= i < |procs| => Rank(c, procs[i]))
  }

  /** Jobs a tick has yet to start, each with its steps and the one that starts it. */
  function PendingRank(c: Config, group: Group, from: nat): nat
    decreases |group.due| - from
  {
    if from >= |group.due| then 0
    else 1 + Rank(c, Fresh(Work(group.due[from], group.trigger), 0)) + PendingRank(c, group, from + 1)
  }

  function GroupRank(c: Config, group: Group): nat {
    if !group.alive then 0
    else 1 + (if group.interrupted then 0 else 1) + PendingRank(c, group, group.next)
  }

  function GroupRanks(c: Config, groups: seq<Group>): seq<nat> {
    seq(|groups|, i requires 0 <= i < |groups| => GroupRank(c, groups[i]))
  }

  function Measure(c: Config, s: Sys): nat {
    Sum(Ranks(c, s.procs)) + Sum(GroupRanks(c, s.groups))
  }

  // ----- Each step lowers it -----

  lemma UpdateLowers(c: Config, pr: Proc, phase: Phase, io: Io, e: Event, q: Proc)
    requires ProcWf(c, pr) && pr.pc == Update(phase, io) && UpdateStep(pr, phase, io, e, q)
    ensures Rank(c, q) < Rank(c, pr)
  {
    hide RepositoryNames, Apply;
  }

  lemma AcquireLowers(c: Config, intr: bool, pr: Proc, e: Event, q: Proc)
    requires ProcWf(c, pr) && pr.kind.Work? && AcquireStep(c, intr, pr, e, q)
    ensures Rank(c, q) < Rank(c, pr)
  {
    hide RepositoryNames, StillDue;
  }

  lemma RunLowers(c: Config, pr: Proc, e: Event, q: Proc)
    requires ProcWf(c, pr) && pr.kind.Work? && RunStep(c, pr, e, q)
    ensures Rank(c, q) < Rank(c, pr)
  {
    hide RepositoryNames;
  }

  lemma LocalLowers(c: Config, intr: bool, pr: Proc, e: Event, q: Proc)
    requires ProcWf(c, pr) && LocalStep(c, intr, pr, e, q)
    ensures Rank(c, q) < Rank(c, pr)
  {
    hide RepositoryNames, UpdateStep, AcquireStep, RunStep;
    match pr.pc
    case Update(phase, io) => UpdateLowers(c, pr, phase, io, e, q);
    case Unwind(_, _) =>
    case Ended(_) =>
    case _ =>
      if pr.kind.Work? {
        if AcquireStep(c, intr, pr, e, q) {
          AcquireLowers(c, intr, pr, e, q);
        } else {
          RunLowers(c, pr, e, q);
        }
      }
  }

  lemma DoLowers(c: Config, s: Sys, p: nat, e: Event, q: Proc)
    requires LockInv(c, s) && Guard(c, s, Do(p, e, q))
    ensures Measure(c, Protocol.Next(s, Do(p, e, q))) < Measure(c, s)
  {
    hide ProcWf, LocalStep, EventAllowed, Protocol.Next, Rank, Owned;
    NextOwner(s, p, e, q);
    LocalLowers(c, s.groups[s.procs[p].group].interrupted, s.procs[p], e, q);
    assert Ranks(c, s.procs[p := q]) == Ranks(c, s.procs)[p := Rank(c, q)];
    SumUpdate(Ranks(c, s.procs), p, Rank(c, q));
  }

  lemma GroupsLower(c: Config, groups: seq<Group>, g: nat, group: Group)
    requires g < |groups|
    ensures Sum(GroupRanks(c, groups[g := group])) == Sum(GroupRanks(c, groups)) - GroupRank(c, groups[g]) + GroupRank(c, group)
  {
    hide GroupRank;
    assert GroupRanks(c, groups[g := group]) == GroupRanks(c, groups)[g := GroupRank(c, group)];
    SumUpdate(GroupRanks(c, groups), g, GroupRank(c, group));
  }

  lemma SpawnLowers(c: Config, s: Sys, g: nat)
    requires g < |s.groups| && Pending(s.groups[g])
    ensures Measure(c, Protocol.Next(s, Spawn(g))) < Measure(c, s)
  {
    hide Rank, Ranks, GroupRanks;
    var group := s.groups[g];
    var pr := Fresh(Work(group.due[group.next], group.trigger), g);
    FreshRank(c, pr.kind, g);
    GroupsLower(c, s.groups, g, group.(next := group.next + 1));
    PendingSame(c, group, group.(next := group.next + 1), group.next + 1);
    RanksAppend(c, s.procs, pr);
  }

  lemma RanksAppend(c: Config, procs: seq<Proc>, pr: Proc)
    ensures Sum(Ranks(c, procs + [pr])) == Sum(Ranks(c, procs)) + Rank(c, pr)
  {
    hide Rank;
    assert Ranks(c, procs + [pr]) == Ranks(c, procs) + [Rank(c, pr)];
    SumAppend(Ranks(c, procs), Rank(c, pr));
  }

  lemma FreshRank(c: Config, kind: Kind, g: nat)
    ensures Rank(c, Fresh(kind, g)) == Rank(c, Fresh(kind, 0))
  {
  }

  lemma {:induction false} PendingSame(c: Config, a: Group, b: Group, from: nat)
    requires a.due == b.due && a.trigger == b.trigger
    ensures PendingRank(c, a, from) == PendingRank(c, b, from)
    decreases |a.due| - from
  {
    if from < |a.due| {
      PendingSame(c, a, b, from + 1);
    }
  }

  lemma InterruptLowers(c: Config, s: Sys, g: nat)
    requires g < |s.groups| && s.groups[g].alive && !s.groups[g].interrupted
    ensures Measure(c, Protocol.Next(s, Interrupt(g))) < Measure(c, s)
  {
    var group := s.groups[g];
    GroupsLower(c, s.groups, g, group.(interrupted := true));
    PendingSame(c, group, group.(interrupted := true), group.next);
  }

  lemma KillLowers(c: Config, s: Sys, g: nat)
    requires g < |s.groups| && s.groups[g].alive
    ensures Measure(c, Protocol.Next(s, Kill(g))) < Measure(c, s)
  {
    hide Rank;
    var t := Protocol.Next(s, Kill(g));
    GroupsLower(c, s.groups, g, s.groups[g].(alive := false));
    KillRanks(c, s.procs, g);
  }

  lemma KillRanks(c: Config, procs: seq<Proc>, g: nat)
    ensures Sum(Ranks(c, KillGroup(procs, g))) <= Sum(Ranks(c, procs))
  {
    hide Rank;
    forall i | 0 <= i < |procs|
      ensures Rank(c, AfterKill(procs[i])) <= Rank(c, procs[i])
    {
      KilledRank(c, procs[i]);
    }
    SumMonotone(Ranks(c, KillGroup(procs, g)), Ranks(c, procs));
  }

  lemma KilledRank(c: Config, pr: Proc)
    ensures Rank(c, AfterKill(pr)) <= Rank(c, pr)
  {
    hide Repositories;
  }

  /** Anything an invocation does, and any interrupt or kill, lowers the
      measure; the clock and probes by `status` leave it. */
  lemma StepLowers(c: Config, s: Sys, l: Label)
    requires LockInv(c, s) && Guard(c, s, l) && !l.Arrive?
    ensures l.Do? || l.Spawn? || l.Interrupt? || l.Kill? ==> Measure(c, Protocol.Next(s, l)) < Measure(c, s)
    ensures Measure(c, Protocol.Next(s, l)) <= Measure(c, s)
  {
    hide LockInv, LocalStep, EventAllowed, Measure;
    match l
    case Do(p, e, q) => DoLowers(c, s, p, e, q);
    case Spawn(g) => SpawnLowers(c, s, g);
    case Interrupt(g) => InterruptLowers(c, s, g);
    case Kill(g) => KillLowers(c, s, g);
    case _ => OthersKeepMeasure(c, s, l);
  }

  lemma OthersKeepMeasure(c: Config, s: Sys, l: Label)
    requires l.Advance? || l.ProbeOn? || l.ProbeOff?
    ensures Measure(c, Protocol.Next(s, l)) == Measure(c, s)
  {
  }

  // ----- Main results -----

  /** States reached from s by a list of labels. */
  ghost predicate Leads(c: Config, s: Sys, ls: seq<Label>, t: Sys)
    decreases |ls|
  {
    if ls == [] then t == s
    else Guard(c, s, ls[0]) && Leads(c, Protocol.Next(s, ls[0]), ls[1..], t)
  }

  function OwnSteps(ls: seq<Label>): nat {
    if ls == [] then 0
    else (if ls[0].Do? || ls[0].Spawn? then 1 else 0) + OwnSteps(ls[1..])
  }

  /** With nothing new arriving, at most Measure(s) steps are left, however
      they interleave with the clock, probes, interrupts and kills. */
  lemma {:induction false} StepsAreBounded(c: Config, s: Sys, ls: seq<Label>, t: Sys)
    requires LockInv(c, s) && Leads(c, s, ls, t) && forall l :: l in ls ==> !l.Arrive?
    ensures OwnSteps(ls) + Measure(c, t) <= Measure(c, s)
    decreases |ls|
  {
    hide LockInv, Guard, Measure, Protocol.Next;
    if ls != [] {
      GuardInRange(c, s, ls[0]);
      var next := Protocol.Next(s, ls[0]);
      assert ls[0] in ls;
      StepKeepsLocks(c, s, ls[0]);
      StepLowers(c, s, ls[0]);
      StepsAreBounded(c, next, ls[1..], t);
    }
  }

  /** From any reachable state the invocations can all end without anything failing. */
  lemma {:induction false} CanFinish(c: Config, s: Sys) returns (ls: seq<Label>, t: Sys)
    requires LockInv(c, s)
    ensures Leads(c, s, ls, t) && Finished(t) && forall l :: l in ls ==> Working(l)
    decreases Measure(c, s)
  {
    hide LockInv, Guard, Measure, Finished, Protocol.Next;
    if Finished(s) {
      return [], s;
    }
    WorkRemains(c, s);
    var l :| Working(l) && Guard(c, s, l);
    GuardInRange(c, s, l);
    StepKeepsLocks(c, s, l);
    StepLowers(c, s, l);
    var rest;
    rest, t := CanFinish(c, Protocol.Next(s, l));
    ls := [l] + rest;
    assert ls[1..] == rest;
  }

  /** A run that has come to a stop has finished: no step of an invocation is
      left only when every one has ended and every due job has been started. */
  lemma StoppedIsFinished(c: Config, s: Sys, ls: seq<Label>, t: Sys)
    requires LockInv(c, s) && Leads(c, s, ls, t)
    requires forall l :: Working(l) ==> !Guard(c, t, l)
    ensures Finished(t)
    decreases |ls|
  {
    hide LockInv, Guard, Finished, Protocol.Next;
    if ls == [] {
      if !Finished(t) {
        WorkRemains(c, t);
      }
    } else {
      GuardInRange(c, s, ls[0]);
      StepKeepsLocks(c, s, ls[0]);
      StoppedIsFinished(c, Protocol.Next(s, ls[0]), ls[1..], t);
    }
  }
}
