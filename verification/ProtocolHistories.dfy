/** Every history happens: whatever a job's runs came to, whichever of them
    could read the state and whichever were recorded, some run of the system,
    by ticks one after the other, makes exactly those runs. So what Notifications
    shows by a history is something the system does. */
module ProtocolHistories {
  import opened Wrappers
  import opened Schedule
  import opened StateFile
  import opened Notifications
  import opened Protocol
  import opened ProtocolLocks
  import opened ProtocolState
  import opened ProtocolJobs
  import opened ProtocolRuns
  import opened ProtocolNotices

  // ----- One process alone -----

  function Last(b: seq<Sys>): Sys
    requires b != []
  {
    b[|b| - 1]
  }

  predicate Ready(s: Sys) {
    s.probed == {} && forall i :: 0 <= i < |s.procs| ==> Done(s.procs[i])
  }

  predicate AloneIn(s: Sys, p: nat) {
    && p < |s.procs| && s.procs[p].group < |s.groups| && !s.groups[s.procs[p].group].interrupted && s.probed == {}
    && forall i :: 0 <= i < |s.procs| && i != p ==> Done(s.procs[i])
  }

  /** Process p is as pr, and every other has ended. */
  ghost predicate Alone(c: Config, b: seq<Sys>, p: nat, pr: Proc) {
    b != [] && Behaviour(c, b) && p < |Last(b).procs| && AloneIn(Last(b), p) && Last(b).procs[p] == pr
  }

  /** What a step between runs leaves. */
  predicate Same(s: Sys, t: Sys) {
    t.file == s.file && t.ran == s.ran && t.clock == s.clock && t.initial == s.initial
  }

  lemma Goes(c: Config, b: seq<Sys>, p: nat, pr: Proc, e: Event, q: Proc) returns (d: seq<Sys>)
    requires Alone(c, b, p, pr) && LocalStep(c, false, pr, e, q) && EventAllowed(Last(b), pr, e)
    ensures Alone(c, d, p, q) && Last(d) == Protocol.Next(Last(b), Do(p, e, q))
    ensures !e.Puts? && pr.pc != Pc.Running ==> Same(Last(b), Last(d))
  {
    hide LocalStep, EventAllowed, LockInv, ProcWf;
    LocksAlways(c, b, |b| - 1);
    WfOf(c, Last(b), p);
    LocalHolds(c, false, pr, e, q);
    BehaviourNext(c, b, Do(p, e, q));
    d := b + [Protocol.Next(Last(b), Do(p, e, q))];
    NextFile(Last(b), p, e, q);
    hide Behaviour, Step;
  }

  /** What it does not hold itself is free. */
  lemma IsFree(c: Config, b: seq<Sys>, p: nat, pr: Proc, r: Resource)
    requires Alone(c, b, p, pr) && !Holds(c, pr, r)
    ensures r !in Last(b).owner
  {
    hide Behaviour, ProcWf;
    LocksAlways(c, b, |b| - 1);
    var s := Last(b);
    if r in s.owner {
      DoneHoldsNothing(c, s.procs[s.owner[r]], r);
    }
  }

  lemma DoneHoldsNothing(c: Config, pr: Proc, r: Resource)
    requires Done(pr)
    ensures !Holds(c, pr, r)
  {
  }

  lemma NextIsFree(c: Config, b: seq<Sys>, p: nat, pr: Proc)
    requires Alone(c, b, p, pr) && Count(c, pr) < MaxCount(c, pr.kind)
    ensures LockAt(c, pr.kind, pr.slot, Count(c, pr)) !in Last(b).owner || pr.kind.Writer?
  {
    hide Behaviour, Alone, Count, MaxCount;
    var n := Count(c, pr);
    if !pr.kind.Writer? {
      AmongNext(c, pr.kind, pr.slot, n);
      IsFree(c, b, p, pr, LockAt(c, pr.kind, pr.slot, n));
    }
  }

  // ----- A run, stage by stage -----

  lemma UpdateFails(c: Config, b: seq<Sys>, p: nat, pr: Proc) returns (d: seq<Sys>)
    requires Alone(c, b, p, pr) && pr.pc.Update? && pr.pc.io == Want
    ensures Alone(c, d, p, AfterUpdate(pr.(bad := pr.bad + {pr.pc.phase}), pr.pc.phase)) && Same(Last(b), Last(d))
  {
    hide Behaviour, Alone, Protocol.Next, Same;
    d := Goes(c, b, p, pr, IoError, AfterUpdate(pr.(bad := pr.bad + {pr.pc.phase}), pr.pc.phase));
  }

  lemma TakesJob(c: Config, b: seq<Sys>, p: nat, pr: Proc) returns (d: seq<Sys>)
    requires Alone(c, b, p, pr) && pr == Fresh(Work(JobName(pr), Tick), pr.group)
    ensures Alone(c, d, p, pr.(pc := CheckDue, bad := {Clearing})) && Same(Last(b), Last(d))
  {
    hide Behaviour, Protocol.Next, Repositories;
    NextIsFree(c, b, p, pr);
    var q := pr.(pc := Update(Clearing, Want));
    d := Goes(c, b, p, pr, Took(JobLock(JobName(pr))), q);
    d := UpdateFails(c, d, p, q);
    assert {} + {Clearing} == {Clearing};
  }

  function FoundDue(c: Config, s: Sys, job: string): Option<Time> {
    if StillDue(c, job, JobOf(s.file, job).lastRun, s.clock) then Some(s.clock) else None
  }

  /** It reads that the job is due, or fails to read that it is not. */
  lemma Checks(c: Config, b: seq<Sys>, p: nat, pr: Proc) returns (d: seq<Sys>)
    requires Alone(c, b, p, pr) && pr.kind.Work? && pr.pc == CheckDue && pr.dueAt == None
    ensures Alone(c, d, p, pr.(pc := Repos(0), dueAt := FoundDue(c, Last(b), JobName(pr)))) && Same(Last(b), Last(d))
  {
    hide Behaviour, Protocol.Next, Repositories, StillDue, AloneIn;
    var s := Last(b);
    var last := JobOf(s.file, pr.kind.job).lastRun;
    if StillDue(c, pr.kind.job, last, s.clock) {
      var q := pr.(pc := CheckNow(last));
      d := Goes(c, b, p, pr, Sees(s.file), q);
      d := Goes(c, d, p, q, Clock(s.clock), q.(pc := Repos(0), dueAt := Some(s.clock)));
    } else {
      d := Goes(c, b, p, pr, IoError, pr.(pc := Repos(0)));
    }
  }

  lemma {:induction false} TakesRepos(c: Config, b: seq<Sys>, p: nat, pr: Proc) returns (d: seq<Sys>)
    requires Alone(c, b, p, pr) && pr.kind.Work? && pr.pc.Repos? && pr.pc.k <= |Repositories(c, JobName(pr))|
    ensures Alone(c, d, p, pr.(pc := AwaitSlot)) && Same(Last(b), Last(d))
    decreases if pr.pc.Repos? then |Repositories(c, JobName(pr))| - pr.pc.k else 0
  {
    hide Behaviour, Protocol.Next, Repositories, AloneIn;
    var names, k := Repositories(c, JobName(pr)), pr.pc.k;
    if k < |names| {
      NextIsFree(c, b, p, pr);
      var q := pr.(pc := Repos(k + 1));
      d := Goes(c, b, p, pr, Took(RepoLock(names[k])), q);
      d := TakesRepos(c, d, p, q);
    } else {
      d := Goes(c, b, p, pr, Tau, pr.(pc := AwaitSlot));
    }
  }

  lemma TakesSlot(c: Config, b: seq<Sys>, p: nat, pr: Proc) returns (d: seq<Sys>)
    requires Alone(c, b, p, pr) && pr.kind.Work? && pr.pc == AwaitSlot && pr.slot == 0
    ensures Alone(c, d, p, pr.(pc := LoadPrior)) && Same(Last(b), Last(d))
  {
    hide Behaviour, Protocol.Next, Repositories, AloneIn;
    NextIsFree(c, b, p, pr);
    var q := pr.(pc := GotSlot);
    d := Goes(c, b, p, pr, Took(SlotLock(0)), q);
    d := Goes(c, d, p, q, Tau, q.(pc := LoadPrior));
  }

  function Told(s: Sys, job: string, told: bool): Option<Core> {
    if told then Some(CoreOf(s.file, job)) else None
  }

  lemma Starts(c: Config, b: seq<Sys>, p: nat, pr: Proc, told: bool) returns (d: seq<Sys>)
    requires Alone(c, b, p, pr) && pr.kind.Work? && pr.pc == LoadPrior
    ensures Alone(c, d, p, pr.(pc := Pc.Running, prior := Told(Last(b), JobName(pr), told), started := Last(b).clock,
                               bad := pr.bad + {Marking}))
    ensures Same(Last(b), Last(d))
  {
    hide Behaviour, Protocol.Next, Repositories, AloneIn;
    var s := Last(b);
    var q := pr.(pc := Stamp, prior := Told(s, JobName(pr), told));
    d := Goes(c, b, p, pr, if told then Sees(s.file) else IoError, q);
    var r := q.(pc := Update(Marking, Want), started := s.clock);
    d := Goes(c, d, p, q, Clock(s.clock), r);
    d := UpdateFails(c, d, p, r);
  }

  lemma SameHistories(s: Sys, t: Sys, job: string)
    requires Same(s, t)
    ensures HistoryOf(t, job) == HistoryOf(s, job)
  {
  }

  lemma Waits(c: Config, b: seq<Sys>, p: nat, pr: Proc, now: Time) returns (d: seq<Sys>)
    requires Alone(c, b, p, pr) && Last(b).clock <= now
    ensures Alone(c, d, p, pr) && Last(d) == Last(b).(clock := now)
  {
    hide Step;
    BehaviourNext(c, b, Advance(now));
    d := b + [Protocol.Next(Last(b), Advance(now))];
  }

  function RunOf(pr: Proc, n: Notifications.Run): RunRecord {
    RunRecord(pr.started, n.finished, if n.success then Success else Failed, TriggerOf(pr), "", [])
  }

  /** The process once its RunJob has gone as n says. */
  function Made(pr: Proc, n: Notifications.Run): Proc {
    pr.(pc := Update(Recording, Want), run := RunOf(pr, n), failing := Decide(PriorFrom(pr.prior), n).failing, notice := n, saves := [])
  }

  lemma Ends(c: Config, b: seq<Sys>, p: nat, pr: Proc, n: Notifications.Run) returns (d: seq<Sys>)
    requires Alone(c, b, p, pr) && pr.kind.Work? && pr.pc == Pc.Running && Last(b).clock == n.finished
    requires !n.recorded && n.told == pr.prior.Some? && pr.started <= n.started <= n.asked <= n.sent <= n.finished
    ensures Alone(c, d, p, Made(pr, n))
    ensures Last(d) == Last(b).(procs := Last(d).procs,
                                ran := Last(b).ran[JobName(pr) := WithRunMade(HistoryOf(Last(b), JobName(pr)), Made(pr, n))])
  {
    hide Behaviour, Repositories, AloneIn, Decide, HistoryOf, WithRunMade;
    d := Goes(c, b, p, pr, Clock(n.finished), Made(pr, n));
  }

  lemma WritesTemp(c: Config, b: seq<Sys>, p: nat, pr: Proc, next: State) returns (d: seq<Sys>)
    requires Alone(c, b, p, pr) && pr.kind.Work? && pr.pc == Update(Recording, Want)
    requires Apply(ChangeOf(pr, Recording), Last(b).file) == Some(next)
    ensures Alone(c, d, p, pr.(pc := Update(Recording, Rename(next)))) && Same(Last(b), Last(d))
  {
    hide Behaviour, Protocol.Next, AloneIn, Apply, ChangeOf;
    WantsState(c, b, p, pr);
    var q := pr.(pc := Update(Recording, Load));
    d := Goes(c, b, p, pr, Took(StateLock), q);
    var r := pr.(pc := Update(Recording, Write(next)));
    assert ChangeOf(q, Recording) == ChangeOf(pr, Recording) by {
      SameChange(pr, q);
    }
    d := Goes(c, d, p, q, Sees(Last(b).file), r);
    d := Goes(c, d, p, r, Tau, pr.(pc := Update(Recording, Rename(next))));
  }

  lemma SameChange(pr: Proc, q: Proc)
    requires q == pr.(pc := q.pc)
    ensures ChangeOf(q, Recording) == ChangeOf(pr, Recording)
  {
  }

  lemma RecordingAlters(pr: Proc, st: State)
    ensures ChangeOf(pr, Recording) == RecordRun(JobName(pr), pr.run, pr.failing) && Apply(ChangeOf(pr, Recording), st).Some?
  {
    hide WithRun;
  }

  lemma Writes(c: Config, b: seq<Sys>, p: nat, pr: Proc) returns (d: seq<Sys>)
    requires Alone(c, b, p, pr) && pr.kind.Work? && pr.pc == Update(Recording, Want) && pr.saves == []
    ensures Alone(c, d, p, pr.(pc := Snapshots([]), oks := pr.oks + {Recording}))
    ensures Last(d).clock == Last(b).clock && Last(d).initial == Last(b).initial
    ensures Last(d).ran == Last(b).ran[JobName(pr) := WithLastRecorded(HistoryOf(Last(b), JobName(pr)))]
  {
    hide Behaviour, Protocol.Next, AloneIn, Apply, ChangeOf, WithLastRecorded, HistoryOf;
    RecordingAlters(pr, Last(b).file);
    var ch := ChangeOf(pr, Recording);
    var next := Apply(ch, Last(b).file).value;
    d := WritesTemp(c, b, p, pr, next);
    var w, u := pr.(pc := Update(Recording, Rename(next))), pr.(pc := Update(Recording, Unlock), oks := pr.oks + {Recording});
    var before := Last(d);
    SameChange(pr, w);
    PutRan(before, p, next, u);
    SameHistories(Last(b), before, JobName(pr));
    d := Goes(c, d, p, w, Puts(next, Recording, ch), u);
    var after := Last(d);
    d := Goes(c, d, p, u, Freed(StateLock), u.(pc := Snapshots([])));
  }

  lemma WantsState(c: Config, b: seq<Sys>, p: nat, pr: Proc)
    requires Alone(c, b, p, pr) && pr.kind.Work? && pr.pc == Update(Recording, Want)
    ensures StateLock !in Last(b).owner
  {
    hide Behaviour, AloneIn, Repositories;
    IsFree(c, b, p, pr, StateLock);
  }

  lemma PutRan(s: Sys, p: nat, next: State, q: Proc)
    requires p < |s.procs| && s.procs[p].pc != Pc.Running
    ensures var t := Protocol.Next(s, Do(p, Puts(next, Recording, RecordRun(JobName(q), q.run, q.failing)), q));
            && t.ran == s.ran[JobName(q) := WithLastRecorded(HistoryOf(s, JobName(q)))]
            && t.clock == s.clock && t.initial == s.initial
  {
    hide WithLastRecorded, HistoryOf;
  }

  lemma {:induction false} Releases(c: Config, b: seq<Sys>, p: nat, pr: Proc) returns (d: seq<Sys>)
    requires Alone(c, b, p, pr) && pr.pc.Unwind?
    ensures Alone(c, d, p, pr.(pc := Ended(pr.pc.ending))) && Same(Last(b), Last(d))
    decreases if pr.pc.Unwind? then pr.pc.held else 0
  {
    hide Behaviour, Protocol.Next, Repositories, AloneIn;
    var held, ending := pr.pc.held, pr.pc.ending;
    if held == 0 {
      d := Goes(c, b, p, pr, Tau, pr.(pc := Ended(ending)));
    } else {
      var q := pr.(pc := Unwind(held - 1, ending));
      d := Goes(c, b, p, pr, Freed(LockAt(c, pr.kind, pr.slot, held - 1)), q);
      d := Releases(c, d, p, q);
    }
  }

  lemma Leaves(c: Config, b: seq<Sys>, p: nat, pr: Proc) returns (d: seq<Sys>)
    requires Alone(c, b, p, pr) && pr.kind.Work? && pr.pc == Snapshots([])
    ensures d != [] && Behaviour(c, d) && Ready(Last(d)) && Same(Last(b), Last(d))
  {
    hide Behaviour, Protocol.Next, Repositories, Count;
    d := Goes(c, b, p, pr, Tau, Leave(c, pr, Ran));
    d := Releases(c, d, p, Leave(c, pr, Ran));
  }

  lemma {:induction false} NoneActive(procs: seq<Proc>, g: nat)
    requires forall i :: 0 <= i < |procs| ==> Done(procs[i])
    ensures Active(procs, g) == 0
  {
    if procs != [] {
      NoneActive(procs[..|procs| - 1], g);
    }
  }

  /** A tick starts one process for the job. */
  lemma Begins(c: Config, b: seq<Sys>, job: string, now: Time) returns (d: seq<Sys>, p: nat, pr: Proc)
    requires Behaviour(c, b) && Ready(Last(b)) && Last(b).clock <= now
    ensures Alone(c, d, p, pr) && pr == Fresh(Work(job, Tick), pr.group) && Last(d) == Last(b).(procs := Last(d).procs, groups := Last(d).groups, clock := now)
  {
    hide Step, Init;
    var s := Last(b);
    BehaviourNext(c, b, Advance(now));
    d := b + [Protocol.Next(s, Advance(now))];
    var group := Group([job], 0, Tick, false, true);
    BehaviourNext(c, d, Arrive(group, []));
    d := d + [Protocol.Next(Last(d), Arrive(group, []))];
    assert FreshAll([], |s.groups|) == [] && s.procs + [] == s.procs;
    var g := |s.groups|;
    NoneActive(s.procs, g);
    BehaviourNext(c, d, Spawn(g));
    d := d + [Protocol.Next(Last(d), Spawn(g))];
    p, pr := |s.procs|, Fresh(Work(job, Tick), g);
  }

  /** Up to its RunJob. */
  lemma GetsToRun(c: Config, b: seq<Sys>, job: string, now: Time, told: bool) returns (d: seq<Sys>, p: nat, pr: Proc)
    requires b != [] && Behaviour(c, b) && Ready(Last(b)) && Last(b).clock <= now
    ensures Alone(c, d, p, pr) && pr.kind == Work(job, Tick) && pr.pc == Pc.Running && pr.started == now && pr.prior.Some? == told
    ensures pr.dueAt == FoundDue(c, Last(b).(clock := now), job) && Same(Last(b).(clock := now), Last(d))
  {
    hide Behaviour, AloneIn, Repositories, Ready, JobOf, StillDue;
    var s := Last(b).(clock := now);
    d, p, pr := Begins(c, b, job, now);
    d := TakesJob(c, d, p, pr);
    pr := pr.(pc := CheckDue, bad := {Clearing});
    d := Checks(c, d, p, pr);
    pr := pr.(pc := Repos(0), dueAt := FoundDue(c, s, job));
    d := TakesRepos(c, d, p, pr);
    pr := pr.(pc := AwaitSlot);
    d := TakesSlot(c, d, p, pr);
    pr := pr.(pc := LoadPrior);
    var prior := Told(Last(d), job, told);
    d := Starts(c, d, p, pr, told);
    pr := pr.(pc := Pc.Running, prior := prior, started := now, bad := pr.bad + {Marking});
  }

  /** And from its end on. */
  lemma MakesRecord(c: Config, b: seq<Sys>, p: nat, pr: Proc, recorded: bool) returns (d: seq<Sys>)
    requires Alone(c, b, p, pr) && pr.kind.Work? && pr.pc == Update(Recording, Want) && pr.saves == []
    ensures d != [] && Behaviour(c, d) && Ready(Last(d)) && Last(d).clock == Last(b).clock && Last(d).initial == Last(b).initial
    ensures Last(d).ran == if recorded then Last(b).ran[JobName(pr) := WithLastRecorded(HistoryOf(Last(b), JobName(pr)))] else Last(b).ran
  {
    hide Behaviour, AloneIn, Ready, HistoryOf, WithLastRecorded;
    if recorded {
      d := Writes(c, b, p, pr);
      d := Leaves(c, d, p, pr.(pc := Snapshots([]), oks := pr.oks + {Recording}));
    } else {
      d := UpdateFails(c, b, p, pr);
      d := Leaves(c, d, p, AfterUpdate(pr.(bad := pr.bad + {Recording}), Recording));
    }
  }

  /** One run, as asked for. */
  lemma MakesRun(c: Config, b: seq<Sys>, job: string, n: Notifications.Run) returns (d: seq<Sys>)
    requires b != [] && Behaviour(c, b) && Ready(Last(b)) && Last(b).clock <= n.started <= n.asked <= n.sent <= n.finished
    ensures d != [] && Behaviour(c, d) && Ready(Last(d)) && Last(d).clock == n.finished && Last(d).initial == Last(b).initial
    ensures var h, g := HistoryOf(Last(b), job), HistoryOf(Last(d), job);
            && g.runs == h.runs + [n]
            && g.due == h.due + [FoundDue(c, Last(b).(clock := n.started), job)]
  {
    hide Behaviour, AloneIn, Ready, Decide, FoundDue;
    var p, pr;
    d, p, pr := GetsToRun(c, b, job, n.started, n.told);
    d := Waits(c, d, p, pr, n.finished);
    d := Ends(c, d, p, pr, n.(recorded := false));
    d := MakesRecord(c, d, p, Made(pr, n.(recorded := false)), n.recorded);
  }

  // ----- Histories -----

  function FoundDueAt(c: Config, job: string, h: seq<Notifications.Run>, k: nat): Option<Time>
    requires k < |h|
  {
    if StillDue(c, job, StateAfter(h[..k]).lastRun, h[k].started) then Some(h[k].started) else None
  }

  /** A clock that does not go back, from the zero instant on. */
  predicate FromTheStart(h: seq<Notifications.Run>) {
    Timed(h) && forall k :: 0 <= k < |h| ==> ZERO_TIME < h[k].started
  }

  predicate Makes(c: Config, b: seq<Sys>, job: string, h: seq<Notifications.Run>) {
    && b != [] && b[|b| - 1].initial == EMPTY_STATE
    && HistoryOf(Last(b), job).runs == h && |HistoryOf(Last(b), job).due| == |h|
    && forall k :: 0 <= k < |h| ==> HistoryOf(Last(b), job).due[k] == FoundDueAt(c, job, h, k)
  }

  lemma StartFrom(c: Config, job: string, now: Time) returns (b: seq<Sys>)
    requires ZERO_TIME < now
    ensures Behaviour(c, b) && Ready(Last(b)) && Last(b).clock == now && Makes(c, b, job, [])
  {
    b := [Sys([], [], map[], {}, EMPTY_STATE, map[], now, EMPTY_STATE, [], map[])];
  }

  lemma {:induction false} MakesHistory(c: Config, job: string, h: seq<Notifications.Run>, start: Time) returns (b: seq<Sys>)
    requires FromTheStart(h) && ZERO_TIME < start && (h != [] ==> start <= h[0].started)
    ensures b != [] && Behaviour(c, b) && Ready(Last(b)) && Makes(c, b, job, h)
    ensures Last(b).clock == if h == [] then start else h[|h| - 1].finished
  {
    hide Behaviour, FoundDueAt, Ready, Makes;
    if h == [] {
      b := StartFrom(c, job, start);
    } else {
      var n := |h| - 1;
      b := MakesHistory(c, job, h[..n], start);
      var before := b;
      b := MakesRun(c, b, job, h[n]);
      MakesOneMore(c, before, b, job, h);
    }
  }

  lemma MakesOneMore(c: Config, b: seq<Sys>, d: seq<Sys>, job: string, h: seq<Notifications.Run>)
    requires h != [] && Behaviour(c, b) && Makes(c, b, job, h[..|h| - 1])
    requires d != [] && Last(d).initial == Last(b).initial
    requires var f, g := HistoryOf(Last(b), job), HistoryOf(Last(d), job);
             g.runs == f.runs + [h[|h| - 1]] && g.due == f.due + [FoundDue(c, Last(b).(clock := h[|h| - 1].started), job)]
    ensures Makes(c, d, job, h)
  {
    hide Behaviour, FoundDueAt, HistoryOf, FoundDue, StillDue, StateAfter;
    var n := |h| - 1;
    FoundFromHistory(c, b, job, h[..n], h[n].started);
    assert h[..n] + [h[n]] == h;
    forall k | 0 <= k < |h|
      ensures HistoryOf(Last(d), job).due[k] == FoundDueAt(c, job, h, k)
    {
      FoundEarlier(c, job, h, n, k);
    }
  }

  lemma FoundEarlier(c: Config, job: string, h: seq<Notifications.Run>, n: nat, k: nat)
    requires k < |h| && n < |h|
    ensures k < n ==> FoundDueAt(c, job, h, k) == FoundDueAt(c, job, h[..n], k)
    ensures k == n ==>
              FoundDueAt(c, job, h, k) == (if StillDue(c, job, StateAfter(h[..n]).lastRun, h[n].started) then Some(h[n].started) else None)
  {
    hide StillDue, StateAfter;
    if k < n {
      assert h[..n][..k] == h[..k];
    }
  }

  /** What the check reads is what the history leaves. */
  lemma FoundFromHistory(c: Config, b: seq<Sys>, job: string, h: seq<Notifications.Run>, now: Time)
    requires Behaviour(c, b) && Makes(c, b, job, h)
    ensures FoundDue(c, Last(b).(clock := now), job) == if StillDue(c, job, StateAfter(h).lastRun, now) then Some(now) else None
  {
    hide StillDue, StateAfter, Behaviour, HistoryOf;
    assert From(c, b, |b| - 1, job);
    DidAsDecided(c, b, |b| - 1, job);
  }

  function Notices(h: seq<Notifications.Run>): seq<Notice> {
    seq(|h|, k requires 0 <= k < |h| => NoticeAt(h, k))
  }

  /** Main result: every history happens. In some run of the system from an
      empty file, with any configuration, the job makes just these runs: told,
      recorded, failing and notifying as they say, each of them due when it
      began, so far as could be read. */
  lemma EveryHistoryHappens(c: Config, job: string, h: seq<Notifications.Run>)
    requires FromTheStart(h)
    ensures exists b :: Behaviour(c, b) && Makes(c, b, job, h) && HistoryOf(Last(b), job).did == Notices(h)
  {
    hide Behaviour, HistoryOf, NoticeAt, FoundDueAt, StateAfter, CoreOfJob;
    var b := MakesHistory(c, job, h, if h == [] then ZERO_TIME + 1 else h[0].started);
    assert From(c, b, |b| - 1, job);
    DidAsDecided(c, b, |b| - 1, job);
  }

  /** So a state file that can be read and not written lets a job that keeps
      failing run, and notify, as often as a tick comes: each run finds it due
      and gets its notification through. */
  lemma UnwrittenRepeats(c: Config, job: string, h: seq<Notifications.Run>)
    requires FromTheStart(h)
    requires forall k :: 0 <= k < |h| ==> !h[k].success && h[k].failure == [true] && h[k].told && !h[k].recorded
    ensures exists b :: Behaviour(c, b) && Makes(c, b, job, h)
                        && var g := HistoryOf(Last(b), job);
                           |g.did| == |h| && forall k :: 0 <= k < |h| ==> GotThrough(g, k) && g.due[k] == Some(h[k].started)
  {
    hide Behaviour, HistoryOf, StateAfter, NoticeAt, GotThrough, StillDue, FoundDueAt;
    EveryHistoryHappens(c, job, h);
    var b :| Behaviour(c, b) && Makes(c, b, job, h) && HistoryOf(Last(b), job).did == Notices(h);
    forall k | 0 <= k < |h|
      ensures GotThrough(HistoryOf(Last(b), job), k) && HistoryOf(Last(b), job).due[k] == Some(h[k].started)
    {
      UnwrittenTries(c, job, h, k);
      CountedIsGotThrough(HistoryOf(Last(b), job), k);
    }
  }

  lemma UnwrittenTries(c: Config, job: string, h: seq<Notifications.Run>, k: nat)
    requires k < |h| && !h[k].success && h[k].failure == [true] && forall i :: 0 <= i < k ==> !h[i].recorded
    ensures Counted(h, k) && FoundDueAt(c, job, h, k) == Some(h[k].started)
  {
    hide StateAfter, Tried;
    TriedNeeds(h, k);
    StateBefore(h, k);
    assert [true][..0] == [];
    assert Failures([true]) == 0;
  }

  /** One that cannot be read repeats a notification within moments. */
  lemma UnreadRepeats(c: Config, job: string)
    ensures exists b :: Behaviour(c, b) && Makes(c, b, job, UNREAD)
                        && var g := HistoryOf(Last(b), job); |g.did| == 2 && GotThrough(g, 0) && GotThrough(g, 1)
  {
    hide Behaviour, HistoryOf, NoticeAt, FoundDueAt, GotThrough, Counted;
    RepeatedWithinTheDay(UNREAD);
    EveryHistoryHappens(c, job, UNREAD);
    var b :| Behaviour(c, b) && Makes(c, b, job, UNREAD) && HistoryOf(Last(b), job).did == Notices(UNREAD);
    CountedIsGotThrough(HistoryOf(Last(b), job), 0);
    CountedIsGotThrough(HistoryOf(Last(b), job), 1);
  }

  /** And recovery is lost after a success that could not read the state, and
      goes out twice when the first success is not recorded. */
  lemma RecoveryGoesAstray(c: Config, job: string)
    ensures exists b :: Behaviour(c, b) && Makes(c, b, job, LOST)
                        && var g := HistoryOf(Last(b), job); |g.did| == 3 && forall k :: 0 <= k < 3 ==> g.did[k].recovery == None
    ensures exists b :: Behaviour(c, b) && Makes(c, b, job, AGAIN)
                        && var g := HistoryOf(Last(b), job); |g.did| == 3 && forall k :: 1 <= k < 3 ==> g.did[k].recovery == Some(0)
  {
    hide Behaviour, HistoryOf, NoticeAt, FoundDueAt;
    RecoveryLost();
    EveryHistoryHappens(c, job, LOST);
    var b :| Behaviour(c, b) && Makes(c, b, job, LOST) && HistoryOf(Last(b), job).did == Notices(LOST);
    RecoveryAgain();
    EveryHistoryHappens(c, job, AGAIN);
    var d :| Behaviour(c, d) && Makes(c, d, job, AGAIN) && HistoryOf(Last(d), job).did == Notices(AGAIN);
  }
}
