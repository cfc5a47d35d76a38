/** The code of one execution (cmd/rest-o-matic/exec.go, internal/lock/lock.go),
    acting on the world it shares with all others: whatever they do in between,
    it makes nothing but runs of the system that Protocol describes. */
module Execute {
  import opened Wrappers
  import opened Names
  import opened Schedule
  import opened StateFile
  import Notifications
  import opened Protocol
  import opened ProtocolLocks
  import opened ProtocolProgress
  import opened ProtocolState
  import opened ProtocolJobs
  import opened ProtocolEndings

  // ----- The shared world, as one process meets it -----

  datatype Attempt = Got | Held | Error

  /** Since then there was a moment at which the lock was held. */
  ghost predicate FoundHeld(run: seq<Sys>, since: nat, r: Resource) {
    exists k: nat :: since <= k + 1 && k < |run| && r in run[k].owner
  }

  ghost predicate FoundBusy(run: seq<Sys>, since: nat, job: string) {
    exists k: nat :: since <= k + 1 && k < |run| && (JobLock(job) in run[k].owner || job in run[k].probed)
  }

  lemma StillFound(run: seq<Sys>, longer: seq<Sys>, since: nat, r: Resource)
    requires run <= longer && FoundHeld(run, since, r)
    ensures FoundHeld(longer, since, r)
  {
    var k: nat :| since <= k + 1 && k < |run| && r in run[k].owner;
    assert longer[k] == run[k];
  }

  lemma FoundSince(run: seq<Sys>, longer: seq<Sys>, since: nat, earlier: nat, r: Resource)
    requires run <= longer && earlier <= since && FoundHeld(run, since, r)
    ensures FoundHeld(longer, earlier, r)
  {
    var k: nat :| since <= k + 1 && k < |run| && r in run[k].owner;
    assert longer[k] == run[k];
  }

  datatype Waited = Obtained | GaveUp | Broken | StillWaiting

  /** The lock files, the state file, the snapshot lists and the clock, in sys,
      with every process that uses them; me is the one whose code runs. run is
      all that has happened. progress is the jobs with a progress record. In a
      sound world no system call of this process fails. */
  class World {
    const c: Config
    const me: nat
    const sound: bool
    var sys: Sys
    var progress: set<string>
    ghost var run: seq<Sys>
    ghost var removals: nat          // attempts to take its job's progress record away

    ghost predicate Valid()
      reads this
    {
      && run != [] && Behaviour(c, run) && run[|run| - 1] == sys
      && me < |sys.procs| && sys.procs[me].group < |sys.groups|
    }

    function Self(): Proc
      requires Valid()
      reads this
    {
      sys.procs[me]
    }

    function Interrupted(): bool
      requires Valid()
      reads this
    {
      sys.groups[sys.procs[me].group].interrupted
    }

    constructor (c: Config, s: Sys, me: nat, sound: bool, ghost b: seq<Sys>)
      requires Behaviour(c, b) && b[|b| - 1] == s && me < |s.procs| && s.procs[me].group < |s.groups|
      ensures this.c == c && this.me == me && this.sound == sound && sys == s && run == b && Valid()
    {
      this.c, this.me, this.sound, sys, run, removals := c, me, sound, s, b, 0;
      progress := *;
    }

    /** One step of the system. */
    method Happens(l: Label)
      requires Valid() && Guard(c, sys, l)
      modifies this`sys, this`run
      ensures Behaviour(c, run) && run == old(run) + [sys]
      ensures (l.Do? ==> l.p < |old(sys.procs)|) && (l.Spawn? ==> l.g < |old(sys.groups)| && old(sys).groups[l.g].next < |old(sys).groups[l.g].due|)
      ensures l.Interrupt? || l.Kill? ==> l.g < |old(sys.groups)|
      ensures sys == Protocol.Next(old(sys), l)
    {
      hide Guard, Protocol.Next, Init;
      GuardInRange(c, sys, l);
      BehaviourNext(c, run, l);
      sys := Protocol.Next(sys, l);
      run := run + [sys];
    }

    /** Whether a system call works. */
    method Works() returns (ok: bool)
      ensures sound ==> ok
    {
      ok := *;
      ok := ok || sound;
    }

    /** Steps that are not this process's own, and do not kill it. */
    predicate OfOthers(l: Label)
      requires Valid()
      reads this
    {
      !(l.Do? && l.p == me) && !(l.Kill? && l.g == Self().group)
    }

    /** Anything all others do in the meantime, signals and the clock included.
        Nobody else touches the progress record of a job whose lock this holds. */
    method Others()
      requires Valid()
      modifies `sys, `run, `progress
      ensures Valid() && Self() == old(Self()) && (old(Interrupted()) ==> Interrupted())
      ensures old(run) <= run && (OwnsJob() ==> (JobName(Self()) in progress <==> JobName(Self()) in old(progress)))
    {
      hide Guard, Protocol.Next, Behaviour;
      var n: nat := *;
      while n > 0
        invariant Valid() && Self() == old(Self()) && (old(Interrupted()) ==> Interrupted()) && old(run) <= run
        invariant progress == old(progress)
      {
        var l: Label := *;
        if Guard(c, sys, l) && OfOthers(l) {
          OthersKeepSelf(c, sys, l, me);
          Happens(l);
        }
        n := n - 1;
      }
      var written: set<string> := *;
      if OwnsJob() {
        progress := (written - {JobName(Self())}) + (progress * {JobName(Self())});
      } else {
        progress := written;
      }
    }

    predicate OwnsJob()
      requires Valid()
      reads this
    {
      var r := JobLock(JobName(Self())); r in sys.owner && sys.owner[r] == me
    }

    /** A step of this process's program, as the world now is. */
    method Does(e: Event, q: Proc)
      requires Valid() && q.group == Self().group
      requires LocalStep(c, Interrupted(), Self(), e, q) && EventAllowed(sys, Self(), e)
      modifies this`sys, this`run
      ensures Valid() && Self() == q && Interrupted() == old(Interrupted())
      ensures run == old(run) + [sys] && sys == Protocol.Next(old(sys), Do(me, e, q))
    {
      hide LocalStep, EventAllowed, Protocol.Next;
      NextFile(sys, me, e, q);
      Happens(Do(me, e, q));
    }

    // ----- Locks -----

    /** tryFile: one attempt, which never waits. */
    method TryFile(r: Resource, taken: Proc) returns (a: Attempt)
      requires Valid() && taken.group == Self().group
      requires LocalStep(c, false, Self(), Took(r), taken) && LocalStep(c, true, Self(), Took(r), taken)
      modifies `sys, `run, `progress
      ensures Valid() && old(run) <= run && (old(Interrupted()) ==> Interrupted())
      ensures a == Got ==> Self() == taken && |run| >= 2 && r !in run[|run| - 2].owner && sys.owner == run[|run| - 2].owner[r := me]
      ensures a != Got ==> Self() == old(Self())
      ensures a == Held ==> r in sys.owner || (r.JobLock? && r.job in sys.probed)
      ensures a == Held && r in sys.owner ==> FoundHeld(run, old(|run|), r)
      ensures sound ==> a != Error
    {
      hide LocalStep, Behaviour;
      Others();
      var works := Works();
      if !works {
        return Error;
      }
      if r in sys.owner || (r.JobLock? && r.job in sys.probed) {
        assert run[|run| - 1] == sys;
        return Held;
      }
      NextOwner(sys, me, Took(r), taken);
      Does(Took(r), taken);
      return Got;
    }

    /** Whether the work has been cancelled. */
    method Err() returns (b: bool)
      requires Valid()
      modifies `sys, `run, `progress
      ensures Valid() && old(run) <= run && Self() == old(Self())
      ensures b == Interrupted() && (old(Interrupted()) ==> b)
    {
      hide Behaviour;
      Others();
      b := Interrupted();
    }

    /** wait, for one lock file: tries, and while it is held polls until it is
        got, an attempt fails, or the work is cancelled. It may still be waiting
        when we stop looking. */
    method WaitFile(r: Resource, taken: Proc) returns (w: Waited)
      requires Valid() && taken.group == Self().group
      requires LocalStep(c, false, Self(), Took(r), taken) && LocalStep(c, true, Self(), Took(r), taken)
      modifies `sys, `run, `progress
      ensures Valid() && old(run) <= run
      ensures w == Obtained ==> Self() == taken
      ensures w != Obtained ==> Self() == old(Self())
      ensures w == GaveUp ==> Interrupted()
      ensures (w == GaveUp || w == StillWaiting) && !r.JobLock? ==> FoundHeld(run, old(|run|), r)
      ensures sound ==> w != Broken
    {
      hide LocalStep, Valid, FoundHeld;
      var polls: nat := *;
      while true
        invariant Valid() && old(run) <= run && Self() == old(Self())
        decreases polls
      {
        ghost var from := |run|;
        var a := TryFile(r, taken);
        if a != Held {
          return if a == Got then Obtained else Broken;
        }
        ghost var found := run;
        var stop := Err();
        if !r.JobLock? {
          FoundSince(found, run, from, old(|run|), r);
        }
        if stop || polls == 0 {
          return if stop then GaveUp else StillWaiting;
        }
        polls := polls - 1;
      }
    }

    function WithSlot(slot: nat): Proc
      requires Valid()
      reads this
    {
      Self().(pc := GotSlot, slot := slot)
    }

    /** One attempt at every slot file in turn, the lowest first. */
    method AcquireSlot(maxConcurrent: int) returns (a: Attempt)
      requires Valid() && Self().kind.Work? && Self().pc == AwaitSlot && maxConcurrent == c.maxConcurrent
      modifies `sys, `run, `progress
      ensures Valid() && old(run) <= run && (old(Interrupted()) ==> Interrupted())
      ensures a == Got ==> Self().slot < Slots(c) && Self() == old(Self()).(pc := GotSlot, slot := Self().slot)
      ensures a == Got ==> forall i: nat :: i < Self().slot ==> FoundHeld(run, old(|run|), SlotLock(i))
      ensures a != Got ==> Self() == old(Self())
      ensures a == Held ==> forall i: nat :: i < Slots(c) ==> FoundHeld(run, old(|run|), SlotLock(i))
      ensures sound ==> a != Error
    {
      hide Behaviour, RunStep, ExecStep, UpdateStep, Repositories, EventAllowed;
      var n: nat := if maxConcurrent <= 0 then 1 else maxConcurrent;
      var slot: nat := 0;
      while slot < n
        invariant slot <= n && Valid() && old(run) <= run && Self() == old(Self()) && (old(Interrupted()) ==> Interrupted())
        invariant forall i: nat :: i < slot ==> FoundHeld(run, old(|run|), SlotLock(i))
      {
        ghost var before := run;
        a := TryFile(SlotLock(slot), WithSlot(slot));
        forall i: nat | i < slot
          ensures FoundHeld(run, old(|run|), SlotLock(i))
        {
          StillFound(before, run, old(|run|), SlotLock(i));
        }
        if a != Held {
          return;
        }
        assert SlotLock(slot) in run[|run| - 1].owner;
        slot := slot + 1;
      }
      return Held;
    }

    /** WaitSlot: polls until some slot is got. */
    method WaitSlot() returns (w: Waited)
      requires Valid() && Self().kind.Work? && Self().pc == AwaitSlot
      modifies `sys, `run, `progress
      ensures Valid() && old(run) <= run
      ensures w == Obtained ==> Self().slot < Slots(c) && Self() == old(Self()).(pc := GotSlot, slot := Self().slot)
      ensures w != Obtained ==> Self() == old(Self())
      ensures w == GaveUp ==> Interrupted()
      ensures w == GaveUp || w == StillWaiting ==> forall i: nat :: i < Slots(c) ==> FoundHeld(run, old(|run|), SlotLock(i))
      ensures sound ==> w != Broken
    {
      hide Valid, FoundHeld;
      var polls: nat := *;
      while true
        invariant Valid() && old(run) <= run && Self() == old(Self())
        decreases polls
      {
        ghost var from := |run|;
        var a := AcquireSlot(c.maxConcurrent);
        if a != Held {
          return if a == Got then Obtained else Broken;
        }
        ghost var found := run;
        var stop := Err();
        forall i: nat | i < Slots(c)
          ensures FoundHeld(run, old(|run|), SlotLock(i))
        {
          FoundSince(found, run, from, old(|run|), SlotLock(i));
        }
        if stop || polls == 0 {
          return if stop then GaveUp else StillWaiting;
        }
        polls := polls - 1;
      }
    }

    // ----- Files and the clock -----

    /** Store.Load: no lock is taken. */
    method Load() returns (st: Option<State>)
      requires Valid()
      modifies `sys, `run, `progress
      ensures Valid() && old(run) <= run && Self() == old(Self()) && (old(Interrupted()) ==> Interrupted())
      ensures st.Some? ==> st.value == sys.file
      ensures sound ==> st.Some?
    {
      hide Behaviour;
      Others();
      var readable := Works();
      st := if readable then Some(sys.file) else None;
    }

    method Now() returns (now: Time)
      requires Valid()
      modifies `sys, `run, `progress
      ensures Valid() && old(run) <= run && Self() == old(Self()) && now == sys.clock
      ensures OwnsJob() ==> (JobName(Self()) in progress <==> JobName(Self()) in old(progress))
    {
      hide Behaviour;
      Others();
      now := sys.clock;
    }
  }

  lemma OthersKeepSelf(c: Config, s: Sys, l: Label, me: nat)
    requires Guard(c, s, l) && me < |s.procs| && s.procs[me].group < |s.groups|
    requires !(l.Do? && l.p == me) && !(l.Kill? && l.g == s.procs[me].group)
    ensures (l.Do? ==> l.p < |s.procs|) && (l.Interrupt? || l.Kill? ==> l.g < |s.groups|)
    ensures l.Spawn? ==> l.g < |s.groups| && s.groups[l.g].next < |s.groups[l.g].due|
    ensures var t := Protocol.Next(s, l);
            && me < |t.procs| && t.procs[me] == s.procs[me] && |s.groups| <= |t.groups|
            && (s.groups[s.procs[me].group].interrupted ==> t.groups[s.procs[me].group].interrupted)
  {
    hide LocalStep, EventAllowed, Active;
  }

  // ----- Store.update -----

  lemma SameChange(pr: Proc, q: Proc, phase: Phase)
    requires q == pr.(pc := q.pc)
    ensures ChangeOf(q, phase) == ChangeOf(pr, phase)
  {
  }

  /** pr after an update that worked, or did not. */
  function Updated(pr: Proc, phase: Phase, ok: bool): Proc {
    if ok then pr.(oks := pr.oks + {phase}) else pr.(bad := pr.bad + {phase})
  }

  /** The update returns an error, and goes on to let go of the state lock. */
  method FailUpdate(w: World, phase: Phase)
    requires w.Valid() && w.Self().pc.Update? && w.Self().pc.phase == phase
    requires w.Self().pc.io.Load? || w.Self().pc.io.Write? || w.Self().pc.io.Rename?
    modifies w`sys, w`run, w`progress
    ensures w.Valid() && old(w.run) <= w.run
    ensures w.Self() == Updated(old(w.Self()), phase, false).(pc := Update(phase, Unlock))
  {
    hide World.Valid, Apply, ChangeOf, AcquireStep, RunStep, ExecStep, Repositories;
    w.Does(IoError, Updated(w.Self(), phase, false).(pc := Update(phase, Unlock)));
  }

  /** os.Rename over the state file. */
  method RenameState(w: World, phase: Phase, ch: Change, next: State)
    requires w.Valid() && w.Self().pc == Update(phase, Rename(next)) && ch == ChangeOf(w.Self(), phase)
    modifies w`sys, w`run, w`progress
    ensures w.Valid() && old(w.run) <= w.run && w.sys.file == next
    ensures w.Self() == Updated(old(w.Self()), phase, true).(pc := Update(phase, Unlock))
  {
    hide World.Valid, Apply, ChangeOf, AcquireStep, RunStep, ExecStep, Repositories, EntryFor;
    w.Does(Puts(next, phase, ch), Updated(w.Self(), phase, true).(pc := Update(phase, Unlock)));
  }

  /** writeAtomic: temp file, then rename. */
  method WriteState(w: World, phase: Phase, ch: Change, next: State) returns (ok: bool)
    requires w.Valid() && w.Self().pc == Update(phase, Write(next)) && ch == ChangeOf(w.Self(), phase)
    modifies w`sys, w`run, w`progress
    ensures w.Valid() && old(w.run) <= w.run
    ensures w.Self() == Updated(old(w.Self()), phase, ok).(pc := Update(phase, Unlock))
    ensures ok ==> w.sys.file == next
    ensures w.sound ==> ok
  {
    hide World.Valid, Apply, ChangeOf, AcquireStep, RunStep, ExecStep, Repositories;
    ghost var pr := w.Self();
    w.Others();
    var writes := w.Works();
    var renames := w.Works();
    if !writes {
      FailUpdate(w, phase);
      return false;
    }
    w.Does(Tau, w.Self().(pc := Update(phase, Rename(next))));
    w.Others();
    if !renames {
      FailUpdate(w, phase);
      return false;
    }
    SameChange(pr, w.Self(), phase);
    RenameState(w, phase, ch, next);
    return true;
  }

  /** The part of Store.update done under the state lock. */
  method LoadAndWrite(w: World, phase: Phase, ch: Change) returns (ok: bool)
    requires w.Valid() && w.Self().pc == Update(phase, Load) && ch == ChangeOf(w.Self(), phase)
    modifies w`sys, w`run, w`progress
    ensures w.Valid() && old(w.run) <= w.run
    ensures w.Self() == Updated(old(w.Self()), phase, ok).(pc := Update(phase, Unlock))
    ensures w.sound ==> ok
  {
    hide World.Valid, Apply, ChangeOf, AcquireStep, RunStep, ExecStep, Repositories, EntryFor;
    ghost var pr := w.Self();
    var st := w.Load();
    if st.None? {
      FailUpdate(w, phase);
      return false;
    }
    var next := Apply(ch, st.value);
    if next.None? {
      w.Does(Keeps(st.value, phase, ch), Updated(w.Self(), phase, true).(pc := Update(phase, Unlock)));
      return true;
    }
    w.Does(Sees(st.value), w.Self().(pc := Update(phase, Write(next.value))));
    SameChange(pr, w.Self(), phase);
    ok := WriteState(w, phase, ch, next.value);
  }

  /** AcquireState: tries for a while. */
  method AcquireState(w: World, phase: Phase) returns (ok: bool)
    requires w.Valid() && w.Self().pc == Update(phase, Want)
    modifies w`sys, w`run, w`progress
    ensures w.Valid() && old(w.run) <= w.run
    ensures w.Self() == if ok then old(w.Self()).(pc := Update(phase, Load)) else old(w.Self())
    ensures w.sound && !ok ==> FoundHeld(w.run, old(|w.run|), StateLock)
  {
    hide World.Valid, AcquireStep, RunStep, ExecStep, Repositories, ChangeOf, FoundHeld;
    var tries: nat := *;
    while true
      invariant w.Valid() && old(w.run) <= w.run && w.Self() == old(w.Self())
      decreases tries
    {
      ghost var from := |w.run|;
      var a := w.TryFile(StateLock, w.Self().(pc := Update(phase, Load)));
      if a != Held {
        return a == Got;
      }
      FoundSince(w.run, w.run, from, old(|w.run|), StateLock);
      if tries == 0 {
        return false;
      }
      tries := tries - 1;
    }
  }

  /** Store.update on the shared file. It reports success exactly when the
      update is in the log, once. */
  method UpdateState(w: World, phase: Phase, ch: Change) returns (ok: bool)
    requires w.Valid() && w.Self().pc == Update(phase, Want) && ch == ChangeOf(w.Self(), phase)
    modifies w`sys, w`run, w`progress
    ensures w.Valid() && old(w.run) <= w.run
    ensures w.Self() == AfterUpdate(Updated(old(w.Self()), phase, ok), phase)
    ensures Times(w.sys.log, w.me, phase) == if ok then 1 else 0
    ensures w.sound && !ok ==> FoundHeld(w.run, old(|w.run|), StateLock)
  {
    hide World.Valid, Apply, ChangeOf, AcquireStep, RunStep, ExecStep, Repositories, AfterUpdate, Times, FoundHeld;
    ghost var pr := w.Self();
    ok := AcquireState(w, phase);
    ghost var found := w.run;
    AttemptedPhase(pr, phase, false);
    AttemptedPhase(pr, phase, true);
    if !ok {
      w.Does(IoError, AfterUpdate(Updated(w.Self(), phase, false), phase));
    } else {
      SameChange(pr, w.Self(), phase);
      ok := LoadAndWrite(w, phase, ch);
      w.Others();
      SameAfter(Updated(pr, phase, ok), w.Self(), phase);
      w.Does(Freed(StateLock), AfterUpdate(w.Self(), phase));
    }
    LoggedOnce(w, phase, ok);
    if w.sound && !ok {
      StillFound(found, w.run, old(|w.run|), StateLock);
    }
  }

  lemma SameAfter(pr: Proc, q: Proc, phase: Phase)
    requires q == pr.(pc := q.pc)
    ensures AfterUpdate(q, phase) == AfterUpdate(pr, phase)
  {
  }

  lemma AttemptedPhase(pr: Proc, phase: Phase, ok: bool)
    ensures var q := AfterUpdate(Updated(pr, phase, ok), phase);
            q.group == pr.group && q.kind == pr.kind && if ok then phase in q.oks else phase in q.bad
  {
  }

  lemma LoggedOnce(w: World, phase: Phase, ok: bool)
    requires w.Valid() && if ok then phase in w.Self().oks else phase in w.Self().bad
    ensures Times(w.sys.log, w.me, phase) == if ok then 1 else 0
  {
    hide Times, Step, LockInv, InFlight;
    StateAlways(w.c, w.run, |w.run| - 1);
    assert InOrder(w.sys.procs[w.me]);
  }

  // ----- executeWithSlot -----

  /** The first n locks of an execution, in the order they are taken. */
  function Taken(c: Config, kind: Kind, slot: nat, n: nat): seq<Resource> {
    seq(n, i requires 0 <= i => LockAt(c, kind, slot, i))
  }

  lemma TakenNext(c: Config, kind: Kind, slot: nat, n: nat)
    ensures |Taken(c, kind, slot, n)| == n && Taken(c, kind, slot, 0) == []
    ensures Taken(c, kind, slot, n + 1) == Taken(c, kind, slot, n) + [LockAt(c, kind, slot, n)]
  {
    hide LockAt;
  }

  lemma SlotDoesNotMatter(c: Config, kind: Kind, slot: nat, other: nat, n: nat)
    requires kind.Work? && n <= |Repositories(c, kind.job)| + 1
    ensures Taken(c, kind, slot, n) == Taken(c, kind, other, n)
  {
  }

  /** The deferred releases: last taken, first released. */
  method ReleaseAll(w: World, held: seq<Resource>, ending: Ending)
    requires w.Valid() && w.Self().pc == Unwind(|held|, ending)
    requires held == Taken(w.c, w.Self().kind, w.Self().slot, |held|)
    modifies w`sys, w`run, w`progress
    ensures w.Valid() && old(w.run) <= w.run && w.Self() == old(w.Self()).(pc := Ended(ending))
  {
    hide World.Valid, AcquireStep, RunStep, ExecStep, UpdateStep, Repositories, EventAllowed;
    var n := |held|;
    while n > 0
      invariant 0 <= n <= |held| && w.Valid() && old(w.run) <= w.run
      invariant w.Self() == old(w.Self()).(pc := Unwind(n, ending))
      invariant held == Taken(w.c, w.Self().kind, w.Self().slot, |held|)
    {
      w.Others();
      Release(w, held[n - 1], n, ending);
      n := n - 1;
    }
    w.Others();
    EndsQuietly(w, ending);
  }

  method Release(w: World, r: Resource, n: nat, ending: Ending)
    requires w.Valid() && n > 0 && w.Self().pc == Unwind(n, ending)
    requires r == LockAt(w.c, w.Self().kind, w.Self().slot, n - 1)
    modifies w`sys, w`run, w`progress
    ensures w.Valid() && old(w.run) <= w.run && w.Self() == old(w.Self()).(pc := Unwind(n - 1, ending))
  {
    hide World.Valid, AcquireStep, RunStep, ExecStep, UpdateStep, Repositories;
    w.Does(Freed(r), w.Self().(pc := Unwind(n - 1, ending)));
  }

  method EndsQuietly(w: World, ending: Ending)
    requires w.Valid() && w.Self().pc == Unwind(0, ending)
    modifies w`sys, w`run, w`progress
    ensures w.Valid() && old(w.run) <= w.run && w.Self() == old(w.Self()).(pc := Ended(ending))
  {
    hide World.Valid, AcquireStep, RunStep, ExecStep, UpdateStep, Repositories;
    w.Does(Tau, w.Self().(pc := Ended(ending)));
  }

  /** What the tick's closure stillDue decides, once the job lock is held. */
  method CheckStillDue(w: World, job: string) returns (due: bool)
    requires w.Valid() && w.Self().kind == Work(job, Tick) && w.Self().pc == CheckDue
    modifies w`sys, w`run, w`progress
    ensures w.Valid() && old(w.run) <= w.run && w.Self().kind == Work(job, Tick) && w.Self().slot == old(w.Self().slot)
    ensures w.Self().pc == if due then Repos(0) else Unwind(1, NotDue)
    ensures w.sound && due ==> w.Self().dueAt.Some?
  {
    hide World.Valid, RunStep, ExecStep, UpdateStep, Repositories, StillDue;
    var st := w.Load();
    if st.None? {
      w.Does(IoError, w.Self().(pc := Repos(0)));
      return true;
    }
    var lastRun := JobOf(st.value, job).lastRun;
    w.Does(Sees(st.value), w.Self().(pc := CheckNow(lastRun)));
    var now := w.Now();
    due := StillDue(w.c, job, lastRun, now);
    w.Does(Clock(now), if due then w.Self().(pc := Repos(0), dueAt := Some(now)) else Leave(w.c, w.Self(), NotDue));
  }

  /** setupFailed: what becomes of an execution that could not get a lock. */
  method SetupFails(w: World, gaveUp: bool) returns (ending: Ending)
    requires w.Valid() && w.Self().kind.Work? && (gaveUp ==> w.Interrupted()) && (w.sound ==> gaveUp)
    requires (w.Self().pc == Start && !gaveUp) || (w.Self().pc.Repos? && w.Self().pc.k < |Repositories(w.c, w.Self().kind.job)|) || w.Self().pc == AwaitSlot
    modifies w`sys, w`run, w`progress
    ensures w.Valid() && old(w.run) <= w.run
    ensures w.Self() == old(w.Self()).(pc := Unwind(Count(w.c, old(w.Self())), ending))
    ensures ending == NotStarted || ending == Ending.SetupFailed
    ensures old(w.Interrupted()) || w.sound ==> ending == NotStarted
  {
    hide World.Valid, RunStep, ExecStep, UpdateStep, Repositories;
    var stop := w.Err();
    ending := if stop then NotStarted else Ending.SetupFailed;
    w.Does(if gaveUp then Tau else LockError, Leave(w.c, w.Self(), ending));
  }

  datatype Gate = GoOn | Ends(ending: Ending) | Waiting

  /** One repository of the job: waits for it, or gives up. */
  method WaitRepository(w: World, job: string, k: nat, name: string) returns (p: Gate)
    requires w.Valid() && w.Self().kind.Work? && w.Self().kind.job == job && w.Self().pc == Repos(k)
    requires k < |Repositories(w.c, job)| && name == Repositories(w.c, job)[k]
    modifies w`sys, w`run, w`progress
    ensures w.Valid() && old(w.run) <= w.run
    ensures w.Self() == old(w.Self()).(pc :=
              match p case GoOn => Repos(k + 1) case Ends(ending) => Unwind(k + 1, ending) case Waiting => Repos(k))
    ensures p != Ends(AlreadyRunning) && p != Ends(Ran) && (w.sound && p.Ends? ==> p.ending == NotStarted)
    ensures p == Waiting ==> FoundHeld(w.run, old(|w.run|), RepoLock(name))
  {
    hide World.Valid, RunStep, ExecStep, UpdateStep, Repositories, FoundHeld;
    var a := w.WaitFile(RepoLock(name), w.Self().(pc := Repos(k + 1)));
    match a
    case Obtained => p := GoOn;
    case StillWaiting => p := Waiting;
    case _ =>
      var ending := SetupFails(w, a == GaveUp);
      p := Ends(ending);
  }

  /** The repository lock it waits for was found held. */
  ghost predicate WaitsForHeld(w: World, since: nat)
    requires w.Valid()
    reads w
  {
    WaitsForRepo(w.c, w.Self()) && FoundHeld(w.run, since, RepoLock(Repositories(w.c, w.Self().kind.job)[w.Self().pc.k]))
  }

  /** Or all the slots were. */
  ghost predicate HeldUp(w: World, since: nat)
    requires w.Valid()
    reads w
  {
    || WaitsForHeld(w, since)
    || (w.Self().pc == AwaitSlot && forall i: nat :: i < Slots(w.c) ==> FoundHeld(w.run, since, SlotLock(i)))
  }

  /** Its run is recorded, unless the state lock was found held. */
  ghost predicate Noted(w: World, since: nat)
    requires w.Valid()
    reads w
  {
    w.Self().prior.Some? && (Recording in w.Self().oks || FoundHeld(w.run, since, StateLock))
  }

  lemma HeldUpAt(w: World, since: nat)
    requires w.Valid() && WaitsForHeld(w, since)
    ensures HeldUp(w, since) && Waits(w.c, w.Self())
  {
  }

  /** What was found since then was found since before. */
  lemma FoundBefore(w: World, found: seq<Sys>, since: nat, earlier: nat)
    requires w.Valid() && earlier <= since && found <= w.run
    ensures FoundHeld(found, since, StateLock) ==> FoundHeld(w.run, earlier, StateLock)
    ensures HeldUp(w, since) ==> HeldUp(w, earlier)
  {
    hide Behaviour, FoundHeld, Repositories;
    if FoundHeld(found, since, StateLock) {
      FoundSince(found, w.run, since, earlier, StateLock);
    }
    if WaitsForHeld(w, since) {
      FoundSince(w.run, w.run, since, earlier, RepoLock(Repositories(w.c, w.Self().kind.job)[w.Self().pc.k]));
    }
    forall i: nat | FoundHeld(w.run, since, SlotLock(i))
      ensures FoundHeld(w.run, earlier, SlotLock(i))
    {
      FoundSince(w.run, w.run, since, earlier, SlotLock(i));
    }
  }

  /** Waits for every repository in turn. */
  method WaitRepositories(w: World, job: string, first: seq<Resource>) returns (p: Gate, held: seq<Resource>)
    requires w.Valid() && w.Self().kind.Work? && w.Self().kind.job == job && w.Self().pc == Repos(0)
    requires first == Taken(w.c, w.Self().kind, w.Self().slot, 1)
    modifies w`sys, w`run, w`progress
    ensures w.Valid() && old(w.run) <= w.run
    ensures w.Self() == old(w.Self()).(pc := w.Self().pc) && held == Taken(w.c, w.Self().kind, w.Self().slot, |held|)
    ensures p != Ends(AlreadyRunning) && p != Ends(Ran) && (w.sound && p.Ends? ==> p.ending == NotStarted)
    ensures p == Waiting ==> WaitsForHeld(w, old(|w.run|))
    ensures p == GoOn ==> w.Self().pc == AwaitSlot && |held| == |Repositories(w.c, job)| + 1
    ensures p.Ends? ==> w.Self().pc == Unwind(|held|, p.ending)
  {
    hide World.Valid, RunStep, ExecStep, UpdateStep, RepositoryNames, Taken, FoundHeld;
    TakenNext(w.c, w.Self().kind, w.Self().slot, 1);
    var names := CollectRepositoryNames(JobConfig(w.c, job).repositories);
    held := first;
    var k := 0;
    while k < |names|
      invariant k <= |names| && w.Valid() && old(w.run) <= w.run && w.Self() == old(w.Self()).(pc := Repos(k))
      invariant |held| == k + 1 && held == Taken(w.c, w.Self().kind, w.Self().slot, k + 1)
    {
      ghost var from := |w.run|;
      p := WaitRepository(w, job, k, names[k]);
      if p == Waiting {
        FoundSince(w.run, w.run, from, old(|w.run|), RepoLock(names[k]));
      }
      if p != GoOn {
        return;
      }
      TakenNext(w.c, w.Self().kind, w.Self().slot, k + 1);
      held := held + [RepoLock(names[k])];
      k := k + 1;
    }
    w.Others();
    w.Does(Tau, w.Self().(pc := AwaitSlot));
    p := GoOn;
  }

  // ----- executeAndRecord -----

  /** RemoveProgress: taking the record away, if that works. */
  method RemoveProgress(w: World, job: string) returns (ok: bool)
    requires w.Valid()
    modifies w`progress, w`removals
    ensures w.sound ==> ok
    ensures w.progress == (if ok then old(w.progress) - {job} else old(w.progress)) && w.removals == old(w.removals) + 1
    ensures w.Valid() && w.Self() == old(w.Self()) && w.Interrupted() == old(w.Interrupted())
  {
    hide Behaviour;
    ok := w.Works();
    w.removals := w.removals + 1;
    if ok {
      w.progress := w.progress - {job};
    }
  }

  /** What the recorder may do while RunJob runs. */
  method ReportProgress(w: World, job: string)
    requires w.Valid()
    modifies w`progress
    ensures w.Valid() && w.Self() == old(w.Self()) && w.Interrupted() == old(w.Interrupted())
  {
    hide Behaviour;
    var saved := *;
    if saved {
      w.progress := w.progress + {job};
    }
  }

  /** What the job's last run left behind. */
  method ReadPrior(w: World, job: string) returns (prior: Notifications.Prior, told: bool)
    requires w.Valid() && w.Self().kind.Work? && w.Self().kind.job == job && w.Self().pc == LoadPrior
    modifies w`sys, w`run, w`progress
    ensures w.Valid() && old(w.run) <= w.run
    ensures w.Self() == old(w.Self()).(pc := Stamp, prior := w.Self().prior)
    ensures prior == PriorFrom(w.Self().prior) && told == w.Self().prior.Some? && (w.sound ==> told)
  {
    hide World.Valid, AcquireStep, ExecStep, UpdateStep, Repositories;
    var st := w.Load();
    told := st.Some?;
    if told {
      var core := CoreOf(st.value, job);
      prior := Notifications.PriorOfCore(core);
      w.Does(Sees(st.value), w.Self().(pc := Stamp, prior := Some(core)));
    } else {
      prior := Notifications.UNTOLD;
      w.Does(IoError, w.Self().(pc := Stamp, prior := None));
    }
  }

  /** Up to RunJob: what the last run left behind, and the running marker. */
  method BeginRun(w: World, job: string, trigger: Trigger) returns (prior: Notifications.Prior, told: bool, started: Time)
    requires w.Valid() && w.Self().kind == Work(job, trigger) && w.Self().pc == LoadPrior
    modifies w`sys, w`run, w`progress
    ensures w.Valid() && old(w.run) <= w.run && w.Self().kind == Work(job, trigger) && w.Self().slot == old(w.Self().slot)
    ensures w.Self().pc == Pc.Running && w.Self().started == started
    ensures prior == PriorFrom(w.Self().prior) && told == w.Self().prior.Some? && (w.sound ==> told)
  {
    hide World.Valid, AcquireStep, ExecStep, UpdateStep, Repositories, PriorFrom;
    prior, told := ReadPrior(w, job);
    started := w.Now();
    w.Does(Clock(started), w.Self().(pc := Update(Marking, Want), started := started));
    var marked := UpdateState(w, Marking, MarkRunning(job, started, trigger));
  }

  /** RunJob, with any results, and recording it. The recorder may write the
      job's progress meanwhile. */
  method FinishRun(w: World, job: string, trigger: Trigger, prior: Notifications.Prior, told: bool, started: Time)
    returns (finished: Time, saves: seq<string>)
    requires w.Valid() && w.Self().kind == Work(job, trigger) && w.Self().pc == Pc.Running
    requires w.Self().started == started && prior == PriorFrom(w.Self().prior) && told == w.Self().prior.Some?
    modifies w`sys, w`run, w`progress
    ensures w.Valid() && old(w.run) <= w.run && w.Self().kind == Work(job, trigger) && w.Self().slot == old(w.Self().slot)
    ensures w.Self().pc == Snapshots(saves)
    ensures w.Self().prior == old(w.Self()).prior
    ensures w.sound ==> Recording in w.Self().oks || FoundHeld(w.run, old(|w.run|), StateLock)
  {
    hide World.Valid, AcquireStep, ExecStep, UpdateStep, Repositories;
    ReportProgress(w, job);
    var run, failing;
    finished, saves, run, failing := RunJobStep(w, job, trigger, prior, told, started);
    ghost var from := |w.run|;
    var recorded := UpdateState(w, Recording, RecordRun(job, run, failing));
    if w.sound && !recorded {
      FoundSince(w.run, w.run, from, old(|w.run|), StateLock);
    }
  }

  /** RunJob as one step: any results, any clock in between, and what notify
      makes of them. */
  method RunJobStep(w: World, job: string, trigger: Trigger, prior: Notifications.Prior, told: bool, started: Time)
    returns (finished: Time, saves: seq<string>, run: RunRecord, failing: Failing)
    requires w.Valid() && w.Self().kind == Work(job, trigger) && w.Self().pc == Pc.Running
    requires w.Self().started == started && prior == PriorFrom(w.Self().prior) && told == w.Self().prior.Some?
    modifies w`sys, w`run, w`progress
    ensures w.Valid() && old(w.run) <= w.run && w.Self().kind == Work(job, trigger) && w.Self().slot == old(w.Self().slot)
    ensures w.Self().pc == Update(Recording, Want) && w.Self().saves == saves
    ensures w.Self().run == run && w.Self().failing == failing
    ensures w.Self().prior == old(w.Self()).prior
  {
    hide World.Valid, AcquireStep, ExecStep, UpdateStep, Repositories, PriorFrom, Notifications.Decide;
    var seen: Notifications.Run := *;
    finished := w.Now();
    seen := seen.(finished := finished, told := told, recorded := false);
    if !(started <= seen.started <= seen.asked <= seen.sent <= finished) {
      seen := seen.(started := started, asked := started, sent := started);
    }
    var notice := Notifications.Notify(prior, seen);
    saves := *;
    if |saves| > |JobConfig(w.c, job).repositories| {
      saves := [];
    }
    var error: string := *;
    var results: seq<RepoResult> := *;
    run := RunRecord(started, finished, if seen.success then Success else Failed, trigger, error, results);
    failing := notice.failing;
    w.Does(Clock(finished),
           w.Self().(pc := Update(Recording, Want), run := run, failing := failing, notice := seen, saves := saves));
  }

  /** LoadSnapshots. */
  method ReadLists(w: World, job: string, left: seq<string>) returns (read: bool, lists: map<string, SnapshotList>)
    requires left != [] && w.Valid() && w.Self().kind.Work? && w.Self().kind.job == job && w.Self().pc == Snapshots(left)
    modifies w`sys, w`run, w`progress
    ensures w.Valid() && old(w.run) <= w.run && w.Self() == old(w.Self()).(pc := SaveSnapshots(left, read, lists))
    ensures w.sound ==> read
  {
    hide World.Valid, AcquireStep, ExecStep, UpdateStep, Repositories, ListsOf;
    w.Others();
    read := w.Works();
    if read {
      lists := ListsOf(w.sys, job);
      w.Does(SeesLists(lists), w.Self().(pc := SaveSnapshots(left, true, lists)));
    } else {
      lists := map[];
      w.Does(IoError, w.Self().(pc := SaveSnapshots(left, false, map[])));
    }
  }

  /** SaveSnapshots for the first of the repositories left. */
  method SaveList(w: World, job: string, left: seq<string>, list: SnapshotList) returns (read: bool, written: bool)
    requires left != [] && w.Valid() && w.Self().kind.Work? && w.Self().kind.job == job && w.Self().pc == Snapshots(left)
    modifies w`sys, w`run, w`progress
    ensures w.Valid() && old(w.run) <= w.run && w.Self() == old(w.Self()).(pc := Snapshots(left[1..]))
    ensures written ==>
              |w.run| >= 2 &&
              ListsOf(w.sys, job) == (if read then ListsOf(w.run[|w.run| - 2], job) else map[])[left[0] := list]
    ensures w.sound ==> read && written
  {
    hide World.Valid, AcquireStep, ExecStep, UpdateStep, Repositories, ListsOf;
    var lists;
    read, lists := ReadLists(w, job, left);
    w.Others();
    written := w.Works();
    if written {
      var all := lists[left[0] := list];
      assert all[left[0]] == list && all == lists[left[0] := all[left[0]]];
      PutLists(w, job, left, read, lists, all);
    } else {
      w.Does(IoError, w.Self().(pc := Snapshots(left[1..])));
    }
  }

  /** The rename over the job's snapshot lists. What it replaces is what was
      read, since nobody else has written them. */
  method PutLists(w: World, job: string, left: seq<string>, read: bool, lists: map<string, SnapshotList>, all: map<string, SnapshotList>)
    requires left != [] && w.Valid() && w.Self().kind.Work? && w.Self().kind.job == job
    requires w.Self().pc == SaveSnapshots(left, read, lists) && left[0] in all && all == lists[left[0] := all[left[0]]]
    modifies w`sys, w`run, w`progress
    ensures w.Valid() && old(w.run) <= w.run && w.Self() == old(w.Self()).(pc := Snapshots(left[1..]))
    ensures |w.run| >= 2
    ensures ListsOf(w.sys, job) == (if read then ListsOf(w.run[|w.run| - 2], job) else map[])[left[0] := all[left[0]]]
  {
    hide Behaviour, AcquireStep, ExecStep, UpdateStep, Repositories, ListsOf, Protocol.Next;
    var q := w.Self().(pc := Snapshots(left[1..]));
    ghost var before := w.run;
    assert Guard(w.c, before[|before| - 1], Do(w.me, PutsLists(all), q));
    SavingListsLosesNothing(w.c, before, |before| - 1, w.me, PutsLists(all), q);
    w.Does(PutsLists(all), q);
  }

  /** The snapshot lists of the run, one repository after another. */
  method SaveLists(w: World, job: string, saves: seq<string>, finished: Time)
    requires w.Valid() && w.Self().kind.Work? && w.Self().kind.job == job && w.Self().pc == Snapshots(saves)
    modifies w`sys, w`run, w`progress
    ensures w.Valid() && old(w.run) <= w.run && w.Self() == old(w.Self()).(pc := Snapshots([]))
  {
    hide World.Valid, AcquireStep, ExecStep, UpdateStep, Repositories;
    var i := 0;
    assert saves[0..] == saves;
    while i < |saves|
      invariant 0 <= i <= |saves| && w.Valid() && old(w.run) <= w.run
      invariant w.Self() == old(w.Self()).(pc := Snapshots(saves[i..]))
    {
      var names: seq<string> := *;
      var read, written := SaveList(w, job, saves[i..], SnapshotList(finished, names));
      assert saves[i..][1..] == saves[i + 1..];
      i := i + 1;
    }
    assert saves[|saves|..] == [];
  }

  /** executeAndRecord; removed is whether the progress record could be taken
      away, which is tried however the run ends. */
  method ExecuteAndRecord(w: World, job: string, trigger: Trigger) returns (removed: bool)
    requires w.Valid() && w.Self().kind == Work(job, trigger) && w.Self().pc == LoadPrior
    modifies w`sys, w`run, w`progress, w`removals
    ensures w.Valid() && old(w.run) <= w.run && w.Self().kind == Work(job, trigger) && w.Self().slot == old(w.Self().slot)
    ensures w.Self().pc == Unwind(|Repositories(w.c, job)| + 2, Ran)
    ensures removed ==> job !in w.progress
    ensures w.removals == old(w.removals) + 1
    ensures w.sound ==> removed && Noted(w, old(|w.run|))
  {
    hide World.Valid, AcquireStep, ExecStep, UpdateStep, Repositories, FoundHeld;
    var prior, told, started := BeginRun(w, job, trigger);
    ghost var from := |w.run|;
    var finished, saves := FinishRun(w, job, trigger, prior, told, started);
    ghost var found := w.run;
    SaveLists(w, job, saves, finished);
    w.Others();
    removed := RemoveProgress(w, job);
    w.Does(Tau, Leave(w.c, w.Self(), Ran));
    if w.sound && Recording !in w.Self().oks {
      FoundSince(found, w.run, from, old(|w.run|), StateLock);
    }
  }

  /** The wait for a slot, the last check for an interrupt, and the run. */
  method TakeSlotAndRun(w: World, job: string, trigger: Trigger, first: seq<Resource>) returns (p: Gate, held: seq<Resource>)
    requires w.Valid() && w.Self().kind == Work(job, trigger) && w.Self().pc == AwaitSlot
    requires |first| == |Repositories(w.c, job)| + 1 && first == Taken(w.c, w.Self().kind, w.Self().slot, |first|)
    modifies w`sys, w`run, w`progress, w`removals
    ensures w.Valid() && old(w.run) <= w.run && w.Self().kind == Work(job, trigger)
    ensures p != GoOn && p != Ends(AlreadyRunning) && held == Taken(w.c, w.Self().kind, w.Self().slot, |held|)
    ensures p.Ends? ==> w.Self().pc == Unwind(|held|, p.ending)
    ensures p == Waiting ==> w.Self().pc == AwaitSlot
    ensures w.removals == old(w.removals) + if p == Ends(Ran) then 1 else 0
    ensures p == Waiting ==> HeldUp(w, old(|w.run|))
    ensures w.sound && p.Ends? ==> p == Ends(NotStarted) || (p == Ends(Ran) && Noted(w, old(|w.run|)))
  {
    hide World.Valid, RunStep, ExecStep, UpdateStep, Repositories, Taken, FoundHeld;
    held := first;
    ghost var slot := w.Self().slot;
    var a := w.WaitSlot();
    match a
    case StillWaiting => return Waiting, held;
    case Obtained =>
      SlotDoesNotMatter(w.c, w.Self().kind, slot, w.Self().slot, |held|);
      TakenNext(w.c, w.Self().kind, w.Self().slot, |held|);
      held := held + [SlotLock(w.Self().slot)];
      ghost var from := |w.run|;
      p := StopOrRun(w, job, trigger);
      FoundBefore(w, w.run, from, old(|w.run|));
    case _ =>
      var ending := SetupFails(w, a == GaveUp);
      p := Ends(ending);
  }

  /** With everything held: the last look for an interrupt, and the run. */
  method StopOrRun(w: World, job: string, trigger: Trigger) returns (p: Gate)
    requires w.Valid() && w.Self().kind == Work(job, trigger) && w.Self().pc == GotSlot
    modifies w`sys, w`run, w`progress, w`removals
    ensures w.Valid() && old(w.run) <= w.run && w.Self().kind == Work(job, trigger) && w.Self().slot == old(w.Self().slot)
    ensures p.Ends? && p.ending != AlreadyRunning && w.Self().pc == Unwind(|Repositories(w.c, job)| + 2, p.ending)
    ensures w.removals == old(w.removals) + if p == Ends(Ran) then 1 else 0
    ensures old(w.Interrupted()) ==> p == Ends(NotStarted)
    ensures p == Ends(Ran) || p == Ends(NotStarted)
    ensures w.sound && p == Ends(Ran) ==> Noted(w, old(|w.run|))
  {
    hide World.Valid, RunStep, ExecStep, UpdateStep, Repositories, FoundHeld;
    var stop := w.Err();
    if stop {
      w.Does(Tau, Leave(w.c, w.Self(), NotStarted));
      p := Ends(NotStarted);
    } else {
      w.Does(Tau, w.Self().(pc := LoadPrior));
      ghost var from := |w.run|;
      var removed := ExecuteAndRecord(w, job, trigger);
      FoundBefore(w, w.run, from, old(|w.run|));
      p := Ends(Ran);
    }
  }

  // ----- executeWithSlot -----

  /** AcquireJob: tries for a moment, since `status` may be looking, and then
      takes it that the job is running. */
  method AcquireJob(w: World, job: string) returns (p: Gate)
    requires w.Valid() && w.Self().kind.Work? && w.Self().kind.job == job && w.Self().pc == Start
    modifies w`sys, w`run, w`progress
    ensures w.Valid() && old(w.run) <= w.run
    ensures p != Waiting && p != Ends(Ran) && p != Ends(NotDue) && w.Self() == old(w.Self()).(pc := if p == GoOn then Update(Clearing, Want) else Unwind(0, p.ending))
    ensures p == Ends(AlreadyRunning) ==> FoundBusy(w.run, old(|w.run|), job)
    ensures w.sound && p.Ends? ==> p == Ends(AlreadyRunning)
  {
    hide World.Valid, RunStep, ExecStep, UpdateStep, Repositories;
    var tries: nat := *;
    while true
      invariant w.Valid() && old(w.run) <= w.run && w.Self() == old(w.Self())
      decreases tries
    {
      var a := w.TryFile(JobLock(job), w.Self().(pc := Update(Clearing, Want)));
      if a == Got {
        return GoOn;
      }
      if a == Error {
        var ending := SetupFails(w, false);
        return Ends(ending);
      }
      if tries == 0 {
        assert w.run[|w.run| - 1] == w.sys by {
          LatestIsNow(w);
        }
        ghost var before := w.run;
        w.Does(Busy(JobLock(job)), Leave(w.c, w.Self(), AlreadyRunning));
        assert w.run[|before| - 1] == before[|before| - 1];
        return Ends(AlreadyRunning);
      }
      tries := tries - 1;
    }
  }

  lemma LatestIsNow(w: World)
    requires w.Valid()
    ensures w.run != [] && w.run[|w.run| - 1] == w.sys
  {
    hide Behaviour;
  }

  /** executeWithSlot. Whatever others do meanwhile, it extends the run of the
      system by steps of this process's program and theirs, and comes to its end
      with every lock released in the opposite order, unless it is waiting still. */
  method ExecuteWithSlot(w: World, job: string, trigger: Trigger) returns (ending: Option<Ending>)
    requires w.Valid() && w.Self() == Fresh(Work(job, trigger), w.Self().group)
    modifies w`sys, w`run, w`progress, w`removals
    ensures w.Valid() && old(w.run) <= w.run && w.Self().kind == Work(job, trigger)
    ensures if ending.Some? then w.Self().pc == Ended(ending.value) else Waits(w.c, w.Self())
    ensures ending.Some? ==> forall r :: r in w.sys.owner ==> w.sys.owner[r] != w.me
    ensures ending == Some(AlreadyRunning) ==> FoundBusy(w.run, old(|w.run|), job)
    ensures ending == Some(AlreadyRunning) ==> w.removals == old(w.removals)
    ensures ending == Some(NotDue) ==> w.removals == old(w.removals) + 1
    ensures ending == Some(Ran) ==> w.removals == old(w.removals) + 2 && RunOver(w.Self())
    ensures ending.Some? && ending != Some(Ran) && ending != Some(Killed) ==> BegunNothing(w.Self())
    ensures ending == Some(NotStarted) ==> w.Interrupted()
    ensures ending == Some(NotDue) ==> trigger == Tick
    ensures old(w.Interrupted()) ==> ending != Some(Ran)
    ensures old(w.Interrupted()) ==> forall k :: 0 <= k < |w.sys.log| && w.sys.log[k].pid == w.me ==>
                                       !w.sys.log[k].change.RecordRun? && !w.sys.log[k].change.MarkRunning?
    ensures ending == None ==> HeldUp(w, old(|w.run|))
    ensures w.sound && ending.Some? ==>
              || ending == Some(AlreadyRunning) || ending == Some(NotStarted) || ending == Some(NotDue)
              || (ending == Some(Ran) && Noted(w, old(|w.run|)))
  {
    hide World.Valid, Repositories, Taken, FoundBusy, RunOver, BegunNothing;
    ghost var from, stopped := |w.run| - 1, w.Interrupted();
    BeginsThere(w);
    TakenNext(w.c, w.Self().kind, w.Self().slot, 0);
    var p := AcquireJob(w, job);
    if p.Ends? {
      ghost var before := w.run;
      ReleaseAll(w, [], p.ending);
      StillBusy(before, w.run, old(|w.run|), job);
      ending := Some(p.ending);
    } else {
      ending := Proceed(w, job, trigger);
    }
    if ending.Some? {
      EndedOwnsNothing(w);
      EndingTold(w);
    }
    if stopped {
      InterruptHeld(w, from);
    }
  }

  lemma EndingTold(w: World)
    requires w.Valid() && w.Self().kind.Work? && w.Self().pc.Ended?
    ensures var pr := w.Self();
            && (pr.pc.ending == Ran ==> RunOver(pr))
            && (pr.pc.ending != Ran && pr.pc.ending != Killed ==> BegunNothing(pr))
            && (pr.pc.ending == NotStarted ==> w.Interrupted())
            && (pr.pc.ending == NotDue ==> pr.kind.trigger == Tick)
  {
    hide Behaviour, RunOver, BegunNothing;
    EndingsTell(w.c, w.run, |w.run| - 1, w.me);
  }

  /** The process and its group, as the run so far has them. */
  lemma BeginsThere(w: World)
    requires w.Valid()
    ensures w.run != [] && w.run[|w.run| - 1] == w.sys && w.me < |w.sys.procs| && w.Self() == w.sys.procs[w.me]
    ensures w.Self().group < |w.sys.groups| && w.Interrupted() == w.sys.groups[w.Self().group].interrupted
  {
    hide Behaviour;
  }

  lemma InterruptHeld(w: World, i: nat)
    requires w.Valid() && i < |w.run| && w.me < |w.run[i].procs|
    requires var pr := w.run[i].procs[w.me];
             pr.kind.Work? && pr.pc.Start? && pr.group < |w.run[i].groups| && w.run[i].groups[pr.group].interrupted
    ensures w.Self().pc.Ended? ==> w.Self().pc.ending != Ran
    ensures forall k :: 0 <= k < |w.sys.log| && w.sys.log[k].pid == w.me ==>
              !w.sys.log[k].change.RecordRun? && !w.sys.log[k].change.MarkRunning?
  {
    hide Behaviour;
    InterruptedIsNotStarted(w.c, w.run, i, |w.run| - 1, w.me);
  }

  lemma EndedOwnsNothing(w: World)
    requires w.Valid() && w.Self().pc.Ended?
    ensures forall r :: r in w.sys.owner ==> w.sys.owner[r] != w.me
  {
    hide Behaviour, Holds, ProcWf;
    LocksAlways(w.c, w.run, |w.run| - 1);
    forall r
      ensures !Holds(w.c, w.Self(), r)
    {
      EndedHolds(w.c, w.Self(), r);
    }
  }

  lemma EndedHolds(c: Config, pr: Proc, r: Resource)
    requires pr.pc.Ended?
    ensures !Holds(c, pr, r)
  {
    hide Repositories;
  }

  /** Holding the job lock proves that a marker still there was left by a
      killed run. */
  method ClearStale(w: World, job: string, trigger: Trigger)
    requires w.Valid() && w.Self().kind == Work(job, trigger) && w.Self().pc == Update(Clearing, Want)
    modifies w`sys, w`run, w`progress, w`removals
    ensures w.Valid() && old(w.run) <= w.run && w.Self().kind == Work(job, trigger) && w.Self().slot == old(w.Self().slot)
    ensures w.Self().pc == if trigger == Tick then CheckDue else Repos(0)
    ensures w.removals == old(w.removals) + 1
  {
    hide World.Valid;
    var cleared := UpdateState(w, Clearing, ClearRunning(job));
    var removed := RemoveProgress(w, job);
  }

  /** With the job's lock held: all the other locks, and the run. */
  method TakeAllAndRun(w: World, job: string, trigger: Trigger, first: seq<Resource>) returns (p: Gate, held: seq<Resource>)
    requires w.Valid() && w.Self().kind == Work(job, trigger) && w.Self().pc == Repos(0)
    requires first == Taken(w.c, w.Self().kind, w.Self().slot, 1)
    modifies w`sys, w`run, w`progress, w`removals
    ensures w.Valid() && old(w.run) <= w.run && w.Self().kind == Work(job, trigger)
    ensures p != GoOn && p != Ends(AlreadyRunning) && held == Taken(w.c, w.Self().kind, w.Self().slot, |held|)
    ensures p.Ends? ==> w.Self().pc == Unwind(|held|, p.ending)
    ensures p == Waiting ==> Waits(w.c, w.Self()) && HeldUp(w, old(|w.run|))
    ensures w.sound && p.Ends? ==> p == Ends(NotStarted) || (p == Ends(Ran) && Noted(w, old(|w.run|)))
    ensures w.removals == old(w.removals) + if p == Ends(Ran) then 1 else 0
  {
    hide World.Valid, Repositories, Taken, FoundHeld, HeldUp, WaitsForHeld;
    p, held := WaitRepositories(w, job, first);
    if p == Waiting {
      HeldUpAt(w, old(|w.run|));
    }
    if p == GoOn {
      ghost var from := |w.run|;
      p, held := TakeSlotAndRun(w, job, trigger, held);
      FoundBefore(w, w.run, from, old(|w.run|));
    }
  }

  /** From the job lock on. */
  method Proceed(w: World, job: string, trigger: Trigger) returns (ending: Option<Ending>)
    requires w.Valid() && w.Self().kind == Work(job, trigger) && w.Self().pc == Update(Clearing, Want)
    modifies w`sys, w`run, w`progress, w`removals
    ensures w.Valid() && old(w.run) <= w.run && w.Self().kind == Work(job, trigger) && ending != Some(AlreadyRunning)
    ensures if ending.Some? then w.Self().pc == Ended(ending.value) else Waits(w.c, w.Self())
    ensures w.removals == old(w.removals) + if ending == Some(Ran) then 2 else 1
    ensures ending == None ==> HeldUp(w, old(|w.run|))
    ensures w.sound && ending.Some? ==> ending == Some(NotStarted) || ending == Some(NotDue) || (ending == Some(Ran) && Noted(w, old(|w.run|)))
  {
    hide World.Valid, Repositories, Taken, FoundHeld, HeldUp;
    TakenNext(w.c, w.Self().kind, w.Self().slot, 0);
    var held := [JobLock(job)];
    ClearStale(w, job, trigger);
    if trigger == Tick {
      var due := CheckStillDue(w, job);
      if !due {
        ReleaseAll(w, held, NotDue);
        return Some(NotDue);
      }
    }
    ghost var from := |w.run|;
    var p;
    p, held := TakeAllAndRun(w, job, trigger, held);
    ghost var found := w.run;
    FoundBefore(w, found, from, old(|w.run|));
    if p == Waiting {
      return None;
    }
    ReleaseAll(w, held, p.ending);
    FoundBefore(w, found, from, old(|w.run|));
    return Some(p.ending);
  }

  lemma StillBusy(run: seq<Sys>, longer: seq<Sys>, since: nat, job: string)
    requires run <= longer
    ensures FoundBusy(run, since, job) ==> FoundBusy(longer, since, job)
  {
    if k: nat :| since <= k + 1 && k < |run| && (JobLock(job) in run[k].owner || job in run[k].probed) {
      assert longer[k] == run[k];
    }
  }

  // ----- A look from outside -----

  /** `status`, which is no process of the system: it sees the lock files there
      are, and takes a shared lock for a moment. */
  class Observer {
    const c: Config
    var sys: Sys
    var files: set<string>    // jobs whose lock file exists
    ghost var run: seq<Sys>

    ghost predicate Valid()
      reads this
    {
      && run != [] && Behaviour(c, run) && run[|run| - 1] == sys
      && forall job :: JobLock(job) in sys.owner ==> job in files
    }

    constructor (c: Config, s: Sys, files: set<string>, ghost b: seq<Sys>)
      requires Behaviour(c, b) && b[|b| - 1] == s && forall job :: JobLock(job) in s.owner ==> job in files
      ensures this.c == c && sys == s && run == b && Valid()
    {
      this.c, sys, this.files, run := c, s, files, b;
    }

    /** A lock file is made by whoever first takes it, and stays. */
    method Happens(l: Label)
      requires Valid() && Guard(c, sys, l)
      modifies this
      ensures Valid() && run == old(run) + [sys]
    {
      hide Guard, Protocol.Next, Behaviour;
      GuardInRange(c, sys, l);
      BehaviourNext(c, run, l);
      OwnersAfter(sys, l);
      if l.Do? && l.e.Took? && l.e.r.JobLock? {
        files := files + {l.e.r.job};
      }
      sys := Protocol.Next(sys, l);
      run := run + [sys];
    }

    method Meanwhile()
      requires Valid()
      modifies this
      ensures Valid() && old(run) <= run
    {
      hide Valid, Guard;
      var n: nat := *;
      while n > 0
        invariant Valid() && old(run) <= run
      {
        var l: Label := *;
        if Guard(c, sys, l) {
          Happens(l);
        }
        n := n - 1;
      }
    }

    /** lock.JobHeld: the file's existence, a shared try, and its release; None
        is an error. The answer was true at some moment of the call: some
        process then held the job's lock, or none did. */
    method JobHeld(job: string) returns (held: Option<bool>)
      requires Valid()
      modifies this
      ensures Valid() && old(run) <= run
      ensures held.Some? ==> HeldOnce(c, run, old(|run|), job, held.value)
    {
      hide Behaviour, SomeoneHolds;
      Meanwhile();
      var readable := *;
      if !readable {
        return None;
      }
      if job !in files {
        NotHeldNow(this, job);
        return Some(false);
      }
      Meanwhile();
      held := TryShared(job);
    }

    /** TryRLock, and Unlock. */
    method TryShared(job: string) returns (held: Option<bool>)
      requires Valid()
      modifies this
      ensures Valid() && old(run) <= run
      ensures held.Some? ==> (held.value <==> SomeoneHolds(c, old(sys), job)) && old(sys) == run[old(|run|) - 1]
    {
      hide Guard, Behaviour, Protocol.Next, SomeoneHolds;
      var works := *;
      if !works {
        return None;
      }
      HeldNow(c, run, |run| - 1, job);
      ProbeAllowed(c, sys, job);
      if JobLock(job) in sys.owner {
        return Some(true);
      }
      Happens(ProbeOn(job));
      Meanwhile();
      ProbeAllowed(c, sys, job);
      if job in sys.probed {
        Happens(ProbeOff(job));
      }
      return Some(false);
    }
  }

  lemma NotHeldNow(o: Observer, job: string)
    requires o.Valid() && job !in o.files
    ensures !SomeoneHolds(o.c, o.sys, job)
  {
    hide Behaviour, SomeoneHolds;
    HeldNow(o.c, o.run, |o.run| - 1, job);
  }

  /** Whether, at some moment since, some process held the job's lock. */
  ghost predicate HeldOnce(c: Config, run: seq<Sys>, since: nat, job: string, held: bool) {
    exists k: nat :: since <= k + 1 && k < |run| && (held <==> SomeoneHolds(c, run[k], job))
  }

  ghost predicate SomeoneHolds(c: Config, s: Sys, job: string) {
    exists p :: 0 <= p < |s.procs| && Holds(c, s.procs[p], JobLock(job))
  }

  lemma HeldNow(c: Config, b: seq<Sys>, k: nat, job: string)
    requires Behaviour(c, b) && k < |b|
    ensures JobLock(job) in b[k].owner <==> SomeoneHolds(c, b[k], job)
  {
    hide Behaviour, Holds;
    JobHeldIsAccurate(c, b, k, job);
  }

  lemma ProbeAllowed(c: Config, s: Sys, job: string)
    ensures Guard(c, s, ProbeOn(job)) <==> JobLock(job) !in s.owner
    ensures Guard(c, s, ProbeOff(job)) <==> job in s.probed
  {
  }

  lemma OwnersAfter(s: Sys, l: Label)
    requires (l.Do? ==> l.p < |s.procs|) && (l.Interrupt? || l.Kill? ==> l.g < |s.groups|)
    requires l.Spawn? ==> l.g < |s.groups| && s.groups[l.g].next < |s.groups[l.g].due|
    ensures forall r :: r in Protocol.Next(s, l).owner ==> r in s.owner || (l.Do? && l.e == Took(r))
  {
  }
}