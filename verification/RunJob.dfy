/** One run of a job, from its before hooks to its notifications
    (internal/execution/job.go, internal/execution/hook.go). */
module RunJob {

  datatype Job = Job(
    before: seq<string>, repositories: seq<string>,
    always: seq<string>, onSuccess: seq<string>, onFailure: seq<string>)

  /** What a run does to the outside world, at the moment it is begun, and
      whether it worked; and its looks at whether the work was cancelled.
      Signal is the interrupt that cancels it, from outside. */
  datatype Effect =
    | Before(cmd: string, ok: bool)
    | Backup(repo: string, ok: bool)
    | Forget(repo: string, ok: bool)
    | Always(cmd: string, ok: bool)
    | OnSuccess(cmd: string, ok: bool)
    | OnFailure(cmd: string, ok: bool)
    | Notify
    | Asked(stopped: bool)
    | Signal

  /** forgetFailed is also set when there is no retention to enforce. */
  datatype RepoOutcome = RepoOutcome(repo: string, backupFailed: bool, noRetention: bool, forgetFailed: bool) {
    predicate Ok() {
      !backupFailed && !forgetFailed
    }
  }

  datatype JobResult = JobResult(hookFailed: bool, repos: seq<RepoOutcome>, alwaysErrs: nat, outcomeErrs: nat, interrupted: bool) {
    predicate Success() {
      !hookFailed && !interrupted && alwaysErrs == 0 && forall i :: 0 <= i < |repos| ==> repos[i].Ok()
    }
  }

  // ----- The traces a run may leave -----

  /** Before hooks in order, stopping at the first that fails. */
  predicate BeforeTrace(cmds: seq<string>, failed: bool, t: seq<Effect>) {
    && |t| <= |cmds|
    && (forall i :: 0 <= i < |t| ==> t[i] == Before(cmds[i], !(failed && i == |t| - 1)))
    && (if failed then t != [] else |t| == |cmds|)
  }

  /** Forget only after a backup that worked. */
  function RepoDone(o: RepoOutcome): seq<Effect> {
    [Backup(o.repo, !o.backupFailed)]
    + if o.backupFailed || o.noRetention then [] else [Forget(o.repo, !o.forgetFailed)]
  }

  /** Only when not cancelled. */
  function RepoTrace(o: RepoOutcome): seq<Effect> {
    [Asked(false)] + RepoDone(o)
  }

  function ReposTrace(outs: seq<RepoOutcome>): seq<Effect> {
    if outs == [] then [] else ReposTrace(outs[..|outs| - 1]) + RepoTrace(outs[|outs| - 1])
  }

  /** Each of the first repositories, in order, whatever became of the others. */
  predicate Attempted(repos: seq<string>, outs: seq<RepoOutcome>) {
    && |outs| <= |repos|
    && forall i :: 0 <= i < |outs| ==>
         outs[i].repo == repos[i] && Coherent(outs[i])
  }

  predicate Coherent(o: RepoOutcome) {
    && (o.noRetention ==> o.forgetFailed)
    && (o.backupFailed ==> !o.noRetention && !o.forgetFailed)
  }

  /** Every command once, in order, whatever became of the others. */
  predicate AllTrace(cmds: seq<string>, mk: (string, bool) -> Effect, errs: nat, t: seq<Effect>) {
    && |t| == |cmds|
    && (forall i :: 0 <= i < |t| ==> t[i] == mk(cmds[i], true) || t[i] == mk(cmds[i], false))
    && errs == Failures(mk, cmds, t)
  }

  function Failures(mk: (string, bool) -> Effect, cmds: seq<string>, t: seq<Effect>): nat
    requires |t| == |cmds|
  {
    if t == [] then 0
    else
      var n := |t| - 1;
      Failures(mk, cmds[..n], t[..n]) + if t[n] == mk(cmds[n], true) then 0 else 1
  }

  const ALWAYS: (string, bool) -> Effect := (cmd, ok) => Always(cmd, ok)
  const ON_SUCCESS: (string, bool) -> Effect := (cmd, ok) => OnSuccess(cmd, ok)
  const ON_FAILURE: (string, bool) -> Effect := (cmd, ok) => OnFailure(cmd, ok)

  /** The four parts of a run's trace, in order; the notifications follow. */
  datatype Parts = Parts(before: seq<Effect>, always: seq<Effect>, outcome: seq<Effect>)

  /** What comes between the before hooks and the last look. */
  function WorkTrace(job: Job, r: JobResult): seq<Effect> {
    ReposTrace(r.repos) + if !r.hookFailed && |r.repos| < |job.repositories| then [Asked(true)] else []
  }

  function TraceOf(job: Job, r: JobResult, p: Parts): seq<Effect> {
    p.before + WorkTrace(job, r) + [Asked(r.interrupted)] + p.always + p.outcome + [Notify]
  }

  ghost predicate Grammar(job: Job, r: JobResult, p: Parts) {
    && BeforeTrace(job.before, r.hookFailed, p.before)
    && Attempted(job.repositories, r.repos)
    && (r.hookFailed ==> r.repos == [])
    && (!r.hookFailed && |r.repos| < |job.repositories| ==> r.interrupted)
    && AllTrace(job.always, ALWAYS, r.alwaysErrs, p.always)
    && (if r.Success() then AllTrace(job.onSuccess, ON_SUCCESS, r.outcomeErrs, p.outcome)
        else AllTrace(job.onFailure, ON_FAILURE, r.outcomeErrs, p.outcome))
  }

  // ----- Interrupts -----

  /** A log without its interrupt: what the run itself did. */
  function Quiet(log: seq<Effect>): seq<Effect> {
    if log == [] then []
    else Quiet(log[..|log| - 1]) + if log[|log| - 1] == Signal then [] else [log[|log| - 1]]
  }

  /** A look sees the interrupt exactly when it has come, and nothing begun
      under a cancelled context works. */
  ghost predicate Follows(before: seq<Effect>, e: Effect) {
    match e
    case Asked(stopped) => stopped <==> Signal in before
    case Before(_, ok) => ok ==> Signal !in before
    case Backup(_, ok) => ok ==> Signal !in before
    case Forget(_, ok) => ok ==> Signal !in before
    case Signal => Signal !in before
    case _ => true
  }

  ghost predicate Heard(log: seq<Effect>) {
    forall i :: 0 <= i < |log| ==> Follows(log[..i], log[i])
  }

  lemma QuietAppend(log: seq<Effect>, e: Effect)
    ensures Quiet(log + [e]) == Quiet(log) + if e == Signal then [] else [e]
  {
    assert (log + [e])[..|log|] == log;
  }

  lemma HeardAppend(log: seq<Effect>, e: Effect)
    requires Heard(log) && Follows(log, e)
    ensures Heard(log + [e])
  {
    hide Follows;
    forall i | 0 <= i <= |log|
      ensures Follows((log + [e])[..i], (log + [e])[i])
    {
      assert (log + [e])[..i] == log[..i];
      assert i == |log| ==> log[..i] == log;
    }
  }

  // ----- The run -----

  /** The outside world of one run: results are open, and the work may be
      cancelled at any time, for good. A cancelled context starts nothing. */
  class World {
    var cancelled: bool
    ghost var log: seq<Effect>

    constructor ()
      ensures Valid() && Quiet(log) == []
    {
      cancelled, log := false, [];
    }

    ghost predicate Valid()
      reads this
    {
      Heard(log) && (cancelled <==> Signal in log)
    }

    /** The interrupt may come. */
    method Interruptible()
      requires Valid()
      modifies this
      ensures Valid() && Quiet(log) == old(Quiet(log)) && (old(cancelled) ==> cancelled)
    {
      var signal := *;
      if signal && !cancelled {
        QuietAppend(log, Signal);
        HeardAppend(log, Signal);
        cancelled, log := true, log + [Signal];
      }
    }

    ghost method Did(e: Effect)
      requires Valid() && e != Signal && Follows(log, e)
      modifies this`log
      ensures Valid() && Quiet(log) == old(Quiet(log)) + [e]
    {
      hide Follows;
      QuietAppend(log, e);
      HeardAppend(log, e);
      log := log + [e];
    }

    /** Whether the work context has been cancelled. */
    method Err() returns (b: bool)
      requires Valid()
      modifies this
      ensures Valid() && Quiet(log) == old(Quiet(log)) + [Asked(b)]
      ensures b == cancelled && (old(cancelled) ==> b)
    {
      Interruptible();
      b := cancelled;
      Did(Asked(b));
    }

    /** Whether a command begun now under the work context will work. */
    method Start() returns (ok: bool)
      requires Valid()
      modifies this
      ensures Valid() && Quiet(log) == old(Quiet(log)) && (ok ==> Signal !in log)
    {
      Interruptible();
      ok := *;
      ok := ok && !cancelled;
    }
  }

  /** runHooksStopOnError. */
  method RunHooksStopOnError(w: World, cmds: seq<string>) returns (failed: bool, ghost t: seq<Effect>)
    requires w.Valid()
    modifies w
    ensures w.Valid() && Quiet(w.log) == old(Quiet(w.log)) + t && BeforeTrace(cmds, failed, t)
  {
    hide Heard, Quiet;
    t := [];
    var i := 0;
    while i < |cmds|
      invariant 0 <= i <= |cmds| && |t| == i && w.Valid() && Quiet(w.log) == old(Quiet(w.log)) + t
      invariant forall k :: 0 <= k < i ==> t[k] == Before(cmds[k], true)
    {
      var ok := w.Start();
      w.Did(Before(cmds[i], ok));
      t := t + [Before(cmds[i], ok)];
      if !ok {
        return true, t;
      }
      i := i + 1;
    }
    failed := false;
  }

  predicate AfterEffect(e: Effect) {
    e.Always? || e.OnSuccess? || e.OnFailure?
  }

  /** runHooksAll, under the cleanup context, which an interrupt leaves. */
  method RunHooksAll(w: World, cmds: seq<string>, mk: (string, bool) -> Effect) returns (errs: nat, ghost t: seq<Effect>)
    requires w.Valid() && forall c, ok :: AfterEffect(mk(c, ok)) && mk(c, true) != mk(c, false)
    modifies w
    ensures w.Valid() && Quiet(w.log) == old(Quiet(w.log)) + t && AllTrace(cmds, mk, errs, t)
  {
    hide Heard, Quiet;
    errs, t := 0, [];
    for i := 0 to |cmds|
      invariant |t| == i && w.Valid() && Quiet(w.log) == old(Quiet(w.log)) + t
      invariant AllTrace(cmds[..i], mk, errs, t)
    {
      hide AllTrace;
      w.Interruptible();
      var ok := *;
      var e := mk(cmds[i], ok);
      assert AfterEffect(mk(cmds[i], true)) && AfterEffect(mk(cmds[i], false));
      w.Did(e);
      AllTraceNext(cmds, i, mk, errs, t, ok);
      if !ok {
        errs := errs + 1;
      }
      t := t + [e];
    }
    assert cmds[..|cmds|] == cmds;
  }

  lemma AllTraceNext(cmds: seq<string>, i: nat, mk: (string, bool) -> Effect, errs: nat, t: seq<Effect>, ok: bool)
    requires i < |cmds| && AllTrace(cmds[..i], mk, errs, t) && mk(cmds[i], true) != mk(cmds[i], false)
    ensures AllTrace(cmds[..i + 1], mk, if ok then errs else errs + 1, t + [mk(cmds[i], ok)])
  {
    assert (t + [mk(cmds[i], ok)])[..i] == t && cmds[..i + 1][..i] == cmds[..i];
  }

  /** runRepo, after the look that allowed it. */
  method RunRepo(w: World, repo: string) returns (o: RepoOutcome)
    requires w.Valid()
    modifies w
    ensures w.Valid() && Quiet(w.log) == old(Quiet(w.log)) + RepoDone(o)
    ensures o.repo == repo && Coherent(o)
  {
    hide Heard, Quiet;
    o := RepoOutcome(repo, false, false, false);
    var ok := w.Start();
    w.Did(Backup(repo, ok));
    if !ok {
      return o.(backupFailed := true);
    }
    var retention := *;
    if !retention {
      return o.(noRetention := true, forgetFailed := true);
    }
    ok := w.Start();
    w.Did(Forget(repo, ok));
    if !ok {
      return o.(forgetFailed := true);
    }
  }

  lemma OneMore(repos: seq<string>, outs: seq<RepoOutcome>, o: RepoOutcome)
    requires Attempted(repos, outs) && |outs| < |repos| && o.repo == repos[|outs|] && Coherent(o)
    ensures Attempted(repos, outs + [o])
    ensures ReposTrace(outs + [o]) == ReposTrace(outs) + [Asked(false)] + RepoDone(o)
  {
    assert (outs + [o])[..|outs|] == outs;
  }

  method RunRepos(w: World, repos: seq<string>) returns (outs: seq<RepoOutcome>)
    requires w.Valid()
    modifies w
    ensures w.Valid() && Attempted(repos, outs)
    ensures Quiet(w.log) == old(Quiet(w.log)) + ReposTrace(outs) + if |outs| < |repos| then [Asked(true)] else []
    ensures |outs| < |repos| ==> w.cancelled
  {
    hide Heard, Quiet, Attempted, ReposTrace, RepoDone;
    outs := [];
    NoneYet(repos);
    for i := 0 to |repos|
      invariant i == |outs| && w.Valid() && Attempted(repos, outs)
      invariant Quiet(w.log) == old(Quiet(w.log)) + ReposTrace(outs)
    {
      var stop := w.Err();
      if stop {
        return;
      }
      var o := RunRepo(w, repos[i]);
      OneMore(repos, outs, o);
      RegroupRepo(old(Quiet(w.log)), ReposTrace(outs), RepoDone(o));
      outs := outs + [o];
    }
  }

  lemma RegroupRepo(a: seq<Effect>, b: seq<Effect>, c: seq<Effect>)
    ensures a + b + [Asked(false)] + c == a + (b + [Asked(false)] + c)
  {
  }

  lemma NoneYet(repos: seq<string>)
    ensures Attempted(repos, []) && ReposTrace([]) == []
  {
  }

  /** The part that the work context governs. */
  ghost predicate WorkDone(job: Job, r: JobResult, before: seq<Effect>) {
    && BeforeTrace(job.before, r.hookFailed, before)
    && Attempted(job.repositories, r.repos)
    && (r.hookFailed ==> r.repos == [])
    && (!r.hookFailed && |r.repos| < |job.repositories| ==> r.interrupted)
    && r.alwaysErrs == 0
  }

  method RunWork(w: World, job: Job) returns (r: JobResult, ghost before: seq<Effect>)
    requires w.Valid()
    modifies w
    ensures w.Valid() && WorkDone(job, r, before)
    ensures Quiet(w.log) == old(Quiet(w.log)) + before + WorkTrace(job, r) + [Asked(r.interrupted)]
  {
    hide Heard, Quiet, AllTrace, Attempted, ReposTrace, BeforeTrace;
    r := JobResult(false, [], 0, 0, false);
    var failed;
    failed, before := RunHooksStopOnError(w, job.before);
    NoneYet(job.repositories);
    if failed {
      r := r.(hookFailed := true);
    } else {
      var outs := RunRepos(w, job.repositories);
      r := r.(repos := outs);
    }
    var stop := w.Err();
    if stop {
      r := r.(interrupted := true);
    }
  }

  lemma Gathered(job: Job, r: JobResult, p: Parts)
    ensures p.before + WorkTrace(job, r) + [Asked(r.interrupted)] + p.always + p.outcome + [Notify] == TraceOf(job, r, p)
  {
    hide WorkTrace;
  }

  /** RunJob: any run leaves a sentence of the grammar, its looks included, and
      a log in which they and the interrupt agree. */
  method RunOneJob(w: World, job: Job) returns (r: JobResult, ghost p: Parts)
    requires w.Valid() && Quiet(w.log) == []
    modifies w
    ensures Grammar(job, r, p) && Quiet(w.log) == TraceOf(job, r, p) && Heard(w.log)
  {
    hide Heard, Quiet, AllTrace, BeforeTrace, Attempted, ReposTrace, TraceOf;
    ghost var before, always, outcome;
    r, before := RunWork(w, job);
    var errs;
    errs, always := RunHooksAll(w, job.always, ALWAYS);
    r := r.(alwaysErrs := errs);
    if r.Success() {
      errs, outcome := RunHooksAll(w, job.onSuccess, ON_SUCCESS);
    } else {
      errs, outcome := RunHooksAll(w, job.onFailure, ON_FAILURE);
    }
    r := r.(outcomeErrs := errs);
    w.Did(Notify);
    p := Parts(before, always, outcome);
    Gathered(job, r, p);
  }

  // ----- What the grammar promises -----

  lemma {:induction false} ReposTraceShape(outs: seq<RepoOutcome>, k: nat)
    requires k < |ReposTrace(outs)|
    ensures var t := ReposTrace(outs);
            && (t[k] == Asked(false) || t[k].Backup? || t[k].Forget?)
            && (t[k].Backup? ==> k > 0 && t[k - 1] == Asked(false))
            && (t[k].Forget? ==> k > 0 && t[k - 1] == Backup(t[k].repo, true))
  {
    var n := |outs| - 1;
    if k < |ReposTrace(outs[..n])| {
      ReposTraceShape(outs[..n], k);
    }
  }

  lemma WorkTraceShape(job: Job, r: JobResult, k: nat)
    requires k < |WorkTrace(job, r)|
    ensures var t := WorkTrace(job, r);
            && (t[k].Asked? || t[k].Backup? || t[k].Forget?)
            && (t[k].Backup? ==> k > 0 && t[k - 1] == Asked(false))
            && (t[k].Forget? ==> k > 0 && t[k - 1] == Backup(t[k].repo, true))
  {
    hide ReposTrace;
    if k < |ReposTrace(r.repos)| {
      ReposTraceShape(r.repos, k);
    }
  }

  lemma {:induction false} NoFailuresMeansAllWorked(cmds: seq<string>, mk: (string, bool) -> Effect, t: seq<Effect>)
    requires |t| == |cmds|
    ensures Failures(mk, cmds, t) == 0 <==> forall i :: 0 <= i < |t| ==> t[i] == mk(cmds[i], true)
  {
    if t != [] {
      var n := |t| - 1;
      NoFailuresMeansAllWorked(cmds[..n], mk, t[..n]);
      assert forall i :: 0 <= i < n ==> t[..n][i] == t[i] && cmds[..n][i] == cmds[i];
    }
  }

  /** The last look: where the work ends and the after hooks begin. */
  function LookAt(job: Job, r: JobResult, p: Parts): nat {
    |p.before| + |WorkTrace(job, r)|
  }

  /** The part of a trace that index k falls in. */
  lemma InPart(job: Job, r: JobResult, p: Parts, k: nat)
    requires k < |TraceOf(job, r, p)|
    ensures var t, work := TraceOf(job, r, p), WorkTrace(job, r);
            var b, c := |p.before|, LookAt(job, r, p); var d := c + 1 + |p.always|; var e := d + |p.outcome|;
            && |t| == e + 1
            && (k < b ==> t[k] == p.before[k])
            && (b <= k < c ==> t[k] == work[k - b])
            && (k == c ==> t[k] == Asked(r.interrupted))
            && (c < k < d ==> t[k] == p.always[k - c - 1])
            && (d <= k < e ==> t[k] == p.outcome[k - d])
            && (k == e ==> t[k] == Notify)
  {
    hide WorkTrace;
  }

  /** What stands on either side of the last look. */
  lemma Sides(job: Job, r: JobResult, p: Parts, k: nat)
    requires Grammar(job, r, p) && k < |TraceOf(job, r, p)|
    ensures var e, b, c := TraceOf(job, r, p)[k], |p.before|, LookAt(job, r, p);
            && (k < b ==> e.Before?)
            && (b <= k < c ==> e.Asked? || e.Backup? || e.Forget?)
            && (k > c ==> AfterEffect(e) || e.Notify?)
  {
    hide Attempted, WorkTrace, TraceOf, Failures, JobResult.Success;
    InPart(job, r, p, k);
    var b, c := |p.before|, LookAt(job, r, p);
    if b <= k < c {
      WorkTraceShape(job, r, k - b);
    }
  }

  /** A backup is begun only straight after a look that saw no interrupt, a
      forget only straight after a backup of its repository that worked, and
      neither once a before hook has failed. */
  lemma ForgetFollowsBackup(job: Job, r: JobResult, p: Parts, k: nat)
    requires Grammar(job, r, p) && k < |TraceOf(job, r, p)|
    ensures var t := TraceOf(job, r, p);
            && (t[k].Forget? ==> k > 0 && t[k - 1] == Backup(t[k].repo, true))
            && (t[k].Backup? ==> k > 0 && t[k - 1] == Asked(false))
            && (t[k].Backup? || t[k].Forget? ==> forall i :: 0 <= i < k ==> !(t[i].Before? && !t[i].ok))
  {
    var t, b := TraceOf(job, r, p), |p.before|;
    hide Attempted, WorkTrace, Failures, TraceOf, JobResult.Success, BeforeTrace;
    Sides(job, r, p, k);
    InPart(job, r, p, k);
    if t[k].Forget? || t[k].Backup? {
      WorkTraceShape(job, r, k - b);
      InPart(job, r, p, k - 1);
      WorkMeansBeforeWorked(job, r, p);
      forall i | 0 <= i < k
        ensures !(t[i].Before? && !t[i].ok)
      {
        Sides(job, r, p, i);
        InPart(job, r, p, i);
      }
    }
  }

  lemma WorkMeansBeforeWorked(job: Job, r: JobResult, p: Parts)
    requires Grammar(job, r, p) && WorkTrace(job, r) != []
    ensures forall i :: 0 <= i < |p.before| ==> p.before[i].Before? && p.before[i].ok
  {
    hide AllTrace, JobResult.Success;
    NoneYet(job.repositories);
  }

  /** The always hooks run whole on every outcome, and exactly one of the
      success and failure lists after them, as the outcome decides. */
  lemma AfterHooksRun(job: Job, r: JobResult, p: Parts)
    requires Grammar(job, r, p)
    ensures |p.always| == |job.always| && forall i :: 0 <= i < |p.always| ==> p.always[i].Always? && p.always[i].cmd == job.always[i]
    ensures |p.outcome| == |if r.Success() then job.onSuccess else job.onFailure|
    ensures forall i :: 0 <= i < |p.outcome| ==>
              if r.Success() then p.outcome[i].OnSuccess? && p.outcome[i].cmd == job.onSuccess[i]
              else p.outcome[i].OnFailure? && p.outcome[i].cmd == job.onFailure[i]
  {
    hide Attempted, ReposTrace, Failures, BeforeTrace, JobResult.Success;
  }

  /** Where an effect belongs: before hooks, work, always hooks, the outcome's
      hooks, notifications. */
  function Rank(e: Effect): nat {
    match e
    case Before(_, _) => 0
    case Backup(_, _) => 1
    case Forget(_, _) => 1
    case Asked(_) => 1
    case Always(_, _) => 2
    case OnSuccess(_, _) => 3
    case OnFailure(_, _) => 3
    case Notify => 4
    case Signal => 5
  }

  lemma RankAt(job: Job, r: JobResult, p: Parts, k: nat)
    requires Grammar(job, r, p) && k < |TraceOf(job, r, p)|
    ensures var e, b, c := Rank(TraceOf(job, r, p)[k]), |p.before|, LookAt(job, r, p);
            var d := c + 1 + |p.always|;
            && |TraceOf(job, r, p)| == d + |p.outcome| + 1
            && e == (if k < b then 0 else if k <= c then 1 else if k < d then 2 else if k < d + |p.outcome| then 3 else 4)
  {
    hide Attempted, WorkTrace, TraceOf, Failures, JobResult.Success, Grammar;
    InPart(job, r, p, k);
    Sides(job, r, p, k);
    AfterHooksRun(job, r, p);
  }

  /** A run goes through its parts in order, and notifies once, at its end. */
  lemma PartsInOrder(job: Job, r: JobResult, p: Parts, i: nat, j: nat)
    requires Grammar(job, r, p) && i < j < |TraceOf(job, r, p)|
    ensures var t := TraceOf(job, r, p);
            Rank(t[i]) <= Rank(t[j]) && t[|t| - 1] == Notify && t[i] != Notify
  {
    hide Grammar, TraceOf;
    RankAt(job, r, p, i);
    RankAt(job, r, p, j);
    RankAt(job, r, p, |TraceOf(job, r, p)| - 1);
  }

  /** The repositories backed up, in order. */
  function Backups(t: seq<Effect>): seq<string> {
    if t == [] then []
    else
      var last := t[|t| - 1];
      Backups(t[..|t| - 1]) + if last.Backup? then [last.repo] else []
  }

  lemma {:induction false} BackupsSum(t: seq<Effect>, u: seq<Effect>)
    ensures Backups(t + u) == Backups(t) + Backups(u)
    decreases |u|
  {
    if u == [] {
      assert t + u == t;
    } else {
      var n := |u| - 1;
      BackupsSum(t, u[..n]);
      assert (t + u)[..|t| + n] == t + u[..n];
    }
  }

  lemma {:induction false} NoBackups(t: seq<Effect>)
    requires forall k :: 0 <= k < |t| ==> !t[k].Backup?
    ensures Backups(t) == []
  {
    if t != [] {
      NoBackups(t[..|t| - 1]);
    }
  }

  lemma {:induction false} ReposBackups(repos: seq<string>, outs: seq<RepoOutcome>)
    requires Attempted(repos, outs)
    ensures Backups(ReposTrace(outs)) == repos[..|outs|]
  {
    if outs != [] {
      var n := |outs| - 1;
      ReposBackups(repos, outs[..n]);
      BackupsSum(ReposTrace(outs[..n]), RepoTrace(outs[n]));
      var t := RepoTrace(outs[n]);
      var rest := t[2..];
      assert t == [Asked(false), t[1]] + rest;
      BackupsSum([Asked(false), t[1]], rest);
      NoBackups(rest);
      assert [Asked(false), t[1]][..1] == [Asked(false)] && [Asked(false)][..0] == [];
      assert repos[..n] + [repos[n]] == repos[..n + 1];
    }
  }

  /** The job's repositories are backed up in the order listed, each once for
      each time it is listed: all of them, unless a before hook failed or the
      run was interrupted. */
  lemma BackedUpInOrder(job: Job, r: JobResult, p: Parts)
    requires Grammar(job, r, p)
    ensures |r.repos| <= |job.repositories| && Backups(TraceOf(job, r, p)) == job.repositories[..|r.repos|]
    ensures !r.hookFailed && !r.interrupted ==> |r.repos| == |job.repositories|
    ensures r.hookFailed ==> r.repos == []
  {
    hide BeforeTrace, AllTrace, JobResult.Success, Attempted, ReposTrace, Backups;
    ReposBackups(job.repositories, r.repos);
    NotBackups(job, r, p);
    var asked := if !r.hookFailed && |r.repos| < |job.repositories| then [Asked(true)] else [];
    BackupsSum(ReposTrace(r.repos), asked);
    NoBackups(asked);
    BackupsSum(p.before, WorkTrace(job, r));
    BackupsSum(p.before + WorkTrace(job, r), [Asked(r.interrupted)]);
    NoBackups([Asked(r.interrupted)]);
    BackupsSum(p.before + WorkTrace(job, r) + [Asked(r.interrupted)], p.always);
    BackupsSum(p.before + WorkTrace(job, r) + [Asked(r.interrupted)] + p.always, p.outcome);
    BackupsSum(p.before + WorkTrace(job, r) + [Asked(r.interrupted)] + p.always + p.outcome, [Notify]);
    NoBackups([Notify]);
    AttemptedCount(job.repositories, r.repos);
  }

  lemma AttemptedCount(repos: seq<string>, outs: seq<RepoOutcome>)
    requires Attempted(repos, outs)
    ensures |outs| <= |repos|
  {
  }

  lemma NotBackups(job: Job, r: JobResult, p: Parts)
    requires Grammar(job, r, p)
    ensures Backups(p.before) == [] && Backups(p.always) == [] && Backups(p.outcome) == []
  {
    hide Attempted, Failures, JobResult.Success;
    NoBackups(p.before);
    NoBackups(p.always);
    NoBackups(p.outcome);
  }

  // ----- What an interrupt does -----

  /** An effect of a log, in the trace. */
  lemma {:induction false} InQuiet(log: seq<Effect>, k: nat)
    requires k < |log| && log[k] != Signal
    ensures var q := Quiet(log[..k]); |q| < |Quiet(log)| && Quiet(log)[|q|] == log[k] && Quiet(log)[..|q|] == q
  {
    var n := |log| - 1;
    if k < n {
      InQuiet(log[..n], k);
      assert log[..n][..k] == log[..k];
    }
  }

  /** The latest effect of a log that is not the interrupt. */
  lemma {:induction false} LatestQuiet(log: seq<Effect>) returns (j: nat)
    requires Quiet(log) != []
    ensures j < |log| && log[j] == Quiet(log)[|Quiet(log)| - 1] && log[j] != Signal
    ensures forall m :: j < m < |log| ==> log[m] == Signal
  {
    j := |log| - 1;
    if log[j] == Signal {
      j := LatestQuiet(log[..j]);
    }
  }

  /** A run's log. */
  ghost predicate LogOf(job: Job, r: JobResult, p: Parts, log: seq<Effect>) {
    Grammar(job, r, p) && Heard(log) && Quiet(log) == TraceOf(job, r, p)
  }

  /** Before any backup there was a look that saw no interrupt, and nothing but
      an interrupt has come between. */
  lemma LookedBefore(job: Job, r: JobResult, p: Parts, log: seq<Effect>, k: nat) returns (j: nat)
    requires LogOf(job, r, p, log) && k < |log| && log[k].Backup?
    ensures j < k && log[j] == Asked(false) && Signal !in log[..j]
    ensures forall m :: j < m < k ==> log[m] == Signal
  {
    hide Grammar, TraceOf, Quiet;
    InQuiet(log, k);
    var q := Quiet(log[..k]);
    ForgetFollowsBackup(job, r, p, |q|);
    j := LatestQuiet(log[..k]);
    assert log[..k][..j] == log[..j];
    assert Follows(log[..j], log[j]);
  }

  lemma NoneIn(log: seq<Effect>, j: nat)
    requires j <= |log| && Signal !in log[..j]
    ensures forall i :: 0 <= i < j ==> log[i] != Signal
  {
    forall i | 0 <= i < j
      ensures log[i] != Signal
    {
      assert log[..j][i] == log[i];
    }
  }

  /** So between the interrupt and a backup begun after it there is nothing. */
  lemma NothingBetween(job: Job, r: JobResult, p: Parts, log: seq<Effect>, s: nat, k: nat)
    requires LogOf(job, r, p, log) && s < k < |log| && log[s] == Signal && log[k].Backup?
    ensures forall m :: s < m < k ==> log[m] == Signal
  {
    hide LogOf;
    var j := LookedBefore(job, r, p, log, k);
    NoneIn(log, j);
  }

  /** Once a look has seen the interrupt no repository is begun. */
  lemma NothingAfterSeen(job: Job, r: JobResult, p: Parts, log: seq<Effect>, i: nat, k: nat)
    requires LogOf(job, r, p, log) && i < k < |log| && log[i] == Asked(true)
    ensures !log[k].Backup?
  {
    hide LogOf;
    HeardAt(job, r, p, log, i);
    var s :| 0 <= s < i && log[s] == Signal;
    if log[k].Backup? {
      NothingBetween(job, r, p, log, s, k);
    }
  }

  lemma HeardAt(job: Job, r: JobResult, p: Parts, log: seq<Effect>, i: nat)
    requires LogOf(job, r, p, log) && i < |log|
    ensures Follows(log[..i], log[i])
    ensures log[i] == Asked(true) ==> exists s :: 0 <= s < i && log[s] == Signal
  {
    hide Grammar, TraceOf, Quiet;
    if log[i] == Asked(true) {
      assert Signal in log[..i];
      var s :| 0 <= s < i && log[..i][s] == Signal;
      assert log[s] == Signal;
    }
  }

  /** After the interrupt at most one backup is begun, the one a look had just
      allowed, and it fails. */
  lemma AtMostOneAfterSignal(job: Job, r: JobResult, p: Parts, log: seq<Effect>, s: nat, k: nat, k': nat)
    requires LogOf(job, r, p, log) && s < k <= k' < |log| && log[s] == Signal && log[k].Backup? && log[k'].Backup?
    ensures k == k' && !log[k].ok
  {
    hide LogOf;
    HeardAt(job, r, p, log, k);
    assert log[..k][s] == Signal;
    NothingBetween(job, r, p, log, s, k');
  }

  /** Where the last look stands in a log. */
  lemma LastLook(job: Job, r: JobResult, p: Parts, log: seq<Effect>) returns (c: nat)
    requires LogOf(job, r, p, log)
    ensures c < |log| && log[c] == Asked(r.interrupted)
    ensures forall k :: 0 <= k < c ==> !AfterEffect(log[k])
    ensures forall k :: c < k < |log| ==> AfterEffect(log[k]) || log[k] == Notify || log[k] == Signal
  {
    hide Grammar, TraceOf, Quiet, WorkTrace;
    var at := LookAt(job, r, p);
    TraceLength(job, r, p);
    InPart(job, r, p, at);
    c := Locate(log, at);
    forall k | 0 <= k < |log| && log[k] != Signal && k != c
      ensures k < c ==> !AfterEffect(log[k])
      ensures k > c ==> AfterEffect(log[k]) || log[k] == Notify
    {
      InQuiet(log, k);
      QuietGrows(log, k, c);
      QuietGrows(log, c, k);
      Sides(job, r, p, |Quiet(log[..k])|);
    }
  }

  lemma TraceLength(job: Job, r: JobResult, p: Parts)
    ensures LookAt(job, r, p) < |TraceOf(job, r, p)|
  {
    hide WorkTrace;
  }

  lemma {:induction false} Locate(log: seq<Effect>, q: nat) returns (c: nat)
    requires q < |Quiet(log)|
    ensures c < |log| && log[c] != Signal && log[c] == Quiet(log)[q] && |Quiet(log[..c])| == q
  {
    c := |log| - 1;
    if q < |Quiet(log[..c])| {
      var n := c;
      c := Locate(log[..n], q);
      assert log[..n][..c] == log[..c];
    }
  }

  lemma {:induction false} QuietGrows(log: seq<Effect>, i: nat, k: nat)
    requires k <= |log|
    ensures i < k && log[i] != Signal ==> |Quiet(log[..i])| < |Quiet(log[..k])|
  {
    if i < k && log[i] != Signal {
      InQuiet(log[..k], i);
      assert log[..k][..i] == log[..i];
    }
  }

  /** A run counts as interrupted exactly when the interrupt came before its
      last look, which all of the work precedes and all after hooks follow. */
  lemma InterruptedExactly(job: Job, r: JobResult, p: Parts, log: seq<Effect>) returns (c: nat)
    requires LogOf(job, r, p, log)
    ensures c < |log| && log[c].Asked? && (r.interrupted <==> Signal in log[..c])
    ensures forall k :: 0 <= k < c ==> !AfterEffect(log[k])
    ensures forall k :: c < k < |log| ==> AfterEffect(log[k]) || log[k] == Notify || log[k] == Signal
  {
    c := LastLook(job, r, p, log);
    HeardAt(job, r, p, log, c);
  }

  predicate AllWorked(t: seq<Effect>) {
    forall k :: 0 <= k < |t| ==> Worked(t[k])
  }

  lemma AllWorkedConcat(t: seq<Effect>, u: seq<Effect>)
    ensures AllWorked(t + u) <==> AllWorked(t) && AllWorked(u)
  {
    assert forall k :: 0 <= k < |t| ==> (t + u)[k] == t[k];
    assert forall k :: 0 <= k < |u| ==> (t + u)[|t| + k] == u[k];
  }

  predicate AllOk(outs: seq<RepoOutcome>) {
    forall i :: 0 <= i < |outs| ==> outs[i].Ok()
  }

  predicate AllRetained(outs: seq<RepoOutcome>) {
    forall i :: 0 <= i < |outs| ==> !outs[i].noRetention
  }

  lemma {:induction false} AllOkTrace(outs: seq<RepoOutcome>)
    requires forall i :: 0 <= i < |outs| ==> outs[i].noRetention ==> outs[i].forgetFailed
    ensures AllOk(outs) <==> AllWorked(ReposTrace(outs)) && AllRetained(outs)
  {
    if outs != [] {
      var n := |outs| - 1;
      AllOkTrace(outs[..n]);
      AllWorkedConcat(ReposTrace(outs[..n]), RepoTrace(outs[n]));
      LastOk(outs[n]);
      assert AllOk(outs) <==> AllOk(outs[..n]) && outs[n].Ok() by {
        assert forall i :: 0 <= i < n ==> outs[..n][i] == outs[i];
      }
      assert AllRetained(outs) <==> AllRetained(outs[..n]) && !outs[n].noRetention by {
        assert forall i :: 0 <= i < n ==> outs[..n][i] == outs[i];
      }
    }
  }

  lemma LastOk(o: RepoOutcome)
    requires o.noRetention ==> o.forgetFailed
    ensures o.Ok() <==> !o.noRetention && AllWorked(RepoTrace(o))
  {
    assert RepoTrace(o)[0] == Asked(false) && RepoTrace(o)[1] == Backup(o.repo, !o.backupFailed);
    if !o.backupFailed && !o.noRetention {
      assert RepoTrace(o)[2] == Forget(o.repo, !o.forgetFailed);
    }
  }

  /** Whether a step of those that decide the outcome worked. */
  predicate Worked(e: Effect) {
    match e
    case Before(_, ok) => ok
    case Backup(_, ok) => ok
    case Forget(_, ok) => ok
    case Always(_, ok) => ok
    case _ => true
  }

  lemma SuccessWorked(job: Job, r: JobResult, p: Parts)
    requires Grammar(job, r, p)
    ensures r.Success() <==>
            && !r.interrupted && AllRetained(r.repos)
            && AllWorked(p.before + ReposTrace(r.repos) + p.always)
  {
    AllOkTrace(r.repos);
    NoFailuresMeansAllWorked(job.always, ALWAYS, p.always);
    AllWorkedConcat(p.before, ReposTrace(r.repos));
    AllWorkedConcat(p.before + ReposTrace(r.repos), p.always);
    hide ReposTrace, Failures;
    if r.hookFailed {
      assert !Worked(p.before[|p.before| - 1]);
    }
    assert forall k :: 0 <= k < |p.always| ==> (Worked(p.always[k]) <==> p.always[k] == ALWAYS(job.always[k], true));
  }

  /** Main result: a run is recorded as a success exactly when no interrupt
      came before the last look, every repository had a retention to enforce,
      and every before hook, backup, forget and always hook worked. One that
      comes during the after hooks changes nothing. */
  lemma SuccessExactly(job: Job, r: JobResult, p: Parts, log: seq<Effect>) returns (c: nat)
    requires LogOf(job, r, p, log)
    ensures c < |log| && log[c].Asked? && (forall k :: 0 <= k < c ==> !AfterEffect(log[k]))
    ensures forall k :: c < k < |log| ==> AfterEffect(log[k]) || log[k] == Notify || log[k] == Signal
    ensures r.Success() <==>
            && Signal !in log[..c] && AllRetained(r.repos)
            && AllWorked(p.before + ReposTrace(r.repos) + p.always)
  {
    c := InterruptedExactly(job, r, p, log);
    hide Heard, Quiet, TraceOf, Grammar, AllWorked, AllRetained;
    SuccessWorked(job, r, p);
  }

  /** And a success has run every before hook, and both backed up and enforced
      retention on every repository, in order. */
  lemma SuccessIsComplete(job: Job, r: JobResult, p: Parts)
    requires Grammar(job, r, p) && r.Success()
    ensures |p.before| == |job.before| && |ReposTrace(r.repos)| == 3 * |job.repositories|
    ensures forall i :: 0 <= i < |job.repositories| ==>
              && ReposTrace(r.repos)[3 * i + 1] == Backup(job.repositories[i], true)
              && ReposTrace(r.repos)[3 * i + 2] == Forget(job.repositories[i], true)
  {
    ThreeEach(r.repos);
    hide ReposTrace, Failures;
  }

  lemma {:induction false} ThreeEach(outs: seq<RepoOutcome>)
    requires forall i :: 0 <= i < |outs| ==> outs[i].Ok() && Coherent(outs[i])
    ensures var t := ReposTrace(outs);
            && |t| == 3 * |outs|
            && forall i :: 0 <= i < |outs| ==>
                 t[3 * i + 1] == Backup(outs[i].repo, true) && t[3 * i + 2] == Forget(outs[i].repo, true)
  {
    if outs != [] {
      var n := |outs| - 1;
      ThreeEach(outs[..n]);
      var t, u := ReposTrace(outs), ReposTrace(outs[..n]);
      assert t == u + [Asked(false), Backup(outs[n].repo, true), Forget(outs[n].repo, true)];
      forall i | 0 <= i < |outs|
        ensures t[3 * i + 1] == Backup(outs[i].repo, true) && t[3 * i + 2] == Forget(outs[i].repo, true)
      {
        if i < n {
          assert outs[..n][i] == outs[i];
          assert t[3 * i + 1] == u[3 * i + 1] && t[3 * i + 2] == u[3 * i + 2];
        }
      }
    }
  }
}
