/** What every step of the scheduler keeps. */
module SchedulerInvariant {
  import opened Workflows
  import opened RunState
  import opened Scheduler

  // ---------------------------------------------------------------- one task

  /** The last attempt succeeded with exit code 0. */
  predicate LastSucceeded(attempts: seq<Attempt>) {
    && attempts != []
    && var o := attempts[|attempts| - 1].outcome;
       o.Some? && o.value.status == StatusSucceeded && o.value.exitCode == 0
  }

  predicate Numbered(attempts: seq<Attempt>) {
    forall i | 0 <= i < |attempts| :: attempts[i].number == i + 1
  }

  /** A run appends to the history it found, numbers its attempts on, and goes on after an attempt
    * only when the retry policy says so. */
  predicate HistoryOk(task: TaskDef, b: seq<Attempt>, h: seq<Attempt>) {
    && b <= h
    && |h| <= |b| + task.retry.maxAttempts
    && (forall i | |b| <= i < |h| :: h[i].number == i + 1)
    && (forall i | |b| <= i < |h| - 1 :: h[i].outcome.Some? && ShouldRetry(task, h[i].outcome.value, i - |b| + 1))
  }

  predicate WorkerState(s: TaskState) {
    s == Succeeded || s == Verified || s == Failed || s == TimedOut || s == Cancelled || s == VerificationFailed
  }

  /** What holds of one task: `b` is its record when the run began, `r` its record now. */
  predicate RecordInv(task: TaskDef, b: Record, r: Record, phase: Option<Phase>) {
    && HistoryOk(task, b.attempts, r.attempts)
    && (b.state.Success() ==> r == b)
    && (r.state.Success() ==> phase == None && LastSucceeded(r.attempts))
    && match phase
       case None => r.state != Running && (r.state.Open() ==> r.attempts == b.attempts)
       case Some(p) => PhaseInv(task, b, r, p)
  }

  predicate PhaseInv(task: TaskDef, b: Record, r: Record, p: Phase) {
    var done := |r.attempts| - |b.attempts|;
    match p
    case Queued => done == 0 && Fresh(r)
    case Prepared(first, n) =>
      && first == |b.attempts| + 1 && 1 <= n <= task.retry.maxAttempts && done == n - 1
      && (if n == 1 then Fresh(r) else Continuing(task, r, n - 1))
    case Launched(first, n) => first == |b.attempts| + 1 && done == n && n >= 1 && Underway(r)
    case InRunner(first, n) => first == |b.attempts| + 1 && done == n && n >= 1 && Underway(r)
    case Answered(first, n, _) => first == |b.attempts| + 1 && done == n && n >= 1 && Underway(r)
    case Recorded(first, n, o) =>
      first == |b.attempts| + 1 && done == n && n >= 1 && r.state == Running
      && r.attempts[|r.attempts| - 1].outcome == Some(o)
    case BackingOff(first, n) =>
      first == |b.attempts| + 1 && done == n && 1 <= n && n < task.retry.maxAttempts && Continuing(task, r, n)
    case Finished(result) =>
      && (Fresh(r) || r.state == Running)
      && (result.Returned? ==> WorkerState(result.state))
      && (result.Returned? && result.state.Success() ==> LastSucceeded(r.attempts))
  }

  /** Submitted and not yet started: still ready, or labelled skipped by a later fail-fast marking. */
  predicate Fresh(r: Record) {
    r.state == Ready || r.state == Skipped
  }

  /** An attempt is recorded and has no outcome yet. */
  predicate Underway(r: Record) {
    r.state == Running && r.attempts != [] && r.attempts[|r.attempts| - 1].outcome == None
  }

  /** Attempt `n` of this run is recorded and may be retried. */
  predicate Continuing(task: TaskDef, r: Record, n: nat) {
    && r.state == Running
    && r.attempts != []
    && var o := r.attempts[|r.attempts| - 1].outcome;
       o.Some? && ShouldRetry(task, o.value, n)
  }

  // ---------------------------------------------------------------- the whole state

  function PhaseOf(s: Sched, t: TaskId): Option<Phase> {
    if t in s.futures then Some(s.futures[t]) else None
  }

  ghost predicate Covered(w: Workflow, base: Tasks, s: Sched) {
    && Covers(w, s.tasks) && Covers(w, base) && Covers(w, s.disk.tasks)
    && s.futures.Keys <= s.tasks.Keys
  }

  ghost predicate Records(w: Workflow, base: Tasks, s: Sched)
    requires Covered(w, base, s)
  {
    forall t | t in s.tasks :: RecordInv(w.tasks[t], base[t], s.tasks[t], PhaseOf(s, t))
  }

  /** Launch safety: whoever is ready or has a future has only successful dependencies. */
  ghost predicate Dependencies(w: Workflow, base: Tasks, s: Sched)
    requires Covered(w, base, s)
  {
    forall t | t in s.tasks :: t in s.futures || s.tasks[t].state == Ready ==> AllSucceeded(w, s.tasks, t)
  }

  /** The in-flight tasks of a provider. */
  ghost function InFlight(w: Workflow, futures: map<TaskId, Phase>, p: Provider): set<TaskId> {
    set t | t in futures && t in w.tasks && ProviderOf(w, t) == p
  }

  ghost predicate Accounting(w: Workflow, s: Sched) {
    && |s.futures| <= w.defaults.maxConcurrency
    && forall p :: Active(s.active, p) == |InFlight(w, s.futures, p)| <= ProviderLimit(w, p)
  }

  /** Nothing to submit and nothing in flight: every task that is still open waits for an open one. */
  ghost predicate Quiet(w: Workflow, m: Tasks)
    requires Covers(w, m)
  {
    forall t | t in m :: m[t].state != Ready && (m[t].state == Pending ==>
      exists d :: d in w.tasks[t].dependsOn && d in m && m[d].state.Open())
  }

  /** The overall status that a run ends with: cancelled exactly if a cancellation came, otherwise
    * succeeded or failed by whether every task succeeded. */
  predicate EndsAs(m: Tasks, cancelled: bool, status: WorkflowStatus) {
    && (status == RunCancelled <==> cancelled)
    && (status == RunSucceeded <==> !cancelled && forall t | t in m :: m[t].state in {Succeeded, Verified})
    && (status == RunFailed <==> !cancelled && exists t | t in m :: m[t].state !in {Succeeded, Verified})
  }

  ghost predicate PointInv(w: Workflow, base: Tasks, s: Sched)
    requires Covered(w, base, s)
  {
    && (s.failureTriggered ==> w.defaults.failurePolicy == FailFast)
    && match s.point
       case Polling => true
       case Marking => true
       case Submitting(queue) =>
         && Distinct(queue)
         && (forall t | t in queue :: t in s.tasks && t !in s.futures && s.tasks[t].state == Ready && AllSucceeded(w, s.tasks, t))
         && (s.failureTriggered ==> queue == [])
         && (queue == [] && s.futures == map[] && !s.cancelEvent ==> Quiet(w, s.tasks))
       case Waiting => s.futures != map[]
       case Draining(done) => done != [] && Distinct(done) && forall t | t in done :: t in s.futures && s.futures[t].Finished?
       case Finalizing => s.futures == map[] && (AllTerminal(s.tasks) || s.cancelEvent)
       case Exited => s.futures == map[] && AllTerminal(s.tasks) && EndsAs(s.tasks, s.cancelEvent, s.status)
                      && s.disk.tasks == s.tasks && s.disk.status == s.status
       case NoProgress => false
  }

  /** The state file lags behind memory only by labels that marking has set since the last write. */
  predicate Persists(d: Record, r: Record) {
    && d.attempts == r.attempts
    && (d.state == r.state || (d.state.Open() && r.state in {Ready, Blocked, Skipped}))
  }

  ghost predicate DiskInv(w: Workflow, base: Tasks, s: Sched)
    requires Covered(w, base, s)
  {
    && (s.cancelRequested ==> s.disk.cancelRequested)
    && forall t | t in s.tasks :: Persists(s.disk.tasks[t], s.tasks[t])
  }

  ghost predicate Inv(w: Workflow, base: Tasks, s: Sched) {
    && Covered(w, base, s)
    && Records(w, base, s)
    && Dependencies(w, base, s)
    && Accounting(w, s)
    && PointInv(w, base, s)
    && DiskInv(w, base, s)
  }

  lemma Parts(w: Workflow, base: Tasks, s: Sched)
    requires Inv(w, base, s)
    ensures Covered(w, base, s) && Records(w, base, s) && Dependencies(w, base, s)
    ensures Accounting(w, s) && PointInv(w, base, s) && DiskInv(w, base, s)
  {
    hide Covered, Records, Dependencies, Accounting, PointInv, DiskInv;
  }

  lemma Assemble(w: Workflow, base: Tasks, s: Sched)
    requires Covered(w, base, s) && Records(w, base, s) && Dependencies(w, base, s)
    requires Accounting(w, s) && PointInv(w, base, s) && DiskInv(w, base, s)
    ensures Inv(w, base, s)
  {
    hide Covered, Records, Dependencies, Accounting, PointInv, DiskInv;
  }

  lemma PhaseFacts(task: TaskDef, b: Record, r: Record, p: Phase)
    requires RecordInv(task, b, r, Some(p))
    ensures p.Prepared? ==> p.first >= 1
    ensures p.Answered? ==> r.attempts != []
  {
  }

  lemma InvIsSound(w: Workflow, base: Tasks, s: Sched)
    requires Inv(w, base, s)
    ensures Sound(w, s)
  {
    hide WellFormed, RecordInv, Accounting, DiskInv, Dependencies;
    forall t | t in s.futures
      ensures s.futures[t].Prepared? ==> s.futures[t].first >= 1
      ensures s.futures[t].Answered? ==> s.tasks[t].attempts != []
    {
      PhaseFacts(w.tasks[t], base[t], s.tasks[t], s.futures[t]);
    }
  }
}
