/** The main results about single runs: concurrency limits, attempt histories, context handoff,
  * deadlock freedom and cancellation. */
module SchedulerTheorems {
  import opened Workflows
  import opened RunState
  import opened DependencyStates
  import opened Scheduler
  import opened SchedulerInvariant
  import opened SchedulerSteps
  import opened SchedulerRuns
  import Prompts

  /** At every point of every run, each provider's counter is the number of its tasks in flight and
    * within its limit, and the number of tasks in flight is within `maxConcurrency`. */
  lemma ConcurrencyWithinLimits(w: Workflow, base: Tasks, disk: Persisted, r: Run, i: nat, p: Provider)
    requires Accepted(w) && Covers(w, base) && Startable(base) && IsRun(w, base, disk, r) && i < |r.states|
    ensures var s := r.states[i];
            && Active(s.active, p) == |InFlight(w, s.futures, p)|
            && |InFlight(w, s.futures, p)| <= ProviderLimit(w, p)
            && |s.futures| <= w.defaults.maxConcurrency
  {
    hide Inv, Startable, IsRun, WellFormed;
    RunInv(w, base, disk, r, i);
    Parts(w, base, r.states[i]);
    hide Covered, Records, Dependencies, PointInv, DiskInv;
  }

  /** The attempt history of a task: the run's own attempts follow the ones it found, are numbered
    * on from them, are at most `maxAttempts` many, and each but the last was one the retry policy
    * retries, so in particular did not end with exit code 64 or 66. A success has a last attempt
    * that succeeded with exit code 0. */
  lemma AttemptHistory(w: Workflow, base: Tasks, disk: Persisted, r: Run, i: nat, t: TaskId)
    requires Accepted(w) && Covers(w, base) && Startable(base) && IsRun(w, base, disk, r) && i < |r.states| && t in base
    requires Numbered(base[t].attempts)
    ensures t in r.states[i].tasks && t in w.tasks
    ensures var h := r.states[i].tasks[t].attempts;
            var b := base[t].attempts;
            && b <= h && |h| <= |b| + w.tasks[t].retry.maxAttempts
            && Numbered(h)
            && (forall k | |b| <= k < |h| - 1 ::
                  && h[k].outcome.Some?
                  && h[k].outcome.value.exitCode !in {64, 66}
                  && ShouldRetry(w.tasks[t], h[k].outcome.value, k - |b| + 1))
            && (r.states[i].tasks[t].state.Success() ==> LastSucceeded(h))
  {
    var s := r.states[i];
    RecordHolds(w, base, disk, r, i, t);
    hide Startable, IsRun, WellFormed;
  }

  lemma RecordHolds(w: Workflow, base: Tasks, disk: Persisted, r: Run, i: nat, t: TaskId)
    requires Accepted(w) && Covers(w, base) && Startable(base) && IsRun(w, base, disk, r) && i < |r.states| && t in base
    ensures t in r.states[i].tasks && t in w.tasks
    ensures RecordInv(w.tasks[t], base[t], r.states[i].tasks[t], PhaseOf(r.states[i], t))
  {
    hide Inv, Startable, IsRun, WellFormed, RecordInv;
    RunInv(w, base, disk, r, i);
    Parts(w, base, r.states[i]);
    hide Dependencies, Accounting, PointInv, DiskInv;
  }

  /** When a worker composes its prompt, every task it selects an artifact of is a direct
    * dependency that has succeeded and has attempts, so the "no attempt artifacts" error cannot
    * occur; and if the prompt comes about, it stays within its budget. */
  lemma ContextIsAvailable(w: Workflow, base: Tasks, disk: Persisted, r: Run, i: nat, t: TaskId, files: Prompts.Files)
    requires Accepted(w) && Covers(w, base) && Startable(base) && IsRun(w, base, disk, r) && i < |r.moves|
    requires r.moves[i] == Begin(t, files)
    ensures var m := r.states[i].tasks;
            && t in w.tasks && Prompts.Selectable(w, m, w.tasks[t].contextFrom)
            && (forall c | c in w.tasks[t].contextFrom ::
                  && c.task in w.tasks[t].dependsOn
                  && m[c.task].state.Success() && LastSucceeded(m[c.task].attempts))
            && var prompt := Prompts.PromptFor(w, m, files, t);
            && prompt != Prompts.Err(Prompts.NoAttempts)
            && (prompt.Ok? ==>
                  && Prompts.SectionsFor(w, m, files, w.tasks[t].contextFrom).Ok?
                  && var sections := Prompts.SectionsFor(w, m, files, w.tasks[t].contextFrom).value;
                  && |sections| == |w.tasks[t].contextFrom|
                  && |prompt.value| <= |files.snapshots[t]| + Prompts.Budget(sections, w.tasks[t].contextFrom))
  {
    hide Inv, Startable, IsRun, WellFormed, RecordInv, Prompts.PromptFor, Prompts.SectionsFor, Prompts.Budget, Apply;
    RunLengths(w, base, disk, r);
    var s := r.states[i];
    RunStep(w, base, disk, r, i);
    TaskFacts(w, base, s, t);
    CoversTasks(w, base, s);
    ContextSelectable(w, s.tasks, t);
    FutureDependencies(w, base, s, t);
    forall c | c in w.tasks[t].contextFrom
      ensures c.task in w.tasks[t].dependsOn
      ensures s.tasks[c.task].state.Success() && LastSucceeded(s.tasks[c.task].attempts)
    {
      ContextTask(w, t, c);
      RecordHolds(w, base, disk, r, i, c.task);
      SuccessHasAttempts(w.tasks[c.task], base[c.task], s.tasks[c.task], PhaseOf(s, c.task));
    }
    PromptHasAttempts(w, s.tasks, files, t);
    if Prompts.PromptFor(w, s.tasks, files, t).Ok? {
      Prompts.PromptBounded(w, s.tasks, files, t);
    }
  }

  lemma PromptHasAttempts(w: Workflow, m: Tasks, files: Prompts.Files, t: TaskId)
    requires t in w.tasks && Prompts.Selectable(w, m, w.tasks[t].contextFrom)
    requires forall c | c in w.tasks[t].contextFrom :: m[c.task].attempts != []
    ensures Prompts.PromptFor(w, m, files, t) != Prompts.Err(Prompts.NoAttempts)
  {
    Prompts.NoAttemptsMeansNone(w, m, files, w.tasks[t].contextFrom);
  }

  lemma SuccessHasAttempts(task: TaskDef, b: Record, r: Record, phase: Option<Phase>)
    requires RecordInv(task, b, r, phase) && r.state.Success()
    ensures LastSucceeded(r.attempts) && r.attempts != []
  {
  }

  lemma ContextTask(w: Workflow, t: TaskId, c: Selection)
    requires WellFormed(w) && t in w.tasks && c in w.tasks[t].contextFrom
    ensures c.task in w.tasks[t].dependsOn && c.task in w.tasks
  {
    assert TaskAccepted(w.tasks.Keys, t, w.tasks[t]);
  }

  lemma FutureDependencies(w: Workflow, base: Tasks, s: Sched, t: TaskId)
    requires Inv(w, base, s) && t in s.futures
    ensures t in w.tasks && Covers(w, s.tasks) && t in s.tasks && AllSucceeded(w, s.tasks, t)
  {
    hide WellFormed, Records, Accounting, PointInv, DiskInv, AllSucceeded;
  }

  /** What the invariant says about the end of the loop. */
  lemma EndFacts(w: Workflow, base: Tasks, s: Sched)
    requires Inv(w, base, s)
    ensures s.point != NoProgress
    ensures s.point == Exited ==>
              && s.futures == map[] && AllTerminal(s.tasks) && s.disk.tasks == s.tasks && s.disk.status == s.status
              && EndsAs(s.tasks, s.cancelEvent, s.status)
  {
    hide Covered, Records, Dependencies, Accounting, DiskInv, AllSucceeded, Quiet;
  }

  /** The scheduler never raises "made no progress", and when it leaves its loop every task is
    * terminal and the state file says so. */
  lemma NeverStuck(w: Workflow, base: Tasks, disk: Persisted, r: Run, i: nat)
    requires Accepted(w) && Covers(w, base) && Startable(base) && IsRun(w, base, disk, r) && i < |r.states|
    ensures var s := r.states[i];
            && s.point != NoProgress
            && (s.point == Exited ==>
                  s.futures == map[] && AllTerminal(s.tasks) && s.disk.tasks == s.tasks && s.disk.status.Terminal())
  {
    hide Inv, Sound, Startable, IsRun, WellFormed;
    RunInv(w, base, disk, r, i);
    EndFacts(w, base, r.states[i]);
  }

  /** The overall status of every finished run, in memory and on file: cancelled exactly if a cancellation
    * came; otherwise succeeded exactly if every task is succeeded or verified, and failed exactly if some
    * task is not. */
  lemma EndStatus(w: Workflow, base: Tasks, disk: Persisted, r: Run, i: nat)
    requires Accepted(w) && Covers(w, base) && Startable(base) && IsRun(w, base, disk, r) && i < |r.states|
    requires r.states[i].point == Exited
    ensures var s := r.states[i];
            && s.disk.status == s.status
            && (s.status == RunCancelled <==> s.cancelEvent)
            && (!s.cancelEvent ==>
                  && (s.status == RunSucceeded <==> forall t | t in s.tasks :: s.tasks[t].state in {Succeeded, Verified})
                  && (s.status == RunFailed <==> exists t | t in s.tasks :: s.tasks[t].state !in {Succeeded, Verified}))
  {
    hide Inv, Sound, Startable, IsRun, WellFormed;
    RunInv(w, base, disk, r, i);
    EndFacts(w, base, r.states[i]);
  }

  // ---------------------------------------------------------------- cancellation

  /** The cancellation request has reached memory and no submission can come before it is polled. */
  predicate Doomed(s: Sched) {
    s.cancelRequested && s.futures == map[] && (s.point == Polling || s.cancelEvent)
  }

  lemma CollectNeedsFutures(w: Workflow, s: Sched, done: seq<TaskId>)
    requires Enabled(w, s, Collect(done))
    ensures s.futures != map[]
  {
    assert done[0] in done;
  }

  lemma CompleteNeedsFutures(w: Workflow, s: Sched)
    requires Sound(w, s) && Enabled(w, s, Complete)
    ensures s.futures != map[]
  {
    hide Covers;
    assert s.point.done[0] in s.point.done;
  }

  /** With nothing in flight, only the main loop and the outside can move. */
  lemma NoWorkerMoves(w: Workflow, s: Sched, move: Move)
    requires Sound(w, s) && Enabled(w, s, move) && s.futures == map[]
    ensures WorkerOf(move) == None && move != Complete && !move.Collect?
  {
    hide Sound;
    match move
    case Collect(done) => CollectNeedsFutures(w, s, done);
    case Complete => CompleteNeedsFutures(w, s);
    case _ =>
  }

  lemma DoomedMark(w: Workflow, base: Tasks, s: Sched)
    requires Inv(w, base, s) && Covers(w, s.tasks)
    ensures var s' := DoMark(w, s);
            s'.tasks.Keys == s.tasks.Keys && forall t | t in s.tasks :: s'.tasks[t].attempts == s.tasks[t].attempts
  {
    hide Inv, WellFormed, Mark, ReadyTasks;
    forall t | t in s.tasks ensures Mark(w, s.tasks, s.failureTriggered)[t].attempts == s.tasks[t].attempts {
      MarkEffect(w, s.tasks, s.failureTriggered, t);
    }
  }

  lemma DoomedStep(w: Workflow, base: Tasks, s: Sched, move: Move)
    requires Inv(w, base, s) && Sound(w, s) && Enabled(w, s, move) && Doomed(s)
    ensures Doomed(Apply(w, s, move)) && Submits(w, s, move) == None
    ensures forall t | t in s.tasks :: t in Apply(w, s, move).tasks && Apply(w, s, move).tasks[t].attempts == s.tasks[t].attempts
  {
    hide Inv, WellFormed, Covers, Mark, ReadyTasks, FinalTasks, FinalStatus;
    NoWorkerMoves(w, s, move);
    FinalTasksShape(s);
    CoversTasks(w, base, s);
    DoomedMark(w, base, s);
  }

  /** A run that starts from a state file with a recorded cancellation submits nothing, records no
    * attempt, and can only end as cancelled. */
  lemma {:induction false} CancelledStartsNothing(w: Workflow, base: Tasks, disk: Persisted, r: Run, i: nat)
    requires Accepted(w) && Covers(w, base) && Startable(base) && IsRun(w, base, disk, r) && i < |r.states|
    requires disk.cancelRequested
    ensures var s := r.states[i];
            && Doomed(s)
            && s.disk.cancelRequested
            && s.tasks.Keys == base.Keys
            && (forall t | t in base :: s.tasks[t].attempts == base[t].attempts)
            && (i < |r.moves| ==> Submits(w, s, r.moves[i]) == None)
            && (s.point == Exited ==> s.status == RunCancelled && s.disk.status == RunCancelled)
  {
    hide Inv, Startable, WellFormed, Sound, Apply, Enabled, Doomed, Submits, Step;
    var s := r.states[i];
    if i == 0 {
      assert Doomed(InitialSched(base, disk)) by { DoomedStart(base, disk); }
    } else {
      CancelledStartsNothing(w, base, disk, r, i - 1);
      RunStep(w, base, disk, r, i - 1);
      DoomedStep(w, base, r.states[i - 1], r.moves[i - 1]);
      StepMonotone(w, base, r.states[i - 1], r.moves[i - 1]);
    }
    RunInv(w, base, disk, r, i);
    CancelledExit(w, base, s);
    if i < |r.moves| {
      RunStep(w, base, disk, r, i);
      DoomedStep(w, base, s, r.moves[i]);
    }
  }

  lemma DoomedStart(base: Tasks, disk: Persisted)
    requires disk.cancelRequested
    ensures Doomed(InitialSched(base, disk))
  {
  }

  lemma CancelledExit(w: Workflow, base: Tasks, s: Sched)
    requires Inv(w, base, s)
    ensures s.cancelRequested ==> s.disk.cancelRequested
    ensures s.point == Exited && Doomed(s) ==> s.status == RunCancelled && s.disk.status == RunCancelled
  {
    hide Covered, Records, Dependencies, Accounting;
  }

  // ---------------------------------------------------------------- when a run starts anything

  /** A pending task that no failed task reaches. */
  ghost predicate Startworthy(w: Workflow, m: Tasks, t: TaskId)
    requires Covers(w, m)
  {
    t in m && m[t].state == Pending && !ReachesFailure(w, m, t)
  }

  /** The undisturbed first three moves: poll, mark, and then the first submission or the close. */
  lemma FirstMoves(w: Workflow, base: Tasks, disk: Persisted, r: Run)
    requires Accepted(w) && Covers(w, base) && Startable(base) && IsRun(w, base, disk, r)
    requires |r.moves| > 2 && !disk.cancelRequested && forall i | 0 <= i < 3 :: !r.moves[i].Outside()
    ensures var s := r.states[2];
            && Inv(w, base, s) && Sound(w, s) && Enabled(w, s, r.moves[2])
            && s.tasks == Mark(w, base, false)
            && s.futures == map[] && !s.cancelEvent && s.point.Submitting?
            && r.moves[2] == (if s.point.queue == [] then Close else Submit)
  {
    hide Inv, WellFormed, Startable, Mark, ReadyTasks, Covers;
    var s0 := r.states[0];
    RunStep(w, base, disk, r, 0);
    NoWorkerMoves(w, s0, r.moves[0]);
    assert r.moves[0] == Poll;
    RunStep(w, base, disk, r, 1);
    NoWorkerMoves(w, r.states[1], r.moves[1]);
    assert r.moves[1] == Relabel;
    RunStep(w, base, disk, r, 2);
    NoWorkerMoves(w, r.states[2], r.moves[2]);
  }

  lemma QueueAfterMark(w: Workflow, base: Tasks, s: Sched, t: TaskId)
    requires Accepted(w) && Inv(w, base, s) && s.futures == map[] && !s.cancelEvent && s.point.Submitting?
    requires t in s.tasks && !s.tasks[t].state.Terminal()
    ensures s.point.queue != []
  {
    hide WellFormed, Covered, Records, Dependencies, Accounting, DiskInv, Quiet;
    CoversTasks(w, base, s);
    if s.point.queue == [] {
      QuietMeansTerminal(w, base, s);
    }
  }

  /** An undisturbed run starts something exactly when no cancellation is on file and some pending
    * task is not downstream of a failed one. Its third step is then a submission. */
  lemma StartsSomethingIff(w: Workflow, base: Tasks, disk: Persisted, r: Run)
    requires Accepted(w) && Covers(w, base) && Startable(base) && IsRun(w, base, disk, r)
    requires |r.moves| > 2 && forall i | 0 <= i < 3 :: !r.moves[i].Outside()
    ensures (exists i :: 0 <= i < |r.moves| && Submits(w, r.states[i], r.moves[i]).Some?)
            <==> !disk.cancelRequested && exists t :: Startworthy(w, base, t)
  {
    hide Inv, WellFormed, Startable, IsRun, Sound, Apply, Enabled, Covers, Submits;
    RunLengths(w, base, disk, r);
    if disk.cancelRequested {
      forall i | 0 <= i < |r.moves| ensures Submits(w, r.states[i], r.moves[i]) == None {
        CancelledStartsNothing(w, base, disk, r, i);
      }
    } else if t :| Startworthy(w, base, t) {
      FirstMoves(w, base, disk, r);
      MarkComputesLabels(w, base);
      hide Mark;
      assert t in r.states[2].tasks && !r.states[2].tasks[t].state.Terminal();
      QueueAfterMark(w, base, r.states[2], t);
      assert r.moves[2] == Submit;
      IdleSubmits(w, base, r.states[2]);
      assert Submits(w, r.states[2], r.moves[2]).Some?;
    } else {
      forall i | 0 <= i < |r.moves| ensures Submits(w, r.states[i], r.moves[i]) == None {
        NothingStartworthy(w, base, disk, r, i);
      }
    }
  }

  lemma SettledAfterMark(w: Workflow, base: Tasks, t: TaskId)
    requires Covers(w, base) && Startable(base) && t in base && !Startworthy(w, base, t)
    ensures Mark(w, base, false)[t].state.Terminal()
  {
    hide WellFormed, Mark, ReachesFailure;
    MarkComputesLabels(w, base);
    assert Labels(w, base)[t].state == Label(w, base, t);
  }

  lemma SameKeys(w: Workflow, base: Tasks, s: Sched)
    requires Inv(w, base, s)
    ensures s.tasks.Keys == base.Keys == s.disk.tasks.Keys
  {
    hide Records, Dependencies, Accounting, PointInv, DiskInv, WellFormed;
  }

  lemma NothingStartworthy(w: Workflow, base: Tasks, disk: Persisted, r: Run, i: nat)
    requires Accepted(w) && Covers(w, base) && Startable(base) && IsRun(w, base, disk, r)
    requires 2 < |r.moves| && i < |r.moves| && forall i | 0 <= i < 3 :: !r.moves[i].Outside()
    requires !disk.cancelRequested && forall t :: !Startworthy(w, base, t)
    ensures Submits(w, r.states[i], r.moves[i]) == None
  {
    hide Inv, WellFormed, IsRun, Sound, Apply, Enabled, Covers, Submits, Mark, Startable, ReachesFailure;
    RunLengths(w, base, disk, r);
    RunStep(w, base, disk, r, i);
    if i < 2 {
      EarlyMoves(w, base, disk, r, i);
    } else {
      FirstMoves(w, base, disk, r);
      RunMonotone(w, base, disk, r, 2, i);
      SameKeys(w, base, r.states[2]);
      SameKeys(w, base, r.states[i]);
      forall t | t in base ensures Taken(r.states[i], t) {
        SettledAfterMark(w, base, t);
      }
      if t :| Submits(w, r.states[i], r.moves[i]) == Some(t) {
        SubmissionTakes(w, base, r.states[i], r.moves[i], t);
      }
    }
  }

  lemma EarlyMoves(w: Workflow, base: Tasks, disk: Persisted, r: Run, i: nat)
    requires Accepted(w) && Covers(w, base) && Startable(base) && IsRun(w, base, disk, r)
    requires i < 2 < |r.moves| && forall i | 0 <= i < 3 :: !r.moves[i].Outside()
    ensures Submits(w, r.states[i], r.moves[i]) == None
  {
    hide Inv, WellFormed, Startable, Mark, ReadyTasks, Covers;
    RunStep(w, base, disk, r, 0);
    NoWorkerMoves(w, r.states[0], r.moves[0]);
    RunStep(w, base, disk, r, 1);
  }
}
