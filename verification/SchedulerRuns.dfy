/** Safety over whole runs of the scheduler. */
module SchedulerRuns {
  import opened Workflows
  import opened RunState
  import opened DependencyStates
  import opened Scheduler
  import opened SchedulerInvariant
  import opened SchedulerSteps
  import Prompts

  // ---------------------------------------------------------------- what never goes back

  /** The task has been submitted in this run, or is settled. */
  predicate Taken(s: Sched, t: TaskId)
    requires t in s.tasks
  {
    t in s.futures || s.tasks[t].state.Terminal()
  }

  /** Attempt histories only grow; only an open last entry may still receive its outcome. */
  predicate Grows(a: seq<Attempt>, b: seq<Attempt>) {
    && |a| <= |b|
    && forall i | 0 <= i < |a| ::
         b[i].number == a[i].number && b[i].dispatchId == a[i].dispatchId && (a[i].outcome.Some? ==> b[i] == a[i])
  }

  ghost predicate Monotone(s: Sched, s': Sched) {
    && s'.tasks.Keys == s.tasks.Keys
    && (forall t | t in s.tasks :: s.tasks[t].state.Success() ==> s'.tasks[t] == s.tasks[t])
    && (forall t | t in s.tasks :: Taken(s, t) ==> Taken(s', t))
    && (forall t | t in s.tasks :: Grows(s.tasks[t].attempts, s'.tasks[t].attempts))
    && (s.cancelEvent ==> s'.cancelEvent)
    && (s.cancelRequested ==> s'.cancelRequested)
    && (s.disk.cancelRequested ==> s'.disk.cancelRequested)
    && (s.failureTriggered ==> s'.failureTriggered)
  }

  lemma MonotoneTransitive(a: Sched, b: Sched, c: Sched)
    requires Monotone(a, b) && Monotone(b, c)
    ensures Monotone(a, c)
  {
    forall t | t in a.tasks ensures Grows(a.tasks[t].attempts, c.tasks[t].attempts) {
      assert Grows(a.tasks[t].attempts, b.tasks[t].attempts) && Grows(b.tasks[t].attempts, c.tasks[t].attempts);
    }
  }

  /** Only recording a new attempt and recording its outcome change a history. */
  lemma WorkerGrows(w: Workflow, base: Tasks, s: Sched, move: Move)
    requires Inv(w, base, s) && Sound(w, s) && Enabled(w, s, move) && WorkerOf(move).Some?
    ensures var t := WorkerOf(move).value;
            && t in s.tasks && t in Apply(w, s, move).tasks
            && Grows(s.tasks[t].attempts, Apply(w, s, move).tasks[t].attempts)
  {
    hide Inv, WellFormed, Covers, Prompts.PromptFor, Prompts.Selectable, Verification, ShouldRetry;
    var t := WorkerOf(move).value;
    TaskFacts(w, base, s, t);
    if move.Report? {
      AnsweredOpen(w.tasks[t], base[t], s.tasks[t], s.futures[t]);
    }
  }

  /** While an attempt runs, its record has no outcome. */
  lemma AnsweredOpen(task: TaskDef, b: Record, r: Record, f: Phase)
    requires RecordInv(task, b, r, Some(f)) && f.Answered?
    ensures r.attempts != [] && r.attempts[|r.attempts| - 1].outcome == None
  {
  }

  lemma WorkerMonotone(w: Workflow, base: Tasks, s: Sched, move: Move)
    requires Inv(w, base, s) && Sound(w, s) && Enabled(w, s, move) && WorkerOf(move).Some?
    ensures Monotone(s, Apply(w, s, move))
  {
    hide Inv, Sound, WellFormed, RecordInv, Apply, Enabled;
    var t := WorkerOf(move).value;
    WorkerSteps(w, base, s, move);
    WorkerGrows(w, base, s, move);
    InFlightNotSuccessful(w, base, s, t);
    WorkerFlags(w, base, s, move);
  }

  lemma WorkerFlags(w: Workflow, base: Tasks, s: Sched, move: Move)
    requires Inv(w, base, s) && Sound(w, s) && Enabled(w, s, move) && WorkerOf(move).Some?
    ensures s.cancelRequested ==> Apply(w, s, move).cancelRequested
    ensures s.disk.cancelRequested ==> Apply(w, s, move).disk.cancelRequested
  {
    hide Inv, WellFormed, Covers, Prompts.PromptFor, Prompts.Selectable, Verification, ShouldRetry;
  }

  lemma SubmitMonotone(w: Workflow, s: Sched)
    requires s.point.Submitting? && s.point.queue != [] && s.point.queue[0] in w.tasks
    ensures Monotone(s, DoSubmit(w, s))
  {
    hide Monotone, ProviderLimit, Active;
    SameTasksMonotone(s, DoSubmit(w, s));
  }

  lemma MainMonotone(w: Workflow, base: Tasks, s: Sched, move: Move)
    requires Inv(w, base, s) && Sound(w, s) && Enabled(w, s, move)
    requires WorkerOf(move) == None && move != Relabel && move != Complete && move != Finalize
    ensures Monotone(s, Apply(w, s, move))
  {
    hide Inv, WellFormed, Covers, Monotone, DoMark, DoSubmit, DoComplete, DoFinalize,
         DoBegin, DoStart, DoCheck, DoAnswer, DoReport, DoJudge, DoWake;
    var s' := Apply(w, s, move);
    if move == Submit {
      QueueHead(w, base, s);
      SubmitMonotone(w, s);
      return;
    }
    assert s'.tasks == s.tasks && s'.futures == s.futures;
    SameTasksMonotone(s, s');
  }

  lemma SameTasksMonotone(s: Sched, s': Sched)
    requires s'.tasks == s.tasks && s.futures.Keys <= s'.futures.Keys
    requires (s.cancelEvent ==> s'.cancelEvent) && (s.cancelRequested ==> s'.cancelRequested)
    requires (s.disk.cancelRequested ==> s'.disk.cancelRequested) && (s.failureTriggered ==> s'.failureTriggered)
    ensures Monotone(s, s')
  {
  }

  lemma MarkMonotone(w: Workflow, base: Tasks, s: Sched)
    requires Inv(w, base, s)
    ensures Covers(w, s.tasks) && Monotone(s, DoMark(w, s))
  {
    hide Inv, WellFormed, Mark, ReadyTasks;
    CoversTasks(w, base, s);
    forall t | t in s.tasks
      ensures var r := Mark(w, s.tasks, s.failureTriggered)[t];
              && r.attempts == s.tasks[t].attempts
              && (s.tasks[t].state.Terminal() ==> r == s.tasks[t])
    {
      MarkEffect(w, s.tasks, s.failureTriggered, t);
    }
  }

  lemma CompleteMonotone(w: Workflow, base: Tasks, s: Sched)
    requires Inv(w, base, s) && Sound(w, s) && s.point.Draining? && s.point.done != []
    ensures Monotone(s, DoComplete(w, s))
  {
    hide Inv, WellFormed, RecordInv;
    DoneHead(w, base, s);
    DoneNotReady(w, base, s);
    InFlightNotSuccessful(w, base, s, s.point.done[0]);
    FailureFlagMeansFailFast(w, base, s);
  }

  lemma FailureFlagMeansFailFast(w: Workflow, base: Tasks, s: Sched)
    requires Inv(w, base, s)
    ensures s.failureTriggered ==> w.defaults.failurePolicy == FailFast
  {
    hide Covered, Records, Dependencies, Accounting, DiskInv;
  }

  lemma FinalizeMonotone(s: Sched)
    ensures Monotone(s, DoFinalize(s))
  {
    FinalShape(s);
    var s' := DoFinalize(s);
    assert s.cancelRequested || s.disk.cancelRequested ==> s'.cancelRequested;
    hide DoFinalize;
  }

  lemma StepMonotone(w: Workflow, base: Tasks, s: Sched, move: Move)
    requires Accepted(w) && Inv(w, base, s) && Sound(w, s) && Enabled(w, s, move)
    ensures Monotone(s, Apply(w, s, move))
  {
    hide Inv, Sound, WellFormed, Monotone, DoMark, DoComplete, DoFinalize;
    if WorkerOf(move).Some? {
      WorkerMonotone(w, base, s, move);
    } else if move == Relabel {
      MarkMonotone(w, base, s);
    } else if move == Complete {
      CompleteMonotone(w, base, s);
    } else if move == Finalize {
      FinalizeMonotone(s);
    } else {
      MainMonotone(w, base, s, move);
    }
  }

  // ---------------------------------------------------------------- runs

  /** A move that the state allows, and its effect. */
  ghost predicate Step(w: Workflow, s: Sched, move: Move, s': Sched) {
    Enabled(w, s, move) && (Sound(w, s) ==> s' == Apply(w, s, move))
  }

  datatype Run = Run(states: seq<Sched>, moves: seq<Move>)

  /** One life of a scheduler process, from its first write on: any interleaving of moves. */
  ghost predicate IsRun(w: Workflow, base: Tasks, disk: Persisted, r: Run) {
    && |r.states| == |r.moves| + 1
    && r.states[0] == InitialSched(base, disk)
    && forall i | 0 <= i < |r.moves| :: Step(w, r.states[i], r.moves[i], r.states[i + 1])
  }

  lemma {:induction false} RunInv(w: Workflow, base: Tasks, disk: Persisted, r: Run, i: nat)
    requires Accepted(w) && Covers(w, base) && Startable(base) && IsRun(w, base, disk, r) && i < |r.states|
    ensures Inv(w, base, r.states[i]) && Sound(w, r.states[i])
  {
    hide Inv, Sound, WellFormed, Startable;
    if i == 0 {
      InitialInv(w, base, disk);
    } else {
      RunInv(w, base, disk, r, i - 1);
      assert Step(w, r.states[i - 1], r.moves[i - 1], r.states[i]);
      KeepsInv(w, base, r.states[i - 1], r.moves[i - 1]);
    }
    InvIsSound(w, base, r.states[i]);
  }

  lemma RunStep(w: Workflow, base: Tasks, disk: Persisted, r: Run, i: nat)
    requires Accepted(w) && Covers(w, base) && Startable(base) && IsRun(w, base, disk, r) && i < |r.moves|
    ensures var s := r.states[i];
            && Inv(w, base, s) && Sound(w, s) && Enabled(w, s, r.moves[i])
            && r.states[i + 1] == Apply(w, s, r.moves[i])
  {
    hide Inv, Sound, WellFormed, Startable;
    RunInv(w, base, disk, r, i);
    assert Step(w, r.states[i], r.moves[i], r.states[i + 1]);
  }

  lemma {:induction false} RunMonotone(w: Workflow, base: Tasks, disk: Persisted, r: Run, i: nat, j: nat)
    requires Accepted(w) && Covers(w, base) && Startable(base) && IsRun(w, base, disk, r) && i <= j < |r.states|
    ensures Monotone(r.states[i], r.states[j])
    decreases j - i
  {
    hide Inv, Sound, WellFormed, Startable, IsRun, Apply, Enabled;
    if i == j {
    } else {
      assert j - 1 < |r.moves| by { RunLengths(w, base, disk, r); }
      RunMonotone(w, base, disk, r, i, j - 1);
      RunStep(w, base, disk, r, j - 1);
      StepMonotone(w, base, r.states[j - 1], r.moves[j - 1]);
      MonotoneTransitive(r.states[i], r.states[j - 1], r.states[j]);
    }
  }

  lemma RunLengths(w: Workflow, base: Tasks, disk: Persisted, r: Run)
    requires IsRun(w, base, disk, r)
    ensures |r.states| == |r.moves| + 1
  {
  }

  // ---------------------------------------------------------------- launch safety

  /** A submission takes a task that nothing has taken before. */
  lemma SubmissionTakes(w: Workflow, base: Tasks, s: Sched, move: Move, t: TaskId)
    requires Inv(w, base, s) && Sound(w, s) && Enabled(w, s, move) && Submits(w, s, move) == Some(t)
    ensures t in s.tasks && !Taken(s, t) && AllSucceeded(w, s.tasks, t)
    ensures t in Apply(w, s, move).tasks && Taken(Apply(w, s, move), t)
    ensures !s.failureTriggered && !s.cancelEvent
  {
    hide Inv, WellFormed, Covers;
    QueueHead(w, base, s);
    FailureEmptiesQueue(w, base, s);
  }

  lemma FailureEmptiesQueue(w: Workflow, base: Tasks, s: Sched)
    requires Inv(w, base, s) && s.point.Submitting?
    ensures s.failureTriggered ==> s.point.queue == []
  {
    hide Covered, Records, Dependencies, Accounting, DiskInv;
  }

  /** No task is submitted twice in a run. */
  lemma SubmittedOnce(w: Workflow, base: Tasks, disk: Persisted, r: Run, i: nat, j: nat, t: TaskId)
    requires Accepted(w) && Covers(w, base) && Startable(base) && IsRun(w, base, disk, r)
    requires i < j < |r.moves| && Submits(w, r.states[i], r.moves[i]) == Some(t)
    ensures Submits(w, r.states[j], r.moves[j]) != Some(t)
  {
    hide Inv, Sound, WellFormed, Startable, IsRun, Apply, Enabled, Submits;
    RunLengths(w, base, disk, r);
    RunStep(w, base, disk, r, i);
    SubmissionTakes(w, base, r.states[i], r.moves[i], t);
    RunMonotone(w, base, disk, r, i + 1, j);
    RunStep(w, base, disk, r, j);
    if Submits(w, r.states[j], r.moves[j]) == Some(t) {
      SubmissionTakes(w, base, r.states[j], r.moves[j], t);
    }
  }

  /** A task is submitted only when all its dependencies have succeeded, and from then on to the end
    * of the run each of them keeps that very record. */
  lemma LaunchedAfterDependencies(w: Workflow, base: Tasks, disk: Persisted, r: Run, i: nat, j: nat, t: TaskId, d: TaskId)
    requires Accepted(w) && Covers(w, base) && Startable(base) && IsRun(w, base, disk, r)
    requires i < |r.moves| && i <= j < |r.states| && Submits(w, r.states[i], r.moves[i]) == Some(t)
    requires t in w.tasks && d in w.tasks[t].dependsOn
    ensures d in r.states[i].tasks && d in r.states[j].tasks
    ensures r.states[i].tasks[d].state.Success() && r.states[j].tasks[d] == r.states[i].tasks[d]
  {
    hide Inv, Sound, WellFormed, Startable, IsRun, Apply, Enabled, Submits;
    RunStep(w, base, disk, r, i);
    SubmissionTakes(w, base, r.states[i], r.moves[i], t);
    CoversTasks(w, base, r.states[i]);
    DependenciesCovered(w, r.states[i].tasks, t);
    RunMonotone(w, base, disk, r, i, j);
  }

  lemma FailingCompletionTrips(w: Workflow, base: Tasks, s: Sched)
    requires Inv(w, base, s) && Sound(w, s) && s.point.Draining? && s.point.done != []
    requires w.defaults.failurePolicy == FailFast
    ensures Enabled(w, s, Complete)
    ensures var s' := Apply(w, s, Complete);
            && s.point.done[0] in s'.tasks
            && (s'.tasks[s.point.done[0]].state in {Failed, TimedOut, Cancelled, VerificationFailed} ==> s'.failureTriggered)
  {
    hide Inv, WellFormed;
    DoneHead(w, base, s);
  }

  /** Under fail-fast, once a failing completion has been processed nothing is submitted any more. */
  lemma FailFastStopsSubmission(w: Workflow, base: Tasks, disk: Persisted, r: Run, i: nat, j: nat)
    requires Accepted(w) && Covers(w, base) && Startable(base) && IsRun(w, base, disk, r)
    requires w.defaults.failurePolicy == FailFast && i < j < |r.moves|
    requires r.moves[i] == Complete && r.states[i].point.Draining? && r.states[i].point.done != []
    requires var t := r.states[i].point.done[0];
             t in r.states[i + 1].tasks && r.states[i + 1].tasks[t].state in {Failed, TimedOut, Cancelled, VerificationFailed}
    ensures Submits(w, r.states[j], r.moves[j]) == None
  {
    hide Inv, Sound, WellFormed, Startable, IsRun, Apply, Enabled, Submits;
    RunLengths(w, base, disk, r);
    RunStep(w, base, disk, r, i);
    FailingCompletionTrips(w, base, r.states[i]);
    RunMonotone(w, base, disk, r, i + 1, j);
    RunStep(w, base, disk, r, j);
    if t :| Submits(w, r.states[j], r.moves[j]) == Some(t) {
      SubmissionTakes(w, base, r.states[j], r.moves[j], t);
    }
  }
}
