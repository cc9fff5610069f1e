/** `run_workflow`, `resume_workflow` and `cancel_workflow` on one state file: each call goes on with the
  * life of the workflow, so what is proved about lives is about the files that these calls leave. */
module WorkflowLife {
  import opened Workflows
  import opened RunState
  import opened Scheduler
  import opened SchedulerSteps
  import opened SchedulerRuns
  import opened SchedulerProcess
  import opened SchedulerDriver
  import opened Persistence
  import Controller

  ghost function Now(h: History): World
    requires |h.worlds| > 0
  {
    h.worlds[|h.worlds| - 1]
  }

  /** A life that has led to this file, with no process running. */
  ghost predicate LeadsTo(w: Workflow, h: History, file: Controller.StateFile)
    reads file
  {
    IsHistory(w, h) && file.contents.Some? && Now(h) == Idle(file.contents.value)
  }

  lemma LongerHistory(w: Workflow, h: History, move: WorldMove, y: World) returns (longer: History)
    requires IsHistory(w, h) && WorldStep(w, Now(h), move, y)
    ensures IsHistory(w, longer) && h.worlds <= longer.worlds && Now(longer) == y
  {
    hide WorldStep, FreshTasks;
    longer := History(h.worlds + [y], h.moves + [move]);
    forall i | 0 <= i < |longer.moves| ensures WorldStep(w, longer.worlds[i], longer.moves[i], longer.worlds[i + 1]) {
      if i < |h.moves| {
        assert WorldStep(w, h.worlds[i], h.moves[i], h.worlds[i + 1]);
      }
    }
  }

  /** The steps of a run are steps of the life. */
  lemma {:induction false} HistoryOfRun(w: Workflow, h: History, base: Tasks, disk: Persisted, r: Run, n: nat) returns (longer: History)
    requires IsHistory(w, h) && IsRun(w, base, disk, r) && Now(h) == Alive(base, InitialSched(base, disk)) && n < |r.states|
    ensures IsHistory(w, longer) && h.worlds <= longer.worlds && Now(longer) == Alive(base, r.states[n])
  {
    hide IsHistory, InitialSched;
    if n == 0 {
      longer := h;
    } else {
      longer := HistoryOfRun(w, h, base, disk, r, n - 1);
      var before := longer;
      assert Step(w, r.states[n - 1], r.moves[n - 1], r.states[n - 1 + 1]);
      longer := LongerHistory(w, before, Own(r.moves[n - 1]), Alive(base, r.states[n]));
    }
  }

  // ---------------------------------------------------------------- one process

  /** From a new process on, the state machine runs to its end and leaves. */
  method RunStateMachine(w: Workflow, p: Process, course: Course, ghost h: History, ghost base: Tasks, ghost disk: Persisted)
    returns (ghost longer: History)
    requires Accepted(w) && Covers(w, base) && Startable(base) && Proper(w, course) && p.w == w
    requires p.Valid() && p.View() == InitialSched(base, disk) && IsHistory(w, h) && Now(h) == Alive(base, p.View())
    modifies p, p.controller.state, p.controller.file
    ensures LeadsTo(w, longer, p.controller.file) && h.worlds <= longer.worlds
    ensures Ended(w, p.controller.file)
  {
    hide IsHistory, InitialSched, Covers, Startable, Proper;
    ghost var r := Drive(p, course, base, disk);
    longer := HistoryOfRun(w, h, base, disk, r, |r.states| - 1);
    longer := LongerHistory(w, longer, Leave, Idle(p.View().disk));
  }

  /** Every task is terminal, and the status says how the run went. */
  predicate Ended(w: Workflow, file: Controller.StateFile)
    reads file
  {
    && file.contents.Some?
    && var c := file.contents.value;
    && (forall t | t in c.tasks :: c.tasks[t].state.Terminal())
    && (c.status == RunSucceeded || c.status == RunFailed || c.status == RunCancelled)
    && (c.status == RunSucceeded ==> forall t | t in c.tasks :: c.tasks[t].state in {Succeeded, Verified})
    && (c.status == RunFailed ==> exists t | t in c.tasks :: c.tasks[t].state !in {Succeeded, Verified})
  }

  lemma FreshIsResumed(w: Workflow)
    requires WellFormed(w)
    ensures ResumeTasks(FreshTasks(w)) == FreshTasks(w) && Covers(w, FreshTasks(w)) && Startable(FreshTasks(w))
    ensures CanResume(w, Persisted(FreshTasks(w), false, Created))
  {
  }

  /** `run_workflow`, from the first state file on. */
  method RunWorkflow(w: Workflow, file: Controller.StateFile, course: Course) returns (ghost h: History)
    requires Accepted(w) && Proper(w, course) && file.contents.None?
    modifies file
    ensures LeadsTo(w, h, file) && Ended(w, file)
  {
    hide WellFormed, Startable, Proper, Covers, ResumeTasks, FreshTasks;
    FreshIsResumed(w);
    var state := new WorkflowState(Persisted(FreshTasks(w), false, Created));
    var controller := new Controller.StateController(file, state);
    controller.Write();
    ghost var disk := file.contents.value;
    h := History([Idle(disk)], []);
    var p := new Process(w, controller);
    h := LongerHistory(w, h, Resume, Alive(FreshTasks(w), p.View()));
    h := RunStateMachine(w, p, course, h, FreshTasks(w), disk);
  }

  /** `resume_workflow` up to its write: the checks of the task map, and what becomes of the records. */
  method WriteResumed(w: Workflow, file: Controller.StateFile) returns (controller: Controller.StateController?)
    requires WellFormed(w) && file.contents.Some?
    modifies file
    ensures controller != null <==> CanResume(w, old(file.contents.value))
    ensures controller == null ==> file.contents == old(file.contents)
    ensures controller != null ==>
              && controller.file == file && fresh(controller) && fresh(controller.state)
              && controller.state.tasks == ResumeTasks(old(file.contents.value).tasks)
              && file.contents == Some(Persisted(ResumeTasks(old(file.contents.value).tasks),
                                                 old(file.contents.value).cancelRequested, Created))
  {
    var contents := file.contents.value;
    if contents.tasks.Keys != w.tasks.Keys {
      return null;
    }
    var state := new WorkflowState(contents);
    var ok := ResumeRecords(state, w.order);
    if !ok {
      return null;
    }
    state.status, state.cancelRequested := Created, false;
    controller := new Controller.StateController(file, state);
    controller.Write();
  }

  /** `resume_workflow` on any file that a life has led to: it is never refused for its task map, and the
    * life goes on to an end, with every success and every attempt kept. */
  method ResumeWorkflow(w: Workflow, file: Controller.StateFile, course: Course, ghost h: History) returns (ghost longer: History)
    requires Accepted(w) && Proper(w, course) && LeadsTo(w, h, file)
    modifies file
    ensures LeadsTo(w, longer, file) && h.worlds <= longer.worlds && Ended(w, file)
    ensures Advances(old(file.contents.value), file.contents.value)
  {
    assert |h.worlds| > 0;
    hide WellFormed, Startable, Proper, Covers, ResumeTasks, CanResume, IsHistory, Advances;
    ghost var disk := file.contents.value;
    ghost var base := ResumeTasks(disk.tasks);
    ResumeAccepts(w, h, |h.worlds| - 1);
    var controller := WriteResumed(w, file);
    var p := new Process(w, controller);
    SameStart(base, disk, file.contents.value);
    longer := LongerHistory(w, h, Resume, Alive(base, p.View()));
    longer := RunStateMachine(w, p, course, longer, base, disk);
    KeptSince(w, h, longer);
  }

  lemma KeptSince(w: Workflow, h: History, longer: History)
    requires Accepted(w) && IsHistory(w, longer) && 0 < |h.worlds| && h.worlds <= longer.worlds
    ensures |longer.worlds| > 0 && Advances(Now(h).Disk(), Now(longer).Disk())
  {
    ProgressIsKept(w, longer, |h.worlds| - 1, |longer.worlds| - 1);
  }

  /** Of the file a new process takes no more than the flag. */
  lemma SameStart(base: Tasks, a: Persisted, b: Persisted)
    requires a.cancelRequested == b.cancelRequested
    ensures InitialSched(base, a) == InitialSched(base, b)
  {
  }

  /** A resume that dies before it takes the lease. */
  method AbandonedResume(w: Workflow, file: Controller.StateFile, ghost h: History) returns (ghost longer: History)
    requires Accepted(w) && LeadsTo(w, h, file)
    modifies file
    ensures LeadsTo(w, longer, file) && h.worlds <= longer.worlds
  {
    assert |h.worlds| > 0;
    hide WellFormed, Startable, Covers, ResumeTasks, CanResume, IsHistory;
    ghost var disk := file.contents.value;
    ResumeAccepts(w, h, |h.worlds| - 1);
    var controller := WriteResumed(w, file);
    longer := LongerHistory(w, h, AbortedResume, Idle(file.contents.value));
  }

  /** `cancel_workflow` with no scheduler running. */
  method CancelStopped(w: Workflow, file: Controller.StateFile, ghost h: History) returns (ghost longer: History)
    requires LeadsTo(w, h, file)
    modifies file
    ensures LeadsTo(w, longer, file) && h.worlds <= longer.worlds
    ensures file.Flag() <==> old(file.Flag()) || old(file.contents.value).status !in {RunSucceeded, RunFailed, RunCancelled}
  {
    hide IsHistory;
    var signal := Controller.CancelWorkflow(file, false);
    longer := LongerHistory(w, h, CancelIdle, Idle(file.contents.value));
  }
}
