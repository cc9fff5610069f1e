/** A workflow across process lives: runs, crashes, cancels and resumes that do not overlap. */
module Persistence {
  import opened Workflows
  import opened RunState
  import opened DependencyStates
  import opened Scheduler
  import opened SchedulerInvariant
  import opened SchedulerSteps
  import opened SchedulerRuns
  import opened SchedulerTheorems

  // ---------------------------------------------------------------- resume

  /** What resume makes of one persisted record. */
  function ResumeRecord(r: Record): Record {
    if r.state.Success() then r
    else if r.state == Running then r.(state := Cancelled)
    else r.(state := Pending)
  }

  function ResumeTasks(m: Tasks): Tasks {
    map t | t in m :: ResumeRecord(m[t])
  }

  /** The checks of resume that concern the task map; the ones about files are left to the move. */
  predicate CanResume(w: Workflow, disk: Persisted) {
    && disk.tasks.Keys == w.tasks.Keys
    && forall t | t in disk.tasks :: disk.tasks[t].state.Success() ==> disk.tasks[t].attempts != []
  }

  /** The loop over the persisted records, as the method runs it. */
  method ResumeRecords(state: WorkflowState, order: seq<TaskId>) returns (ok: bool)
    requires Distinct(order) && forall t :: t in order <==> t in state.tasks
    modifies state`tasks
    ensures ok <==> forall t | t in old(state.tasks) :: old(state.tasks)[t].state.Success() ==> old(state.tasks)[t].attempts != []
    ensures ok ==> state.tasks == ResumeTasks(old(state.tasks))
    ensures ok ==> state.tasks.Keys == old(state.tasks).Keys
    ensures ok ==> forall t | t in state.tasks ::
              var was := old(state.tasks)[t];
              state.tasks[t] == if was.state in {Succeeded, Verified} then was
                                else Record(if was.state == Running then Cancelled else Pending, was.attempts)
  {
    ghost var m := state.tasks;
    for i := 0 to |order|
      invariant state.tasks.Keys == m.Keys
      invariant forall k | 0 <= k < i :: state.tasks[order[k]] == ResumeRecord(m[order[k]])
      invariant forall k | i <= k < |order| :: state.tasks[order[k]] == m[order[k]]
      invariant forall k | 0 <= k < i :: m[order[k]].state.Success() ==> m[order[k]].attempts != []
    {
      var record := state.tasks[order[i]];
      if record.state.Success() {
        if record.attempts == [] {
          return false;
        }
      } else if record.state == Running {
        state.tasks := state.tasks[order[i] := record.(state := Cancelled)];
      } else if record.state.Failure() || record.state.Open() {
        state.tasks := state.tasks[order[i] := record.(state := Pending)];
      }
    }
    ok := true;
    forall t | t in m
      ensures state.tasks[t] == ResumeRecord(m[t])
      ensures m[t].state.Success() ==> m[t].attempts != []
    {
      var k :| 0 <= k < |order| && order[k] == t;
    }
  }

  // ---------------------------------------------------------------- worlds

  /** Either no process runs the workflow, or one does. `base` remembers the records that the
    * running process began with. */
  datatype World = Idle(disk: Persisted) | Alive(base: Tasks, sched: Sched) {
    function Disk(): Persisted {
      if Idle? then disk else sched.disk
    }
  }

  datatype WorldMove =
    | Resume            // run or resume takes the lease
    | AbortedResume     // resume wrote the state and died before taking the lease
    | CancelIdle        // `cancel_workflow` with no live scheduler
    | Own(move: Move)   // a step of the live scheduler, or a cancel or signal that reaches it
    | Crash             // the process dies at any point
    | Leave             // the process ends after its last write

  /** The first file of a workflow. */
  function FreshTasks(w: Workflow): Tasks {
    map t | t in w.tasks :: Record(Pending, [])
  }

  predicate WorldEnabled(w: Workflow, x: World, move: WorldMove) {
    match move
    case Resume => x.Idle? && CanResume(w, x.disk)
    case AbortedResume => x.Idle? && CanResume(w, x.disk)
    case CancelIdle => x.Idle?
    case Own(m) => x.Alive? && Enabled(w, x.sched, m)
    case Crash => x.Alive?
    case Leave => x.Alive? && (x.sched.point == Exited || x.sched.point == NoProgress)
  }

  ghost predicate WorldStep(w: Workflow, x: World, move: WorldMove, y: World) {
    && WorldEnabled(w, x, move)
    && match move
       case Resume => y == Alive(ResumeTasks(x.disk.tasks), InitialSched(ResumeTasks(x.disk.tasks), x.disk))
       case AbortedResume => y == Idle(Persisted(ResumeTasks(x.disk.tasks), x.disk.cancelRequested, Created))
       case CancelIdle => y == if x.disk.status.Terminal() then x else Idle(x.disk.(cancelRequested := true))
       case Own(m) => y.Alive? && y.base == x.base && Step(w, x.sched, m, y.sched)
       case Crash => y == Idle(x.sched.disk)
       case Leave => y == Idle(x.sched.disk)
  }

  datatype History = History(worlds: seq<World>, moves: seq<WorldMove>)

  /** A life of a workflow from its first state file on. */
  ghost predicate IsHistory(w: Workflow, h: History) {
    && |h.worlds| == |h.moves| + 1
    && h.worlds[0] == Idle(Persisted(FreshTasks(w), false, Created))
    && forall i | 0 <= i < |h.moves| :: WorldStep(w, h.worlds[i], h.moves[i], h.worlds[i + 1])
  }

  // ---------------------------------------------------------------- invariant

  predicate RecordsOk(m: Tasks) {
    forall t | t in m ::
      && Numbered(m[t].attempts)
      && (m[t].state.Success() ==> LastSucceeded(m[t].attempts))
  }

  ghost predicate WorldInv(w: Workflow, x: World) {
    match x
    case Idle(disk) => Covers(w, disk.tasks) && RecordsOk(disk.tasks)
    case Alive(base, s) => Startable(base) && RecordsOk(base) && Inv(w, base, s)
  }

  lemma ResumeIsStartable(w: Workflow, m: Tasks)
    requires Covers(w, m) && RecordsOk(m)
    ensures Covers(w, ResumeTasks(m)) && RecordsOk(ResumeTasks(m)) && Startable(ResumeTasks(m))
    ensures forall t | t in m :: ResumeTasks(m)[t].state != Running && ResumeTasks(m)[t].state != Ready
  {
    hide WellFormed, Numbered, LastSucceeded;
  }

  lemma HistoryNumbered(task: TaskDef, b: seq<Attempt>, h: seq<Attempt>)
    requires HistoryOk(task, b, h) && Numbered(b)
    ensures Numbered(h)
  {
    forall i | 0 <= i < |h| ensures h[i].number == i + 1 {
      if i < |b| {
        assert h[i] == b[i];
      }
    }
  }

  /** What is on disk while a process is alive is a consistent state file at all times. */
  lemma AliveDiskOk(w: Workflow, base: Tasks, s: Sched)
    requires RecordsOk(base) && Inv(w, base, s)
    ensures Covers(w, s.disk.tasks) && RecordsOk(s.disk.tasks) && Covers(w, s.tasks)
    ensures forall t | t in s.tasks :: t in s.disk.tasks && Persists(s.disk.tasks[t], s.tasks[t])
  {
    hide Inv, WellFormed, HistoryOk, Numbered, LastSucceeded, PhaseInv;
    Parts(w, base, s);
    forall t | t in s.disk.tasks
      ensures Numbered(s.disk.tasks[t].attempts)
      ensures s.disk.tasks[t].state.Success() ==> LastSucceeded(s.disk.tasks[t].attempts)
    {
      assert RecordInv(w.tasks[t], base[t], s.tasks[t], PhaseOf(s, t));
      assert Persists(s.disk.tasks[t], s.tasks[t]);
      HistoryNumbered(w.tasks[t], base[t].attempts, s.tasks[t].attempts);
    }
    hide Records, Dependencies, Accounting, PointInv;
  }

  lemma {:induction false} WorldKeepsInv(w: Workflow, x: World, move: WorldMove, y: World)
    requires Accepted(w) && WorldInv(w, x) && WorldStep(w, x, move, y)
    ensures WorldInv(w, y)
  {
    hide Inv, WellFormed, RecordsOk, Startable, Enabled, Sound, Apply, InitialSched, ResumeTasks, Covers;
    match move
    case Resume =>
      ResumeIsStartable(w, x.disk.tasks);
      InitialInv(w, ResumeTasks(x.disk.tasks), x.disk);
    case AbortedResume => ResumeIsStartable(w, x.disk.tasks);
    case CancelIdle =>
    case Own(m) =>
      InvIsSound(w, x.base, x.sched);
      KeepsInv(w, x.base, x.sched, m);
    case Crash => AliveDiskOk(w, x.base, x.sched);
    case Leave => AliveDiskOk(w, x.base, x.sched);
  }

  lemma {:induction false} HistoryInv(w: Workflow, h: History, i: nat)
    requires Accepted(w) && IsHistory(w, h) && i < |h.worlds|
    ensures WorldInv(w, h.worlds[i])
  {
    hide WorldInv, WorldStep, FreshTasks;
    if i == 0 {
      FreshOk(w);
    } else {
      HistoryInv(w, h, i - 1);
      WorldKeepsInv(w, h.worlds[i - 1], h.moves[i - 1], h.worlds[i]);
    }
  }

  lemma FreshOk(w: Workflow)
    requires WellFormed(w)
    ensures WorldInv(w, Idle(Persisted(FreshTasks(w), false, Created)))
  {
    hide WellFormed;
  }

  // ---------------------------------------------------------------- progress on disk

  /** What no step takes back from the state file. */
  ghost predicate Advances(d: Persisted, e: Persisted) {
    && e.tasks.Keys == d.tasks.Keys
    && (forall t | t in d.tasks :: d.tasks[t].state.Success() ==> e.tasks[t] == d.tasks[t])
    && (forall t | t in d.tasks :: Grows(d.tasks[t].attempts, e.tasks[t].attempts))
    && (d.cancelRequested ==> e.cancelRequested)
  }

  lemma AdvancesTransitive(a: Persisted, b: Persisted, c: Persisted)
    requires Advances(a, b) && Advances(b, c)
    ensures Advances(a, c)
  {
    forall t | t in a.tasks ensures Grows(a.tasks[t].attempts, c.tasks[t].attempts) {
      assert Grows(a.tasks[t].attempts, b.tasks[t].attempts) && Grows(b.tasks[t].attempts, c.tasks[t].attempts);
    }
  }

  lemma OwnStepAdvances(w: Workflow, base: Tasks, s: Sched, move: Move)
    requires Accepted(w) && RecordsOk(base) && Inv(w, base, s) && Sound(w, s) && Enabled(w, s, move)
    ensures Advances(s.disk, Apply(w, s, move).disk)
  {
    hide Inv, WellFormed, Sound, Enabled, Apply, RecordsOk, Covers, Monotone, Persists, Advances;
    var s' := Apply(w, s, move);
    StepMonotone(w, base, s, move);
    KeepsInv(w, base, s, move);
    AliveDiskOk(w, base, s);
    AliveDiskOk(w, base, s');
    SameKeys(w, base, s);
    SameKeys(w, base, s');
    MonotoneOnDisk(s, s');
  }

  /** What memory does not take back, a state file that lags behind by labels does not either. */
  lemma MonotoneOnDisk(s: Sched, s': Sched)
    requires Monotone(s, s') && s.disk.tasks.Keys == s.tasks.Keys && s'.disk.tasks.Keys == s'.tasks.Keys
    requires forall t | t in s.tasks :: Persists(s.disk.tasks[t], s.tasks[t])
    requires forall t | t in s'.tasks :: Persists(s'.disk.tasks[t], s'.tasks[t])
    ensures Advances(s.disk, s'.disk)
  {
    hide Grows;
  }

  lemma ResumeAdvances(m: Tasks, disk: Persisted, status: WorkflowStatus)
    requires disk.tasks == m
    ensures Advances(disk, Persisted(ResumeTasks(m), disk.cancelRequested, status))
    ensures Advances(disk, InitialSched(ResumeTasks(m), disk).disk)
  {
  }

  lemma StepAdvances(w: Workflow, x: World, move: WorldMove, y: World)
    requires Accepted(w) && WorldInv(w, x) && WorldStep(w, x, move, y)
    ensures Advances(x.Disk(), y.Disk())
  {
    hide Inv, WellFormed, RecordsOk, Startable, Enabled, Sound, Apply, InitialSched, ResumeTasks, Covers;
    match move
    case Resume => ResumeAdvances(x.disk.tasks, x.disk, Created);
    case AbortedResume => ResumeAdvances(x.disk.tasks, x.disk, Created);
    case CancelIdle =>
    case Own(m) =>
      InvIsSound(w, x.base, x.sched);
      OwnStepAdvances(w, x.base, x.sched, m);
    case Crash =>
    case Leave =>
  }

  /** Monotone progress: over any sequence of runs, crashes, cancels and resumes, a task that the
    * state file once shows as successful keeps that very record, every attempt history only grows,
    * and a recorded cancellation is never lost. */
  lemma {:induction false} ProgressIsKept(w: Workflow, h: History, i: nat, j: nat)
    requires Accepted(w) && IsHistory(w, h) && i <= j < |h.worlds|
    ensures Advances(h.worlds[i].Disk(), h.worlds[j].Disk())
    decreases j - i
  {
    hide WorldInv, WorldStep, Advances;
    if i == j {
      AdvancesReflexive(h.worlds[i].Disk());
    } else {
      ProgressIsKept(w, h, i, j - 1);
      HistoryInv(w, h, j - 1);
      StepAdvances(w, h.worlds[j - 1], h.moves[j - 1], h.worlds[j]);
      AdvancesTransitive(h.worlds[i].Disk(), h.worlds[j - 1].Disk(), h.worlds[j].Disk());
    }
  }

  lemma AdvancesReflexive(d: Persisted)
    ensures Advances(d, d)
  {
  }

  /** Every state file of a workflow's life numbers each task's attempts 1 to n in order, and shows a
    * task as successful only with a last attempt that succeeded with exit code 0. */
  lemma StateFilesConsistent(w: Workflow, h: History, i: nat, t: TaskId)
    requires Accepted(w) && IsHistory(w, h) && i < |h.worlds| && t in w.tasks
    ensures var d := h.worlds[i].Disk();
            && t in d.tasks && Numbered(d.tasks[t].attempts)
            && (d.tasks[t].state.Success() ==> LastSucceeded(d.tasks[t].attempts))
  {
    hide WellFormed, Inv, Startable, Numbered, LastSucceeded;
    HistoryInv(w, h, i);
    var x := h.worlds[i];
    if x.Alive? {
      AliveDiskOk(w, x.base, x.sched);
    }
  }

  /** Resume never refuses for a missing attempt: every state file passes its check of the task map.
    * And it begins with no task running or ready. */
  lemma {:induction false} ResumeAccepts(w: Workflow, h: History, i: nat)
    requires Accepted(w) && IsHistory(w, h) && i < |h.worlds| && h.worlds[i].Idle?
    ensures CanResume(w, h.worlds[i].disk)
    ensures var base := ResumeTasks(h.worlds[i].disk.tasks);
            Covers(w, base) && Startable(base) && forall t | t in base :: base[t].state != Running && base[t].state != Ready
  {
    hide WellFormed, Inv, Startable, Numbered;
    HistoryInv(w, h, i);
    ResumeIsStartable(w, h.worlds[i].disk.tasks);
  }

  /** A task is eligible again after resume exactly if it had neither succeeded nor been found
    * running; one that was found running is cancelled and not submitted in that run. */
  lemma ResumeEligibility(w: Workflow, disk: Persisted, t: TaskId, r: Run, i: nat)
    requires Accepted(w) && Covers(w, disk.tasks) && RecordsOk(disk.tasks) && t in disk.tasks
    requires IsRun(w, ResumeTasks(disk.tasks), disk, r) && i < |r.moves|
    ensures ResumeTasks(disk.tasks)[t].state == Pending <==> !disk.tasks[t].state.Success() && disk.tasks[t].state != Running
    ensures ResumeTasks(disk.tasks)[t].state == Cancelled <==> disk.tasks[t].state == Running
    ensures disk.tasks[t].state.Success() || disk.tasks[t].state == Running ==> Submits(w, r.states[i], r.moves[i]) != Some(t)
  {
    hide WellFormed, Inv, Startable, RecordsOk, IsRun, Submits, Sound, Enabled, Apply;
    var base := ResumeTasks(disk.tasks);
    ResumeIsStartable(w, disk.tasks);
    RunLengths(w, base, disk, r);
    RunMonotone(w, base, disk, r, 0, i);
    RunStep(w, base, disk, r, i);
    StartTasks(w, base, disk, r);
    if Submits(w, r.states[i], r.moves[i]) == Some(t) {
      SubmissionTakes(w, base, r.states[i], r.moves[i], t);
    }
  }

  lemma StartTasks(w: Workflow, base: Tasks, disk: Persisted, r: Run)
    requires IsRun(w, base, disk, r)
    ensures r.states != [] && r.states[0].tasks == base
  {
  }
}
