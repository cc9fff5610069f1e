/** Under the `continue` policy the outcome of a workflow does not depend on the schedule. */
module ScheduleIndependence {
  import opened Workflows
  import opened RunState
  import opened DependencyStates
  import opened Scheduler
  import opened SchedulerInvariant
  import opened SchedulerSteps
  import opened SchedulerRuns
  import opened SchedulerTheorems

  // ---------------------------------------------------------------- the declarative result

  /** The final states: a settled task keeps its state, any other has its own outcome if all its
    * dependencies succeed, and is blocked otherwise. */
  ghost predicate IsResult(w: Workflow, base: Tasks, out: TaskId -> TaskState, e: map<TaskId, TaskState>) {
    && Covers(w, base) && e.Keys == base.Keys
    && forall t | t in base ::
         e[t] == if base[t].state.Terminal() then base[t].state
                 else if forall d | d in w.tasks[t].dependsOn :: d in e && e[d].Success() then out(t)
                 else Blocked
  }

  lemma {:induction false} ResultAgrees(w: Workflow, v: Workflow, rank: map<TaskId, nat>, base: Tasks, out: TaskId -> TaskState,
                                        e: map<TaskId, TaskState>, f: map<TaskId, TaskState>, t: TaskId)
    requires v.tasks == w.tasks && Ranks(DependencyGraph(w.tasks), rank)
    requires IsResult(w, base, out, e) && IsResult(v, base, out, f) && t in base
    ensures e[t] == f[t]
    decreases if t in rank then rank[t] + 1 else 0
  {
    hide WellFormed;
    forall d | d in w.tasks[t].dependsOn ensures d in e && d in f && e[d] == f[d] {
      DependencyEdge(w.tasks, t, d);
      DependenciesCovered(w, base, t);
      ResultAgrees(w, v, rank, base, out, e, f, d);
    }
  }

  // ---------------------------------------------------------------- the invariant

  /** A task that is settled has the state the declarative result gives it. */
  ghost predicate Right(w: Workflow, out: TaskId -> TaskState, m: Tasks, t: TaskId)
    requires Covers(w, m) && t in m
  {
    || (m[t].state == out(t) && AllSucceeded(w, m, t))
    || (m[t].state == Blocked && AnyFailed(w, m, t))
  }

  ghost predicate OnCourse(w: Workflow, base: Tasks, out: TaskId -> TaskState, s: Sched) {
    && Covers(w, s.tasks) && Covers(w, base)
    && forall t | t in s.tasks ::
         && (base[t].state.Terminal() ==> s.tasks[t].state == base[t].state && t !in s.futures)
         && (s.tasks[t].state.Failure() ==> t !in s.futures)
         && (!base[t].state.Terminal() && s.tasks[t].state.Terminal() && t !in s.futures ==> Right(w, out, s.tasks, t))
  }

  /** Failed and succeeded tasks that are not in flight keep their state. */
  ghost predicate Keeps(m: Tasks, m': Tasks) {
    && m'.Keys == m.Keys
    && forall t | t in m && m[t].state.Terminal() :: m'[t].state == m[t].state
  }

  lemma RightKept(w: Workflow, out: TaskId -> TaskState, m: Tasks, m': Tasks, t: TaskId)
    requires Covers(w, m) && Covers(w, m') && t in m && Right(w, out, m, t) && Keeps(m, m')
    requires m[t].state.Terminal()
    ensures Right(w, out, m', t)
  {
    DependenciesCovered(w, m, t);
    hide WellFormed;
  }

  lemma WorkerOnCourse(w: Workflow, base: Tasks, out: TaskId -> TaskState, s: Sched, s': Sched, t: TaskId)
    requires Inv(w, base, s) && OnCourse(w, base, out, s) && WorkerStep(w, base, s, s', t)
    requires Covers(w, s'.tasks)
    ensures OnCourse(w, base, out, s')
  {
    hide Inv, WellFormed, RecordInv, Right, WritesOrKeeps, Covers;
    SameKeys(w, base, s);
    InFlightNotSuccessful(w, base, s, t);
    InFlightState(w.tasks[t], base[t], s'.tasks[t], s'.futures[t]);
    assert Keeps(s.tasks, s'.tasks);
    forall u | u in s.tasks && !base[u].state.Terminal() && s'.tasks[u].state.Terminal() && u !in s'.futures
      ensures Right(w, out, s'.tasks, u)
    {
      RightKept(w, out, s.tasks, s'.tasks, u);
    }
  }

  lemma InFlightState(task: TaskDef, b: Record, r: Record, p: Phase)
    requires RecordInv(task, b, r, Some(p))
    ensures r.state in {Ready, Skipped, Running}
  {
    hide HistoryOk;
  }

  lemma BlockedHasFailedDependency(w: Workflow, m: Tasks, t: TaskId)
    requires Covers(w, m) && t in m && m[t].state.Open() && Mark(w, m, false)[t].state == Blocked
    ensures AnyFailed(w, Mark(w, m, false), t)
  {
    hide WellFormed, Mark;
    MarkComputesLabels(w, m);
    assert ReachesFailure(w, m, t);
    var p :| FailingChain(w, m, p) && p[0] == t;
    ChainSecond(w, m, p);
    assert Labels(w, m)[p[1]].state.Failure();
  }

  lemma ChainSecond(w: Workflow, m: Tasks, p: seq<TaskId>)
    requires Covers(w, m) && FailingChain(w, m, p)
    ensures |p| > 1 && p[1] in m && p[1] in w.tasks[p[0]].dependsOn
    ensures m[p[1]].state.Failure() || (m[p[1]].state.Open() && ReachesFailure(w, m, p[1]))
  {
    hide WellFormed;
    if |p| > 2 {
      ChainTail(w, m, p);
    }
  }

  lemma MarkOnCourse(w: Workflow, base: Tasks, out: TaskId -> TaskState, s: Sched)
    requires Inv(w, base, s) && OnCourse(w, base, out, s) && !s.failureTriggered
    ensures OnCourse(w, base, out, DoMark(w, s))
  {
    hide Inv, WellFormed, Mark, ReadyTasks, Right;
    SameKeys(w, base, s);
    var s' := DoMark(w, s);
    forall t | t in s.tasks ensures s.tasks[t].state.Terminal() ==> s'.tasks[t] == s.tasks[t]
                            ensures s'.tasks[t].state in {s.tasks[t].state, Ready, Blocked, Skipped} {
      MarkEffect(w, s.tasks, false, t);
    }
    assert Keeps(s.tasks, s'.tasks);
    forall t | t in s.tasks && !base[t].state.Terminal() && s'.tasks[t].state.Terminal() && t !in s'.futures
      ensures Right(w, out, s'.tasks, t)
    {
      if s.tasks[t].state.Terminal() {
        RightKept(w, out, s.tasks, s'.tasks, t);
      } else {
        MarkedRight(w, out, s.tasks, t);
      }
    }
    forall t | t in s.tasks && t in s.futures ensures !s'.tasks[t].state.Failure() {
      MarkedInFlight(w, base, s, t);
    }
  }

  lemma MarkedRight(w: Workflow, out: TaskId -> TaskState, m: Tasks, t: TaskId)
    requires Covers(w, m) && t in m && !m[t].state.Terminal() && Mark(w, m, false)[t].state.Terminal()
    ensures Right(w, out, Mark(w, m, false), t)
  {
    hide WellFormed, Mark;
    MarkEffect(w, m, false, t);
    MarkComputesLabels(w, m);
    assert Labels(w, m)[t].state == Blocked;
    BlockedHasFailedDependency(w, m, t);
  }

  /** Without the flag, marking leaves in-flight tasks as they are. */
  lemma MarkedInFlight(w: Workflow, base: Tasks, s: Sched, t: TaskId)
    requires Inv(w, base, s) && t in s.futures && Covers(w, s.tasks)
    ensures t in s.tasks
    ensures !s.tasks[t].state.Failure() ==> !Mark(w, s.tasks, false)[t].state.Failure()
  {
    hide Inv, WellFormed, Mark;
    FutureDependencies(w, base, s, t);
    MarkEffect(w, s.tasks, false, t);
  }

  lemma CompleteShape(w: Workflow, s: Sched)
    requires s.point.Draining? && s.point.done != []
    requires var t := s.point.done[0]; t in w.tasks && t in s.tasks && t in s.futures && s.futures[t].Finished?
    ensures var t, s' := s.point.done[0], DoComplete(w, s);
            && s'.tasks == s.tasks[t := s.tasks[t].(state := ResultState(s.futures[t].result))]
            && s'.futures == s.futures - {t}
  {
  }

  lemma CompleteOnCourse(w: Workflow, base: Tasks, out: TaskId -> TaskState, s: Sched)
    requires Inv(w, base, s) && Sound(w, s) && OnCourse(w, base, out, s) && s.point.Draining? && s.point.done != []
    requires s.point.done[0] in s.futures && s.futures[s.point.done[0]].Finished?
    requires ResultState(s.futures[s.point.done[0]].result) == out(s.point.done[0])
    ensures OnCourse(w, base, out, DoComplete(w, s))
  {
    hide Inv, Sound, WellFormed, RecordInv, Right, DoComplete, ResultState;
    SameKeys(w, base, s);
    DoneHead(w, base, s);
    CompleteShape(w, s);
    var t := s.point.done[0];
    var s' := DoComplete(w, s);
    InFlightState(w.tasks[t], base[t], s.tasks[t], s.futures[t]);
    FutureDependencies(w, base, s, t);
    assert Keeps(s.tasks, s'.tasks);
    forall u | u in s.tasks && !base[u].state.Terminal() && s'.tasks[u].state.Terminal() && u !in s'.futures
      ensures Right(w, out, s'.tasks, u)
    {
      if u == t {
        DoneRight(w, out, s.tasks, s'.tasks, t);
      } else {
        RightKept(w, out, s.tasks, s'.tasks, u);
      }
    }
  }

  lemma DoneRight(w: Workflow, out: TaskId -> TaskState, m: Tasks, m': Tasks, t: TaskId)
    requires Covers(w, m) && Covers(w, m') && t in m && AllSucceeded(w, m, t)
    requires forall d | d in m && m[d].state.Success() :: m'[d].state.Success()
    requires m'[t].state == out(t)
    ensures Right(w, out, m', t)
  {
    SuccessKept(w, m, m', t);
  }

  // ---------------------------------------------------------------- runs

  /** Every completed worker yields the task's outcome. */
  ghost predicate Follows(r: Run, out: TaskId -> TaskState) {
    forall i | 0 <= i < |r.moves| && i < |r.states| && r.moves[i] == Complete ::
      var s := r.states[i];
      s.point.Draining? && s.point.done != [] && s.point.done[0] in s.futures && s.futures[s.point.done[0]].Finished?
      ==> ResultState(s.futures[s.point.done[0]].result) == out(s.point.done[0])
  }

  lemma OtherOnCourse(w: Workflow, base: Tasks, out: TaskId -> TaskState, s: Sched, s': Sched)
    requires OnCourse(w, base, out, s) && s'.tasks == s.tasks
    requires s.futures.Keys <= s'.futures.Keys
    requires forall t | t in s'.futures && t !in s.futures :: t in s.tasks && s.tasks[t].state == Ready
    requires forall t | t in s'.futures && t !in s.futures :: t in base && !base[t].state.Terminal()
    ensures OnCourse(w, base, out, s')
  {
    hide WellFormed, Right;
  }

  lemma StepOnCourse(w: Workflow, base: Tasks, out: TaskId -> TaskState, s: Sched, move: Move)
    requires Accepted(w) && w.defaults.failurePolicy == Continue
    requires Inv(w, base, s) && Sound(w, s) && Enabled(w, s, move) && OnCourse(w, base, out, s)
    requires !Apply(w, s, move).cancelEvent
    requires move == Complete && s.point.done[0] in s.futures && s.futures[s.point.done[0]].Finished? ==>
               ResultState(s.futures[s.point.done[0]].result) == out(s.point.done[0])
    ensures OnCourse(w, base, out, Apply(w, s, move))
  {
    hide Inv, Sound, WellFormed, OnCourse, DoMark, DoComplete, DoSubmit, Covers, DoFinalize;
    var s' := Apply(w, s, move);
    if WorkerOf(move).Some? {
      WorkerSteps(w, base, s, move);
      KeepsInv(w, base, s, move);
      CoversTasks(w, base, s');
      WorkerOnCourse(w, base, out, s, s', WorkerOf(move).value);
    } else if move == Relabel {
      FailureFlagMeansFailFast(w, base, s);
      MarkOnCourse(w, base, out, s);
    } else if move == Complete {
      DoneHead(w, base, s);
      CompleteOnCourse(w, base, out, s);
    } else if move == Submit {
      SubmitOnCourse(w, base, out, s);
    } else {
      RestOnCourse(w, base, out, s, move);
    }
  }

  lemma RestOnCourse(w: Workflow, base: Tasks, out: TaskId -> TaskState, s: Sched, move: Move)
    requires Inv(w, base, s) && Sound(w, s) && Enabled(w, s, move) && OnCourse(w, base, out, s)
    requires WorkerOf(move) == None && move != Relabel && move != Complete && move != Submit
    requires !Apply(w, s, move).cancelEvent
    ensures OnCourse(w, base, out, Apply(w, s, move))
  {
    hide Inv, Sound, WellFormed, OnCourse, DoMark, DoComplete, DoSubmit, Covers, DoFinalize;
    FinalShape(s);
    OtherOnCourse(w, base, out, s, Apply(w, s, move));
  }

  lemma SubmitOnCourse(w: Workflow, base: Tasks, out: TaskId -> TaskState, s: Sched)
    requires Inv(w, base, s) && Sound(w, s) && s.point.Submitting? && s.point.queue != [] && OnCourse(w, base, out, s)
    ensures OnCourse(w, base, out, DoSubmit(w, s))
  {
    hide Inv, Sound, WellFormed, Right, DoSubmit;
    SameKeys(w, base, s);
    QueueHead(w, base, s);
    SubmitShape(w, s);
    OtherOnCourse(w, base, out, s, DoSubmit(w, s));
  }

  lemma {:induction false} RunOnCourse(w: Workflow, base: Tasks, disk: Persisted, out: TaskId -> TaskState, r: Run, i: nat)
    requires Accepted(w) && w.defaults.failurePolicy == Continue
    requires Covers(w, base) && Startable(base) && IsRun(w, base, disk, r) && i < |r.states|
    requires Follows(r, out) && !r.states[i].cancelEvent
    ensures OnCourse(w, base, out, r.states[i])
  {
    hide Inv, Sound, WellFormed, Startable, Apply, Enabled, Step, Follows;
    if i == 0 {
      StartOnCourse(w, base, disk, out);
    } else {
      RunMonotone(w, base, disk, r, i - 1, i);
      RunOnCourse(w, base, disk, out, r, i - 1);
      RunStep(w, base, disk, r, i - 1);
      FollowsAt(r, out, i - 1);
      if r.moves[i - 1] == Complete {
        EnabledComplete(w, r.states[i - 1]);
      }
      StepOnCourse(w, base, out, r.states[i - 1], r.moves[i - 1]);
    }
  }

  lemma EnabledComplete(w: Workflow, s: Sched)
    requires Enabled(w, s, Complete)
    ensures s.point.Draining? && s.point.done != []
  {
  }

  lemma FollowsAt(r: Run, out: TaskId -> TaskState, i: nat)
    requires Follows(r, out) && i < |r.moves| && i < |r.states|
    ensures var s := r.states[i];
            r.moves[i] == Complete && s.point.Draining? && s.point.done != [] && s.point.done[0] in s.futures
            && s.futures[s.point.done[0]].Finished? ==>
              ResultState(s.futures[s.point.done[0]].result) == out(s.point.done[0])
  {
  }

  lemma StartOnCourse(w: Workflow, base: Tasks, disk: Persisted, out: TaskId -> TaskState)
    requires Covers(w, base) && Startable(base)
    ensures OnCourse(w, base, out, InitialSched(base, disk))
  {
    hide WellFormed;
  }

  function StatesOf(m: Tasks): map<TaskId, TaskState> {
    map t | t in m :: m[t].state
  }

  lemma SettledTask(w: Workflow, base: Tasks, out: TaskId -> TaskState, s: Sched, t: TaskId)
    requires OnCourse(w, base, out, s) && AllTerminal(s.tasks) && s.futures == map[] && t in s.tasks
    ensures t in base
    ensures s.tasks[t].state ==
              if base[t].state.Terminal() then base[t].state
              else if AllSucceeded(w, s.tasks, t) then out(t)
              else Blocked
  {
    DependenciesCovered(w, s.tasks, t);
    hide WellFormed;
  }

  lemma SettledIsResult(w: Workflow, base: Tasks, out: TaskId -> TaskState, s: Sched)
    requires OnCourse(w, base, out, s) && AllTerminal(s.tasks) && s.futures == map[]
    ensures IsResult(w, base, out, StatesOf(s.tasks))
  {
    hide WellFormed, Right;
    var e := StatesOf(s.tasks);
    forall t | t in base
      ensures (forall d | d in w.tasks[t].dependsOn :: d in e && e[d].Success()) <==> AllSucceeded(w, s.tasks, t)
      ensures e[t] == if base[t].state.Terminal() then base[t].state else if AllSucceeded(w, s.tasks, t) then out(t) else Blocked
    {
      DependenciesCovered(w, s.tasks, t);
      SettledTask(w, base, out, s, t);
    }
  }

  /** A run that is not cancelled ends with exactly the declarative result. */
  lemma RunEndsWithResult(w: Workflow, base: Tasks, disk: Persisted, out: TaskId -> TaskState, r: Run)
    requires Accepted(w) && w.defaults.failurePolicy == Continue
    requires Covers(w, base) && Startable(base) && IsRun(w, base, disk, r) && Follows(r, out)
    requires var last := r.states[|r.states| - 1]; last.point == Exited && !last.cancelEvent
    ensures IsResult(w, base, out, StatesOf(r.states[|r.states| - 1].tasks))
  {
    hide Inv, Sound, WellFormed, Startable, IsRun, Follows, OnCourse;
    RunLengths(w, base, disk, r);
    var k := |r.states| - 1;
    RunOnCourse(w, base, disk, out, r, k);
    NeverStuck(w, base, disk, r, k);
    SettledIsResult(w, base, out, r.states[k]);
  }

  /** So the overall status follows from the declarative result, too. */
  lemma StatusFollowsResult(w: Workflow, base: Tasks, disk: Persisted, out: TaskId -> TaskState, r: Run, e: map<TaskId, TaskState>)
    requires Accepted(w) && w.defaults.failurePolicy == Continue
    requires Covers(w, base) && Startable(base) && IsRun(w, base, disk, r) && Follows(r, out)
    requires var last := r.states[|r.states| - 1]; last.point == Exited && !last.cancelEvent
    requires IsResult(w, base, out, e)
    ensures var last := r.states[|r.states| - 1];
            && last.status == last.disk.status
            && last.status == if forall t | t in e :: e[t] in {Succeeded, Verified} then RunSucceeded else RunFailed
  {
    hide Inv, Sound, WellFormed, Startable, IsRun, Follows, IsResult;
    RunLengths(w, base, disk, r);
    RunEndsWithResult(w, base, disk, out, r);
    var last := r.states[|r.states| - 1];
    EndStatus(w, base, disk, r, |r.states| - 1);
    var f := StatesOf(last.tasks);
    var rank :| Ranks(DependencyGraph(w.tasks), rank);
    ResultKeys(w, base, out, e);
    ResultKeys(w, base, out, f);
    forall t | t in base ensures e[t] == f[t] {
      ResultAgrees(w, w, rank, base, out, e, f, t);
    }
    assert forall t | t in last.tasks :: t in e && e[t] == last.tasks[t].state;
  }

  lemma ResultKeys(w: Workflow, base: Tasks, out: TaskId -> TaskState, e: map<TaskId, TaskState>)
    requires IsResult(w, base, out, e)
    ensures e.Keys == base.Keys
  {
  }

  /** Two runs of the same tasks with the same outcome for each task, under whatever concurrency
    * limits, visiting orders and interleavings, end with the same task states. */
  lemma SchedulesAgree(w: Workflow, v: Workflow, base: Tasks, disk: Persisted, disk': Persisted,
                       out: TaskId -> TaskState, r: Run, q: Run)
    requires Accepted(w) && Accepted(v) && v.tasks == w.tasks
    requires w.defaults.failurePolicy == Continue && v.defaults.failurePolicy == Continue
    requires Covers(w, base) && Covers(v, base) && Startable(base)
    requires IsRun(w, base, disk, r) && Follows(r, out) && IsRun(v, base, disk', q) && Follows(q, out)
    requires var last := r.states[|r.states| - 1]; last.point == Exited && !last.cancelEvent
    requires var last := q.states[|q.states| - 1]; last.point == Exited && !last.cancelEvent
    ensures StatesOf(r.states[|r.states| - 1].tasks) == StatesOf(q.states[|q.states| - 1].tasks)
  {
    hide Inv, Sound, WellFormed, Startable, IsRun, Follows;
    RunLengths(w, base, disk, r);
    RunLengths(v, base, disk', q);
    RunEndsWithResult(w, base, disk, out, r);
    RunEndsWithResult(v, base, disk', out, q);
    var e, f := StatesOf(r.states[|r.states| - 1].tasks), StatesOf(q.states[|q.states| - 1].tasks);
    var rank :| Ranks(DependencyGraph(w.tasks), rank);
    forall t | t in base ensures e[t] == f[t] {
      ResultAgrees(w, v, rank, base, out, e, f, t);
    }
    assert e.Keys == f.Keys;
  }
}
