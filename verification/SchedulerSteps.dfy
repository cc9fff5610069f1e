/** Every move keeps the invariant. */
module SchedulerSteps {
  import opened Workflows
  import opened RunState
  import opened DependencyStates
  import opened Scheduler
  import opened SchedulerInvariant
  import Prompts

  // ---------------------------------------------------------------- worker moves

  /** `s'` differs from `s` only in the record and the phase of the in-flight task `t`. */
  ghost predicate OnlyTouches(s: Sched, s': Sched, t: TaskId) {
    && s'.tasks.Keys == s.tasks.Keys && s'.futures.Keys == s.futures.Keys
    && (forall u | u in s.tasks && u != t :: s'.tasks[u] == s.tasks[u])
    && (forall u | u in s.futures && u != t :: s'.futures[u] == s.futures[u])
    && s'.active == s.active && s'.cancelEvent == s.cancelEvent
    && s'.failureTriggered == s.failureTriggered && s'.point == s.point && s'.status == s.status
  }

  /** Either nothing is written and the record stays, or the whole state is written. */
  ghost predicate WritesOrKeeps(s: Sched, s': Sched, t: TaskId) {
    || (s'.disk == s.disk && s'.cancelRequested == s.cancelRequested && s'.tasks == s.tasks)
    || (s'.disk == Persisted(s'.tasks, s'.cancelRequested, s'.status))
  }

  lemma TaskFacts(w: Workflow, base: Tasks, s: Sched, t: TaskId)
    requires Inv(w, base, s) && t in s.futures
    ensures t in w.tasks && t in base && t in s.tasks
    ensures RecordInv(w.tasks[t], base[t], s.tasks[t], Some(s.futures[t]))
    ensures w.tasks[t].retry.maxAttempts >= 1
  {
    hide RecordInv;
    assert TaskAccepted(w.tasks.Keys, t, w.tasks[t]);
    assert PhaseOf(s, t) == Some(s.futures[t]);
  }

  lemma WorkerFrameRecords(w: Workflow, base: Tasks, s: Sched, s': Sched, t: TaskId)
    requires Inv(w, base, s) && OnlyTouches(s, s', t) && WritesOrKeeps(s, s', t)
    requires t in s.futures && !s.futures[t].Finished?
    requires RecordInv(w.tasks[t], base[t], s'.tasks[t], Some(s'.futures[t]))
    ensures Covered(w, base, s') && Records(w, base, s')
  {
    hide WellFormed, RecordInv;
    forall u | u in s'.tasks ensures RecordInv(w.tasks[u], base[u], s'.tasks[u], PhaseOf(s', u)) {
      if u != t {
        assert PhaseOf(s', u) == PhaseOf(s, u);
      }
    }
  }

  lemma SuccessKept(w: Workflow, m: Tasks, m': Tasks, t: TaskId)
    requires Covers(w, m) && Covers(w, m') && t in m && AllSucceeded(w, m, t)
    requires forall u | u in m && m[u].state.Success() :: m'[u].state.Success()
    ensures AllSucceeded(w, m', t)
  {
    DependenciesCovered(w, m, t);
  }

  /** An in-flight task has not succeeded yet. */
  lemma InFlightNotSuccessful(w: Workflow, base: Tasks, s: Sched, t: TaskId)
    requires Inv(w, base, s) && t in s.futures
    ensures !s.tasks[t].state.Success() && !base[t].state.Success()
  {
    hide WellFormed, HistoryOk;
    assert RecordInv(w.tasks[t], base[t], s.tasks[t], Some(s.futures[t]));
  }

  lemma WorkerFrameRest(w: Workflow, base: Tasks, s: Sched, s': Sched, t: TaskId)
    requires Inv(w, base, s) && OnlyTouches(s, s', t) && WritesOrKeeps(s, s', t)
    requires t in s.futures && !s.futures[t].Finished? && Covered(w, base, s')
    ensures Dependencies(w, base, s') && Accounting(w, s')
    ensures DiskInv(w, base, s')
  {
    hide WellFormed, Records, PointInv, AllSucceeded;
    InFlightNotSuccessful(w, base, s, t);
    forall u | u in s'.tasks && (u in s'.futures || s'.tasks[u].state == Ready)
      ensures AllSucceeded(w, s'.tasks, u)
    {
      SuccessKept(w, s.tasks, s'.tasks, u);
    }
    forall p ensures InFlight(w, s'.futures, p) == InFlight(w, s.futures, p) {
    }
    assert |s'.futures.Keys| == |s.futures.Keys|;
  }

  lemma WorkerFramePoint(w: Workflow, base: Tasks, s: Sched, s': Sched, t: TaskId)
    requires Inv(w, base, s) && OnlyTouches(s, s', t) && WritesOrKeeps(s, s', t)
    requires t in s.futures && !s.futures[t].Finished? && Covered(w, base, s')
    ensures PointInv(w, base, s')
  {
    hide WellFormed, Records, Dependencies, Accounting, DiskInv, AllSucceeded, Quiet;
    InFlightNotSuccessful(w, base, s, t);
    match s.point
    case Submitting(queue) =>
      forall u | u in queue ensures AllSucceeded(w, s'.tasks, u) {
        SuccessKept(w, s.tasks, s'.tasks, u);
      }
    case _ =>
  }

  /** What every worker move is: a change of one in-flight task that keeps its record well formed. */
  ghost predicate WorkerStep(w: Workflow, base: Tasks, s: Sched, s': Sched, t: TaskId) {
    && OnlyTouches(s, s', t) && WritesOrKeeps(s, s', t)
    && t in s.futures && !s.futures[t].Finished?
    && t in w.tasks && t in base && t in s.tasks && t in s'.tasks
    && s'.tasks[t].state in {s.tasks[t].state, Running}
    && RecordInv(w.tasks[t], base[t], s'.tasks[t], Some(s'.futures[t]))
  }

  lemma WorkerFrame(w: Workflow, base: Tasks, s: Sched, s': Sched, t: TaskId)
    requires Inv(w, base, s) && WorkerStep(w, base, s, s', t)
    ensures Inv(w, base, s')
  {
    hide Covered, Records, Dependencies, Accounting, PointInv, DiskInv, RecordInv, OnlyTouches, WritesOrKeeps;
    WorkerFrameRecords(w, base, s, s', t);
    WorkerFrameRest(w, base, s, s', t);
    WorkerFramePoint(w, base, s, s', t);
  }

  /** Recording attempt `n` extends the history by one numbered entry; every earlier entry of this
    * run was judged retriable. */
  lemma StartRecord(task: TaskDef, b: Record, r: Record, f: Phase, id: DispatchId)
    requires RecordInv(task, b, r, Some(f)) && f.Prepared?
    ensures RecordInv(task, b, AppendAttempt(r, Attempt(f.first + f.n - 1, id, None)), Some(Launched(f.first, f.n)))
  {
    var h := r.attempts + [Attempt(f.first + f.n - 1, id, None)];
    forall i | |b.attempts| <= i < |h| - 1
      ensures h[i].outcome.Some? && ShouldRetry(task, h[i].outcome.value, i - |b.attempts| + 1)
    {
    }
  }

  lemma ReportRecord(task: TaskDef, b: Record, r: Record, f: Phase)
    requires RecordInv(task, b, r, Some(f)) && f.Answered?
    ensures RecordInv(task, b, CloseAttempt(r, f.outcome), Some(Recorded(f.first, f.n, f.outcome)))
  {
  }

  lemma JudgeRecord(task: TaskDef, b: Record, r: Record, f: Phase, exits: Option<seq<int>>)
    requires RecordInv(task, b, r, Some(f)) && f.Recorded?
    ensures var o := f.outcome;
            && RecordInv(task, b, r, Some(Finished(Returned(Cancelled))))
            && RecordInv(task, b, r, Some(Finished(Raised)))
            && RecordInv(task, b, r, Some(Finished(Returned(TimedOut))))
            && RecordInv(task, b, r, Some(Finished(Returned(Failed))))
            && (o.status == StatusSucceeded && o.exitCode == 0 && exits.Some? ==>
                  RecordInv(task, b, r, Some(Finished(Returned(Verification(task, exits.value))))))
            && (ShouldRetry(task, o, f.n) ==> RecordInv(task, b, r, Some(BackingOff(f.first, f.n))))
  {
  }

  lemma CoversTasks(w: Workflow, base: Tasks, s: Sched)
    requires Inv(w, base, s)
    ensures Covers(w, s.tasks)
  {
  }

  lemma BeginRecord(task: TaskDef, b: Record, r: Record)
    requires RecordInv(task, b, r, Some(Queued)) && task.retry.maxAttempts >= 1
    ensures RecordInv(task, b, r, Some(Prepared(|r.attempts| + 1, 1))) && RecordInv(task, b, r, Some(Finished(Raised)))
  {
    hide HistoryOk, LastSucceeded;
  }

  lemma StepBegin(w: Workflow, base: Tasks, s: Sched, t: TaskId, files: Prompts.Files)
    requires Inv(w, base, s) && Sound(w, s) && Enabled(w, s, Begin(t, files))
    ensures WorkerStep(w, base, s, Apply(w, s, Begin(t, files)), t)
  {
    hide Inv, Sound, WellFormed, RecordInv, Prompts.PromptFor, Prompts.Selectable, Covers;
    TaskFacts(w, base, s, t);
    CoversTasks(w, base, s);
    ContextSelectable(w, s.tasks, t);
    BeginRecord(w.tasks[t], base[t], s.tasks[t]);
  }

  lemma StepStart(w: Workflow, base: Tasks, s: Sched, t: TaskId, id: DispatchId)
    requires Inv(w, base, s) && Sound(w, s) && Enabled(w, s, Start(t, id))
    ensures WorkerStep(w, base, s, Apply(w, s, Start(t, id)), t)
  {
    hide Inv, Sound, WellFormed, HistoryOk, ShouldRetry, AppendAttempt, CloseAttempt, Verification, LastSucceeded, RecordInv;
    TaskFacts(w, base, s, t);
    StartRecord(w.tasks[t], base[t], s.tasks[t], s.futures[t], id);
  }

  lemma StepCheck(w: Workflow, base: Tasks, s: Sched, t: TaskId)
    requires Inv(w, base, s) && Sound(w, s) && Enabled(w, s, Check(t))
    ensures WorkerStep(w, base, s, Apply(w, s, Check(t)), t)
  {
    hide Inv, Sound, WellFormed, HistoryOk, ShouldRetry, AppendAttempt, CloseAttempt, Verification, LastSucceeded;
    TaskFacts(w, base, s, t);
  }

  lemma StepAnswer(w: Workflow, base: Tasks, s: Sched, t: TaskId, answer: Option<Outcome>)
    requires Inv(w, base, s) && Sound(w, s) && Enabled(w, s, Answer(t, answer))
    ensures WorkerStep(w, base, s, Apply(w, s, Answer(t, answer)), t)
  {
    hide Inv, Sound, WellFormed, HistoryOk, ShouldRetry, AppendAttempt, CloseAttempt, Verification, LastSucceeded;
    TaskFacts(w, base, s, t);
  }

  lemma StepReport(w: Workflow, base: Tasks, s: Sched, t: TaskId)
    requires Inv(w, base, s) && Sound(w, s) && Enabled(w, s, Report(t))
    ensures WorkerStep(w, base, s, Apply(w, s, Report(t)), t)
  {
    hide Inv, Sound, WellFormed, HistoryOk, ShouldRetry, AppendAttempt, CloseAttempt, Verification, LastSucceeded, RecordInv;
    TaskFacts(w, base, s, t);
    ReportRecord(w.tasks[t], base[t], s.tasks[t], s.futures[t]);
  }

  lemma StepJudge(w: Workflow, base: Tasks, s: Sched, t: TaskId, exits: Option<seq<int>>)
    requires Inv(w, base, s) && Sound(w, s) && Enabled(w, s, Judge(t, exits))
    ensures WorkerStep(w, base, s, Apply(w, s, Judge(t, exits)), t)
  {
    hide Inv, Sound, WellFormed, HistoryOk, ShouldRetry, AppendAttempt, CloseAttempt, Verification, LastSucceeded, RecordInv;
    TaskFacts(w, base, s, t);
    JudgeRecord(w.tasks[t], base[t], s.tasks[t], s.futures[t], exits);
  }

  lemma StepWake(w: Workflow, base: Tasks, s: Sched, t: TaskId)
    requires Inv(w, base, s) && Sound(w, s) && Enabled(w, s, Wake(t))
    ensures WorkerStep(w, base, s, Apply(w, s, Wake(t)), t)
  {
    hide Inv, Sound, WellFormed, HistoryOk, ShouldRetry, AppendAttempt, CloseAttempt, Verification, LastSucceeded;
    TaskFacts(w, base, s, t);
  }

  // ---------------------------------------------------------------- main loop moves

  /** Moves that change only flags and the point of the main loop. */
  lemma DataFrame(w: Workflow, base: Tasks, s: Sched, s': Sched)
    requires Inv(w, base, s)
    requires s'.tasks == s.tasks && s'.futures == s.futures && s'.disk == s.disk
    requires s'.cancelRequested == s.cancelRequested && s'.active == s.active
    ensures Covered(w, base, s') && Records(w, base, s') && Dependencies(w, base, s') && Accounting(w, s') && DiskInv(w, base, s')
  {
    hide WellFormed, RecordInv, AllSucceeded, PointInv, Persists, InFlight;
    assert forall t | t in s.tasks :: PhaseOf(s', t) == PhaseOf(s, t);
  }

  lemma KeepsPoll(w: Workflow, base: Tasks, s: Sched)
    requires Inv(w, base, s) && s.point == Polling
    ensures Inv(w, base, DoPoll(s))
  {
    hide Inv, Covered, Records, Dependencies, Accounting, DiskInv;
    Parts(w, base, s);
    DataFrame(w, base, s, DoPoll(s));
    Assemble(w, base, DoPoll(s));
  }

  lemma MarkRecord(task: TaskDef, b: Record, r: Record, r': Record, phase: Option<Phase>)
    requires RecordInv(task, b, r, phase) && r'.attempts == r.attempts
    requires r' == r || (r.state.Open() && (r'.state in {Ready, Blocked, Skipped})
                         && (phase.Some? ==> r'.state in {Ready, Skipped}))
    ensures RecordInv(task, b, r', phase)
  {
    hide HistoryOk;
  }

  lemma MarkKeepsRecords(w: Workflow, base: Tasks, s: Sched)
    requires Inv(w, base, s)
    ensures Covered(w, base, DoMark(w, s)) && Records(w, base, DoMark(w, s))
  {
    hide WellFormed, RecordInv, AllSucceeded, Mark, Accounting, PointInv, DiskInv;
    var s' := DoMark(w, s);
    forall t | t in s.tasks ensures RecordInv(w.tasks[t], base[t], s'.tasks[t], PhaseOf(s', t)) {
      MarkEffect(w, s.tasks, s.failureTriggered, t);
      assert RecordInv(w.tasks[t], base[t], s.tasks[t], PhaseOf(s, t));
      MarkRecord(w.tasks[t], base[t], s.tasks[t], s'.tasks[t], PhaseOf(s, t));
    }
  }

  lemma MarkKeepsDependencies(w: Workflow, base: Tasks, s: Sched)
    requires Inv(w, base, s) && Covered(w, base, DoMark(w, s))
    ensures Dependencies(w, base, DoMark(w, s)) && DiskInv(w, base, DoMark(w, s)) && Accounting(w, DoMark(w, s))
  {
    hide WellFormed, RecordInv, AllSucceeded, Mark, PointInv, Records;
    var s' := DoMark(w, s);
    forall t | t in s.tasks
      ensures t in s'.futures || s'.tasks[t].state == Ready ==> AllSucceeded(w, s'.tasks, t)
      ensures Persists(s'.disk.tasks[t], s'.tasks[t])
      ensures s.tasks[t].state.Success() ==> s'.tasks[t].state.Success()
    {
      MarkEffect(w, s.tasks, s.failureTriggered, t);
      if t in s.futures || s'.tasks[t].state == Ready {
        MarkKeepsSuccess(w, s.tasks, s.failureTriggered);
        SuccessKept(w, s.tasks, s'.tasks, t);
      }
    }
  }

  lemma MarkKeepsSuccess(w: Workflow, m: Tasks, failFast: bool)
    requires Covers(w, m)
    ensures forall t | t in m && m[t].state.Success() :: Mark(w, m, failFast)[t] == m[t]
  {
    hide WellFormed, Mark;
    forall t | t in m && m[t].state.Success() ensures Mark(w, m, failFast)[t] == m[t] {
      MarkEffect(w, m, failFast, t);
    }
  }

  /** With nothing in flight and nothing ready, whoever is open waits for somebody open. */
  lemma MarkMakesQuiet(w: Workflow, base: Tasks, s: Sched)
    requires Inv(w, base, s) && s.futures == map[]
    requires forall t | t in s.tasks :: Mark(w, s.tasks, s.failureTriggered)[t].state != Ready
    ensures Quiet(w, Mark(w, s.tasks, s.failureTriggered))
  {
    hide WellFormed, RecordInv, AllSucceeded, Mark, PointInv, DiskInv, Accounting, Dependencies;
    var f := Mark(w, s.tasks, s.failureTriggered);
    forall t | t in f && f[t].state == Pending ensures exists d :: d in w.tasks[t].dependsOn && d in f && f[d].state.Open() {
      PendingWaits(w, s.tasks, s.failureTriggered, t);
      var d :| d in w.tasks[t].dependsOn && d in f && !f[d].state.Terminal();
      MarkEffect(w, s.tasks, s.failureTriggered, d);
      NotRunning(w, base, s, d);
    }
  }

  lemma NotRunning(w: Workflow, base: Tasks, s: Sched, t: TaskId)
    requires Inv(w, base, s) && t in s.tasks && t !in s.futures
    ensures s.tasks[t].state != Running
  {
    hide WellFormed, HistoryOk;
    assert RecordInv(w.tasks[t], base[t], s.tasks[t], PhaseOf(s, t));
  }

  lemma MarkKeepsPoint(w: Workflow, base: Tasks, s: Sched)
    requires Inv(w, base, s) && Covered(w, base, DoMark(w, s)) && Dependencies(w, base, DoMark(w, s))
    ensures PointInv(w, base, DoMark(w, s))
  {
    var s' := DoMark(w, s);
    ReadyTasksSpec(w.order, s'.tasks, s.futures);
    assert forall t | t in s'.tasks :: t in w.order;
    hide WellFormed, RecordInv, AllSucceeded, Mark, DiskInv, Accounting, Records, Quiet, ReadyTasks;
    forall t | t in s.tasks ensures s.failureTriggered ==> s'.tasks[t].state != Ready {
      MarkEffect(w, s.tasks, s.failureTriggered, t);
    }
    var q := s'.point.queue;
    assert q != [] ==> q[0] in q;
    if q == [] && s.futures == map[] {
      MarkMakesQuiet(w, base, s);
    }
  }

  lemma KeepsMark(w: Workflow, base: Tasks, s: Sched)
    requires Inv(w, base, s)
    ensures Inv(w, base, DoMark(w, s))
  {
    hide Inv, WellFormed, Covered, Records, Dependencies, Accounting, PointInv, DiskInv, Mark;
    CoversTasks(w, base, s);
    MarkKeepsRecords(w, base, s);
    MarkKeepsDependencies(w, base, s);
    MarkKeepsPoint(w, base, s);
    Assemble(w, base, DoMark(w, s));
  }

  // Submitting one task: it joins the futures and its provider's counter.

  lemma SubmitInFlight(w: Workflow, futures: map<TaskId, Phase>, t: TaskId, p: Provider)
    requires t in w.tasks && t !in futures
    ensures InFlight(w, futures[t := Queued], p) == InFlight(w, futures, p) + if ProviderOf(w, t) == p then {t} else {}
    ensures t !in InFlight(w, futures, p)
  {
    hide ProviderOf;
  }

  lemma SubmitCounts(w: Workflow, futures: map<TaskId, Phase>, t: TaskId, p: Provider)
    requires t in w.tasks && t !in futures
    ensures |futures[t := Queued]| == |futures| + 1
    ensures |InFlight(w, futures[t := Queued], p)| == |InFlight(w, futures, p)| + if ProviderOf(w, t) == p then 1 else 0
  {
    hide InFlight, ProviderOf;
    SubmitInFlight(w, futures, t, p);
    assert futures[t := Queued].Keys == futures.Keys + {t};
  }

  /** The three ways in which a turn of the submission loop ends. */
  lemma SubmitCases(w: Workflow, s: Sched)
    requires s.point.Submitting? && s.point.queue != [] && s.point.queue[0] in w.tasks
    ensures var t, rest, s' := s.point.queue[0], s.point.queue[1..], DoSubmit(w, s);
            var p := ProviderOf(w, t);
            || s' == s.(point := Submitting([]))
            || s' == s.(point := Submitting(rest))
            || s' == s.(futures := s.futures[t := Queued], active := s.active[p := Active(s.active, p) + 1],
                        point := Submitting(rest))
  {
    hide ProviderLimit, Active;
  }

  lemma SubmitShape(w: Workflow, s: Sched)
    requires s.point.Submitting? && s.point.queue != [] && s.point.queue[0] in w.tasks
    ensures var s' := DoSubmit(w, s);
            && s'.tasks == s.tasks
            && s'.point.Submitting? && |s'.point.queue| < |s.point.queue|
            && (s'.futures == s.futures || s'.futures == s.futures[s.point.queue[0] := Queued])
  {
    hide DoSubmit, Active, ProviderOf;
    SubmitCases(w, s);
  }

  lemma SubmitRecord(task: TaskDef, b: Record, r: Record)
    requires RecordInv(task, b, r, None) && r.state == Ready
    ensures RecordInv(task, b, r, Some(Queued))
  {
    hide HistoryOk;
  }

  lemma QueueHead(w: Workflow, base: Tasks, s: Sched)
    requires Inv(w, base, s) && s.point.Submitting? && s.point.queue != []
    ensures var t := s.point.queue[0];
            && t in s.tasks && t in w.tasks && t !in s.futures
            && s.tasks[t].state == Ready && AllSucceeded(w, s.tasks, t)
  {
    assert s.point.queue[0] in s.point.queue;
  }

  lemma SubmitKeepsRecords(w: Workflow, base: Tasks, s: Sched)
    requires Inv(w, base, s) && Sound(w, s) && s.point.Submitting? && s.point.queue != []
    ensures Covered(w, base, DoSubmit(w, s)) && Records(w, base, DoSubmit(w, s))
  {
    hide Inv, WellFormed, RecordInv, Accounting, PointInv, Sound, Dependencies, DiskInv, DoSubmit, Active, ProviderOf;
    QueueHead(w, base, s);
    Parts(w, base, s);
    SubmitCases(w, s);
    var s' := DoSubmit(w, s);
    var t := s.point.queue[0];
    forall u | u in s.tasks ensures RecordInv(w.tasks[u], base[u], s'.tasks[u], PhaseOf(s', u)) {
      assert RecordInv(w.tasks[u], base[u], s.tasks[u], PhaseOf(s, u));
      if u == t {
        SubmitRecord(w.tasks[u], base[u], s.tasks[u]);
      }
    }
  }

  lemma SubmitKeepsDependencies(w: Workflow, base: Tasks, s: Sched)
    requires Inv(w, base, s) && Sound(w, s) && s.point.Submitting? && s.point.queue != []
    requires Covered(w, base, DoSubmit(w, s))
    ensures Dependencies(w, base, DoSubmit(w, s)) && DiskInv(w, base, DoSubmit(w, s))
  {
    hide Inv, WellFormed, Records, Accounting, PointInv, Sound, Persists, AllSucceeded, DoSubmit, Active, ProviderOf;
    QueueHead(w, base, s);
    Parts(w, base, s);
    SubmitCases(w, s);
    var s' := DoSubmit(w, s);
    assert s'.tasks == s.tasks && s'.disk == s.disk && s'.cancelRequested == s.cancelRequested;
    assert forall t | t in s'.futures :: t in s.futures || t == s.point.queue[0];
  }

  /** The guard under which a turn submits, and what it then changes. */
  lemma SubmitWithinLimits(w: Workflow, s: Sched)
    requires s.point.Submitting? && s.point.queue != [] && s.point.queue[0] in w.tasks
    ensures var t, s' := s.point.queue[0], DoSubmit(w, s);
            var p := ProviderOf(w, t);
            if !s.cancelEvent && |s.futures| < w.defaults.maxConcurrency && Active(s.active, p) < ProviderLimit(w, p)
            then s'.futures == s.futures[t := Queued] && s'.active == s.active[p := Active(s.active, p) + 1]
            else s'.futures == s.futures && s'.active == s.active
  {
    hide ProviderLimit, Active, ProviderOf;
  }

  lemma SubmitKeepsAccounting(w: Workflow, base: Tasks, s: Sched)
    requires Inv(w, base, s) && Sound(w, s) && s.point.Submitting? && s.point.queue != []
    ensures Accounting(w, DoSubmit(w, s))
  {
    hide Inv, WellFormed, Records, Dependencies, PointInv, DiskInv, InFlight, Sound, ProviderLimit, ProviderOf, DoSubmit;
    QueueHead(w, base, s);
    Parts(w, base, s);
    SubmitWithinLimits(w, s);
    var s' := DoSubmit(w, s);
    var t := s.point.queue[0];
    if s'.futures != s.futures {
      forall p ensures Active(s'.active, p) == |InFlight(w, s'.futures, p)| <= ProviderLimit(w, p) {
        SubmitCounts(w, s.futures, t, p);
      }
      SubmitCounts(w, s.futures, t, ProviderOf(w, t));
    }
  }

  /** With nothing in flight and no cancellation, the head of the queue is always submitted. */
  lemma {:induction false} IdleSubmits(w: Workflow, base: Tasks, s: Sched)
    requires Inv(w, base, s) && Sound(w, s) && s.point.Submitting? && s.point.queue != []
    requires s.futures == map[] && !s.cancelEvent
    ensures DoSubmit(w, s).futures != map[]
    ensures Submits(w, s, Submit) == Some(s.point.queue[0])
  {
    hide Inv, Records, Dependencies, PointInv, DiskInv, TaskAccepted;
    Parts(w, base, s);
    QueueHead(w, base, s);
    var t := s.point.queue[0];
    var p := ProviderOf(w, t);
    assert InFlight(w, s.futures, p) == {};
    assert Active(s.active, p) == |InFlight(w, s.futures, p)|;
    assert t in DoSubmit(w, s).futures;
  }

  lemma DistinctTail<T>(q: seq<T>)
    requires Distinct(q) && q != []
    ensures Distinct(q[1..]) && q[0] !in q[1..] && forall t | t in q[1..] :: t in q
  {
  }

  lemma SubmitKeepsPoint(w: Workflow, base: Tasks, s: Sched)
    requires Inv(w, base, s) && Sound(w, s) && s.point.Submitting? && s.point.queue != [] && Covered(w, base, DoSubmit(w, s))
    ensures PointInv(w, base, DoSubmit(w, s))
  {
    hide Inv, Sound, WellFormed, AllSucceeded, Quiet, Records, Dependencies, DiskInv, Accounting, Covered, Covers, ProviderLimit, Active;
    Parts(w, base, s);
    if s.futures == map[] && !s.cancelEvent {
      IdleSubmits(w, base, s);
    }
    QueueHead(w, base, s);
    DistinctTail(s.point.queue);
  }

  lemma KeepsSubmit(w: Workflow, base: Tasks, s: Sched)
    requires Inv(w, base, s) && Sound(w, s) && s.point.Submitting? && s.point.queue != []
    ensures Inv(w, base, DoSubmit(w, s))
  {
    hide Inv, Sound, WellFormed, Covered, Records, Dependencies, Accounting, PointInv, DiskInv;
    QueueHead(w, base, s);
    SubmitKeepsRecords(w, base, s);
    SubmitKeepsDependencies(w, base, s);
    SubmitKeepsAccounting(w, base, s);
    SubmitKeepsPoint(w, base, s);
    Assemble(w, base, DoSubmit(w, s));
  }

  // Closing the submission loop.

  /** A rank rules out that every open task waits for an open one. */
  lemma {:induction false} RankedOpenTask(w: Workflow, rank: map<TaskId, nat>, m: Tasks, t: TaskId)
    requires Covers(w, m) && Ranks(DependencyGraph(w.tasks), rank) && Quiet(w, m)
    requires t in m && t in rank && m[t].state == Pending
    ensures false
    decreases rank[t]
  {
    hide WellFormed;
    var d :| d in w.tasks[t].dependsOn && d in m && m[d].state.Open();
    DependencyEdge(w.tasks, t, d);
    RankedOpenTask(w, rank, m, d);
  }

  lemma {:induction false} QuietMeansTerminal(w: Workflow, base: Tasks, s: Sched)
    requires Accepted(w) && Inv(w, base, s) && s.futures == map[] && Quiet(w, s.tasks)
    ensures AllTerminal(s.tasks)
  {
    hide WellFormed, RecordInv, Records, Accounting, PointInv, DiskInv, Dependencies;
    var rank :| Ranks(DependencyGraph(w.tasks), rank);
    forall t | t in s.tasks ensures s.tasks[t].state.Terminal() {
      NotRunning(w, base, s, t);
      if s.tasks[t].state == Pending {
        var d :| d in w.tasks[t].dependsOn && d in s.tasks && s.tasks[d].state.Open();
        DependencyEdge(w.tasks, t, d);
        assert t in rank;
        RankedOpenTask(w, rank, s.tasks, t);
      }
    }
  }

  /** The scheduler never raises "made no progress". */
  lemma KeepsClose(w: Workflow, base: Tasks, s: Sched)
    requires Accepted(w) && Inv(w, base, s) && s.point == Submitting([])
    ensures Inv(w, base, DoClose(s))
  {
    hide Inv, WellFormed, Covered, Covers, Records, Dependencies, Accounting, DiskInv, Quiet;
    Parts(w, base, s);
    CoversTasks(w, base, s);
    DataFrame(w, base, s, DoClose(s));
    if s.futures == map[] && !s.cancelEvent {
      QuietMeansTerminal(w, base, s);
    }
    Assemble(w, base, DoClose(s));
  }

  lemma KeepsCollect(w: Workflow, base: Tasks, s: Sched, done: seq<TaskId>)
    requires Inv(w, base, s) && s.point == Waiting && done != [] && Distinct(done)
    requires forall t | t in done :: t in s.futures && s.futures[t].Finished?
    ensures Inv(w, base, s.(point := Draining(done)))
  {
    hide Inv, Covered, Records, Dependencies, Accounting, DiskInv;
    var s' := s.(point := Draining(done));
    Parts(w, base, s);
    DataFrame(w, base, s, s');
    Assemble(w, base, s');
  }

  // Processing a completed future: it leaves the futures and its provider's counter.

  lemma CompleteCounts(w: Workflow, futures: map<TaskId, Phase>, t: TaskId, p: Provider)
    requires t in w.tasks && t in futures
    ensures |futures - {t}| == |futures| - 1
    ensures |InFlight(w, futures - {t}, p)| == |InFlight(w, futures, p)| - if ProviderOf(w, t) == p then 1 else 0
  {
    var futures' := futures - {t};
    assert futures'.Keys == futures.Keys - {t};
    if ProviderOf(w, t) == p {
      assert InFlight(w, futures', p) == InFlight(w, futures, p) - {t};
    } else {
      assert InFlight(w, futures', p) == InFlight(w, futures, p);
    }
  }

  lemma CompleteRecord(task: TaskDef, b: Record, r: Record, f: Phase)
    requires RecordInv(task, b, r, Some(f)) && f.Finished?
    ensures RecordInv(task, b, r.(state := ResultState(f.result)), None)
  {
    hide HistoryOk;
  }

  /** The facts that processing the head of the completed list needs. */
  lemma DoneHead(w: Workflow, base: Tasks, s: Sched)
    requires Inv(w, base, s) && s.point.Draining? && s.point.done != []
    ensures var t := s.point.done[0];
            && t in s.tasks && t in w.tasks && t in base && t in s.futures && s.futures[t].Finished?
            && RecordInv(w.tasks[t], base[t], s.tasks[t], Some(s.futures[t]))
  {
    hide RecordInv, Accounting, DiskInv, Dependencies;
    var t := s.point.done[0];
    assert t in s.point.done;
    assert RecordInv(w.tasks[t], base[t], s.tasks[t], PhaseOf(s, t));
  }

  lemma CompleteKeepsRecords(w: Workflow, base: Tasks, s: Sched)
    requires Inv(w, base, s) && Sound(w, s) && s.point.Draining? && s.point.done != []
    ensures Covered(w, base, DoComplete(w, s)) && Records(w, base, DoComplete(w, s))
  {
    hide Inv, WellFormed, RecordInv, Accounting, PointInv, Sound, Dependencies, DiskInv;
    DoneHead(w, base, s);
    Parts(w, base, s);
    var s' := DoComplete(w, s);
    var t := s.point.done[0];
    CompleteRecord(w.tasks[t], base[t], s.tasks[t], s.futures[t]);
    forall u | u in s.tasks ensures RecordInv(w.tasks[u], base[u], s'.tasks[u], PhaseOf(s', u)) {
      assert RecordInv(w.tasks[u], base[u], s.tasks[u], PhaseOf(s, u));
    }
  }

  lemma CompleteKeepsDependencies(w: Workflow, base: Tasks, s: Sched)
    requires Inv(w, base, s) && Sound(w, s) && s.point.Draining? && s.point.done != []
    requires Covered(w, base, DoComplete(w, s))
    ensures Dependencies(w, base, DoComplete(w, s))
  {
    hide Inv, WellFormed, RecordInv, Accounting, PointInv, Sound, Records, DiskInv, AllSucceeded;
    DoneHead(w, base, s);
    Parts(w, base, s);
    var s' := DoComplete(w, s);
    InFlightNotSuccessful(w, base, s, s.point.done[0]);
    DoneNotReady(w, base, s);
    forall u | u in s.tasks && (u in s'.futures || s'.tasks[u].state == Ready) ensures AllSucceeded(w, s'.tasks, u) {
      SuccessKept(w, s.tasks, s'.tasks, u);
    }
  }

  lemma DoneNotReady(w: Workflow, base: Tasks, s: Sched)
    requires Inv(w, base, s) && s.point.Draining? && s.point.done != []
    ensures var t := s.point.done[0];
            && t in s.futures && s.futures[t].Finished?
            && (s.futures[t].result.Returned? ==> WorkerState(s.futures[t].result.state))
            && ResultState(s.futures[t].result) != Ready
  {
    hide Inv, HistoryOk, LastSucceeded;
    DoneHead(w, base, s);
  }

  lemma CompleteKeepsAccounting(w: Workflow, base: Tasks, s: Sched)
    requires Inv(w, base, s) && Sound(w, s) && s.point.Draining? && s.point.done != []
    ensures Accounting(w, DoComplete(w, s))
  {
    hide Inv, WellFormed, RecordInv, PointInv, Sound, Dependencies, DiskInv, Records, InFlight;
    DoneHead(w, base, s);
    Parts(w, base, s);
    var s' := DoComplete(w, s);
    var t := s.point.done[0];
    forall p ensures Active(s'.active, p) == |InFlight(w, s'.futures, p)| <= ProviderLimit(w, p) {
      CompleteCounts(w, s.futures, t, p);
    }
    CompleteCounts(w, s.futures, t, ProviderOf(w, t));
  }

  lemma CompleteKeepsPoint(w: Workflow, base: Tasks, s: Sched)
    requires Inv(w, base, s) && Sound(w, s) && s.point.Draining? && s.point.done != []
    requires Covered(w, base, DoComplete(w, s))
    ensures PointInv(w, base, DoComplete(w, s)) && DiskInv(w, base, DoComplete(w, s))
  {
    hide Inv, WellFormed, RecordInv, Accounting, Sound, Dependencies, Records, Quiet, AllSucceeded;
    DoneHead(w, base, s);
    Parts(w, base, s);
    DistinctTail(s.point.done);
  }

  lemma KeepsComplete(w: Workflow, base: Tasks, s: Sched)
    requires Inv(w, base, s) && Sound(w, s) && s.point.Draining? && s.point.done != []
    ensures Inv(w, base, DoComplete(w, s))
  {
    hide Inv, Sound, WellFormed, Covered, Records, Dependencies, Accounting, PointInv, DiskInv;
    DoneHead(w, base, s);
    CompleteKeepsRecords(w, base, s);
    CompleteKeepsDependencies(w, base, s);
    CompleteKeepsAccounting(w, base, s);
    CompleteKeepsPoint(w, base, s);
    Assemble(w, base, DoComplete(w, s));
  }

  // After the loop.

  lemma FinalRecord(task: TaskDef, b: Record, r: Record)
    requires RecordInv(task, b, r, None)
    ensures r.state.Open() || r.state == Running ==> RecordInv(task, b, r.(state := Cancelled), None)
    ensures r.state != Running
  {
    hide HistoryOk;
  }

  lemma FinalTasksShape(s: Sched)
    ensures FinalTasks(s).Keys == s.tasks.Keys
    ensures !s.cancelEvent ==> FinalTasks(s) == s.tasks
    ensures forall t | t in s.tasks ::
              FinalTasks(s)[t] == if s.cancelEvent && !s.tasks[t].state.Terminal() then s.tasks[t].(state := Cancelled) else s.tasks[t]
  {
  }

  lemma FinalShape(s: Sched)
    ensures var s' := DoFinalize(s);
            && s'.point == Exited && s'.futures == s.futures && s'.active == s.active
            && s'.cancelEvent == s.cancelEvent && s'.failureTriggered == s.failureTriggered
            && s'.disk == Persisted(s'.tasks, s'.cancelRequested, s'.status)
            && EndsAs(s'.tasks, s'.cancelEvent, s'.status)
            && s'.tasks.Keys == s.tasks.Keys
            && (!s.cancelEvent ==> s'.tasks == s.tasks)
            && forall t | t in s.tasks ::
                 s'.tasks[t] == if s.cancelEvent && !s.tasks[t].state.Terminal() then s.tasks[t].(state := Cancelled) else s.tasks[t]
  {
    FinalTasksShape(s);
    hide FinalTasks;
  }

  lemma FinalizeKeepsRecords(w: Workflow, base: Tasks, s: Sched)
    requires Inv(w, base, s) && s.point == Finalizing
    ensures Covered(w, base, DoFinalize(s)) && Records(w, base, DoFinalize(s))
    ensures AllTerminal(DoFinalize(s).tasks)
  {
    hide Inv, WellFormed, RecordInv, Accounting, Dependencies, DiskInv, DoFinalize;
    Parts(w, base, s);
    FinalShape(s);
    var s' := DoFinalize(s);
    forall t | t in s.tasks
      ensures RecordInv(w.tasks[t], base[t], s'.tasks[t], None) && s'.tasks[t].state.Terminal()
    {
      assert PhaseOf(s, t) == None;
      assert RecordInv(w.tasks[t], base[t], s.tasks[t], None);
      FinalRecord(w.tasks[t], base[t], s.tasks[t]);
    }
    assert forall t | t in s.tasks :: PhaseOf(s', t) == None;
  }

  lemma FinalizeKeepsRest(w: Workflow, base: Tasks, s: Sched)
    requires Inv(w, base, s) && s.point == Finalizing
    requires Covered(w, base, DoFinalize(s)) && AllTerminal(DoFinalize(s).tasks)
    ensures Dependencies(w, base, DoFinalize(s)) && Accounting(w, DoFinalize(s))
    ensures PointInv(w, base, DoFinalize(s)) && DiskInv(w, base, DoFinalize(s))
  {
    hide Inv, WellFormed, Records, AllSucceeded, InFlight, Quiet, DoFinalize;
    Parts(w, base, s);
    FinalShape(s);
  }

  lemma KeepsFinalize(w: Workflow, base: Tasks, s: Sched)
    requires Inv(w, base, s) && s.point == Finalizing
    ensures Inv(w, base, DoFinalize(s))
  {
    hide Inv, WellFormed, Covered, Records, Dependencies, Accounting, DiskInv, PointInv;
    FinalizeKeepsRecords(w, base, s);
    FinalizeKeepsRest(w, base, s);
    Assemble(w, base, DoFinalize(s));
  }

  // Outside moves.

  lemma KeepsSignal(w: Workflow, base: Tasks, s: Sched)
    requires Inv(w, base, s) && s.point != Exited
    ensures Inv(w, base, s.(cancelEvent := true))
  {
    hide Inv, Covered, Records, Dependencies, Accounting, DiskInv, Quiet;
    var s' := s.(cancelEvent := true);
    Parts(w, base, s);
    DataFrame(w, base, s, s');
    Assemble(w, base, s');
  }

  lemma KeepsExternalCancel(w: Workflow, base: Tasks, s: Sched)
    requires Inv(w, base, s)
    ensures Inv(w, base, s.(disk := s.disk.(cancelRequested := true)))
  {
    hide Inv, WellFormed, RecordInv, AllSucceeded, InFlight, Quiet, Persists;
    var s' := s.(disk := s.disk.(cancelRequested := true));
    Parts(w, base, s);
    assert forall t | t in s.tasks :: PhaseOf(s', t) == PhaseOf(s, t);
    Assemble(w, base, s');
  }

  // ---------------------------------------------------------------- every move

  /** The task whose worker makes the move, if it is a worker move. */
  function WorkerOf(move: Move): Option<TaskId> {
    match move
    case Begin(t, _) => Some(t)
    case Start(t, _) => Some(t)
    case Check(t) => Some(t)
    case Answer(t, _) => Some(t)
    case Report(t) => Some(t)
    case Judge(t, _) => Some(t)
    case Wake(t) => Some(t)
    case _ => None
  }

  lemma WorkerSteps(w: Workflow, base: Tasks, s: Sched, move: Move)
    requires Inv(w, base, s) && Sound(w, s) && Enabled(w, s, move) && WorkerOf(move).Some?
    ensures WorkerStep(w, base, s, Apply(w, s, move), WorkerOf(move).value)
  {
    hide Inv, Sound, WorkerStep, Apply;
    match move
    case Begin(t, files) => StepBegin(w, base, s, t, files);
    case Start(t, id) => StepStart(w, base, s, t, id);
    case Check(t) => StepCheck(w, base, s, t);
    case Answer(t, answer) => StepAnswer(w, base, s, t, answer);
    case Report(t) => StepReport(w, base, s, t);
    case Judge(t, exits) => StepJudge(w, base, s, t, exits);
    case Wake(t) => StepWake(w, base, s, t);
  }

  lemma {:induction false} KeepsInv(w: Workflow, base: Tasks, s: Sched, move: Move)
    requires Accepted(w) && Inv(w, base, s) && Sound(w, s) && Enabled(w, s, move)
    ensures Inv(w, base, Apply(w, s, move))
  {
    hide Inv, Sound, WellFormed, DoPoll, DoMark, DoSubmit, DoClose, DoComplete, DoFinalize;
    match move
    case Poll => KeepsPoll(w, base, s);
    case Relabel => KeepsMark(w, base, s);
    case Submit => KeepsSubmit(w, base, s);
    case Close => KeepsClose(w, base, s);
    case Collect(done) => KeepsCollect(w, base, s, done);
    case Complete => KeepsComplete(w, base, s);
    case Finalize => KeepsFinalize(w, base, s);
    case Signal => KeepsSignal(w, base, s);
    case ExternalCancel => KeepsExternalCancel(w, base, s);
    case _ =>
      WorkerSteps(w, base, s, move);
      WorkerFrame(w, base, s, Apply(w, s, move), WorkerOf(move).value);
  }

  // ---------------------------------------------------------------- the start of a run

  /** What the records must look like when a run begins: fresh ones do, and resume restores it. */
  predicate Startable(m: Tasks) {
    forall t | t in m ::
      && (m[t].state == Pending || m[t].state.Terminal())
      && (m[t].state.Success() ==> LastSucceeded(m[t].attempts))
  }

  lemma InitialAccounting(w: Workflow, m: Tasks, disk: Persisted)
    requires WellFormed(w)
    ensures Accounting(w, InitialSched(m, disk))
  {
    var s := InitialSched(m, disk);
    assert forall p :: InFlight(w, s.futures, p) == {};
    assert forall p :: ProviderLimit(w, p) >= 1;
    hide TaskAccepted;
  }

  lemma UntouchedRecord(task: TaskDef, b: Record)
    requires task.retry.maxAttempts >= 1 && b.state != Running && (b.state.Success() ==> LastSucceeded(b.attempts))
    ensures RecordInv(task, b, b, None)
  {
  }

  lemma InitialShape(m: Tasks, disk: Persisted)
    ensures var s := InitialSched(m, disk); s.tasks == m && s.futures == map[] && s.disk.tasks == m
  {
  }

  lemma Attemptable(w: Workflow, t: TaskId)
    requires WellFormed(w) && t in w.tasks
    ensures w.tasks[t].retry.maxAttempts >= 1
  {
    assert TaskAccepted(w.tasks.Keys, t, w.tasks[t]);
  }

  lemma InitialRecords(w: Workflow, m: Tasks, disk: Persisted)
    requires Covers(w, m) && Startable(m)
    ensures Covered(w, m, InitialSched(m, disk)) && Records(w, m, InitialSched(m, disk))
  {
    var s := InitialSched(m, disk);
    InitialShape(m, disk);
    hide WellFormed, RecordInv, InitialSched, LastSucceeded;
    forall t | t in s.tasks ensures RecordInv(w.tasks[t], m[t], s.tasks[t], PhaseOf(s, t)) {
      Attemptable(w, t);
      UntouchedRecord(w.tasks[t], m[t]);
    }
  }

  lemma {:induction false} InitialInv(w: Workflow, m: Tasks, disk: Persisted)
    requires Covers(w, m) && Startable(m)
    ensures Inv(w, m, InitialSched(m, disk))
  {
    hide WellFormed, AllSucceeded, Records, Accounting, Inv;
    InitialAccounting(w, m, disk);
    InitialRecords(w, m, disk);
    Assemble(w, m, InitialSched(m, disk));
  }
}
