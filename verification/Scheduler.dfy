/** The workflow scheduler as a step system.
  *
  * One `Sched` value holds everything a running scheduler process can observe: the in-memory state
  * dictionary, the state file, the futures with the point their worker has reached, the provider
  * counters, the two flags and the point the main loop has reached. Every `Move` is one atomic
  * step: a critical section under the controller lock, one read or write of a shared flag, or an
  * event from outside. All interleavings of main loop, workers, signals and external cancels are
  * sequences of moves. */
module Scheduler {
  import opened Workflows
  import opened RunState
  import opened DependencyStates
  import Prompts

  // ---------------------------------------------------------------- state

  /** What a worker's future yields: a task state, or an exception. */
  datatype WorkerResult = Returned(state: TaskState) | Raised

  /** Where a worker is in `_execute_task`. `first` is the number of its first attempt, `n` counts
    * the attempts of this run. */
  datatype Phase =
    | Queued                                             // submitted, not begun
    | Prepared(first: nat, n: nat)                       // about to record attempt n
    | Launched(first: nat, n: nat)                       // attempt recorded, cancel flag not yet read
    | InRunner(first: nat, n: nat)                       // inside the runner call
    | Answered(first: nat, n: nat, outcome: Outcome)     // outcome known, not yet recorded
    | Recorded(first: nat, n: nat, outcome: Outcome)     // outcome recorded, not yet judged
    | BackingOff(first: nat, n: nat)                     // waiting before the next attempt
    | Finished(result: WorkerResult)
  {
    predicate Counted() {
      !Queued? && !Finished?
    }
  }

  /** Where the main loop is. */
  datatype Point =
    | Polling                            // top of the loop
    | Marking                            // before dependency marking
    | Submitting(queue: seq<TaskId>)     // inside the submission loop
    | Waiting                            // in `wait`
    | Draining(done: seq<TaskId>)        // processing completed futures
    | Finalizing                         // after the loop
    | Exited
    | NoProgress                         // raised "workflow scheduler made no progress"

  datatype Sched = Sched(
    tasks: Tasks,
    cancelRequested: bool,
    status: WorkflowStatus,
    disk: Persisted,
    futures: map<TaskId, Phase>,
    active: map<Provider, int>,
    cancelEvent: bool,
    failureTriggered: bool,
    point: Point)

  // ---------------------------------------------------------------- small pieces

  function ProviderOf(w: Workflow, t: TaskId): Provider
    requires t in w.tasks
  {
    w.tasks[t].route.provider
  }

  /** `provider_active.get(provider, 0)` */
  function Active(active: map<Provider, int>, p: Provider): int {
    if p in active then active[p] else 0
  }

  /** `providerConcurrency.get(provider, maximum)` */
  function ProviderLimit(w: Workflow, p: Provider): int {
    if p in w.defaults.providerConcurrency then w.defaults.providerConcurrency[p] else w.defaults.maxConcurrency
  }

  /** `_StateController.write`: a cancellation on disk survives every write. */
  function WriteState(s: Sched): Sched {
    var flag := s.cancelRequested || s.disk.cancelRequested;
    s.(cancelRequested := flag, disk := Persisted(s.tasks, flag, s.status))
  }

  /** `_should_retry` */
  predicate ShouldRetry(task: TaskDef, o: Outcome, attemptInRun: nat) {
    && attemptInRun < task.retry.maxAttempts
    && o.exitCode !in {64, 66}
    && (|| (o.status == StatusTimedOut && Timeout in task.retry.on)
        || (o.transportError && TransportError in task.retry.on))
  }

  /** `_run_verification`, given the exit code of each command it would run. */
  function Verification(task: TaskDef, exits: seq<int>): TaskState {
    if task.verify == [] then Succeeded
    else if exists i | 0 <= i < |exits| :: i < |task.verify| && exits[i] != 0 then VerificationFailed
    else Verified
  }

  /** The submission loop's list: ready tasks without a future, in task order. */
  function ReadyTasks(order: seq<TaskId>, m: Tasks, futures: map<TaskId, Phase>): (q: seq<TaskId>)
    requires forall t | t in order :: t in m
  {
    if order == [] then []
    else
      var rest := ReadyTasks(order[1..], m, futures);
      if m[order[0]].state == Ready && order[0] !in futures then [order[0]] + rest else rest
  }

  function AppendAttempt(r: Record, a: Attempt): (r': Record)
    ensures r'.state == Running && |r'.attempts| == |r.attempts| + 1
  {
    Record(Running, r.attempts + [a])
  }

  function CloseAttempt(r: Record, o: Outcome): (r': Record)
    requires r.attempts != []
    ensures r'.state == r.state && |r'.attempts| == |r.attempts|
  {
    var last := |r.attempts| - 1;
    r.(attempts := r.attempts[last := r.attempts[last].(outcome := Some(o))])
  }

  function ResultState(r: WorkerResult): TaskState {
    match r
    case Returned(s) => s
    case Raised => Failed
  }

  // ---------------------------------------------------------------- moves

  datatype Move =
    // main loop
    | Poll
    | Relabel
    | Submit
    | Close
    | Collect(done: seq<TaskId>)
    | Complete
    | Finalize
    // worker of a task
    | Begin(task: TaskId, files: Prompts.Files)
    | Start(task: TaskId, dispatchId: DispatchId)
    | Check(task: TaskId)
    | Answer(task: TaskId, answer: Option<Outcome>)
    | Report(task: TaskId)
    | Judge(task: TaskId, exits: Option<seq<int>>)
    | Wake(task: TaskId)
    // outside
    | Signal
    | ExternalCancel
  {
    predicate Outside() {
      Signal? || ExternalCancel?
    }
  }

  predicate Enabled(w: Workflow, s: Sched, move: Move) {
    match move
    case Poll => s.point == Polling
    case Relabel => s.point == Marking
    case Submit => s.point.Submitting? && s.point.queue != []
    case Close => s.point == Submitting([])
    case Collect(done) => s.point == Waiting && done != [] && Distinct(done)
                          && forall t | t in done :: t in s.futures && s.futures[t].Finished?
    case Complete => s.point.Draining? && s.point.done != []
    case Finalize => s.point == Finalizing
    case Begin(t, _) => t in s.futures && s.futures[t].Queued?
    case Start(t, _) => t in s.futures && s.futures[t].Prepared?
    case Check(t) => t in s.futures && s.futures[t].Launched?
    case Answer(t, _) => t in s.futures && s.futures[t].InRunner?
    case Report(t) => t in s.futures && s.futures[t].Answered?
    case Judge(t, exits) => t in s.futures && s.futures[t].Recorded?
                            && (exits.Some? && t in w.tasks ==> |exits.value| == |w.tasks[t].verify|)
    case Wake(t) => t in s.futures && s.futures[t].BackingOff?
    case Signal => s.point != Exited && s.point != NoProgress
    // the file takes a request for as long as the lease is held, even after the last write
    case ExternalCancel => true
  }

  // Each of the following is the effect of one move.

  function DoPoll(s: Sched): Sched {
    s.(cancelEvent := s.cancelEvent || s.cancelRequested, point := Marking)
  }

  function DoMark(w: Workflow, s: Sched): Sched
    requires Covers(w, s.tasks)
  {
    var m := Mark(w, s.tasks, s.failureTriggered);
    s.(tasks := m, point := Submitting(ReadyTasks(w.order, m, s.futures)))
  }

  function DoSubmit(w: Workflow, s: Sched): Sched
    requires s.point.Submitting? && s.point.queue != [] && s.point.queue[0] in w.tasks
  {
    var t := s.point.queue[0];
    var p := ProviderOf(w, t);
    if s.cancelEvent || |s.futures| >= w.defaults.maxConcurrency then s.(point := Submitting([]))
    else if Active(s.active, p) >= ProviderLimit(w, p) then s.(point := Submitting(s.point.queue[1..]))
    else s.(futures := s.futures[t := Queued],
            active := s.active[p := Active(s.active, p) + 1],
            point := Submitting(s.point.queue[1..]))
  }

  /** The task that a move submits, if it submits one. */
  function Submits(w: Workflow, s: Sched, move: Move): Option<TaskId> {
    if move.Submit? && s.point.Submitting? && s.point.queue != [] && s.point.queue[0] in w.tasks
       && !s.cancelEvent && |s.futures| < w.defaults.maxConcurrency
       && Active(s.active, ProviderOf(w, s.point.queue[0])) < ProviderLimit(w, ProviderOf(w, s.point.queue[0]))
    then Some(s.point.queue[0]) else None
  }

  predicate AllTerminal(m: Tasks) {
    forall t | t in m :: m[t].state.Terminal()
  }

  function DoClose(s: Sched): Sched {
    if s.futures != map[] then s.(point := Waiting)
    else if AllTerminal(s.tasks) || s.cancelEvent then s.(point := Finalizing)
    else s.(point := NoProgress)
  }

  function DoComplete(w: Workflow, s: Sched): Sched
    requires s.point.Draining? && s.point.done != []
    requires var t := s.point.done[0]; t in w.tasks && t in s.tasks && t in s.futures && s.futures[t].Finished?
  {
    var t := s.point.done[0];
    var p := ProviderOf(w, t);
    var state := ResultState(s.futures[t].result);
    var failing := state in {Failed, TimedOut, Cancelled, VerificationFailed};
    WriteState(s.(
      tasks := s.tasks[t := s.tasks[t].(state := state)],
      futures := s.futures - {t},
      active := s.active[p := Active(s.active, p) - 1],
      failureTriggered := if failing then w.defaults.failurePolicy == FailFast else s.failureTriggered,
      point := if |s.point.done| == 1 then Polling else Draining(s.point.done[1..])))
  }

  function CancelUnfinished(m: Tasks): Tasks {
    map t | t in m :: if m[t].state.Open() || m[t].state == Running then m[t].(state := Cancelled) else m[t]
  }

  function FinalTasks(s: Sched): Tasks {
    if s.cancelEvent then CancelUnfinished(s.tasks) else s.tasks
  }

  function FinalStatus(s: Sched): WorkflowStatus {
    if s.cancelEvent then RunCancelled
    else if forall t | t in s.tasks :: s.tasks[t].state.Success() then RunSucceeded
    else RunFailed
  }

  function DoFinalize(s: Sched): Sched {
    WriteState(s.(tasks := FinalTasks(s), status := FinalStatus(s), point := Exited))
  }

  function DoBegin(w: Workflow, s: Sched, t: TaskId, files: Prompts.Files): Sched
    requires t in w.tasks && t in s.tasks && t in s.futures
    requires Prompts.Selectable(w, s.tasks, w.tasks[t].contextFrom)
  {
    match Prompts.PromptFor(w, s.tasks, files, t)
    case Ok(_) => s.(futures := s.futures[t := Prepared(|s.tasks[t].attempts| + 1, 1)])
    case Err(_) => s.(futures := s.futures[t := Finished(Raised)])
  }

  function DoStart(s: Sched, t: TaskId, id: DispatchId): Sched
    requires t in s.tasks && t in s.futures && s.futures[t].Prepared? && s.futures[t].first + s.futures[t].n >= 1
  {
    var f := s.futures[t];
    WriteState(s.(
      tasks := s.tasks[t := AppendAttempt(s.tasks[t], Attempt(f.first + f.n - 1, id, None))],
      futures := s.futures[t := Launched(f.first, f.n)]))
  }

  function DoCheck(s: Sched, t: TaskId): Sched
    requires t in s.futures && s.futures[t].Launched?
  {
    var f := s.futures[t];
    s.(futures := s.futures[t := if s.cancelEvent then Answered(f.first, f.n, Outcome(StatusCancelled, 130, false))
                                 else InRunner(f.first, f.n)])
  }

  function DoAnswer(s: Sched, t: TaskId, answer: Option<Outcome>): Sched
    requires t in s.futures && s.futures[t].InRunner?
  {
    var f := s.futures[t];
    match answer
    case None => s.(futures := s.futures[t := Finished(Raised)])
    case Some(o) => s.(futures := s.futures[t := Answered(f.first, f.n, o)])
  }

  function DoReport(s: Sched, t: TaskId): Sched
    requires t in s.tasks && s.tasks[t].attempts != [] && t in s.futures && s.futures[t].Answered?
  {
    var f := s.futures[t];
    WriteState(s.(
      tasks := s.tasks[t := CloseAttempt(s.tasks[t], f.outcome)],
      futures := s.futures[t := Recorded(f.first, f.n, f.outcome)]))
  }

  function DoJudge(w: Workflow, s: Sched, t: TaskId, exits: Option<seq<int>>): Sched
    requires t in w.tasks && t in s.futures && s.futures[t].Recorded?
  {
    var f := s.futures[t];
    var o := f.outcome;
    var next :=
      if s.cancelEvent || o.status == StatusCancelled then Finished(Returned(Cancelled))
      else if o.status == StatusSucceeded && o.exitCode == 0 then
        (match exits
         case None => Finished(Raised)
         case Some(es) => Finished(Returned(Verification(w.tasks[t], es))))
      else if !ShouldRetry(w.tasks[t], o, f.n) then
        Finished(Returned(if o.status == StatusTimedOut then TimedOut else Failed))
      else BackingOff(f.first, f.n);
    s.(futures := s.futures[t := next])
  }

  function DoWake(s: Sched, t: TaskId): Sched
    requires t in s.futures && s.futures[t].BackingOff?
  {
    var f := s.futures[t];
    s.(futures := s.futures[t := if s.cancelEvent then Finished(Returned(Cancelled)) else Prepared(f.first, f.n + 1)])
  }

  // ---------------------------------------------------------------- effects, in full

  lemma {:induction false} ReadyTasksSpec(order: seq<TaskId>, m: Tasks, futures: map<TaskId, Phase>)
    requires Distinct(order) && forall t | t in order :: t in m
    ensures var q := ReadyTasks(order, m, futures);
            && Distinct(q)
            && forall t :: t in q <==> t in order && m[t].state == Ready && t !in futures
  {
    if order != [] {
      assert Distinct(order[1..]);
      assert order[0] !in order[1..];
      ReadyTasksSpec(order[1..], m, futures);
    }
  }

  /** The list keeps the task order. */
  lemma {:induction false} ReadyTasksInOrder(order: seq<TaskId>, m: Tasks, futures: map<TaskId, Phase>, i: nat, j: nat)
    requires forall t | t in order :: t in m
    requires i < j < |ReadyTasks(order, m, futures)|
    ensures var q := ReadyTasks(order, m, futures);
            exists a, b :: 0 <= a < b < |order| && order[a] == q[i] && order[b] == q[j]
  {
    var q, rest := ReadyTasks(order, m, futures), ReadyTasks(order[1..], m, futures);
    if q == rest {
      ReadyTasksInOrder(order[1..], m, futures, i, j);
      var a, b :| 0 <= a < b < |order[1..]| && order[1..][a] == q[i] && order[1..][b] == q[j];
      assert order[a + 1] == q[i] && order[b + 1] == q[j];
    } else if i > 0 {
      ReadyTasksInOrder(order[1..], m, futures, i - 1, j - 1);
      var a, b :| 0 <= a < b < |order[1..]| && order[1..][a] == q[i] && order[1..][b] == q[j];
      assert order[a + 1] == q[i] && order[b + 1] == q[j];
    } else {
      ReadyTasksFrom(order[1..], m, futures);
      assert rest[j - 1] in order[1..];
      var b :| 0 <= b < |order[1..]| && order[1..][b] == q[j];
      assert order[0] == q[i] && order[b + 1] == q[j];
    }
  }

  lemma {:induction false} ReadyTasksFrom(order: seq<TaskId>, m: Tasks, futures: map<TaskId, Phase>)
    requires forall t | t in order :: t in m
    ensures forall t | t in ReadyTasks(order, m, futures) :: t in order
  {
    if order != [] {
      ReadyTasksFrom(order[1..], m, futures);
    }
  }

  lemma CompleteEffect(w: Workflow, s: Sched)
    requires s.point.Draining? && s.point.done != []
    requires var t := s.point.done[0]; t in w.tasks && t in s.tasks && t in s.futures && s.futures[t].Finished?
    ensures var t, s' := s.point.done[0], DoComplete(w, s);
            var result := s.futures[t].result;
            var state := if result.Returned? then result.state else Failed;
            && s'.tasks == s.tasks[t := s.tasks[t].(state := state)] && s'.futures == s.futures - {t}
            && s'.failureTriggered == if state in {Failed, TimedOut, Cancelled, VerificationFailed}
                                      then w.defaults.failurePolicy == FailFast else s.failureTriggered
    ensures var p, s' := ProviderOf(w, s.point.done[0]), DoComplete(w, s);
            var flag := s.cancelRequested || s.disk.cancelRequested;
            s' == s.(tasks := s'.tasks, futures := s'.futures, failureTriggered := s'.failureTriggered,
                     active := s.active[p := Active(s.active, p) - 1],
                     cancelRequested := flag, disk := Persisted(s'.tasks, flag, s.status),
                     point := if |s.point.done| == 1 then Polling else Draining(s.point.done[1..]))
  {
  }

  lemma FinishEffect(s: Sched)
    ensures var s' := DoFinalize(s);
            && s'.tasks.Keys == s.tasks.Keys
            && (forall t | t in s.tasks ::
                  s'.tasks[t] == if s.cancelEvent && !s.tasks[t].state.Terminal() then s.tasks[t].(state := Cancelled) else s.tasks[t])
            && s'.status == (if s.cancelEvent then RunCancelled
                             else if forall t | t in s.tasks :: s.tasks[t].state in {Succeeded, Verified} then RunSucceeded
                             else RunFailed)
            && var flag := s.cancelRequested || s.disk.cancelRequested;
            && s' == s.(tasks := s'.tasks, status := s'.status, cancelRequested := flag,
                        disk := Persisted(s'.tasks, flag, s'.status), point := Exited)
  {
  }

  // ---------------------------------------------------------------- one step

  /** What the effects of moves take for granted; `SchedulerInvariant.InvIsSound` shows that every
    * reachable state has it. */
  predicate Sound(w: Workflow, s: Sched) {
    && Covers(w, s.tasks)
    && (forall t | t in s.futures :: t in s.tasks)
    && (forall t | t in s.futures :: s.futures[t].Prepared? ==> s.futures[t].first >= 1)
    && (forall t | t in s.futures :: s.futures[t].Answered? ==> s.tasks[t].attempts != [])
    && (s.point.Submitting? ==> forall t | t in s.point.queue :: t in s.tasks)
    && (s.point.Draining? ==> forall t | t in s.point.done :: t in s.futures && s.futures[t].Finished?)
  }

  lemma ContextSelectable(w: Workflow, m: Tasks, t: TaskId)
    requires Covers(w, m) && t in m
    ensures Prompts.Selectable(w, m, w.tasks[t].contextFrom)
  {
    assert TaskAccepted(w.tasks.Keys, t, w.tasks[t]);
  }

  function Apply(w: Workflow, s: Sched, move: Move): Sched
    requires Sound(w, s) && Enabled(w, s, move)
  {
    hide WellFormed;
    match move
    case Poll => DoPoll(s)
    case Relabel => DoMark(w, s)
    case Submit => DoSubmit(w, s)
    case Close => DoClose(s)
    case Collect(done) => s.(point := Draining(done))
    case Complete => DoComplete(w, s)
    case Finalize => DoFinalize(s)
    case Begin(t, files) => ContextSelectable(w, s.tasks, t); DoBegin(w, s, t, files)
    case Start(t, id) => DoStart(s, t, id)
    case Check(t) => DoCheck(s, t)
    case Answer(t, answer) => DoAnswer(s, t, answer)
    case Report(t) => DoReport(s, t)
    case Judge(t, exits) => DoJudge(w, s, t, exits)
    case Wake(t) => DoWake(s, t)
    case Signal => s.(cancelEvent := true)
    // `cancel_workflow` while the runner lease is held: only the file changes
    case ExternalCancel => s.(disk := s.disk.(cancelRequested := true))
  }

  // ---------------------------------------------------------------- runs

  /** What a process starts from: the records it loaded or created, and the state file it found. */
  function InitialSched(tasks: Tasks, disk: Persisted): Sched {
    // `initialize` resets the flag in memory; the write that follows restores it from the file
    WriteState(Sched(tasks, false, InProgress, disk, map[], map[], false, false, Polling))
  }
}
