/** What a worker returns when nothing cancels it: the retry loop of `_execute_task` as a function of what
  * the attempts answer, and schedule independence in those terms. */
module RetryLoop {
  import opened Workflows
  import opened RunState
  import opened DependencyStates
  import opened Scheduler
  import opened SchedulerInvariant
  import opened SchedulerSteps
  import opened SchedulerRuns
  import opened SchedulerTheorems
  import opened ScheduleIndependence
  import Prompts

  // ---------------------------------------------------------------- the loop as a function

  /** What a task meets in a run: whether its prompt can be composed, what the runner answers at each
    * attempt (nothing if it raises), and the exit codes of the verification (nothing if it raises). */
  datatype Answers = Answers(composes: bool, attempt: nat -> Option<Outcome>, exits: Option<seq<int>>)

  /** The verdict on an attempt after which the loop ends. */
  function Verdict(task: TaskDef, o: Outcome, exits: Option<seq<int>>): WorkerResult {
    if o.status == StatusCancelled then Returned(Cancelled)
    else if o.status == StatusSucceeded && o.exitCode == 0 then
      (match exits
       case None => Raised
       case Some(es) => Returned(Verification(task, es)))
    else Returned(if o.status == StatusTimedOut then TimedOut else Failed)
  }

  /** An outcome that is neither a cancellation nor a success, and that the retry policy retries. */
  predicate Retried(task: TaskDef, o: Outcome, n: nat) {
    && o.status != StatusCancelled && !(o.status == StatusSucceeded && o.exitCode == 0)
    && ShouldRetry(task, o, n)
  }

  /** The loop from attempt `n` of a run on. */
  function LoopFrom(task: TaskDef, a: Answers, n: nat): WorkerResult
    decreases task.retry.maxAttempts - n
  {
    match a.attempt(n)
    case None => Raised
    case Some(o) => if Retried(task, o, n) then LoopFrom(task, a, n + 1) else Verdict(task, o, a.exits)
  }

  /** `_execute_task` */
  function WorkerOutcome(task: TaskDef, a: Answers): WorkerResult {
    if a.composes then LoopFrom(task, a, 1) else Raised
  }

  /** The loop stops at the first attempt that is not retried, within `maxAttempts`, and its result is
    * the verdict on that attempt alone. */
  lemma {:induction false} LastAttemptDecides(task: TaskDef, a: Answers, n: nat) returns (k: nat)
    requires n <= task.retry.maxAttempts
    ensures n <= k <= task.retry.maxAttempts
    ensures forall i | n <= i < k :: a.attempt(i).Some? && Retried(task, a.attempt(i).value, i)
    ensures a.attempt(k).Some? ==> !Retried(task, a.attempt(k).value, k)
    ensures LoopFrom(task, a, n) == if a.attempt(k).None? then Raised else Verdict(task, a.attempt(k).value, a.exits)
    decreases task.retry.maxAttempts - n
  {
    if a.attempt(n).Some? && Retried(task, a.attempt(n).value, n) {
      k := LastAttemptDecides(task, a, n + 1);
    } else {
      k := n;
    }
  }

  /** What the verification says, command by command. */
  lemma VerificationIff(task: TaskDef, exits: seq<int>)
    requires |exits| == |task.verify|
    ensures Verification(task, exits) == Succeeded <==> task.verify == []
    ensures Verification(task, exits) == Verified <==> task.verify != [] && forall i | 0 <= i < |exits| :: exits[i] == 0
    ensures Verification(task, exits) == VerificationFailed <==> exists i :: 0 <= i < |exits| && exits[i] != 0
  {
  }

  /** Every result that a decided attempt can give, by what was answered. */
  predicate ExplainedBy(task: TaskDef, result: WorkerResult, o: Outcome, exits: Option<seq<int>>) {
    var passed := o.status == StatusSucceeded && o.exitCode == 0;
    && (result == Returned(Cancelled) <==> o.status == StatusCancelled)
    && (result == Raised <==> passed && exits == None)
    && (result == Returned(Succeeded) <==> passed && exits.Some? && task.verify == [])
    && (result == Returned(Verified) <==>
          passed && exits.Some? && task.verify != [] && forall i | 0 <= i < |exits.value| :: exits.value[i] == 0)
    && (result == Returned(VerificationFailed) <==>
          passed && exits.Some? && exists i | 0 <= i < |exits.value| :: exits.value[i] != 0)
    && (result == Returned(TimedOut) <==> o.status == StatusTimedOut)
    && (result == Returned(Failed) <==> !passed && o.status != StatusCancelled && o.status != StatusTimedOut)
  }

  /** An attempt is tried again exactly if it may be: attempts are left, it was neither cancelled nor
    * passed, its exit code is neither 64 nor 66, and it timed out and timeouts are retried, or its
    * transport failed and that is retried. */
  lemma RetriedIff(task: TaskDef, o: Outcome, n: nat)
    ensures Retried(task, o, n) <==>
            && n < task.retry.maxAttempts && o.exitCode != 64 && o.exitCode != 66
            && o.status != StatusCancelled && !(o.status == StatusSucceeded && o.exitCode == 0)
            && ((o.status == StatusTimedOut && Timeout in task.retry.on)
                || (o.transportError && TransportError in task.retry.on))
  {
  }

  lemma VerdictExplained(task: TaskDef, o: Outcome, exits: Option<seq<int>>)
    requires exits.Some? ==> |exits.value| == |task.verify|
    ensures ExplainedBy(task, Verdict(task, o, exits), o, exits)
  {
    if exits.Some? {
      VerificationIff(task, exits.value);
    }
    hide Verification;
  }

  // ---------------------------------------------------------------- the workers follow it

  /** The environment's part in the moves of a run. */
  ghost predicate Given(w: Workflow, s: Sched, move: Move, answers: TaskId -> Answers) {
    match move
    case Begin(t, files) =>
      t in w.tasks && t in s.tasks && Prompts.Selectable(w, s.tasks, w.tasks[t].contextFrom) ==>
        (Prompts.PromptFor(w, s.tasks, files, t).Ok? <==> answers(t).composes)
    case Answer(t, answer) => t in s.futures && s.futures[t].InRunner? ==> answer == answers(t).attempt(s.futures[t].n)
    case Judge(t, exits) => exits == answers(t).exits
    case _ => true
  }

  ghost predicate GivenRun(w: Workflow, r: Run, answers: TaskId -> Answers) {
    forall i | 0 <= i < |r.moves| && i < |r.states| :: Given(w, r.states[i], r.moves[i], answers)
  }

  /** A worker at this point of the loop is heading for the task's outcome. */
  predicate Heads(task: TaskDef, a: Answers, p: Phase) {
    match p
    case Queued => true
    case Prepared(_, n) => a.composes && LoopFrom(task, a, n) == LoopFrom(task, a, 1)
    case Launched(_, n) => a.composes && LoopFrom(task, a, n) == LoopFrom(task, a, 1)
    case InRunner(_, n) => a.composes && LoopFrom(task, a, n) == LoopFrom(task, a, 1)
    case Answered(_, n, o) => a.composes && LoopFrom(task, a, n) == LoopFrom(task, a, 1) && a.attempt(n) == Some(o)
    case Recorded(_, n, o) => a.composes && LoopFrom(task, a, n) == LoopFrom(task, a, 1) && a.attempt(n) == Some(o)
    case BackingOff(_, n) => a.composes && LoopFrom(task, a, n + 1) == LoopFrom(task, a, 1)
    case Finished(result) => result == WorkerOutcome(task, a)
  }

  ghost predicate AllHead(w: Workflow, s: Sched, answers: TaskId -> Answers) {
    forall t | t in s.futures :: t in w.tasks && Heads(w.tasks[t], answers(t), s.futures[t])
  }

  lemma BeginHeads(w: Workflow, s: Sched, t: TaskId, files: Prompts.Files, a: Answers)
    requires t in w.tasks && t in s.tasks && t in s.futures && s.futures[t].Queued?
    requires Prompts.Selectable(w, s.tasks, w.tasks[t].contextFrom)
    requires Prompts.PromptFor(w, s.tasks, files, t).Ok? <==> a.composes
    ensures var s' := DoBegin(w, s, t, files); t in s'.futures && Heads(w.tasks[t], a, s'.futures[t])
    ensures forall u | u != t :: PhaseOf(DoBegin(w, s, t, files), u) == PhaseOf(s, u)
  {
    hide Prompts.PromptFor, Prompts.Selectable;
  }

  lemma JudgeHeads(w: Workflow, s: Sched, t: TaskId, a: Answers)
    requires t in w.tasks && t in s.futures && s.futures[t].Recorded? && !s.cancelEvent
    requires Heads(w.tasks[t], a, s.futures[t])
    ensures var s' := DoJudge(w, s, t, a.exits); t in s'.futures && Heads(w.tasks[t], a, s'.futures[t])
    ensures forall u | u != t :: PhaseOf(DoJudge(w, s, t, a.exits), u) == PhaseOf(s, u)
  {
    hide Verification, ShouldRetry;
  }

  /** Every worker step stays on the way, as long as no cancellation has come. */
  lemma WorkerHeads(w: Workflow, s: Sched, move: Move, answers: TaskId -> Answers)
    requires Sound(w, s) && Enabled(w, s, move) && WorkerOf(move).Some? && !s.cancelEvent
    requires Given(w, s, move, answers)
    requires var t := WorkerOf(move).value; t in s.futures && t in w.tasks && Heads(w.tasks[t], answers(t), s.futures[t])
    ensures var t := WorkerOf(move).value;
            && t in Apply(w, s, move).futures && Heads(w.tasks[t], answers(t), Apply(w, s, move).futures[t])
            && forall u | u != t :: PhaseOf(Apply(w, s, move), u) == PhaseOf(s, u)
  {
    hide WellFormed, Prompts.PromptFor, Prompts.Selectable, DoBegin, DoJudge;
    var t := WorkerOf(move).value;
    if move.Begin? {
      ContextSelectable(w, s.tasks, t);
      BeginHeads(w, s, t, move.files, answers(t));
    }
    if move.Judge? {
      JudgeHeads(w, s, t, answers(t));
    }
  }

  lemma StepHeads(w: Workflow, base: Tasks, s: Sched, move: Move, answers: TaskId -> Answers)
    requires Inv(w, base, s) && Sound(w, s) && Enabled(w, s, move) && !s.cancelEvent
    requires AllHead(w, s, answers) && Given(w, s, move, answers)
    ensures AllHead(w, Apply(w, s, move), answers)
  {
    hide Inv, WellFormed, Heads, Given, DoSubmit, DoMark, DoComplete, DoFinalize, Covers;
    var s' := Apply(w, s, move);
    if WorkerOf(move).Some? {
      hide Sound, Apply, Enabled;
      var t := WorkerOf(move).value;
      WorkerInFlight(w, s, move);
      WorkerHeads(w, s, move, answers);
      forall u | u in s'.futures ensures u in w.tasks && Heads(w.tasks[u], answers(u), s'.futures[u]) {
        assert u != t ==> PhaseOf(s', u) == PhaseOf(s, u);
      }
    } else if move == Submit {
      QueueHead(w, base, s);
      SubmitShape(w, s);
      assert Heads(w.tasks[s.point.queue[0]], answers(s.point.queue[0]), Queued) by { QueuedHeads(w.tasks[s.point.queue[0]], answers(s.point.queue[0])); }
    } else {
      OtherFutures(w, base, s, move);
    }
  }

  lemma QueuedHeads(task: TaskDef, a: Answers)
    ensures Heads(task, a, Queued)
  {
  }

  lemma WorkerInFlight(w: Workflow, s: Sched, move: Move)
    requires Enabled(w, s, move) && WorkerOf(move).Some?
    ensures WorkerOf(move).value in s.futures
  {
  }

  /** Steps of the main loop other than submitting leave the futures they keep as they are. */
  lemma OtherFutures(w: Workflow, base: Tasks, s: Sched, move: Move)
    requires Inv(w, base, s) && Sound(w, s) && Enabled(w, s, move) && WorkerOf(move) == None && move != Submit
    ensures var s' := Apply(w, s, move); forall t | t in s'.futures :: t in s.futures && s'.futures[t] == s.futures[t]
  {
    hide Inv, WellFormed, Mark, ReadyTasks, FinalTasks, FinalStatus, ResultState;
    if move == Complete {
      DoneHead(w, base, s);
    }
  }

  // ---------------------------------------------------------------- results and records

  /** What the record of a task with a finished worker tells about the result: without an attempt in this
    * run, or with one that has no outcome, the worker raised; otherwise the last outcome explains it. */
  predicate Told(task: TaskDef, b: seq<Attempt>, h: seq<Attempt>, a: Answers, result: WorkerResult) {
    if |h| <= |b| then result == Raised
    else
      match h[|h| - 1].outcome
      case None => result == Raised
      case Some(o) => ExplainedBy(task, result, o, a.exits)
  }

  ghost predicate AllTold(w: Workflow, base: Tasks, s: Sched, answers: TaskId -> Answers) {
    forall t | t in s.futures && s.futures[t].Finished? ::
      t in w.tasks && t in base && t in s.tasks && Told(w.tasks[t], base[t].attempts, s.tasks[t].attempts, answers(t), s.futures[t].result)
  }

  lemma BeginTold(w: Workflow, s: Sched, t: TaskId, files: Prompts.Files, b: Record, a: Answers)
    requires t in w.tasks && t in s.tasks && t in s.futures && s.futures[t].Queued?
    requires RecordInv(w.tasks[t], b, s.tasks[t], Some(Queued)) && Prompts.Selectable(w, s.tasks, w.tasks[t].contextFrom)
    ensures var s' := DoBegin(w, s, t, files);
            && t in s'.futures && t in s'.tasks
            && (s'.futures[t].Finished? ==> Told(w.tasks[t], b.attempts, s'.tasks[t].attempts, a, s'.futures[t].result))
  {
    hide Prompts.PromptFor, Prompts.Selectable, HistoryOk, LastSucceeded, ExplainedBy;
  }

  lemma AnswerTold(w: Workflow, s: Sched, t: TaskId, answer: Option<Outcome>, b: Record, a: Answers)
    requires t in w.tasks && t in s.tasks && t in s.futures && s.futures[t].InRunner?
    requires RecordInv(w.tasks[t], b, s.tasks[t], Some(s.futures[t]))
    ensures var s' := DoAnswer(s, t, answer);
            && t in s'.futures && t in s'.tasks
            && (s'.futures[t].Finished? ==> Told(w.tasks[t], b.attempts, s'.tasks[t].attempts, a, s'.futures[t].result))
  {
    hide HistoryOk, LastSucceeded, ExplainedBy;
  }

  lemma JudgeTold(w: Workflow, s: Sched, t: TaskId, b: Record, a: Answers)
    requires t in w.tasks && t in s.tasks && t in s.futures && s.futures[t].Recorded? && !s.cancelEvent
    requires RecordInv(w.tasks[t], b, s.tasks[t], Some(s.futures[t]))
    requires a.exits.Some? ==> |a.exits.value| == |w.tasks[t].verify|
    ensures var s' := DoJudge(w, s, t, a.exits);
            && t in s'.futures && t in s'.tasks
            && (s'.futures[t].Finished? ==> Told(w.tasks[t], b.attempts, s'.tasks[t].attempts, a, s'.futures[t].result))
  {
    VerdictExplained(w.tasks[t], s.futures[t].outcome, a.exits);
    hide HistoryOk, LastSucceeded, ExplainedBy, Verification, ShouldRetry;
  }

  lemma WorkerTold(w: Workflow, base: Tasks, s: Sched, move: Move, answers: TaskId -> Answers)
    requires Inv(w, base, s) && Sound(w, s) && Enabled(w, s, move) && WorkerOf(move).Some? && !s.cancelEvent
    requires Given(w, s, move, answers)
    ensures var t, s' := WorkerOf(move).value, Apply(w, s, move);
            && t in w.tasks && t in base && t in s'.futures && t in s'.tasks
            && (s'.futures[t].Finished? ==> Told(w.tasks[t], base[t].attempts, s'.tasks[t].attempts, answers(t), s'.futures[t].result))
  {
    hide Inv, WellFormed, RecordInv, Prompts.PromptFor, Prompts.Selectable, DoBegin, DoAnswer, DoJudge, Told;
    var t := WorkerOf(move).value;
    WorkerInFlight(w, s, move);
    TaskFacts(w, base, s, t);
    match move
    case Begin(_, files) =>
      ContextSelectable(w, s.tasks, t);
      BeginTold(w, s, t, files, base[t], answers(t));
    case Answer(_, answer) => AnswerTold(w, s, t, answer, base[t], answers(t));
    case Judge(_, exits) => JudgeTold(w, s, t, base[t], answers(t));
    case _ =>
  }

  lemma StepTold(w: Workflow, base: Tasks, s: Sched, move: Move, answers: TaskId -> Answers)
    requires Inv(w, base, s) && Sound(w, s) && Enabled(w, s, move) && !s.cancelEvent
    requires AllTold(w, base, s, answers) && Given(w, s, move, answers)
    ensures AllTold(w, base, Apply(w, s, move), answers)
  {
    hide Inv, WellFormed, Told, Given, DoSubmit, DoMark, DoComplete, DoFinalize, Covers;
    var s' := Apply(w, s, move);
    if WorkerOf(move).Some? {
      hide Sound, Apply, Enabled;
      var t := WorkerOf(move).value;
      WorkerTold(w, base, s, move, answers);
      WorkerSteps(w, base, s, move);
      forall u | u in s'.futures && s'.futures[u].Finished? && u != t
        ensures u in s.futures && s'.futures[u] == s.futures[u] && u in s'.tasks && s'.tasks[u] == s.tasks[u]
      {
      }
    } else if move == Submit {
      QueueHead(w, base, s);
      SubmitShape(w, s);
    } else {
      OtherFutures(w, base, s, move);
      OtherRecords(w, base, s, move);
    }
  }

  /** Steps of the main loop other than submitting leave the attempts of tasks in flight as they are. */
  lemma OtherRecords(w: Workflow, base: Tasks, s: Sched, move: Move)
    requires Inv(w, base, s) && Sound(w, s) && Enabled(w, s, move) && WorkerOf(move) == None
    ensures forall t | t in s.tasks :: t in Apply(w, s, move).tasks && Apply(w, s, move).tasks[t].attempts == s.tasks[t].attempts
  {
    hide Inv, WellFormed, DoMark, DoFinalize, ResultState, Covers, DoSubmit;
    CoversTasks(w, base, s);
    match move
    case Relabel => DoomedMark(w, base, s);
    case Finalize => FinalShape(s);
    case Complete => DoneHead(w, base, s);
    case Submit =>
      QueueHead(w, base, s);
      SubmitShape(w, s);
    case _ =>
  }

  // ---------------------------------------------------------------- runs

  lemma {:induction false} RunHeads(w: Workflow, base: Tasks, disk: Persisted, r: Run, answers: TaskId -> Answers, i: nat)
    requires Accepted(w) && Covers(w, base) && Startable(base) && IsRun(w, base, disk, r) && GivenRun(w, r, answers)
    requires i < |r.states| && !r.states[i].cancelEvent
    ensures AllHead(w, r.states[i], answers)
  {
    hide Inv, Sound, WellFormed, Startable, Apply, Enabled, Step, Heads, Given;
    if i == 0 {
      NoFutures(base, disk);
    } else {
      RunMonotone(w, base, disk, r, i - 1, i);
      RunHeads(w, base, disk, r, answers, i - 1);
      RunStep(w, base, disk, r, i - 1);
      assert Given(w, r.states[i - 1], r.moves[i - 1], answers);
      StepHeads(w, base, r.states[i - 1], r.moves[i - 1], answers);
    }
  }

  lemma NoFutures(base: Tasks, disk: Persisted)
    ensures InitialSched(base, disk).futures == map[]
  {
  }

  lemma {:induction false} RunTold(w: Workflow, base: Tasks, disk: Persisted, r: Run, answers: TaskId -> Answers, i: nat)
    requires Accepted(w) && Covers(w, base) && Startable(base) && IsRun(w, base, disk, r) && GivenRun(w, r, answers)
    requires i < |r.states| && !r.states[i].cancelEvent
    ensures AllTold(w, base, r.states[i], answers)
  {
    hide Inv, Sound, WellFormed, Startable, Apply, Enabled, Step, Told, Given;
    if i == 0 {
      NoFutures(base, disk);
    } else {
      RunMonotone(w, base, disk, r, i - 1, i);
      RunTold(w, base, disk, r, answers, i - 1);
      RunStep(w, base, disk, r, i - 1);
      assert Given(w, r.states[i - 1], r.moves[i - 1], answers);
      StepTold(w, base, r.states[i - 1], r.moves[i - 1], answers);
    }
  }

  /** In a run that is not cancelled, the result of a finished worker is explained by the last attempt of
    * its record. In particular it is verified exactly if that attempt succeeded with exit code 0, there
    * are commands, and each of them exited with 0. */
  lemma ResultExplained(w: Workflow, base: Tasks, disk: Persisted, r: Run, answers: TaskId -> Answers, i: nat, t: TaskId)
    requires Accepted(w) && Covers(w, base) && Startable(base) && IsRun(w, base, disk, r) && GivenRun(w, r, answers)
    requires i < |r.states| && !r.states[i].cancelEvent && t in r.states[i].futures && r.states[i].futures[t].Finished?
    ensures t in w.tasks && t in base && t in r.states[i].tasks
    ensures var h, result := r.states[i].tasks[t].attempts, r.states[i].futures[t].result;
            && (|h| <= |base[t].attempts| ==> result == Raised)
            && (|h| > |base[t].attempts| && h[|h| - 1].outcome.None? ==> result == Raised)
            && (|h| > |base[t].attempts| && h[|h| - 1].outcome.Some? ==>
                  ExplainedBy(w.tasks[t], result, h[|h| - 1].outcome.value, answers(t).exits))
    ensures var h := r.states[i].tasks[t].attempts;
            r.states[i].futures[t].result == Returned(Verified) <==>
              && |h| > |base[t].attempts|
              && h[|h| - 1].outcome.Some?
              && h[|h| - 1].outcome.value.status == StatusSucceeded && h[|h| - 1].outcome.value.exitCode == 0
              && w.tasks[t].verify != [] && answers(t).exits.Some?
              && forall k | 0 <= k < |answers(t).exits.value| :: answers(t).exits.value[k] == 0
  {
    hide Inv, Sound, WellFormed, Startable, IsRun, GivenRun;
    RunTold(w, base, disk, r, answers, i);
  }

  /** In a run that is not cancelled a finished worker returns exactly what the loop makes of its answers:
    * a retriable attempt is retried, and the result is the verdict on the last one. */
  lemma WorkerResultIsLoop(w: Workflow, base: Tasks, disk: Persisted, r: Run, answers: TaskId -> Answers, i: nat, t: TaskId)
    requires Accepted(w) && Covers(w, base) && Startable(base) && IsRun(w, base, disk, r) && GivenRun(w, r, answers)
    requires i < |r.states| && !r.states[i].cancelEvent && t in r.states[i].futures && r.states[i].futures[t].Finished?
    ensures t in w.tasks && r.states[i].futures[t].result == WorkerOutcome(w.tasks[t], answers(t))
  {
    hide Inv, Sound, WellFormed, Startable, IsRun, GivenRun, WorkerOutcome;
    RunHeads(w, base, disk, r, answers, i);
  }

  /** The task state that a task's answers lead to. */
  function OutcomeOf(w: Workflow, answers: TaskId -> Answers, t: TaskId): TaskState {
    if t in w.tasks then ResultState(WorkerOutcome(w.tasks[t], answers(t))) else Failed
  }

  lemma AnswersGiveOutcomes(w: Workflow, base: Tasks, disk: Persisted, r: Run, answers: TaskId -> Answers)
    requires Accepted(w) && Covers(w, base) && Startable(base) && IsRun(w, base, disk, r) && GivenRun(w, r, answers)
    requires !r.states[|r.states| - 1].cancelEvent
    ensures Follows(r, t => OutcomeOf(w, answers, t))
  {
    hide Inv, Sound, WellFormed, Startable, IsRun, GivenRun, WorkerOutcome;
    RunLengths(w, base, disk, r);
    forall i | 0 <= i < |r.moves| && r.moves[i] == Complete
      ensures var s := r.states[i];
              s.point.Draining? && s.point.done != [] && s.point.done[0] in s.futures && s.futures[s.point.done[0]].Finished?
              ==> ResultState(s.futures[s.point.done[0]].result) == OutcomeOf(w, answers, s.point.done[0])
    {
      var s := r.states[i];
      RunMonotone(w, base, disk, r, i, |r.states| - 1);
      if s.point.Draining? && s.point.done != [] && s.point.done[0] in s.futures && s.futures[s.point.done[0]].Finished? {
        WorkerResultIsLoop(w, base, disk, r, answers, i, s.point.done[0]);
      }
    }
  }

  /** Schedule independence from the answers up: two runs under `continue` that are not cancelled and in
    * which every attempt of every task is answered alike end in the same task states, whatever the
    * limits, task orders and interleavings. */
  lemma SameAnswersAgree(w: Workflow, v: Workflow, base: Tasks, disk: Persisted, disk': Persisted,
                         answers: TaskId -> Answers, r: Run, q: Run)
    requires Accepted(w) && Accepted(v) && v.tasks == w.tasks
    requires w.defaults.failurePolicy == Continue && v.defaults.failurePolicy == Continue
    requires Covers(w, base) && Covers(v, base) && Startable(base)
    requires IsRun(w, base, disk, r) && GivenRun(w, r, answers) && IsRun(v, base, disk', q) && GivenRun(v, q, answers)
    requires var last := r.states[|r.states| - 1]; last.point == Exited && !last.cancelEvent
    requires var last := q.states[|q.states| - 1]; last.point == Exited && !last.cancelEvent
    ensures StatesOf(r.states[|r.states| - 1].tasks) == StatesOf(q.states[|q.states| - 1].tasks)
  {
    hide Inv, Sound, WellFormed, Startable, IsRun, GivenRun, Follows, WorkerOutcome, OutcomeOf;
    AnswersGiveOutcomes(w, base, disk, r, answers);
    AnswersGiveOutcomes(v, base, disk', q, answers);
    SameOutcomes(w, v, answers, q);
    SchedulesAgree(w, v, base, disk, disk', t => OutcomeOf(w, answers, t), r, q);
  }

  lemma SameOutcomes(w: Workflow, v: Workflow, answers: TaskId -> Answers, q: Run)
    requires v.tasks == w.tasks && Follows(q, t => OutcomeOf(v, answers, t))
    ensures Follows(q, t => OutcomeOf(w, answers, t))
  {
    assert forall t :: OutcomeOf(w, answers, t) == OutcomeOf(v, answers, t);
  }
}
