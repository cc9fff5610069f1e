/** The scheduler terminates: a measure that every own step lowers, and a step to take until the end. */
module Termination {
  import opened Workflows
  import opened RunState
  import opened DependencyStates
  import opened Scheduler
  import opened SchedulerInvariant
  import opened SchedulerSteps
  import opened SchedulerRuns
  import opened SchedulerTheorems
  import Prompts

  // ---------------------------------------------------------------- the measure

  /** Attempts that are left after attempt `n`. */
  function Left(task: TaskDef, n: nat): nat {
    if n <= task.retry.maxAttempts then task.retry.maxAttempts - n else 0
  }

  /** An upper bound on the worker steps, submission and completion that a task still has ahead. */
  function Weight(task: TaskDef, r: Record, phase: Option<Phase>): nat {
    match phase
    case None => if r.state.Open() then 7 * Left(task, 0) + 4 else 0
    case Some(p) =>
      match p
      case Queued => 7 * Left(task, 0) + 3
      case Prepared(_, n) => 7 * Left(task, n) + 9
      case Launched(_, n) => 7 * Left(task, n) + 8
      case InRunner(_, n) => 7 * Left(task, n) + 7
      case Answered(_, n, _) => 7 * Left(task, n) + 6
      case Recorded(_, n, _) => 7 * Left(task, n) + 5
      case BackingOff(_, n) => 7 * Left(task, n) + 4
      case Finished(_) => 1
  }

  function WeightOf(w: Workflow, s: Sched, t: TaskId): nat
    requires t in w.tasks && t in s.tasks
  {
    Weight(w.tasks[t], s.tasks[t], PhaseOf(s, t))
  }

  function TotalWeight(w: Workflow, s: Sched, order: seq<TaskId>): nat
    requires forall t | t in order :: t in w.tasks && t in s.tasks
  {
    if order == [] then 0 else WeightOf(w, s, order[0]) + TotalWeight(w, s, order[1..])
  }

  function PointWeight(w: Workflow, p: Point): nat {
    match p
    case Polling => |w.order| + 4
    case Marking => |w.order| + 3
    case Submitting(queue) => |queue| + 2
    case Waiting => 1
    case Draining(_) => 0
    case Finalizing => 1
    case Exited => 0
    case NoProgress => 0
  }

  function Combine(total: nat, point: nat, scale: nat): nat {
    total * scale + point
  }

  lemma CombineFalls(total: nat, total': nat, point: nat, point': nat, scale: nat)
    requires (total' < total && point' < scale) || (total' <= total && point' < point)
    ensures Combine(total', point', scale) < Combine(total, point, scale)
  {
    if total' < total && point' < scale {
      assert (total' + 1) * scale <= total * scale;
      assert (total' + 1) * scale == total' * scale + scale;
    } else {
      assert total' * scale <= total * scale;
    }
  }

  function Measure(w: Workflow, s: Sched): nat
    requires Covers(w, s.tasks)
  {
    Combine(TotalWeight(w, s, w.order), PointWeight(w, s.point), |w.order| + 6)
  }

  lemma {:induction false} WeightsFall(w: Workflow, s: Sched, s': Sched, order: seq<TaskId>, t: TaskId)
    requires forall u | u in order :: u in w.tasks && u in s.tasks && u in s'.tasks && WeightOf(w, s', u) <= WeightOf(w, s, u)
    ensures TotalWeight(w, s', order) <= TotalWeight(w, s, order)
    ensures t in order && WeightOf(w, s', t) < WeightOf(w, s, t) ==> TotalWeight(w, s', order) < TotalWeight(w, s, order)
  {
    if order != [] {
      assert order[0] in order;
      WeightsFall(w, s, s', order[1..], t);
    }
  }

  /** One task gets lighter and the loop does not restart, or restarts once per lighter task. */
  lemma MeasureFallsWithTask(w: Workflow, s: Sched, s': Sched, t: TaskId)
    requires Covers(w, s.tasks) && Covers(w, s'.tasks) && t in w.order
    requires forall u | u in w.order :: WeightOf(w, s', u) <= WeightOf(w, s, u)
    requires WeightOf(w, s', t) < WeightOf(w, s, t)
    requires PointWeight(w, s'.point) <= |w.order| + 5
    ensures Measure(w, s') < Measure(w, s)
  {
    hide WellFormed, WeightOf, PointWeight, Combine;
    OrderIn(w, s.tasks);
    WeightsFall(w, s, s', w.order, t);
    CombineFalls(TotalWeight(w, s, w.order), TotalWeight(w, s', w.order), PointWeight(w, s.point), PointWeight(w, s'.point), |w.order| + 6);
  }

  /** No task gets heavier and the main loop moves on. */
  lemma MeasureFallsWithPoint(w: Workflow, s: Sched, s': Sched)
    requires Covers(w, s.tasks) && Covers(w, s'.tasks)
    requires forall u | u in w.order :: WeightOf(w, s', u) <= WeightOf(w, s, u)
    requires PointWeight(w, s'.point) < PointWeight(w, s.point)
    ensures Measure(w, s') < Measure(w, s)
  {
    hide WellFormed, WeightOf, PointWeight, Combine;
    OrderIn(w, s.tasks);
    WeightsFall(w, s, s', w.order, "");
    CombineFalls(TotalWeight(w, s, w.order), TotalWeight(w, s', w.order), PointWeight(w, s.point), PointWeight(w, s'.point), |w.order| + 6);
  }

  // ---------------------------------------------------------------- every own move lowers it

  lemma BoundedAttempts(task: TaskDef, b: Record, r: Record, p: Phase)
    requires RecordInv(task, b, r, Some(p)) && task.retry.maxAttempts >= 1
    ensures p.Counted() ==> 1 <= p.n <= task.retry.maxAttempts
    ensures p.BackingOff? ==> p.n < task.retry.maxAttempts
  {
  }

  /** A task in flight whose attempts of this run are within the limit. */
  predicate InFlightTask(w: Workflow, s: Sched, t: TaskId) {
    && t in w.tasks && t in s.tasks && t in s.futures && w.tasks[t].retry.maxAttempts >= 1
    && (s.futures[t].Counted() ==> 1 <= s.futures[t].n <= w.tasks[t].retry.maxAttempts)
    && (s.futures[t].BackingOff? ==> s.futures[t].n < w.tasks[t].retry.maxAttempts)
  }

  // Each worker move makes its task lighter.

  lemma BeginLightens(w: Workflow, s: Sched, t: TaskId, files: Prompts.Files)
    requires InFlightTask(w, s, t) && s.futures[t].Queued? && Prompts.Selectable(w, s.tasks, w.tasks[t].contextFrom)
    ensures t in DoBegin(w, s, t, files).tasks && WeightOf(w, DoBegin(w, s, t, files), t) < WeightOf(w, s, t)
  {
    hide Prompts.PromptFor, Prompts.Selectable, Verification, ShouldRetry;
  }

  lemma StartLightens(w: Workflow, s: Sched, t: TaskId, id: DispatchId)
    requires InFlightTask(w, s, t) && s.futures[t].Prepared? && s.futures[t].first >= 1
    ensures t in DoStart(s, t, id).tasks && WeightOf(w, DoStart(s, t, id), t) < WeightOf(w, s, t)
  {
    hide Prompts.PromptFor, Prompts.Selectable, Verification, ShouldRetry;
  }

  lemma CheckLightens(w: Workflow, s: Sched, t: TaskId)
    requires InFlightTask(w, s, t) && s.futures[t].Launched?
    ensures t in DoCheck(s, t).tasks && WeightOf(w, DoCheck(s, t), t) < WeightOf(w, s, t)
  {
    hide Prompts.PromptFor, Prompts.Selectable, Verification, ShouldRetry;
  }

  lemma AnswerLightens(w: Workflow, s: Sched, t: TaskId, answer: Option<Outcome>)
    requires InFlightTask(w, s, t) && s.futures[t].InRunner?
    ensures t in DoAnswer(s, t, answer).tasks && WeightOf(w, DoAnswer(s, t, answer), t) < WeightOf(w, s, t)
  {
    hide Prompts.PromptFor, Prompts.Selectable, Verification, ShouldRetry;
  }

  lemma ReportLightens(w: Workflow, s: Sched, t: TaskId)
    requires InFlightTask(w, s, t) && s.futures[t].Answered? && s.tasks[t].attempts != []
    ensures t in DoReport(s, t).tasks && WeightOf(w, DoReport(s, t), t) < WeightOf(w, s, t)
  {
    hide Prompts.PromptFor, Prompts.Selectable, Verification, ShouldRetry;
  }

  lemma JudgeLightens(w: Workflow, s: Sched, t: TaskId, exits: Option<seq<int>>)
    requires InFlightTask(w, s, t) && s.futures[t].Recorded?
    ensures t in DoJudge(w, s, t, exits).tasks && WeightOf(w, DoJudge(w, s, t, exits), t) < WeightOf(w, s, t)
  {
    hide Prompts.PromptFor, Prompts.Selectable, Verification, ShouldRetry;
  }

  lemma WakeLightens(w: Workflow, s: Sched, t: TaskId)
    requires InFlightTask(w, s, t) && s.futures[t].BackingOff?
    ensures t in DoWake(s, t).tasks && WeightOf(w, DoWake(s, t), t) < WeightOf(w, s, t)
  {
    hide Prompts.PromptFor, Prompts.Selectable, Verification, ShouldRetry;
  }

  lemma WorkerLowersWeight(w: Workflow, base: Tasks, s: Sched, move: Move)
    requires Inv(w, base, s) && Sound(w, s) && Enabled(w, s, move) && WorkerOf(move).Some?
    ensures var t := WorkerOf(move).value;
            && t in w.tasks && t in s.tasks && t in Apply(w, s, move).tasks
            && WeightOf(w, Apply(w, s, move), t) < WeightOf(w, s, t)
  {
    hide Inv, WellFormed, Covers, RecordInv, Prompts.Selectable, WeightOf,
         DoBegin, DoStart, DoCheck, DoAnswer, DoReport, DoJudge, DoWake;
    var t := WorkerOf(move).value;
    TaskFacts(w, base, s, t);
    BoundedAttempts(w.tasks[t], base[t], s.tasks[t], s.futures[t]);
    match move
    case Begin(_, files) =>
      ContextSelectable(w, s.tasks, t);
      BeginLightens(w, s, t, files);
    case Start(_, id) => StartLightens(w, s, t, id);
    case Check(_) => CheckLightens(w, s, t);
    case Answer(_, answer) => AnswerLightens(w, s, t, answer);
    case Report(_) => ReportLightens(w, s, t);
    case Judge(_, exits) => JudgeLightens(w, s, t, exits);
    case Wake(_) => WakeLightens(w, s, t);
  }

  lemma WorkerLowersMeasure(w: Workflow, base: Tasks, s: Sched, move: Move)
    requires Inv(w, base, s) && Sound(w, s) && Enabled(w, s, move) && WorkerOf(move).Some?
    ensures Covers(w, s.tasks) && Covers(w, Apply(w, s, move).tasks)
    ensures Measure(w, Apply(w, s, move)) < Measure(w, s)
  {
    hide Inv, Sound, WellFormed, RecordInv, Weight, Apply, Enabled, Measure;
    var s' := Apply(w, s, move);
    WorkerSteps(w, base, s, move);
    WorkerLowersWeight(w, base, s, move);
    CoversTasks(w, base, s);
    OrderIn(w, s.tasks);
    forall u | u in w.order ensures WeightOf(w, s', u) <= WeightOf(w, s, u) {
      assert u != WorkerOf(move).value ==> PhaseOf(s', u) == PhaseOf(s, u);
    }
    QueueLength(w, base, s);
    MeasureFallsWithTask(w, s, s', WorkerOf(move).value);
  }

  /** The submission queue is a list of distinct tasks. */
  lemma QueueLength(w: Workflow, base: Tasks, s: Sched)
    requires Inv(w, base, s)
    ensures PointWeight(w, s.point) <= |w.order| + 4
  {
    hide Records, Dependencies, Accounting, DiskInv, AllSucceeded, Quiet;
    if s.point.Submitting? {
      var q := s.point.queue;
      OrderIn(w, s.tasks);
      DistinctFits(q, w.order);
    }
  }

  lemma {:induction false} DistinctFits<T>(q: seq<T>, order: seq<T>)
    requires Distinct(q) && forall t | t in q :: t in order
    ensures |q| <= |order|
  {
    if q != [] {
      DistinctTail(q);
      assert q[0] in order;
      var k :| 0 <= k < |order| && order[k] == q[0];
      var rest := order[..k] + order[k + 1..];
      forall t | t in q[1..] ensures t in rest {
        var i :| 0 <= i < |order| && order[i] == t;
        assert t == if i < k then rest[i] else rest[i - 1];
      }
      DistinctFits(q[1..], rest);
    }
  }

  lemma MarkLowersMeasure(w: Workflow, base: Tasks, s: Sched)
    requires Inv(w, base, s) && s.point == Marking && Covers(w, s.tasks)
    ensures Covers(w, DoMark(w, s).tasks) && Measure(w, DoMark(w, s)) < Measure(w, s)
  {
    hide Inv, WellFormed, Mark, Measure, ReadyTasks;
    var s' := DoMark(w, s);
    OrderIn(w, s.tasks);
    forall u | u in w.order ensures WeightOf(w, s', u) <= WeightOf(w, s, u) {
      MarkEffect(w, s.tasks, s.failureTriggered, u);
      assert PhaseOf(s', u) == PhaseOf(s, u);
    }
    ReadyTasksShort(w.order, s'.tasks, s.futures);
    MeasureFallsWithPoint(w, s, s');
  }

  lemma {:induction false} ReadyTasksShort(order: seq<TaskId>, m: Tasks, futures: map<TaskId, Phase>)
    requires forall t | t in order :: t in m
    ensures |ReadyTasks(order, m, futures)| <= |order|
  {
    if order != [] {
      ReadyTasksShort(order[1..], m, futures);
    }
  }

  lemma SubmitLowersMeasure(w: Workflow, base: Tasks, s: Sched)
    requires Inv(w, base, s) && Sound(w, s) && s.point.Submitting? && s.point.queue != [] && Covers(w, s.tasks)
    ensures Covers(w, DoSubmit(w, s).tasks) && Measure(w, DoSubmit(w, s)) < Measure(w, s)
  {
    hide Inv, Sound, WellFormed, Measure, DoSubmit;
    QueueHead(w, base, s);
    SubmitShape(w, s);
    var s' := DoSubmit(w, s);
    OrderIn(w, s.tasks);
    forall u | u in w.order ensures WeightOf(w, s', u) <= WeightOf(w, s, u) {
      assert u != s.point.queue[0] ==> PhaseOf(s', u) == PhaseOf(s, u);
    }
    MeasureFallsWithPoint(w, s, s');
  }

  lemma CompleteLowersMeasure(w: Workflow, base: Tasks, s: Sched)
    requires Inv(w, base, s) && Sound(w, s) && s.point.Draining? && s.point.done != [] && Covers(w, s.tasks)
    ensures Covers(w, DoComplete(w, s).tasks) && Measure(w, DoComplete(w, s)) < Measure(w, s)
  {
    hide Inv, Sound, WellFormed, Measure, RecordInv;
    var t := s.point.done[0];
    DoneHead(w, base, s);
    DoneNotReady(w, base, s);
    var s' := DoComplete(w, s);
    OrderIn(w, s.tasks);
    assert !ResultState(s.futures[t].result).Open();
    forall u | u in w.order ensures WeightOf(w, s', u) <= WeightOf(w, s, u) {
      assert u != t ==> PhaseOf(s', u) == PhaseOf(s, u);
    }
    MeasureFallsWithTask(w, s, s', t);
  }

  lemma FinalizeLowersMeasure(w: Workflow, s: Sched)
    requires s.point == Finalizing && Covers(w, s.tasks)
    ensures Covers(w, DoFinalize(s).tasks) && Measure(w, DoFinalize(s)) < Measure(w, s)
  {
    hide WellFormed, Measure, DoFinalize;
    FinalShape(s);
    var s' := DoFinalize(s);
    OrderIn(w, s.tasks);
    forall u | u in w.order ensures WeightOf(w, s', u) <= WeightOf(w, s, u) {
      assert PhaseOf(s', u) == PhaseOf(s, u);
    }
    MeasureFallsWithPoint(w, s, s');
  }

  lemma PointMovesLowerMeasure(w: Workflow, s: Sched, s': Sched)
    requires Covers(w, s.tasks) && s'.tasks == s.tasks && s'.futures == s.futures
    requires PointWeight(w, s'.point) < PointWeight(w, s.point)
    ensures Measure(w, s') < Measure(w, s)
  {
    hide WellFormed, Measure, PointWeight;
    OrderIn(w, s.tasks);
    forall u | u in w.order ensures WeightOf(w, s', u) <= WeightOf(w, s, u) {
      assert PhaseOf(s', u) == PhaseOf(s, u);
    }
    MeasureFallsWithPoint(w, s, s');
  }

  lemma {:induction false} SameWeight(w: Workflow, s: Sched, s': Sched, order: seq<TaskId>)
    requires forall t | t in order :: t in w.tasks && t in s.tasks
    requires s'.tasks == s.tasks && s'.futures == s.futures
    ensures TotalWeight(w, s', order) == TotalWeight(w, s, order)
  {
    if order != [] {
      assert PhaseOf(s', order[0]) == PhaseOf(s, order[0]);
      SameWeight(w, s, s', order[1..]);
    }
  }

  /** Every own move lowers the measure; moves from outside leave it as it is. */
  lemma {:induction false} MeasureFalls(w: Workflow, base: Tasks, s: Sched, move: Move)
    requires Inv(w, base, s) && Sound(w, s) && Enabled(w, s, move)
    ensures Covers(w, s.tasks) && Covers(w, Apply(w, s, move).tasks)
    ensures move.Outside() ==> Measure(w, Apply(w, s, move)) == Measure(w, s)
    ensures !move.Outside() ==> Measure(w, Apply(w, s, move)) < Measure(w, s)
  {
    hide Inv, Sound, WellFormed, Measure, DoMark, DoSubmit, DoComplete, DoFinalize,
         DoBegin, DoStart, DoCheck, DoAnswer, DoReport, DoJudge, DoWake;
    CoversTasks(w, base, s);
    match move
    case Poll => PointMovesLowerMeasure(w, s, DoPoll(s));
    case Relabel => MarkLowersMeasure(w, base, s);
    case Submit => SubmitLowersMeasure(w, base, s);
    case Close => PointMovesLowerMeasure(w, s, DoClose(s));
    case Collect(done) => PointMovesLowerMeasure(w, s, s.(point := Draining(done)));
    case Complete => CompleteLowersMeasure(w, base, s);
    case Finalize => FinalizeLowersMeasure(w, s);
    case Signal => OutsideKeepsMeasure(w, s, s.(cancelEvent := true));
    case ExternalCancel => OutsideKeepsMeasure(w, s, s.(disk := s.disk.(cancelRequested := true)));
    case _ => WorkerLowersMeasure(w, base, s, move);
  }

  lemma OutsideKeepsMeasure(w: Workflow, s: Sched, s': Sched)
    requires Covers(w, s.tasks) && s'.tasks == s.tasks && s'.futures == s.futures && s'.point == s.point
    ensures Measure(w, s') == Measure(w, s)
  {
    OrderIn(w, s.tasks);
    SameWeight(w, s, s', w.order);
  }

  // ---------------------------------------------------------------- there is always a next move

  /** Until it has exited, the scheduler has a move of its own, provided runner calls return. */
  lemma CanMove(w: Workflow, base: Tasks, s: Sched) returns (move: Move)
    requires Inv(w, base, s) && s.point != Exited
    ensures Enabled(w, s, move) && !move.Outside()
  {
    Parts(w, base, s);
    hide Inv, Records, Dependencies, Accounting, DiskInv, AllSucceeded, Quiet, WellFormed;
    match s.point
    case Polling => move := Poll;
    case Marking => move := Relabel;
    case Submitting(queue) => move := if queue == [] then Close else Submit;
    case Waiting =>
      var t :| t in s.futures;
      move := WorkerMove(w, s, t);
    case Draining(_) => move := Complete;
    case Finalizing => move := Finalize;
  }

  function WorkerMove(w: Workflow, s: Sched, t: TaskId): (move: Move)
    requires t in s.futures && t in w.tasks && s.point == Waiting
    ensures Enabled(w, s, move) && !move.Outside()
  {
    match s.futures[t]
    case Queued => Begin(t, Prompts.Files(map[], map[], _ => false, _ => Prompts.Unparsable, _ => []))
    case Prepared(_, _) => Start(t, "")
    case Launched(_, _) => Check(t)
    case InRunner(_, _) => Answer(t, None)
    case Answered(_, _, _) => Report(t)
    case Recorded(_, _, _) => Judge(t, None)
    case BackingOff(_, _) => Wake(t)
    case Finished(_) => Collect([t])
  }

  /** The number of own moves in a run. */
  function OwnMoves(moves: seq<Move>): nat {
    if moves == [] then 0
    else OwnMoves(moves[..|moves| - 1]) + if moves[|moves| - 1].Outside() then 0 else 1
  }

  lemma {:induction false} OwnMovesBounded(w: Workflow, base: Tasks, disk: Persisted, r: Run, i: nat)
    requires Accepted(w) && Covers(w, base) && Startable(base) && IsRun(w, base, disk, r) && i < |r.states|
    ensures Covers(w, r.states[i].tasks)
    ensures OwnMoves(r.moves[..i]) + Measure(w, r.states[i]) <= Measure(w, InitialSched(base, disk))
  {
    hide Inv, Sound, WellFormed, Startable, Apply, Enabled, Measure, Step;
    RunInv(w, base, disk, r, i);
    CoversTasks(w, base, r.states[i]);
    if i > 0 {
      OwnMovesBounded(w, base, disk, r, i - 1);
      RunStep(w, base, disk, r, i - 1);
      MeasureFalls(w, base, r.states[i - 1], r.moves[i - 1]);
      assert r.moves[..i][..i - 1] == r.moves[..i - 1];
    }
  }

  /** Termination: the scheduler's own moves in a run are bounded by a number that its start
    * determines, and a run that cannot go on by itself has left the loop with every task terminal. */
  lemma RunTerminates(w: Workflow, base: Tasks, disk: Persisted, r: Run)
    requires Accepted(w) && Covers(w, base) && Startable(base) && IsRun(w, base, disk, r)
    ensures OwnMoves(r.moves) <= Measure(w, InitialSched(base, disk))
    ensures var last := r.states[|r.states| - 1];
            (forall move :: Enabled(w, last, move) ==> move.Outside()) ==> last.point == Exited && AllTerminal(last.tasks)
  {
    hide Inv, Sound, WellFormed, Startable, Apply, Enabled, Measure, IsRun;
    RunLengths(w, base, disk, r);
    OwnMovesBounded(w, base, disk, r, |r.moves|);
    assert r.moves[..|r.moves|] == r.moves;
    var last := r.states[|r.states| - 1];
    RunInv(w, base, disk, r, |r.moves|);
    NeverStuck(w, base, disk, r, |r.moves|);
    if last.point != Exited {
      var move := CanMove(w, base, last);
    }
  }
}
