/** A scheduler process from its first write to its last, driven by any order of its own steps and of
  * events from outside. */
module SchedulerDriver {
  import opened Workflows
  import opened RunState
  import opened Scheduler
  import opened SchedulerInvariant
  import opened SchedulerSteps
  import opened SchedulerRuns
  import opened SchedulerTheorems
  import opened Termination
  import opened SchedulerProcess

  /** One move, by the method that makes it. */
  method Perform(p: Process, move: Move)
    requires p.Valid() && Sound(p.w, p.View()) && Enabled(p.w, p.View(), move)
    modifies p, p.controller.state, p.controller.file
    ensures p.Valid() && p.View() == Apply(p.w, old(p.View()), move)
  {
    hide WellFormed, DoPoll, DoMark, DoSubmit, DoClose, DoComplete, DoFinalize, DoBegin, DoStart, DoCheck, DoAnswer, DoReport, DoJudge, DoWake;
    match move
    case Poll => p.Poll();
    case Relabel => p.MarkAndList();
    case Submit => p.SubmitNext();
    case Close => p.CloseSubmission();
    case Collect(done) => p.CollectCompleted(done);
    case Complete => p.CompleteNext();
    case Finalize => p.Finish();
    case Begin(t, files) =>
      ContextSelectable(p.w, p.View().tasks, t);
      p.BeginTask(t, files);
    case Start(t, id) => p.StartAttempt(t, id);
    case Check(t) => p.CheckCancel(t);
    case Answer(t, answer) => p.ReceiveAnswer(t, answer);
    case Report(t) => p.ReportAttempt(t);
    case Judge(t, exits) => p.JudgeAttempt(t, exits);
    case Wake(t) => p.WakeUp(t);
    case Signal => p.RequestCancel();
    case ExternalCancel => p.CancelFromOutside();
  }

  /** What decides the course of a process: whether a cancel or a signal comes in a state, and which of
    * the enabled steps is next. No state comes twice, so this covers every course. */
  datatype Course = Course(cancel: Sched -> bool, signal: Sched -> bool, next: Sched -> Move)

  /** The course names a step whenever there is one to take. */
  ghost predicate Proper(w: Workflow, course: Course) {
    forall s, m :: Enabled(w, s, m) && !m.Outside() ==> Enabled(w, s, course.next(s)) && !course.next(s).Outside()
  }

  /** A run with one more move. */
  ghost function Extend(r: Run, move: Move, s: Sched): Run {
    Run(r.states + [s], r.moves + [move])
  }

  lemma ExtendedRun(w: Workflow, base: Tasks, disk: Persisted, r: Run, move: Move)
    requires IsRun(w, base, disk, r) && Sound(w, r.states[|r.states| - 1]) && Enabled(w, r.states[|r.states| - 1], move)
    ensures var s := r.states[|r.states| - 1];
            IsRun(w, base, disk, Extend(r, move, Apply(w, s, move)))
  {
    hide Sound, Enabled, Apply, InitialSched;
    var s := r.states[|r.states| - 1];
    var q := Extend(r, move, Apply(w, s, move));
    forall i | 0 <= i < |q.moves| ensures Step(w, q.states[i], q.moves[i], q.states[i + 1]) {
      if i < |r.moves| {
        assert Step(w, r.states[i], r.moves[i], r.states[i + 1]);
      }
    }
  }

  /** The process has gone through exactly the states of a run. */
  ghost predicate Traces(p: Process, base: Tasks, disk: Persisted, r: Run)
    reads p, p.controller.state, p.controller.file
  {
    && p.Valid() && IsRun(p.w, base, disk, r) && r.states[|r.states| - 1] == p.View()
    && Accepted(p.w) && Covers(p.w, base) && Startable(base)
  }

  lemma TraceInv(p: Process, base: Tasks, disk: Persisted, r: Run)
    requires Traces(p, base, disk, r)
    ensures p.Valid() && Inv(p.w, base, p.View()) && Sound(p.w, p.View()) && Covers(p.w, p.View().tasks)
  {
    hide Inv, Sound, Startable, Covers, IsRun;
    RunLengths(p.w, base, disk, r);
    RunInv(p.w, base, disk, r, |r.states| - 1);
    CoversTasks(p.w, base, p.View());
  }

  lemma OutsideKeepsPoint(w: Workflow, s: Sched, move: Move)
    requires Sound(w, s) && Enabled(w, s, move)
    ensures move.Outside() ==> Apply(w, s, move).point == s.point
  {
    hide Sound, DoMark, DoSubmit, DoComplete, DoFinalize;
  }

  /** One move of the process, and of the run. */
  method Advance(p: Process, move: Move, ghost base: Tasks, ghost disk: Persisted, ghost r: Run) returns (ghost q: Run)
    requires Traces(p, base, disk, r) && Enabled(p.w, p.View(), move)
    modifies p, p.controller.state, p.controller.file
    ensures Traces(p, base, disk, q) && p.Valid() && q.moves == r.moves + [move]
    ensures Covers(p.w, old(p.View()).tasks) && Covers(p.w, p.View().tasks)
    ensures move.Outside() ==> p.point == old(p.point)
    ensures if move.Outside() then Measure(p.w, p.View()) == Measure(p.w, old(p.View()))
            else Measure(p.w, p.View()) < Measure(p.w, old(p.View()))
  {
    hide Inv, Sound, WellFormed, Startable, Apply, Enabled, Measure, IsRun;
    TraceInv(p, base, disk, r);
    RunLengths(p.w, base, disk, r);
    ExtendedRun(p.w, base, disk, r, move);
    MeasureFalls(p.w, base, p.View(), move);
    OutsideKeepsPoint(p.w, p.View(), move);
    q := Extend(r, move, Apply(p.w, p.View(), move));
    Perform(p, move);
  }

  /** The cancels and signals that come before the next step; more than one of each changes nothing. */
  method TakeEvents(p: Process, course: Course, ghost base: Tasks, ghost disk: Persisted, ghost r: Run) returns (ghost q: Run)
    requires Traces(p, base, disk, r) && p.point != Exited && p.point != NoProgress && Covers(p.w, p.View().tasks)
    modifies p, p.controller.state, p.controller.file
    ensures Traces(p, base, disk, q) && p.point == old(p.point)
    ensures Covers(p.w, p.View().tasks) && Measure(p.w, p.View()) == Measure(p.w, old(p.View()))
  {
    assert p.Valid();
    hide Traces, Covers, Measure, Enabled;
    q := r;
    if course.cancel(p.View()) {
      AlwaysEnabled(p.w, p.View());
      q := Advance(p, ExternalCancel, base, disk, q);
    }
    if course.signal(p.View()) {
      AlwaysEnabled(p.w, p.View());
      q := Advance(p, Signal, base, disk, q);
    }
  }

  /** The next step of the process itself. */
  method TakeStep(p: Process, course: Course, ghost base: Tasks, ghost disk: Persisted, ghost r: Run) returns (ghost q: Run)
    requires Traces(p, base, disk, r) && p.point != Exited && Proper(p.w, course) && Covers(p.w, p.View().tasks)
    modifies p, p.controller.state, p.controller.file
    ensures Traces(p, base, disk, q)
    ensures Covers(p.w, p.View().tasks) && Measure(p.w, p.View()) < Measure(p.w, old(p.View()))
  {
    hide Traces, Covers, Measure, Enabled, Inv, Sound;
    TraceInv(p, base, disk, r);
    ghost var some := CanMove(p.w, base, p.View());
    q := Advance(p, course.next(p.View()), base, disk, r);
  }

  /** From its first write on, whatever its course, the process ends. Then every task is terminal, the
    * file says what memory says, and the whole way was a run. */
  method Drive(p: Process, course: Course, ghost base: Tasks, ghost disk: Persisted) returns (ghost r: Run)
    requires p.Valid() && p.View() == InitialSched(base, disk)
    requires Accepted(p.w) && Covers(p.w, base) && Startable(base) && Proper(p.w, course)
    modifies p, p.controller.state, p.controller.file
    ensures Traces(p, base, disk, r)
    ensures p.point == Exited && p.futures == map[] && AllTerminal(p.controller.state.tasks)
    ensures p.View().disk.tasks == p.controller.state.tasks && p.View().disk.status == p.controller.state.status
    ensures p.controller.state.status ==
              if p.cancelEvent then RunCancelled
              else if forall t | t in p.controller.state.tasks :: p.controller.state.tasks[t].state in {Succeeded, Verified}
              then RunSucceeded
              else RunFailed
  {
    r := Run([p.View()], []);
    StartRun(p.w, base, disk);
    TraceInv(p, base, disk, r);
    hide Inv, Sound, Covers, Measure, Traces, Proper;
    while p.point != Exited
      invariant Traces(p, base, disk, r) && Covers(p.w, p.View().tasks)
      decreases Measure(p.w, p.View())
    {
      TraceInv(p, base, disk, r);
      EndFacts(p.w, base, p.View());
      r := TakeEvents(p, course, base, disk, r);
      r := TakeStep(p, course, base, disk, r);
    }
    TraceInv(p, base, disk, r);
    EndFacts(p.w, base, p.View());
  }

  lemma StartRun(w: Workflow, base: Tasks, disk: Persisted)
    ensures IsRun(w, base, disk, Run([InitialSched(base, disk)], []))
  {
  }

  lemma AlwaysEnabled(w: Workflow, s: Sched)
    ensures Enabled(w, s, ExternalCancel)
    ensures s.point != Exited && s.point != NoProgress ==> Enabled(w, s, Signal)
  {
  }
}
