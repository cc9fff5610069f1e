/** The scheduler process itself: the state dictionary, the futures and the counters, updated in place.
  * Each method is one atomic section of the code, and its contract says that it has exactly the
  * effect of the corresponding move, so the theorems about moves are theorems about it. */
module SchedulerProcess {
  import opened Workflows
  import opened RunState
  import opened DependencyStates
  import opened Scheduler
  import opened Controller
  import Prompts

  class Process {
    const w: Workflow
    const controller: StateController
    var futures: map<TaskId, Phase>
    var active: map<Provider, int>
    var cancelEvent: bool
    var failureTriggered: bool
    var point: Point

    predicate Valid()
      reads this, controller.file
    {
      controller.file.contents.Some?
    }

    /** The abstract state. */
    function View(): Sched
      requires Valid()
      reads this, controller.state, controller.file
    {
      Sched(controller.state.tasks, controller.state.cancelRequested, controller.state.status,
            controller.file.contents.value, futures, active, cancelEvent, failureTriggered, point)
    }

    /** Entering `_run_state_machine` with the lease held. */
    constructor (w: Workflow, controller: StateController)
      requires controller.file.contents.Some?
      modifies controller.state, controller.file
      ensures this.w == w && this.controller == controller && Valid()
      ensures View() == InitialSched(old(controller.state.tasks), old(controller.file.contents.value))
    {
      this.w, this.controller := w, controller;
      futures, active := map[], map[];
      cancelEvent, failureTriggered, point := false, false, Polling;
      new;
      controller.Initialize();
    }

    method Poll()
      requires Valid() && point == Polling
      modifies this
      ensures Valid() && View() == DoPoll(old(View()))
      ensures cancelEvent == (old(cancelEvent) || controller.state.cancelRequested) && point == Marking
    {
      if controller.state.cancelRequested {
        cancelEvent := true;
      }
      point := Marking;
    }

    /** Marking and the list of submittable tasks, both under the controller lock. */
    method MarkAndList()
      requires Valid() && point == Marking && Covers(w, controller.state.tasks)
      modifies this, controller.state
      ensures Valid() && View() == DoMark(w, old(View()))
      ensures controller.state.tasks == Mark(w, old(controller.state.tasks), failureTriggered) && point.Submitting?
      ensures forall t :: t in point.queue <==>
                t in w.order && t in controller.state.tasks && controller.state.tasks[t].state == Ready && t !in futures
    {
      hide Covers, Mark;
      MarkDependencyStates(controller.state, w, failureTriggered);
      var tasks := controller.state.tasks;
      OrderIn(w, tasks);
      var ready: seq<TaskId> := [];
      assert w.order[0..] == w.order;
      for i := 0 to |w.order|
        invariant forall t | t in w.order :: t in tasks
        invariant ready + ReadyTasks(w.order[i..], tasks, futures) == ReadyTasks(w.order, tasks, futures)
      {
        var t := w.order[i];
        assert w.order[i..][0] == t && w.order[i..][1..] == w.order[i + 1..];
        if tasks[t].state == Ready && t !in futures {
          ready := ready + [t];
        }
      }
      assert w.order[|w.order|..] == [];
      OrderIsDistinct(w, tasks);
      ReadyTasksSpec(w.order, tasks, futures);
      point := Submitting(ready);
      assert View().tasks == DoMark(w, old(View())).tasks && View().point == DoMark(w, old(View())).point;
      assert View().disk == old(View()).disk && View().futures == old(View()).futures;
    }

    /** One turn of the submission loop. */
    method SubmitNext()
      requires Valid() && point.Submitting? && point.queue != [] && point.queue[0] in w.tasks
      modifies this
      ensures Valid() && View() == DoSubmit(w, old(View()))
      ensures var t, rest := old(point).queue[0], old(point).queue[1..];
              var p := w.tasks[t].route.provider;
              var limits := w.defaults.providerConcurrency;
              var running := if p in old(active) then old(active)[p] else 0;
              if cancelEvent || |old(futures)| >= w.defaults.maxConcurrency then
                point == Submitting([]) && futures == old(futures) && active == old(active)
              else if running >= (if p in limits then limits[p] else w.defaults.maxConcurrency) then
                point == Submitting(rest) && futures == old(futures) && active == old(active)
              else
                point == Submitting(rest) && futures == old(futures)[t := Queued] && active == old(active)[p := running + 1]
    {
      var t := point.queue[0];
      if cancelEvent || |futures| >= w.defaults.maxConcurrency {
        point := Submitting([]);
        return;
      }
      var provider := w.tasks[t].route.provider;
      var limit := if provider in w.defaults.providerConcurrency then w.defaults.providerConcurrency[provider]
                   else w.defaults.maxConcurrency;
      var running := if provider in active then active[provider] else 0;
      point := Submitting(point.queue[1..]);
      if running >= limit {
        return;
      }
      futures := futures[t := Queued];
      active := active[provider := running + 1];
    }

    /** The end of the submission loop. */
    method CloseSubmission()
      requires Valid() && point == Submitting([])
      modifies this
      ensures Valid() && View() == DoClose(old(View()))
      ensures point == if futures != map[] then Waiting
                       else if cancelEvent || forall t | t in controller.state.tasks :: controller.state.tasks[t].state.Terminal()
                       then Finalizing
                       else NoProgress
    {
      if futures == map[] {
        var unfinished := exists t | t in controller.state.tasks :: !controller.state.tasks[t].state.Terminal();
        point := if !unfinished || cancelEvent then Finalizing else NoProgress;
      } else {
        point := Waiting;
      }
    }

    /** `wait` returns: `done` are the completed futures in the order in which they are processed. */
    method CollectCompleted(done: seq<TaskId>)
      requires Valid() && point == Waiting
      modifies this
      ensures Valid() && View() == old(View()).(point := Draining(done))
    {
      point := Draining(done);
    }

    method CompleteNext()
      requires Valid() && point.Draining? && point.done != []
      requires var t := point.done[0];
               t in w.tasks && t in controller.state.tasks && t in futures && futures[t].Finished?
      modifies this, controller.state, controller.file
      ensures Valid() && View() == DoComplete(w, old(View()))
    {
      hide ResultState, Active;
      var t := point.done[0];
      ghost var after := DoComplete(w, View());
      var provider := w.tasks[t].route.provider;
      var state := ResultState(futures[t].result);
      futures := futures - {t};
      active := active[provider := Active(active, provider) - 1];
      point := if |point.done| == 1 then Polling else Draining(point.done[1..]);
      controller.Mutate((c: Persisted) => if t in c.tasks then c.(tasks := c.tasks[t := c.tasks[t].(state := state)]) else c);
      if state in {Failed, TimedOut, Cancelled, VerificationFailed} {
        failureTriggered := w.defaults.failurePolicy == FailFast;
      }
      assert controller.state.tasks == after.tasks && controller.state.status == after.status;
      assert controller.state.cancelRequested == after.cancelRequested;
    }

    /** After the loop: cancel what is left if a cancellation came, decide the overall status, write. */
    method Finish()
      requires Valid() && point == Finalizing && Covers(w, controller.state.tasks)
      modifies this, controller.state, controller.file
      ensures Valid() && View() == DoFinalize(old(View()))
      ensures controller.state.status == if cancelEvent then RunCancelled
                                         else if AllPassed(controller.state.tasks) then RunSucceeded else RunFailed
    {
      ghost var before := View();
      DecideStatus(controller.state, w, cancelEvent);
      FinalStatusIs(before);
      hide FinalStatus, AllPassed, CancelUnfinished;
      controller.Write();
      point := Exited;
    }

    /** `request_cancel`, the signal handler. */
    method RequestCancel()
      requires Valid()
      modifies this
      ensures Valid() && View() == old(View()).(cancelEvent := true)
    {
      cancelEvent := true;
    }

    /** `cancel_workflow` in another process, while this one holds the lease. */
    method CancelFromOutside()
      requires Valid()
      modifies controller.file
      ensures Valid() && View() == old(View()).(disk := old(View()).disk.(cancelRequested := true))
    {
      var signal := CancelWorkflow(controller.file, true);
    }

    // ---------------------------------------------------------------- a worker's sections

    method BeginTask(t: TaskId, files: Prompts.Files)
      requires Valid() && t in futures && futures[t].Queued? && t in w.tasks && t in controller.state.tasks
      requires Prompts.Selectable(w, controller.state.tasks, w.tasks[t].contextFrom)
      modifies this
      ensures Valid() && View() == DoBegin(w, old(View()), t, files)
      ensures futures == old(futures)[t := if Prompts.PromptFor(w, controller.state.tasks, files, t).Ok?
                                           then Prepared(|controller.state.tasks[t].attempts| + 1, 1) else Finished(Raised)]
    {
      var prompt := Prompts.ComposePrompt(w, controller.state, files, t);
      if prompt.Err? {
        futures := futures[t := Finished(Raised)];
      } else {
        futures := futures[t := Prepared(|controller.state.tasks[t].attempts| + 1, 1)];
      }
    }

    method StartAttempt(t: TaskId, id: DispatchId)
      requires Valid() && t in controller.state.tasks && t in futures && futures[t].Prepared?
      requires futures[t].first + futures[t].n >= 1
      modifies this, controller.state, controller.file
      ensures Valid() && View() == DoStart(old(View()), t, id)
      ensures var f, r := old(futures)[t], old(controller.state.tasks)[t];
              && futures == old(futures)[t := Launched(f.first, f.n)]
              && controller.state.tasks == old(controller.state.tasks)[t :=
                   Record(Running, r.attempts + [Attempt(f.first + f.n - 1, id, None)])]
    {
      var first, n := futures[t].first, futures[t].n;
      futures := futures[t := Launched(first, n)];
      controller.Mutate((c: Persisted) =>
        if t in c.tasks && first + n >= 1 then
          c.(tasks := c.tasks[t := Record(Running, c.tasks[t].attempts + [Attempt(first + n - 1, id, None)])])
        else c);
    }

    method CheckCancel(t: TaskId)
      requires Valid() && t in futures && futures[t].Launched?
      modifies this
      ensures Valid() && View() == DoCheck(old(View()), t)
      ensures var f := old(futures)[t];
              futures == old(futures)[t := if cancelEvent then Answered(f.first, f.n, Outcome(StatusCancelled, 130, false))
                                           else InRunner(f.first, f.n)]
    {
      var first, n := futures[t].first, futures[t].n;
      if cancelEvent {
        futures := futures[t := Answered(first, n, Outcome(StatusCancelled, 130, false))];
      } else {
        futures := futures[t := InRunner(first, n)];
      }
    }

    method ReceiveAnswer(t: TaskId, answer: Option<Outcome>)
      requires Valid() && t in futures && futures[t].InRunner?
      modifies this
      ensures Valid() && View() == DoAnswer(old(View()), t, answer)
      ensures var f := old(futures)[t];
              futures == old(futures)[t := if answer.Some? then Answered(f.first, f.n, answer.value) else Finished(Raised)]
    {
      var first, n := futures[t].first, futures[t].n;
      futures := futures[t := if answer.Some? then Answered(first, n, answer.value) else Finished(Raised)];
    }

    method ReportAttempt(t: TaskId)
      requires Valid() && t in controller.state.tasks && controller.state.tasks[t].attempts != []
      requires t in futures && futures[t].Answered?
      modifies this, controller.state, controller.file
      ensures Valid() && View() == DoReport(old(View()), t)
      ensures var f, r := old(futures)[t], old(controller.state.tasks)[t];
              var last := |r.attempts| - 1;
              && futures == old(futures)[t := Recorded(f.first, f.n, f.outcome)]
              && controller.state.tasks == old(controller.state.tasks)[t :=
                   r.(attempts := r.attempts[last := r.attempts[last].(outcome := Some(f.outcome))])]
    {
      var first, n, outcome := futures[t].first, futures[t].n, futures[t].outcome;
      futures := futures[t := Recorded(first, n, outcome)];
      controller.Mutate((c: Persisted) =>
        if t in c.tasks && c.tasks[t].attempts != [] then c.(tasks := c.tasks[t := CloseAttempt(c.tasks[t], outcome)]) else c);
    }

    method JudgeAttempt(t: TaskId, exits: Option<seq<int>>)
      requires Valid() && t in w.tasks && t in futures && futures[t].Recorded?
      requires exits.Some? ==> |exits.value| == |w.tasks[t].verify|
      modifies this
      ensures Valid() && View() == DoJudge(w, old(View()), t, exits)
      ensures cancelEvent ==> futures == old(futures)[t := Finished(Returned(Cancelled))]
    {
      var first, n, outcome := futures[t].first, futures[t].n, futures[t].outcome;
      if cancelEvent || outcome.status == StatusCancelled {
        futures := futures[t := Finished(Returned(Cancelled))];
      } else if outcome.status == StatusSucceeded && outcome.exitCode == 0 {
        if exits == None {
          futures := futures[t := Finished(Raised)];
        } else {
          var state := RunVerification(w.tasks[t], exits.value);
          futures := futures[t := Finished(Returned(state))];
        }
      } else if !ShouldRetry(w.tasks[t], outcome, n) {
        futures := futures[t := Finished(Returned(if outcome.status == StatusTimedOut then TimedOut else Failed))];
      } else {
        futures := futures[t := BackingOff(first, n)];
      }
    }

    method WakeUp(t: TaskId)
      requires Valid() && t in futures && futures[t].BackingOff?
      modifies this
      ensures Valid() && View() == DoWake(old(View()), t)
      ensures var f := old(futures)[t];
              futures == old(futures)[t := if cancelEvent then Finished(Returned(Cancelled)) else Prepared(f.first, f.n + 1)]
    {
      var first, n := futures[t].first, futures[t].n;
      futures := futures[t := if cancelEvent then Finished(Returned(Cancelled)) else Prepared(first, n + 1)];
    }
  }

  predicate AllPassed(tasks: Tasks) {
    forall t | t in tasks :: tasks[t].state in {Succeeded, Verified}
  }

  lemma FinalStatusIs(s: Sched)
    ensures FinalStatus(s) == if s.cancelEvent then RunCancelled else if AllPassed(s.tasks) then RunSucceeded else RunFailed
  {
  }

  /** What a finished loop makes of the records, and the overall status. */
  method DecideStatus(state: WorkflowState, w: Workflow, cancelled: bool)
    requires Covers(w, state.tasks)
    modifies state`tasks, state`status
    ensures state.tasks == if cancelled then CancelUnfinished(old(state.tasks)) else old(state.tasks)
    ensures state.status == if cancelled then RunCancelled
                            else if AllPassed(state.tasks) then RunSucceeded else RunFailed
  {
    if cancelled {
      CancelLeft(state, w);
      state.status := RunCancelled;
    } else if forall t | t in state.tasks :: state.tasks[t].state.Success() {
      state.status := RunSucceeded;
    } else {
      state.status := RunFailed;
    }
  }

  /** The loop over the records after a cancellation. */
  method CancelLeft(state: WorkflowState, w: Workflow)
    requires Covers(w, state.tasks)
    modifies state`tasks
    ensures state.tasks == CancelUnfinished(old(state.tasks))
  {
    hide Covers;
    var tasks := state.tasks;
    OrderIn(w, tasks);
    for i := 0 to |w.order|
      invariant state.tasks.Keys == tasks.Keys
      invariant forall t | t in tasks ::
                  state.tasks[t] == if t in w.order[..i] then CancelUnfinished(tasks)[t] else tasks[t]
    {
      var t := w.order[i];
      assert w.order[..i + 1] == w.order[..i] + [t];
      if state.tasks[t].state in {Pending, Ready, Running} {
        state.tasks := state.tasks[t := state.tasks[t].(state := Cancelled)];
      }
    }
    assert w.order[..|w.order|] == w.order;
  }

  /** The verification loop: it stops at the first command that fails. */
  method RunVerification(task: TaskDef, exits: seq<int>) returns (state: TaskState)
    requires |exits| == |task.verify|
    ensures state == Verification(task, exits)
    ensures state == if task.verify == [] then Succeeded
                     else if forall i | 0 <= i < |exits| :: exits[i] == 0 then Verified else VerificationFailed
  {
    if task.verify == [] {
      return Succeeded;
    }
    state := Verified;
    for i := 0 to |task.verify|
      invariant state == Verified && forall k | 0 <= k < i :: exits[k] == 0
    {
      if exits[i] != 0 {
        return VerificationFailed;
      }
    }
  }
}
