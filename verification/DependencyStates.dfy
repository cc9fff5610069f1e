/** `_mark_dependency_states`: the fixpoint that turns pending tasks into ready, blocked or skipped ones. */
module DependencyStates {
  import opened Workflows
  import opened RunState

  // ---------------------------------------------------------------- the loop, as a function

  /** One visit of one task. */
  function Visit(w: Workflow, m: Tasks, failFast: bool, t: TaskId): (r: Tasks)
    requires Covers(w, m) && t in m
    ensures Covers(w, r)
  {
    if !m[t].state.Open() then m
    else if AnyFailed(w, m, t) then m[t := m[t].(state := Blocked)]
    else if failFast then m[t := m[t].(state := Skipped)]
    else if AllSucceeded(w, m, t) then m[t := m[t].(state := Ready)]
    else m
  }

  /** The visits of one pass, from position `i` of the task order. */
  function PassFrom(w: Workflow, m: Tasks, failFast: bool, i: nat): (r: Tasks)
    requires Covers(w, m) && i <= |w.order|
    ensures Covers(w, r)
    decreases |w.order| - i
  {
    if i == |w.order| then m
    else PassFrom(w, Visit(w, m, failFast, w.order[i]), failFast, i + 1)
  }

  /** How often a task's label can still change. */
  function Slack(s: TaskState): nat {
    if s == Pending then 2 else if s == Ready then 1 else 0
  }

  function TotalSlack(order: seq<TaskId>, m: Tasks): nat
    requires forall t | t in order :: t in m
  {
    if order == [] then 0 else Slack(m[order[0]].state) + TotalSlack(order[1..], m)
  }

  function Remaining(w: Workflow, m: Tasks): nat
    requires Covers(w, m)
  {
    TotalSlack(w.order, m)
  }

  /** Every label moves only down the slack order, and only labels of open tasks move. */
  predicate Falls(m: Tasks, r: Tasks) {
    && m.Keys == r.Keys
    && forall t | t in m ::
         && r[t].attempts == m[t].attempts
         && (r[t] == m[t] || Slack(r[t].state) < Slack(m[t].state))
  }

  lemma OrderCovered(w: Workflow, m: Tasks, i: nat)
    requires Covers(w, m) && i < |w.order|
    ensures w.order[i] in m
  {
  }

  lemma VisitFalls(w: Workflow, m: Tasks, failFast: bool, t: TaskId)
    requires Covers(w, m) && t in m
    ensures Falls(m, Visit(w, m, failFast, t))
  {
    hide WellFormed;
  }

  lemma {:induction false} PassFalls(w: Workflow, m: Tasks, failFast: bool, i: nat)
    requires Covers(w, m) && i <= |w.order|
    ensures Falls(m, PassFrom(w, m, failFast, i))
    decreases |w.order| - i
  {
    hide WellFormed, TaskAccepted;
    if i < |w.order| {
      OrderCovered(w, m, i);
      VisitFalls(w, m, failFast, w.order[i]);
      PassFalls(w, Visit(w, m, failFast, w.order[i]), failFast, i + 1);
    }
  }

  lemma {:induction false} FallingLowersSlack(order: seq<TaskId>, m: Tasks, r: Tasks)
    requires Falls(m, r) && forall t | t in order :: t in m
    ensures TotalSlack(order, r) <= TotalSlack(order, m)
    ensures (exists t | t in order :: r[t] != m[t]) ==> TotalSlack(order, r) < TotalSlack(order, m)
  {
    if order != [] {
      FallingLowersSlack(order[1..], m, r);
      if t :| t in order && r[t] != m[t] && t != order[0] {
        assert t in order[1..];
      }
    }
  }

  lemma PassTerminates(w: Workflow, m: Tasks, failFast: bool)
    requires Covers(w, m) && PassFrom(w, m, failFast, 0) != m
    ensures Remaining(w, PassFrom(w, m, failFast, 0)) < Remaining(w, m)
  {
    var r := PassFrom(w, m, failFast, 0);
    PassFalls(w, m, failFast, 0);
    OrderIn(w, m);
    OrderIn(w, r);
    hide PassFrom, Covers, TotalSlack;
    assert !(forall t | t in m :: r[t] == m[t]);
    FallingLowersSlack(w.order, m, r);
  }

  /** Passes until nothing changes. */
  function Mark(w: Workflow, m: Tasks, failFast: bool): (r: Tasks)
    requires Covers(w, m)
    ensures Covers(w, r)
    decreases Remaining(w, m)
  {
    var next := PassFrom(w, m, failFast, 0);
    if next == m then m
    else
      PassTerminates(w, m, failFast);
      Mark(w, next, failFast)
  }

  // ---------------------------------------------------------------- what the fixpoint is

  /** A chain of dependencies through open tasks that ends in a failed one. */
  ghost predicate FailingChain(w: Workflow, m: Tasks, p: seq<TaskId>)
    requires Covers(w, m)
  {
    && |p| > 1
    && (forall i | 0 <= i < |p| :: p[i] in m)
    && (forall i | 0 <= i < |p| - 1 :: m[p[i]].state.Open() && p[i + 1] in w.tasks[p[i]].dependsOn)
    && m[p[|p| - 1]].state.Failure()
  }

  ghost predicate ReachesFailure(w: Workflow, m: Tasks, t: TaskId)
    requires Covers(w, m)
  {
    exists p :: FailingChain(w, m, p) && p[0] == t
  }

  /** The label that marking without the fail-fast flag gives a task. */
  ghost function Label(w: Workflow, m: Tasks, t: TaskId): TaskState
    requires Covers(w, m) && t in m
  {
    if !m[t].state.Open() then m[t].state
    else if ReachesFailure(w, m, t) then Blocked
    else if AllSucceeded(w, m, t) then Ready
    else m[t].state
  }

  ghost function Labels(w: Workflow, m: Tasks): Tasks
    requires Covers(w, m)
  {
    map t | t in m :: m[t].(state := Label(w, m, t))
  }

  // ---------------------------------------------------------------- stability of the fixpoint

  /** A pass that changes nothing has no visit that changes anything. */
  lemma {:induction false} QuietPass(w: Workflow, m: Tasks, failFast: bool, i: nat, t: TaskId)
    requires Covers(w, m) && i <= |w.order| && PassFrom(w, m, failFast, i) == m && t in w.order[i..]
    ensures t in m && Visit(w, m, failFast, t) == m
    decreases |w.order| - i
  {
    hide WellFormed;
    var u := w.order[i];
    OrderCovered(w, m, i);
    var v := Visit(w, m, failFast, u);
    VisitFalls(w, m, failFast, u);
    PassFalls(w, v, failFast, i + 1);
    assert v == m by {
      assert forall k | k in m :: Slack(m[k].state) <= Slack(v[k].state);
      assert forall k | k in m :: v[k] == m[k];
    }
    if t != u {
      assert t in w.order[i + 1..];
      QuietPass(w, m, failFast, i + 1, t);
    }
  }

  /** After marking, no visit would change any task. */
  lemma {:induction false} MarkIsStable(w: Workflow, m: Tasks, failFast: bool, t: TaskId)
    requires Covers(w, m) && t in m
    ensures Visit(w, Mark(w, m, failFast), failFast, t) == Mark(w, m, failFast)
    decreases Remaining(w, m)
  {
    var next := PassFrom(w, m, failFast, 0);
    assert t in w.order[0..] by { assert w.order[0..] == w.order; }
    hide WellFormed;
    if next == m {
      QuietPass(w, m, failFast, 0, t);
    } else {
      PassTerminates(w, m, failFast);
      MarkIsStable(w, next, failFast, t);
    }
  }

  // ---------------------------------------------------------------- without the fail-fast flag

  /** How far marking may have come from `m`: every changed label is already the final one. */
  ghost predicate TowardsLabels(w: Workflow, m: Tasks, f: Tasks) {
    && Covers(w, m) && Covers(w, f)
    && forall t | t in m ::
         || f[t] == m[t]
         || (m[t].state.Open() && ReachesFailure(w, m, t) && f[t] == m[t].(state := Blocked))
         || (m[t].state.Open() && AllSucceeded(w, m, t) && f[t] == m[t].(state := Ready))
  }

  lemma DependenciesCovered(w: Workflow, m: Tasks, t: TaskId)
    requires Covers(w, m) && t in m
    ensures forall d | d in w.tasks[t].dependsOn :: d in m
  {
  }

  lemma ChainCons(w: Workflow, m: Tasks, t: TaskId, p: seq<TaskId>)
    requires Covers(w, m) && FailingChain(w, m, p) && t in m && m[t].state.Open() && p[0] in w.tasks[t].dependsOn
    ensures FailingChain(w, m, [t] + p)
  {
    hide WellFormed;
    var q := [t] + p;
    assert forall i | 0 < i < |q| :: q[i] == p[i - 1];
  }

  /** A failed dependency of a task seen during marking is the start of a failing chain. */
  lemma FailedDependencyReaches(w: Workflow, m: Tasks, f: Tasks, t: TaskId)
    requires TowardsLabels(w, m, f) && t in m && m[t].state.Open() && AnyFailed(w, f, t)
    ensures ReachesFailure(w, m, t)
  {
    hide WellFormed;
    DependenciesCovered(w, m, t);
    var d :| d in w.tasks[t].dependsOn && f[d].state.Failure();
    if m[d].state.Failure() {
      assert FailingChain(w, m, [t, d]);
    } else {
      var p :| FailingChain(w, m, p) && p[0] == d;
      ChainCons(w, m, t, p);
    }
  }

  /** Marking makes no successes. */
  lemma SuccessUnmade(w: Workflow, m: Tasks, f: Tasks, d: TaskId)
    requires TowardsLabels(w, m, f) && d in m && f[d].state.Success()
    ensures f[d] == m[d]
  {
    hide WellFormed, ReachesFailure, AllSucceeded;
  }

  lemma SucceededAlready(w: Workflow, m: Tasks, f: Tasks, t: TaskId)
    requires TowardsLabels(w, m, f) && t in m && AllSucceeded(w, f, t)
    ensures AllSucceeded(w, m, t)
  {
    DependenciesCovered(w, m, t);
    hide WellFormed, TowardsLabels;
    forall d | d in w.tasks[t].dependsOn ensures m[d].state.Success() {
      SuccessUnmade(w, m, f, d);
    }
  }

  lemma VisitTowardsLabels(w: Workflow, m: Tasks, f: Tasks, t: TaskId)
    requires TowardsLabels(w, m, f) && t in m
    ensures TowardsLabels(w, m, Visit(w, f, false, t))
  {
    hide WellFormed, ReachesFailure, AnyFailed, AllSucceeded;
    if f[t].state.Open() && AnyFailed(w, f, t) {
      FailedDependencyReaches(w, m, f, t);
    }
    if AllSucceeded(w, f, t) {
      SucceededAlready(w, m, f, t);
    }
  }

  lemma {:induction false} PassTowardsLabels(w: Workflow, m: Tasks, f: Tasks, i: nat)
    requires TowardsLabels(w, m, f) && i <= |w.order|
    ensures TowardsLabels(w, m, PassFrom(w, f, false, i))
    decreases |w.order| - i
  {
    hide WellFormed, TowardsLabels;
    assert Covers(w, f) by { CoversOf(w, m, f); }
    if i < |w.order| {
      OrderCovered(w, f, i);
      CoversOf(w, m, f);
      VisitTowardsLabels(w, m, f, w.order[i]);
      PassTowardsLabels(w, m, Visit(w, f, false, w.order[i]), i + 1);
    }
  }

  lemma CoversOf(w: Workflow, m: Tasks, f: Tasks)
    requires TowardsLabels(w, m, f)
    ensures Covers(w, m) && Covers(w, f)
  {
  }

  lemma {:induction false} MarkTowardsLabels(w: Workflow, m: Tasks, f: Tasks)
    requires TowardsLabels(w, m, f)
    ensures TowardsLabels(w, m, Mark(w, f, false))
    decreases Remaining(w, f)
  {
    hide WellFormed, TowardsLabels;
    CoversOf(w, m, f);
    var next := PassFrom(w, f, false, 0);
    if next != f {
      PassTerminates(w, f, false);
      PassTowardsLabels(w, m, f, 0);
      MarkTowardsLabels(w, m, next);
    }
  }

  /** What a stable map says about a task that is still open. */
  lemma StableTask(w: Workflow, f: Tasks, t: TaskId)
    requires Covers(w, f) && t in f && Visit(w, f, false, t) == f && f[t].state.Open()
    ensures !AnyFailed(w, f, t)
    ensures AllSucceeded(w, f, t) ==> f[t].state == Ready
  {
    hide WellFormed;
  }

  lemma ChainTail(w: Workflow, m: Tasks, p: seq<TaskId>)
    requires Covers(w, m) && FailingChain(w, m, p) && |p| > 2
    ensures FailingChain(w, m, p[1..]) && m[p[1]].state.Open()
  {
    hide WellFormed;
    var q := p[1..];
    assert forall i | 0 <= i < |q| :: q[i] == p[i + 1];
  }

  /** Every task with a failing chain ends up failed. */
  lemma {:induction false} ChainBlocks(w: Workflow, m: Tasks, f: Tasks, p: seq<TaskId>)
    requires TowardsLabels(w, m, f) && FailingChain(w, m, p)
    requires forall t | t in f :: Visit(w, f, false, t) == f
    ensures f[p[0]].state.Failure()
    decreases |p|
  {
    hide WellFormed, Visit;
    if |p| > 2 {
      ChainTail(w, m, p);
      ChainBlocks(w, m, f, p[1..]);
    }
    assert f[p[1]].state.Failure();
    assert AnyFailed(w, f, p[0]);
    if f[p[0]].state.Open() {
      StableTask(w, f, p[0]);
    }
  }

  lemma MarkLabel(w: Workflow, m: Tasks, f: Tasks, t: TaskId)
    requires TowardsLabels(w, m, f) && t in m
    requires forall u | u in f :: Visit(w, f, false, u) == f
    ensures f[t] == m[t].(state := Label(w, m, t))
  {
    hide WellFormed, Visit;
    if m[t].state.Open() {
      if ReachesFailure(w, m, t) {
        var p :| FailingChain(w, m, p) && p[0] == t;
        ChainBlocks(w, m, f, p);
      } else if AllSucceeded(w, m, t) {
        DependenciesCovered(w, m, t);
        assert AllSucceeded(w, f, t);
        StableTask(w, f, t);
      }
    }
  }

  /** Without the flag, marking computes exactly the declarative labels: a function of the
    * task map, so the iteration order cannot matter. */
  lemma MarkComputesLabels(w: Workflow, m: Tasks)
    requires Covers(w, m)
    ensures Mark(w, m, false) == Labels(w, m)
  {
    hide WellFormed, Visit, Label, Mark;
    var f := Mark(w, m, false);
    assert TowardsLabels(w, m, m);
    MarkTowardsLabels(w, m, m);
    forall t | t in f ensures Visit(w, f, false, t) == f { MarkIsStable(w, m, false, t); }
    forall t | t in m ensures f[t] == Labels(w, m)[t] { MarkLabel(w, m, f, t); }
  }

  // ---------------------------------------------------------------- with the fail-fast flag

  ghost predicate TowardsStop(w: Workflow, m: Tasks, f: Tasks) {
    && Covers(w, m) && Covers(w, f)
    && forall t | t in m ::
         || f[t] == m[t]
         || (m[t].state.Open() && AnyFailed(w, f, t) && f[t] == m[t].(state := Blocked))
         || (m[t].state.Open() && !AnyFailed(w, m, t) && f[t] == m[t].(state := Skipped))
  }

  lemma MoreFailures(w: Workflow, m: Tasks, f: Tasks, u: TaskId)
    requires Covers(w, m) && Covers(w, f) && u in m
    requires forall t | t in m :: m[t].state.Failure() ==> f[t].state.Failure()
    ensures AnyFailed(w, m, u) ==> AnyFailed(w, f, u)
  {
    DependenciesCovered(w, m, u);
    hide WellFormed;
  }

  lemma VisitTowardsStop(w: Workflow, m: Tasks, f: Tasks, t: TaskId)
    requires TowardsStop(w, m, f) && t in m
    ensures TowardsStop(w, m, Visit(w, f, true, t))
  {
    hide WellFormed, AnyFailed;
    var r := Visit(w, f, true, t);
    VisitFalls(w, f, true, t);
    forall u | u in m ensures AnyFailed(w, m, u) ==> AnyFailed(w, f, u) { MoreFailures(w, m, f, u); }
    forall u | u in m ensures AnyFailed(w, f, u) ==> AnyFailed(w, r, u) { MoreFailures(w, f, r, u); }
  }

  lemma {:induction false} PassTowardsStop(w: Workflow, m: Tasks, f: Tasks, i: nat)
    requires TowardsStop(w, m, f) && i <= |w.order|
    ensures TowardsStop(w, m, PassFrom(w, f, true, i))
    decreases |w.order| - i
  {
    hide WellFormed;
    if i < |w.order| {
      OrderCovered(w, f, i);
      VisitTowardsStop(w, m, f, w.order[i]);
      PassTowardsStop(w, m, Visit(w, f, true, w.order[i]), i + 1);
    }
  }

  lemma {:induction false} MarkTowardsStop(w: Workflow, m: Tasks, f: Tasks)
    requires TowardsStop(w, m, f)
    ensures TowardsStop(w, m, Mark(w, f, true))
    decreases Remaining(w, f)
  {
    hide WellFormed;
    var next := PassFrom(w, f, true, 0);
    if next != f {
      PassTerminates(w, f, true);
      PassTowardsStop(w, m, f, 0);
      MarkTowardsStop(w, m, next);
    }
  }

  lemma NoFailureBehindSuccess(w: Workflow, m: Tasks, f: Tasks, t: TaskId)
    requires TowardsStop(w, m, f) && t in m && AllSucceeded(w, m, t)
    ensures !AnyFailed(w, f, t) && !AnyFailed(w, m, t)
  {
    DependenciesCovered(w, m, t);
    hide WellFormed;
    forall d | d in w.tasks[t].dependsOn ensures f[d] == m[d] && m[d].state.Success() {
      assert m[d].state.Success();
    }
  }

  /** With the flag, no task stays open, tasks that were not open keep their label, tasks with a
    * dependency that had already failed are blocked, and tasks whose dependencies had all
    * succeeded are skipped. A blocked label always has a failed dependency behind it. */
  lemma FailFastStops(w: Workflow, m: Tasks, t: TaskId)
    requires Covers(w, m) && t in m
    ensures var f := Mark(w, m, true);
            && f[t].attempts == m[t].attempts
            && (!m[t].state.Open() ==> f[t] == m[t])
            && (m[t].state.Open() ==> f[t].state == Blocked || f[t].state == Skipped)
            && (m[t].state.Open() && AnyFailed(w, m, t) ==> f[t].state == Blocked)
            && (m[t].state.Open() && AllSucceeded(w, m, t) ==> f[t].state == Skipped)
            && (m[t].state.Open() && f[t].state == Blocked ==> AnyFailed(w, f, t))
  {
    var f := Mark(w, m, true);
    MarkTowardsStop(w, m, m);
    MarkIsStable(w, m, true, t);
    hide WellFormed, Mark, AnyFailed, AllSucceeded;
    if AllSucceeded(w, m, t) {
      NoFailureBehindSuccess(w, m, f, t);
    }
  }

  // ---------------------------------------------------------------- what callers use

  lemma SuccessBlocksChains(w: Workflow, m: Tasks, t: TaskId)
    requires Covers(w, m) && t in m && AllSucceeded(w, m, t)
    ensures !ReachesFailure(w, m, t) && !AnyFailed(w, m, t)
  {
    DependenciesCovered(w, m, t);
    hide WellFormed;
    forall p | |p| > 1 && p[0] == t ensures !FailingChain(w, m, p) {
      assert p[1] in w.tasks[t].dependsOn ==> m[p[1]].state.Success();
    }
  }

  /** The effect of marking on one task, with or without the flag. */
  lemma {:induction false} MarkEffect(w: Workflow, m: Tasks, failFast: bool, t: TaskId)
    requires Covers(w, m) && t in m
    ensures var r := Mark(w, m, failFast)[t];
            && r.attempts == m[t].attempts
            && (!m[t].state.Open() ==> r == m[t])
            && (m[t].state.Open() ==> r.state in {m[t].state, Ready, Blocked, Skipped})
            && (m[t].state.Open() && AllSucceeded(w, m, t) ==> r.state == if failFast then Skipped else Ready)
            && (r.state == Ready ==> !failFast && (m[t].state == Ready || AllSucceeded(w, m, t)))
            && (failFast ==> !r.state.Open())
  {
    hide WellFormed, Mark, FailingChain;
    if failFast {
      FailFastStops(w, m, t);
    } else {
      MarkComputesLabels(w, m);
      if AllSucceeded(w, m, t) {
        SuccessBlocksChains(w, m, t);
      }
    }
  }

  /** After marking, a pending task has a dependency that has neither failed nor succeeded. */
  lemma PendingWaits(w: Workflow, m: Tasks, failFast: bool, t: TaskId)
    requires Covers(w, m) && t in m && Mark(w, m, failFast)[t].state == Pending
    ensures exists d | d in w.tasks[t].dependsOn :: d in m && !Mark(w, m, failFast)[d].state.Terminal()
  {
    var f := Mark(w, m, failFast);
    DependenciesCovered(w, f, t);
    hide WellFormed, Mark;
    if failFast {
      FailFastStops(w, m, t);
      assert false;
    }
    MarkIsStable(w, m, false, t);
    StableTask(w, f, t);
  }

  // ---------------------------------------------------------------- the method

  lemma VisitOnly(w: Workflow, m: Tasks, failFast: bool, t: TaskId)
    requires Covers(w, m) && t in m
    ensures var r := Visit(w, m, failFast, t); r != m ==> r[t] != m[t]
  {
    hide WellFormed, AnyFailed, AllSucceeded;
    assert m == m[t := m[t]];
  }

  lemma VisitSlack(w: Workflow, m: Tasks, failFast: bool, t: TaskId)
    requires Covers(w, m) && t in m
    ensures var r := Visit(w, m, failFast, t);
            r != m ==> Remaining(w, r) < Remaining(w, m)
  {
    var r := Visit(w, m, failFast, t);
    assert t in w.order;
    VisitOnly(w, m, failFast, t);
    VisitFalls(w, m, failFast, t);
    hide Visit, WellFormed;
    if r != m {
      FallingLowersSlack(w.order, m, r);
      assert r[t] != m[t];
    }
  }

  /** The body of the inner loop. */
  method VisitTask(state: WorkflowState, w: Workflow, failFast: bool, t: TaskId) returns (changed: bool)
    requires Covers(w, state.tasks) && t in state.tasks
    modifies state`tasks
    ensures state.tasks == Visit(w, old(state.tasks), failFast, t)
    ensures changed <==> state.tasks != old(state.tasks)
  {
    hide WellFormed, AnyFailed, AllSucceeded;
    var record := state.tasks[t];
    ghost var before := state.tasks;
    changed := false;
    if record.state.Open() {
      if AnyFailed(w, state.tasks, t) {
        state.tasks := state.tasks[t := record.(state := Blocked)];
        changed := true;
      } else if failFast {
        state.tasks := state.tasks[t := record.(state := Skipped)];
        changed := true;
      } else if AllSucceeded(w, state.tasks, t) {
        if record.state != Ready {
          state.tasks := state.tasks[t := record.(state := Ready)];
          changed := true;
        }
      }
    }
    assert before == before[t := record];
    assert changed ==> state.tasks[t] != before[t];
  }

  method MarkDependencyStates(state: WorkflowState, w: Workflow, failFast: bool)
    requires Covers(w, state.tasks)
    modifies state`tasks
    ensures state.tasks == Mark(w, old(state.tasks), failFast)
  {
    hide WellFormed, Remaining, Visit;
    var changed := true;
    while changed
      invariant Covers(w, state.tasks)
      invariant Mark(w, state.tasks, failFast) == Mark(w, old(state.tasks), failFast)
      invariant !changed ==> Mark(w, state.tasks, failFast) == state.tasks
      decreases Remaining(w, state.tasks), changed
    {
      changed := false;
      ghost var start := state.tasks;
      for i := 0 to |w.order|
        invariant Covers(w, state.tasks)
        invariant PassFrom(w, state.tasks, failFast, i) == PassFrom(w, start, failFast, 0)
        invariant !changed ==> state.tasks == start
        invariant changed ==> Remaining(w, state.tasks) < Remaining(w, start)
      {
        var t := w.order[i];
        OrderCovered(w, state.tasks, i);
        VisitSlack(w, state.tasks, failFast, t);
        var relabelled := VisitTask(state, w, failFast, t);
        changed := changed || relabelled;
      }
    }
  }

  // ---------------------------------------------------------------- iteration order

  lemma SameChains(w: Workflow, v: Workflow, m: Tasks, p: seq<TaskId>)
    requires Covers(w, m) && Covers(v, m) && w.tasks == v.tasks
    ensures FailingChain(w, m, p) <==> FailingChain(v, m, p)
  {
    hide WellFormed;
  }

  /** The order in which tasks are visited does not change the result without the flag. With the
    * flag it does not change which tasks are stopped, only which of the two labels they get. */
  lemma {:induction false} OrderDoesNotMatter(w: Workflow, v: Workflow, m: Tasks, t: TaskId)
    requires Covers(w, m) && Covers(v, m) && w.tasks == v.tasks && t in m
    ensures Mark(w, m, false) == Mark(v, m, false)
    ensures Mark(w, m, true)[t].state in {Blocked, Skipped} <==> Mark(v, m, true)[t].state in {Blocked, Skipped}
  {
    hide WellFormed, Mark, FailingChain;
    MarkComputesLabels(w, m);
    MarkComputesLabels(v, m);
    forall p ensures FailingChain(w, m, p) <==> FailingChain(v, m, p) { SameChains(w, v, m, p); }
    assert forall u | u in m :: ReachesFailure(w, m, u) <==> ReachesFailure(v, m, u);
    assert Labels(w, m) == Labels(v, m);
    FailFastStops(w, m, t);
    FailFastStops(v, m, t);
  }
}
