/** Which of its two labels a stopped task gets under fail-fast, and when that depends on the order in
  * which the tasks are visited. */
module FailFastOrder {
  import opened Workflows
  import opened RunState
  import opened DependencyStates

  /** A dependency of the `j`th task is open and comes earlier in the order. */
  predicate EarlierOpenDependency(w: Workflow, m: Tasks, j: nat)
    requires Covers(w, m) && j < |w.order|
  {
    exists k | 0 <= k < j :: w.order[k] in w.tasks[w.order[j]].dependsOn && m[w.order[k]].state.Open()
  }

  /** The label that an open task is given: blocked if a dependency had failed, or is open and is
    * labelled first. */
  function StopLabel(w: Workflow, m: Tasks, j: nat): TaskState
    requires Covers(w, m) && j < |w.order|
  {
    if AnyFailed(w, m, w.order[j]) || EarlierOpenDependency(w, m, j) then Blocked else Skipped
  }

  /** What becomes of the record of the `j`th task. */
  function LabelledRecord(w: Workflow, m: Tasks, j: nat): Record
    requires Covers(w, m) && j < |w.order| && w.order[j] in m
  {
    var r := m[w.order[j]];
    if r.state.Open() then r.(state := StopLabel(w, m, j)) else r
  }

  /** The tasks before position `i` have their label, the others are as they were. */
  ghost predicate LabelledUpTo(w: Workflow, m: Tasks, f: Tasks, i: nat) {
    && Covers(w, m) && Covers(w, f) && i <= |w.order|
    && (forall j | 0 <= j < i :: f[w.order[j]] == LabelledRecord(w, m, j))
    && (forall j | i <= j < |w.order| :: f[w.order[j]] == m[w.order[j]])
  }

  lemma LabelledCovers(w: Workflow, m: Tasks, f: Tasks, i: nat)
    requires LabelledUpTo(w, m, f, i)
    ensures Covers(w, m) && Covers(w, f) && i <= |w.order|
    ensures forall j | 0 <= j < |w.order| :: w.order[j] in f
  {
  }

  /** Before the `i`th visit, a task sees a failed dependency exactly if one had failed or an earlier
    * one was open. */
  lemma FailedBeforeVisit(w: Workflow, m: Tasks, f: Tasks, i: nat)
    requires LabelledUpTo(w, m, f, i) && i < |w.order|
    ensures AnyFailed(w, f, w.order[i]) <==> AnyFailed(w, m, w.order[i]) || EarlierOpenDependency(w, m, i)
  {
    var t := w.order[i];
    DependenciesCovered(w, m, t);
    hide StopLabel;
    forall d | d in w.tasks[t].dependsOn
      ensures f[d].state.Failure() <==>
              m[d].state.Failure() || (m[d].state.Open() && exists k | 0 <= k < i :: w.order[k] == d)
    {
      assert d in w.order;
      var k :| 0 <= k < |w.order| && w.order[k] == d;
      LabelIsFailure(w, m, k);
      if k >= i {
        forall l | 0 <= l < i ensures w.order[l] != d {
        }
      }
    }
  }

  lemma LabelIsFailure(w: Workflow, m: Tasks, j: nat)
    requires Covers(w, m) && j < |w.order|
    ensures StopLabel(w, m, j).Failure()
  {
    hide WellFormed;
  }

  lemma VisitLabel(w: Workflow, m: Tasks, f: Tasks, i: nat)
    requires LabelledUpTo(w, m, f, i) && i < |w.order|
    ensures Covers(w, m) && Covers(w, f) && w.order[i] in m && w.order[i] in f
    ensures Visit(w, f, true, w.order[i]) == f[w.order[i] := LabelledRecord(w, m, i)]
  {
    var t := w.order[i];
    FailedBeforeVisit(w, m, f, i);
    LabelledCovers(w, m, f, i);
    assert f[t] == m[t];
    assert f == f[t := f[t]];
    hide LabelledUpTo, WellFormed, AnyFailed, EarlierOpenDependency;
  }

  lemma OrderDistinct(w: Workflow, m: Tasks, i: nat)
    requires Covers(w, m) && i < |w.order|
    ensures forall j | 0 <= j < |w.order| && j != i :: w.order[j] != w.order[i]
  {
  }

  lemma VisitLabels(w: Workflow, m: Tasks, f: Tasks, i: nat)
    requires LabelledUpTo(w, m, f, i) && i < |w.order|
    ensures LabelledUpTo(w, m, Visit(w, f, true, w.order[i]), i + 1)
  {
    VisitLabel(w, m, f, i);
    LabelledCovers(w, m, f, i);
    OrderDistinct(w, m, i);
    hide WellFormed, LabelledRecord, Visit;
    var f' := Visit(w, f, true, w.order[i]);
    forall j | 0 <= j < i + 1 ensures f'[w.order[j]] == LabelledRecord(w, m, j) {
    }
  }

  lemma {:induction false} PassLabels(w: Workflow, m: Tasks, f: Tasks, i: nat)
    requires LabelledUpTo(w, m, f, i)
    ensures LabelledUpTo(w, m, PassFrom(w, f, true, i), |w.order|)
    decreases |w.order| - i
  {
    hide LabelledUpTo, WellFormed, Visit;
    LabelledCovers(w, m, f, i);
    if i < |w.order| {
      VisitLabels(w, m, f, i);
      PassLabels(w, m, Visit(w, f, true, w.order[i]), i + 1);
    }
  }

  lemma {:induction false} NothingOpen(w: Workflow, f: Tasks, i: nat)
    requires Covers(w, f) && i <= |w.order| && forall t | t in f :: !f[t].state.Open()
    ensures PassFrom(w, f, true, i) == f
    decreases |w.order| - i
  {
    hide WellFormed;
    if i < |w.order| {
      OrderCovered(w, f, i);
      NothingOpen(w, f, i + 1);
    }
  }

  lemma NoneLeftOpen(w: Workflow, m: Tasks, f: Tasks)
    requires LabelledUpTo(w, m, f, |w.order|)
    ensures forall t | t in f :: !f[t].state.Open()
  {
    hide StopLabel;
    forall t | t in f ensures !f[t].state.Open() {
      assert t in w.order;
      var k :| 0 <= k < |w.order| && w.order[k] == t;
      LabelIsFailure(w, m, k);
    }
  }

  /** One pass does it all. */
  lemma {:induction false} MarkIsOnePass(w: Workflow, m: Tasks)
    requires Covers(w, m)
    ensures Mark(w, m, true) == PassFrom(w, m, true, 0)
    ensures LabelledUpTo(w, m, Mark(w, m, true), |w.order|)
  {
    var f := PassFrom(w, m, true, 0);
    PassLabels(w, m, m, 0);
    NoneLeftOpen(w, m, f);
    hide WellFormed, LabelledUpTo;
    NothingOpen(w, f, 0);
    if f != m {
      assert Mark(w, m, true) == Mark(w, f, true);
    }
  }

  /** Dependency marking under fail-fast, exactly: every open task gets the label that its position in
    * the order gives it, and every other task keeps its record. */
  lemma FailFastLabels(w: Workflow, m: Tasks, j: nat)
    requires Covers(w, m) && j < |w.order|
    ensures var t := w.order[j];
            Mark(w, m, true)[t] == if m[t].state.Open() then m[t].(state := StopLabel(w, m, j)) else m[t]
  {
    hide StopLabel, Mark, PassFrom;
    MarkIsOnePass(w, m);
  }

  /** The documented reading: the direct dependents of a failed task are blocked, the other open tasks
    * skipped. It holds exactly if no open task without a failed dependency comes after an open one. */
  lemma {:induction false} DocumentedLabelsIff(w: Workflow, m: Tasks)
    requires Covers(w, m)
    ensures (forall t | t in m && m[t].state.Open() ::
               Mark(w, m, true)[t].state == if AnyFailed(w, m, t) then Blocked else Skipped)
            <==> forall j | 0 <= j < |w.order| && m[w.order[j]].state.Open() && EarlierOpenDependency(w, m, j) ::
                   AnyFailed(w, m, w.order[j])
  {
    hide Mark, WellFormed, AnyFailed, EarlierOpenDependency;
    OrderIn(w, m);
    forall j | 0 <= j < |w.order|
      ensures var t := w.order[j];
              m[t].state.Open() ==> Mark(w, m, true)[t].state == StopLabel(w, m, j)
    {
      FailFastLabels(w, m, j);
    }
    forall t | t in m ensures exists j :: 0 <= j < |w.order| && w.order[j] == t {
      var j := PlaceOf(w, m, t);
    }
  }

  // ---------------------------------------------------------------- two orders

  /** The order with one task moved to the front. */
  function Front(t: TaskId, order: seq<TaskId>): seq<TaskId> {
    [t] + Without(t, order)
  }

  function Without(t: TaskId, order: seq<TaskId>): (r: seq<TaskId>)
    ensures forall u :: u in r <==> u in order && u != t
  {
    if order == [] then []
    else if order[0] == t then Without(t, order[1..])
    else [order[0]] + Without(t, order[1..])
  }

  lemma {:induction false} WithoutDistinct(t: TaskId, order: seq<TaskId>)
    requires Distinct(order)
    ensures Distinct(Without(t, order))
  {
    if order != [] {
      WithoutDistinct(t, order[1..]);
      assert order[0] !in order[1..];
    }
  }

  lemma FrontCovers(w: Workflow, m: Tasks, t: TaskId)
    requires Covers(w, m) && t in m
    ensures Covers(w.(order := Front(t, w.order)), m)
  {
    WithoutDistinct(t, w.order);
    hide TaskAccepted;
  }

  /** An open task that no dependency stops, although one is open. */
  ghost predicate Undecided(w: Workflow, m: Tasks, t: TaskId)
    requires Covers(w, m) && t in m
  {
    && m[t].state.Open() && !AnyFailed(w, m, t)
    && exists d | d in w.tasks[t].dependsOn :: d in m && m[d].state.Open()
  }

  lemma PlaceOf(w: Workflow, m: Tasks, t: TaskId) returns (j: nat)
    requires Covers(w, m) && t in m
    ensures j < |w.order| && w.order[j] == t
  {
    assert t in w.order;
    j :| 0 <= j < |w.order| && w.order[j] == t;
  }

  /** In an order that starts with the task itself it is skipped, in one that starts with its open
    * dependency it is blocked. */
  lemma {:induction false} TwoOrders(w: Workflow, m: Tasks, t: TaskId, d: TaskId)
    requires Covers(w, m) && t in m && m[t].state.Open() && !AnyFailed(w, m, t)
    requires d in w.tasks[t].dependsOn && d in m && d != t && m[d].state.Open()
    ensures var self, other := w.(order := Front(t, w.order)), w.(order := Front(d, w.order));
            && Covers(self, m) && Mark(self, m, true)[t].state == Skipped
            && Covers(other, m) && Mark(other, m, true)[t].state == Blocked
  {
    hide Mark, Covers;
    var self, other := w.(order := Front(t, w.order)), w.(order := Front(d, w.order));
    FrontCovers(w, m, t);
    FrontCovers(w, m, d);
    FailFastLabels(self, m, 0);
    var j := PlaceOf(other, m, t);
    assert j > 0;
    FailFastLabels(other, m, j);
    assert other.order[0] == d;
  }

  /** Under fail-fast the result of dependency marking is the same for every order of the tasks exactly
    * if no task is undecided. */
  lemma OrderMattersIff(w: Workflow, m: Tasks)
    requires Covers(w, m)
    ensures (forall v :: Covers(v, m) && v.tasks == w.tasks ==> Mark(v, m, true) == Mark(w, m, true))
            <==> forall t | t in m :: !Undecided(w, m, t)
  {
    hide Mark, WellFormed, AnyFailed;
    if t :| t in m && Undecided(w, m, t) {
      var d :| d in w.tasks[t].dependsOn && d in m && m[d].state.Open();
      NoSelfDependency(w, m, t);
      TwoOrders(w, m, t, d);
    } else {
      forall v | Covers(v, m) && v.tasks == w.tasks ensures Mark(v, m, true) == Mark(w, m, true) {
        forall t | t in m ensures Mark(v, m, true)[t] == Mark(w, m, true)[t] { DecidedLabel(w, v, m, t); }
      }
    }
  }

  lemma NoSelfDependency(w: Workflow, m: Tasks, t: TaskId)
    requires Covers(w, m) && t in m
    ensures t !in w.tasks[t].dependsOn
  {
    assert TaskAccepted(w.tasks.Keys, t, w.tasks[t]);
  }

  lemma DecidedLabel(w: Workflow, v: Workflow, m: Tasks, t: TaskId)
    requires Covers(w, m) && Covers(v, m) && v.tasks == w.tasks && t in m && !Undecided(w, m, t)
    ensures Mark(v, m, true)[t] == Mark(w, m, true)[t]
  {
    hide Mark, WellFormed;
    var j := PlaceOf(w, m, t);
    var k := PlaceOf(v, m, t);
    FailFastLabels(w, m, j);
    FailFastLabels(v, m, k);
    assert AnyFailed(w, m, t) == AnyFailed(v, m, t);
    OrderIn(w, m);
    OrderIn(v, m);
  }
}
