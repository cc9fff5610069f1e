/** When the lists of a document are accepted, in both directions: what their entries must be, and what
  * they normalise to. */
module Normalisation {
  import opened Workflows
  import opened Documents
  import opened Validation

  // ---------------------------------------------------------------- lists, in both directions

  predicate DepsOf(task: TaskId, names: set<TaskId>, items: seq<Json>, r: seq<TaskId>) {
    && |r| == |items| && Distinct(r)
    && forall i | 0 <= i < |items| :: items[i] == Str(r[i]) && r[i] != "" && r[i] != task && r[i] in names
  }

  /** `dependsOn` is accepted exactly if it lists distinct names of other tasks. */
  lemma {:induction false} DepsIff(task: TaskId, names: set<TaskId>, items: seq<Json>, r: seq<TaskId>)
    ensures NormalizeDeps(task, names, items) == Ok(r) <==> DepsOf(task, names, items, r)
  {
    if items != [] {
      var k := |items| - 1;
      if NormalizeDeps(task, names, items) == Ok(r) {
        var front := NormalizeDeps(task, names, items[..k]).value;
        DepsIff(task, names, items[..k], front);
        assert r == front + [items[k].s];
      }
      if DepsOf(task, names, items, r) {
        DepsIff(task, names, items[..k], r[..k]);
        assert r == r[..k] + [r[k]];
        assert r[k] !in r[..k];
      }
    }
  }

  function TriggerText(t: Trigger): (s: string)
    ensures TriggerOf(s) == Some(t)
  {
    match t
    case Timeout => "timeout"
    case TransportError => "transport-error"
  }

  predicate TriggersOf(items: seq<Json>, r: seq<Trigger>) {
    && |r| == |items| && Distinct(r)
    && forall i | 0 <= i < |items| :: items[i] == Str(TriggerText(r[i]))
  }

  lemma {:induction false} TriggersIff(items: seq<Json>, r: seq<Trigger>)
    ensures NormalizeTriggers(items) == Ok(r) <==> TriggersOf(items, r)
  {
    if items != [] {
      var k := |items| - 1;
      if NormalizeTriggers(items) == Ok(r) {
        var front := NormalizeTriggers(items[..k]).value;
        TriggersIff(items[..k], front);
        assert r == front + [TriggerOf(items[k].s).value];
      }
      if TriggersOf(items, r) {
        TriggersIff(items[..k], r[..k]);
        assert r == r[..k] + [r[k]];
        assert r[k] !in r[..k];
      }
    }
  }

  predicate ArgumentsOf(items: seq<Json>, r: seq<string>) {
    && |r| == |items|
    && forall i | 0 <= i < |items| :: items[i] == Str(r[i]) && r[i] != ""
  }

  lemma {:induction false} ArgumentsIff(items: seq<Json>, r: seq<string>)
    ensures NormalizeArguments(items) == Ok(r) <==> ArgumentsOf(items, r)
  {
    if items != [] {
      var k := |items| - 1;
      if NormalizeArguments(items) == Ok(r) {
        var front := NormalizeArguments(items[..k]).value;
        ArgumentsIff(items[..k], front);
        assert r == front + [items[k].s];
      }
      if ArgumentsOf(items, r) {
        ArgumentsIff(items[..k], r[..k]);
        assert r == r[..k] + [r[k]];
      }
    }
  }

  predicate CommandsOf(items: seq<Json>, r: seq<seq<string>>) {
    && |r| == |items|
    && forall i | 0 <= i < |items| :: items[i].List? && items[i].items != [] && ArgumentsOf(items[i].items, r[i])
  }

  lemma {:induction false} CommandsIff(items: seq<Json>, r: seq<seq<string>>)
    ensures NormalizeCommands(items) == Ok(r) <==> CommandsOf(items, r)
  {
    if items != [] {
      var k := |items| - 1;
      if NormalizeCommands(items) == Ok(r) {
        var front := NormalizeCommands(items[..k]).value;
        CommandsIff(items[..k], front);
        var argv := NormalizeArguments(items[k].items).value;
        ArgumentsIff(items[k].items, argv);
        assert r == front + [argv];
      }
      if CommandsOf(items, r) {
        CommandsIff(items[..k], r[..k]);
        ArgumentsIff(items[k].items, r[k]);
        assert r == r[..k] + [r[k]];
      }
    }
  }

  predicate SelectionsOf(items: seq<Json>, deps: seq<TaskId>, r: seq<Selection>) {
    && |r| == |items|
    && forall i | 0 <= i < |items| :: NormalizeSelection(items[i], deps) == Ok(r[i])
  }

  lemma {:induction false} SelectionsIff(items: seq<Json>, deps: seq<TaskId>, r: seq<Selection>)
    ensures NormalizeSelections(items, deps) == Ok(r) <==> SelectionsOf(items, deps, r)
  {
    hide NormalizeSelection;
    if items != [] {
      var k := |items| - 1;
      if NormalizeSelections(items, deps) == Ok(r) {
        var front := NormalizeSelections(items[..k], deps).value;
        SelectionsIff(items[..k], deps, front);
        assert r == front + [NormalizeSelection(items[k], deps).value];
      }
      if SelectionsOf(items, deps, r) {
        SelectionsIff(items[..k], deps, r[..k]);
        assert r == r[..k] + [r[k]];
      }
    }
  }

  /** `providerConcurrency` is accepted exactly if it gives known providers positive limits. */
  predicate LimitsOf(ctx: Context, members: Members, r: map<Provider, int>) {
    && (forall i | 0 <= i < |members| ::
          && members[i].0 != "" && members[i].0 in ctx.providers
          && members[i].0 in r && members[i].1 == Num(Whole(r[members[i].0])) && r[members[i].0] >= 1)
    && (forall p | p in r :: exists i :: 0 <= i < |members| && members[i].0 == p)
  }

  lemma {:induction false} LimitsIff(ctx: Context, members: Members, r: map<Provider, int>)
    requires Distinct(Keys(members))
    ensures NormalizeLimits(ctx, members) == Ok(r) <==> LimitsOf(ctx, members, r)
  {
    if members == [] {
      assert LimitsOf(ctx, members, r) <==> r == map[];
    } else {
      hide LimitsOf;
      var k := |members| - 1;
      var p := members[k].0;
      assert Keys(members[..k]) == Keys(members)[..k];
      if NormalizeLimits(ctx, members) == Ok(r) {
        var front := NormalizeLimits(ctx, members[..k]).value;
        LimitsIff(ctx, members[..k], front);
        LimitsExtend(ctx, members, front);
      }
      if LimitsOf(ctx, members, r) {
        LimitsShrink(ctx, members, r);
        LimitsIff(ctx, members[..k], r - {p});
      }
    }
  }

  lemma LastKeyIsNew(members: Members)
    requires members != [] && Distinct(Keys(members))
    ensures forall i | 0 <= i < |members| - 1 :: members[i].0 != members[|members| - 1].0
  {
    var k := |members| - 1;
    assert forall i | 0 <= i < |members| :: Keys(members)[i] == members[i].0;
    assert forall i | 0 <= i < k :: Keys(members)[i] != Keys(members)[k];
  }

  lemma LimitsShrink(ctx: Context, members: Members, r: map<Provider, int>)
    requires members != [] && Distinct(Keys(members)) && LimitsOf(ctx, members, r)
    ensures var (p, v) := members[|members| - 1];
            && LimitsOf(ctx, members[..|members| - 1], r - {p})
            && p != "" && p in ctx.providers && IsInteger(v) && v.n.i >= 1
            && p in r && r == (r - {p})[p := v.n.i]
  {
    LastKeyIsNew(members);
    hide Distinct, Keys;
    var k := |members| - 1;
    var p := members[k].0;
    var before := members[..k];
    forall q | q in r - {p} ensures exists i :: 0 <= i < |before| && before[i].0 == q {
      var i :| 0 <= i < |members| && members[i].0 == q;
      assert before[i].0 == q;
    }
  }

  lemma LimitsExtend(ctx: Context, members: Members, front: map<Provider, int>)
    requires members != [] && Distinct(Keys(members)) && LimitsOf(ctx, members[..|members| - 1], front)
    requires var (p, v) := members[|members| - 1]; p != "" && p in ctx.providers && IsInteger(v) && v.n.i >= 1
    ensures var (p, v) := members[|members| - 1]; LimitsOf(ctx, members, front[p := v.n.i])
  {
    var k := |members| - 1;
    var (p, v) := members[k];
    var r := front[p := v.n.i];
    var before := members[..k];
    forall i | 0 <= i < |members|
      ensures members[i].0 != "" && members[i].0 in ctx.providers
      ensures members[i].0 in r && members[i].1 == Num(Whole(r[members[i].0])) && r[members[i].0] >= 1
    {
      if i < k {
        assert before[i] == members[i];
        assert Keys(members)[i] != Keys(members)[k];
      }
    }
    forall q | q in r ensures exists i :: 0 <= i < |members| && members[i].0 == q {
      if q == p {
        assert members[k].0 == q;
      } else {
        var i :| 0 <= i < |before| && before[i].0 == q;
        assert members[i].0 == q;
      }
    }
  }
}
