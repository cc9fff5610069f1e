/** `validate_workflow`: what acceptance guarantees the scheduler, and the loops of the normalisation
  * functions. */
module Acceptance {
  import opened Workflows
  import opened Documents
  import opened Names
  import opened CycleFinder
  import opened Validation
  import opened Normalisation
  import opened NormalForm
  import opened Meaning

  lemma ContextAccepted(context: Json, deps: seq<TaskId>)
    requires NormalizeContextFrom(context, deps).Ok?
    ensures forall c | c in NormalizeContextFrom(context, deps).value :: c.task in deps && c.maxBytes >= 1
  {
    if context != Null {
      SelectionsIff(context.items, deps, NormalizeContextFrom(context, deps).value);
    }
  }

  lemma TaskIsAccepted(ctx: Context, defaults: Defaults, names: set<TaskId>, task: TaskId, def: Json)
    requires NormalizeTask(ctx, defaults, names, task, def).Ok?
    ensures TaskAccepted(names, task, NormalizeTask(ctx, defaults, names, task, def).value.0)
  {
    hide NormalizeRoute, NormalizePrompt, NormalizeDeps, NormalizeContextFrom, NormalizeVerify, Sort, OnlyKeys, Get, Distinct,
         NormalizeTriggers;
    var (t, _) := NormalizeTask(ctx, defaults, names, task, def).value;
    var rawDeps := GetOrNull(def.members, "dependsOn");
    var items := if rawDeps == Null then [] else rawDeps.items;
    var unsorted := NormalizeDeps(task, names, items).value;
    DepsIff(task, names, items, unsorted);
    SortSpec(unsorted);
    PermutationKeeps(unsorted, t.dependsOn);
    ContextAccepted(GetOrNull(def.members, "contextFrom"), t.dependsOn);
  }

  lemma {:induction false} LimitsPositive(ctx: Context, members: Members)
    requires NormalizeLimits(ctx, members).Ok?
    ensures forall p | p in NormalizeLimits(ctx, members).value :: NormalizeLimits(ctx, members).value[p] >= 1
  {
    if members != [] {
      LimitsPositive(ctx, members[..|members| - 1]);
    }
  }

  lemma DefaultsAccepted(ctx: Context, defaults: Json)
    requires NormalizeDefaults(ctx, defaults).Ok?
    ensures var d := NormalizeDefaults(ctx, defaults).value;
            d.maxConcurrency >= 1 && forall p | p in d.providerConcurrency :: d.providerConcurrency[p] >= 1
  {
    hide NormalizeLimits, OnlyKeys, Get;
    if defaults != Null {
      var limits := GetOrNull(defaults.members, "providerConcurrency");
      LimitsPositive(ctx, if limits == Null then [] else limits.members);
    }
  }

  /** A normalised document is well formed: the scheduler's assumptions, apart from acyclicity. */
  lemma {:induction false} NormalisedIsWellFormed(ctx: Context, data: Json)
    requires NormalizeDocument(ctx, data).Ok?
    ensures WellFormed(NormalizeDocument(ctx, data).value.0)
    ensures NormalizeDocument(ctx, data).value.0.order != []
  {
    hide NormalizeDocument, NormalizeDefaults, NormalizeTasks, NormalizeTask, TaskAccepted, Sort, IsTaskName, Get;
    var (w, warnings) := NormalizeDocument(ctx, data).value;
    NormalisedParts(ctx, data);
    var raw := GetOrNull(data.members, "tasks").members;
    var names := Keys(raw);
    SortSpec(names);
    PermutationKeeps(names, w.order);
    DefaultsAccepted(ctx, GetOrNull(data.members, "defaults"));
    TasksHaveOrder(ctx, w.defaults, NameSet(names), raw, w.order);
    assert w.tasks.Keys == NameSet(names);
    forall t | t in w.tasks ensures TaskAccepted(w.tasks.Keys, t, w.tasks[t]) {
      TaskIsAccepted(ctx, w.defaults, NameSet(names), t, GetOrNull(raw, t));
    }
  }

  /** Dependencies of a well formed workflow are tasks of it. */
  lemma EdgesKnown(w: Workflow)
    requires WellFormed(w)
    ensures forall a, b | Edge(DependencyGraph(w.tasks), a, b) :: b in DependencyGraph(w.tasks)
    ensures forall t :: t in w.order <==> t in DependencyGraph(w.tasks)
  {
    forall a, b | Edge(DependencyGraph(w.tasks), a, b) ensures b in DependencyGraph(w.tasks) {
      DependencyEdge(w.tasks, a, b);
      assert TaskAccepted(w.tasks.Keys, a, w.tasks[a]);
    }
  }

  /** The whole validator. It accepts exactly the documents that normalise and have no dependency
    * cycle, returns their normal form, and what it returns is fit for the scheduler. It returns a workflow
    * and warnings exactly if they say, field by field, what the document says, and have no cycle. */
  method ValidateWorkflow(ctx: Context, data: Json) returns (r: Result<(Workflow, seq<Warning>)>)
    ensures var n := NormalizeDocument(ctx, data);
            && (r.Ok? <==> n.Ok? && forall p :: !IsCycle(DependencyGraph(n.value.0.tasks), p))
            && (r.Ok? ==> r == n && Accepted(r.value.0))
            && (n.Err? ==> r == n)
            && (n.Ok? && r.Err? ==> r == Err(DependencyCycle))
    ensures forall w, warnings :: r == Ok((w, warnings)) <==>
              DocumentOf(ctx, data, w, warnings) && forall p :: !IsCycle(DependencyGraph(w.tasks), p)
  {
    var n := NormalizeDocument(ctx, data);
    forall w, warnings ensures n == Ok((w, warnings)) <==> DocumentOf(ctx, data, w, warnings) {
      DocumentIff(ctx, data, w, warnings);
    }
    hide DocumentOf;
    if n.Err? {
      return n;
    }
    assert n == Ok((n.value.0, n.value.1));
    NormalisedIsWellFormed(ctx, data);
    var w := n.value.0;
    hide NormalizeDocument;
    EdgesKnown(w);
    hide WellFormed;
    var deps := DependencyGraph(w.tasks);
    var search, rank := FindCycle(w.order, deps);
    SearchDecides(deps, search, rank);
    if search == Acyclic {
      r := n;
    } else {
      r := Err(DependencyCycle);
    }
  }

  // ---------------------------------------------------------------- the loops

  lemma {:induction false} DepsFailEarly(task: TaskId, names: set<TaskId>, items: seq<Json>, i: nat)
    requires i <= |items| && NormalizeDeps(task, names, items[..i]).Err?
    ensures NormalizeDeps(task, names, items) == NormalizeDeps(task, names, items[..i])
    decreases |items| - i
  {
    if i == |items| {
      assert items[..i] == items;
    } else {
      assert items[..i + 1][..i] == items[..i];
      DepsFailEarly(task, names, items, i + 1);
    }
  }

  /** The loop over `dependsOn` with its set of seen names, and the sort after it. */
  method CollectDeps(task: TaskId, names: set<TaskId>, items: seq<Json>) returns (r: Result<seq<TaskId>>)
    ensures var n := NormalizeDeps(task, names, items);
            r == if n.Ok? then Ok(Sort(n.value)) else n
  {
    var seen: set<TaskId> := {};
    var deps: seq<TaskId> := [];
    for i := 0 to |items|
      invariant NormalizeDeps(task, names, items[..i]) == Ok(deps)
      invariant seen == NameSet(deps)
    {
      var dep := items[i];
      assert items[..i + 1][..i] == items[..i];
      if !NonEmptyText(dep) {
        DepsFailEarly(task, names, items, i + 1);
        return Err(BadField("dependsOn"));
      }
      if dep.s == task {
        DepsFailEarly(task, names, items, i + 1);
        return Err(SelfDependency);
      }
      if dep.s !in names {
        DepsFailEarly(task, names, items, i + 1);
        return Err(UnknownDependency);
      }
      if dep.s in seen {
        DepsFailEarly(task, names, items, i + 1);
        return Err(DuplicateDependency);
      }
      seen := seen + {dep.s};
      deps := deps + [dep.s];
    }
    assert items[..|items|] == items;
    r := Ok(Sort(deps));
  }

  /** The loop of `_resolve_alias` over models and their aliases. */
  method FindModel(def: ProviderDef, lower: string -> string, model: string) returns (canonical: string, found: bool)
    ensures (canonical, found) == ResolveAlias(def, lower, model)
    ensures found <==> IsKnown(def, lower, model)
    ensures if found then StandsFor(def.models.value, lower, model, canonical) else canonical == model
  {
    ResolveMeans(def, lower, model);
    hide IsKnown, StandsFor;
    if def.models == None {
      return model, false;
    }
    var models := def.models.value;
    if exists i | 0 <= i < |models| :: models[i].0 == model {
      return model, true;
    }
    var lowered := lower(model);
    assert models[0..] == models;
    for k := 0 to |models|
      invariant AliasOwner(models[k..], lower, lowered) == AliasOwner(models, lower, lowered)
    {
      var (name, entry) := models[k];
      assert models[k..][0] == models[k] && models[k..][1..] == models[k + 1..];
      if entry.Model? {
        for a := 0 to |entry.aliases|
          invariant forall i | 0 <= i < a :: !AliasMatches(entry.aliases[i], lower, lowered)
        {
          var alias := entry.aliases[a];
          if alias.AliasText? && alias.text != "" && lower(alias.text) == lowered {
            assert AliasMatches(entry.aliases[a], lower, lowered);
            return name, true;
          }
        }
      }
    }
    return model, false;
  }
}
