/** The order in which a document lists its tasks and their dependencies does not matter. */
module DocumentOrder {
  import opened Workflows
  import opened Documents
  import opened Names
  import opened Validation
  import opened Normalisation
  import opened NormalForm

  // ---------------------------------------------------------------- documents up to order

  predicate SameDependsOn(a: Json, b: Json) {
    a == b || (a.List? && b.List? && multiset(a.items) == multiset(b.items))
  }

  /** The same members in whatever order, and the same dependencies in whatever order. */
  ghost predicate SameTask(a: Json, b: Json) {
    || a == b
    || (&& a.Obj? && b.Obj?
        && (forall k | k != "dependsOn" :: Get(a.members, k) == Get(b.members, k))
        && (Get(a.members, "dependsOn").Some? <==> Get(b.members, "dependsOn").Some?)
        && SameDependsOn(GetOrNull(a.members, "dependsOn"), GetOrNull(b.members, "dependsOn")))
  }

  ghost predicate SameDocument(a: Json, b: Json) {
    && a.Obj? && b.Obj?
    && (forall k | k != "tasks" :: Get(a.members, k) == Get(b.members, k))
    && Get(a.members, "tasks").Some? && Get(b.members, "tasks").Some?
    && var s, t := GetOrNull(a.members, "tasks"), GetOrNull(b.members, "tasks");
    && s.Obj? && t.Obj?
    && multiset(Keys(s.members)) == multiset(Keys(t.members))
    && forall k :: SameTask(GetOrNull(s.members, k), GetOrNull(t.members, k))
  }

  // ---------------------------------------------------------------- tasks

  lemma OnlyKeysByGet(o: Members, allowed: set<string>)
    ensures OnlyKeys(o, allowed) <==> forall k | Get(o, k).Some? :: k in allowed
  {
    forall k ensures Get(o, k).Some? <==> k in Keys(o) { GetMeansMember(o, k); }
    forall i | 0 <= i < |o| ensures Get(o, o[i].0).Some? { assert Keys(o)[i] == o[i].0; }
    forall k | Get(o, k).Some? ensures exists i :: 0 <= i < |o| && o[i].0 == k {
      var i :| 0 <= i < |Keys(o)| && Keys(o)[i] == k;
      assert o[i].0 == k;
    }
  }

  /** Permuted dependencies normalise to a permutation, so sorting makes them equal. */
  lemma {:induction false} DepsPermuted(task: TaskId, names: set<TaskId>, items: seq<Json>, items': seq<Json>)
    requires multiset(items) == multiset(items') && NormalizeDeps(task, names, items).Ok?
    ensures NormalizeDeps(task, names, items').Ok?
    ensures Sort(NormalizeDeps(task, names, items').value) == Sort(NormalizeDeps(task, names, items).value)
  {
    var r := NormalizeDeps(task, names, items).value;
    DepsIff(task, names, items, r);
    PermutationKeeps(items, items');
    assert Distinct(items);
    forall i | 0 <= i < |items'|
      ensures items'[i].Str? && items'[i].s != "" && items'[i].s != task && items'[i].s in names && items'[i].s in r
    {
      assert items'[i] in items;
    }
    var r' := seq(|items'|, i requires 0 <= i < |items'| => items'[i].s);
    assert DepsOf(task, names, items', r');
    DepsIff(task, names, items', r');
    forall x ensures x in r <==> x in r' {
      if x in r {
        var i :| 0 <= i < |r| && r[i] == x;
        assert items[i] in items';
        var j :| 0 <= j < |items'| && items'[j] == items[i];
        assert r'[j] == x;
      }
    }
    SameMembersPermute(r, r');
    SortCanonical(r, r');
  }

  lemma TaskOrderIrrelevant(ctx: Context, defaults: Defaults, names: set<TaskId>, task: TaskId, def: Json, def': Json)
    requires SameTask(def, def') && NormalizeTask(ctx, defaults, names, task, def).Ok?
    ensures NormalizeTask(ctx, defaults, names, task, def') == NormalizeTask(ctx, defaults, names, task, def)
  {
    hide NormalizeRoute, NormalizePrompt, NormalizeDeps, NormalizeContextFrom, NormalizeRetry, NormalizeVerify, Sort, OnlyKeys, Get;
    if def != def' {
      var o, o' := def.members, def'.members;
      OnlyKeysByGet(o, TASK_FIELDS);
      OnlyKeysByGet(o', TASK_FIELDS);
      var raw, raw' := GetOrNull(o, "dependsOn"), GetOrNull(o', "dependsOn");
      if raw != raw' {
        DepsPermuted(task, names, raw.items, raw'.items);
      }
      assert forall k | k != "dependsOn" :: GetOrNull(o, k) == GetOrNull(o', k);
      assert forall k, d | k != "dependsOn" :: GetOr(o, k, d) == GetOr(o', k, d);
    }
  }

  // ---------------------------------------------------------------- documents

  /** An accepted document keeps its normal form and its warnings when its tasks, or the entries of
    * their `dependsOn`, are listed in another order. */
  lemma {:induction false} DocumentOrderIrrelevant(ctx: Context, data: Json, data': Json)
    requires SameDocument(data, data') && NormalizeDocument(ctx, data).Ok?
    ensures NormalizeDocument(ctx, data') == NormalizeDocument(ctx, data)
  {
    hide NormalizeDocument, NormalizeDefaults, NormalizeTasks, NormalizeTask, Sort, OnlyKeys, IsTaskName, Get, SameTask;
    var (w, warnings) := NormalizeDocument(ctx, data).value;
    NormalisedParts(ctx, data);
    var o, o' := data.members, data'.members;
    var raw, raw' := GetOrNull(o, "tasks").members, GetOrNull(o', "tasks").members;
    var names, names' := Keys(raw), Keys(raw');
    SortCanonical(names, names');
    PermutationKeeps(names, names');
    assert NameSet(names) == NameSet(names');
    forall i | 0 <= i < |names'| ensures IsTaskName(names'[i]) {
      assert names'[i] in names;
    }
    forall t | t in w.order
      ensures NormalizeTask(ctx, w.defaults, NameSet(names), t, GetOrNull(raw', t))
              == NormalizeTask(ctx, w.defaults, NameSet(names), t, GetOrNull(raw, t))
    {
      TasksHaveOrder(ctx, w.defaults, NameSet(names), raw, w.order);
      assert t in w.tasks;
      TaskOrderIrrelevant(ctx, w.defaults, NameSet(names), t, GetOrNull(raw, t), GetOrNull(raw', t));
    }
    TasksCongruent(ctx, w.defaults, NameSet(names), raw, raw', w.order);
    SameRest(ctx, data, data');
  }

  /** What is left of the document check once the tasks agree. */
  lemma SameRest(ctx: Context, data: Json, data': Json)
    requires SameDocument(data, data') && NormalizeDocument(ctx, data).Ok?
    requires var w := NormalizeDocument(ctx, data).value.0;
             var raw' := GetOrNull(data'.members, "tasks").members;
             var names' := Keys(raw');
             && Distinct(names') && (forall i | 0 <= i < |names'| :: IsTaskName(names'[i]))
             && raw' != [] && w.order == Sort(names')
             && NormalizeTasks(ctx, w.defaults, NameSet(names'), raw', w.order) == Ok((w.tasks, NormalizeDocument(ctx, data).value.1))
    ensures NormalizeDocument(ctx, data') == NormalizeDocument(ctx, data)
  {
    hide NormalizeDefaults, NormalizeTasks, Sort, OnlyKeys, IsTaskName, Get, SameTask, Distinct;
    var o, o' := data.members, data'.members;
    OnlyKeysByGet(o, {"schemaVersion", "name", "defaults", "tasks"});
    OnlyKeysByGet(o', {"schemaVersion", "name", "defaults", "tasks"});
    assert forall k | k != "tasks" :: GetOrNull(o, k) == GetOrNull(o', k);
  }
}
