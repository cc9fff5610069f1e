/** The normal form as a document, and the proof that validating it changes nothing. */
module NormalForm {
  import opened Workflows
  import opened Documents
  import opened Names
  import opened Validation
  import opened Normalisation

  // ---------------------------------------------------------------- rendering

  function Texts(s: seq<string>): (items: seq<Json>)
    ensures |items| == |s| && forall i | 0 <= i < |s| :: items[i] == Str(s[i])
  {
    seq(|s|, i requires 0 <= i < |s| => Str(s[i]))
  }

  function RouteJson(r: Route): Json {
    if r.effort.Some? then Obj([("effort", Str(r.effort.value)), ("model", Str(r.model)), ("provider", Str(r.provider))])
    else Obj([("model", Str(r.model)), ("provider", Str(r.provider))])
  }

  function RetryJson(r: Retry): Json {
    Obj([("maxAttempts", Num(Whole(r.maxAttempts))), ("backoffSeconds", Num(r.backoff)),
         ("on", List(seq(|r.on|, i requires 0 <= i < |r.on| => Str(TriggerText(r.on[i])))))])
  }

  function VerifyJson(v: seq<seq<string>>): Json {
    List(seq(|v|, i requires 0 <= i < |v| => List(Texts(v[i]))))
  }

  function SelectionJson(s: Selection): Json {
    Obj([("task", Str(s.task)), ("artifact", Str(ArtifactText(s.artifact))), ("maxBytes", Num(Whole(s.maxBytes)))])
  }

  function ContextJson(c: seq<Selection>): Json {
    List(seq(|c|, i requires 0 <= i < |c| => SelectionJson(c[i])))
  }

  function PromptJson(p: Prompt): Json {
    match p
    case FromFile(path) => Obj([("file", Str(path))])
    case FromText(text) => Obj([("text", Str(text))])
  }

  function ModeJson(m: Mode): (j: Json)
    ensures ModeOf(j) == Some(m)
  {
    match m
    case Read => Str("read")
    case Write => Str("write")
  }

  function TaskJson(t: TaskDef): Json {
    Obj([("route", RouteJson(t.route)), ("mode", ModeJson(t.mode)), ("prompt", PromptJson(t.prompt)),
         ("dependsOn", List(Texts(t.dependsOn))), ("contextFrom", ContextJson(t.contextFrom)),
         ("timeoutSeconds", Num(t.timeout)), ("workspace", Str(WorkspaceText(t.workspace))),
         ("retry", RetryJson(t.retry)), ("verify", VerifyJson(t.verify))])
  }

  function PolicyText(p: FailurePolicy): (s: string)
    ensures PolicyOf(Str(s)) == Some(p)
  {
    match p
    case FailFast => "fail-fast"
    case Continue => "continue"
  }

  function LimitsJson(limits: map<Provider, int>, providers: seq<Provider>): Members
    requires forall p | p in providers :: p in limits
  {
    seq(|providers|, i requires 0 <= i < |providers| => (providers[i], Num(Whole(limits[providers[i]]))))
  }

  function DefaultsJson(d: Defaults, providers: seq<Provider>): Json
    requires forall p | p in providers :: p in d.providerConcurrency
  {
    Obj([("maxConcurrency", Num(Whole(d.maxConcurrency))),
         ("providerConcurrency", Obj(LimitsJson(d.providerConcurrency, providers))),
         ("timeoutSeconds", Num(d.timeout)), ("workspace", Str(WorkspaceText(d.workspace))),
         ("failurePolicy", Str(PolicyText(d.failurePolicy)))])
  }

  function TaskMembers(tasks: map<TaskId, TaskDef>, order: seq<TaskId>): Members
    requires forall t | t in order :: t in tasks
  {
    seq(|order|, i requires 0 <= i < |order| => (order[i], TaskJson(tasks[order[i]])))
  }

  /** `providers` is the order in which the limits are written. */
  predicate Listing(w: Workflow, providers: seq<Provider>) {
    && Distinct(providers)
    && (forall p | p in providers :: p in w.defaults.providerConcurrency)
    && (forall p | p in w.defaults.providerConcurrency :: p in providers)
    && (forall t | t in w.order :: t in w.tasks)
  }

  function ToJson(w: Workflow, providers: seq<Provider>): Json
    requires Listing(w, providers)
  {
    Obj([("schemaVersion", Num(Whole(1))), ("name", Str(w.name)), ("defaults", DefaultsJson(w.defaults, providers)),
         ("tasks", Obj(TaskMembers(w.tasks, w.order)))])
  }

  // ---------------------------------------------------------------- reading a rendered object back

  lemma GetAll(o: Members)
    requires Distinct(Keys(o))
    ensures forall i | 0 <= i < |o| :: Get(o, o[i].0) == Some(o[i].1)
    ensures forall k :: Get(o, k).Some? <==> k in Keys(o)
  {
    forall i | 0 <= i < |o| ensures Get(o, o[i].0) == Some(o[i].1) { MemberMeansGet(o, i); }
    forall k ensures Get(o, k).Some? <==> k in Keys(o) { GetMeansMember(o, k); }
  }

  // ---------------------------------------------------------------- fixed points, field by field

  lemma {:induction false} OwnerIsDeclared(models: seq<(string, ModelEntry)>, lower: string -> string, lowered: string)
    ensures AliasOwner(models, lower, lowered).Some? ==> Declares(models, AliasOwner(models, lower, lowered).value)
  {
    if models != [] {
      OwnerIsDeclared(models[1..], lower, lowered);
      var owner := AliasOwner(models[1..], lower, lowered);
      if owner.Some? && Declares(models[1..], owner.value) {
        var i :| 0 <= i < |models[1..]| && models[1..][i].0 == owner.value;
        assert models[i + 1].0 == owner.value;
      }
      assert Declares(models, models[0].0);
    }
  }

  /** Resolving a resolved model changes nothing. */
  lemma ResolveAgain(def: ProviderDef, lower: string -> string, model: string)
    ensures var (canonical, found) := ResolveAlias(def, lower, model);
            && ResolveAlias(def, lower, canonical) == (canonical, found)
            && (!found ==> canonical == model)
            && (found ==> def.models.Some? && Declares(def.models.value, canonical))
  {
    if def.models.Some? {
      OwnerIsDeclared(def.models.value, lower, lower(model));
    }
  }

  /** A normalised route is a fixed point exactly if its model is not the empty string, which the
    * validator would refuse the second time. */
  lemma RouteAgain(ctx: Context, task: TaskId, route: Json)
    requires NormalizeRoute(ctx, task, route).Ok?
    ensures var r := NormalizeRoute(ctx, task, route).value;
            NormalizeRoute(ctx, task, RouteJson(r.0)) == Ok(r) <==> r.0.model != ""
  {
    var (r, warnings) := NormalizeRoute(ctx, task, route).value;
    var o := RouteJson(r).members;
    ResolveAgain(ctx.providers[r.provider], ctx.lower, GetOrNull(route.members, "model").s);
    if r.effort.Some? {
      assert o[0].0 == "effort" && o[1].0 == "model" && o[2].0 == "provider";
      assert Keys(o) == ["effort", "model", "provider"];
    } else {
      assert o[0].0 == "model" && o[1].0 == "provider";
      assert Keys(o) == ["model", "provider"];
    }
    GetAll(o);
    hide ResolveAlias, EffortAllowed;
  }

  /** A registry as `validate_registry` accepts it declares no model with an empty name. */
  predicate ModelsNamed(ctx: Context) {
    forall p | p in ctx.providers :: ctx.providers[p].models.Some? ==> !Declares(ctx.providers[p].models.value, "")
  }

  lemma RouteModelNamed(ctx: Context, task: TaskId, route: Json)
    requires ModelsNamed(ctx) && NormalizeRoute(ctx, task, route).Ok?
    ensures NormalizeRoute(ctx, task, route).value.0.model != ""
  {
    var def := ctx.providers[NormalizeRoute(ctx, task, route).value.0.provider];
    ResolveAgain(def, ctx.lower, GetOrNull(route.members, "model").s);
    hide ResolveAlias, EffortAllowed;
  }

  lemma RetryMembers(r: Retry)
    ensures var o := RetryJson(r).members;
            && |o| == 3 && o[0].0 == "maxAttempts" && o[1].0 == "backoffSeconds" && o[2].0 == "on"
            && Keys(o) == ["maxAttempts", "backoffSeconds", "on"] && Distinct(Keys(o))
  {
    var o := RetryJson(r).members;
    assert o[0].0 == "maxAttempts" && o[1].0 == "backoffSeconds" && o[2].0 == "on";
    assert Keys(o) == ["maxAttempts", "backoffSeconds", "on"];
  }

  lemma RetryAgain(retry: Json)
    requires NormalizeRetry(retry).Ok?
    ensures NormalizeRetry(RetryJson(NormalizeRetry(retry).value)) == NormalizeRetry(retry)
  {
    var r := NormalizeRetry(retry).value;
    var o := RetryJson(r).members;
    TriggersIff(GetOr(if retry == Null then [] else retry.members, "on", List([])).items, r.on);
    RetryMembers(r);
    TriggersIff(o[2].1.items, r.on);
    GetAll(o);
  }

  lemma VerifyAgain(verify: Json)
    requires NormalizeVerify(verify).Ok?
    ensures NormalizeVerify(VerifyJson(NormalizeVerify(verify).value)) == NormalizeVerify(verify)
  {
    var r := NormalizeVerify(verify).value;
    var items := VerifyJson(r).items;
    if verify != Null {
      CommandsIff(verify.items, r);
    }
    assert CommandsOf(items, r);
    CommandsIff(items, r);
  }

  lemma SelectionAgain(entry: Json, deps: seq<TaskId>)
    requires NormalizeSelection(entry, deps).Ok?
    ensures NormalizeSelection(SelectionJson(NormalizeSelection(entry, deps).value), deps) == NormalizeSelection(entry, deps)
  {
    var r := NormalizeSelection(entry, deps).value;
    var o := SelectionJson(r).members;
    assert o[0].0 == "task" && o[1].0 == "artifact" && o[2].0 == "maxBytes";
    assert Keys(o) == ["task", "artifact", "maxBytes"];
    GetAll(o);
  }

  lemma ContextAgain(context: Json, deps: seq<TaskId>)
    requires NormalizeContextFrom(context, deps).Ok?
    ensures NormalizeContextFrom(ContextJson(NormalizeContextFrom(context, deps).value), deps) == NormalizeContextFrom(context, deps)
  {
    hide NormalizeSelection, SelectionJson;
    var r := NormalizeContextFrom(context, deps).value;
    var items := ContextJson(r).items;
    if context != Null {
      SelectionsIff(context.items, deps, r);
    }
    forall i | 0 <= i < |r| ensures NormalizeSelection(items[i], deps) == Ok(r[i]) {
      SelectionAgain(context.items[i], deps);
    }
    SelectionsIff(items, deps, r);
  }

  lemma PromptAgain(ctx: Context, prompt: Json)
    requires NormalizePrompt(ctx, prompt).Ok?
    ensures NormalizePrompt(ctx, PromptJson(NormalizePrompt(ctx, prompt).value)) == NormalizePrompt(ctx, prompt)
  {
  }

  /** Sorted dependencies are accepted again and stay as they are. */
  lemma DepsAgain(task: TaskId, names: set<TaskId>, items: seq<Json>)
    requires NormalizeDeps(task, names, items).Ok?
    ensures var deps := Sort(NormalizeDeps(task, names, items).value);
            && NormalizeDeps(task, names, Texts(deps)) == Ok(deps)
            && Sort(deps) == deps
  {
    var r := NormalizeDeps(task, names, items).value;
    var deps := Sort(r);
    DepsIff(task, names, items, r);
    SortSpec(r);
    SortCanonical(r, r);
    PermutationKeeps(r, deps);
    forall i | 0 <= i < |deps| ensures deps[i] != "" && deps[i] != task && deps[i] in names {
      assert deps[i] in deps;
      assert deps[i] in r;
    }
    DepsIff(task, names, Texts(deps), deps);
  }

  lemma {:induction false} DistinctHasNoCopies<T>(s: seq<T>)
    requires Distinct(s)
    ensures forall x :: multiset(s)[x] <= 1
  {
    if s != [] {
      var rest := s[1..];
      assert s == [s[0]] + rest;
      assert s[0] !in rest;
      DistinctHasNoCopies(rest);
    }
  }

  lemma NoCopiesMeansDistinct<T>(s: seq<T>)
    requires forall x :: multiset(s)[x] <= 1
    ensures Distinct(s)
  {
    forall i, j | 0 <= i < j < |s| ensures s[i] != s[j] {
      assert s == s[..j] + s[j..];
      assert s[i] == s[..j][i] && s[j] == s[j..][0];
      assert s[i] in multiset(s[..j]) && s[j] in multiset(s[j..]);
      assert multiset(s)[s[i]] == multiset(s[..j])[s[i]] + multiset(s[j..])[s[i]];
    }
  }

  /** Permuting keeps distinctness and membership. */
  lemma PermutationKeeps<T>(a: seq<T>, b: seq<T>)
    requires multiset(a) == multiset(b)
    ensures |a| == |b| && (Distinct(a) ==> Distinct(b)) && forall x :: x in a <==> x in b
  {
    assert |a| == |multiset(a)| && |b| == |multiset(b)|;
    if Distinct(a) {
      DistinctHasNoCopies(a);
      NoCopiesMeansDistinct(b);
    }
    forall x ensures x in a <==> x in b {
      assert x in a <==> x in multiset(a);
    }
  }

  /** Two lists without copies and with the same members are permutations of each other. */
  lemma SameMembersPermute<T>(a: seq<T>, b: seq<T>)
    requires Distinct(a) && Distinct(b) && forall x :: x in a <==> x in b
    ensures multiset(a) == multiset(b)
  {
    DistinctHasNoCopies(a);
    DistinctHasNoCopies(b);
    forall x ensures multiset(a)[x] == multiset(b)[x] {
      assert x in a <==> x in multiset(a);
      assert x in b <==> x in multiset(b);
    }
  }

  // ---------------------------------------------------------------- tasks

  const TASK_FIELD_ORDER: seq<string> :=
    ["route", "mode", "prompt", "dependsOn", "contextFrom", "timeoutSeconds", "workspace", "retry", "verify"]

  lemma TaskFieldsDistinct()
    ensures Distinct(TASK_FIELD_ORDER)
  {
  }

  lemma TaskShape(t: TaskDef)
    ensures TaskJson(t).Obj?
    ensures Distinct(Keys(TaskJson(t).members)) && OnlyKeys(TaskJson(t).members, TASK_FIELDS)
  {
    hide RouteJson, ModeJson, PromptJson, Texts, ContextJson, RetryJson, VerifyJson, WorkspaceText, Distinct;
    assert Keys(TaskJson(t).members) == TASK_FIELD_ORDER;
    TaskFieldsDistinct();
  }

  lemma TaskKeys(t: TaskDef)
    requires TaskJson(t).Obj?
    ensures var o := TaskJson(t).members;
            && OnlyKeys(o, TASK_FIELDS)
            && Get(o, "route") == Some(RouteJson(t.route)) && Get(o, "mode") == Some(ModeJson(t.mode))
            && Get(o, "prompt") == Some(PromptJson(t.prompt)) && Get(o, "dependsOn") == Some(List(Texts(t.dependsOn)))
            && Get(o, "contextFrom") == Some(ContextJson(t.contextFrom)) && Get(o, "timeoutSeconds") == Some(Num(t.timeout))
            && Get(o, "workspace") == Some(Str(WorkspaceText(t.workspace))) && Get(o, "retry") == Some(RetryJson(t.retry))
            && Get(o, "verify") == Some(VerifyJson(t.verify))
  {
    hide RouteJson, ModeJson, PromptJson, Texts, ContextJson, RetryJson, VerifyJson, WorkspaceText, Get, Distinct, Keys, OnlyKeys;
    TaskShape(t);
    var o := TaskJson(t).members;
    MemberMeansGet(o, 0);
    MemberMeansGet(o, 1);
    MemberMeansGet(o, 2);
    MemberMeansGet(o, 3);
    MemberMeansGet(o, 4);
    MemberMeansGet(o, 5);
    MemberMeansGet(o, 6);
    MemberMeansGet(o, 7);
    MemberMeansGet(o, 8);
  }

  /** A normalised task is a fixed point, whatever the defaults are by then. */
  lemma {:induction false} TaskAgain(ctx: Context, defaults: Defaults, names: set<TaskId>, task: TaskId, def: Json)
    requires ModelsNamed(ctx) && NormalizeTask(ctx, defaults, names, task, def).Ok?
    ensures var r := NormalizeTask(ctx, defaults, names, task, def).value;
            NormalizeTask(ctx, defaults, names, task, TaskJson(r.0)) == Ok(r)
  {
    hide ModelsNamed, NormalizeRoute, NormalizePrompt, NormalizeDeps, NormalizeContextFrom, NormalizeRetry, NormalizeVerify, Sort,
         TaskJson, RouteJson, PromptJson, ContextJson, RetryJson, VerifyJson, Get, OnlyKeys, Distinct;
    var (t, warnings) := NormalizeTask(ctx, defaults, names, task, def).value;
    var o := def.members;
    var rawDeps := GetOrNull(o, "dependsOn");
    TaskShape(t);
    TaskKeys(t);
    RouteAgain(ctx, task, GetOrNull(o, "route"));
    RouteModelNamed(ctx, task, GetOrNull(o, "route"));
    PromptAgain(ctx, GetOrNull(o, "prompt"));
    DepsAgain(task, names, if rawDeps == Null then [] else rawDeps.items);
    ContextAgain(GetOrNull(o, "contextFrom"), t.dependsOn);
    RetryAgain(GetOrNull(o, "retry"));
    VerifyAgain(GetOrNull(o, "verify"));
  }

  // ---------------------------------------------------------------- defaults

  predicate ListsLimits(d: Defaults, providers: seq<Provider>) {
    && Distinct(providers)
    && (forall p | p in providers :: p in d.providerConcurrency)
    && (forall p | p in d.providerConcurrency :: p in providers)
  }

  lemma LimitsAgain(ctx: Context, members: Members, providers: seq<Provider>)
    requires Distinct(Keys(members)) && NormalizeLimits(ctx, members).Ok?
    requires var r := NormalizeLimits(ctx, members).value;
             Distinct(providers) && forall p :: p in providers <==> p in r
    ensures var r := NormalizeLimits(ctx, members).value;
            NormalizeLimits(ctx, LimitsJson(r, providers)) == Ok(r)
  {
    var r := NormalizeLimits(ctx, members).value;
    var again := LimitsJson(r, providers);
    LimitsIff(ctx, members, r);
    forall p | p in r ensures p != "" && p in ctx.providers && r[p] >= 1 {
      var i :| 0 <= i < |members| && members[i].0 == p;
    }
    assert Keys(again) == providers;
    forall p | p in r ensures exists i :: 0 <= i < |again| && again[i].0 == p {
      var i :| 0 <= i < |providers| && providers[i] == p;
      assert again[i].0 == p;
    }
    LimitsIff(ctx, again, r);
  }

  /** Member names are unique in a parsed object. */
  predicate UniqueLimits(defaults: Json) {
    defaults.Obj? ==>
      var limits := GetOrNull(defaults.members, "providerConcurrency");
      limits.Obj? ==> Distinct(Keys(limits.members))
  }

  lemma WorkspaceTextRead(ws: Workspace)
    ensures WorkspaceOf(Str(WorkspaceText(ws))) == Some(ws)
  {
  }

  lemma DefaultsShape(d: Defaults, providers: seq<Provider>)
    requires ListsLimits(d, providers)
    ensures DefaultsJson(d, providers).Obj?
    ensures var o := DefaultsJson(d, providers).members;
            && OnlyKeys(o, {"maxConcurrency", "providerConcurrency", "timeoutSeconds", "workspace", "failurePolicy"})
            && Get(o, "maxConcurrency") == Some(Num(Whole(d.maxConcurrency)))
            && Get(o, "providerConcurrency") == Some(Obj(LimitsJson(d.providerConcurrency, providers)))
            && Get(o, "timeoutSeconds") == Some(Num(d.timeout))
            && Get(o, "workspace") == Some(Str(WorkspaceText(d.workspace)))
            && Get(o, "failurePolicy") == Some(Str(PolicyText(d.failurePolicy)))
  {
    hide LimitsJson, WorkspaceText, PolicyText, Get;
    var o := DefaultsJson(d, providers).members;
    assert Keys(o) == ["maxConcurrency", "providerConcurrency", "timeoutSeconds", "workspace", "failurePolicy"];
    MemberMeansGet(o, 0);
    MemberMeansGet(o, 1);
    MemberMeansGet(o, 2);
    MemberMeansGet(o, 3);
    MemberMeansGet(o, 4);
  }

  lemma DefaultsAgain(ctx: Context, defaults: Json, providers: seq<Provider>)
    requires NormalizeDefaults(ctx, defaults).Ok? && UniqueLimits(defaults)
    requires ListsLimits(NormalizeDefaults(ctx, defaults).value, providers)
    ensures NormalizeDefaults(ctx, DefaultsJson(NormalizeDefaults(ctx, defaults).value, providers)) == NormalizeDefaults(ctx, defaults)
  {
    hide NormalizeLimits, LimitsJson, DefaultsJson, OnlyKeys, WorkspaceText, PolicyText, Get, Distinct;
    var d := NormalizeDefaults(ctx, defaults).value;
    DefaultsShape(d, providers);
    WorkspaceTextRead(d.workspace);
    if defaults == Null {
      assert NormalizeLimits(ctx, []) == Ok(map[]) by { NoLimits(ctx); }
      DistinctNothing();
      LimitsAgain(ctx, [], providers);
    } else {
      var limits := GetOrNull(defaults.members, "providerConcurrency");
      DistinctNothing();
      LimitsAgain(ctx, if limits == Null then [] else limits.members, providers);
    }
  }

  lemma NoLimits(ctx: Context)
    ensures NormalizeLimits(ctx, []) == Ok(map[])
  {
  }

  lemma DistinctNothing()
    ensures Distinct(Keys([]))
  {
  }

  // ---------------------------------------------------------------- the document

  lemma {:induction false} TasksHaveOrder(ctx: Context, defaults: Defaults, names: set<TaskId>, raw: Members, order: seq<TaskId>)
    requires NormalizeTasks(ctx, defaults, names, raw, order).Ok?
    ensures var tasks := NormalizeTasks(ctx, defaults, names, raw, order).value.0;
            && (forall t :: t in tasks <==> t in order)
            && forall t | t in tasks ::
                 NormalizeTask(ctx, defaults, names, t, GetOrNull(raw, t)).Ok?
                 && tasks[t] == NormalizeTask(ctx, defaults, names, t, GetOrNull(raw, t)).value.0
  {
    hide NormalizeTask;
    if order != [] {
      var k := |order| - 1;
      TasksHaveOrder(ctx, defaults, names, raw, order[..k]);
      assert order == order[..k] + [order[k]];
    }
  }

  /** The tasks depend only on what each name's member normalises to. */
  lemma {:induction false} TasksCongruent(ctx: Context, defaults: Defaults, names: set<TaskId>, raw: Members, raw': Members, order: seq<TaskId>)
    requires NormalizeTasks(ctx, defaults, names, raw, order).Ok?
    requires forall t | t in order ::
               NormalizeTask(ctx, defaults, names, t, GetOrNull(raw', t)) == NormalizeTask(ctx, defaults, names, t, GetOrNull(raw, t))
    ensures NormalizeTasks(ctx, defaults, names, raw', order) == NormalizeTasks(ctx, defaults, names, raw, order)
  {
    hide NormalizeTask;
    if order != [] {
      var k := |order| - 1;
      assert order[k] in order;
      TasksCongruent(ctx, defaults, names, raw, raw', order[..k]);
    }
  }

  lemma TasksAgain(ctx: Context, defaults: Defaults, names: set<TaskId>, raw: Members, order: seq<TaskId>)
    requires ModelsNamed(ctx) && Distinct(order) && NormalizeTasks(ctx, defaults, names, raw, order).Ok?
    ensures var r := NormalizeTasks(ctx, defaults, names, raw, order).value;
            && (forall t | t in order :: t in r.0)
            && NormalizeTasks(ctx, defaults, names, TaskMembers(r.0, order), order) == Ok(r)
  {
    hide NormalizeTask, TaskJson, ModelsNamed;
    var (tasks, warnings) := NormalizeTasks(ctx, defaults, names, raw, order).value;
    TasksHaveOrder(ctx, defaults, names, raw, order);
    var again := TaskMembers(tasks, order);
    assert Keys(again) == order;
    forall t | t in order
      ensures NormalizeTask(ctx, defaults, names, t, GetOrNull(again, t)) == NormalizeTask(ctx, defaults, names, t, GetOrNull(raw, t))
    {
      var i :| 0 <= i < |order| && order[i] == t;
      MemberMeansGet(again, i);
      TaskAgain(ctx, defaults, names, t, GetOrNull(raw, t));
    }
    TasksCongruent(ctx, defaults, names, raw, again, order);
  }

  lemma DocumentShape(w: Workflow, providers: seq<Provider>)
    requires Listing(w, providers)
    ensures ToJson(w, providers).Obj?
    ensures var o := ToJson(w, providers).members;
            && OnlyKeys(o, {"schemaVersion", "name", "defaults", "tasks"})
            && Get(o, "schemaVersion") == Some(Num(Whole(1))) && Get(o, "name") == Some(Str(w.name))
            && Get(o, "defaults") == Some(DefaultsJson(w.defaults, providers))
            && Get(o, "tasks") == Some(Obj(TaskMembers(w.tasks, w.order)))
  {
    hide DefaultsJson, TaskMembers, Get;
    var o := ToJson(w, providers).members;
    assert Keys(o) == ["schemaVersion", "name", "defaults", "tasks"];
    MemberMeansGet(o, 0);
    MemberMeansGet(o, 1);
    MemberMeansGet(o, 2);
    MemberMeansGet(o, 3);
  }

  predicate UniqueMembers(data: Json) {
    data.Obj? ==> UniqueLimits(GetOrNull(data.members, "defaults"))
  }

  lemma NormalisedParts(ctx: Context, data: Json)
    requires NormalizeDocument(ctx, data).Ok?
    ensures data.Obj?
    ensures var (w, warnings) := NormalizeDocument(ctx, data).value;
            var raw := GetOrNull(data.members, "tasks");
            && ctx.hostKnown && w.name != "" && |w.name| <= 128
            && NormalizeDefaults(ctx, GetOrNull(data.members, "defaults")) == Ok(w.defaults)
            && raw.Obj? && raw.members != []
            && var names := Keys(raw.members);
            && Distinct(names) && (forall i | 0 <= i < |names| :: IsTaskName(names[i]))
            && w.order == Sort(names)
            && NormalizeTasks(ctx, w.defaults, NameSet(names), raw.members, w.order) == Ok((w.tasks, warnings))
  {
    hide NormalizeDefaults, NormalizeTasks, Sort, OnlyKeys, IsTaskName, Distinct, Get;
    var (w, warnings) := NormalizeDocument(ctx, data).value;
    var raw := GetOrNull(data.members, "tasks");
    var names := Keys(raw.members);
    var t := NormalizeTasks(ctx, w.defaults, NameSet(names), raw.members, w.order);
    assert t.Ok?;
    assert t.value.0 == w.tasks;
    assert t.value.1 == warnings;
  }

  /** Validating a normal form again gives the same normal form and the same warnings, whatever
    * order its provider limits are written in. */
  lemma {:induction false} NormalFormIsFixed(ctx: Context, data: Json, providers: seq<Provider>)
    requires ModelsNamed(ctx) && UniqueMembers(data) && NormalizeDocument(ctx, data).Ok?
    requires Listing(NormalizeDocument(ctx, data).value.0, providers)
    ensures NormalizeDocument(ctx, ToJson(NormalizeDocument(ctx, data).value.0, providers)) == NormalizeDocument(ctx, data)
  {
    hide NormalizeDocument, NormalizeDefaults, NormalizeTasks, Sort, OnlyKeys, IsTaskName, ModelsNamed, ToJson, DefaultsJson, TaskJson, Get;
    var (w, warnings) := NormalizeDocument(ctx, data).value;
    NormalisedParts(ctx, data);
    var raw := GetOrNull(data.members, "tasks").members;
    var names := Keys(raw);
    SortSpec(names);
    SortCanonical(names, names);
    PermutationKeeps(names, w.order);
    assert NameSet(names) == NameSet(w.order);
    DefaultsAgain(ctx, GetOrNull(data.members, "defaults"), providers);
    TasksAgain(ctx, w.defaults, NameSet(names), raw, w.order);
    DocumentShape(w, providers);
    assert Keys(TaskMembers(w.tasks, w.order)) == w.order;
    FixedDocument(ctx, w, providers, warnings);
  }

  lemma FixedDocument(ctx: Context, w: Workflow, providers: seq<Provider>, warnings: seq<Warning>)
    requires Listing(w, providers) && ctx.hostKnown && w.name != "" && |w.name| <= 128 && w.order != []
    requires NormalizeDefaults(ctx, DefaultsJson(w.defaults, providers)) == Ok(w.defaults)
    requires Distinct(w.order) && (forall i | 0 <= i < |w.order| :: IsTaskName(w.order[i])) && Sort(w.order) == w.order
    requires NormalizeTasks(ctx, w.defaults, NameSet(w.order), TaskMembers(w.tasks, w.order), w.order) == Ok((w.tasks, warnings))
    ensures NormalizeDocument(ctx, ToJson(w, providers)) == Ok((w, warnings))
  {
    hide NormalizeDefaults, NormalizeTasks, Sort, OnlyKeys, IsTaskName, ToJson, DefaultsJson, TaskJson, Get;
    DocumentShape(w, providers);
    assert Keys(TaskMembers(w.tasks, w.order)) == w.order;
  }
}
