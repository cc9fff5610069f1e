/** What a normal form says about the document it comes from, field by field. */
module Meaning {
  import opened Workflows
  import opened Documents
  import opened Names
  import opened Validation
  import opened Normalisation
  import NormalForm

  // ---------------------------------------------------------------- routes

  /** The model has an alias that equals the name up to case. */
  predicate HasAlias(entry: ModelEntry, lower: string -> string, name: string) {
    && entry.Model?
    && exists i | 0 <= i < |entry.aliases| ::
         entry.aliases[i].AliasText? && entry.aliases[i].text != "" && lower(entry.aliases[i].text) == lower(name)
  }

  predicate IsModel(models: seq<(string, ModelEntry)>, name: string) {
    exists k | 0 <= k < |models| :: models[k].0 == name
  }

  predicate IsKnown(def: ProviderDef, lower: string -> string, name: string) {
    && def.models.Some?
    && (IsModel(def.models.value, name) || exists k | 0 <= k < |def.models.value| :: HasAlias(def.models.value[k].1, lower, name))
  }

  /** A declared name stands for itself, any other for the first model with a matching alias. */
  predicate StandsFor(models: seq<(string, ModelEntry)>, lower: string -> string, name: string, canonical: string) {
    if IsModel(models, name) then canonical == name
    else exists k | 0 <= k < |models| ::
      && models[k].0 == canonical && HasAlias(models[k].1, lower, name)
      && forall j | 0 <= j < k :: !HasAlias(models[j].1, lower, name)
  }

  /** The effort is one of the model's own, if the model has any. */
  predicate ModelTakes(models: seq<(string, ModelEntry)>, model: string, effort: string) {
    forall k | 0 <= k < |models| && models[k].0 == model && forall j | 0 <= j < k :: models[j].0 != model ::
      models[k].1.Model? && models[k].1.efforts != [] ==> effort in models[k].1.efforts
  }

  predicate RouteOf(ctx: Context, task: TaskId, j: Json, r: Route, warnings: seq<Warning>) {
    && j.Obj? && OnlyKeys(j.members, {"provider", "model", "effort"})
    && GetOrNull(j.members, "provider") == Str(r.provider) && r.provider != ""
    && r.provider in ctx.providers && r.provider !in ctx.native
    && var model, effort := GetOrNull(j.members, "model"), GetOrNull(j.members, "effort");
    && var def := ctx.providers[r.provider];
    && model.Str? && model.s != ""
    && (if IsKnown(def, ctx.lower, model.s) then StandsFor(def.models.value, ctx.lower, model.s, r.model) && warnings == []
        else def.allowUnknown && r.model == model.s && warnings == [UndeclaredModel(task, model.s, r.provider)])
    && match r.effort
       case None => effort == Null
       case Some(e) => effort == Str(e) && e != "" && e in def.efforts
                       && (IsKnown(def, ctx.lower, model.s) ==> ModelTakes(def.models.value, r.model, e))
  }

  lemma {:induction false} OwnerMeans(models: seq<(string, ModelEntry)>, lower: string -> string, name: string)
    ensures AliasOwner(models, lower, lower(name)).Some? <==> exists k | 0 <= k < |models| :: HasAlias(models[k].1, lower, name)
    ensures AliasOwner(models, lower, lower(name)).Some? ==>
              exists k | 0 <= k < |models| ::
                && models[k].0 == AliasOwner(models, lower, lower(name)).value && HasAlias(models[k].1, lower, name)
                && forall j | 0 <= j < k :: !HasAlias(models[j].1, lower, name)
  {
    if models != [] {
      var rest := models[1..];
      OwnerMeans(rest, lower, name);
      AliasMeans(models[0].1, lower, name);
      hide HasAlias, AliasMatches;
      if HasAlias(models[0].1, lower, name) {
      } else if AliasOwner(rest, lower, lower(name)).Some? {
        var k :| 0 <= k < |rest| && rest[k].0 == AliasOwner(rest, lower, lower(name)).value && HasAlias(rest[k].1, lower, name)
                 && forall j | 0 <= j < k :: !HasAlias(rest[j].1, lower, name);
        assert models[k + 1] == rest[k];
        forall j | 0 <= j < k + 1 ensures !HasAlias(models[j].1, lower, name) {
          assert j > 0 ==> models[j] == rest[j - 1];
        }
      } else {
        forall k | 0 <= k < |models| ensures !HasAlias(models[k].1, lower, name) {
          assert k > 0 ==> models[k] == rest[k - 1];
        }
      }
    }
  }

  lemma AliasMeans(entry: ModelEntry, lower: string -> string, name: string)
    ensures HasAlias(entry, lower, name) <==>
            entry.Model? && exists i | 0 <= i < |entry.aliases| :: AliasMatches(entry.aliases[i], lower, lower(name))
  {
    if HasAlias(entry, lower, name) {
      var i :| 0 <= i < |entry.aliases| && entry.aliases[i].AliasText? && entry.aliases[i].text != ""
               && lower(entry.aliases[i].text) == lower(name);
      assert AliasMatches(entry.aliases[i], lower, lower(name));
    }
  }

  lemma StandsForOne(models: seq<(string, ModelEntry)>, lower: string -> string, name: string, a: string, b: string)
    requires StandsFor(models, lower, name, a) && StandsFor(models, lower, name, b)
    ensures a == b
  {
    hide HasAlias;
    if !IsModel(models, name) {
      var k :| 0 <= k < |models| && models[k].0 == a && HasAlias(models[k].1, lower, name)
               && forall j | 0 <= j < k :: !HasAlias(models[j].1, lower, name);
      var l :| 0 <= l < |models| && models[l].0 == b && HasAlias(models[l].1, lower, name)
               && forall j | 0 <= j < l :: !HasAlias(models[j].1, lower, name);
      assert k == l;
    }
  }

  /** `_resolve_alias` in these terms. */
  lemma ResolveMeans(def: ProviderDef, lower: string -> string, name: string)
    ensures var (canonical, found) := ResolveAlias(def, lower, name);
            && (found <==> IsKnown(def, lower, name))
            && (found ==> StandsFor(def.models.value, lower, name, canonical))
            && (!found ==> canonical == name)
  {
    if def.models.Some? {
      OwnerMeans(def.models.value, lower, name);
      hide HasAlias;
    }
  }

  lemma {:induction false} EntryMeans(models: seq<(string, ModelEntry)>, model: string, effort: string)
    ensures ModelTakes(models, model, effort) <==>
            var entry := EntryOf(models, model); entry.Model? && entry.efforts != [] ==> effort in entry.efforts
  {
    if models != [] && models[0].0 != model {
      var rest := models[1..];
      EntryMeans(rest, model, effort);
      forall k | 0 <= k < |rest|
        ensures rest[k] == models[k + 1]
        ensures (forall j | 0 <= j < k :: rest[j].0 != model) <==> forall j | 0 <= j < k + 1 :: models[j].0 != model
      {
        assert forall j | 0 < j < k + 1 :: models[j] == rest[j - 1];
        assert forall j | 0 <= j < k :: rest[j] == models[j + 1];
      }
    }
  }

  lemma RouteIff(ctx: Context, task: TaskId, j: Json, r: Route, warnings: seq<Warning>)
    ensures NormalizeRoute(ctx, task, j) == Ok((r, warnings)) <==> RouteOf(ctx, task, j, r, warnings)
  {
    hide Get, OnlyKeys, ResolveAlias, IsKnown, StandsFor, EntryOf, ModelTakes;
    if j.Obj? {
      var provider, model := GetOrNull(j.members, "provider"), GetOrNull(j.members, "model");
      if provider.Str? && provider.s in ctx.providers && model.Str? {
        var def := ctx.providers[provider.s];
        ResolveMeans(def, ctx.lower, model.s);
        var (canonical, found) := ResolveAlias(def, ctx.lower, model.s);
        KnownHasModels(def, ctx.lower, model.s);
        if found {
          if StandsFor(def.models.value, ctx.lower, model.s, r.model) {
            StandsForOne(def.models.value, ctx.lower, model.s, canonical, r.model);
          }
          forall e ensures ModelTakes(def.models.value, canonical, e) <==>
                           var entry := EntryOf(def.models.value, canonical);
                           entry.Model? && entry.efforts != [] ==> e in entry.efforts
          {
            EntryMeans(def.models.value, canonical, e);
          }
        }
      }
    }
  }

  lemma KnownHasModels(def: ProviderDef, lower: string -> string, name: string)
    ensures IsKnown(def, lower, name) ==> def.models.Some?
  {
  }

  // ---------------------------------------------------------------- the other fields of a task

  predicate ModeIs(j: Json, m: Mode) {
    j == Str(if m == Read then "read" else "write")
  }

  predicate WorkspaceIs(j: Json, ws: Workspace) {
    match ws
    case Shared => j == Str("shared")
    case Isolated => j == Str("isolated")
    case Auto => j == Str("auto")
  }

  predicate PromptOf(ctx: Context, j: Json, p: Prompt) {
    && j.Obj? && |j.members| == 1
    && match p
       case FromText(text) => j.members[0] == ("text", Str(text)) && text != ""
       case FromFile(path) => j.members[0] == ("file", Str(path)) && path != "" && ctx.isPromptFile(path)
  }

  /** `dependsOn`: the entries, sorted. */
  ghost predicate DependsOnOf(task: TaskId, names: set<TaskId>, j: Json, deps: seq<TaskId>) {
    && Ascending(deps)
    && if j == Null then deps == []
       else j.List? && exists listed :: DepsOf(task, names, j.items, listed) && multiset(listed) == multiset(deps)
  }

  predicate ArtifactIs(j: Json, a: Artifact) {
    match a
    case Stdout => j == Str("stdout")
    case Stderr => j == Str("stderr")
    case ResultFile => j == Str("result")
    case Patch => j == Str("patch")
    case Diffstat => j == Str("diffstat")
  }

  predicate SelectionOf(j: Json, deps: seq<TaskId>, s: Selection) {
    && j.Obj? && OnlyKeys(j.members, {"task", "artifact", "maxBytes"})
    && GetOrNull(j.members, "task") == Str(s.task) && s.task != "" && s.task in deps
    && ArtifactIs(GetOrNull(j.members, "artifact"), s.artifact)
    && s.maxBytes >= 1
    && match Get(j.members, "maxBytes")
       case None => s.maxBytes == 50000
       case Some(v) => v == Num(Whole(s.maxBytes))
  }

  predicate ContextOf(j: Json, deps: seq<TaskId>, r: seq<Selection>) {
    if j == Null then r == []
    else j.List? && |r| == |j.items| && forall i | 0 <= i < |r| :: SelectionOf(j.items[i], deps, r[i])
  }

  predicate TriggerIs(j: Json, t: Trigger) {
    j == Str(if t == Timeout then "timeout" else "transport-error")
  }

  predicate RetryOf(j: Json, r: Retry) {
    if j == Null then r == Retry(1, Whole(0), [])
    else
      && j.Obj? && OnlyKeys(j.members, {"maxAttempts", "backoffSeconds", "on"})
      && r.maxAttempts >= 1 && !r.backoff.Negative() && Distinct(r.on)
      && (match Get(j.members, "maxAttempts")
          case None => r.maxAttempts == 1
          case Some(v) => v == Num(Whole(r.maxAttempts)))
      && (match Get(j.members, "backoffSeconds")
          case None => r.backoff == Whole(0)
          case Some(v) => v == Num(r.backoff))
      && match Get(j.members, "on")
         case None => r.on == []
         case Some(v) => v.List? && |r.on| == |v.items| && forall i | 0 <= i < |r.on| :: TriggerIs(v.items[i], r.on[i])
  }

  predicate VerifyOf(j: Json, v: seq<seq<string>>) {
    if j == Null then v == [] else j.List? && CommandsOf(j.items, v)
  }

  /** A positive number, as written or the default. */
  predicate TimeoutOf(o: Members, default: Number, n: Number) {
    && n.Positive()
    && match Get(o, "timeoutSeconds")
       case None => n == default
       case Some(v) => v == Num(n)
  }

  predicate WorkspaceOfField(o: Members, default: Workspace, ws: Workspace) {
    match Get(o, "workspace")
    case None => ws == default
    case Some(v) => WorkspaceIs(v, ws)
  }

  /** A task of the normal form and its warnings, against the task of the document. */
  ghost predicate TaskOf(ctx: Context, defaults: Defaults, names: set<TaskId>, task: TaskId, j: Json, t: TaskDef, warnings: seq<Warning>) {
    && j.Obj?
    && OnlyKeys(j.members, {"route", "mode", "prompt", "dependsOn", "contextFrom", "timeoutSeconds", "workspace", "retry", "verify"})
    && var o := j.members;
    && RouteOf(ctx, task, GetOrNull(o, "route"), t.route, warnings)
    && ModeIs(GetOrNull(o, "mode"), t.mode)
    && PromptOf(ctx, GetOrNull(o, "prompt"), t.prompt)
    && DependsOnOf(task, names, GetOrNull(o, "dependsOn"), t.dependsOn)
    && ContextOf(GetOrNull(o, "contextFrom"), t.dependsOn, t.contextFrom)
    && TimeoutOf(o, defaults.timeout, t.timeout)
    && WorkspaceOfField(o, defaults.workspace, t.workspace)
    && !(t.mode == Write && t.workspace == Shared)
    && RetryOf(GetOrNull(o, "retry"), t.retry)
    && VerifyOf(GetOrNull(o, "verify"), t.verify)
  }

  lemma ModeIff(j: Json, m: Mode)
    ensures ModeOf(j) == Some(m) <==> ModeIs(j, m)
  {
  }

  lemma WorkspaceIff(j: Json, ws: Workspace)
    ensures WorkspaceOf(j) == Some(ws) <==> WorkspaceIs(j, ws)
  {
  }

  lemma PromptIff(ctx: Context, j: Json, p: Prompt)
    ensures NormalizePrompt(ctx, j) == Ok(p) <==> PromptOf(ctx, j, p)
  {
  }

  lemma SortedIff(listed: seq<string>, deps: seq<string>)
    ensures deps == Sort(listed) <==> Ascending(deps) && multiset(listed) == multiset(deps)
  {
    SortSpec(listed);
    if Ascending(deps) && multiset(listed) == multiset(deps) {
      AscendingUnique(deps, Sort(listed));
    }
  }

  lemma DependsOnIff(task: TaskId, names: set<TaskId>, j: Json, deps: seq<TaskId>)
    requires j == Null || j.List?
    ensures var n := NormalizeDeps(task, names, if j == Null then [] else j.items);
            n.Ok? && deps == Sort(n.value) <==> DependsOnOf(task, names, j, deps)
  {
    hide NormalizeDeps, Sort, Ascending, DepsOf;
    var items := if j == Null then [] else j.items;
    var n := NormalizeDeps(task, names, items);
    if n.Ok? {
      DepsIff(task, names, items, n.value);
      SortedIff(n.value, deps);
    }
    forall listed | DepsOf(task, names, items, listed) ensures n == Ok(listed) {
      DepsIff(task, names, items, listed);
    }
    if j == Null {
      NoDeps(task, names);
      SortedIff([], deps);
    }
  }

  lemma NoDeps(task: TaskId, names: set<TaskId>)
    ensures NormalizeDeps(task, names, []) == Ok([]) && Sort([]) == [] && Ascending([])
  {
  }

  lemma ArtifactIff(j: Json, a: Artifact)
    ensures j.Str? && ArtifactOf(j.s) == Some(a) <==> ArtifactIs(j, a)
  {
  }

  lemma SelectionIff(j: Json, deps: seq<TaskId>, s: Selection)
    ensures NormalizeSelection(j, deps) == Ok(s) <==> SelectionOf(j, deps, s)
  {
    hide Get, OnlyKeys, ArtifactOf, ArtifactIs;
    if j.Obj? {
      var artifact := GetOrNull(j.members, "artifact");
      forall a ensures artifact.Str? && ArtifactOf(artifact.s) == Some(a) <==> ArtifactIs(artifact, a) {
        ArtifactIff(artifact, a);
      }
    }
  }

  lemma ContextIff(j: Json, deps: seq<TaskId>, r: seq<Selection>)
    ensures NormalizeContextFrom(j, deps) == Ok(r) <==> ContextOf(j, deps, r)
  {
    hide NormalizeSelection, SelectionOf;
    if j.List? {
      SelectionsIff(j.items, deps, r);
      forall i | 0 <= i < |j.items| && i < |r| ensures NormalizeSelection(j.items[i], deps) == Ok(r[i]) <==> SelectionOf(j.items[i], deps, r[i]) {
        SelectionIff(j.items[i], deps, r[i]);
      }
    }
  }

  lemma TriggersMean(items: seq<Json>, on: seq<Trigger>)
    ensures NormalizeTriggers(items) == Ok(on) <==>
            Distinct(on) && |on| == |items| && forall i | 0 <= i < |on| :: TriggerIs(items[i], on[i])
  {
    TriggersIff(items, on);
  }

  lemma RetryIff(j: Json, r: Retry)
    ensures NormalizeRetry(j) == Ok(r) <==> RetryOf(j, r)
  {
    hide Get, OnlyKeys, NormalizeTriggers, TriggerIs, Distinct;
    if j == Null {
      assert Get([], "maxAttempts").None? && Get([], "backoffSeconds").None? && Get([], "on").None? by { NothingThere(); }
      assert OnlyKeys([], {"maxAttempts", "backoffSeconds", "on"}) by { NothingThere(); }
      TriggersMean([], r.on);
      TriggersMean([], []);
      assert Distinct<Trigger>([]) by { NothingThere(); }
    } else if j.Obj? {
      var on := GetOr(j.members, "on", List([]));
      if on.List? {
        TriggersMean(on.items, r.on);
        TriggersMean([], []);
        assert Distinct<Trigger>([]) by { NothingThere(); }
      }
    }
  }

  lemma NothingThere()
    ensures forall key :: Get([], key).None?
    ensures forall allowed :: OnlyKeys([], allowed)
    ensures Distinct<Trigger>([])
  {
  }

  lemma VerifyIff(j: Json, v: seq<seq<string>>)
    ensures NormalizeVerify(j) == Ok(v) <==> VerifyOf(j, v)
  {
    if j.List? {
      CommandsIff(j.items, v);
    }
  }

  lemma TimeoutIff(o: Members, default: Number, n: Number)
    ensures var v := GetOr(o, "timeoutSeconds", Num(default)); v.Num? && v.n.Positive() && v.n == n <==> TimeoutOf(o, default, n)
  {
    hide Get;
  }

  lemma WorkspaceFieldIff(o: Members, default: Workspace, ws: Workspace)
    ensures WorkspaceOf(GetOr(o, "workspace", Str(WorkspaceText(default)))) == Some(ws) <==> WorkspaceOfField(o, default, ws)
  {
    hide Get;
    WorkspaceIff(Str(WorkspaceText(default)), default);
    match Get(o, "workspace")
    case None => 
    case Some(v) => WorkspaceIff(v, ws);
  }

  /** A task is accepted with this normal form and these warnings exactly if they say field by field what
    * the document says. */
  lemma TaskIff(ctx: Context, defaults: Defaults, names: set<TaskId>, task: TaskId, j: Json, t: TaskDef, warnings: seq<Warning>)
    ensures NormalizeTask(ctx, defaults, names, task, j) == Ok((t, warnings)) <==>
            TaskOf(ctx, defaults, names, task, j, t, warnings)
  {
    hide Get, OnlyKeys, NormalizeRoute, NormalizePrompt, NormalizeDeps, NormalizeContextFrom, NormalizeRetry, NormalizeVerify, Sort,
         RouteOf, PromptOf, DependsOnOf, ContextOf, RetryOf, VerifyOf, ModeOf, ModeIs, WorkspaceOf, WorkspaceOfField, TimeoutOf,
         WorkspaceText;
    if j.Obj? {
      var o := j.members;
      ModeIff(GetOrNull(o, "mode"), t.mode);
      RouteIff(ctx, task, GetOrNull(o, "route"), t.route, warnings);
      PromptIff(ctx, GetOrNull(o, "prompt"), t.prompt);
      var rawDeps := GetOrNull(o, "dependsOn");
      if rawDeps == Null || rawDeps.List? {
        DependsOnIff(task, names, rawDeps, t.dependsOn);
      } else {
        assert !DependsOnOf(task, names, rawDeps, t.dependsOn) by { DependsOnForm(task, names, rawDeps, t.dependsOn); }
      }
      ContextIff(GetOrNull(o, "contextFrom"), t.dependsOn, t.contextFrom);
      TimeoutIff(o, defaults.timeout, t.timeout);
      WorkspaceFieldIff(o, defaults.workspace, t.workspace);
      RetryIff(GetOrNull(o, "retry"), t.retry);
      VerifyIff(GetOrNull(o, "verify"), t.verify);
      var route := NormalizeRoute(ctx, task, GetOrNull(o, "route"));
      if route.Ok? {
        assert route.value == (route.value.0, route.value.1);
      }
    }
  }

  lemma DependsOnForm(task: TaskId, names: set<TaskId>, j: Json, deps: seq<TaskId>)
    ensures DependsOnOf(task, names, j, deps) ==> j == Null || j.List?
  {
  }

  // ---------------------------------------------------------------- defaults

  predicate LimitOk(ctx: Context, m: (string, Json)) {
    m.0 != "" && m.0 in ctx.providers && m.1.Num? && m.1.n.Whole? && m.1.n.i >= 1
  }

  /** Place `i` is the last one that is written for its name. */
  predicate WrittenLast(o: Members, i: nat)
    requires i < |o|
  {
    forall k | i < k < |o| :: o[k].0 != o[i].0
  }

  predicate IsWritten(o: Members, p: string) {
    exists i :: 0 <= i < |o| && o[i].0 == p
  }

  /** The limits, by provider; a name that is written twice counts as written last. */
  predicate ProviderLimitsOf(ctx: Context, o: Members, r: map<Provider, int>) {
    && (forall i | 0 <= i < |o| :: LimitOk(ctx, o[i]) && o[i].0 in r)
    && (forall p | p in r :: IsWritten(o, p))
    && forall i | 0 <= i < |o| && WrittenLast(o, i) :: o[i].1 == Num(Whole(r[o[i].0]))
  }

  predicate PolicyIs(j: Json, p: FailurePolicy) {
    j == Str(if p == FailFast then "fail-fast" else "continue")
  }

  ghost predicate DefaultsOf(ctx: Context, j: Json, d: Defaults) {
    if j == Null then d == Defaults(2, map[], Whole(1140), Auto, FailFast)
    else
      && j.Obj? && OnlyKeys(j.members, {"maxConcurrency", "providerConcurrency", "timeoutSeconds", "workspace", "failurePolicy"})
      && var o := j.members;
      && d.maxConcurrency >= 1
      && (match Get(o, "maxConcurrency")
          case None => d.maxConcurrency == 2
          case Some(v) => v == Num(Whole(d.maxConcurrency)))
      && var limits := GetOrNull(o, "providerConcurrency");
      && (if limits == Null then d.providerConcurrency == map[]
          else limits.Obj? && ProviderLimitsOf(ctx, limits.members, d.providerConcurrency))
      && TimeoutOf(o, Whole(1140), d.timeout)
      && WorkspaceOfField(o, Auto, d.workspace)
      && match Get(o, "failurePolicy")
         case None => d.failurePolicy == FailFast
         case Some(v) => PolicyIs(v, d.failurePolicy)
  }

  lemma {:induction false} LimitsMean(ctx: Context, o: Members)
    ensures NormalizeLimits(ctx, o).Ok? <==> forall i | 0 <= i < |o| :: LimitOk(ctx, o[i])
    ensures NormalizeLimits(ctx, o).Ok? ==> ProviderLimitsOf(ctx, o, NormalizeLimits(ctx, o).value)
  {
    if o != [] {
      var k := |o| - 1;
      var before := o[..k];
      LimitsMean(ctx, before);
      assert forall i | 0 <= i < k :: o[i] == before[i];
      if NormalizeLimits(ctx, o).Ok? {
        hide ProviderLimitsOf;
        LimitsMore(ctx, o, NormalizeLimits(ctx, before).value);
      }
    }
  }

  lemma LimitsMore(ctx: Context, o: Members, front: map<Provider, int>)
    requires o != [] && ProviderLimitsOf(ctx, o[..|o| - 1], front) && LimitOk(ctx, o[|o| - 1])
    ensures ProviderLimitsOf(ctx, o, front[o[|o| - 1].0 := o[|o| - 1].1.n.i])
  {
    hide LimitOk, WrittenLast, IsWritten;
    var k := |o| - 1;
    var before := o[..k];
    OkIsNumber(ctx, o[k]);
    var r := front[o[k].0 := o[k].1.n.i];
    forall i | 0 <= i < |o| ensures LimitOk(ctx, o[i]) && o[i].0 in r {
      assert i < k ==> o[i] == before[i];
    }
    forall p | p in r ensures IsWritten(o, p) {
      WrittenMore(o, p);
    }
    forall i | 0 <= i < |o| && WrittenLast(o, i) ensures o[i].1 == Num(Whole(r[o[i].0])) {
      LastMore(o, i);
      assert i < k ==> o[i] == before[i];
    }
  }

  lemma OkIsNumber(ctx: Context, m: (string, Json))
    requires LimitOk(ctx, m)
    ensures m.1.Num? && m.1.n.Whole?
  {
  }

  lemma WrittenMore(o: Members, p: string)
    requires o != []
    ensures IsWritten(o, p) <==> o[|o| - 1].0 == p || IsWritten(o[..|o| - 1], p)
  {
    var before := o[..|o| - 1];
    if i :| 0 <= i < |o| && o[i].0 == p {
      assert i < |o| - 1 ==> before[i].0 == p;
    }
    if i :| 0 <= i < |before| && before[i].0 == p {
      assert o[i].0 == p;
    }
  }

  lemma LastMore(o: Members, i: nat)
    requires i < |o|
    ensures i < |o| - 1 ==> (WrittenLast(o, i) <==> o[|o| - 1].0 != o[i].0 && WrittenLast(o[..|o| - 1], i))
    ensures i == |o| - 1 ==> WrittenLast(o, i)
  {
    var before := o[..|o| - 1];
    assert forall k | 0 <= k < |before| :: before[k] == o[k];
    assert i < |before| && WrittenLast(before, i) ==> forall k | i < k < |o| - 1 :: before[k].0 != before[i].0;
  }

  /** The last place of a name. */
  lemma {:induction false} LastPlace(o: Members, p: string) returns (i: nat)
    requires IsWritten(o, p)
    ensures i < |o| && o[i].0 == p && WrittenLast(o, i)
  {
    hide WrittenLast;
    var k := |o| - 1;
    if o[k].0 == p {
      i := k;
    } else {
      hide IsWritten;
      WrittenMore(o, p);
      i := LastPlace(o[..k], p);
    }
    LastMore(o, i);
  }

  lemma ProviderLimitsOne(ctx: Context, o: Members, a: map<Provider, int>, b: map<Provider, int>)
    requires ProviderLimitsOf(ctx, o, a) && ProviderLimitsOf(ctx, o, b)
    ensures a == b
  {
    hide WrittenLast, LimitOk;
    forall p | p in a || p in b ensures p in a && p in b && a[p] == b[p] {
      var i := LastPlace(o, p);
    }
  }

  lemma ProviderLimitsIff(ctx: Context, o: Members, r: map<Provider, int>)
    ensures NormalizeLimits(ctx, o) == Ok(r) <==> ProviderLimitsOf(ctx, o, r)
  {
    LimitsMean(ctx, o);
    hide NormalizeLimits;
    if ProviderLimitsOf(ctx, o, r) {
      ProviderLimitsOne(ctx, o, NormalizeLimits(ctx, o).value, r);
    }
  }

  lemma PolicyIff(j: Json, p: FailurePolicy)
    ensures PolicyOf(j) == Some(p) <==> PolicyIs(j, p)
  {
  }

  /** The same for the defaults. */
  lemma DefaultsIff(ctx: Context, j: Json, d: Defaults)
    ensures NormalizeDefaults(ctx, j) == Ok(d) <==> DefaultsOf(ctx, j, d)
  {
    hide Get, OnlyKeys, NormalizeLimits, ProviderLimitsOf, WorkspaceOf, WorkspaceOfField, TimeoutOf, PolicyOf;
    if j.Obj? {
      var o := j.members;
      var limits := GetOrNull(o, "providerConcurrency");
      NoLimitsMean(ctx, d.providerConcurrency);
      if limits.Obj? {
        ProviderLimitsIff(ctx, limits.members, d.providerConcurrency);
      }
      TimeoutIff(o, Whole(1140), d.timeout);
      assert WorkspaceText(Auto) == "auto";
      WorkspaceFieldIff(o, Auto, d.workspace);
      PolicyIff(GetOr(o, "failurePolicy", Str("fail-fast")), d.failurePolicy);
      PolicyIff(Str("fail-fast"), FailFast);
    }
  }

  lemma NoLimitsMean(ctx: Context, r: map<Provider, int>)
    ensures NormalizeLimits(ctx, []) == Ok(r) <==> r == map[]
  {
  }

  // ---------------------------------------------------------------- the document

  function Flat(lists: seq<seq<Warning>>): seq<Warning> {
    if lists == [] then [] else Flat(lists[..|lists| - 1]) + lists[|lists| - 1]
  }

  /** The tasks in this order, and their warnings one after the other. */
  ghost predicate TasksOf(ctx: Context, defaults: Defaults, names: set<TaskId>, raw: Members, order: seq<TaskId>,
                          tasks: map<TaskId, TaskDef>, warnings: seq<Warning>) {
    exists lists: seq<seq<Warning>> :: warnings == Flat(lists) && TasksWith(ctx, defaults, names, raw, order, tasks, lists)
  }

  ghost predicate TasksWith(ctx: Context, defaults: Defaults, names: set<TaskId>, raw: Members, order: seq<TaskId>,
                            tasks: map<TaskId, TaskDef>, lists: seq<seq<Warning>>) {
    && (forall t :: t in tasks <==> t in order)
    && |lists| == |order|
    && forall i | 0 <= i < |order| :: TaskOf(ctx, defaults, names, order[i], GetOrNull(raw, order[i]), tasks[order[i]], lists[i])
  }

  /** A letter, then up to 63 letters, digits, underscores or hyphens. */
  predicate TaskNamed(s: string) {
    && 1 <= |s| <= 64
    && ('a' <= s[0] <= 'z' || 'A' <= s[0] <= 'Z')
    && forall i | 1 <= i < |s| ::
         'a' <= s[i] <= 'z' || 'A' <= s[i] <= 'Z' || '0' <= s[i] <= '9' || s[i] == '_' || s[i] == '-'
  }

  /** A workflow and its warnings, against the document. */
  ghost predicate DocumentOf(ctx: Context, data: Json, w: Workflow, warnings: seq<Warning>) {
    && data.Obj? && OnlyKeys(data.members, {"schemaVersion", "name", "defaults", "tasks"}) && ctx.hostKnown
    && var o := data.members;
    && GetOrNull(o, "schemaVersion") in [Num(Whole(1)), Num(Decimal(1.0)), Bool(true)]
    && GetOrNull(o, "name") == Str(w.name) && 1 <= |w.name| <= 128
    && DefaultsOf(ctx, GetOrNull(o, "defaults"), w.defaults)
    && var raw := GetOrNull(o, "tasks");
    && raw.Obj? && raw.members != []
    && var names := Keys(raw.members);
    && Distinct(names) && (forall i | 0 <= i < |names| :: TaskNamed(names[i]))
    && Ascending(w.order) && multiset(w.order) == multiset(names)
    && TasksOf(ctx, w.defaults, (set n | n in names), raw.members, w.order, w.tasks, warnings)
  }

  lemma OneMoreTask(ctx: Context, defaults: Defaults, names: set<TaskId>, raw: Members, order: seq<TaskId>,
                    front: map<TaskId, TaskDef>, lists: seq<seq<Warning>>, def: TaskDef, more: seq<Warning>)
    requires Distinct(order) && order != []
    requires var k := |order| - 1;
             && TasksWith(ctx, defaults, names, raw, order[..k], front, lists)
             && TaskOf(ctx, defaults, names, order[k], GetOrNull(raw, order[k]), def, more)
    ensures TasksWith(ctx, defaults, names, raw, order, front[order[|order| - 1] := def], lists + [more])
  {
    hide TaskOf, Get;
    var k := |order| - 1;
    var tasks, all := front[order[k] := def], lists + [more];
    assert order == order[..k] + [order[k]];
    forall i | 0 <= i < |order| ensures TaskOf(ctx, defaults, names, order[i], GetOrNull(raw, order[i]), tasks[order[i]], all[i]) {
      if i < k {
        assert order[..k][i] == order[i] && order[i] != order[k];
      }
    }
  }

  lemma OneTaskLess(ctx: Context, defaults: Defaults, names: set<TaskId>, raw: Members, order: seq<TaskId>,
                    tasks: map<TaskId, TaskDef>, lists: seq<seq<Warning>>)
    requires Distinct(order) && order != [] && TasksWith(ctx, defaults, names, raw, order, tasks, lists)
    ensures var k := |order| - 1;
            && order[k] in tasks
            && TasksWith(ctx, defaults, names, raw, order[..k], tasks - {order[k]}, lists[..k])
            && TaskOf(ctx, defaults, names, order[k], GetOrNull(raw, order[k]), tasks[order[k]], lists[k])
  {
    hide TaskOf, Get;
    var k := |order| - 1;
    assert order == order[..k] + [order[k]];
    forall i | 0 <= i < k ensures order[..k][i] == order[i] && order[i] != order[k] {
    }
  }

  lemma {:induction false} TasksAreOf(ctx: Context, defaults: Defaults, names: set<TaskId>, raw: Members, order: seq<TaskId>)
    requires Distinct(order) && NormalizeTasks(ctx, defaults, names, raw, order).Ok?
    ensures var (tasks, warnings) := NormalizeTasks(ctx, defaults, names, raw, order).value;
            TasksOf(ctx, defaults, names, raw, order, tasks, warnings)
    decreases |order|
  {
    hide NormalizeTask, TaskOf, Get;
    if order == [] {
      var lists: seq<seq<Warning>> := [];
      assert TasksWith(ctx, defaults, names, raw, order, map[], lists);
      assert Flat(lists) == [];
    } else {
      var k := |order| - 1;
      TasksAreOf(ctx, defaults, names, raw, order[..k]);
      var (front, some) := NormalizeTasks(ctx, defaults, names, raw, order[..k]).value;
      var (def, more) := NormalizeTask(ctx, defaults, names, order[k], GetOrNull(raw, order[k])).value;
      assert NormalizeTask(ctx, defaults, names, order[k], GetOrNull(raw, order[k])) == Ok((def, more));
      TaskIff(ctx, defaults, names, order[k], GetOrNull(raw, order[k]), def, more);
      var lists :| some == Flat(lists) && TasksWith(ctx, defaults, names, raw, order[..k], front, lists);
      OneMoreTask(ctx, defaults, names, raw, order, front, lists, def, more);
      hide TasksWith;
      assert (lists + [more])[..|lists|] == lists;
      assert Flat(lists + [more]) == some + more;
    }
  }

  lemma {:induction false} OfTasksAre(ctx: Context, defaults: Defaults, names: set<TaskId>, raw: Members, order: seq<TaskId>,
                                      tasks: map<TaskId, TaskDef>, lists: seq<seq<Warning>>)
    requires Distinct(order) && TasksWith(ctx, defaults, names, raw, order, tasks, lists)
    ensures NormalizeTasks(ctx, defaults, names, raw, order) == Ok((tasks, Flat(lists)))
    decreases |order|
  {
    hide NormalizeTask, TaskOf, Get;
    if order == [] {
      assert tasks == map[];
      assert lists == [];
    } else {
      var k := |order| - 1;
      var t := order[k];
      OneTaskLess(ctx, defaults, names, raw, order, tasks, lists);
      assert |lists| == |order|;
      hide TasksWith;
      OfTasksAre(ctx, defaults, names, raw, order[..k], tasks - {t}, lists[..k]);
      TaskIff(ctx, defaults, names, t, GetOrNull(raw, t), tasks[t], lists[k]);
      assert (tasks - {t})[t := tasks[t]] == tasks;
    }
  }

  lemma TasksIff(ctx: Context, defaults: Defaults, names: set<TaskId>, raw: Members, order: seq<TaskId>,
                 tasks: map<TaskId, TaskDef>, warnings: seq<Warning>)
    requires Distinct(order)
    ensures NormalizeTasks(ctx, defaults, names, raw, order) == Ok((tasks, warnings)) <==>
            TasksOf(ctx, defaults, names, raw, order, tasks, warnings)
  {
    hide NormalizeTasks, TasksWith;
    if NormalizeTasks(ctx, defaults, names, raw, order).Ok? {
      TasksAreOf(ctx, defaults, names, raw, order);
    }
    if lists :| warnings == Flat(lists) && TasksWith(ctx, defaults, names, raw, order, tasks, lists) {
      OfTasksAre(ctx, defaults, names, raw, order, tasks, lists);
    }
  }

  lemma VersionIff(j: Json)
    ensures IsVersionOne(j) <==> j in [Num(Whole(1)), Num(Decimal(1.0)), Bool(true)]
  {
  }

  lemma NameIff(s: string)
    ensures IsTaskName(s) <==> TaskNamed(s)
  {
  }

  /** A document normalises to this workflow with these warnings exactly if they say what it says. */
  lemma DocumentIff(ctx: Context, data: Json, w: Workflow, warnings: seq<Warning>)
    ensures NormalizeDocument(ctx, data) == Ok((w, warnings)) <==> DocumentOf(ctx, data, w, warnings)
  {
    hide Get, OnlyKeys, NormalizeDefaults, DefaultsOf, NormalizeTasks, TasksOf, IsTaskName, TaskNamed, Sort, Ascending, Distinct, IsVersionOne;
    if data.Obj? {
      var o := data.members;
      VersionIff(GetOrNull(o, "schemaVersion"));
      DefaultsIff(ctx, GetOrNull(o, "defaults"), w.defaults);
      var raw := GetOrNull(o, "tasks");
      if raw.Obj? {
        var names := Keys(raw.members);
        forall i | 0 <= i < |names| ensures IsTaskName(names[i]) <==> TaskNamed(names[i]) { NameIff(names[i]); }
        SortedIff(names, w.order);
        assert NameSet(names) == (set n | n in names);
        if Distinct(names) && w.order == Sort(names) {
          DistinctSorted(names);
          TasksIff(ctx, w.defaults, NameSet(names), raw.members, w.order, w.tasks, warnings);
          var tasks := NormalizeTasks(ctx, w.defaults, NameSet(names), raw.members, w.order);
          if tasks.Ok? {
            assert tasks.value == (tasks.value.0, tasks.value.1);
          }
        }
      }
    }
  }

  lemma DistinctSorted(names: seq<string>)
    requires Distinct(names)
    ensures Distinct(Sort(names))
  {
    SortSpec(names);
    NormalForm.PermutationKeeps(names, Sort(names));
  }
}
