/** `validate_workflow` and the normalisation functions below it. */
module Validation {
  import opened Workflows
  import opened Documents
  import opened Names

  /** What the validator complains about; the texts of the messages are not modelled. */
  datatype Problem =
    | NotAnObject(field: string)
    | UnknownFields(field: string)
    | BadField(field: string)
    | BadName(name: string)
    | NativeProvider | UnknownProvider | UnknownModel
    | SelfDependency | UnknownDependency | DuplicateDependency
    | NotADependency
    | SharedWrite
    | DependencyCycle

  datatype Result<+T> = Ok(value: T) | Err(problem: Problem) {
    predicate IsFailure() {
      Err?
    }

    function PropagateFailure<U>(): Result<U>
      requires Err?
    {
      Err(problem)
    }

    function Extract(): T
      requires Ok?
    {
      value
    }
  }

  /** The one advisory: a model that the provider does not declare but lets through. */
  datatype Warning = UndeclaredModel(task: TaskId, model: string, provider: Provider)

  function Check(c: bool, p: Problem): Result<()> {
    if c then Ok(()) else Err(p)
  }

  // ---------------------------------------------------------------- routes

  /** The first model with an alias that equals `lowered` up to case. */
  function AliasOwner(models: seq<(string, ModelEntry)>, lower: string -> string, lowered: string): Option<string> {
    if models == [] then None
    else if models[0].1.Model? && exists i | 0 <= i < |models[0].1.aliases| :: AliasMatches(models[0].1.aliases[i], lower, lowered)
    then Some(models[0].0)
    else AliasOwner(models[1..], lower, lowered)
  }

  predicate AliasMatches(a: Alias, lower: string -> string, lowered: string) {
    a.AliasText? && a.text != "" && lower(a.text) == lowered
  }

  predicate Declares(models: seq<(string, ModelEntry)>, model: string) {
    exists i | 0 <= i < |models| :: models[i].0 == model
  }

  /** `_resolve_alias` */
  function ResolveAlias(def: ProviderDef, lower: string -> string, model: string): (string, bool) {
    if def.models == None then (model, false)
    else if Declares(def.models.value, model) then (model, true)
    else
      match AliasOwner(def.models.value, lower, lower(model))
      case Some(canonical) => (canonical, true)
      case None => (model, false)
  }

  /** `models.get(canonical)` */
  function EntryOf(models: seq<(string, ModelEntry)>, model: string): ModelEntry {
    if models == [] then NotAMapping
    else if models[0].0 == model then models[0].1
    else EntryOf(models[1..], model)
  }

  predicate EffortAllowed(def: ProviderDef, canonical: string, found: bool, effort: string) {
    && effort in def.efforts
    && (found && def.models.Some? ==>
          var entry := EntryOf(def.models.value, canonical);
          entry.Model? && entry.efforts != [] ==> effort in entry.efforts)
  }

  function NormalizeRoute(ctx: Context, task: TaskId, route: Json): Result<(Route, seq<Warning>)> {
    var _ :- Check(route.Obj?, NotAnObject("route"));
    var o := route.members;
    var _ :- Check(OnlyKeys(o, {"provider", "model", "effort"}), UnknownFields("route"));
    var provider := GetOrNull(o, "provider");
    var _ :- Check(NonEmptyText(provider), BadField("route.provider"));
    var _ :- Check(provider.s in ctx.providers, UnknownProvider);
    var _ :- Check(provider.s !in ctx.native, NativeProvider);
    var model := GetOrNull(o, "model");
    var _ :- Check(NonEmptyText(model), BadField("route.model"));
    var def := ctx.providers[provider.s];
    var (canonical, found) := ResolveAlias(def, ctx.lower, model.s);
    var _ :- Check(found || def.allowUnknown, UnknownModel);
    var warnings := if found then [] else [UndeclaredModel(task, model.s, provider.s)];
    var effort := GetOrNull(o, "effort");
    if effort == Null then
      Ok((Route(provider.s, canonical, None), warnings))
    else
      var _ :- Check(NonEmptyText(effort) && EffortAllowed(def, canonical, found, effort.s), BadField("route.effort"));
      Ok((Route(provider.s, canonical, Some(effort.s)), warnings))
  }

  // ---------------------------------------------------------------- small fields

  function TriggerOf(s: string): Option<Trigger> {
    if s == "timeout" then Some(Timeout)
    else if s == "transport-error" then Some(TransportError)
    else None
  }

  /** The entries of `retry.on`, front to back. */
  function NormalizeTriggers(items: seq<Json>): (r: Result<seq<Trigger>>)
  {
    if items == [] then Ok([])
    else
      var front :- NormalizeTriggers(items[..|items| - 1]);
      var item := items[|items| - 1];
      var _ :- Check(item.Str? && TriggerOf(item.s).Some?, BadField("retry.on"));
      var trigger := TriggerOf(item.s).value;
      var _ :- Check(trigger !in front, BadField("retry.on"));
      Ok(front + [trigger])
  }

  function NormalizeRetry(retry: Json): Result<Retry> {
    var _ :- Check(retry == Null || retry.Obj?, NotAnObject("retry"));
    var o := if retry == Null then [] else retry.members;
    var _ :- Check(OnlyKeys(o, {"maxAttempts", "backoffSeconds", "on"}), UnknownFields("retry"));
    var attempts := GetOr(o, "maxAttempts", Num(Whole(1)));
    var _ :- Check(IsInteger(attempts) && attempts.n.i >= 1, BadField("retry.maxAttempts"));
    var backoff := GetOr(o, "backoffSeconds", Num(Whole(0)));
    var _ :- Check(backoff.Num? && !backoff.n.Negative(), BadField("retry.backoffSeconds"));
    var on := GetOr(o, "on", List([]));
    var _ :- Check(on.List?, BadField("retry.on"));
    var triggers :- NormalizeTriggers(on.items);
    Ok(Retry(attempts.n.i, backoff.n, triggers))
  }

  function NormalizeArguments(items: seq<Json>): Result<seq<string>> {
    if items == [] then Ok([])
    else
      var front :- NormalizeArguments(items[..|items| - 1]);
      var _ :- Check(NonEmptyText(items[|items| - 1]), BadField("verify"));
      Ok(front + [items[|items| - 1].s])
  }

  function NormalizeCommands(items: seq<Json>): Result<seq<seq<string>>> {
    if items == [] then Ok([])
    else
      var front :- NormalizeCommands(items[..|items| - 1]);
      var command := items[|items| - 1];
      var _ :- Check(command.List? && command.items != [], BadField("verify"));
      var argv :- NormalizeArguments(command.items);
      Ok(front + [argv])
  }

  function NormalizeVerify(verify: Json): Result<seq<seq<string>>> {
    if verify == Null then Ok([])
    else
      var _ :- Check(verify.List?, BadField("verify"));
      NormalizeCommands(verify.items)
  }

  function ArtifactOf(s: string): Option<Artifact> {
    if s == "stdout" then Some(Stdout)
    else if s == "stderr" then Some(Stderr)
    else if s == "result" then Some(ResultFile)
    else if s == "patch" then Some(Patch)
    else if s == "diffstat" then Some(Diffstat)
    else None
  }

  function NormalizeSelection(entry: Json, deps: seq<TaskId>): Result<Selection> {
    var _ :- Check(entry.Obj?, NotAnObject("contextFrom"));
    var o := entry.members;
    var _ :- Check(OnlyKeys(o, {"task", "artifact", "maxBytes"}), UnknownFields("contextFrom"));
    var ref := GetOrNull(o, "task");
    var _ :- Check(NonEmptyText(ref), BadField("contextFrom.task"));
    var artifact := GetOrNull(o, "artifact");
    var _ :- Check(artifact.Str? && ArtifactOf(artifact.s).Some?, BadField("contextFrom.artifact"));
    var _ :- Check(ref.s in deps, NotADependency);
    var maxBytes := GetOr(o, "maxBytes", Num(Whole(50000)));
    var _ :- Check(IsInteger(maxBytes) && maxBytes.n.i >= 1, BadField("contextFrom.maxBytes"));
    Ok(Selection(ref.s, ArtifactOf(artifact.s).value, maxBytes.n.i))
  }

  function NormalizeSelections(items: seq<Json>, deps: seq<TaskId>): Result<seq<Selection>> {
    if items == [] then Ok([])
    else
      var front :- NormalizeSelections(items[..|items| - 1], deps);
      var last :- NormalizeSelection(items[|items| - 1], deps);
      Ok(front + [last])
  }

  function NormalizeContextFrom(context: Json, deps: seq<TaskId>): Result<seq<Selection>> {
    if context == Null then Ok([])
    else
      var _ :- Check(context.List?, BadField("contextFrom"));
      NormalizeSelections(context.items, deps)
  }

  function NormalizePrompt(ctx: Context, prompt: Json): Result<Prompt> {
    var _ :- Check(prompt.Obj? && |prompt.members| == 1, BadField("prompt"));
    var key, value := prompt.members[0].0, prompt.members[0].1;
    var _ :- Check(key == "file" || key == "text", BadField("prompt"));
    var _ :- Check(NonEmptyText(value), BadField("prompt"));
    if key == "text" then Ok(FromText(value.s))
    else
      var _ :- Check(ctx.isPromptFile(value.s), BadField("prompt.file"));
      Ok(FromFile(value.s))
  }

  /** The entries of `dependsOn`, front to back, before they are sorted. */
  function NormalizeDeps(task: TaskId, names: set<TaskId>, items: seq<Json>): Result<seq<TaskId>> {
    if items == [] then Ok([])
    else
      var front :- NormalizeDeps(task, names, items[..|items| - 1]);
      var dep := items[|items| - 1];
      var _ :- Check(NonEmptyText(dep), BadField("dependsOn"));
      var _ :- Check(dep.s != task, SelfDependency);
      var _ :- Check(dep.s in names, UnknownDependency);
      var _ :- Check(dep.s !in front, DuplicateDependency);
      Ok(front + [dep.s])
  }

  function ModeOf(j: Json): Option<Mode> {
    if j == Str("read") then Some(Read) else if j == Str("write") then Some(Write) else None
  }

  function WorkspaceOf(j: Json): Option<Workspace> {
    if j == Str("shared") then Some(Shared)
    else if j == Str("isolated") then Some(Isolated)
    else if j == Str("auto") then Some(Auto)
    else None
  }

  // ---------------------------------------------------------------- tasks

  const TASK_FIELDS: set<string> :=
    {"route", "mode", "prompt", "dependsOn", "contextFrom", "timeoutSeconds", "workspace", "retry", "verify"}

  function NormalizeTask(ctx: Context, defaults: Defaults, names: set<TaskId>, task: TaskId, def: Json)
    : Result<(TaskDef, seq<Warning>)>
  {
    var _ :- Check(def.Obj?, NotAnObject("task"));
    var o := def.members;
    var _ :- Check(OnlyKeys(o, TASK_FIELDS), UnknownFields("task"));
    var mode := ModeOf(GetOrNull(o, "mode"));
    var _ :- Check(mode.Some?, BadField("mode"));
    var (route, warnings) :- NormalizeRoute(ctx, task, GetOrNull(o, "route"));
    var prompt :- NormalizePrompt(ctx, GetOrNull(o, "prompt"));
    var rawDeps := GetOrNull(o, "dependsOn");
    var _ :- Check(rawDeps == Null || rawDeps.List?, BadField("dependsOn"));
    var unsorted :- NormalizeDeps(task, names, if rawDeps == Null then [] else rawDeps.items);
    var deps := Sort(unsorted);
    var contextFrom :- NormalizeContextFrom(GetOrNull(o, "contextFrom"), deps);
    var timeout := GetOr(o, "timeoutSeconds", Num(defaults.timeout));
    var _ :- Check(timeout.Num? && timeout.n.Positive(), BadField("timeoutSeconds"));
    var workspace := WorkspaceOf(GetOr(o, "workspace", Str(WorkspaceText(defaults.workspace))));
    var _ :- Check(workspace.Some?, BadField("workspace"));
    var _ :- Check(!(mode.value == Write && workspace.value == Shared), SharedWrite);
    var retry :- NormalizeRetry(GetOrNull(o, "retry"));
    var verify :- NormalizeVerify(GetOrNull(o, "verify"));
    Ok((TaskDef(route, mode.value, prompt, deps, contextFrom, timeout.n, workspace.value, retry, verify), warnings))
  }

  /** The tasks in sorted order, with their warnings. */
  function NormalizeTasks(ctx: Context, defaults: Defaults, names: set<TaskId>, raw: Members, order: seq<TaskId>)
    : Result<(map<TaskId, TaskDef>, seq<Warning>)>
  {
    if order == [] then Ok((map[], []))
    else
      var (front, warnings) :- NormalizeTasks(ctx, defaults, names, raw, order[..|order| - 1]);
      var t := order[|order| - 1];
      var (def, more) :- NormalizeTask(ctx, defaults, names, t, GetOrNull(raw, t));
      Ok((front[t := def], warnings + more))
  }

  // ---------------------------------------------------------------- defaults

  function NormalizeLimits(ctx: Context, members: Members): Result<map<Provider, int>> {
    if members == [] then Ok(map[])
    else
      var front :- NormalizeLimits(ctx, members[..|members| - 1]);
      var (provider, value) := members[|members| - 1];
      var _ :- Check(provider != "", BadField("providerConcurrency"));
      var _ :- Check(IsInteger(value) && value.n.i >= 1, BadField("providerConcurrency"));
      var _ :- Check(provider in ctx.providers, UnknownProvider);
      Ok(front[provider := value.n.i])
  }

  const INITIAL_DEFAULTS := Defaults(2, map[], Whole(1140), Auto, FailFast)

  function PolicyOf(j: Json): Option<FailurePolicy> {
    if j == Str("fail-fast") then Some(FailFast) else if j == Str("continue") then Some(Continue) else None
  }

  function NormalizeDefaults(ctx: Context, defaults: Json): Result<Defaults> {
    if defaults == Null then Ok(INITIAL_DEFAULTS)
    else
      var _ :- Check(defaults.Obj?, NotAnObject("defaults"));
      var o := defaults.members;
      var _ :- Check(OnlyKeys(o, {"maxConcurrency", "providerConcurrency", "timeoutSeconds", "workspace", "failurePolicy"}),
                     UnknownFields("defaults"));
      var maximum := GetOr(o, "maxConcurrency", Num(Whole(2)));
      var _ :- Check(IsInteger(maximum) && maximum.n.i >= 1, BadField("maxConcurrency"));
      var limits := GetOrNull(o, "providerConcurrency");
      var _ :- Check(limits == Null || limits.Obj?, BadField("providerConcurrency"));
      var providerConcurrency :- NormalizeLimits(ctx, if limits == Null then [] else limits.members);
      var timeout := GetOr(o, "timeoutSeconds", Num(Whole(1140)));
      var _ :- Check(timeout.Num? && timeout.n.Positive(), BadField("timeoutSeconds"));
      var workspace := WorkspaceOf(GetOr(o, "workspace", Str("auto")));
      var _ :- Check(workspace.Some?, BadField("workspace"));
      var policy := PolicyOf(GetOr(o, "failurePolicy", Str("fail-fast")));
      var _ :- Check(policy.Some?, BadField("failurePolicy"));
      Ok(Defaults(maximum.n.i, providerConcurrency, timeout.n, workspace.value, policy.value))
  }

  // ---------------------------------------------------------------- the document

  predicate IsNameStart(c: char) {
    'a' <= c <= 'z' || 'A' <= c <= 'Z'
  }

  /** `[A-Za-z][A-Za-z0-9_-]{0,63}` */
  predicate IsTaskName(s: string) {
    && 1 <= |s| <= 64
    && IsNameStart(s[0])
    && forall i | 1 <= i < |s| :: IsNameStart(s[i]) || '0' <= s[i] <= '9' || s[i] == '_' || s[i] == '-'
  }

  function NameSet(names: seq<TaskId>): set<TaskId> {
    set n | n in names
  }

  /** Python compares the version with `!=`, so `true` and `1.0` count as 1. */
  predicate IsVersionOne(j: Json) {
    j == Num(Whole(1)) || j == Bool(true) || j == Num(Decimal(1.0))
  }

  /** Everything but the cycle check. */
  function NormalizeDocument(ctx: Context, data: Json): Result<(Workflow, seq<Warning>)> {
    var _ :- Check(data.Obj?, NotAnObject("workflow"));
    var o := data.members;
    var _ :- Check(IsVersionOne(GetOrNull(o, "schemaVersion")), BadField("schemaVersion"));
    var _ :- Check(OnlyKeys(o, {"schemaVersion", "name", "defaults", "tasks"}), UnknownFields("workflow"));
    var _ :- Check(ctx.hostKnown, BadField("host"));
    var name := GetOrNull(o, "name");
    var _ :- Check(NonEmptyText(name) && |name.s| <= 128, BadField("name"));
    var defaults :- NormalizeDefaults(ctx, GetOrNull(o, "defaults"));
    var raw := GetOrNull(o, "tasks");
    var _ :- Check(raw.Obj? && raw.members != [], BadField("tasks"));
    var names := Keys(raw.members);
    var _ :- Check(forall i | 0 <= i < |names| :: IsTaskName(names[i]), BadName(""));
    var _ :- Check(Distinct(names), BadName(""));
    var order := Sort(names);
    var (tasks, warnings) :- NormalizeTasks(ctx, defaults, NameSet(names), raw.members, order);
    Ok((Workflow(name.s, defaults, order, tasks), warnings))
  }
}
