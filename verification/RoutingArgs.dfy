/** From an accepted write task to an isolated workspace: the runner's argument list, the shim's
  * routing-argument stripping and the workspace resolution. */
module RoutingArgs {
  import opened Workflows
  import opened Text

  datatype RoutingOptions = RoutingOptions(retainPrompt: bool, workspace: string, taskMode: Option<string>, base: Option<string>)

  datatype UsageError = MissingValue | BadValue | UnknownOption | AutoNeedsMode | UnsupportedProvider

  datatype Result<+T> = Ok(value: T) | Err(error: UsageError)

  const ROUTING_PREFIX := "--routing-"
  const RETAIN_PROMPT := "--routing-retain-prompt"
  const WORKSPACE_FLAG := "--routing-workspace"
  const TASK_MODE_FLAG := "--routing-task-mode"
  const BASE_FLAG := "--routing-base"

  const INITIAL_OPTIONS := RoutingOptions(false, "shared", None, None)

  predicate IsRouting(a: string) {
    StartsWith(a, ROUTING_PREFIX)
  }

  // ---------------------------------------------------------------- workspace resolution

  /** `resolve_workspace` on the texts of the options. */
  function ResolveWorkspace(mode: string, taskMode: Option<string>): Result<string> {
    if mode != "auto" then Ok(mode)
    else if taskMode == Some("read") then Ok("shared")
    else if taskMode == Some("write") then Ok("isolated")
    else Err(AutoNeedsMode)
  }

  // ---------------------------------------------------------------- stripping

  /** How one flag reads the argument at `i`. */
  datatype Reading = NoMatch | Missing | Value(text: string, next: nat)

  function ReadFlag(argv: seq<string>, i: nat, flag: string): (r: Reading)
    requires i < |argv|
    ensures r.Value? ==> i < r.next <= |argv|
  {
    if argv[i] == flag then
      if i + 1 >= |argv| then Missing else Value(argv[i + 1], i + 2)
    else if StartsWith(argv[i], flag + "=") then Value(argv[i][|flag| + 1..], i + 1)
    else NoMatch
  }

  /** The three flags with a value, in the order in which they are tried. */
  datatype Flag = WorkspaceFlag | TaskModeFlag | BaseFlag

  const FLAGS := [WorkspaceFlag, TaskModeFlag, BaseFlag]

  function FlagText(f: Flag): string {
    match f
    case WorkspaceFlag => WORKSPACE_FLAG
    case TaskModeFlag => TASK_MODE_FLAG
    case BaseFlag => BASE_FLAG
  }

  predicate AllowedValue(f: Flag, value: string) {
    && value != ""
    && match f
       case WorkspaceFlag => value in {"shared", "isolated", "auto"}
       case TaskModeFlag => value in {"read", "write"}
       case BaseFlag => true
  }

  function SetOption(o: RoutingOptions, f: Flag, value: string): RoutingOptions {
    match f
    case WorkspaceFlag => o.(workspace := value)
    case TaskModeFlag => o.(taskMode := Some(value))
    case BaseFlag => o.(base := Some(value))
  }

  /** What trying the flags from `k` on does with the argument at `i`. */
  datatype Taken = NotTaken | Refused(error: UsageError) | Took(options: RoutingOptions, next: nat)

  function TryFlags(argv: seq<string>, i: nat, o: RoutingOptions, k: nat): (r: Taken)
    requires i < |argv| && k <= |FLAGS|
    ensures r.Took? ==> i < r.next <= |argv|
    decreases |FLAGS| - k
  {
    if k == |FLAGS| then NotTaken
    else
      match ReadFlag(argv, i, FlagText(FLAGS[k]))
      case NoMatch => TryFlags(argv, i, o, k + 1)
      case Missing => Refused(MissingValue)
      case Value(text, next) =>
        if AllowedValue(FLAGS[k], text) then Took(SetOption(o, FLAGS[k], text), next) else Refused(BadValue)
  }

  /** The loop from argument `i` on. */
  function StripFrom(argv: seq<string>, i: nat, o: RoutingOptions, forwarded: seq<string>): Result<(seq<string>, RoutingOptions)>
    requires i <= |argv|
    decreases |argv| - i
  {
    if i == |argv| then
      match ResolveWorkspace(o.workspace, o.taskMode)
      case Ok(workspace) => Ok((forwarded, o.(workspace := workspace)))
      case Err(e) => Err(e)
    else if argv[i] == RETAIN_PROMPT then StripFrom(argv, i + 1, o.(retainPrompt := true), forwarded)
    else
      match TryFlags(argv, i, o, 0)
      case Took(o', next) => StripFrom(argv, next, o', forwarded)
      case Refused(e) => Err(e)
      case NotTaken => if IsRouting(argv[i]) then Err(UnknownOption) else StripFrom(argv, i + 1, o, forwarded + [argv[i]])
  }

  function Strip(argv: seq<string>): Result<(seq<string>, RoutingOptions)> {
    StripFrom(argv, 0, INITIAL_OPTIONS, [])
  }

  /** `_strip_routing_args` */
  method StripRoutingArgs(argv: seq<string>) returns (r: Result<(seq<string>, RoutingOptions)>)
    ensures r == Strip(argv)
  {
    hide IsRouting, ReadFlag, AllowedValue, SetOption, FlagText;
    var options := INITIAL_OPTIONS;
    var forwarded: seq<string> := [];
    var index := 0;
    while index < |argv|
      invariant index <= |argv|
      invariant StripFrom(argv, index, options, forwarded) == Strip(argv)
      decreases |argv| - index
    {
      var argument := argv[index];
      if argument == RETAIN_PROMPT {
        options := options.(retainPrompt := true);
        index := index + 1;
        continue;
      }
      var matched := false;
      ghost var start, before := index, options;
      for k := 0 to |FLAGS|
        invariant !matched && index == start && options == before
        invariant TryFlags(argv, start, before, k) == TryFlags(argv, start, before, 0)
      {
        var reading := ReadFlag(argv, index, FlagText(FLAGS[k]));
        if reading == NoMatch {
          continue;
        }
        if reading == Missing {
          return Err(MissingValue);
        }
        if !AllowedValue(FLAGS[k], reading.text) {
          return Err(BadValue);
        }
        options := SetOption(options, FLAGS[k], reading.text);
        index := reading.next;
        matched := true;
        break;
      }
      if matched {
        continue;
      }
      if IsRouting(argument) {
        return Err(UnknownOption);
      }
      forwarded := forwarded + [argument];
      index := index + 1;
    }
    var resolved := ResolveWorkspace(options.workspace, options.taskMode);
    match resolved
    case Ok(workspace) => r := Ok((forwarded, options.(workspace := workspace)));
    case Err(e) => r := Err(e);
  }

  // ---------------------------------------------------------------- what is forwarded

  /** An argument without the routing prefix is no option. */
  lemma PlainIsNotTaken(argv: seq<string>, i: nat, o: RoutingOptions)
    requires i < |argv| && !IsRouting(argv[i])
    ensures argv[i] != RETAIN_PROMPT && TryFlags(argv, i, o, 0) == NotTaken
  {
    var a := argv[i];
    FlagsAreRouting(a);
    assert TryFlags(argv, i, o, 3) == NotTaken;
    assert TryFlags(argv, i, o, 2) == NotTaken;
    assert TryFlags(argv, i, o, 1) == NotTaken;
  }

  lemma StartsAlike(a: string, prefix: string, n: nat)
    requires StartsWith(a, prefix) && n <= |prefix|
    ensures n <= |a| && a[..n] == prefix[..n] && forall k | 0 <= k < n :: a[k] == prefix[k]
  {
    assert a[..n] == a[..|prefix|][..n];
  }

  lemma CharOfStart(a: string, prefix: string, k: nat)
    requires k < |prefix| && k < |a|
    ensures StartsWith(a, prefix) ==> a[k] == prefix[k]
  {
    assert StartsWith(a, prefix) ==> a[..|prefix|][k] == a[k];
  }

  lemma FlagsAreRouting(a: string)
    requires !IsRouting(a)
    ensures a != RETAIN_PROMPT
    ensures forall f: Flag :: a != FlagText(f) && !StartsWith(a, FlagText(f) + "=")
  {
    assert IsRouting(RETAIN_PROMPT);
    forall f: Flag ensures a != FlagText(f) && !StartsWith(a, FlagText(f) + "=") {
      assert FlagText(f)[..|ROUTING_PREFIX|] == ROUTING_PREFIX;
      if StartsWith(a, FlagText(f) + "=") {
        StartsAlike(a, FlagText(f) + "=", |ROUTING_PREFIX|);
      }
    }
  }

  /** Nothing with the routing prefix is ever forwarded. */
  lemma {:induction false} ForwardsOnlyPlain(argv: seq<string>, i: nat, o: RoutingOptions, forwarded: seq<string>)
    requires i <= |argv| && (forall a | a in forwarded :: !IsRouting(a)) && StripFrom(argv, i, o, forwarded).Ok?
    ensures forall a | a in StripFrom(argv, i, o, forwarded).value.0 :: !IsRouting(a)
    decreases |argv| - i
  {
    hide IsRouting, TryFlags;
    if i < |argv| {
      if argv[i] == RETAIN_PROMPT {
        ForwardsOnlyPlain(argv, i + 1, o.(retainPrompt := true), forwarded);
      } else {
        match TryFlags(argv, i, o, 0)
        case Took(o', next) => ForwardsOnlyPlain(argv, next, o', forwarded);
        case NotTaken => ForwardsOnlyPlain(argv, i + 1, o, forwarded + [argv[i]]);
      }
    }
  }

  /** Plain arguments are forwarded in order, up to the first one that is not. */
  lemma {:induction false} ForwardsPlainPrefix(argv: seq<string>, i: nat, n: nat, o: RoutingOptions, forwarded: seq<string>)
    requires i <= n <= |argv| && forall k | i <= k < n :: !IsRouting(argv[k])
    ensures StripFrom(argv, i, o, forwarded) == StripFrom(argv, n, o, forwarded + argv[i..n])
    decreases n - i
  {
    hide IsRouting, TryFlags;
    if i == n {
      assert forwarded + argv[i..n] == forwarded;
    } else {
      PlainIsNotTaken(argv, i, o);
      ForwardsPlainPrefix(argv, i + 1, n, o, forwarded + [argv[i]]);
      assert forwarded + [argv[i]] + argv[i + 1..n] == forwarded + argv[i..n];
    }
  }

  // ---------------------------------------------------------------- the runner's arguments

  /** `_provider_args` */
  function ProviderArgs(route: Route, promptPath: string): Result<seq<string>> {
    var effort := route.effort;
    if route.provider == "codex" then
      Ok([promptPath, "-m", route.model] + if effort.Some? then ["-c", "model_reasoning_effort=" + effort.value] else [])
    else if route.provider == "claude" || route.provider == "grok" then
      Ok([promptPath, "--model", route.model] + if effort.Some? then ["--effort", effort.value] else [])
    else if route.provider == "kimi" then Ok([promptPath, "--model", route.model])
    else if route.provider == "opencode" then
      Ok([route.model, promptPath] + if effort.Some? then ["--variant", effort.value] else [])
    else Err(UnsupportedProvider)
  }

  /** Which providers have an argument list. */
  lemma HasArgumentsIff(route: Route, promptPath: string)
    ensures ProviderArgs(route, promptPath).Ok? <==> route.provider in {"codex", "claude", "grok", "kimi", "opencode"}
  {
  }

  /** Between routes of one provider the arguments tell the prompt, the model and the effort apart, except
    * that kimi is not told the effort. */
  lemma ArgumentsCarryRoute(a: Route, b: Route, promptA: string, promptB: string)
    requires a.provider == b.provider && ProviderArgs(a, promptA).Ok?
    ensures ProviderArgs(a, promptA) == ProviderArgs(b, promptB)
            <==> promptA == promptB && a.model == b.model && (a.provider == "kimi" || a.effort == b.effort)
  {
    var front := "model_reasoning_effort=";
    var x, y := ProviderArgs(a, promptA).value, ProviderArgs(b, promptB).value;
    if x == y {
      assert x[0] == y[0] && x[1] == y[1] && |x| == |y| && (|x| > 2 ==> x[2] == y[2]);
      assert |x| > 3 ==> x[3] == y[3];
      assert |x| > 4 ==> x[4] == y[4];
      if a.provider == "codex" && a.effort.Some? {
        assert (front + a.effort.value)[|front|..] == (front + b.effort.value)[|front|..];
      }
    }
  }

  /** The shim arguments of a task: the provider's, then the routing options. */
  function RunnerArgs(providerArgs: seq<string>, task: TaskDef): seq<string> {
    providerArgs + [WORKSPACE_FLAG, WorkspaceText(task.workspace), TASK_MODE_FLAG, ModeText(task.mode)]
  }

  /** Where the task's workspace resolves to. */
  function ResolvedWorkspace(task: TaskDef): string {
    match task.workspace
    case Shared => "shared"
    case Isolated => "isolated"
    case Auto => if task.mode == Read then "shared" else "isolated"
  }

  /** The four options at the end of the list. */
  lemma StripsOptions(argv: seq<string>, task: TaskDef, n: nat, forwarded: seq<string>)
    requires |argv| == n + 4 && argv[n..] == [WORKSPACE_FLAG, WorkspaceText(task.workspace), TASK_MODE_FLAG, ModeText(task.mode)]
    ensures StripFrom(argv, n, INITIAL_OPTIONS, forwarded)
            == Ok((forwarded, RoutingOptions(false, ResolvedWorkspace(task), Some(ModeText(task.mode)), None)))
  {
    assert argv[n] == argv[n..][0] && argv[n + 1] == argv[n..][1] && argv[n + 2] == argv[n..][2] && argv[n + 3] == argv[n..][3];
    var o1 := INITIAL_OPTIONS.(workspace := WorkspaceText(task.workspace));
    var o2 := o1.(taskMode := Some(ModeText(task.mode)));
    TakesWorkspace(argv, n, INITIAL_OPTIONS, task);
    TakesMode(argv, n + 2, o1, task);
    assert StripFrom(argv, n + 4, o2, forwarded)
        == Ok((forwarded, RoutingOptions(false, ResolvedWorkspace(task), Some(ModeText(task.mode)), None)));
    assert StripFrom(argv, n + 2, o1, forwarded) == StripFrom(argv, n + 4, o2, forwarded);
  }

  lemma TakesWorkspace(argv: seq<string>, i: nat, o: RoutingOptions, task: TaskDef)
    requires i + 1 < |argv| && argv[i] == WORKSPACE_FLAG && argv[i + 1] == WorkspaceText(task.workspace)
    ensures argv[i] != RETAIN_PROMPT
    ensures TryFlags(argv, i, o, 0) == Took(o.(workspace := WorkspaceText(task.workspace)), i + 2)
  {
    assert AllowedValue(WorkspaceFlag, WorkspaceText(task.workspace));
  }

  lemma TakesMode(argv: seq<string>, i: nat, o: RoutingOptions, task: TaskDef)
    requires i + 1 < |argv| && argv[i] == TASK_MODE_FLAG && argv[i + 1] == ModeText(task.mode)
    ensures argv[i] != RETAIN_PROMPT
    ensures TryFlags(argv, i, o, 0) == Took(o.(taskMode := Some(ModeText(task.mode))), i + 2)
  {
    assert AllowedValue(TaskModeFlag, ModeText(task.mode));
    assert argv[i][10] == 't' && WORKSPACE_FLAG[10] == 'w';
    CharOfStart(argv[i], WORKSPACE_FLAG + "=", 10);
    assert ReadFlag(argv, i, WORKSPACE_FLAG) == NoMatch;
    assert TryFlags(argv, i, o, 0) == TryFlags(argv, i, o, 1);
  }

  /** Stripping the runner's list gives back exactly the provider's arguments, in order, with the
    * task's own workspace, if and only if none of them begins with the routing prefix. */
  lemma StrippingIsExact(providerArgs: seq<string>, task: TaskDef)
    ensures (Strip(RunnerArgs(providerArgs, task)).Ok? && Strip(RunnerArgs(providerArgs, task)).value.0 == providerArgs)
            <==> forall a | a in providerArgs :: !IsRouting(a)
    ensures (forall a | a in providerArgs :: !IsRouting(a)) ==>
              Strip(RunnerArgs(providerArgs, task))
              == Ok((providerArgs, RoutingOptions(false, ResolvedWorkspace(task), Some(ModeText(task.mode)), None)))
  {
    hide IsRouting, StripFrom, ResolvedWorkspace, ModeText, WorkspaceText;
    var argv := RunnerArgs(providerArgs, task);
    var n := |providerArgs|;
    if forall a | a in providerArgs :: !IsRouting(a) {
      assert argv[..n] == providerArgs;
      forall k | 0 <= k < n ensures !IsRouting(argv[k]) { assert argv[k] == providerArgs[k]; }
      ForwardsPlainPrefix(argv, 0, n, INITIAL_OPTIONS, []);
      assert [] + argv[0..n] == providerArgs;
      StripsOptions(argv, task, n, providerArgs);
    }
    if Strip(argv).Ok? {
      ForwardsOnlyPlain(argv, 0, INITIAL_OPTIONS, []);
    }
  }

  // ---------------------------------------------------------------- write isolation

  /** Which provider arguments can carry the prefix: the model, and the effort where it is an
    * argument of its own. The prompt path is absolute. */
  predicate RoutePlain(route: Route) {
    && !IsRouting(route.model)
    && (route.provider in {"claude", "grok", "opencode"} && route.effort.Some? ==> !IsRouting(route.effort.value))
  }

  lemma RoutingStart(a: string)
    requires IsRouting(a)
    ensures |a| > 2 && a[0] == '-' && a[1] == '-' && a[2] == 'r'
  {
    assert a[..|ROUTING_PREFIX|] == ROUTING_PREFIX;
    assert a[0] == ROUTING_PREFIX[0] && a[1] == ROUTING_PREFIX[1] && a[2] == ROUTING_PREFIX[2];
  }

  lemma ConstantsPlain(a: string)
    requires a in ["-m", "-c", "--model", "--effort", "--variant"] || StartsWith(a, "/") || StartsWith(a, "model_reasoning_effort=")
    ensures !IsRouting(a)
  {
    if IsRouting(a) {
      RoutingStart(a);
      if StartsWith(a, "/") || StartsWith(a, "model_reasoning_effort=") {
        assert a[..1][0] == a[0];
        CharOfStart(a, "/", 0);
        CharOfStart(a, "model_reasoning_effort=", 0);
      }
    }
  }

  lemma ProviderArgsPlain(route: Route, promptPath: string)
    requires StartsWith(promptPath, "/") && ProviderArgs(route, promptPath).Ok?
    ensures (forall a | a in ProviderArgs(route, promptPath).value :: !IsRouting(a)) <==> RoutePlain(route)
  {
    hide IsRouting;
    var args := ProviderArgs(route, promptPath).value;
    ConstantsPlain(promptPath);
    forall a | a in ["-m", "-c", "--model", "--effort", "--variant"] ensures !IsRouting(a) { ConstantsPlain(a); }
    if route.effort.Some? {
      var setting := "model_reasoning_effort=" + route.effort.value;
      assert setting[..|"model_reasoning_effort="|] == "model_reasoning_effort=";
      ConstantsPlain(setting);
    }
    assert route.model in args;
    assert route.provider in {"claude", "grok", "opencode"} && route.effort.Some? ==> route.effort.value in args;
  }

  /** Write isolation, end to end: for every write task of a well formed workflow whose provider has
    * an argument list, the shim forwards exactly those arguments and runs in an isolated workspace,
    * if and only if neither the model nor an effort argument begins with the routing prefix. */
  lemma WriteIsolation(w: Workflow, t: TaskId, promptPath: string)
    requires WellFormed(w) && t in w.tasks && w.tasks[t].mode == Write
    requires StartsWith(promptPath, "/") && ProviderArgs(w.tasks[t].route, promptPath).Ok?
    ensures var args := ProviderArgs(w.tasks[t].route, promptPath).value;
            var shim := Strip(RunnerArgs(args, w.tasks[t]));
            (shim.Ok? && shim.value.0 == args && shim.value.1.workspace == "isolated") <==> RoutePlain(w.tasks[t].route)
  {
    assert TaskAccepted(w.tasks.Keys, t, w.tasks[t]);
    hide WellFormed, Strip, ProviderArgs, RoutePlain, IsRouting, RunnerArgs;
    ProviderArgsPlain(w.tasks[t].route, promptPath);
    StrippingIsExact(ProviderArgs(w.tasks[t].route, promptPath).value, w.tasks[t]);
  }
}
