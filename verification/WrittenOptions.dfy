/** What the shim's routing arguments mean: lists written from arguments and options, and what stripping
  * makes of them. */
module WrittenOptions {
  import opened Workflows
  import opened Text
  import opened RoutingArgs

  // ---------------------------------------------------------------- written lists

  function Spelled(f: Flag): string {
    match f
    case WorkspaceFlag => "--routing-workspace"
    case TaskModeFlag => "--routing-task-mode"
    case BaseFlag => "--routing-base"
  }

  /** An argument for the provider, or an option with its value after it or joined to it. */
  datatype Arg = Plain(text: string) | RetainPrompt | Spaced(flag: Flag, value: string) | Joined(flag: Flag, value: string) {
    predicate Sets(f: Flag) {
      (Spaced? || Joined?) && flag == f
    }
  }

  predicate ValueOk(f: Flag, value: string) {
    match f
    case WorkspaceFlag => value == "shared" || value == "isolated" || value == "auto"
    case TaskModeFlag => value == "read" || value == "write"
    case BaseFlag => value != ""
  }

  predicate ArgOk(a: Arg) {
    match a
    case Plain(text) => !StartsWith(text, "--routing-")
    case RetainPrompt => true
    case Spaced(f, value) => ValueOk(f, value)
    case Joined(f, value) => ValueOk(f, value)
  }

  function Words(a: Arg): seq<string> {
    match a
    case Plain(text) => [text]
    case RetainPrompt => ["--routing-retain-prompt"]
    case Spaced(f, value) => [Spelled(f), value]
    case Joined(f, value) => [Spelled(f) + "=" + value]
  }

  function AllWords(args: seq<Arg>): seq<string> {
    if args == [] then [] else Words(args[0]) + AllWords(args[1..])
  }

  // ---------------------------------------------------------------- what they say

  function Plains(args: seq<Arg>): seq<string> {
    if args == [] then []
    else (if args[0].Plain? then [args[0].text] else []) + Plains(args[1..])
  }

  /** The value written last, if any. */
  function Last(args: seq<Arg>, f: Flag): Option<string> {
    if args == [] then None
    else if args[|args| - 1].Sets(f) then Some(args[|args| - 1].value)
    else Last(args[..|args| - 1], f)
  }

  function OrElse(v: Option<string>, default: string): string {
    if v.Some? then v.value else default
  }

  /** The options after a list: the last value counts, and the workspace is shared if none is given. */
  function Said(args: seq<Arg>): RoutingOptions {
    RoutingOptions(RetainPrompt in args, OrElse(Last(args, WorkspaceFlag), "shared"), Last(args, TaskModeFlag), Last(args, BaseFlag))
  }

  /** An automatic workspace is shared for reading and isolated for writing, and needs to know which. */
  function Meant(args: seq<Arg>): Result<(seq<string>, RoutingOptions)> {
    var o := Said(args);
    if o.workspace != "auto" then Ok((Plains(args), o))
    else if o.taskMode == Some("read") then Ok((Plains(args), o.(workspace := "shared")))
    else if o.taskMode == Some("write") then Ok((Plains(args), o.(workspace := "isolated")))
    else Err(AutoNeedsMode)
  }

  // ---------------------------------------------------------------- one argument

  lemma Tenth(a: string, f: Flag)
    ensures |Spelled(f)| > 10 && FlagText(f) == Spelled(f)
    ensures Spelled(f)[10] == if f == WorkspaceFlag then 'w' else if f == TaskModeFlag then 't' else 'b'
    ensures (a == Spelled(f) || StartsWith(a, Spelled(f) + "=")) ==> |a| > 10 && a[10] == Spelled(f)[10]
  {
    assert (Spelled(f) + "=")[10] == Spelled(f)[10];
    if StartsWith(a, Spelled(f) + "=") {
      CharOfStart(a, Spelled(f) + "=", 10);
    }
  }

  /** How the argument at a position reads as the given flag. */
  lemma ReadSpaced(argv: seq<string>, i: nat, f: Flag)
    requires i < |argv| && argv[i] == Spelled(f)
    ensures ReadFlag(argv, i, Spelled(f)) == if i + 1 >= |argv| then Missing else Value(argv[i + 1], i + 2)
  {
  }

  lemma ReadJoined(argv: seq<string>, i: nat, f: Flag, value: string)
    requires i < |argv| && argv[i] == Spelled(f) + "=" + value
    ensures ReadFlag(argv, i, Spelled(f)) == Value(value, i + 1)
  {
    var a, start := argv[i], Spelled(f) + "=";
    assert a[..|start|] == start && a[|start|..] == value;
    assert |a| > |Spelled(f)|;
  }

  lemma ReadOther(argv: seq<string>, i: nat, f: Flag)
    requires i < |argv| && argv[i] != Spelled(f) && !StartsWith(argv[i], Spelled(f) + "=")
    ensures ReadFlag(argv, i, Spelled(f)) == NoMatch
  {
  }

  /** Trying the flags comes down to the one that the argument is. */
  lemma TryOne(argv: seq<string>, i: nat, o: RoutingOptions, f: Flag)
    requires i < |argv| && (argv[i] == Spelled(f) || StartsWith(argv[i], Spelled(f) + "="))
    ensures argv[i] != "--routing-retain-prompt"
    ensures var reading := ReadFlag(argv, i, Spelled(f));
            TryFlags(argv, i, o, 0)
            == if reading.NoMatch? then NotTaken
               else if reading.Missing? then Refused(MissingValue)
               else if ValueOk(f, reading.text) then Took(SetOption(o, f, reading.text), reading.next)
               else Refused(BadValue)
  {
    var a := argv[i];
    Tenth(a, WorkspaceFlag);
    Tenth(a, TaskModeFlag);
    Tenth(a, BaseFlag);
    assert "--routing-retain-prompt"[10] == 'r';
    forall g | g != f ensures ReadFlag(argv, i, Spelled(g)) == NoMatch {
      Tenth(a, g);
      ReadOther(argv, i, g);
    }
    assert TryFlags(argv, i, o, 3) == NotTaken;
    AllowedIff(f);
    hide ReadFlag, AllowedValue, SetOption, ValueOk, Spelled;
    match f
    case WorkspaceFlag => TryAt(argv, i, o, 0);
    case TaskModeFlag =>
      TryPast(argv, i, o, 0);
      TryAt(argv, i, o, 1);
    case BaseFlag =>
      TryPast(argv, i, o, 0);
      TryPast(argv, i, o, 1);
      TryAt(argv, i, o, 2);
  }

  lemma TryPast(argv: seq<string>, i: nat, o: RoutingOptions, k: nat)
    requires i < |argv| && k < |FLAGS| && ReadFlag(argv, i, FlagText(FLAGS[k])) == NoMatch
    ensures TryFlags(argv, i, o, k) == TryFlags(argv, i, o, k + 1)
  {
  }

  lemma TryAt(argv: seq<string>, i: nat, o: RoutingOptions, k: nat)
    requires i < |argv| && k < |FLAGS| && ReadFlag(argv, i, FlagText(FLAGS[k])) != NoMatch
    ensures var reading := ReadFlag(argv, i, FlagText(FLAGS[k]));
            TryFlags(argv, i, o, k)
            == if reading.Missing? then Refused(MissingValue)
               else if AllowedValue(FLAGS[k], reading.text) then Took(SetOption(o, FLAGS[k], reading.text), reading.next)
               else Refused(BadValue)
  {
  }

  lemma AllowedIff(f: Flag)
    ensures forall value :: AllowedValue(f, value) <==> ValueOk(f, value)
  {
  }

  // ---------------------------------------------------------------- all of them

  function After(o: RoutingOptions, a: Arg): RoutingOptions {
    match a
    case Plain(_) => o
    case RetainPrompt => o.(retainPrompt := true)
    case Spaced(f, value) => Setting(o, f, value)
    case Joined(f, value) => Setting(o, f, value)
  }

  function Setting(o: RoutingOptions, f: Flag, value: string): RoutingOptions {
    match f
    case WorkspaceFlag => RoutingOptions(o.retainPrompt, value, o.taskMode, o.base)
    case TaskModeFlag => RoutingOptions(o.retainPrompt, o.workspace, Some(value), o.base)
    case BaseFlag => RoutingOptions(o.retainPrompt, o.workspace, o.taskMode, Some(value))
  }

  function AfterAll(o: RoutingOptions, args: seq<Arg>): RoutingOptions
    decreases |args|
  {
    if args == [] then o else AfterAll(After(o, args[0]), args[1..])
  }

  lemma Behind(argv: seq<string>, i: nat, front: seq<string>, rest: seq<string>)
    requires i <= |argv| && argv[i..] == front + rest
    ensures i + |front| <= |argv| && argv[i + |front|..] == rest
    ensures forall k | 0 <= k < |front| :: argv[i + k] == front[k]
  {
    forall k | 0 <= k < |front| ensures argv[i + k] == front[k] {
      assert argv[i + k] == argv[i..][k];
    }
    assert argv[i + |front|..] == argv[i..][|front|..];
  }

  lemma JoinedStarts(f: Flag, value: string)
    ensures StartsWith(Spelled(f) + "=" + value, Spelled(f) + "=")
  {
    assert (Spelled(f) + "=" + value)[..|Spelled(f) + "="|] == Spelled(f) + "=";
  }

  lemma SettingIs(o: RoutingOptions, f: Flag, value: string)
    ensures SetOption(o, f, value) == Setting(o, f, value)
  {
  }

  lemma OneArg(argv: seq<string>, i: nat, a: Arg, rest: seq<string>, o: RoutingOptions, forwarded: seq<string>)
    requires i <= |argv| && ArgOk(a) && argv[i..] == Words(a) + rest
    ensures i + |Words(a)| <= |argv| && argv[i + |Words(a)|..] == rest
    ensures StripFrom(argv, i, o, forwarded)
            == StripFrom(argv, i + |Words(a)|, After(o, a), forwarded + if a.Plain? then [a.text] else [])
  {
    Behind(argv, i, Words(a), rest);
    assert argv[i + 0] == Words(a)[0];
    assert forwarded + [] == forwarded;
    hide TryFlags, ReadFlag, Spelled, ValueOk, SetOption, Setting;
    match a
    case Plain(text) => PlainIsNotTaken(argv, i, o);
    case RetainPrompt =>
    case Spaced(f, value) =>
      assert argv[i + 1] == Words(a)[1];
      ReadSpaced(argv, i, f);
      TryOne(argv, i, o, f);
      SettingIs(o, f, value);
    case Joined(f, value) =>
      JoinedStarts(f, value);
      ReadJoined(argv, i, f, value);
      TryOne(argv, i, o, f);
      SettingIs(o, f, value);
  }

  lemma {:induction false} Args(argv: seq<string>, i: nat, args: seq<Arg>, rest: seq<string>, o: RoutingOptions, forwarded: seq<string>)
    requires i <= |argv| && (forall a | a in args :: ArgOk(a)) && argv[i..] == AllWords(args) + rest
    ensures i + |AllWords(args)| <= |argv| && argv[i + |AllWords(args)|..] == rest
    ensures StripFrom(argv, i, o, forwarded)
            == StripFrom(argv, i + |AllWords(args)|, AfterAll(o, args), forwarded + Plains(args))
    decreases |args|
  {
    hide StripFrom, ArgOk, After, Words;
    if args == [] {
      assert AllWords(args) + rest == rest && forwarded + [] == forwarded;
    } else {
      var a, more := args[0], AllWords(args[1..]);
      assert AllWords(args) + rest == Words(a) + (more + rest);
      OneArg(argv, i, a, more + rest, o, forwarded);
      var plain := if a.Plain? then [a.text] else [];
      Args(argv, i + |Words(a)|, args[1..], rest, After(o, a), forwarded + plain);
      assert forwarded + plain + Plains(args[1..]) == forwarded + Plains(args);
    }
  }

  lemma {:induction false} AfterLast(o: RoutingOptions, args: seq<Arg>)
    requires args != []
    ensures AfterAll(o, args) == After(AfterAll(o, args[..|args| - 1]), args[|args| - 1])
    decreases |args|
  {
    hide After;
    if |args| > 1 {
      AfterLast(After(o, args[0]), args[1..]);
      assert args[1..][..|args| - 2] == args[..|args| - 1][1..];
    } else {
      assert args[..0] == [] && args[1..] == [];
    }
  }

  /** Read one after the other, the options come to what the list says as a whole. */
  lemma {:induction false} AfterIsSaid(args: seq<Arg>)
    ensures AfterAll(RoutingOptions(false, "shared", None, None), args) == Said(args)
    decreases |args|
  {
    if args != [] {
      var front := args[..|args| - 1];
      AfterLast(RoutingOptions(false, "shared", None, None), args);
      AfterIsSaid(front);
      assert args == front + [args[|args| - 1]];
    }
  }

  /** Stripping a list of arguments and well-formed options: the arguments are forwarded in order, and the
    * options are the ones written last. */
  lemma StrippedAsMeant(args: seq<Arg>)
    requires forall a | a in args :: ArgOk(a)
    ensures Strip(AllWords(args)) == Meant(args)
  {
    var argv := AllWords(args);
    assert argv[0..] == argv + [];
    Args(argv, 0, args, [], RoutingOptions(false, "shared", None, None), []);
    assert [] + Plains(args) == Plains(args);
    AfterIsSaid(args);
    hide AfterAll, Said;
  }

  // ---------------------------------------------------------------- lists with a mistake

  /** The first mistake in a list, and the words after it. */
  datatype Mistake =
    | NoValue(flag: Flag)
    | WrongSpaced(flag: Flag, value: string, rest: seq<string>)
    | WrongJoined(flag: Flag, value: string, rest: seq<string>)
    | Unknown(word: string, rest: seq<string>)

  predicate IsOption(word: string) {
    word == "--routing-retain-prompt" || exists f: Flag :: word == Spelled(f) || StartsWith(word, Spelled(f) + "=")
  }

  predicate IsMistake(m: Mistake) {
    match m
    case NoValue(_) => true
    case WrongSpaced(f, value, _) => !ValueOk(f, value)
    case WrongJoined(f, value, _) => !ValueOk(f, value)
    case Unknown(word, _) => StartsWith(word, "--routing-") && !IsOption(word)
  }

  function MistakeWords(m: Mistake): seq<string> {
    match m
    case NoValue(f) => [Spelled(f)]
    case WrongSpaced(f, value, rest) => [Spelled(f), value] + rest
    case WrongJoined(f, value, rest) => [Spelled(f) + "=" + value] + rest
    case Unknown(word, rest) => [word] + rest
  }

  function Complaint(m: Mistake): UsageError {
    match m
    case NoValue(_) => MissingValue
    case WrongSpaced(_, _, _) => BadValue
    case WrongJoined(_, _, _) => BadValue
    case Unknown(_, _) => UnknownOption
  }

  lemma MistakeStops(argv: seq<string>, i: nat, m: Mistake, o: RoutingOptions, forwarded: seq<string>)
    requires i <= |argv| && IsMistake(m) && argv[i..] == MistakeWords(m)
    ensures StripFrom(argv, i, o, forwarded) == Err(Complaint(m))
  {
    assert argv[i..] == MistakeWords(m) + [];
    Behind(argv, i, MistakeWords(m), []);
    assert argv[i + 0] == MistakeWords(m)[0];
    match m
    case NoValue(f) =>
      hide TryFlags, ReadFlag, Spelled, ValueOk;
      ReadSpaced(argv, i, f);
      TryOne(argv, i, o, f);
    case WrongSpaced(f, value, rest) =>
      hide TryFlags, ReadFlag, Spelled, ValueOk;
      assert argv[i + 1] == MistakeWords(m)[1];
      ReadSpaced(argv, i, f);
      TryOne(argv, i, o, f);
    case WrongJoined(f, value, rest) =>
      hide TryFlags, ReadFlag, Spelled, ValueOk;
      JoinedStarts(f, value);
      ReadJoined(argv, i, f, value);
      TryOne(argv, i, o, f);
    case Unknown(word, rest) => UnknownNotTaken(argv, i, o);
  }

  lemma UnknownNotTaken(argv: seq<string>, i: nat, o: RoutingOptions)
    requires i < |argv| && !IsOption(argv[i])
    ensures argv[i] != "--routing-retain-prompt" && TryFlags(argv, i, o, 0) == NotTaken
  {
    forall g ensures FlagText(g) == Spelled(g) && ReadFlag(argv, i, Spelled(g)) == NoMatch {
      Tenth(argv[i], g);
      ReadOther(argv, i, g);
    }
    hide ReadFlag, IsOption;
    TryPast(argv, i, o, 2);
    TryPast(argv, i, o, 1);
    TryPast(argv, i, o, 0);
  }

  /** A list with a mistake in it is refused for the first one. */
  lemma RefusedForFirstMistake(args: seq<Arg>, m: Mistake)
    requires (forall a | a in args :: ArgOk(a)) && IsMistake(m)
    ensures Strip(AllWords(args) + MistakeWords(m)) == Err(Complaint(m))
  {
    hide IsMistake, MistakeWords, Complaint, StripFrom;
    var argv := AllWords(args) + MistakeWords(m);
    assert argv[0..] == argv;
    Args(argv, 0, args, MistakeWords(m), INITIAL_OPTIONS, []);
    MistakeStops(argv, |AllWords(args)|, m, AfterAll(INITIAL_OPTIONS, args), [] + Plains(args));
  }

  lemma TwoWords(argv: seq<string>)
    requires |argv| >= 2
    ensures argv == [argv[0], argv[1..][0]] + argv[2..] == [argv[0], argv[1..][0]] + argv[1..][1..]
  {
    assert argv[1..][0] == argv[1] && argv[1..][1..] == argv[2..];
  }

  lemma AfterEquals(word: string, f: Flag) returns (value: string)
    requires StartsWith(word, Spelled(f) + "=")
    ensures word == Spelled(f) + "=" + value
  {
    var front := Spelled(f) + "=";
    value := word[|front|..];
    assert word == front + value;
  }

  /** Every list is one of the two kinds, so the two theorems are about all lists. */
  lemma {:induction false} EveryListIsWritten(argv: seq<string>) returns (args: seq<Arg>, m: Option<Mistake>)
    ensures forall a | a in args :: ArgOk(a)
    ensures m.Some? ==> IsMistake(m.value)
    ensures argv == AllWords(args) + if m.Some? then MistakeWords(m.value) else []
    decreases |argv|
  {
    args, m := [], None;
    if argv != [] {
      var word, rest := argv[0], argv[1..];
      assert argv == [word] + rest;
      if !StartsWith(word, "--routing-") {
        args, m := FirstArg(Plain(word), argv, 1);
      } else if word == "--routing-retain-prompt" {
        args, m := FirstArg(RetainPrompt, argv, 1);
      } else if f: Flag :| word == Spelled(f) {
        if rest == [] {
          m := Some(NoValue(f));
        } else if ValueOk(f, rest[0]) {
          TwoWords(argv);
          args, m := FirstArg(Spaced(f, rest[0]), argv, 2);
        } else {
          m := Some(WrongSpaced(f, rest[0], rest[1..]));
          TwoWords(argv);
        }
      } else if f: Flag :| StartsWith(word, Spelled(f) + "=") {
        var value := AfterEquals(word, f);
        if ValueOk(f, value) {
          args, m := FirstArg(Joined(f, value), argv, 1);
        } else {
          m := Some(WrongJoined(f, value, rest));
        }
      } else {
        m := Some(Unknown(word, rest));
      }
    }
  }

  lemma {:induction false} FirstArg(a: Arg, argv: seq<string>, n: nat) returns (args: seq<Arg>, m: Option<Mistake>)
    requires ArgOk(a) && 0 < n <= |argv| && argv == Words(a) + argv[n..]
    ensures forall b | b in args :: ArgOk(b)
    ensures m.Some? ==> IsMistake(m.value)
    ensures argv == AllWords(args) + if m.Some? then MistakeWords(m.value) else []
    decreases |argv|, 0
  {
    hide ArgOk, IsMistake, Words, MistakeWords;
    args, m := EveryListIsWritten(argv[n..]);
    var tail := args;
    args := [a] + tail;
    assert args[1..] == tail;
    assert Words(a) + (AllWords(tail) + if m.Some? then MistakeWords(m.value) else [])
        == Words(a) + AllWords(tail) + if m.Some? then MistakeWords(m.value) else [];
  }
}
