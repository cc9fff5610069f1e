/** The words of a shell segment as they are written: what leads up to the command, and the command. What
  * the search for a shim takes for the command is said in these terms. */
module WrittenTokens {
  import opened Workflows
  import opened Tripwire

  // ---------------------------------------------------------------- written segments

  predicate Dashed(t: string) {
    t != "" && t[0] == '-'
  }

  predicate LeadingWord(base: string) {
    || base == "exec" || base == "command" || base == "nohup" || base == "then" || base == "do" || base == "else"
    || base == "elif" || base == "if" || base == "while" || base == "until" || base == "time" || base == "!"
    || base == "{" || base == "("
  }

  predicate ShellWord(base: string) {
    base == "bash" || base == "sh" || base == "zsh"
  }

  predicate EnvWord(base: string) {
    base == "env"
  }

  predicate TimeoutWord(base: string) {
    base == "timeout"
  }

  /** What can stand before a command: a keyword or wrapper, `env` with options and assignments, or
    * `timeout` with options and a duration. */
  datatype Lead =
    | Word(token: string)
    | Env(token: string, options: seq<string>, assignments: seq<string>)
    | TimeLimit(token: string, options: seq<string>, duration: string)

  /** The command: none, an ordinary word, a shell with its options, or a `timeout` without a duration. */
  datatype Command =
    | Nothing
    | Ordinary(token: string, rest: seq<string>)
    | Shell(token: string, options: seq<string>, rest: seq<string>)
    | NoDuration(token: string, options: seq<string>)

  function LeadWords(l: Lead): seq<string> {
    match l
    case Word(t) => [t]
    case Env(t, options, assignments) => [t] + options + assignments
    case TimeLimit(t, options, duration) => [t] + options + [duration]
  }

  function CommandWords(c: Command): seq<string> {
    match c
    case Nothing => []
    case Ordinary(t, rest) => [t] + rest
    case Shell(t, options, rest) => [t] + options + rest
    case NoDuration(t, options) => [t] + options
  }

  function Words(leads: seq<Lead>, c: Command): seq<string> {
    if leads == [] then CommandWords(c) else LeadWords(leads[0]) + Words(leads[1..], c)
  }

  predicate AllDashed(options: seq<string>) {
    forall i | 0 <= i < |options| :: Dashed(options[i])
  }

  predicate AllAssign(lex: Lexicon, assignments: seq<string>) {
    forall i | 0 <= i < |assignments| :: lex.isAssignment(assignments[i])
  }

  /** A lead is what it says, and takes nothing of what follows. */
  predicate LeadOk(lex: Lexicon, l: Lead, next: seq<string>) {
    var base := lex.baseName(l.token);
    match l
    case Word(_) => LeadingWord(base)
    case Env(_, options, assignments) =>
      && EnvWord(base) && AllDashed(options) && AllAssign(lex, assignments)
      && (if assignments != [] then !Dashed(assignments[0]) else next != [] ==> !Dashed(next[0]))
      && (next != [] ==> !lex.isAssignment(next[0]))
    case TimeLimit(_, options, duration) => TimeoutWord(base) && AllDashed(options) && !Dashed(duration)
  }

  predicate CommandOk(lex: Lexicon, c: Command) {
    match c
    case Nothing => true
    case Ordinary(t, _) =>
      var base := lex.baseName(t);
      !LeadingWord(base) && !ShellWord(base) && !EnvWord(base) && !TimeoutWord(base)
    case Shell(t, options, rest) =>
      && ShellWord(lex.baseName(t)) && AllDashed(options) && "-" !in options
      && (rest != [] ==> !Dashed(rest[0]) || rest[0] == "-")
    case NoDuration(t, options) => TimeoutWord(lex.baseName(t)) && AllDashed(options)
  }

  predicate WordsOk(lex: Lexicon, leads: seq<Lead>, c: Command) {
    if leads == [] then CommandOk(lex, c)
    else LeadOk(lex, leads[0], Words(leads[1..], c)) && WordsOk(lex, leads[1..], c)
  }

  // ---------------------------------------------------------------- what is found

  /** The place of the command's own word, or of the command string of a shell that is asked for one. */
  function Found(c: Command, at: nat): Target {
    match c
    case Nothing => Token(at)
    case Ordinary(_, _) => Token(at)
    case Shell(_, options, rest) =>
      var after := at + 1 + |options|;
      if rest != [] && exists k | 0 <= k < |options| :: 'c' in options[k] then CommandString(after) else Token(after)
    case NoDuration(_, options) => Token(at + 1 + |options|)
  }

  function LeadsLength(leads: seq<Lead>): nat {
    if leads == [] then 0 else |LeadWords(leads[0])| + LeadsLength(leads[1..])
  }

  lemma Behind(tokens: seq<string>, i: nat, front: seq<string>, rest: seq<string>)
    requires i <= |tokens| && tokens[i..] == front + rest
    ensures i + |front| <= |tokens| && tokens[i + |front|..] == rest
    ensures forall k | 0 <= k < |front| :: tokens[i + k] == front[k]
  {
    forall k | 0 <= k < |front| ensures tokens[i + k] == front[k] {
      assert tokens[i + k] == tokens[i..][k];
    }
    assert tokens[i + |front|..] == tokens[i..][|front|..];
  }

  lemma First(tokens: seq<string>, i: nat, t: string, rest: seq<string>)
    requires i <= |tokens| && tokens[i..] == [t] + rest
    ensures i < |tokens| && tokens[i] == t && tokens[i + 1..] == rest
  {
    assert tokens[i] == tokens[i..][0];
    assert tokens[i + 1..] == tokens[i..][1..];
  }

  lemma {:induction false} SkipsOptions(tokens: seq<string>, i: nat, options: seq<string>, rest: seq<string>)
    requires i <= |tokens| && tokens[i..] == options + rest && AllDashed(options) && (rest != [] ==> !Dashed(rest[0]))
    ensures SkipOptions(tokens, i) == i + |options| <= |tokens| && tokens[i + |options|..] == rest
    decreases |options|
  {
    Behind(tokens, i, options, rest);
    if options == [] {
      assert i < |tokens| ==> tokens[i] == tokens[i..][0];
    } else {
      assert options + rest == [options[0]] + (options[1..] + rest);
      Behind(tokens, i, [options[0]], options[1..] + rest);
      assert tokens[i + 0] == options[0];
      SkipsOptions(tokens, i + 1, options[1..], rest);
    }
  }

  lemma {:induction false} SkipsAssignments(lex: Lexicon, tokens: seq<string>, i: nat, assignments: seq<string>, rest: seq<string>)
    requires i <= |tokens| && tokens[i..] == assignments + rest && AllAssign(lex, assignments)
    requires rest != [] ==> !lex.isAssignment(rest[0])
    ensures SkipAssignments(lex, tokens, i) == i + |assignments| <= |tokens| && tokens[i + |assignments|..] == rest
    decreases |assignments|
  {
    Behind(tokens, i, assignments, rest);
    if assignments == [] {
      assert i < |tokens| ==> tokens[i] == tokens[i..][0];
    } else {
      assert assignments + rest == [assignments[0]] + (assignments[1..] + rest);
      Behind(tokens, i, [assignments[0]], assignments[1..] + rest);
      assert tokens[i + 0] == assignments[0];
      SkipsAssignments(lex, tokens, i + 1, assignments[1..], rest);
    }
  }

  lemma {:induction false} SkipsShellOptions(tokens: seq<string>, i: nat, options: seq<string>, rest: seq<string>)
    requires i <= |tokens| && tokens[i..] == options + rest && AllDashed(options) && "-" !in options
    requires rest != [] ==> !Dashed(rest[0]) || rest[0] == "-"
    ensures SkipShellOptions(tokens, i) == i + |options| <= |tokens| && tokens[i + |options|..] == rest
    decreases |options|
  {
    Behind(tokens, i, options, rest);
    if options == [] {
      assert i < |tokens| ==> tokens[i] == tokens[i..][0];
    } else {
      assert options + rest == [options[0]] + (options[1..] + rest);
      Behind(tokens, i, [options[0]], options[1..] + rest);
      assert tokens[i + 0] == options[0] && options[0] != "-";
      SkipsShellOptions(tokens, i + 1, options[1..], rest);
    }
  }

  lemma SameWords(base: string)
    ensures LeadingWord(base) <==> IsWrapper(base)
    ensures ShellWord(base) <==> IsShell(base)
    ensures LeadingWord(base) ==> base != "env" && base != "timeout" && !ShellWord(base)
    ensures ShellWord(base) ==> base != "env" && base != "timeout"
  {
  }

  /** `Tripwire.FindStep` for each kind of word. */
  lemma StepOn(lex: Lexicon, tokens: seq<string>, i: nat)
    requires i < |tokens|
    ensures LeadingWord(lex.baseName(tokens[i])) ==> FindTarget(lex, tokens, i) == FindTarget(lex, tokens, i + 1)
    ensures EnvWord(lex.baseName(tokens[i]))
            ==> FindTarget(lex, tokens, i)
                == FindTarget(lex, tokens, SkipAssignments(lex, tokens, SkipOptions(tokens, i + 1)))
    ensures TimeoutWord(lex.baseName(tokens[i]))
            ==> var j := SkipOptions(tokens, i + 1);
                FindTarget(lex, tokens, i) == FindTarget(lex, tokens, if j < |tokens| then j + 1 else j)
  {
    FindStep(lex, tokens, i);
    SameWords(lex.baseName(tokens[i]));
    hide *;
  }

  lemma StepAt(lex: Lexicon, tokens: seq<string>, i: nat)
    requires i < |tokens|
    ensures ShellWord(lex.baseName(tokens[i]))
            ==> var k := SkipShellOptions(tokens, i + 1);
                FindTarget(lex, tokens, i)
                == if AsksCommandString(tokens, i + 1, k) && k < |tokens| then CommandString(k) else Token(k)
    ensures !LeadingWord(lex.baseName(tokens[i])) && !ShellWord(lex.baseName(tokens[i]))
            && !EnvWord(lex.baseName(tokens[i])) && !TimeoutWord(lex.baseName(tokens[i]))
            ==> FindTarget(lex, tokens, i) == Token(i)
  {
    FindStep(lex, tokens, i);
    SameWords(lex.baseName(tokens[i]));
    hide *;
  }

  lemma SkipWord(lex: Lexicon, tokens: seq<string>, i: nat, t: string, next: seq<string>)
    requires i <= |tokens| && LeadingWord(lex.baseName(t)) && tokens[i..] == [t] + next
    ensures i < |tokens| && tokens[i + 1..] == next && FindTarget(lex, tokens, i) == FindTarget(lex, tokens, i + 1)
  {
    First(tokens, i, t, next);
    hide *;
    StepOn(lex, tokens, i);
  }

  lemma SkipTo(tokens: seq<string>, i: nat, t: string, options: seq<string>, rest: seq<string>)
    requires i <= |tokens| && tokens[i..] == [t] + (options + rest) && AllDashed(options)
    requires rest != [] ==> !Dashed(rest[0])
    ensures i < i + 1 + |options| <= |tokens| && tokens[i] == t && tokens[i + 1 + |options|..] == rest
    ensures SkipOptions(tokens, i + 1) == i + 1 + |options|
  {
    hide *;
    First(tokens, i, t, options + rest);
    SkipsOptions(tokens, i + 1, options, rest);
  }

  lemma SkipEnv(lex: Lexicon, tokens: seq<string>, i: nat, t: string, options: seq<string>, assignments: seq<string>,
                next: seq<string>)
    requires i <= |tokens| && EnvWord(lex.baseName(t)) && tokens[i..] == [t] + (options + (assignments + next))
    requires AllDashed(options) && AllAssign(lex, assignments)
    requires assignments + next != [] ==> !Dashed((assignments + next)[0])
    requires next != [] ==> !lex.isAssignment(next[0])
    ensures var n := 1 + |options| + |assignments|;
            i + n <= |tokens| && tokens[i + n..] == next && FindTarget(lex, tokens, i) == FindTarget(lex, tokens, i + n)
  {
    hide *;
    SkipTo(tokens, i, t, options, assignments + next);
    SkipsAssignments(lex, tokens, i + 1 + |options|, assignments, next);
    StepOn(lex, tokens, i);
  }

  lemma SkipTimeLimit(lex: Lexicon, tokens: seq<string>, i: nat, t: string, options: seq<string>, duration: string,
                      next: seq<string>)
    requires i <= |tokens| && TimeoutWord(lex.baseName(t)) && tokens[i..] == [t] + (options + ([duration] + next))
    requires AllDashed(options) && !Dashed(duration)
    ensures var n := 2 + |options|;
            i + n <= |tokens| && tokens[i + n..] == next && FindTarget(lex, tokens, i) == FindTarget(lex, tokens, i + n)
  {
    hide *;
    assert ([duration] + next)[0] == duration;
    SkipTo(tokens, i, t, options, [duration] + next);
    First(tokens, i + 1 + |options|, duration, next);
    StepOn(lex, tokens, i);
  }

  lemma LeadingFirst(lex: Lexicon, l: Lead, next: seq<string>)
    requires l.Env? && LeadOk(lex, l, next)
    ensures l.assignments + next != [] ==> !Dashed((l.assignments + next)[0])
  {
  }

  lemma Regrouped(t: string, a: seq<string>, b: seq<string>, c: seq<string>)
    ensures [t] + a + b + c == [t] + (a + (b + c))
    ensures |[t] + a + b| == 1 + |a| + |b|
  {
  }

  lemma SkipLead(lex: Lexicon, tokens: seq<string>, i: nat, l: Lead, next: seq<string>)
    requires i <= |tokens| && LeadOk(lex, l, next) && tokens[i..] == LeadWords(l) + next
    ensures i + |LeadWords(l)| <= |tokens| && tokens[i + |LeadWords(l)|..] == next
    ensures FindTarget(lex, tokens, i) == FindTarget(lex, tokens, i + |LeadWords(l)|)
  {
    hide FindTarget, LeadingWord, ShellWord, EnvWord, TimeoutWord, AllDashed, AllAssign, Dashed;
    match l
    case Word(t) =>
      SkipWord(lex, tokens, i, t, next);
    case Env(t, options, assignments) =>
      LeadingFirst(lex, l, next);
      Regrouped(t, options, assignments, next);
      SkipEnv(lex, tokens, i, t, options, assignments, next);
    case TimeLimit(t, options, duration) =>
      Regrouped(t, options, [duration], next);
      SkipTimeLimit(lex, tokens, i, t, options, duration, next);
  }

  lemma FindShell(lex: Lexicon, tokens: seq<string>, i: nat, t: string, options: seq<string>, rest: seq<string>)
    requires i <= |tokens| && CommandOk(lex, Shell(t, options, rest)) && tokens[i..] == [t] + (options + rest)
    ensures FindTarget(lex, tokens, i) == Found(Shell(t, options, rest), i)
  {
    First(tokens, i, t, options + rest);
    StepAt(lex, tokens, i);
    hide ShellWord, LeadingWord, EnvWord, TimeoutWord, AsksCommandString, FindTarget, SkipShellOptions, AllDashed, Dashed;
    SkipsShellOptions(tokens, i + 1, options, rest);
    AsksIff(tokens, i + 1, options, rest);
  }

  lemma FindNoDuration(lex: Lexicon, tokens: seq<string>, i: nat, t: string, options: seq<string>)
    requires i <= |tokens| && TimeoutWord(lex.baseName(t)) && AllDashed(options) && tokens[i..] == [t] + options
    ensures FindTarget(lex, tokens, i) == Token(i + 1 + |options|)
  {
    hide *;
    First(tokens, i, t, options);
    StepOn(lex, tokens, i);
    assert options + [] == options;
    SkipsOptions(tokens, i + 1, options, []);
    NothingLeft(lex, tokens);
  }

  lemma FindCommand(lex: Lexicon, tokens: seq<string>, i: nat, c: Command)
    requires i <= |tokens| && CommandOk(lex, c) && tokens[i..] == CommandWords(c)
    ensures FindTarget(lex, tokens, i) == Found(c, i)
  {
    hide FindTarget, LeadingWord, ShellWord, EnvWord, TimeoutWord, AllDashed;
    match c
    case Nothing =>
      NothingLeft(lex, tokens);
    case Ordinary(t, rest) =>
      First(tokens, i, t, rest);
      StepAt(lex, tokens, i);
    case Shell(t, options, rest) =>
      assert CommandWords(c) == [t] + (options + rest);
      FindShell(lex, tokens, i, t, options, rest);
    case NoDuration(t, options) =>
      FindNoDuration(lex, tokens, i, t, options);
  }

  lemma NothingLeft(lex: Lexicon, tokens: seq<string>)
    ensures FindTarget(lex, tokens, |tokens|) == Token(|tokens|)
  {
  }

  lemma AsksIff(tokens: seq<string>, i: nat, options: seq<string>, rest: seq<string>)
    requires i <= |tokens| && tokens[i..] == options + rest
    ensures i + |options| <= |tokens| && (rest == [] <==> i + |options| == |tokens|)
    ensures AsksCommandString(tokens, i, i + |options|) <==> exists k :: 0 <= k < |options| && 'c' in options[k]
  {
    Behind(tokens, i, options, rest);
    if k :| i <= k < i + |options| && 'c' in tokens[k] {
      assert options[k - i] == tokens[i + (k - i)];
    }
    if k :| 0 <= k < |options| && 'c' in options[k] {
      assert 'c' in tokens[i + k];
    }
  }

  lemma {:induction false} SkipLeads(lex: Lexicon, tokens: seq<string>, i: nat, leads: seq<Lead>, c: Command)
    requires i <= |tokens| && WordsOk(lex, leads, c) && tokens[i..] == Words(leads, c)
    ensures FindTarget(lex, tokens, i) == Found(c, i + LeadsLength(leads))
    decreases |leads|
  {
    hide FindTarget, LeadOk, CommandOk;
    if leads == [] {
      FindCommand(lex, tokens, i, c);
    } else {
      SkipLead(lex, tokens, i, leads[0], Words(leads[1..], c));
      SkipLeads(lex, tokens, i + |LeadWords(leads[0])|, leads[1..], c);
    }
  }

  /** In every written segment, after its assignments, the search finds exactly the command: the word at
    * its place, or the command string of a shell with an option that contains a `c`. */
  lemma FindsTheCommand(lex: Lexicon, assignments: seq<string>, leads: seq<Lead>, c: Command)
    requires AllAssign(lex, assignments) && WordsOk(lex, leads, c)
    requires Words(leads, c) != [] ==> !lex.isAssignment(Words(leads, c)[0])
    ensures var tokens := assignments + Words(leads, c);
            FindTarget(lex, tokens, SkipAssignments(lex, tokens, 0)) == Found(c, |assignments| + LeadsLength(leads))
  {
    hide FindTarget, SkipAssignments, WordsOk, AllAssign, Words, Found, LeadsLength;
    var tokens := assignments + Words(leads, c);
    assert tokens[0..] == tokens;
    SkipsAssignments(lex, tokens, 0, assignments, Words(leads, c));
    SkipLeads(lex, tokens, |assignments|, leads, c);
  }

  // ---------------------------------------------------------------- every segment is so written

  lemma {:induction false} ReadOptions(words: seq<string>) returns (options: seq<string>, rest: seq<string>)
    ensures words == options + rest && AllDashed(options) && (rest != [] ==> !Dashed(rest[0]))
    ensures rest == [] ==> words == options
  {
    options, rest := [], words;
    if words != [] && Dashed(words[0]) {
      options, rest := ReadOptions(words[1..]);
      options := [words[0]] + options;
    }
  }

  lemma {:induction false} ReadShellOptions(words: seq<string>) returns (options: seq<string>, rest: seq<string>)
    ensures words == options + rest && AllDashed(options) && "-" !in options
    ensures rest != [] ==> !Dashed(rest[0]) || rest[0] == "-"
  {
    options, rest := [], words;
    if words != [] && Dashed(words[0]) && words[0] != "-" {
      options, rest := ReadShellOptions(words[1..]);
      options := [words[0]] + options;
    }
  }

  lemma {:induction false} ReadAssignments(lex: Lexicon, words: seq<string>)
      returns (assignments: seq<string>, rest: seq<string>)
    ensures words == assignments + rest && AllAssign(lex, assignments) && (rest != [] ==> !lex.isAssignment(rest[0]))
  {
    assignments, rest := [], words;
    if words != [] && lex.isAssignment(words[0]) {
      assignments, rest := ReadAssignments(lex, words[1..]);
      assignments := [words[0]] + assignments;
    }
  }

  /** The lead in front of words whose first one is no command. */
  lemma ReadLead(lex: Lexicon, words: seq<string>) returns (l: Lead, next: seq<string>)
    requires words != []
    requires var base := lex.baseName(words[0]);
             LeadingWord(base) || EnvWord(base) || (TimeoutWord(base) && !AllDashed(words[1..]))
    ensures words == LeadWords(l) + next && LeadOk(lex, l, next)
  {
    hide LeadingWord, EnvWord, TimeoutWord, AllDashed, AllAssign;
    var base, t := lex.baseName(words[0]), words[0];
    assert words == [t] + words[1..];
    if LeadingWord(base) {
      l, next := Word(t), words[1..];
    } else {
      var options, rest := ReadOptions(words[1..]);
      if EnvWord(base) {
        var assignments, left := ReadAssignments(lex, rest);
        l, next := Env(t, options, assignments), left;
        Regrouped(t, options, assignments, left);
      } else {
        l, next := TimeLimit(t, options, rest[0]), rest[1..];
        Regrouped(t, options, [rest[0]], rest[1..]);
        assert rest == [rest[0]] + rest[1..];
      }
    }
  }

  lemma ReadCommand(lex: Lexicon, words: seq<string>) returns (c: Command)
    requires words == []
             || var base := lex.baseName(words[0]);
                !LeadingWord(base) && !EnvWord(base) && (TimeoutWord(base) ==> AllDashed(words[1..]))
    ensures words == CommandWords(c) && CommandOk(lex, c)
  {
    hide LeadingWord, EnvWord, TimeoutWord, ShellWord;
    if words == [] {
      c := Nothing;
    } else {
      var base, t := lex.baseName(words[0]), words[0];
      if TimeoutWord(base) {
        c := NoDuration(t, words[1..]);
      } else if ShellWord(base) {
        var options, rest := ReadShellOptions(words[1..]);
        c := Shell(t, options, rest);
        assert words == [t] + (options + rest);
      } else {
        c := Ordinary(t, words[1..]);
      }
    }
  }

  lemma {:induction false} ReadWords(lex: Lexicon, words: seq<string>) returns (leads: seq<Lead>, c: Command)
    ensures words == Words(leads, c) && WordsOk(lex, leads, c)
    decreases |words|
  {
    hide LeadingWord, EnvWord, TimeoutWord, CommandOk, LeadOk;
    if words == [] {
      leads := [];
      c := ReadCommand(lex, words);
    } else {
      var base := lex.baseName(words[0]);
      if LeadingWord(base) || EnvWord(base) || (TimeoutWord(base) && !AllDashed(words[1..])) {
        var l, next := ReadLead(lex, words);
        leads, c := ReadWords(lex, next);
        leads := [l] + leads;
      } else {
        leads := [];
        c := ReadCommand(lex, words);
      }
    }
  }

  /** Every segment is written in this way, so what `FindsTheCommand` says is said of every segment. */
  lemma EverySegmentIsWritten(lex: Lexicon, tokens: seq<string>)
      returns (assignments: seq<string>, leads: seq<Lead>, c: Command)
    ensures tokens == assignments + Words(leads, c) && AllAssign(lex, assignments) && WordsOk(lex, leads, c)
    ensures Words(leads, c) != [] ==> !lex.isAssignment(Words(leads, c)[0])
  {
    var rest;
    assignments, rest := ReadAssignments(lex, tokens);
    leads, c := ReadWords(lex, rest);
  }

  // ---------------------------------------------------------------- what starts a shim

  /** A command that starts a shim: the shim itself, a shell whose script is one, or a shell with a command
    * string that starts one. */
  predicate StartsShim(lex: Lexicon, c: Command)
    requires Shortening(lex)
  {
    match c
    case Nothing => false
    case NoDuration(_, _) => false
    case Ordinary(t, _) => lex.isShim(t)
    case Shell(_, options, rest) =>
      && rest != []
      && if exists k | 0 <= k < |options| :: 'c' in options[k] then ShimInvoked(lex, rest[0]) else lex.isShim(rest[0])
  }

  lemma CommandAt(tokens: seq<string>, front: seq<string>, c: Command)
    requires tokens == front + CommandWords(c)
    ensures c.Nothing? || c.NoDuration? ==> Found(c, |front|).index == |tokens|
    ensures c.Ordinary? ==> |front| < |tokens| && tokens[|front|] == c.token
    ensures c.Shell? ==> var at := |front| + 1 + |c.options|;
                         if c.rest == [] then at == |tokens| else at < |tokens| && tokens[at] == c.rest[0]
  {
  }

  lemma {:induction false} WordsEnd(leads: seq<Lead>, c: Command) returns (front: seq<string>)
    ensures Words(leads, c) == front + CommandWords(c) && |front| == LeadsLength(leads)
  {
    front := [];
    if leads != [] {
      front := WordsEnd(leads[1..], c);
      front := LeadWords(leads[0]) + front;
    }
  }

  /** A written segment starts a shim exactly if it is not blank and its command does. */
  lemma SegmentStartsIff(lex: Lexicon, segment: string, assignments: seq<string>, leads: seq<Lead>, c: Command)
    requires Shortening(lex) && lex.split(segment) == Some(assignments + Words(leads, c))
    requires AllAssign(lex, assignments) && WordsOk(lex, leads, c)
    requires Words(leads, c) != [] ==> !lex.isAssignment(Words(leads, c)[0])
    ensures SegmentInvokes(lex, segment) <==> !lex.isBlank(segment) && StartsShim(lex, c)
  {
    hide SegmentInvokes, ShimInvoked, FindTarget, SkipAssignments, Shortening, WordsOk, Words, CommandWords, AllAssign,
      LeadsLength;
    var tokens := assignments + Words(leads, c);
    FindsTheCommand(lex, assignments, leads, c);
    SegmentCases(lex, segment);
    var front := WordsEnd(leads, c);
    assert tokens == (assignments + front) + CommandWords(c);
    CommandAt(tokens, assignments + front, c);
  }
}
