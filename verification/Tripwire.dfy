/** `shim_invoked`: does a shell command start a dispatch shim, directly or through `bash -c`? */
module Tripwire {
  import opened Workflows
  import opened Segments

  /** The text matching that is not modelled: word splitting (absent when the quoting is broken), the
    * fallback pattern for such segments, blankness, and the tests of a single token. */
  datatype Lexicon = Lexicon(
    split: string -> Option<seq<string>>,
    looksLikeShim: string -> bool,
    isBlank: string -> bool,
    baseName: string -> string,
    isShim: string -> bool,
    isAssignment: string -> bool)

  function TotalLength(tokens: seq<string>): nat {
    if tokens == [] then 0 else |tokens[0]| + TotalLength(tokens[1..])
  }

  /** Word splitting never lengthens text. */
  ghost predicate Shortening(lex: Lexicon) {
    forall s :: lex.split(s).Some? ==> TotalLength(lex.split(s).value) <= |s|
  }

  // ---------------------------------------------------------------- one segment

  predicate IsWrapper(base: string) {
    base in ["exec", "command", "nohup", "then", "do", "else", "elif", "if", "while", "until", "time", "!", "{", "("]
  }

  predicate IsShell(base: string) {
    base in ["bash", "sh", "zsh"]
  }

  predicate IsOption(t: string) {
    t != "" && t[0] == '-'
  }

  function SkipAssignments(lex: Lexicon, tokens: seq<string>, i: nat): (j: nat)
    requires i <= |tokens|
    ensures i <= j <= |tokens|
    decreases |tokens| - i
  {
    if i < |tokens| && lex.isAssignment(tokens[i]) then SkipAssignments(lex, tokens, i + 1) else i
  }

  function SkipOptions(tokens: seq<string>, i: nat): (j: nat)
    requires i <= |tokens|
    ensures i <= j <= |tokens|
    decreases |tokens| - i
  {
    if i < |tokens| && IsOption(tokens[i]) then SkipOptions(tokens, i + 1) else i
  }

  predicate IsShellOption(t: string) {
    IsOption(t) && t != "-"
  }

  function SkipShellOptions(tokens: seq<string>, i: nat): (j: nat)
    requires i <= |tokens|
    ensures i <= j <= |tokens|
    ensures forall k | i <= k < j :: IsShellOption(tokens[k])
    decreases |tokens| - i
  {
    if i < |tokens| && IsShellOption(tokens[i]) then SkipShellOptions(tokens, i + 1) else i
  }

  /** Some shell option before `j` asks for a command string. */
  predicate AsksCommandString(tokens: seq<string>, i: nat, j: nat)
    requires i <= j <= |tokens|
  {
    exists k | i <= k < j :: 'c' in tokens[k]
  }

  /** Where the command of a segment is: a plain token, or a command string for a shell. */
  datatype Target = Token(index: nat) | CommandString(index: nat)

  function FindTarget(lex: Lexicon, tokens: seq<string>, i: nat): (r: Target)
    requires i <= |tokens|
    ensures r.CommandString? ==> r.index < |tokens|
    decreases |tokens| - i
  {
    if i == |tokens| then Token(i)
    else
      var base := lex.baseName(tokens[i]);
      if IsWrapper(base) then FindTarget(lex, tokens, i + 1)
      else if base == "env" then FindTarget(lex, tokens, SkipAssignments(lex, tokens, SkipOptions(tokens, i + 1)))
      else if base == "timeout" then
        var j := SkipOptions(tokens, i + 1);
        FindTarget(lex, tokens, if j < |tokens| then j + 1 else j)
      else if IsShell(base) then
        var j := SkipShellOptions(tokens, i + 1);
        if AsksCommandString(tokens, i + 1, j) && j < |tokens| then CommandString(j) else Token(j)
      else Token(i)
  }

  /** Before a command string stands the shell option that asks for it. */
  lemma {:induction false} OptionBeforeCommandString(lex: Lexicon, tokens: seq<string>, i: nat) returns (k: nat)
    requires i <= |tokens| && FindTarget(lex, tokens, i).CommandString?
    ensures k < FindTarget(lex, tokens, i).index && IsShellOption(tokens[k])
    decreases |tokens| - i
  {
    hide IsWrapper;
    var base := lex.baseName(tokens[i]);
    var j := SkipOptions(tokens, i + 1);
    if IsWrapper(base) {
      k := OptionBeforeCommandString(lex, tokens, i + 1);
    } else if base == "env" {
      k := OptionBeforeCommandString(lex, tokens, SkipAssignments(lex, tokens, j));
    } else if base == "timeout" {
      k := OptionBeforeCommandString(lex, tokens, if j < |tokens| then j + 1 else j);
    } else {
      k :| i + 1 <= k < SkipShellOptions(tokens, i + 1) && 'c' in tokens[k];
    }
  }

  lemma {:induction false} TokenShorter(tokens: seq<string>, j: nat, k: nat)
    requires k < j < |tokens|
    ensures |tokens[j]| + |tokens[k]| <= TotalLength(tokens)
  {
    if k > 0 {
      TokenShorter(tokens[1..], j - 1, k - 1);
    } else {
      TokenWithin(tokens[1..], j - 1);
    }
  }

  lemma {:induction false} TokenWithin(tokens: seq<string>, j: nat)
    requires j < |tokens|
    ensures |tokens[j]| <= TotalLength(tokens)
  {
    if j > 0 {
      TokenWithin(tokens[1..], j - 1);
    }
  }

  /** A nested command string is shorter than the segment it stands in, so the recursion ends. */
  lemma {:induction false} NestedIsShorter(lex: Lexicon, segment: string)
    requires Shortening(lex) && lex.split(segment).Some?
    ensures var tokens := lex.split(segment).value;
            var target := FindTarget(lex, tokens, SkipAssignments(lex, tokens, 0));
            target.CommandString? ==> |tokens[target.index]| < |segment|
  {
    var tokens := lex.split(segment).value;
    var target := FindTarget(lex, tokens, SkipAssignments(lex, tokens, 0));
    if target.CommandString? {
      var k := OptionBeforeCommandString(lex, tokens, SkipAssignments(lex, tokens, 0));
      TokenShorter(tokens, target.index, k);
    }
  }

  // ---------------------------------------------------------------- commands

  function SegmentInvokes(lex: Lexicon, segment: string): bool
    requires Shortening(lex)
    decreases |segment|, 0
  {
    if lex.isBlank(segment) then false
    else
      match lex.split(segment)
      case None => lex.looksLikeShim(segment)
      case Some(tokens) =>
        NestedIsShorter(lex, segment);
        match FindTarget(lex, tokens, SkipAssignments(lex, tokens, 0))
        case Token(i) => i < |tokens| && lex.isShim(tokens[i])
        case CommandString(i) => ShimInvoked(lex, tokens[i])
  }

  function ShimInvoked(lex: Lexicon, cmd: string): bool
    requires Shortening(lex)
    decreases |cmd|, 2
  {
    SegmentsShort(cmd, 0, PLAIN, "");
    AnyInvokes(lex, SegmentsOf(cmd), |cmd|)
  }

  function AnyInvokes(lex: Lexicon, segments: seq<string>, bound: nat): bool
    requires Shortening(lex) && forall s | s in segments :: |s| <= bound
    decreases bound, 1, |segments|
  {
    segments != [] && (SegmentInvokes(lex, segments[0]) || AnyInvokes(lex, segments[1..], bound))
  }

  lemma {:induction false} AnyInvokesIff(lex: Lexicon, segments: seq<string>, bound: nat)
    requires Shortening(lex) && forall s | s in segments :: |s| <= bound
    ensures AnyInvokes(lex, segments, bound) <==> exists s :: s in segments && SegmentInvokes(lex, s)
  {
    hide SegmentInvokes, Shortening;
    if segments != [] {
      var tail := segments[1..];
      AnyInvokesIff(lex, tail, bound);
      assert segments == [segments[0]] + tail;
      if SegmentInvokes(lex, segments[0]) {
        assert segments[0] in segments;
      }
      if s :| s in tail && SegmentInvokes(lex, s) {
        assert s in segments;
      }
      if s :| s in segments && SegmentInvokes(lex, s) {
        assert s == segments[0] || s in tail;
      }
    }
  }

  /** A command starts a shim exactly if one of its segments does. */
  lemma {:induction false} ShimInvokedIff(lex: Lexicon, cmd: string)
    requires Shortening(lex)
    ensures ShimInvoked(lex, cmd) <==> exists s :: s in SegmentsOf(cmd) && SegmentInvokes(lex, s)
  {
    SegmentsShort(cmd, 0, PLAIN, "");
    AnyInvokesIff(lex, SegmentsOf(cmd), |cmd|);
  }

  /** Two commands in sequence start a shim exactly if one of them does, provided the first leaves no
    * quote or escape open. */
  lemma InvocationComposes(lex: Lexicon, a: string, b: string)
    requires Shortening(lex) && StateAfter(a) == PLAIN
    ensures ShimInvoked(lex, a + ";" + b) <==> ShimInvoked(lex, a) || ShimInvoked(lex, b)
  {
    hide SegmentInvokes, ShimInvoked;
    ShimInvokedIff(lex, a);
    ShimInvokedIff(lex, b);
    ShimInvokedIff(lex, a + ";" + b);
    SegmentsCompose(a, b);
  }

  // ---------------------------------------------------------------- the methods

  /** The cases of `SegmentInvokes`, in the terms of the scanning method. */
  lemma SegmentCases(lex: Lexicon, segment: string)
    requires Shortening(lex)
    ensures lex.isBlank(segment) ==> !SegmentInvokes(lex, segment)
    ensures !lex.isBlank(segment) && lex.split(segment).None? ==> SegmentInvokes(lex, segment) == lex.looksLikeShim(segment)
    ensures !lex.isBlank(segment) && lex.split(segment).Some? ==>
              var tokens := lex.split(segment).value;
              var target := FindTarget(lex, tokens, SkipAssignments(lex, tokens, 0));
              && (target.CommandString? ==> |tokens[target.index]| < |segment|)
              && SegmentInvokes(lex, segment) == Hits(lex, tokens, target)
  {
    hide FindTarget, SkipAssignments, ShimInvoked;
    if lex.split(segment).Some? {
      NestedIsShorter(lex, segment);
    }
  }

  /** What is found at a target. */
  predicate Hits(lex: Lexicon, tokens: seq<string>, target: Target)
    requires Shortening(lex) && (target.CommandString? ==> target.index < |tokens|)
  {
    match target
    case Token(i) => i < |tokens| && lex.isShim(tokens[i])
    case CommandString(i) => ShimInvoked(lex, tokens[i])
  }

  /** `shim_invoked` */
  method DetectShim(lex: Lexicon, cmd: string) returns (r: bool)
    requires Shortening(lex)
    ensures r == ShimInvoked(lex, cmd)
    decreases |cmd|, 2
  {
    hide SegmentInvokes, ShimInvoked, FindTarget, SkipAssignments, Hits;
    SegmentsShort(cmd, 0, PLAIN, "");
    ShimInvokedIff(lex, cmd);
    var segments := CommandSegments(cmd);
    for i := 0 to |segments|
      invariant forall k | 0 <= k < i :: !SegmentInvokes(lex, segments[k])
    {
      r := SegmentStartsShim(lex, segments[i]);
      if r {
        return;
      }
    }
    r := false;
  }

  /** The body of the loop in `shim_invoked`. */
  method SegmentStartsShim(lex: Lexicon, segment: string) returns (r: bool)
    requires Shortening(lex)
    ensures r == SegmentInvokes(lex, segment)
    decreases |segment|, 0
  {
    hide SegmentInvokes, ShimInvoked, FindTarget, SkipAssignments, Shortening;
    SegmentCases(lex, segment);
    if lex.isBlank(segment) {
      return false;
    }
    var split := lex.split(segment);
    if split.None? {
      return lex.looksLikeShim(segment);
    }
    var tokens := split.value;
    var target := ScanTokens(lex, tokens);
    if target.CommandString? {
      r := DetectShim(lex, tokens[target.index]);
    } else {
      r := target.index < |tokens| && lex.isShim(tokens[target.index]);
    }
  }

  /** One turn of the scan: how each kind of word leads on, or ends it. */
  lemma FindStep(lex: Lexicon, tokens: seq<string>, i: nat)
    requires i < |tokens|
    ensures var base, j, target := lex.baseName(tokens[i]), SkipOptions(tokens, i + 1), FindTarget(lex, tokens, i);
            if IsWrapper(base) then target == FindTarget(lex, tokens, i + 1)
            else if base == "env" then target == FindTarget(lex, tokens, SkipAssignments(lex, tokens, j))
            else if base == "timeout" then target == FindTarget(lex, tokens, if j < |tokens| then j + 1 else j)
            else if IsShell(base) then
              var k := SkipShellOptions(tokens, i + 1);
              target == if AsksCommandString(tokens, i + 1, k) && k < |tokens| then CommandString(k) else Token(k)
            else target == Token(i)
  {
  }

  /** `_segment_invokes_shim` up to its result, with its nested index loops. */
  method ScanTokens(lex: Lexicon, tokens: seq<string>) returns (target: Target)
    ensures target == FindTarget(lex, tokens, SkipAssignments(lex, tokens, 0))
  {
    hide IsWrapper, IsShell, SkipAssignments, SkipOptions, SkipShellOptions, AsksCommandString;
    var i := SkipAssignmentTokens(lex, tokens, 0);
    ghost var goal := FindTarget(lex, tokens, i);
    assert FindTarget(lex, tokens, |tokens|) == Token(|tokens|);
    hide FindTarget;
    while i < |tokens|
      invariant i <= |tokens| && FindTarget(lex, tokens, i) == goal
      decreases |tokens| - i
    {
      FindStep(lex, tokens, i);
      var base := lex.baseName(tokens[i]);
      if IsWrapper(base) {
        i := i + 1;
        continue;
      }
      if base == "env" {
        i := SkipOptionTokens(tokens, i + 1);
        i := SkipAssignmentTokens(lex, tokens, i);
        continue;
      }
      if base == "timeout" {
        i := SkipOptionTokens(tokens, i + 1);
        if i < |tokens| {
          i := i + 1;
        }
        continue;
      }
      if IsShell(base) {
        var commandString;
        i, commandString := SkipShellOptionTokens(tokens, i + 1);
        return if commandString && i < |tokens| then CommandString(i) else Token(i);
      }
      break;
    }
    target := Token(i);
  }

  method SkipAssignmentTokens(lex: Lexicon, tokens: seq<string>, from: nat) returns (i: nat)
    requires from <= |tokens|
    ensures i == SkipAssignments(lex, tokens, from)
  {
    i := from;
    while i < |tokens| && lex.isAssignment(tokens[i])
      invariant from <= i <= |tokens| && SkipAssignments(lex, tokens, i) == SkipAssignments(lex, tokens, from)
    {
      i := i + 1;
    }
  }

  method SkipOptionTokens(tokens: seq<string>, from: nat) returns (i: nat)
    requires from <= |tokens|
    ensures i == SkipOptions(tokens, from)
  {
    i := from;
    while i < |tokens| && IsOption(tokens[i])
      invariant from <= i <= |tokens| && SkipOptions(tokens, i) == SkipOptions(tokens, from)
    {
      i := i + 1;
    }
  }

  method SkipShellOptionTokens(tokens: seq<string>, from: nat) returns (i: nat, commandString: bool)
    requires from <= |tokens|
    ensures i == SkipShellOptions(tokens, from) && commandString == AsksCommandString(tokens, from, i)
  {
    i, commandString := from, false;
    while i < |tokens| && IsShellOption(tokens[i])
      invariant from <= i <= |tokens| && SkipShellOptions(tokens, i) == SkipShellOptions(tokens, from)
      invariant commandString == AsksCommandString(tokens, from, i)
    {
      if 'c' in tokens[i] {
        commandString := true;
      }
      i := i + 1;
    }
  }
}
