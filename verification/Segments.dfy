/** `_command_segments`: splitting a shell command at its unquoted separators. */
module Segments {
  import opened Workflows

  // ---------------------------------------------------------------- lexical state

  /** Inside which quote the scanner is, and whether the next character is escaped. */
  datatype Lexical = Lexical(quote: Option<char>, escaped: bool)

  const PLAIN := Lexical(None, false)

  /** Reading one character. A backslash escapes inside quotes, too, as the scanner has it. */
  function Next(st: Lexical, ch: char): Lexical {
    if st.escaped then st.(escaped := false)
    else if ch == '\\' then st.(escaped := true)
    else if st.quote.Some? then (if ch == st.quote.value then st.(quote := None) else st)
    else if ch == '\'' || ch == '"' then st.(quote := Some(ch))
    else st
  }

  /** The lexical state after a text. */
  function StateAfter(s: string): Lexical {
    if s == "" then PLAIN else Next(StateAfter(s[..|s| - 1]), s[|s| - 1])
  }

  /** The length of the separator that starts at `i`, or 0. */
  function SeparatorAt(cmd: string, i: nat): (n: nat)
    requires i < |cmd|
    ensures i + n <= |cmd|
  {
    var ch := cmd[i];
    var double := i + 1 < |cmd| && cmd[i + 1] == ch;
    if ch == '$' then (if i + 1 < |cmd| && cmd[i + 1] == '(' then 2 else 0)
    else if ch == ';' || ch == '\n' || ch == '`' || ch == ')' then 1
    else if ch == '|' || ch == '&' then (if double then 2 else 1)
    else 0
  }

  // ---------------------------------------------------------------- the scanner, as functions

  /** The segments from position `i` on, given the state there and the segment begun. */
  function SegmentsFrom(cmd: string, i: nat, st: Lexical, segment: string): seq<string>
    requires i <= |cmd|
    decreases |cmd| - i
  {
    if i == |cmd| then [segment]
    else if st == PLAIN && SeparatorAt(cmd, i) > 0 then [segment] + SegmentsFrom(cmd, i + SeparatorAt(cmd, i), PLAIN, "")
    else SegmentsFrom(cmd, i + 1, Next(st, cmd[i]), segment + [cmd[i]])
  }

  function SegmentsOf(cmd: string): seq<string> {
    SegmentsFrom(cmd, 0, PLAIN, "")
  }

  datatype Separator = Separator(position: nat, length: nat)

  /** The separators dropped from position `i` on. */
  function SeparatorsFrom(cmd: string, i: nat, st: Lexical): seq<Separator>
    requires i <= |cmd|
    decreases |cmd| - i
  {
    if i == |cmd| then []
    else if st == PLAIN && SeparatorAt(cmd, i) > 0 then
      [Separator(i, SeparatorAt(cmd, i))] + SeparatorsFrom(cmd, i + SeparatorAt(cmd, i), PLAIN)
    else SeparatorsFrom(cmd, i + 1, Next(st, cmd[i]))
  }

  function SeparatorsOf(cmd: string): seq<Separator> {
    SeparatorsFrom(cmd, 0, PLAIN)
  }

  predicate Within(cmd: string, separators: seq<Separator>) {
    forall s | s in separators :: s.position + s.length <= |cmd|
  }

  /** Segments and separators in turn. */
  function Rebuild(cmd: string, segments: seq<string>, separators: seq<Separator>): string
    requires |segments| == |separators| + 1 && Within(cmd, separators)
    decreases |separators|
  {
    if separators == [] then segments[0]
    else
      segments[0] + cmd[separators[0].position..separators[0].position + separators[0].length]
      + Rebuild(cmd, segments[1..], separators[1..])
  }

  // ---------------------------------------------------------------- lossless

  lemma RebuildCons(cmd: string, segment: string, segments: seq<string>, i: nat, n: nat, separators: seq<Separator>)
    requires i + n <= |cmd| && |segments| == |separators| + 1 && Within(cmd, separators)
    requires Rebuild(cmd, segments, separators) == cmd[i + n..]
    ensures Within(cmd, [Separator(i, n)] + separators)
    ensures Rebuild(cmd, [segment] + segments, [Separator(i, n)] + separators) == segment + cmd[i..]
  {
    assert ([segment] + segments)[1..] == segments && ([Separator(i, n)] + separators)[1..] == separators;
    assert segment + cmd[i..i + n] + cmd[i + n..] == segment + cmd[i..];
  }

  /** One turn of the scanner on both lists. */
  lemma FromStep(cmd: string, i: nat, st: Lexical, segment: string)
    requires i < |cmd|
    ensures var n := SeparatorAt(cmd, i);
            if st == PLAIN && n > 0 then
              && SegmentsFrom(cmd, i, st, segment) == [segment] + SegmentsFrom(cmd, i + n, PLAIN, "")
              && SeparatorsFrom(cmd, i, st) == [Separator(i, n)] + SeparatorsFrom(cmd, i + n, PLAIN)
            else
              && SegmentsFrom(cmd, i, st, segment) == SegmentsFrom(cmd, i + 1, Next(st, cmd[i]), segment + [cmd[i]])
              && SeparatorsFrom(cmd, i, st) == SeparatorsFrom(cmd, i + 1, Next(st, cmd[i]))
  {
  }

  lemma {:induction false} RebuildsFrom(cmd: string, i: nat, st: Lexical, segment: string)
    requires i <= |cmd|
    ensures var segments, separators := SegmentsFrom(cmd, i, st, segment), SeparatorsFrom(cmd, i, st);
            && |segments| == |separators| + 1 && Within(cmd, separators)
            && Rebuild(cmd, segments, separators) == segment + cmd[i..]
    decreases |cmd| - i
  {
    if i == |cmd| {
      assert cmd[i..] == "";
    } else {
      hide Rebuild, Within, SegmentsFrom, SeparatorsFrom, Next;
      FromStep(cmd, i, st, segment);
      var n := SeparatorAt(cmd, i);
      if st == PLAIN && n > 0 {
        RebuildsFrom(cmd, i + n, PLAIN, "");
        assert "" + cmd[i + n..] == cmd[i + n..];
        RebuildCons(cmd, segment, SegmentsFrom(cmd, i + n, PLAIN, ""), i, n, SeparatorsFrom(cmd, i + n, PLAIN));
      } else {
        RebuildsFrom(cmd, i + 1, Next(st, cmd[i]), segment + [cmd[i]]);
        assert segment + cmd[i..] == segment + [cmd[i]] + cmd[i + 1..];
      }
    }
  }

  /** Segments interleaved with the dropped separators give back the command. */
  lemma SegmentationIsLossless(cmd: string)
    ensures var segments, separators := SegmentsOf(cmd), SeparatorsOf(cmd);
            && |segments| == |separators| + 1 && Within(cmd, separators)
            && Rebuild(cmd, segments, separators) == cmd
  {
    RebuildsFrom(cmd, 0, PLAIN, "");
  }

  lemma StateStep(cmd: string, i: nat)
    requires i < |cmd|
    ensures StateAfter(cmd[..i + 1]) == Next(StateAfter(cmd[..i]), cmd[i])
  {
    assert cmd[..i + 1][..i] == cmd[..i];
  }

  /** Reading a separator leaves the state plain. */
  lemma SeparatorStaysPlain(cmd: string, i: nat)
    requires i < |cmd| && StateAfter(cmd[..i]) == PLAIN && SeparatorAt(cmd, i) > 0
    ensures StateAfter(cmd[..i + SeparatorAt(cmd, i)]) == PLAIN
    ensures StateAfter(cmd[..i + 1]) == PLAIN
  {
    StateStep(cmd, i);
    if SeparatorAt(cmd, i) == 2 {
      StateStep(cmd, i + 1);
    }
  }

  /** From `i` on, exactly the plain separators are dropped. */
  lemma {:induction false} DropsFrom(cmd: string, i: nat, st: Lexical)
    requires i <= |cmd| && st == StateAfter(cmd[..i])
    ensures forall s | s in SeparatorsFrom(cmd, i, st) ::
              && i <= s.position < |cmd|
              && StateAfter(cmd[..s.position]) == PLAIN && s.length == SeparatorAt(cmd, s.position) > 0
    ensures forall k | i <= k < |cmd| && StateAfter(cmd[..k]) == PLAIN && SeparatorAt(cmd, k) > 0 ::
              exists s :: s in SeparatorsFrom(cmd, i, st) && s.position <= k < s.position + s.length
    decreases |cmd| - i
  {
    if i < |cmd| {
      if st == PLAIN && SeparatorAt(cmd, i) > 0 {
        var n := SeparatorAt(cmd, i);
        SeparatorStaysPlain(cmd, i);
        DropsFrom(cmd, i + n, PLAIN);
        var rest := SeparatorsFrom(cmd, i + n, PLAIN);
        var all := SeparatorsFrom(cmd, i, st);
        assert all == [Separator(i, n)] + rest;
        forall k | i <= k < |cmd| && StateAfter(cmd[..k]) == PLAIN && SeparatorAt(cmd, k) > 0
          ensures exists s :: s in all && s.position <= k < s.position + s.length
        {
          if k < i + n {
            assert all[0] in all;
          } else {
            var s :| s in rest && s.position <= k < s.position + s.length;
            assert s in all;
          }
        }
      } else {
        StateStep(cmd, i);
        DropsFrom(cmd, i + 1, Next(st, cmd[i]));
      }
    }
  }

  /** No dropped separator is quoted or escaped, and every separator that is neither is dropped, or
    * is the second character of one that is. */
  lemma DropsExactlyPlainSeparators(cmd: string)
    ensures forall s | s in SeparatorsOf(cmd) ::
              s.position < |cmd| && StateAfter(cmd[..s.position]) == PLAIN && s.length == SeparatorAt(cmd, s.position) > 0
    ensures forall k | 0 <= k < |cmd| && StateAfter(cmd[..k]) == PLAIN && SeparatorAt(cmd, k) > 0 ::
              exists s :: s in SeparatorsOf(cmd) && s.position <= k < s.position + s.length
  {
    assert cmd[..0] == "";
    DropsFrom(cmd, 0, PLAIN);
  }

  // ---------------------------------------------------------------- composition

  lemma {:induction false} SegmentsShift(x: string, b: string, i: nat, st: Lexical, segment: string)
    requires i <= |b|
    ensures SegmentsFrom(x + b, |x| + i, st, segment) == SegmentsFrom(b, i, st, segment)
    decreases |b| - i
  {
    if i < |b| {
      assert (x + b)[|x| + i] == b[i];
      assert i + 1 < |b| ==> (x + b)[|x| + i + 1] == b[i + 1];
      var n := SeparatorAt(b, i);
      assert SeparatorAt(x + b, |x| + i) == n;
      if st == PLAIN && n > 0 {
        SegmentsShift(x, b, i + n, PLAIN, "");
      } else {
        SegmentsShift(x, b, i + 1, Next(st, b[i]), segment + [b[i]]);
      }
    }
  }

  lemma SeparatorBeforeSemicolon(a: string, b: string, i: nat)
    requires i < |a|
    ensures SeparatorAt(a + ";" + b, i) == SeparatorAt(a, i)
  {
    var cmd := a + ";" + b;
    assert cmd[i] == a[i] && cmd[|a|] == ';';
    assert i + 1 < |a| ==> cmd[i + 1] == a[i + 1];
  }

  lemma {:induction false} SegmentsJoin(a: string, b: string, i: nat, st: Lexical, segment: string)
    requires i <= |a| && st == StateAfter(a[..i]) && StateAfter(a) == PLAIN
    ensures SegmentsFrom(a + ";" + b, i, st, segment) == SegmentsFrom(a, i, st, segment) + SegmentsOf(b)
    decreases |a| - i
  {
    var cmd := a + ";" + b;
    if i == |a| {
      assert a[..i] == a && cmd[i] == ';';
      assert cmd == (a + ";") + b;
      SegmentsShift(a + ";", b, 0, PLAIN, "");
    } else {
      SeparatorBeforeSemicolon(a, b, i);
      assert cmd[i] == a[i];
      var n := SeparatorAt(a, i);
      if st == PLAIN && n > 0 {
        SeparatorStaysPlain(a, i);
        SegmentsJoin(a, b, i + n, PLAIN, "");
      } else {
        StateStep(a, i);
        SegmentsJoin(a, b, i + 1, Next(st, a[i]), segment + [a[i]]);
      }
    }
  }

  /** A command that leaves no quote or escape open can be followed by another one: the segments of
    * both are the segments of each. */
  lemma SegmentsCompose(a: string, b: string)
    requires StateAfter(a) == PLAIN
    ensures SegmentsOf(a + ";" + b) == SegmentsOf(a) + SegmentsOf(b)
  {
    assert a[..0] == "";
    SegmentsJoin(a, b, 0, PLAIN, "");
  }

  // ---------------------------------------------------------------- the loop

  /** The result that a scanner with these segments behind it is heading for. */
  function Heading(segments: seq<string>, cmd: string, i: nat, st: Lexical, segment: string): seq<string>
    requires i <= |cmd|
  {
    segments + SegmentsFrom(cmd, i, st, segment)
  }

  lemma Scan(segments: seq<string>, cmd: string, i: nat, st: Lexical, segment: string)
    requires i < |cmd|
    ensures Heading(segments, cmd, i, st, segment)
            == if st == PLAIN && SeparatorAt(cmd, i) > 0
               then Heading(segments + [segment], cmd, i + SeparatorAt(cmd, i), PLAIN, "")
               else Heading(segments, cmd, i + 1, Next(st, cmd[i]), segment + [cmd[i]])
  {
  }

  method CommandSegments(cmd: string) returns (segments: seq<string>)
    ensures segments == SegmentsOf(cmd)
  {
    segments := [];
    var segment := "";
    var quote: Option<char> := None;
    var escaped := false;
    var i := 0;
    while i < |cmd|
      invariant i <= |cmd|
      invariant Heading(segments, cmd, i, Lexical(quote, escaped), segment) == SegmentsOf(cmd)
      decreases |cmd| - i
    {
      hide Heading;
      Scan(segments, cmd, i, Lexical(quote, escaped), segment);
      var ch := cmd[i];
      var next := if i + 1 < |cmd| then [cmd[i + 1]] else "";
      if escaped {
        segment := segment + [ch];
        escaped := false;
        i := i + 1;
        continue;
      }
      if ch == '\\' {
        segment := segment + [ch];
        escaped := true;
        i := i + 1;
        continue;
      }
      if quote.Some? {
        segment := segment + [ch];
        if ch == quote.value {
          quote := None;
        }
        i := i + 1;
        continue;
      }
      if ch == '\'' || ch == '"' {
        quote := Some(ch);
        segment := segment + [ch];
        i := i + 1;
        continue;
      }
      if ch == '$' && next == "(" {
        segments := segments + [segment];
        segment := "";
        i := i + 2;
        continue;
      }
      if ch == ';' || ch == '|' || ch == '\n' || ch == '`' || ch == ')' {
        segments := segments + [segment];
        segment := "";
        if ch == '|' && next == "|" {
          i := i + 2;
        } else {
          i := i + 1;
        }
        continue;
      }
      if ch == '&' {
        segments := segments + [segment];
        segment := "";
        i := if next == "&" then i + 2 else i + 1;
        continue;
      }
      segment := segment + [ch];
      i := i + 1;
    }
    segments := segments + [segment];
  }

  lemma {:induction false} SegmentsShort(cmd: string, i: nat, st: Lexical, segment: string)
    requires i <= |cmd| && |segment| <= i
    ensures forall s | s in SegmentsFrom(cmd, i, st, segment) :: |s| <= |cmd|
    decreases |cmd| - i
  {
    if i < |cmd| {
      if st == PLAIN && SeparatorAt(cmd, i) > 0 {
        SegmentsShort(cmd, i + SeparatorAt(cmd, i), PLAIN, "");
      } else {
        SegmentsShort(cmd, i + 1, Next(st, cmd[i]), segment + [cmd[i]]);
      }
    }
  }
}
