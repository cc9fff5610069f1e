/** The receipt that the shim prints after its child's output (`_emit_sentinel`) and the parser that
  * finds it again (`parse-shim-result.py`). */
module Receipts {
  import opened Workflows
  import opened Text

  /** What JSON text decodes to. */
  datatype Decoded<+R> = NotJson | NotAnObject | Object(receipt: R)

  /** JSON encoding is a parameter: compact, free of line breaks, and undone by decoding. `exit`
    * reads the integer exit member of a receipt. */
  datatype Codec<!R> = Codec(encode: R -> string, decode: string -> Decoded<R>, exit: R -> Option<int>)

  predicate OneLine(s: string) {
    forall i | 0 <= i < |s| :: s[i] != '\n' && s[i] != '\r'
  }

  ghost predicate Lawful<R(!new)>(c: Codec<R>) {
    forall r :: OneLine(c.encode(r)) && c.decode(c.encode(r)) == Object(r)
  }

  const RESULT_PREFIX := "SHIM-RESULT "
  const DONE_PREFIX := "SHIM-DONE exit="

  // ---------------------------------------------------------------- printing

  function ReceiptLine<R>(c: Codec<R>, r: R): string {
    RESULT_PREFIX + c.encode(r)
  }

  function DoneLine(exitCode: int): string {
    DONE_PREFIX + IntText(exitCode)
  }

  /** A receipt and the sentinel, each on its line. */
  function Pair<R>(c: Codec<R>, exitCode: int, r: R): string {
    ReceiptLine(c, r) + "\n" + (DoneLine(exitCode) + "\n")
  }

  function Payload<R>(c: Codec<R>, exitCode: int, leadingNewline: bool, receipt: Option<R>): string {
    (if leadingNewline then "\n" else "")
    + (if receipt.Some? then Pair(c, exitCode, receipt.value) else DoneLine(exitCode) + "\n")
  }

  /** `_emit_sentinel`, with standard output as a string. */
  method EmitSentinel<R>(c: Codec<R>, stdout: string, exitCode: int, leadingNewline: bool, receipt: Option<R>)
    returns (out: string)
    ensures out == stdout + Payload(c, exitCode, leadingNewline, receipt)
  {
    hide ReceiptLine, DoneLine;
    var payload := if leadingNewline then "\n" else "";
    ghost var lead := payload;
    if receipt.Some? {
      payload := payload + (ReceiptLine(c, receipt.value) + "\n");
    }
    payload := payload + (DoneLine(exitCode) + "\n");
    assert receipt.Some? ==> payload == lead + Pair(c, exitCode, receipt.value);
    out := stdout + payload;
  }

  /** The text that is printed, spelled out. */
  lemma PayloadText<R>(c: Codec<R>, exitCode: int, leadingNewline: bool, receipt: Option<R>)
    ensures receipt.Some? ==>
              Payload(c, exitCode, leadingNewline, receipt)
              == (if leadingNewline then "\n" else "") + (("SHIM-RESULT " + c.encode(receipt.value)) + "\n"
                 + (("SHIM-DONE exit=" + IntText(exitCode)) + "\n"))
    ensures receipt.None? ==>
              Payload(c, exitCode, leadingNewline, receipt)
              == (if leadingNewline then "\n" else "") + (("SHIM-DONE exit=" + IntText(exitCode)) + "\n")
  {
    assert DoneLine(exitCode) == "SHIM-DONE exit=" + IntText(exitCode);
    assert receipt.Some? ==> ReceiptLine(c, receipt.value) == "SHIM-RESULT " + c.encode(receipt.value);
    hide ReceiptLine, DoneLine;
  }

  // ---------------------------------------------------------------- lines

  /** Where the first line of `s` ends. */
  function LineEnd(s: string): (k: nat)
    ensures k <= |s| && OneLine(s[..k]) && (k < |s| ==> s[k] == '\n' || s[k] == '\r')
  {
    if s == "" || s[0] == '\n' || s[0] == '\r' then 0
    else
      var k := LineEnd(s[1..]);
      assert s[..k + 1] == [s[0]] + s[1..][..k];
      k + 1
  }

  /** The lines of a text stream without their ends: "\n", "\r\n" and "\r" all end a line. */
  function Lines(s: string): seq<string>
    decreases |s|
  {
    if s == "" then []
    else
      var k := LineEnd(s);
      if k == |s| then [s]
      else if s[k] == '\r' && k + 1 < |s| && s[k + 1] == '\n' then [s[..k]] + Lines(s[k + 2..])
      else [s[..k]] + Lines(s[k + 1..])
  }

  /** A text that ends with a newline, or is empty. */
  predicate Complete(s: string) {
    s == "" || s[|s| - 1] == '\n'
  }

  lemma {:induction false} LineEndOfLine(l: string, rest: string)
    requires OneLine(l)
    ensures LineEnd(l + "\n" + rest) == |l|
  {
    var s := l + "\n" + rest;
    if l != "" {
      assert s[1..] == l[1..] + "\n" + rest;
      LineEndOfLine(l[1..], rest);
    }
  }

  lemma FirstLine(l: string, rest: string)
    requires OneLine(l)
    ensures Lines(l + "\n" + rest) == [l] + Lines(rest)
  {
    var s := l + "\n" + rest;
    LineEndOfLine(l, rest);
    assert s[..|l|] == l && s[|l| + 1..] == rest;
  }

  lemma {:induction false} LineEndStable(a: string, b: string)
    requires LineEnd(a) < |a|
    ensures LineEnd(a + b) == LineEnd(a)
  {
    if a[0] != '\n' && a[0] != '\r' {
      assert (a + b)[1..] == a[1..] + b;
      LineEndStable(a[1..], b);
    }
  }

  lemma {:induction false} CompleteHasEnd(a: string)
    requires Complete(a) && a != ""
    ensures LineEnd(a) < |a|
  {
    if a[0] != '\n' && a[0] != '\r' {
      CompleteHasEnd(a[1..]);
    }
  }

  /** What comes before a complete text does not change how the rest splits. */
  lemma {:induction false} LinesAppend(a: string, b: string)
    requires Complete(a)
    ensures Lines(a + b) == Lines(a) + Lines(b)
    decreases |a|
  {
    if a == "" {
      assert a + b == b;
    } else {
      CompleteHasEnd(a);
      LineEndStable(a, b);
      var k := LineEnd(a);
      var n := if a[k] == '\r' && k + 1 < |a| && a[k + 1] == '\n' then k + 2 else k + 1;
      assert (a + b)[..k] == a[..k];
      assert (a + b)[n..] == a[n..] + b;
      LinesAppend(a[n..], b);
    }
  }

  /** The three ways to end a line. */
  datatype End = LF | CR | CRLF

  function EndText(e: End): string {
    match e
    case LF => "\n"
    case CR => "\r"
    case CRLF => "\r\n"
  }

  /** A line with its end. */
  datatype Terminated = Terminated(line: string, end: End)

  function Written(lines: seq<Terminated>, last: string): string {
    if lines == [] then last else lines[0].line + EndText(lines[0].end) + Written(lines[1..], last)
  }

  function LineTexts(lines: seq<Terminated>): seq<string> {
    if lines == [] then [] else [lines[0].line] + LineTexts(lines[1..])
  }

  /** Lines without line breaks in them, and no lone carriage return before a line feed. */
  predicate WellEnded(lines: seq<Terminated>, last: string) {
    && OneLine(last)
    && (forall i | 0 <= i < |lines| :: OneLine(lines[i].line))
    && forall i | 0 <= i < |lines| - 1 :: lines[i].end == CR ==> lines[i + 1] != Terminated("", LF)
  }

  lemma {:induction false} LineEndBefore(l: string, rest: string)
    requires OneLine(l) && (rest == "" || rest[0] == '\n' || rest[0] == '\r')
    ensures LineEnd(l + rest) == |l|
  {
    if l == "" {
      assert l + rest == rest;
    } else {
      assert (l + rest)[1..] == l[1..] + rest;
      LineEndBefore(l[1..], rest);
    }
  }

  lemma LineStep(l: string, end: End, rest: string)
    requires OneLine(l) && (end == CR && rest != "" ==> rest[0] != '\n')
    ensures Lines(l + (EndText(end) + rest)) == [l] + Lines(rest)
  {
    var e := EndText(end);
    var s := l + (e + rest);
    LineEndBefore(l, e + rest);
    assert s[..|l|] == l && s[|l| + |e|..] == rest;
    assert s[|l|] == e[0];
    assert end == CRLF ==> s[|l| + 1] == '\n';
    assert end == CR && rest != "" ==> s[|l| + 1] == rest[0];
  }

  /** However its lines are ended, a text splits into the lines that were written. */
  lemma {:induction false} LinesOfWritten(lines: seq<Terminated>, last: string)
    requires WellEnded(lines, last)
    ensures Lines(Written(lines, last)) == LineTexts(lines) + (if last == "" then [] else [last])
  {
    if lines == [] {
      LineEndBefore(last, "");
      assert last + "" == last;
    } else {
      hide Lines, WellEnded, EndText;
      assert OneLine(lines[0].line) by { HeadOneLine(lines, last); }
      var l, rest := lines[0].line, Written(lines[1..], last);
      assert Written(lines, last) == l + (EndText(lines[0].end) + rest);
      if lines[0].end == CR {
        StartOfWritten(lines, last);
      }
      LineStep(l, lines[0].end, rest);
      TailWellEnded(lines, last);
      LinesOfWritten(lines[1..], last);
    }
  }

  lemma HeadOneLine(lines: seq<Terminated>, last: string)
    requires WellEnded(lines, last) && lines != []
    ensures OneLine(lines[0].line)
  {
  }

  lemma TailWellEnded(lines: seq<Terminated>, last: string)
    requires WellEnded(lines, last) && lines != []
    ensures WellEnded(lines[1..], last)
  {
    var tail := lines[1..];
    forall i | 0 <= i < |tail| - 1 ensures tail[i].end == CR ==> tail[i + 1] != Terminated("", LF) {
      assert tail[i] == lines[i + 1] && tail[i + 1] == lines[i + 2];
    }
  }

  /** What follows a lone carriage return is no line feed. */
  lemma StartOfWritten(lines: seq<Terminated>, last: string)
    requires WellEnded(lines, last) && lines != [] && lines[0].end == CR
    ensures var rest := Written(lines[1..], last); rest != "" ==> rest[0] != '\n'
  {
    if |lines| > 1 {
      var next := lines[1];
      assert lines[1..][0] == next;
      assert Written(lines[1..], last) == next.line + EndText(next.end) + Written(lines[1..][1..], last);
    }
  }

  // ---------------------------------------------------------------- parsing

  datatype Reason = MissingPair | NotReceiptThenDone | InvalidJson | JsonNotAnObject | ExitMismatch

  datatype Parsed<+R> = Receipt(value: R) | Rejected(reason: Reason)

  /** Trailing empty lines are dropped. */
  function DropBlank(lines: seq<string>): (r: seq<string>)
    ensures r <= lines && (r != [] ==> r[|r| - 1] != "") && forall k | |r| <= k < |lines| :: lines[k] == ""
  {
    if lines != [] && lines[|lines| - 1] == "" then DropBlank(lines[..|lines| - 1]) else lines
  }

  /** `SENTINEL.fullmatch` */
  predicate IsDone(line: string) {
    StartsWith(line, DONE_PREFIX) && AllDigits(line[|DONE_PREFIX|..])
  }

  function ParseLines<R>(c: Codec<R>, lines: seq<string>): Parsed<R> {
    if |lines| < 2 then Rejected(MissingPair)
    else
      var receiptLine, doneLine := lines[|lines| - 2], lines[|lines| - 1];
      if !IsDone(doneLine) || !StartsWith(receiptLine, RESULT_PREFIX) then Rejected(NotReceiptThenDone)
      else
        match c.decode(receiptLine[|RESULT_PREFIX|..])
        case NotJson => Rejected(InvalidJson)
        case NotAnObject => Rejected(JsonNotAnObject)
        case Object(r) =>
          if c.exit(r) == Some(ParseNumeral(doneLine[|DONE_PREFIX|..])) then Receipt(r) else Rejected(ExitMismatch)
  }

  function Parse<R>(c: Codec<R>, text: string): Parsed<R> {
    ParseLines(c, DropBlank(Lines(text)))
  }

  /** `main` of the parser. */
  method ParseShimResult<R>(c: Codec<R>, stdin: string) returns (r: Parsed<R>)
    ensures r == Parse(c, stdin)
  {
    var lines := Lines(stdin);
    while lines != [] && lines[|lines| - 1] == ""
      invariant DropBlank(lines) == DropBlank(Lines(stdin))
      decreases |lines|
    {
      lines := lines[..|lines| - 1];
    }
    if |lines| < 2 {
      return Rejected(MissingPair);
    }
    var receiptLine, doneLine := lines[|lines| - 2], lines[|lines| - 1];
    if !IsDone(doneLine) || !StartsWith(receiptLine, RESULT_PREFIX) {
      return Rejected(NotReceiptThenDone);
    }
    var decoded := c.decode(receiptLine[|RESULT_PREFIX|..]);
    if decoded == NotJson {
      return Rejected(InvalidJson);
    }
    if decoded == NotAnObject {
      return Rejected(JsonNotAnObject);
    }
    if c.exit(decoded.receipt) != Some(ParseNumeral(doneLine[|DONE_PREFIX|..])) {
      return Rejected(ExitMismatch);
    }
    r := Receipt(decoded.receipt);
  }

  /** Why an output is refused: too few lines; not a receipt line and then a sentinel with a decimal code;
    * a receipt that is no JSON, or no object; or one that states another exit code. */
  lemma RefusedBecause<R>(c: Codec<R>, text: string)
    ensures var lines := DropBlank(Lines(text));
            var last := |lines| - 1;
            if |lines| < 2 then Parse(c, text) == Rejected(MissingPair)
            else if !StartsWith(lines[last], "SHIM-DONE exit=") || !AllDigits(lines[last][15..])
                    || !StartsWith(lines[last - 1], "SHIM-RESULT ") then Parse(c, text) == Rejected(NotReceiptThenDone)
            else
              var decoded := c.decode(lines[last - 1][12..]);
              if decoded.NotJson? then Parse(c, text) == Rejected(InvalidJson)
              else if decoded.NotAnObject? then Parse(c, text) == Rejected(JsonNotAnObject)
              else Parse(c, text) == if c.exit(decoded.receipt) == Some(ParseNumeral(lines[last][15..]))
                                     then Receipt(decoded.receipt) else Rejected(ExitMismatch)
  {
    hide Lines, DropBlank, AllDigits, ParseNumeral;
  }

  // ---------------------------------------------------------------- round trip

  lemma NumeralOneLine(n: int)
    ensures OneLine(IntText(n)) && IntText(n) != ""
  {
  }

  lemma OutputLines<R(!new)>(c: Codec<R>, exitCode: int, r: R)
    requires Lawful(c)
    ensures OneLine(ReceiptLine(c, r)) && OneLine(DoneLine(exitCode))
  {
    NumeralOneLine(exitCode);
  }

  /** How an emitted pair splits, whatever complete text comes before it. */
  lemma EmittedLines<R(!new)>(c: Codec<R>, before: string, exitCode: int, r: R)
    requires Lawful(c) && Complete(before)
    ensures Lines(before + Pair(c, exitCode, r)) == Lines(before) + [ReceiptLine(c, r), DoneLine(exitCode)]
  {
    hide ReceiptLine, DoneLine, Lines;
    OutputLines(c, exitCode, r);
    FirstLine(DoneLine(exitCode), "");
    assert DoneLine(exitCode) + "\n" + "" == DoneLine(exitCode) + "\n";
    NoLines();
    FirstLine(ReceiptLine(c, r), DoneLine(exitCode) + "\n");
    LinesAppend(before, Pair(c, exitCode, r));
  }

  lemma NoLines()
    ensures Lines("") == []
  {
  }

  /** Only the last two lines count: after any complete text, an emitted pair parses to the emitted
    * receipt exactly if the exit code is not negative and is the one the receipt states. */
  lemma EmittedPairParses<R(!new)>(c: Codec<R>, before: string, exitCode: int, r: R)
    requires Lawful(c) && Complete(before)
    ensures Parse(c, before + Pair(c, exitCode, r)) == Receipt(r) <==> exitCode >= 0 && c.exit(r) == Some(exitCode)
  {
    hide Lines, Pair;
    EmittedLines(c, before, exitCode, r);
    var lines := Lines(before) + [ReceiptLine(c, r), DoneLine(exitCode)];
    assert DropBlank(lines) == lines;
    assert ReceiptLine(c, r)[|RESULT_PREFIX|..] == c.encode(r);
    assert DoneLine(exitCode)[|DONE_PREFIX|..] == IntText(exitCode);
    if exitCode >= 0 {
      ParseOfNumeral(exitCode);
    } else {
      assert IntText(exitCode)[0] == '-';
    }
  }

  /** The round trip: whatever the child printed, with or without a final newline, and even if it
    * printed lines that look like receipts, parsing the output with the emitted receipt after it
    * returns the emitted receipt exactly if its exit code is the sentinel's and not negative. */
  lemma ReceiptRoundTrip<R(!new)>(c: Codec<R>, child: string, exitCode: int, leadingNewline: bool, r: R)
    requires Lawful(c) && (leadingNewline || Complete(child))
    ensures Parse(c, child + Payload(c, exitCode, leadingNewline, Some(r))) == Receipt(r)
            <==> exitCode >= 0 && c.exit(r) == Some(exitCode)
  {
    hide Pair, Parse, Lawful;
    var before := if leadingNewline then child + "\n" else child;
    EmittedPairParses(c, before, exitCode, r);
    assert child + Payload(c, exitCode, leadingNewline, Some(r)) == before + Pair(c, exitCode, r);
  }

  /** Whatever is accepted was decoded from the line before a final sentinel with its exit code. */
  lemma {:induction false} AcceptedIsTrailing<R>(c: Codec<R>, text: string)
    requires Parse(c, text).Receipt?
    ensures var lines := DropBlank(Lines(text));
            var r := Parse(c, text).value;
            && |lines| >= 2
            && c.exit(r).Some? && c.exit(r).value >= 0
            && exists digits, json ::
                 && lines[|lines| - 2] == RESULT_PREFIX + json && c.decode(json) == Object(r)
                 && lines[|lines| - 1] == DONE_PREFIX + digits && AllDigits(digits) && c.exit(r) == Some(ParseNumeral(digits))
  {
    var lines := DropBlank(Lines(text));
    var receiptLine, doneLine := lines[|lines| - 2], lines[|lines| - 1];
    var json, digits := receiptLine[|RESULT_PREFIX|..], doneLine[|DONE_PREFIX|..];
    assert receiptLine == RESULT_PREFIX + json;
    assert doneLine == DONE_PREFIX + digits;
  }
}
