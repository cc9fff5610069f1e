/** Shell text as it is written: bare characters, escaped ones and quoted stretches. What the segmenter
  * does to a command is said in these terms, without its own scanning state. */
module Quoting {
  import opened Workflows
  import opened Segments

  // ---------------------------------------------------------------- written commands

  /** Inside quotes: a character that stands for itself, or an escaped one. The scanner takes a backslash
    * as an escape in both kinds of quotes. */
  datatype Inner = Literal(c: char) | InnerEscape(c: char)

  datatype Piece = Bare(c: char) | Escaped(c: char) | Quoted(quote: char, body: seq<Inner>)

  /** How a command ends: closed, after a lone backslash, or inside a quote that is not closed, perhaps
    * after a lone backslash in it. */
  datatype Tail = Closed | LoneBackslash | OpenQuote(quote: char, body: seq<Inner>, backslash: bool)

  predicate IsQuote(c: char) {
    c == '\'' || c == '"'
  }

  predicate InnerOk(q: char, inner: Inner) {
    inner.Literal? ==> inner.c != q && inner.c != '\\'
  }

  predicate BodyOk(q: char, body: seq<Inner>) {
    IsQuote(q) && forall i | 0 <= i < |body| :: InnerOk(q, body[i])
  }

  predicate PieceOk(p: Piece) {
    match p
    case Bare(c) => !IsQuote(c) && c != '\\'
    case Escaped(_) => true
    case Quoted(q, body) => BodyOk(q, body)
  }

  predicate PiecesOk(pieces: seq<Piece>) {
    forall i | 0 <= i < |pieces| :: PieceOk(pieces[i])
  }

  predicate TailOk(tail: Tail) {
    tail.OpenQuote? ==> BodyOk(tail.quote, tail.body)
  }

  function InnerText(inner: Inner): string {
    if inner.Literal? then [inner.c] else ['\\', inner.c]
  }

  function BodyText(body: seq<Inner>): string {
    if body == [] then "" else InnerText(body[0]) + BodyText(body[1..])
  }

  function PieceText(p: Piece): string {
    match p
    case Bare(c) => [c]
    case Escaped(c) => ['\\', c]
    case Quoted(q, body) => [q] + BodyText(body) + [q]
  }

  function TailText(tail: Tail): string {
    match tail
    case Closed => ""
    case LoneBackslash => "\\"
    case OpenQuote(q, body, backslash) => [q] + BodyText(body) + (if backslash then "\\" else "")
  }

  function Text(pieces: seq<Piece>, tail: Tail): string {
    if pieces == [] then TailText(tail) else PieceText(pieces[0]) + Text(pieces[1..], tail)
  }

  // ---------------------------------------------------------------- splitting, piece by piece

  /** How many pieces the separator takes that the list begins with, if it begins with one: bare `;`,
    * newline, backquote and `)`, `$(`, `|` or `||`, `&` or `&&`. */
  function SeparatorPieces(pieces: seq<Piece>): (n: nat)
    ensures n <= |pieces|
  {
    if pieces == [] || !pieces[0].Bare? then 0
    else
      var c := pieces[0].c;
      var next := |pieces| > 1 && pieces[1].Bare?;
      if c == ';' || c == '\n' || c == '`' || c == ')' then 1
      else if c == '$' then (if next && pieces[1].c == '(' then 2 else 0)
      else if c == '|' then (if next && pieces[1].c == '|' then 2 else 1)
      else if c == '&' then (if next && pieces[1].c == '&' then 2 else 1)
      else 0
  }

  /** The text of the pieces, cut at every bare separator. */
  function Split(pieces: seq<Piece>, tail: Tail): (segments: seq<string>)
    ensures segments != []
    decreases |pieces|
  {
    if pieces == [] then [TailText(tail)]
    else
      var n := SeparatorPieces(pieces);
      if n > 0 then [""] + Split(pieces[n..], tail)
      else Glue(PieceText(pieces[0]), Split(pieces[1..], tail))
  }

  /** Text put before the first segment. */
  function Glue(text: string, segments: seq<string>): (r: seq<string>)
    requires segments != []
    ensures r != []
  {
    [text + segments[0]] + segments[1..]
  }

  // ---------------------------------------------------------------- the scanner over written commands

  lemma GlueTwice(a: string, b: string, segments: seq<string>)
    requires segments != []
    ensures Glue(a, Glue(b, segments)) == Glue(a + b, segments)
  {
    assert a + (b + segments[0]) == a + b + segments[0];
  }

  /** One character that is no separator where it stands. */
  lemma ReadOn(cmd: string, i: nat, st: Lexical, segment: string)
    requires i < |cmd| && (st != PLAIN || SeparatorAt(cmd, i) == 0)
    ensures SegmentsFrom(cmd, i, st, segment) == SegmentsFrom(cmd, i + 1, Next(st, cmd[i]), segment + [cmd[i]])
  {
  }

  lemma CutHere(cmd: string, i: nat, segment: string)
    requires i < |cmd| && SeparatorAt(cmd, i) > 0
    ensures SegmentsFrom(cmd, i, PLAIN, segment) == [segment] + SegmentsFrom(cmd, i + SeparatorAt(cmd, i), PLAIN, "")
  {
  }

  /** The command from position `i` on. */
  predicate At(cmd: string, i: nat, text: string) {
    i <= |cmd| && cmd[i..] == text
  }

  lemma Behind(cmd: string, i: nat, front: string, rest: string)
    requires At(cmd, i, front + rest)
    ensures i + |front| <= |cmd| && At(cmd, i + |front|, rest)
    ensures forall k | 0 <= k < |front| :: cmd[i + k] == front[k]
  {
    forall k | 0 <= k < |front| ensures cmd[i + k] == front[k] {
      assert cmd[i + k] == cmd[i..][k];
    }
    assert cmd[i + |front|..] == cmd[i..][|front|..];
  }

  lemma First(cmd: string, i: nat, c: char, rest: string)
    requires At(cmd, i, [c] + rest)
    ensures i < |cmd| && cmd[i] == c && At(cmd, i + 1, rest)
  {
    Behind(cmd, i, [c], rest);
    assert cmd[i + 0] == c;
  }

  lemma Regrouped(a: string, b: string, c: string)
    ensures (a + b) + c == a + (b + c)
  {
  }

  lemma BodyStep(q: char, body: seq<Inner>)
    requires BodyOk(q, body)
    ensures body == [] ==> BodyText(body) == ""
    ensures body != [] ==> BodyText(body) == InnerText(body[0]) + BodyText(body[1..])
    ensures body != [] ==> InnerOk(q, body[0]) && BodyOk(q, body[1..])
  {
  }

  lemma ReadInner(cmd: string, i: nat, q: char, inner: Inner, rest: string, segment: string)
    requires InnerOk(q, inner) && At(cmd, i, InnerText(inner) + rest)
    ensures i + |InnerText(inner)| <= |cmd| && At(cmd, i + |InnerText(inner)|, rest)
    ensures SegmentsFrom(cmd, i, Lexical(Some(q), false), segment)
            == SegmentsFrom(cmd, i + |InnerText(inner)|, Lexical(Some(q), false), segment + InnerText(inner))
  {
    hide SegmentsFrom;
    var st, text := Lexical(Some(q), false), InnerText(inner);
    Behind(cmd, i, text, rest);
    assert cmd[i + 0] == text[0];
    ReadOn(cmd, i, st, segment);
    if inner.Literal? {
      assert segment + [cmd[i]] == segment + text;
    } else {
      assert cmd[i + 1] == text[1];
      ReadOn(cmd, i + 1, Lexical(Some(q), true), segment + [cmd[i]]);
      assert segment + [cmd[i]] + [cmd[i + 1]] == segment + text;
    }
  }

  /** The inside of a quote is read through. */
  lemma {:induction false} ReadBody(cmd: string, i: nat, q: char, body: seq<Inner>, rest: string, segment: string)
    requires BodyOk(q, body) && At(cmd, i, BodyText(body) + rest)
    ensures i + |BodyText(body)| <= |cmd| && At(cmd, i + |BodyText(body)|, rest)
    ensures SegmentsFrom(cmd, i, Lexical(Some(q), false), segment)
            == SegmentsFrom(cmd, i + |BodyText(body)|, Lexical(Some(q), false), segment + BodyText(body))
    decreases |body|
  {
    hide *;
    Behind(cmd, i, BodyText(body), rest);
    BodyStep(q, body);
    if body == [] {
      assert segment + "" == segment;
    } else {
      var text, inside := InnerText(body[0]), BodyText(body[1..]);
      Regrouped(text, inside, rest);
      ReadInner(cmd, i, q, body[0], inside + rest, segment);
      ReadBody(cmd, i + |text|, q, body[1..], rest, segment + text);
      Regrouped(segment, text, inside);
    }
  }

  /** A quote and its inside, up to its end or to that of the command. */
  lemma ReadOpening(cmd: string, i: nat, q: char, body: seq<Inner>, rest: string, segment: string)
    requires BodyOk(q, body) && At(cmd, i, [q] + (BodyText(body) + rest))
    ensures i + 1 + |BodyText(body)| <= |cmd| && At(cmd, i + 1 + |BodyText(body)|, rest)
    ensures SegmentsFrom(cmd, i, PLAIN, segment)
            == SegmentsFrom(cmd, i + 1 + |BodyText(body)|, Lexical(Some(q), false), segment + ([q] + BodyText(body)))
  {
    var inside := BodyText(body);
    First(cmd, i, q, inside + rest);
    ReadOn(cmd, i, PLAIN, segment);
    hide BodyText, At, SegmentsFrom;
    ReadBody(cmd, i + 1, q, body, rest, segment + [q]);
    Regrouped(segment, [q], inside);
  }

  lemma ReadQuoted(cmd: string, i: nat, q: char, body: seq<Inner>, rest: string, segment: string)
    requires BodyOk(q, body) && At(cmd, i, ([q] + BodyText(body) + [q]) + rest)
    ensures i + |BodyText(body)| + 2 <= |cmd|
    ensures SegmentsFrom(cmd, i, PLAIN, segment)
            == SegmentsFrom(cmd, i + |BodyText(body)| + 2, PLAIN, segment + ([q] + BodyText(body) + [q]))
  {
    hide SegmentsFrom, BodyText, At;
    var inside := BodyText(body);
    Regrouped([q] + inside, [q], rest);
    Regrouped([q], inside, [q] + rest);
    ReadOpening(cmd, i, q, body, [q] + rest, segment);
    var k := i + 1 + |inside|;
    First(cmd, k, q, rest);
    ReadOn(cmd, k, Lexical(Some(q), false), segment + ([q] + inside));
    Regrouped(segment, [q] + inside, [q]);
  }

  /** A piece that begins no separator is read through, back to the plain state. */
  lemma ReadPiece(cmd: string, i: nat, p: Piece, rest: string, segment: string)
    requires PieceOk(p) && At(cmd, i, PieceText(p) + rest)
    requires p.Bare? ==> i < |cmd| && SeparatorAt(cmd, i) == 0
    ensures i + |PieceText(p)| <= |cmd| && At(cmd, i + |PieceText(p)|, rest)
    ensures SegmentsFrom(cmd, i, PLAIN, segment) == SegmentsFrom(cmd, i + |PieceText(p)|, PLAIN, segment + PieceText(p))
  {
    hide SegmentsFrom, At, BodyText;
    Behind(cmd, i, PieceText(p), rest);
    if p.Quoted? {
      ReadQuoted(cmd, i, p.quote, p.body, rest, segment);
    } else {
      assert cmd[i + 0] == PieceText(p)[0];
      ReadOn(cmd, i, PLAIN, segment);
      if p.Escaped? {
        assert cmd[i + 1] == PieceText(p)[1];
        ReadOn(cmd, i + 1, Lexical(None, true), segment + [cmd[i]]);
        assert segment + [cmd[i]] + [cmd[i + 1]] == segment + PieceText(p);
      }
    }
  }

  /** What comes after the last closed piece stays in the last segment. */
  lemma ReadTail(cmd: string, i: nat, tail: Tail, segment: string)
    requires TailOk(tail) && At(cmd, i, TailText(tail))
    ensures SegmentsFrom(cmd, i, PLAIN, segment) == [segment + TailText(tail)]
  {
    match tail
    case Closed => assert segment + "" == segment;
    case LoneBackslash =>
      assert cmd[i] == cmd[i..][0] == '\\' && i + 1 == |cmd|;
      ReadOn(cmd, i, PLAIN, segment);
    case OpenQuote(q, body, backslash) => ReadOpenQuote(cmd, i, q, body, if backslash then "\\" else "", segment);
  }

  lemma ReadOpenQuote(cmd: string, i: nat, q: char, body: seq<Inner>, end: string, segment: string)
    requires BodyOk(q, body) && |end| <= 1 && At(cmd, i, [q] + BodyText(body) + end)
    ensures SegmentsFrom(cmd, i, PLAIN, segment) == [segment + ([q] + BodyText(body) + end)]
  {
    hide SegmentsFrom, BodyText, At;
    var inside := BodyText(body);
    Regrouped([q], inside, end);
    ReadOpening(cmd, i, q, body, end, segment);
    ReadEnd(cmd, i + 1 + |inside|, Lexical(Some(q), false), end, segment + ([q] + inside));
    Regrouped(segment, [q] + inside, end);
  }

  /** The end of a command inside a quote. */
  lemma ReadEnd(cmd: string, k: nat, st: Lexical, end: string, segment: string)
    requires At(cmd, k, end) && |end| <= 1 && st != PLAIN
    ensures SegmentsFrom(cmd, k, st, segment) == [segment + end]
  {
    if end == "" {
      assert segment + "" == segment;
    } else {
      assert k + 1 == |cmd| && cmd[k] == cmd[k..][0] && end == [end[0]];
      ReadOn(cmd, k, st, segment);
    }
  }

  /** The first character of what follows a bare piece is a separator's second character exactly if the
    * next piece is that bare character. */
  lemma NextChar(pieces: seq<Piece>, tail: Tail, c: char)
    requires PiecesOk(pieces) && TailOk(tail) && !IsQuote(c) && c != '\\'
    ensures (Text(pieces, tail) != "" && Text(pieces, tail)[0] == c) <==> (pieces != [] && pieces[0] == Bare(c))
  {
    if pieces != [] {
      assert PieceOk(pieces[0]);
      assert Text(pieces, tail)[0] == PieceText(pieces[0])[0];
    }
  }

  lemma StartsAs(cmd: string, i: nat, text: string)
    requires At(cmd, i, text)
    ensures text == "" <==> i == |cmd|
    ensures text != "" ==> i < |cmd| && cmd[i] == text[0]
  {
    assert text != "" ==> cmd[i] == cmd[i..][0];
  }

  lemma TextWithout(pieces: seq<Piece>, tail: Tail)
    requires pieces != [] && pieces[0].Bare?
    ensures Text(pieces, tail) == [pieces[0].c] + Text(pieces[1..], tail)
  {
  }

  lemma SeparatorCases(cmd: string, i: nat)
    requires i < |cmd|
    ensures var c, next := cmd[i], i + 1 < |cmd|;
            SeparatorAt(cmd, i)
            == if c == ';' || c == '\n' || c == '`' || c == ')' then 1
               else if c == '$' then (if next && cmd[i + 1] == '(' then 2 else 0)
               else if c == '|' then (if next && cmd[i + 1] == '|' then 2 else 1)
               else if c == '&' then (if next && cmd[i + 1] == '&' then 2 else 1)
               else 0
  {
  }

  /** The scanner sees a separator exactly where the pieces have one, and takes as many characters. */
  lemma SameSeparator(cmd: string, i: nat, pieces: seq<Piece>, tail: Tail)
    requires PiecesOk(pieces) && TailOk(tail) && pieces != [] && pieces[0].Bare? && At(cmd, i, Text(pieces, tail))
    ensures i < |cmd| && SeparatorAt(cmd, i) == SeparatorPieces(pieces)
    ensures var n := SeparatorPieces(pieces); At(cmd, i + n, Text(pieces[n..], tail))
  {
    var rest := pieces[1..];
    TextWithout(pieces, tail);
    First(cmd, i, pieces[0].c, Text(rest, tail));
    StartsAs(cmd, i + 1, Text(rest, tail));
    NextChar(rest, tail, '(');
    NextChar(rest, tail, '|');
    NextChar(rest, tail, '&');
    assert |pieces| > 1 ==> rest[0] == pieces[1];
    SeparatorCases(cmd, i);
    hide Text, At, PiecesOk, TailOk, SeparatorAt;
    if SeparatorPieces(pieces) == 2 {
      TextWithout(rest, tail);
      First(cmd, i + 1, rest[0].c, Text(rest[1..], tail));
      assert rest[1..] == pieces[2..];
    }
    if SeparatorPieces(pieces) == 0 {
      assert pieces[0..] == pieces;
    }
  }

  /** The segments of a written command are its text, cut at exactly the bare separators. */
  lemma {:induction false} SegmentsFromPieces(cmd: string, i: nat, pieces: seq<Piece>, tail: Tail, segment: string)
    requires PiecesOk(pieces) && TailOk(tail) && At(cmd, i, Text(pieces, tail))
    ensures i <= |cmd| && SegmentsFrom(cmd, i, PLAIN, segment) == Glue(segment, Split(pieces, tail))
    decreases |pieces|
  {
    hide SegmentsFrom, Text, PiecesOk, PieceOk, PieceText, TailOk, SeparatorAt, SeparatorPieces;
    TextStep(pieces, tail);
    if pieces == [] {
      ReadTail(cmd, i, tail, segment);
    } else {
      hide At;
      var p := pieces[0];
      var n := SeparatorPieces(pieces);
      if p.Bare? {
        SameSeparator(cmd, i, pieces, tail);
      }
      if n > 0 {
        BareSeparator(pieces);
        DropOk(pieces, n);
        CutHere(cmd, i, segment);
        SegmentsFromPieces(cmd, i + n, pieces[n..], tail, "");
        GlueNothing(Split(pieces[n..], tail));
        assert segment + "" == segment;
      } else {
        hide Glue;
        DropOk(pieces, 1);
        ReadPiece(cmd, i, p, Text(pieces[1..], tail), segment);
        SegmentsFromPieces(cmd, i + |PieceText(p)|, pieces[1..], tail, segment + PieceText(p));
        GlueTwice(segment, PieceText(p), Split(pieces[1..], tail));
      }
    }
  }

  lemma TextStep(pieces: seq<Piece>, tail: Tail)
    ensures Text(pieces, tail) == if pieces == [] then TailText(tail) else PieceText(pieces[0]) + Text(pieces[1..], tail)
  {
  }

  lemma BareSeparator(pieces: seq<Piece>)
    requires SeparatorPieces(pieces) > 0
    ensures pieces != [] && pieces[0].Bare?
  {
  }

  lemma DropOk(pieces: seq<Piece>, n: nat)
    requires PiecesOk(pieces) && 0 < n <= |pieces|
    ensures PieceOk(pieces[0]) && PiecesOk(pieces[n..])
  {
  }

  lemma GlueNothing(segments: seq<string>)
    requires segments != []
    ensures Glue("", segments) == segments
  {
    assert "" + segments[0] == segments[0];
  }

  /** The segmenter on every written command: nothing escaped or quoted is ever cut or dropped. */
  lemma SegmentsAreSplits(pieces: seq<Piece>, tail: Tail)
    requires PiecesOk(pieces) && TailOk(tail)
    ensures SegmentsOf(Text(pieces, tail)) == Split(pieces, tail)
  {
    var cmd := Text(pieces, tail);
    assert cmd[0..] == cmd;
    SegmentsFromPieces(cmd, 0, pieces, tail, "");
    GlueNothing(Split(pieces, tail));
  }

  // ---------------------------------------------------------------- every text is written in some way

  /** Reading the inside of a quote, up to its end if it has one. */
  lemma {:induction false} ParseBody(q: char, s: string) returns (body: seq<Inner>, rest: string, closed: bool, backslash: bool)
    requires IsQuote(q)
    ensures BodyOk(q, body)
    ensures closed ==> s == BodyText(body) + [q] + rest
    ensures !closed ==> s == BodyText(body) + (if backslash then "\\" else "")
    decreases |s|
  {
    if s == "" {
      body, rest, closed, backslash := [], "", false, false;
    } else if s[0] == q {
      body, rest, closed, backslash := [], s[1..], true, false;
      assert s == "" + [q] + s[1..];
    } else if s[0] == '\\' && |s| == 1 {
      body, rest, closed, backslash := [], "", false, true;
    } else {
      var step := if s[0] == '\\' then 2 else 1;
      var inner := if s[0] == '\\' then InnerEscape(s[1]) else Literal(s[0]);
      body, rest, closed, backslash := ParseBody(q, s[step..]);
      var text := BodyText(body);
      body := [inner] + body;
      assert body[1..] == body[1..][..] && s == s[..step] + s[step..];
      assert BodyText(body) == s[..step] + text;
    }
  }

  /** Every command can be written as pieces and a tail, so `SegmentsAreSplits` is about all commands. */
  lemma {:induction false} EveryCommandIsWritten(s: string) returns (pieces: seq<Piece>, tail: Tail)
    ensures PiecesOk(pieces) && TailOk(tail) && s == Text(pieces, tail)
    decreases |s|
  {
    if s == "" {
      pieces, tail := [], Closed;
    } else if s == "\\" {
      pieces, tail := [], LoneBackslash;
    } else if IsQuote(s[0]) {
      var body, rest, closed, backslash := ParseBody(s[0], s[1..]);
      if closed {
        var p := Quoted(s[0], body);
        assert s == [s[0]] + s[1..] == PieceText(p) + rest;
        pieces, tail := EveryCommandIsWritten(rest);
        pieces := WrittenFirst(p, pieces, tail);
      } else {
        pieces, tail := [], OpenQuote(s[0], body, backslash);
        assert s == [s[0]] + s[1..];
      }
    } else {
      var step := if s[0] == '\\' then 2 else 1;
      var p := if s[0] == '\\' then Escaped(s[1]) else Bare(s[0]);
      pieces, tail := EveryCommandIsWritten(s[step..]);
      assert s == PieceText(p) + s[step..];
      pieces := WrittenFirst(p, pieces, tail);
    }
  }

  lemma WrittenFirst(p: Piece, pieces: seq<Piece>, tail: Tail) returns (all: seq<Piece>)
    requires PieceOk(p) && PiecesOk(pieces)
    ensures PiecesOk(all) && Text(all, tail) == PieceText(p) + Text(pieces, tail)
    ensures all == [p] + pieces
  {
    all := [p] + pieces;
    assert all[1..] == pieces;
  }

  // ---------------------------------------------------------------- what is left open

  /** Reading a text from a state on. */
  function Run(st: Lexical, s: string): Lexical
    decreases |s|
  {
    if s == "" then st else Run(Next(st, s[0]), s[1..])
  }

  lemma {:induction false} RunAppend(st: Lexical, a: string, b: string)
    ensures Run(st, a + b) == Run(Run(st, a), b)
    decreases |a|
  {
    if a == "" {
      assert a + b == b;
    } else {
      assert (a + b)[1..] == a[1..] + b;
      RunAppend(Next(st, a[0]), a[1..], b);
    }
  }

  lemma {:induction false} RunIsStateAfter(s: string)
    ensures Run(PLAIN, s) == StateAfter(s)
  {
    if s != "" {
      var front, last := s[..|s| - 1], [s[|s| - 1]];
      assert s == front + last;
      RunAppend(PLAIN, front, last);
      RunIsStateAfter(front);
      assert last[1..] == "";
      assert Run(StateAfter(front), last) == Next(StateAfter(front), last[0]);
    }
  }

  lemma RunOne(st: Lexical, c: char)
    ensures Run(st, [c]) == Next(st, c)
  {
    assert [c][1..] == "";
  }

  lemma RunTwo(st: Lexical, c: char, d: char)
    ensures Run(st, [c, d]) == Next(Next(st, c), d)
  {
    assert [c] + [d] == [c, d];
    RunAppend(st, [c], [d]);
    RunOne(st, c);
    RunOne(Next(st, c), d);
  }

  lemma {:induction false} RunBody(q: char, body: seq<Inner>)
    requires BodyOk(q, body)
    ensures Run(Lexical(Some(q), false), BodyText(body)) == Lexical(Some(q), false)
  {
    var st := Lexical(Some(q), false);
    if body == [] {
    } else {
      BodyStep(q, body);
      RunBody(q, body[1..]);
      RunAppend(st, InnerText(body[0]), BodyText(body[1..]));
      RunOne(st, body[0].c);
      RunTwo(st, '\\', body[0].c);
    }
  }

  /** A quote and its inside, not closed. */
  lemma RunOpening(q: char, body: seq<Inner>)
    requires BodyOk(q, body)
    ensures Run(PLAIN, [q] + BodyText(body)) == Lexical(Some(q), false)
  {
    RunBody(q, body);
    RunOne(PLAIN, q);
    RunAppend(PLAIN, [q], BodyText(body));
  }

  lemma RunPiece(p: Piece)
    requires PieceOk(p)
    ensures Run(PLAIN, PieceText(p)) == PLAIN
  {
    hide Run, BodyText;
    match p
    case Bare(c) => RunOne(PLAIN, c);
    case Escaped(c) => RunTwo(PLAIN, '\\', c);
    case Quoted(q, body) =>
      RunOpening(q, body);
      RunOne(Lexical(Some(q), false), q);
      RunAppend(PLAIN, [q] + BodyText(body), [q]);
  }

  lemma RunTail(tail: Tail)
    requires TailOk(tail)
    ensures Run(PLAIN, TailText(tail)) == PLAIN <==> tail.Closed?
  {
    match tail
    case Closed =>
    case LoneBackslash => RunOne(PLAIN, '\\');
    case OpenQuote(q, body, backslash) =>
      RunOpening(q, body);
      RunAppend(PLAIN, [q] + BodyText(body), if backslash then "\\" else "");
      RunOne(Lexical(Some(q), false), '\\');
  }

  lemma {:induction false} RunText(pieces: seq<Piece>, tail: Tail)
    requires PiecesOk(pieces)
    ensures Run(PLAIN, Text(pieces, tail)) == Run(PLAIN, TailText(tail))
  {
    if pieces != [] {
      assert PieceOk(pieces[0]);
      RunPiece(pieces[0]);
      RunAppend(PLAIN, PieceText(pieces[0]), Text(pieces[1..], tail));
      RunText(pieces[1..], tail);
    }
  }

  /** A command leaves nothing open, as composing commands asks, exactly if it is written without a lone
    * backslash or an open quote at its end. */
  lemma NothingOpenIff(pieces: seq<Piece>, tail: Tail)
    requires PiecesOk(pieces) && TailOk(tail)
    ensures StateAfter(Text(pieces, tail)) == PLAIN <==> tail.Closed?
  {
    RunIsStateAfter(Text(pieces, tail));
    RunText(pieces, tail);
    RunTail(tail);
  }
}
