/** `_artifact_payload` and `_compose_prompt`: handing artifacts of finished dependencies to a task. */
module Prompts {
  import opened Workflows
  import opened RunState
  import opened Text
  import Receipts

  newtype byte = x: int | 0 <= x < 256
  type Bytes = seq<byte>

  /** MAX_CONTEXT_BYTES */
  const MAX_CONTEXT_BYTES: nat := 1024 * 1024

  /** How re-rendering a changeset as its diffstat ends: a text, the input unchanged, or an
    * exception that the source does not catch. */
  datatype Rerender = Rendered(text: Bytes) | Unparsable | Raises

  /** The files and codecs the prompt is built from. */
  datatype Files = Files(
    snapshots: map<TaskId, Bytes>,
    artifacts: map<(DispatchId, Artifact), Bytes>,
    isUuid: DispatchId -> bool,
    rerender: Bytes -> Rerender,
    encode: string -> Bytes)

  datatype PromptError = MissingSnapshot | NoAttempts | BadDispatchId | Unreadable | Undecodable

  datatype Result<+T> = Ok(value: T) | Err(error: PromptError) {
    predicate IsFailure() {
      Err?
    }

    function PropagateFailure<U>(): Result<U>
      requires Err?
    {
      Err(error)
    }

    function Extract(): T
      requires Ok?
    {
      value
    }
  }

  datatype Payload = Payload(content: Bytes, originalSize: nat)

  function Min(a: int, b: int): int {
    if a <= b then a else b
  }

  /** `handle.read(maximum)` and `[:maximum]` */
  function Take(s: Bytes, maximum: nat): (r: Bytes)
    ensures r <= s && |r| == Min(|s|, maximum)
  {
    if |s| <= maximum then s else s[..maximum]
  }

  function ArtifactPayload(files: Files, dep: Record, artifact: Artifact, maximum: nat): (r: Result<Payload>)
    ensures r == Err(NoAttempts) <==> dep.attempts == []
    ensures r.Ok? ==> |r.value.content| <= maximum
    ensures r.Ok? ==>
              var key := (dep.attempts[|dep.attempts| - 1].dispatchId, artifact);
              && key in files.artifacts
              && r.value.originalSize == |files.artifacts[key]|
              && (artifact != Diffstat ==>
                    && r.value.content <= files.artifacts[key]
                    && |r.value.content| == Min(|files.artifacts[key]|, maximum))
  {
    if dep.attempts == [] then Err(NoAttempts)
    else
      var id := dep.attempts[|dep.attempts| - 1].dispatchId;
      if !files.isUuid(id) then Err(BadDispatchId)
      else if (id, artifact) !in files.artifacts then Err(Unreadable)
      else
        var raw := files.artifacts[(id, artifact)];
        var content := Take(raw, maximum);
        if artifact == Diffstat then
          match files.rerender(content)
          case Rendered(text) => Ok(Payload(Take(text, maximum), |raw|))
          case Unparsable => Ok(Payload(content, |raw|))
          case Raises => Err(Undecodable)
        else Ok(Payload(content, |raw|))
  }

  function StateText(s: TaskState): string {
    match s
    case Pending => "pending"
    case Ready => "ready"
    case Running => "running"
    case Succeeded => "succeeded"
    case Verified => "verified"
    case Failed => "failed"
    case TimedOut => "timed_out"
    case Cancelled => "cancelled"
    case VerificationFailed => "verification_failed"
    case Blocked => "blocked"
    case Skipped => "skipped"
  }

  const FOOTER := "\n--- end dependency context ---\n"

  /** Lines, each with its end. */
  function Unlines(lines: seq<string>): string {
    if lines == [] then "" else lines[0] + "\n" + Unlines(lines[1..])
  }

  function HeaderText(id: TaskId, route: Route, state: TaskState, artifact: Artifact, size: nat, truncated: bool): string {
    Unlines(["", "", "--- dependency context ---",
             "task: " + id, "provider: " + route.provider, "model: " + route.model,
             "status: " + StateText(state), "artifact: " + ArtifactText(artifact),
             "bytes: " + Numeral(size), "truncated: " + (if truncated then "true" else "false"), "---"])
  }

  lemma {:induction false} LinesOfUnlines(lines: seq<string>)
    requires forall l | l in lines :: Receipts.OneLine(l)
    ensures Receipts.Lines(Unlines(lines)) == lines
  {
    if lines != [] {
      LinesOfUnlines(lines[1..]);
      Receipts.FirstLine(lines[0], Unlines(lines[1..]));
    }
  }

  lemma {:induction false} NumeralIsOneLine(n: nat)
    ensures Receipts.OneLine(Numeral(n))
  {
    if n >= 10 {
      NumeralIsOneLine(n / 10);
    }
  }

  lemma OneLineAppend(a: string, b: string)
    requires Receipts.OneLine(a) && Receipts.OneLine(b)
    ensures Receipts.OneLine(a + b)
  {
  }

  lemma HeaderPartsOneLine(state: TaskState, artifact: Artifact, size: nat)
    ensures Receipts.OneLine("") && Receipts.OneLine("--- dependency context ---") && Receipts.OneLine("---")
    ensures Receipts.OneLine("task: ") && Receipts.OneLine("provider: ") && Receipts.OneLine("model: ")
    ensures Receipts.OneLine("status: ") && Receipts.OneLine("artifact: ") && Receipts.OneLine("bytes: ")
    ensures Receipts.OneLine("truncated: ") && Receipts.OneLine("true") && Receipts.OneLine("false")
    ensures Receipts.OneLine(StateText(state)) && Receipts.OneLine(ArtifactText(artifact)) && Receipts.OneLine(Numeral(size))
  {
    NumeralIsOneLine(size);
    StateIsOneLine(state);
    ArtifactIsOneLine(artifact);
    hide Numeral, StateText, ArtifactText;
  }

  lemma StateIsOneLine(state: TaskState)
    ensures Receipts.OneLine(StateText(state))
  {
  }

  lemma ArtifactIsOneLine(artifact: Artifact)
    ensures Receipts.OneLine(ArtifactText(artifact))
  {
  }

  /** What a reader of the header sees, line by line, when names have no line breaks in them. */
  lemma HeaderLines(id: TaskId, route: Route, state: TaskState, artifact: Artifact, size: nat, truncated: bool)
    requires Receipts.OneLine(id) && Receipts.OneLine(route.provider) && Receipts.OneLine(route.model)
    ensures Receipts.Lines(HeaderText(id, route, state, artifact, size, truncated))
            == ["", "", "--- dependency context ---", "task: " + id, "provider: " + route.provider, "model: " + route.model,
                "status: " + StateText(state), "artifact: " + ArtifactText(artifact), "bytes: " + Numeral(size),
                "truncated: " + (if truncated then "true" else "false"), "---"]
  {
    hide Receipts.Lines, Receipts.OneLine, Unlines, Numeral, StateText, ArtifactText;
    HeaderPartsOneLine(state, artifact, size);
    OneLineAppend("task: ", id);
    OneLineAppend("provider: ", route.provider);
    OneLineAppend("model: ", route.model);
    OneLineAppend("status: ", StateText(state));
    OneLineAppend("artifact: ", ArtifactText(artifact));
    OneLineAppend("bytes: ", Numeral(size));
    OneLineAppend("truncated: ", if truncated then "true" else "false");
    LinesOfUnlines(["", "", "--- dependency context ---", "task: " + id, "provider: " + route.provider,
                    "model: " + route.model, "status: " + StateText(state), "artifact: " + ArtifactText(artifact),
                    "bytes: " + Numeral(size), "truncated: " + (if truncated then "true" else "false"), "---"]);
  }

  /** The words that the header uses. */
  lemma HeaderWords(state: TaskState, artifact: Artifact, truncated: bool)
    ensures StateText(state) == "succeeded" <==> state == Succeeded
    ensures StateText(state) == "verified" <==> state == Verified
    ensures ArtifactText(artifact) in ["stdout", "stderr", "result", "patch", "diffstat"]
    ensures ArtifactText(artifact) == "stdout" <==> artifact == Stdout
    ensures ArtifactText(artifact) == "stderr" <==> artifact == Stderr
    ensures ArtifactText(artifact) == "result" <==> artifact == ResultFile
    ensures ArtifactText(artifact) == "patch" <==> artifact == Patch
    ensures ArtifactText(artifact) == "diffstat" <==> artifact == Diffstat
  {
  }

  /** One dependency section of a composed prompt. */
  datatype Section = Section(header: Bytes, body: Bytes, footer: Bytes)

  /** The byte budget of a selection. */
  function Cap(s: Selection): nat
    requires s.maxBytes >= 1
  {
    Min(s.maxBytes, MAX_CONTEXT_BYTES)
  }

  function SectionFor(w: Workflow, m: Tasks, files: Files, s: Selection): (r: Result<Section>)
    requires s.maxBytes >= 1 && s.task in m && s.task in w.tasks
    ensures r == Err(NoAttempts) <==> m[s.task].attempts == []
    ensures r.Ok? ==> |r.value.body| <= Cap(s) && r.value.footer == files.encode(FOOTER)
  {
    var payload :- ArtifactPayload(files, m[s.task], s.artifact, Cap(s));
    var header := HeaderText(s.task, w.tasks[s.task].route, m[s.task].state, s.artifact,
                             payload.originalSize, payload.originalSize > Cap(s));
    Ok(Section(files.encode(header), payload.content, files.encode(FOOTER)))
  }

  /** The artifact that a selection is about. */
  function RawArtifact(m: Tasks, files: Files, s: Selection): Bytes
    requires s.task in m && m[s.task].attempts != []
    requires (m[s.task].attempts[|m[s.task].attempts| - 1].dispatchId, s.artifact) in files.artifacts
  {
    files.artifacts[(m[s.task].attempts[|m[s.task].attempts| - 1].dispatchId, s.artifact)]
  }

  /** A section takes the artifact of the latest attempt, states its size, and says "truncated" exactly
    * when the file is larger than the budget. Except for a diffstat the body is a prefix of the file,
    * and the header is right: something is missing exactly when it says so. */
  lemma {:induction false} SectionIsHonest(w: Workflow, m: Tasks, files: Files, s: Selection)
    requires s.maxBytes >= 1 && s.task in m && s.task in w.tasks
    requires SectionFor(w, m, files, s).Ok?
    ensures m[s.task].attempts != []
    ensures (m[s.task].attempts[|m[s.task].attempts| - 1].dispatchId, s.artifact) in files.artifacts
    ensures var section := SectionFor(w, m, files, s).value;
            var raw := RawArtifact(m, files, s);
            var budget := if s.maxBytes <= 1048576 then s.maxBytes else 1048576;
            && section.header == files.encode(HeaderText(s.task, w.tasks[s.task].route, m[s.task].state, s.artifact,
                                                         |raw|, |raw| > budget))
            && |section.body| <= budget
            && (s.artifact != Diffstat ==>
                  && section.body <= raw
                  && (section.body == raw || |section.body| == budget)
                  && (section.body != raw <==> |raw| > budget))
  {
    hide HeaderText;
    var payload := ArtifactPayload(files, m[s.task], s.artifact, Cap(s)).value;
    assert payload.originalSize == |RawArtifact(m, files, s)|;
  }

  /** What a section would carry without a budget. */
  function WholeBody(files: Files, artifact: Artifact, raw: Bytes): Option<Bytes> {
    if artifact != Diffstat then Some(raw)
    else
      match files.rerender(raw)
      case Rendered(text) => Some(text)
      case Unparsable => Some(raw)
      case Raises => None
  }

  /** What re-rendering JSON objects does with a text and a longer one: if both parse, only blanks were
    * added, and a text that does not parse is not the rendering of one that does. */
  ghost predicate RendersObjects(files: Files) {
    forall a: Bytes, b: Bytes | a < b && files.rerender(b).Rendered? ::
      && (files.rerender(a).Rendered? ==> files.rerender(a) == files.rerender(b))
      && (files.rerender(a).Unparsable? ==> a != files.rerender(b).text)
  }

  /** When the header is right about a diffstat: a file within the budget must not be rendered beyond
    * it, and a file that is cut must not still parse and be rendered within it. */
  predicate DiffstatFits(files: Files, raw: Bytes, cap: nat) {
    if |raw| <= cap then files.rerender(raw).Rendered? ==> |files.rerender(raw).text| <= cap
    else !(files.rerender(raw[..cap]).Rendered? && files.rerender(raw).Rendered? && |files.rerender(raw).text| <= cap)
  }

  /** The header says "truncated" exactly when something is missing, for all artifacts but the diffstat
    * without condition, and for the diffstat exactly under the condition above. */
  lemma {:induction false} HeaderRightIff(w: Workflow, m: Tasks, files: Files, s: Selection)
    requires s.maxBytes >= 1 && s.task in m && s.task in w.tasks && RendersObjects(files)
    requires SectionFor(w, m, files, s).Ok?
    requires m[s.task].attempts != []
    requires (m[s.task].attempts[|m[s.task].attempts| - 1].dispatchId, s.artifact) in files.artifacts
    ensures var raw, body := RawArtifact(m, files, s), SectionFor(w, m, files, s).value.body;
            (|raw| > Cap(s) <==> WholeBody(files, s.artifact, raw) != Some(body))
            <==> (s.artifact == Diffstat ==> DiffstatFits(files, raw, Cap(s)))
  {
    var raw, cap := RawArtifact(m, files, s), Cap(s);
    var body := SectionFor(w, m, files, s).value.body;
    hide HeaderText, RendersObjects;
    if s.artifact == Diffstat {
      assert ArtifactPayload(files, m[s.task], s.artifact, cap).Ok?;
      DiffstatBody(files, raw, cap, body);
    }
  }

  lemma DiffstatBody(files: Files, raw: Bytes, cap: nat, body: Bytes)
    requires RendersObjects(files)
    requires match files.rerender(Take(raw, cap))
             case Rendered(text) => body == Take(text, cap)
             case Unparsable => body == Take(raw, cap)
             case Raises => false
    ensures (|raw| > cap <==> WholeBody(files, Diffstat, raw) != Some(body)) <==> DiffstatFits(files, raw, cap)
  {
    if |raw| > cap {
      assert raw[..cap] < raw;
    }
  }

  // A file as `atomic_write_json` leaves it, with a final newline.

  /** `{"diffstat":{}}` */
  const SMALL_CHANGESET: Bytes := [123, 34, 100, 105, 102, 102, 115, 116, 97, 116, 34, 58, 123, 125, 125]

  /** `{}` */
  const SMALL_DIFFSTAT: Bytes := [123, 125]

  function SmallRender(b: Bytes): Rerender {
    if b == SMALL_CHANGESET || b == SMALL_CHANGESET + [10] then Rendered(SMALL_DIFFSTAT) else Unparsable
  }

  function SmallFiles(id: DispatchId, encode: string -> Bytes): Files {
    Files(map[], map[(id, Diffstat) := SMALL_CHANGESET + [10]], _ => true, b => SmallRender(b), encode)
  }

  lemma SmallRendersObjects(id: DispatchId, encode: string -> Bytes)
    ensures RendersObjects(SmallFiles(id, encode))
  {
    forall a: Bytes, b: Bytes | a < b && SmallRender(b).Rendered? && SmallRender(a).Unparsable?
      ensures a != SMALL_DIFFSTAT
    {
      assert b[1] == 34 && SMALL_DIFFSTAT[1] == 125;
    }
  }

  /** With one byte less than the file has, the whole diffstat is delivered and called truncated. */
  lemma {:induction false} WholeDiffstatCalledTruncated(w: Workflow, m: Tasks, t: TaskId, id: DispatchId, encode: string -> Bytes)
    requires t in m && t in w.tasks && m[t].attempts != [] && m[t].attempts[|m[t].attempts| - 1].dispatchId == id
    ensures var files, s := SmallFiles(id, encode), Selection(t, Diffstat, 15);
            && RendersObjects(files)
            && SectionFor(w, m, files, s).Ok?
            && var section := SectionFor(w, m, files, s).value;
            && Some(section.body) == WholeBody(files, Diffstat, SMALL_CHANGESET + [10])
            && section.header == encode(HeaderText(t, w.tasks[t].route, m[t].state, Diffstat, 16, true))
  {
    hide HeaderText, RendersObjects;
    SmallRendersObjects(id, encode);
    var raw := SMALL_CHANGESET + [10];
    assert |raw| == 16 && Take(raw, 15) == SMALL_CHANGESET;
    assert ArtifactPayload(SmallFiles(id, encode), m[t], Diffstat, 15) == Ok(Payload(SMALL_DIFFSTAT, 16));
  }

  predicate Selectable(w: Workflow, m: Tasks, sels: seq<Selection>) {
    forall s | s in sels :: s.maxBytes >= 1 && s.task in m && s.task in w.tasks
  }

  function SectionsFor(w: Workflow, m: Tasks, files: Files, sels: seq<Selection>): (r: Result<seq<Section>>)
    requires Selectable(w, m, sels)
  {
    if sels == [] then Ok([])
    else
      var front :- SectionsFor(w, m, files, sels[..|sels| - 1]);
      var last :- SectionFor(w, m, files, sels[|sels| - 1]);
      Ok(front + [last])
  }

  function Join(sections: seq<Section>): Bytes {
    if sections == [] then []
    else
      var last := sections[|sections| - 1];
      Join(sections[..|sections| - 1]) + last.header + last.body + last.footer
  }

  /** The prompt of a task, or the error with which composing it stops. */
  function PromptFor(w: Workflow, m: Tasks, files: Files, t: TaskId): Result<Bytes>
    requires t in w.tasks && Selectable(w, m, w.tasks[t].contextFrom)
  {
    if t !in files.snapshots then Err(MissingSnapshot)
    else
      var sections :- SectionsFor(w, m, files, w.tasks[t].contextFrom);
      Ok(files.snapshots[t] + Join(sections))
  }

  // ---------------------------------------------------------------- properties

  /** Room that a selection can take: its header and footer, and at most its byte budget. */
  function Budget(sections: seq<Section>, sels: seq<Selection>): nat
    requires |sections| == |sels| && forall s | s in sels :: s.maxBytes >= 1
  {
    if sels == [] then 0
    else
      var k := |sels| - 1;
      Budget(sections[..k], sels[..k]) + |sections[k].header| + Cap(sels[k]) + |sections[k].footer|
  }

  lemma {:induction false} SectionsInOrder(w: Workflow, m: Tasks, files: Files, sels: seq<Selection>)
    requires Selectable(w, m, sels) && SectionsFor(w, m, files, sels).Ok?
    ensures var sections := SectionsFor(w, m, files, sels).value;
            && |sections| == |sels|
            && forall i | 0 <= i < |sels| :: SectionFor(w, m, files, sels[i]) == Ok(sections[i])
  {
    hide SectionFor;
    if sels != [] {
      var k := |sels| - 1;
      SectionsInOrder(w, m, files, sels[..k]);
      var sections := SectionsFor(w, m, files, sels).value;
      assert sections[..k] == SectionsFor(w, m, files, sels[..k]).value;
      forall i | 0 <= i < |sels| ensures SectionFor(w, m, files, sels[i]) == Ok(sections[i]) {
        if i < k {
          assert SectionFor(w, m, files, sels[..k][i]) == Ok(sections[..k][i]);
        }
      }
    }
  }

  lemma {:induction false} JoinBounded(sections: seq<Section>, sels: seq<Selection>)
    requires |sections| == |sels| && forall s | s in sels :: s.maxBytes >= 1
    requires forall i | 0 <= i < |sels| :: |sections[i].body| <= Cap(sels[i])
    ensures |Join(sections)| <= Budget(sections, sels)
  {
    if sels != [] {
      JoinBounded(sections[..|sels| - 1], sels[..|sels| - 1]);
    }
  }

  /** Composing a prompt fails for want of attempts only if some selected task has none. */
  lemma {:induction false} NoAttemptsMeansNone(w: Workflow, m: Tasks, files: Files, sels: seq<Selection>)
    requires Selectable(w, m, sels)
    ensures SectionsFor(w, m, files, sels) == Err(NoAttempts) ==> exists s :: s in sels && m[s.task].attempts == []
  {
    if sels != [] {
      NoAttemptsMeansNone(w, m, files, sels[..|sels| - 1]);
    }
  }

  /** Each section in turn: header, body and footer. */
  function Laid(sections: seq<Section>): Bytes {
    if sections == [] then [] else sections[0].header + sections[0].body + sections[0].footer + Laid(sections[1..])
  }

  lemma {:induction false} LaidLast(sections: seq<Section>)
    requires sections != []
    ensures var last := sections[|sections| - 1];
            Laid(sections) == Laid(sections[..|sections| - 1]) + (last.header + last.body + last.footer)
  {
    var k := |sections| - 1;
    if k == 0 {
      assert sections[1..] == [] && sections[..0] == [];
      assert Laid(sections) == sections[0].header + sections[0].body + sections[0].footer + [];
    } else {
      var first, last := sections[0], sections[k];
      LaidLast(sections[1..]);
      assert sections[1..][..k - 1] == sections[..k][1..];
      assert Laid(sections) == first.header + first.body + first.footer + (Laid(sections[..k][1..]) + (last.header + last.body + last.footer));
      assert Laid(sections[..k]) == first.header + first.body + first.footer + Laid(sections[..k][1..]);
    }
  }

  lemma {:induction false} JoinIsLaid(sections: seq<Section>)
    ensures Join(sections) == Laid(sections)
  {
    if sections != [] {
      var k := |sections| - 1;
      JoinIsLaid(sections[..k]);
      LaidLast(sections);
      var last := sections[k];
      assert Join(sections[..k]) + last.header + last.body + last.footer == Join(sections[..k]) + (last.header + last.body + last.footer);
    }
  }

  /** The layout of a composed prompt: the task's own text, then for each selection in order the header,
    * body and footer of its section. */
  lemma PromptLayout(w: Workflow, m: Tasks, files: Files, t: TaskId)
    requires t in w.tasks && Selectable(w, m, w.tasks[t].contextFrom) && PromptFor(w, m, files, t).Ok?
    ensures t in files.snapshots && SectionsFor(w, m, files, w.tasks[t].contextFrom).Ok?
    ensures var sections := SectionsFor(w, m, files, w.tasks[t].contextFrom).value;
            && |sections| == |w.tasks[t].contextFrom|
            && (forall i | 0 <= i < |sections| :: SectionFor(w, m, files, w.tasks[t].contextFrom[i]) == Ok(sections[i]))
            && (forall i | 0 <= i < |sections| :: sections[i].footer == files.encode("\n--- end dependency context ---\n"))
            && PromptFor(w, m, files, t).value == files.snapshots[t] + Laid(sections)
  {
    hide SectionFor, SectionsFor, Join, Laid;
    var sels := w.tasks[t].contextFrom;
    SectionsInOrder(w, m, files, sels);
    var sections := SectionsFor(w, m, files, sels).value;
    JoinIsLaid(sections);
    forall i | 0 <= i < |sections| ensures sections[i].footer == files.encode("\n--- end dependency context ---\n") {
      assert SectionFor(w, m, files, sels[i]).value == sections[i];
    }
  }

  /** The composed prompt is bounded by the task's own text and the budgets of its selections,
    * whatever size the artifacts have. */
  lemma {:induction false} PromptBounded(w: Workflow, m: Tasks, files: Files, t: TaskId)
    requires t in w.tasks && Selectable(w, m, w.tasks[t].contextFrom)
    requires PromptFor(w, m, files, t).Ok?
    ensures var sels := w.tasks[t].contextFrom;
            && SectionsFor(w, m, files, sels).Ok?
            && |SectionsFor(w, m, files, sels).value| == |sels|
            && (forall i | 0 <= i < |sels| ::
                  && |SectionsFor(w, m, files, sels).value[i].body| <= sels[i].maxBytes
                  && |SectionsFor(w, m, files, sels).value[i].body| <= 1048576)
            && |PromptFor(w, m, files, t).value|
               <= |files.snapshots[t]| + Budget(SectionsFor(w, m, files, sels).value, sels)
  {
    hide SectionFor, SectionsFor, Join, Budget;
    var sels := w.tasks[t].contextFrom;
    SectionsInOrder(w, m, files, sels);
    forall i | 0 <= i < |sels|
      ensures |SectionsFor(w, m, files, sels).value[i].body| <= Min(sels[i].maxBytes, MAX_CONTEXT_BYTES)
    {
      assert SectionFor(w, m, files, sels[i]) == Ok(SectionsFor(w, m, files, sels).value[i]);
    }
    JoinBounded(SectionsFor(w, m, files, sels).value, sels);
  }

  // ---------------------------------------------------------------- the loop

  lemma {:induction false} SectionsFailEarly(w: Workflow, m: Tasks, files: Files, sels: seq<Selection>, i: nat)
    requires Selectable(w, m, sels) && i <= |sels| && SectionsFor(w, m, files, sels[..i]).Err?
    ensures SectionsFor(w, m, files, sels) == SectionsFor(w, m, files, sels[..i])
    decreases |sels| - i
  {
    if i == |sels| {
      assert sels[..i] == sels;
    } else {
      assert sels[..i + 1][..i] == sels[..i];
      SectionsFailEarly(w, m, files, sels, i + 1);
    }
  }

  /** What the loop has put together after the first `i` selections, or the error it met. */
  function Composed(w: Workflow, m: Tasks, files: Files, t: TaskId, i: nat): Result<Bytes>
    requires t in files.snapshots && t in w.tasks && i <= |w.tasks[t].contextFrom| && Selectable(w, m, w.tasks[t].contextFrom)
  {
    var sections :- SectionsFor(w, m, files, w.tasks[t].contextFrom[..i]);
    Ok(files.snapshots[t] + Join(sections))
  }

  lemma ComposedAtEnds(w: Workflow, m: Tasks, files: Files, t: TaskId)
    requires t in files.snapshots && t in w.tasks && Selectable(w, m, w.tasks[t].contextFrom)
    ensures Composed(w, m, files, t, 0) == Ok(files.snapshots[t])
    ensures Composed(w, m, files, t, |w.tasks[t].contextFrom|) == PromptFor(w, m, files, t)
  {
    var sels := w.tasks[t].contextFrom;
    assert sels[..0] == [] && sels[..|sels|] == sels;
    assert files.snapshots[t] + Join([]) == files.snapshots[t];
    hide SectionFor;
  }

  /** One turn of the loop: the next section is appended, or its error is the result. */
  lemma ComposeStep(w: Workflow, m: Tasks, files: Files, t: TaskId, i: nat)
    requires t in files.snapshots && t in w.tasks && i < |w.tasks[t].contextFrom|
    requires Selectable(w, m, w.tasks[t].contextFrom) && Composed(w, m, files, t, i).Ok?
    ensures var section := SectionFor(w, m, files, w.tasks[t].contextFrom[i]);
            && (section.Ok? ==> Composed(w, m, files, t, i + 1)
                                == Ok(Composed(w, m, files, t, i).value
                                      + section.value.header + section.value.body + section.value.footer))
            && (section.Err? ==> PromptFor(w, m, files, t) == Err(section.error))
  {
    hide SectionFor;
    var sels := w.tasks[t].contextFrom;
    assert sels[..i + 1][..i] == sels[..i];
    var section := SectionFor(w, m, files, sels[i]);
    if section.Err? {
      SectionsFailEarly(w, m, files, sels, i + 1);
    } else {
      var front := SectionsFor(w, m, files, sels[..i]).value;
      assert (front + [section.value])[..|front|] == front;
      var before, last := files.snapshots[t], section.value;
      assert before + (Join(front) + last.header + last.body + last.footer)
          == before + Join(front) + last.header + last.body + last.footer;
    }
  }

  method ComposePrompt(w: Workflow, state: WorkflowState, files: Files, t: TaskId) returns (r: Result<Bytes>)
    requires t in w.tasks && Selectable(w, state.tasks, w.tasks[t].contextFrom)
    ensures r == PromptFor(w, state.tasks, files, t)
  {
    if t !in files.snapshots {
      return Err(MissingSnapshot);
    }
    hide SectionFor, Composed, PromptFor;
    var prompt := files.snapshots[t];
    var sels := w.tasks[t].contextFrom;
    ComposedAtEnds(w, state.tasks, files, t);
    for i := 0 to |sels|
      invariant Composed(w, state.tasks, files, t, i) == Ok(prompt)
    {
      ComposeStep(w, state.tasks, files, t, i);
      var section := SectionFor(w, state.tasks, files, sels[i]);
      if section.Err? {
        return Err(section.error);
      }
      prompt := prompt + section.value.header + section.value.body + section.value.footer;
    }
    r := Ok(prompt);
  }
}
