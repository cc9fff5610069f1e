/** The life of one dispatch: the lifecycle table, and the control flow of `dispatch_legacy` with what
  * it leaves behind: the transitions, the ledger records and the text on standard output. */
module Dispatch {
  import opened Workflows
  import opened Receipts
  import opened Text

  // ---------------------------------------------------------------- the lifecycle table

  datatype State = Created | Preflighting | PreflightFailed | Ready | WorkspacePreparing | WorkspaceReady
                 | Running | Succeeded | Failed | TimedOut | Cancelled | Blocked

  predicate Terminal(s: State) {
    s.PreflightFailed? || s.Succeeded? || s.Failed? || s.TimedOut? || s.Cancelled? || s.Blocked?
  }

  predicate Allowed(from: State, to: State) {
    match from
    case Created => to.Preflighting?
    case Preflighting => to.PreflightFailed? || to.Ready? || to.Failed?
    case Ready => to.WorkspacePreparing? || to.Running? || to.Failed?
    case WorkspacePreparing => to.WorkspaceReady? || to.Failed?
    case WorkspaceReady => to.Running? || to.Failed?
    case Running => to.Succeeded? || to.Failed? || to.TimedOut? || to.Cancelled?
    case _ => false
  }

  /** From where each state can be entered. */
  function Predecessors(to: State): set<State> {
    match to
    case Created => {}
    case Preflighting => {Created}
    case PreflightFailed => {Preflighting}
    case Ready => {Preflighting}
    case WorkspacePreparing => {Ready}
    case WorkspaceReady => {WorkspacePreparing}
    case Running => {Ready, WorkspaceReady}
    case Succeeded => {Running}
    case TimedOut => {Running}
    case Cancelled => {Running}
    case Failed => {Preflighting, Ready, WorkspacePreparing, WorkspaceReady, Running}
    case Blocked => {}
  }

  lemma EnteredOnlyFrom(from: State, to: State)
    ensures Allowed(from, to) <==> from in Predecessors(to)
  {
  }

  /** A log that starts at `created` and makes only allowed transitions. */
  predicate LegalPath(log: seq<State>) {
    && log != [] && log[0] == Created
    && forall i | 0 <= i < |log| - 1 :: Allowed(log[i], log[i + 1])
  }

  /** How far along its life a dispatch in this state is. */
  function Stage(s: State): nat {
    match s
    case Created => 0
    case Preflighting => 1
    case Ready => 2
    case WorkspacePreparing => 3
    case WorkspaceReady => 4
    case Running => 5
    case _ => 6
  }

  lemma {:induction false} StagesRise(log: seq<State>, i: nat, j: nat)
    requires LegalPath(log) && i <= j < |log|
    ensures Stage(log[i]) + (j - i) <= Stage(log[j])
  {
    if i < j {
      StagesRise(log, i, j - 1);
      assert Allowed(log[j - 1], log[j - 1 + 1]);
    }
  }

  /** No legal log is longer than seven entries, repeats a state, goes on after a terminal state or
    * reaches `blocked`. */
  lemma LogIsBounded(log: seq<State>)
    requires LegalPath(log)
    ensures |log| <= 7
    ensures forall i, j | 0 <= i < j < |log| :: log[i] != log[j]
    ensures forall i | 0 <= i < |log| - 1 :: !Terminal(log[i])
    ensures Blocked !in log
  {
    StagesRise(log, 0, |log| - 1);
    forall i, j | 0 <= i < j < |log| ensures log[i] != log[j] {
      StagesRise(log, i, j);
    }
    forall i | 0 <= i < |log| - 1 ensures !Terminal(log[i]) {
      assert Allowed(log[i], log[i + 1]);
    }
    forall i | 0 <= i < |log| ensures log[i] != Blocked {
      assert i > 0 ==> Allowed(log[i - 1], log[i - 1 + 1]);
    }
  }

  /** A log that ends in the given state. */
  function Witness(s: State): seq<State> {
    match s
    case Created => [Created]
    case Preflighting => [Created, Preflighting]
    case PreflightFailed => [Created, Preflighting, PreflightFailed]
    case Ready => [Created, Preflighting, Ready]
    case WorkspacePreparing => [Created, Preflighting, Ready, WorkspacePreparing]
    case WorkspaceReady => [Created, Preflighting, Ready, WorkspacePreparing, WorkspaceReady]
    case Running => [Created, Preflighting, Ready, Running]
    case _ => [Created, Preflighting, Ready, Running, s]
  }

  /** The table leads to every state but `blocked`. */
  lemma ReachableStates(s: State)
    ensures (exists log :: LegalPath(log) && log[|log| - 1] == s) <==> s != Blocked
  {
    if s == Blocked {
      forall log | LegalPath(log) ensures log[|log| - 1] != s {
        LogIsBounded(log);
      }
    } else {
      var log := Witness(s);
      assert LegalPath(log) && log[|log| - 1] == s;
    }
  }

  class Lifecycle {
    var state: State
    var transitions: seq<State>

    ghost predicate Valid()
      reads this
    {
      LegalPath(transitions) && state == transitions[|transitions| - 1]
    }

    constructor ()
      ensures Valid() && transitions == [Created]
    {
      state := Created;
      transitions := [Created];
    }

    /** `transition`: refused if the table does not allow it. Otherwise the state has changed even if
      * writing `run.json` then fails, which raises, too. */
    method Transition(to: State, writeFails: bool) returns (raised: bool)
      requires Valid()
      modifies this
      ensures Valid()
      ensures if Allowed(old(state), to) then transitions == old(transitions) + [to] && raised == writeFails
              else transitions == old(transitions) && raised
    {
      if !Allowed(state, to) {
        return true;
      }
      if Terminal(state) {
        assert false;
      }
      state := to;
      transitions := transitions + [to];
      raised := writeFails;
    }
  }

  // ---------------------------------------------------------------- the surroundings

  datatype Event = Started | Finished

  /** A record for the ledger, as far as it says how the dispatch went. */
  datatype Record = Record(event: Event, exit: Option<int>, outcome: Option<string>)

  /** The provider's process: it could not be executed, or it ran with this standard output. */
  datatype Child = NotExecuted | Ran(output: string, returnCode: int, timedOut: bool, cancelled: bool)

  /** Where an exception that nothing catches can come from. */
  datatype Point = CreateStore | EnterCreated | EnterPreflighting | ResolveBinary | RecordRequest | Preflight
                 | EnterReady | StartRecord | FinishRecord | EnterPreparing | EnterWorkspace | Prepare | EnterRunning
                 | Process

  /** Where the final bookkeeping fails, if it does. */
  datatype Finalizing = Unfailing | FailsAt(step: FinalStep, caught: bool)
  datatype FinalStep = TheRecord | TheTransition | TheResult

  /** All that a dispatch finds out about its surroundings, in the order in which it asks. */
  datatype World = World(
    receipts: bool, usageError: bool, alreadyExists: bool,
    preflightBinary: bool, binaryFound: bool, missingBinaryFinished: bool, timeoutAvailable: bool,
    startBeforePrompt: bool, promptReadable: bool, workspaceError: bool, child: Child,
    crashes: set<Point>, finalizing: Finalizing)

  datatype Outcome = Returned(exitCode: int) | Raised

  /** `run_process`: the exit code reported for a child. */
  function ExitCode(child: Child): int {
    match child
    case NotExecuted => 127
    case Ran(_, code, timedOut, cancelled) =>
      var exit := if timedOut then 124 else if cancelled then 130 else if code < 0 then 128 - code else code;
      if exit > 255 then 255 else exit
  }

  function EndState(child: Child): State {
    if child.Ran? && child.timedOut then TimedOut
    else if child.Ran? && child.cancelled then Cancelled
    else if ExitCode(child) == 0 then Succeeded
    else Failed
  }

  /** The outcome in the ledger, which goes by the exit code alone. */
  function LedgerOutcome(exit: int): string {
    if exit == 124 then "timeout" else if exit == 0 then "ok" else "error"
  }

  function FinishedRecord(exit: int): Record {
    Record(Finished, Some(exit), Some(LedgerOutcome(exit)))
  }

  const STARTED_RECORD := Record(Started, None, None)

  function ChildOutput(child: Child): string {
    if child.Ran? then child.output else ""
  }

  // ---------------------------------------------------------------- what a dispatch leaves behind

  /** The last ledger record is a finished one. */
  predicate HasFinished(ledger: seq<Record>) {
    ledger != [] && ledger[|ledger| - 1].event == Finished
  }

  /** At most one started record, before at most one finished record for the given exit code. */
  predicate LedgerShape(ledger: seq<Record>, exit: int) {
    || ledger == [] || ledger == [STARTED_RECORD] || ledger == [FinishedRecord(exit)]
    || ledger == [STARTED_RECORD, FinishedRecord(exit)]
  }

  /** The receipt to print. */
  function ReceiptFor(w: World, ledger: seq<Record>): Option<Record> {
    if w.receipts && HasFinished(ledger) then Some(ledger[|ledger| - 1]) else None
  }

  /** The text on standard output when the sentinel has been printed. */
  function PrintedText(c: Codec<Record>, w: World, exit: int, log: seq<State>, ledger: seq<Record>): string {
    if Running in log then ChildOutput(w.child) + Payload(c, exit, true, ReceiptFor(w, ledger))
    else Payload(c, exit, false, ReceiptFor(w, ledger))
  }

  /** The trace of a dispatch: a legal log, if any, and a ledger in shape. A return has printed one
    * sentinel, for the exit code it returns, after whatever the child printed. An exception has printed
    * the same, or only what the child printed, or nothing. */
  ghost predicate Trace(c: Codec<Record>, w: World, r: Outcome, log: seq<State>, ledger: seq<Record>, stdout: string) {
    && (log != [] ==> LegalPath(log))
    && exists exit: int ::
         && 0 <= exit <= 255 && LedgerShape(ledger, exit) && (r.Returned? ==> r.exitCode == exit)
         && (|| stdout == PrintedText(c, w, exit, log, ledger)
             || (r.Raised? && (stdout == "" || stdout == ChildOutput(w.child))))
  }

  /** Nothing raises, and a provider that is not looked for before the run names its executable. */
  predicate Undisturbed(w: World) {
    w.crashes == {} && w.finalizing.Unfailing? && (w.preflightBinary || w.binaryFound)
  }

  /** Usage errors end a dispatch before it exists. */
  predicate Refused(w: World) {
    w.usageError || w.alreadyExists
  }

  predicate MissingBinary(w: World) {
    w.preflightBinary && !w.binaryFound
  }

  /** How an undisturbed dispatch ends. */
  function Verdict(w: World): (State, int)
    requires !Refused(w)
  {
    if MissingBinary(w) || !w.timeoutAvailable then (PreflightFailed, 127)
    else if !w.promptReadable then (Failed, 66)
    else if w.workspaceError then (Failed, 1)
    else (EndState(w.child), ExitCode(w.child))
  }

  /** The records an undisturbed dispatch makes, which also are what its receipt shows; a failing append to
    * the ledger file is ignored and changes none of them: nothing when it is refused or has no timeout
    * tool, and no started record where it fails too early for one. */
  function LedgerFor(w: World): seq<Record> {
    if Refused(w) then []
    else if MissingBinary(w) then (if w.missingBinaryFinished then [FinishedRecord(127)] else [])
    else if !w.timeoutAvailable then []
    else (if w.startBeforePrompt || w.promptReadable then [STARTED_RECORD] else []) + [FinishedRecord(Verdict(w).1)]
  }

  /** What a caller is to see of a started child: the exit code by how it ended, and the state. */
  predicate ChildEndsAs(child: Child, exit: int, state: State) {
    match child
    case NotExecuted => exit == 127 && state == Failed
    case Ran(_, code, timedOut, cancelled) =>
      if timedOut then exit == 124 && state == TimedOut
      else if cancelled then exit == 130 && state == Cancelled
      else if code < 0 then exit == (if -code <= 127 then 128 + -code else 255) && state == Failed
      else exit == (if code <= 255 then code else 255) && state == (if code == 0 then Succeeded else Failed)
  }

  /** The exit code and end state of an undisturbed dispatch, and the one finished record of it, by the
    * first thing that goes wrong. */
  predicate EndsAs(w: World, exit: int, state: State, ledger: seq<Record>) {
    var outcome := if exit == 124 then "timeout" else if exit == 0 then "ok" else "error";
    var finished := Record(Finished, Some(exit), Some(outcome));
    var started := Record(Started, None, None);
    if w.preflightBinary && !w.binaryFound then
      exit == 127 && state == PreflightFailed && ledger == (if w.missingBinaryFinished then [finished] else [])
    else if !w.timeoutAvailable then exit == 127 && state == PreflightFailed && ledger == []
    else if !w.promptReadable then
      exit == 66 && state == Failed && ledger == (if w.startBeforePrompt then [started] else []) + [finished]
    else if w.workspaceError then exit == 1 && state == Failed && ledger == [started, finished]
    else ChildEndsAs(w.child, exit, state) && ledger == [started, finished]
  }

  lemma VerdictEndsAs(w: World)
    requires Undisturbed(w) && !Refused(w)
    ensures EndsAs(w, Verdict(w).1, Verdict(w).0, LedgerFor(w))
  {
  }

  // ---------------------------------------------------------------- the control flow

  /** A dispatch that is abandoned before it has printed anything. */
  lemma CrashTrace(c: Codec<Record>, w: World, log: seq<State>, ledger: seq<Record>, exit: int)
    requires log != [] ==> LegalPath(log)
    requires 0 <= exit <= 255 && LedgerShape(ledger, exit)
    ensures Trace(c, w, Raised, log, ledger, "")
  {
  }

  /** `_finish_early` */
  method FinishEarly(c: Codec<Record>, w: World, lifecycle: Lifecycle, state: State, exit: int, receipt: Option<Record>)
    returns (r: Outcome, stdout: string)
    requires lifecycle.Valid() && Allowed(lifecycle.state, state)
    modifies lifecycle
    ensures lifecycle.Valid() && lifecycle.transitions == old(lifecycle.transitions) + [state]
    ensures stdout == Payload(c, exit, false, receipt)
    ensures r == Returned(exit) || (r == Raised && !w.finalizing.Unfailing?)
  {
    hide LegalPath, Payload;
    var raised := lifecycle.Transition(state, w.finalizing.FailsAt? && w.finalizing.step.TheTransition?);
    if !raised {
      raised := w.finalizing.FailsAt? && w.finalizing.step.TheResult?;
    }
    stdout := EmitSentinel(c, "", exit, false, receipt);
    r := if raised && !w.finalizing.caught then Raised else Returned(exit);
  }

  /** `_finish_early` with the receipt for a ledger. */
  method EndEarly(c: Codec<Record>, w: World, lifecycle: Lifecycle, state: State, exit: int, ledger: seq<Record>)
    returns (r: Outcome, stdout: string)
    requires lifecycle.Valid() && Allowed(lifecycle.state, state) && Running !in lifecycle.transitions && !state.Running?
    requires 0 <= exit <= 255 && LedgerShape(ledger, exit)
    modifies lifecycle
    ensures lifecycle.Valid() && lifecycle.state == state
    ensures Trace(c, w, r, lifecycle.transitions, ledger, stdout)
    ensures Undisturbed(w) ==> r == Returned(exit)
  {
    hide LegalPath, Payload, LedgerShape;
    r, stdout := FinishEarly(c, w, lifecycle, state, exit, ReceiptFor(w, ledger));
    assert stdout == PrintedText(c, w, exit, lifecycle.transitions, ledger);
  }

  /** The opening of `dispatch_legacy`. */
  method OpenDispatch(w: World) returns (raised: bool, lifecycle: Lifecycle?, log: seq<State>)
    ensures raised ==> w.crashes != {}
    ensures lifecycle != null ==> fresh(lifecycle) && lifecycle.Valid() && log == lifecycle.transitions
    ensures log != [] ==> LegalPath(log)
    ensures !raised ==> lifecycle != null && log == [Created, Preflighting]
  {
    if CreateStore in w.crashes {
      return true, null, [];
    }
    lifecycle := new Lifecycle();
    if EnterCreated in w.crashes {
      return true, lifecycle, lifecycle.transitions;
    }
    raised := lifecycle.Transition(Preflighting, EnterPreflighting in w.crashes);
    log := lifecycle.transitions;
  }

  /** The search for the provider and its preflight. When the dispatch does not end here, it is ready. */
  method PreflightProvider(c: Codec<Record>, w: World, lifecycle: Lifecycle)
    returns (end: Option<Outcome>, ledger: seq<Record>, stdout: string)
    requires lifecycle.Valid() && lifecycle.transitions == [Created, Preflighting] && !Refused(w)
    modifies lifecycle
    ensures lifecycle.Valid()
    ensures end.None? ==> lifecycle.transitions == [Created, Preflighting, Ready] && ledger == [] && stdout == ""
    ensures end.None? ==> !MissingBinary(w) && w.timeoutAvailable
    ensures end.Some? ==> Trace(c, w, end.value, lifecycle.transitions, ledger, stdout)
    ensures end.Some? && Undisturbed(w) ==> end.value == Returned(127) && lifecycle.state == PreflightFailed
    ensures end.Some? && Undisturbed(w) ==> MissingBinary(w) || !w.timeoutAvailable
    ensures end.Some? && Undisturbed(w) ==> ledger == LedgerFor(w)
  {
    hide Trace, LegalPath;
    ledger, stdout := [], "";
    CrashTrace(c, w, lifecycle.transitions, ledger, 0);
    if ResolveBinary in w.crashes {
      return Some(Raised), ledger, stdout;
    }
    if MissingBinary(w) || !w.timeoutAvailable {
      if MissingBinary(w) && w.missingBinaryFinished {
        if FinishRecord in w.crashes {
          return Some(Raised), ledger, stdout;
        }
        ledger := [FinishedRecord(127)];
      }
      if RecordRequest in w.crashes {
        CrashTrace(c, w, lifecycle.transitions, ledger, 127);
        return Some(Raised), ledger, stdout;
      }
      var r;
      r, stdout := EndEarly(c, w, lifecycle, PreflightFailed, 127, ledger);
      return Some(r), ledger, stdout;
    }
    if !w.binaryFound || Preflight in w.crashes {
      return Some(Raised), ledger, stdout;
    }
    var raised := lifecycle.Transition(Ready, EnterReady in w.crashes);
    if raised {
      CrashTrace(c, w, lifecycle.transitions, ledger, 0);
      return Some(Raised), ledger, stdout;
    }
    end := None;
  }

  /** Reading the prompt, with the started record before or after it. */
  method ReadPrompt(c: Codec<Record>, w: World, lifecycle: Lifecycle)
    returns (end: Option<Outcome>, ledger: seq<Record>, stdout: string)
    requires lifecycle.Valid() && lifecycle.transitions == [Created, Preflighting, Ready]
    requires !Refused(w) && !MissingBinary(w) && w.timeoutAvailable
    modifies lifecycle
    ensures lifecycle.Valid()
    ensures end.None? ==> lifecycle.transitions == old(lifecycle.transitions) && ledger == [STARTED_RECORD] && stdout == ""
    ensures end.None? ==> w.promptReadable
    ensures end.Some? ==> Trace(c, w, end.value, lifecycle.transitions, ledger, stdout)
    ensures end.Some? && Undisturbed(w) ==> end.value == Returned(66) && lifecycle.state == Failed
    ensures end.Some? && Undisturbed(w) ==> !w.promptReadable && ledger == LedgerFor(w)
  {
    hide Trace, LegalPath;
    ledger, stdout := [], "";
    CrashTrace(c, w, lifecycle.transitions, [], 0);
    CrashTrace(c, w, lifecycle.transitions, [STARTED_RECORD], 0);
    if w.startBeforePrompt {
      if StartRecord in w.crashes {
        return Some(Raised), ledger, stdout;
      }
      ledger := [STARTED_RECORD];
    }
    if RecordRequest in w.crashes {
      return Some(Raised), ledger, stdout;
    }
    if !w.promptReadable {
      if FinishRecord in w.crashes {
        return Some(Raised), ledger, stdout;
      }
      ledger := ledger + [FinishedRecord(66)];
      var r;
      r, stdout := EndEarly(c, w, lifecycle, Failed, 66, ledger);
      return Some(r), ledger, stdout;
    }
    if !w.startBeforePrompt {
      if StartRecord in w.crashes {
        return Some(Raised), ledger, stdout;
      }
      ledger := [STARTED_RECORD];
    }
    end := None;
  }

  /** The workspace. When the dispatch does not end here, the provider's process is about to run. */
  method PrepareWorkspace(c: Codec<Record>, w: World, lifecycle: Lifecycle)
    returns (end: Option<Outcome>, ledger: seq<Record>, stdout: string)
    requires lifecycle.Valid() && lifecycle.transitions == [Created, Preflighting, Ready]
    requires !Refused(w) && !MissingBinary(w) && w.timeoutAvailable && w.promptReadable
    modifies lifecycle
    ensures lifecycle.Valid()
    ensures end.None? ==> lifecycle.state == Running && ledger == [STARTED_RECORD] && stdout == "" && !w.workspaceError
    ensures end.Some? ==> Trace(c, w, end.value, lifecycle.transitions, ledger, stdout)
    ensures end.Some? && Undisturbed(w) ==> end.value == Returned(1) && lifecycle.state == Failed
    ensures end.Some? && Undisturbed(w) ==> w.workspaceError && ledger == LedgerFor(w)
  {
    hide Trace, LegalPath;
    ledger, stdout := [STARTED_RECORD], "";
    var raised := lifecycle.Transition(WorkspacePreparing, EnterPreparing in w.crashes);
    CrashTrace(c, w, lifecycle.transitions, ledger, 0);
    if raised {
      return Some(Raised), ledger, stdout;
    }
    if w.workspaceError {
      if FinishRecord in w.crashes {
        return Some(Raised), ledger, stdout;
      }
      ledger := [STARTED_RECORD, FinishedRecord(1)];
      var r;
      r, stdout := EndEarly(c, w, lifecycle, Failed, 1, ledger);
      return Some(r), ledger, stdout;
    }
    raised := lifecycle.Transition(WorkspaceReady, EnterWorkspace in w.crashes);
    CrashTrace(c, w, lifecycle.transitions, ledger, 0);
    if raised || Prepare in w.crashes {
      return Some(Raised), ledger, stdout;
    }
    raised := lifecycle.Transition(Running, EnterRunning in w.crashes);
    CrashTrace(c, w, lifecycle.transitions, ledger, 0);
    if raised {
      return Some(Raised), ledger, stdout;
    }
    end := None;
  }

  /** The provider's process and the final bookkeeping. */
  method RunProvider(c: Codec<Record>, w: World, lifecycle: Lifecycle)
    returns (r: Outcome, ledger: seq<Record>, stdout: string)
    requires lifecycle.Valid() && lifecycle.state == Running
    modifies lifecycle
    ensures lifecycle.Valid()
    ensures Trace(c, w, r, lifecycle.transitions, ledger, stdout)
    ensures Undisturbed(w) ==> r == Returned(ExitCode(w.child)) && lifecycle.state == EndState(w.child)
    ensures Undisturbed(w) ==> ChildEndsAs(w.child, r.exitCode, lifecycle.state)
    ensures Undisturbed(w) ==> ledger == [STARTED_RECORD, FinishedRecord(ExitCode(w.child))]
  {
    assert Running in lifecycle.transitions;
    hide LegalPath, Payload;
    var exit := ExitCode(w.child);
    ledger, stdout := [STARTED_RECORD], ChildOutput(w.child);
    if Process in w.crashes {
      assert LedgerShape(ledger, exit);
      return Raised, ledger, stdout;
    }
    var raised := w.finalizing.FailsAt? && w.finalizing.step.TheRecord?;
    if !raised {
      ledger := [STARTED_RECORD, FinishedRecord(exit)];
      raised := lifecycle.Transition(EndState(w.child), w.finalizing.FailsAt? && w.finalizing.step.TheTransition?);
      if !raised {
        raised := w.finalizing.FailsAt? && w.finalizing.step.TheResult?;
      }
    }
    stdout := EmitSentinel(c, stdout, exit, true, ReceiptFor(w, ledger));
    assert LedgerShape(ledger, exit) && stdout == PrintedText(c, w, exit, lifecycle.transitions, ledger);
    r := if raised && !w.finalizing.caught then Raised else Returned(exit);
  }

  lemma EmptyLedger()
    ensures LedgerShape([], 0)
  {
  }

  /** `dispatch_legacy` */
  method DispatchLegacy(c: Codec<Record>, w: World)
    returns (r: Outcome, log: seq<State>, ledger: seq<Record>, stdout: string)
    ensures Trace(c, w, r, log, ledger, stdout)
    ensures Refused(w) ==> r == Returned(64) && log == [] && ledger == []
    ensures Undisturbed(w) ==> r.Returned? && ledger == LedgerFor(w)
    ensures Undisturbed(w) && !Refused(w) ==> log != [] && (log[|log| - 1], r.exitCode) == Verdict(w)
    ensures Undisturbed(w) && !Refused(w) ==> EndsAs(w, r.exitCode, log[|log| - 1], ledger)
  {
    log, ledger, stdout := [], [], "";
    if Refused(w) {
      stdout := EmitSentinel(c, "", 64, false, None);
      assert LedgerShape(ledger, 64) && stdout == PrintedText(c, w, 64, log, ledger);
      return Returned(64), log, ledger, stdout;
    }
    hide Trace, LegalPath, Payload, PrintedText, LedgerShape, ExitCode, EndState, EndsAs;
    if Undisturbed(w) {
      VerdictEndsAs(w);
    }
    var raised, lifecycle;
    raised, lifecycle, log := OpenDispatch(w);
    if raised {
      assert LedgerShape([], 0) by { EmptyLedger(); }
      CrashTrace(c, w, log, ledger, 0);
      return Raised, log, ledger, stdout;
    }
    var end;
    end, ledger, stdout := PreflightProvider(c, w, lifecycle);
    if end.None? {
      end, ledger, stdout := ReadPrompt(c, w, lifecycle);
    }
    if end.None? {
      end, ledger, stdout := PrepareWorkspace(c, w, lifecycle);
    }
    if end.None? {
      r, ledger, stdout := RunProvider(c, w, lifecycle);
    } else {
      r := end.value;
    }
    log := lifecycle.transitions;
  }

  // ---------------------------------------------------------------- what the trace means

  /** The exit code of a record is read off the record. */
  ghost predicate ReadsRecords(c: Codec<Record>) {
    Lawful(c) && forall r :: c.exit(r) == r.exit
  }

  /** The text before the sentinel's own lines. */
  function Before(w: World, log: seq<State>): string {
    if Running in log then ChildOutput(w.child) + "\n" else ""
  }

  /** How the shim's own lines split off from the text before them. */
  lemma PayloadLines(c: Codec<Record>, before: string, exit: int, receipt: Option<Record>)
    requires Lawful(c) && Complete(before)
    ensures Lines(before + Payload(c, exit, false, receipt))
            == Lines(before) + (if receipt.Some? then [ReceiptLine(c, receipt.value)] else []) + [DoneLine(exit)]
  {
    hide ReceiptLine, DoneLine, Lines, Lawful;
    if receipt.Some? {
      EmittedLines(c, before, exit, receipt.value);
      assert Payload(c, exit, false, receipt) == Pair(c, exit, receipt.value);
    } else {
      OutputLines(c, exit, STARTED_RECORD);
      FirstLine(DoneLine(exit), "");
      NoLines();
      assert DoneLine(exit) + "\n" + "" == DoneLine(exit) + "\n" == Payload(c, exit, false, receipt);
      LinesAppend(before, DoneLine(exit) + "\n");
    }
  }

  /** What a returned dispatch has printed, with the leading newline counted to the child's output. */
  lemma PrintedParts(c: Codec<Record>, w: World, r: Outcome, log: seq<State>, ledger: seq<Record>, stdout: string)
    requires Trace(c, w, r, log, ledger, stdout) && r.Returned?
    ensures stdout == Before(w, log) + Payload(c, r.exitCode, false, ReceiptFor(w, ledger)) && Complete(Before(w, log))
    ensures HasFinished(ledger) ==> ledger[|ledger| - 1] == FinishedRecord(r.exitCode)
  {
    hide ReceiptLine, DoneLine, LegalPath, ReceiptFor, FinishedRecord;
    var receipt := ReceiptFor(w, ledger);
    assert Payload(c, r.exitCode, true, receipt) == "\n" + Payload(c, r.exitCode, false, receipt);
  }

  /** Standard output of a returned dispatch, line by line: the child's lines, the receipt if receipts
    * are on and a finished record was made, and one sentinel with the returned exit code. */
  lemma {:induction false} OutputLineByLine(c: Codec<Record>, w: World, r: Outcome, log: seq<State>, ledger: seq<Record>, stdout: string)
    requires ReadsRecords(c) && Trace(c, w, r, log, ledger, stdout) && r.Returned?
    ensures var receipt := if w.receipts && HasFinished(ledger) then [ReceiptLine(c, FinishedRecord(r.exitCode))] else [];
            Lines(stdout) == Lines(Before(w, log)) + receipt + [DoneLine(r.exitCode)]
    ensures Lines(stdout)[|Lines(stdout)| - 1] == "SHIM-DONE exit=" + IntText(r.exitCode)
  {
    assert DoneLine(r.exitCode) == "SHIM-DONE exit=" + IntText(r.exitCode);
    hide ReceiptLine, DoneLine, Lines, Lawful, Trace, FinishedRecord, Payload, Before;
    PrintedParts(c, w, r, log, ledger, stdout);
    PayloadLines(c, Before(w, log), r.exitCode, ReceiptFor(w, ledger));
  }

  /** With receipts on, parsing all that a returned dispatch printed gives the finished record of the
    * ledger, whatever the child printed. A dispatch that ran no child prints a receipt in no other case. */
  lemma PrintedReceiptParses(c: Codec<Record>, w: World, r: Outcome, log: seq<State>, ledger: seq<Record>, stdout: string)
    requires ReadsRecords(c) && Trace(c, w, r, log, ledger, stdout) && r.Returned?
    ensures w.receipts && HasFinished(ledger) ==>
              Parse(c, stdout) == Receipt(ledger[|ledger| - 1]) && ledger[|ledger| - 1].exit == Some(r.exitCode)
    ensures Running !in log && !(w.receipts && HasFinished(ledger)) ==> Parse(c, stdout) == Rejected(MissingPair)
  {
    hide ReceiptLine, DoneLine, Lines, Lawful, Parse, Trace;
    var exit := r.exitCode;
    PrintedParts(c, w, r, log, ledger, stdout);
    assert 0 <= exit by { ExitInRange(c, w, r, log, ledger, stdout); }
    if w.receipts && HasFinished(ledger) {
      assert Payload(c, exit, false, ReceiptFor(w, ledger)) == Pair(c, exit, FinishedRecord(exit));
      EmittedPairParses(c, Before(w, log), exit, FinishedRecord(exit));
    } else if Running !in log {
      OutputLineByLine(c, w, r, log, ledger, stdout);
      NoLines();
      OneLineIsNoReceipt(c, stdout);
    }
  }

  lemma ExitInRange(c: Codec<Record>, w: World, r: Outcome, log: seq<State>, ledger: seq<Record>, stdout: string)
    requires Trace(c, w, r, log, ledger, stdout) && r.Returned?
    ensures 0 <= r.exitCode <= 255
  {
    hide LegalPath, PrintedText;
  }

  lemma OneLineIsNoReceipt(c: Codec<Record>, stdout: string)
    requires |Lines(stdout)| < 2
    ensures Parse(c, stdout) == Rejected(MissingPair)
  {
    hide Lines;
  }

  // ---------------------------------------------------------------- what an accepted receipt proves

  /** A receipt was printed. */
  predicate ReceiptPrinted(w: World, ledger: seq<Record>) {
    w.receipts && HasFinished(ledger)
  }

  /** A line reads as a receipt for an exit code. */
  predicate ReadsAsReceipt(c: Codec<Record>, line: string, exit: int, r: Record) {
    StartsWith(line, RESULT_PREFIX) && c.decode(line[|RESULT_PREFIX|..]) == Object(r) && c.exit(r) == Some(exit)
  }

  /** The last line of the child's output; the newline before the sentinel completes it. */
  function LastChildLine(child: Child): string {
    var lines := Lines(ChildOutput(child) + "\n");
    if lines == [] then "" else lines[|lines| - 1]
  }

  lemma {:induction false} SomeLines(s: string)
    ensures Lines(s + "\n") != []
  {
    var t := s + "\n";
    assert t != "";
  }

  lemma DoneLineParts(exit: nat)
    ensures DoneLine(exit) != "" && IsDone(DoneLine(exit)) && ParseNumeral(DoneLine(exit)[|DONE_PREFIX|..]) == exit
  {
    assert DoneLine(exit)[|DONE_PREFIX|..] == IntText(exit);
    ParseOfNumeral(exit);
  }

  /** Parsing lines that end in a sentinel depends on the line before it alone. */
  lemma SentinelLast(c: Codec<Record>, stdout: string, lines: seq<string>, exit: int, r: Record)
    requires lines != [] && 0 <= exit && Lines(stdout) == lines + [DoneLine(exit)]
    ensures Parse(c, stdout) == Receipt(r) <==> ReadsAsReceipt(c, lines[|lines| - 1], exit, r)
  {
    hide Lines, DoneLine, IsDone, ParseNumeral;
    DoneLineParts(exit);
    var all := lines + [DoneLine(exit)];
    assert DropBlank(all) == all && all[|all| - 2] == lines[|lines| - 1];
  }

  /** A child ran and no receipt was printed: what the parser accepts then is the child's last line,
    * if that reads as a receipt for the exit code that the dispatch returned. */
  lemma WithoutReceiptIff(c: Codec<Record>, w: World, r: Outcome, log: seq<State>, ledger: seq<Record>, stdout: string, x: Record)
    requires ReadsRecords(c) && Trace(c, w, r, log, ledger, stdout) && r.Returned?
    requires Running in log && !ReceiptPrinted(w, ledger)
    ensures Parse(c, stdout) == Receipt(x) <==> ReadsAsReceipt(c, LastChildLine(w.child), r.exitCode, x)
  {
    hide Lines, Parse, Trace, DoneLine, ReadsRecords, ReadsAsReceipt;
    OutputLineByLine(c, w, r, log, ledger, stdout);
    ExitInRange(c, w, r, log, ledger, stdout);
    SomeLines(ChildOutput(w.child));
    var lines := Lines(ChildOutput(w.child) + "\n");
    assert Lines(stdout) == lines + [DoneLine(r.exitCode)];
    SentinelLast(c, stdout, lines, r.exitCode, x);
  }

  /** Exactly what the parser makes of a returned dispatch. */
  lemma AcceptedIff(c: Codec<Record>, w: World, r: Outcome, log: seq<State>, ledger: seq<Record>, stdout: string, x: Record)
    requires ReadsRecords(c) && Trace(c, w, r, log, ledger, stdout) && r.Returned?
    ensures Parse(c, stdout) == Receipt(x) <==>
            if ReceiptPrinted(w, ledger) then x == ledger[|ledger| - 1]
            else Running in log && ReadsAsReceipt(c, LastChildLine(w.child), r.exitCode, x)
  {
    hide Parse, Trace, ReadsRecords, ReadsAsReceipt, LastChildLine;
    PrintedReceiptParses(c, w, r, log, ledger, stdout);
    if Running in log && !ReceiptPrinted(w, ledger) {
      WithoutReceiptIff(c, w, r, log, ledger, stdout, x);
    }
  }

  /** An accepted receipt is one that the shim printed, and so the finished record of its ledger, for all
    * that a child may have printed, exactly if a receipt was printed, or no child ran, or the child's
    * last line does not read as a receipt for the returned exit code. */
  lemma AcceptedIsPrintedIff(c: Codec<Record>, w: World, r: Outcome, log: seq<State>, ledger: seq<Record>, stdout: string)
    requires ReadsRecords(c) && Trace(c, w, r, log, ledger, stdout) && r.Returned?
    ensures (Parse(c, stdout).Receipt? ==> ReceiptPrinted(w, ledger) && Parse(c, stdout).value == ledger[|ledger| - 1])
            <==> (ReceiptPrinted(w, ledger) || Running !in log
                  || forall x :: !ReadsAsReceipt(c, LastChildLine(w.child), r.exitCode, x))
  {
    hide Parse, Trace, ReadsRecords, ReadsAsReceipt, LastChildLine;
    forall x
      ensures Parse(c, stdout) == Receipt(x) <==>
              if ReceiptPrinted(w, ledger) then x == ledger[|ledger| - 1]
              else Running in log && ReadsAsReceipt(c, LastChildLine(w.child), r.exitCode, x)
    {
      AcceptedIff(c, w, r, log, ledger, stdout, x);
    }
    if Parse(c, stdout).Receipt? {
      var x := Parse(c, stdout).value;
      assert Parse(c, stdout) == Receipt(x);
    }
  }

  /** A dispatch with receipts off whose child ends with a line of its own that looks like a receipt. */
  function Lookalike(c: Codec<Record>, x: Record): World {
    World(false, false, false, true, true, false, true, false, true, false,
          Ran(ReceiptLine(c, x), 0, false, false), {}, Unfailing)
  }

  lemma SucceededRanChild(log: seq<State>)
    requires LegalPath(log) && log[|log| - 1] == Succeeded
    ensures Running in log
  {
    var i := |log| - 2;
    assert Allowed(log[i], log[i + 1]);
  }

  /** With all that `DispatchLegacy` ensures of it, that dispatch prints no receipt, and the parser
    * accepts the child's line. */
  lemma LookalikeAccepted(c: Codec<Record>, x: Record, r: Outcome, log: seq<State>, ledger: seq<Record>, stdout: string)
    requires ReadsRecords(c) && x.exit == Some(0)
    requires var w := Lookalike(c, x);
             && Trace(c, w, r, log, ledger, stdout) && r.Returned? && ledger == LedgerFor(w)
             && log != [] && (log[|log| - 1], r.exitCode) == Verdict(w)
    ensures var w := Lookalike(c, x);
            Undisturbed(w) && r == Returned(0) && !ReceiptPrinted(w, ledger) && Parse(c, stdout) == Receipt(x)
  {
    var w := Lookalike(c, x);
    SucceededRanChild(log);
    OutputLines(c, 0, x);
    FirstLine(ReceiptLine(c, x), "");
    NoLines();
    assert ReceiptLine(c, x) + "\n" + "" == ReceiptLine(c, x) + "\n";
    assert LastChildLine(w.child) == ReceiptLine(c, x);
    assert ReceiptLine(c, x)[|RESULT_PREFIX|..] == c.encode(x);
    hide Lines, LegalPath, ReceiptLine, Parse, Trace, LastChildLine;
    WithoutReceiptIff(c, w, r, log, ledger, stdout, x);
  }

  /** A finished record has no started record before it in exactly two cases: the provider is missing and
    * its adapter has that recorded, or the prompt is unreadable and the adapter starts its record after
    * the prompt. */
  lemma {:induction false} FinishedWithoutStart(w: World)
    ensures HasFinished(LedgerFor(w)) && STARTED_RECORD !in LedgerFor(w) <==>
            && !Refused(w)
            && ((MissingBinary(w) && w.missingBinaryFinished)
                || (!MissingBinary(w) && w.timeoutAvailable && !w.promptReadable && !w.startBeforePrompt))
  {
    assert FinishedRecord(127) != STARTED_RECORD;
  }

  /** The outcome in the result document, which goes by the end state. */
  function ResultOutcome(s: State): string
    requires Terminal(s)
  {
    match s
    case Succeeded => "ok"
    case TimedOut => "timeout"
    case Cancelled => "cancelled"
    case _ => "error"
  }

  /** The ledger and the result document tell the same outcome unless the child was cancelled or exited
    * with 124 of its own accord. */
  lemma OutcomesAgree(child: Child)
    ensures Terminal(EndState(child)) && 0 <= ExitCode(child) <= 255
    ensures LedgerOutcome(ExitCode(child)) == ResultOutcome(EndState(child))
            <==> (child.Ran? && !child.timedOut ==> !child.cancelled && child.returnCode != 124)
  {
  }
}
