/** `_StateController` and `cancel_workflow`: every write of the state file goes through the lock and
  * keeps a cancellation that somebody else has recorded. */
module Controller {
  import opened Workflows
  import opened RunState

  /** `state.json`. Each method that touches it holds `state.lock`, so it is one atomic step. */
  class StateFile {
    var contents: Option<Persisted>

    constructor ()
      ensures contents == None
    {
      contents := None;
    }

    /** Whether a cancellation is recorded. */
    predicate Flag()
      reads this
    {
      contents.Some? && contents.value.cancelRequested
    }
  }

  class StateController {
    const state: WorkflowState
    const file: StateFile

    constructor (file: StateFile, state: WorkflowState)
      ensures this.file == file && this.state == state
    {
      this.file, this.state := file, state;
    }

    method Write()
      modifies state`cancelRequested, file
      ensures state.cancelRequested <==> old(state.cancelRequested) || old(file.Flag())
      ensures file.contents == Some(state.Contents())
      ensures old(file.Flag()) ==> file.Flag()
    {
      if file.contents.Some? {
        if file.contents.value.cancelRequested {
          state.cancelRequested := true;
        }
      }
      file.contents := Some(state.Contents());
    }

    /** `callback` stands for any in-place change of the state dictionary. */
    method Mutate(callback: Persisted -> Persisted)
      modifies state, file
      ensures var c := callback(old(state.Contents()));
              state.Contents() == c.(cancelRequested := c.cancelRequested || old(file.Flag()))
      ensures file.contents == Some(state.Contents())
      ensures old(file.Flag()) ==> file.Flag()
    {
      var c := callback(state.Contents());
      state.tasks, state.cancelRequested, state.status := c.tasks, c.cancelRequested, c.status;
      Write();
    }

    /** `initialize`: the reset of the flag does not survive the write when the file has it set. */
    method Initialize()
      modifies state, file
      ensures state.tasks == old(state.tasks) && state.status == InProgress
      ensures state.cancelRequested == old(file.Flag())
      ensures file.contents == Some(state.Contents())
    {
      Mutate((c: Persisted) => c.(status := InProgress, cancelRequested := false));
    }
  }

  /** `cancel_workflow`. `active` tells whether a scheduler holds the runner lease. */
  method CancelWorkflow(file: StateFile, active: bool) returns (signal: bool)
    requires file.contents.Some?
    modifies file
    ensures file.contents == Some(
              if old(file.contents.value).status.Terminal() && !active then old(file.contents.value)
              else old(file.contents.value).(cancelRequested := true))
    ensures old(file.Flag()) ==> file.Flag()
    ensures signal <==> active
  {
    var state := file.contents.value;
    if state.status.Terminal() && !active {
      return false;
    }
    file.contents := Some(state.(cancelRequested := true));
    signal := active;
  }

  // ---------------------------------------------------------------- any number of processes

  /** The flags only: the one in the file and those in the memory of each controller, whether their
    * processes overlap or not. */
  datatype Flags = Flags(file: bool, memory: map<nat, bool>)

  datatype FlagMove =
    | Open(id: nat)                    // a controller is created: run starts clear, resume clears
    | Reset(id: nat)                   // `initialize` clears the flag and writes
    | WriteFlag(id: nat)               // any other write or mutate
    | RequestCancel(refused: bool)     // `cancel_workflow`, which may leave a finished workflow alone

  function ApplyFlag(f: Flags, move: FlagMove): Flags {
    match move
    case Open(id) => f.(memory := f.memory[id := false])
    case Reset(id) => Flags(f.file, f.memory[id := f.file])
    case WriteFlag(id) =>
      if id in f.memory then
        var flag := f.memory[id] || f.file;
        Flags(flag, f.memory[id := flag])
      else f
    case RequestCancel(refused) => if refused then f else f.(file := true)
  }

  function RunFlags(f: Flags, moves: seq<FlagMove>): Flags {
    if moves == [] then f else ApplyFlag(RunFlags(f, moves[..|moves| - 1]), moves[|moves| - 1])
  }

  /** Every flag in memory was in the file first. */
  predicate FlagsOk(f: Flags) {
    forall id | id in f.memory :: f.memory[id] ==> f.file
  }

  /** A cancellation is never lost, whatever controllers write, reset or resume in whatever order;
    * and it is never made up: without a request that was accepted, no flag is ever set. */
  lemma {:induction false} CancellationIsSticky(f: Flags, moves: seq<FlagMove>, i: nat)
    requires FlagsOk(f) && i <= |moves|
    ensures FlagsOk(RunFlags(f, moves))
    ensures RunFlags(f, moves[..i]).file ==> RunFlags(f, moves).file
    ensures RunFlags(f, moves).file ==> f.file || RequestCancel(false) in moves
    decreases |moves|
  {
    if moves != [] {
      var k := |moves| - 1;
      var front := moves[..k];
      if i <= k {
        CancellationIsSticky(f, front, i);
        assert front[..i] == moves[..i];
      } else {
        CancellationIsSticky(f, front, k);
        assert moves[..i] == moves;
      }
      assert forall m | m in front :: m in moves;
    }
  }

  // ---------------------------------------------------------------- the controllers behind the flags

  /** The processes that work on one state file, each with a state of its own in memory, whether they
    * overlap or not. Each method runs the method of the code, and is one move on the flags. */
  class Directory {
    const file: StateFile
    var controllers: map<nat, StateController>

    ghost predicate Valid()
      reads this
    {
      && (forall i | i in controllers :: controllers[i].file == file)
      && forall i, j | i in controllers && j in controllers && i != j :: controllers[i].state != controllers[j].state
    }

    ghost function View(): Flags
      reads this, file, set i | i in controllers :: controllers[i].state
    {
      Flags(file.Flag(), map i | i in controllers :: controllers[i].state.cancelRequested)
    }

    constructor (file: StateFile)
      ensures this.file == file && controllers == map[] && Valid()
    {
      this.file, controllers := file, map[];
    }

    /** A process loads or creates a state, with the flag clear in memory, and makes its controller. */
    method OpenController(id: nat, contents: Persisted)
      requires Valid() && !contents.cancelRequested
      modifies this
      ensures Valid() && View() == ApplyFlag(old(View()), Open(id))
      ensures id in controllers && fresh(controllers[id]) && fresh(controllers[id].state)
      ensures controllers == old(controllers)[id := controllers[id]]
    {
      var state := new WorkflowState(contents);
      var controller := new StateController(file, state);
      controllers := controllers[id := controller];
    }

    method ResetFlag(id: nat)
      requires Valid() && id in controllers
      modifies controllers[id].state, file
      ensures Valid() && View() == ApplyFlag(old(View()), Reset(id))
    {
      controllers[id].Initialize();
    }

    method WriteState(id: nat)
      requires Valid() && id in controllers
      modifies controllers[id].state, file
      ensures Valid() && View() == ApplyFlag(old(View()), WriteFlag(id))
    {
      controllers[id].Write();
    }

    /** Any in-place change that leaves the flag alone, as all but `initialize` do. */
    method MutateState(id: nat, callback: Persisted -> Persisted)
      requires Valid() && id in controllers
      requires forall c :: callback(c).cancelRequested == c.cancelRequested
      modifies controllers[id].state, file
      ensures Valid() && View() == ApplyFlag(old(View()), WriteFlag(id))
    {
      controllers[id].Mutate(callback);
    }

    method Cancel(active: bool) returns (signal: bool)
      requires Valid() && file.contents.Some?
      modifies file
      ensures Valid()
      ensures View() == ApplyFlag(old(View()), RequestCancel(old(file.contents.value).status.Terminal() && !active))
    {
      signal := CancelWorkflow(file, active);
    }
  }
}
