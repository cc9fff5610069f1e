/** The normalised workflow document: what `validate_workflow` hands to the scheduler.
  * The two share these types, so every scheduler theorem is about accepted documents. */
module Workflows {

  type TaskId = string
  type Provider = string

  datatype Option<+T> = None | Some(value: T)

  /** A JSON number. Python keeps `1` and `1.0` apart, so the normal form does too. */
  datatype Number = Whole(i: int) | Decimal(r: real) {
    predicate Positive() {
      match this
      case Whole(i) => i > 0
      case Decimal(r) => r > 0.0
    }

    predicate Negative() {
      match this
      case Whole(i) => i < 0
      case Decimal(r) => r < 0.0
    }
  }

  datatype Mode = Read | Write
  datatype Workspace = Shared | Isolated | Auto
  datatype FailurePolicy = FailFast | Continue
  datatype Trigger = Timeout | TransportError
  datatype Artifact = Stdout | Stderr | ResultFile | Patch | Diffstat

  /** The texts that stand for these in documents, arguments and prompts. */
  function ModeText(m: Mode): string {
    match m
    case Read => "read"
    case Write => "write"
  }

  function WorkspaceText(ws: Workspace): string {
    match ws
    case Shared => "shared"
    case Isolated => "isolated"
    case Auto => "auto"
  }

  function ArtifactText(a: Artifact): string {
    match a
    case Stdout => "stdout"
    case Stderr => "stderr"
    case ResultFile => "result"
    case Patch => "patch"
    case Diffstat => "diffstat"
  }

  datatype Route = Route(provider: Provider, model: string, effort: Option<string>)
  datatype Prompt = FromFile(path: string) | FromText(text: string)
  datatype Selection = Selection(task: TaskId, artifact: Artifact, maxBytes: int)
  datatype Retry = Retry(maxAttempts: int, backoff: Number, on: seq<Trigger>)

  datatype TaskDef = TaskDef(
    route: Route,
    mode: Mode,
    prompt: Prompt,
    dependsOn: seq<TaskId>,
    contextFrom: seq<Selection>,
    timeout: Number,
    workspace: Workspace,
    retry: Retry,
    verify: seq<seq<string>>)

  datatype Defaults = Defaults(
    maxConcurrency: int,
    providerConcurrency: map<Provider, int>,
    timeout: Number,
    workspace: Workspace,
    failurePolicy: FailurePolicy)

  /** `order` is the iteration order of the task mapping. */
  datatype Workflow = Workflow(
    name: string,
    defaults: Defaults,
    order: seq<TaskId>,
    tasks: map<TaskId, TaskDef>)

  // ---------------------------------------------------------------- dependency graphs

  /** A dependency entry as the cycle search sees it: entries that are not strings are skipped. */
  datatype Entry = Name(id: TaskId) | NotAString

  type Graph = map<TaskId, seq<Entry>>

  predicate Edge(g: Graph, a: TaskId, b: TaskId) {
    a in g && Name(b) in g[a]
  }

  ghost predicate IsPath(g: Graph, p: seq<TaskId>) {
    && |p| > 0
    && forall i | 0 <= i < |p| - 1 :: Edge(g, p[i], p[i + 1])
  }

  ghost predicate IsCycle(g: Graph, p: seq<TaskId>) {
    |p| > 1 && p[0] == p[|p| - 1] && IsPath(g, p)
  }

  /** A topological rank: every edge goes to a smaller rank. */
  ghost predicate Ranks(g: Graph, rank: map<TaskId, nat>) {
    forall a, b :: Edge(g, a, b) ==> a in rank && b in rank && rank[b] < rank[a]
  }

  /** The graph that the validator searches and the scheduler runs. */
  function DependencyGraph(tasks: map<TaskId, TaskDef>): Graph {
    map t | t in tasks :: seq(|tasks[t].dependsOn|, i requires 0 <= i < |tasks[t].dependsOn| => Name(tasks[t].dependsOn[i]))
  }

  lemma DependencyEdge(tasks: map<TaskId, TaskDef>, a: TaskId, b: TaskId)
    requires a in tasks
    ensures Edge(DependencyGraph(tasks), a, b) <==> b in tasks[a].dependsOn
  {
    var es := DependencyGraph(tasks)[a];
    if b in tasks[a].dependsOn {
      var i :| 0 <= i < |tasks[a].dependsOn| && tasks[a].dependsOn[i] == b;
      assert es[i] == Name(b);
    }
  }

  // ---------------------------------------------------------------- what validation guarantees

  predicate Distinct<T(==)>(s: seq<T>) {
    forall i, j | 0 <= i < j < |s| :: s[i] != s[j]
  }

  predicate TaskAccepted(names: set<TaskId>, id: TaskId, t: TaskDef) {
    && (forall d | d in t.dependsOn :: d in names && d != id)
    && Distinct(t.dependsOn)
    && (forall c | c in t.contextFrom :: c.task in t.dependsOn && c.maxBytes >= 1)
    && t.timeout.Positive()
    && t.retry.maxAttempts >= 1
    && !t.retry.backoff.Negative()
    && (t.mode == Write ==> t.workspace != Shared)
  }

  /** Everything the scheduler may rely on, apart from acyclicity. */
  predicate WellFormed(w: Workflow) {
    && (forall t | t in w.order :: t in w.tasks)
    && (forall t | t in w.tasks :: t in w.order)
    && Distinct(w.order)
    && w.defaults.maxConcurrency >= 1
    && (forall p | p in w.defaults.providerConcurrency :: w.defaults.providerConcurrency[p] >= 1)
    && (forall t | t in w.tasks :: TaskAccepted(w.tasks.Keys, t, w.tasks[t]))
  }

  ghost predicate Accepted(w: Workflow) {
    WellFormed(w) && exists rank :: Ranks(DependencyGraph(w.tasks), rank)
  }
}
