/** `_find_cycle`: the explicit-stack, three-colour depth-first search of the validator. */
module CycleFinder {
  import opened Workflows

  datatype Color = White | Gray | Black

  /** One stack entry: a node and how far its children iterator has advanced. */
  datatype Frame = Frame(node: TaskId, next: nat)

  datatype Search = Acyclic | Cycle(path: seq<TaskId>) | UnknownTask(child: TaskId)

  // ---------------------------------------------------------------- rank and cycle exclude each other

  lemma {:induction false} RankFallsAlongPath(g: Graph, rank: map<TaskId, nat>, p: seq<TaskId>)
    requires Ranks(g, rank) && IsPath(g, p) && |p| > 1
    ensures p[0] in rank && p[|p| - 1] in rank && rank[p[|p| - 1]] < rank[p[0]]
  {
    assert Edge(g, p[0], p[1]);
    if |p| > 2 {
      assert IsPath(g, p[1..]) by {
        forall i | 0 <= i < |p[1..]| - 1 ensures Edge(g, p[1..][i], p[1..][i + 1]) {
          assert Edge(g, p[i + 1], p[i + 2]);
        }
      }
      RankFallsAlongPath(g, rank, p[1..]);
    }
  }

  lemma RankExcludesCycle(g: Graph, rank: map<TaskId, nat>, p: seq<TaskId>)
    requires Ranks(g, rank)
    ensures !IsCycle(g, p)
  {
    if IsCycle(g, p) {
      RankFallsAlongPath(g, rank, p);
    }
  }

  // ---------------------------------------------------------------- search state

  function Nodes(stack: seq<Frame>): (path: seq<TaskId>)
    ensures |path| == |stack|
    ensures forall i | 0 <= i < |stack| :: path[i] == stack[i].node
  {
    seq(|stack|, i requires 0 <= i < |stack| => stack[i].node)
  }

  ghost function Colored(color: map<TaskId, Color>, c: Color): set<TaskId> {
    set t | t in color && color[t] == c
  }

  /** Finished nodes carry the order in which they finished; all their edges go to earlier ones. */
  ghost predicate Finished(g: Graph, color: map<TaskId, Color>, rank: map<TaskId, nat>) {
    && (forall t :: t in rank <==> t in color && color[t] == Black)
    && (forall t | t in rank :: rank[t] < |Colored(color, Black)|)
    && (forall a, b | a in rank && Edge(g, a, b) :: b in rank && rank[b] < rank[a])
  }

  /** A frame's iterator has passed only finished children, and the child that is now on top of it. */
  ghost predicate FrameOk(g: Graph, color: map<TaskId, Color>, stack: seq<Frame>, i: nat)
    requires i < |stack|
  {
    var f := stack[i];
    && f.node in g
    && f.next <= |g[f.node]|
    && (i + 1 < |stack| ==> f.next > 0 && g[f.node][f.next - 1] == Name(stack[i + 1].node))
    && (forall k | 0 <= k < f.next && g[f.node][k].Name? ::
          g[f.node][k].id in color
          && (color[g[f.node][k].id] == Black || (i + 1 < |stack| && k == f.next - 1)))
  }

  ghost predicate StackOk(g: Graph, color: map<TaskId, Color>, stack: seq<Frame>) {
    && Distinct(Nodes(stack))
    && (forall t :: t in Nodes(stack) <==> t in color && color[t] == Gray)
    && (forall i | 0 <= i < |stack| :: FrameOk(g, color, stack, i))
  }

  lemma StackIsPath(g: Graph, color: map<TaskId, Color>, stack: seq<Frame>)
    requires StackOk(g, color, stack) && |stack| > 0
    ensures IsPath(g, Nodes(stack))
  {
    var p := Nodes(stack);
    forall i | 0 <= i < |p| - 1 ensures Edge(g, p[i], p[i + 1]) {
      assert FrameOk(g, color, stack, i);
      assert g[stack[i].node][stack[i].next - 1] == Name(stack[i + 1].node);
    }
  }

  /** A gray child closes a cycle that starts where the child sits on the path. */
  lemma GrayChildClosesCycle(g: Graph, color: map<TaskId, Color>, stack: seq<Frame>, at: nat, child: TaskId)
    requires StackOk(g, color, stack) && at < |stack|
    requires stack[at].node == child && Edge(g, stack[|stack| - 1].node, child)
    ensures IsCycle(g, Nodes(stack)[at..] + [child])
  {
    StackIsPath(g, color, stack);
    var path := Nodes(stack);
    var p := path[at..] + [child];
    forall i | 0 <= i < |p| - 1 ensures Edge(g, p[i], p[i + 1]) {
      if i < |p| - 2 {
        assert Edge(g, path[at + i], path[at + i + 1]);
      }
    }
  }

  function IndexOf(path: seq<TaskId>, t: TaskId): (i: nat)
    requires t in path
    ensures i < |path| && path[i] == t
  {
    if path[0] == t then 0 else 1 + IndexOf(path[1..], t)
  }

  lemma ColoredAfter(color: map<TaskId, Color>, t: TaskId, c: Color)
    requires t in color && color[t] != c
    ensures Colored(color[t := c], c) == Colored(color, c) + {t}
    ensures Colored(color[t := c], color[t]) == Colored(color, color[t]) - {t}
    ensures forall d | d != c && d != color[t] :: Colored(color[t := c], d) == Colored(color, d)
    ensures t in Colored(color, color[t]) && t !in Colored(color, c)
  {
  }

  /** Entering a white child keeps the stack well formed. */
  lemma PushKeepsStack(g: Graph, color: map<TaskId, Color>, stack: seq<Frame>, child: TaskId)
    requires |stack| > 0 && child in g && child in color && color[child] == White
    requires var f := stack[|stack| - 1]; f.node in g && 0 < f.next <= |g[f.node]| && g[f.node][f.next - 1] == Name(child)
    requires StackOk(g, color, stack[|stack| - 1 := stack[|stack| - 1].(next := stack[|stack| - 1].next - 1)])
    ensures StackOk(g, color[child := Gray], stack + [Frame(child, 0)])
  {
    var top := |stack| - 1;
    var before := stack[top := stack[top].(next := stack[top].next - 1)];
    var after := stack + [Frame(child, 0)];
    var color' := color[child := Gray];
    assert Nodes(before) == Nodes(stack);
    assert Nodes(after) == Nodes(stack) + [child];
    assert child !in Nodes(before);
    forall i | 0 <= i < |after| ensures FrameOk(g, color', after, i) {
      if i < top {
        assert FrameOk(g, color, before, i);
        assert after[i] == before[i] && after[i + 1].node == before[i + 1].node;
      } else if i == top {
        assert FrameOk(g, color, before, top);
      }
    }
  }

  /** Leaving an exhausted node paints it black and keeps the rest well formed. */
  lemma PopKeepsStack(g: Graph, color: map<TaskId, Color>, stack: seq<Frame>)
    requires |stack| > 0 && StackOk(g, color, stack)
    ensures StackOk(g, color[stack[|stack| - 1].node := Black], stack[..|stack| - 1])
  {
    var top := |stack| - 1;
    var after := stack[..top];
    var color' := color[stack[top].node := Black];
    assert stack[top].node in Nodes(stack) by { assert Nodes(stack)[top] == stack[top].node; }
    assert Nodes(stack) == Nodes(after) + [stack[top].node];
    forall t ensures t in Nodes(after) <==> t in color' && color'[t] == Gray {
      assert t in Nodes(stack) <==> t in Nodes(after) || t == stack[top].node;
      if t in Nodes(after) {
        var i :| 0 <= i < top && Nodes(after)[i] == t;
        assert Nodes(stack)[i] != Nodes(stack)[top];
      }
    }
    forall i | 0 <= i < |after| ensures FrameOk(g, color', after, i) {
      assert FrameOk(g, color, stack, i);
      if i == top - 1 {
        assert g[stack[i].node][stack[i].next - 1] == Name(stack[top].node);
      }
    }
  }

  /** Advancing past a child that needs no visit: not a string, or already black. */
  lemma NextFrame(g: Graph, color: map<TaskId, Color>, before: seq<Frame>, after: seq<Frame>)
    requires |before| > 0 && StackOk(g, color, before)
    requires var f := before[|before| - 1];
             && f.node in g && f.next < |g[f.node]|
             && after == before[|before| - 1 := f.(next := f.next + 1)]
             && (g[f.node][f.next].Name? ==> g[f.node][f.next].id in color && color[g[f.node][f.next].id] == Black)
    ensures StackOk(g, color, after)
  {
    assert Nodes(after) == Nodes(before);
    forall i | 0 <= i < |after| ensures FrameOk(g, color, after, i) {
      assert FrameOk(g, color, before, i);
    }
  }

  /** An exhausted node may take the next finishing number. */
  lemma FinishNode(g: Graph, color: map<TaskId, Color>, stack: seq<Frame>, rank: map<TaskId, nat>)
    requires |stack| > 0 && StackOk(g, color, stack) && Finished(g, color, rank)
    requires var f := stack[|stack| - 1]; f.node in g && f.next == |g[f.node]|
    ensures var n := stack[|stack| - 1].node;
            Finished(g, color[n := Black], rank[n := |Colored(color, Black)|])
  {
    var top := |stack| - 1;
    var n := stack[top].node;
    assert n in Nodes(stack) by { assert Nodes(stack)[top] == n; }
    ColoredAfter(color, n, Black);
    assert FrameOk(g, color, stack, top);
    forall b | Edge(g, n, b) ensures b in rank && rank[b] < |Colored(color, Black)| {
      var k :| 0 <= k < |g[n]| && g[n][k] == Name(b);
    }
  }

  /** What the whole search keeps between starts: no gray node, and black nodes ranked. */
  ghost predicate Settled(g: Graph, color: map<TaskId, Color>, rank: map<TaskId, nat>) {
    && color.Keys == g.Keys
    && Finished(g, color, rank)
    && forall t | t in color :: color[t] != Gray
  }

  /** What one search from a start node keeps. */
  ghost predicate Searching(g: Graph, color: map<TaskId, Color>, path: seq<TaskId>, stack: seq<Frame>, rank: map<TaskId, nat>) {
    && color.Keys == g.Keys
    && path == Nodes(stack)
    && StackOk(g, color, stack)
    && Finished(g, color, rank)
  }

  ghost function Work(color: map<TaskId, Color>): nat {
    2 * |Colored(color, White)| + |Colored(color, Gray)|
  }

  ghost predicate Keeps(before: map<TaskId, Color>, after: map<TaskId, Color>) {
    forall t | t in before && before[t] == Black :: t in after && after[t] == Black
  }

  lemma StartSearch(g: Graph, color: map<TaskId, Color>, rank: map<TaskId, nat>, start: TaskId)
    requires Settled(g, color, rank) && start in color && color[start] == White
    ensures Searching(g, color[start := Gray], [start], [Frame(start, 0)], rank)
  {
    ColoredAfter(color, start, Gray);
    assert Nodes([Frame(start, 0)]) == [start];
  }

  /** Popping the exhausted top of the stack. */
  lemma LeaveNode(g: Graph, color: map<TaskId, Color>, path: seq<TaskId>, stack: seq<Frame>, rank: map<TaskId, nat>)
    requires |stack| > 0 && Searching(g, color, path, stack, rank)
    requires var f := stack[|stack| - 1]; f.node in g && f.next == |g[f.node]|
    ensures var n := stack[|stack| - 1].node;
            var color' := color[n := Black];
            && n in color
            && Searching(g, color', path[..|path| - 1], stack[..|stack| - 1], rank[n := |Colored(color, Black)|])
            && Work(color') < Work(color)
  {
    var n := stack[|stack| - 1].node;
    assert Nodes(stack)[|stack| - 1] == n;
    PopKeepsStack(g, color, stack);
    FinishNode(g, color, stack, rank);
    ColoredAfter(color, n, Black);
    assert Nodes(stack[..|stack| - 1]) == path[..|path| - 1];
  }

  /** Entering the white child that the top frame has just passed. */
  lemma EnterChild(g: Graph, color: map<TaskId, Color>, path: seq<TaskId>, before: seq<Frame>, rank: map<TaskId, nat>, child: TaskId)
    requires |before| > 0 && Searching(g, color, path, before, rank)
    requires child in color && color[child] == White
    requires var f := before[|before| - 1]; f.node in g && f.next < |g[f.node]| && g[f.node][f.next] == Name(child)
    ensures var f := before[|before| - 1];
            var stack := before[|before| - 1 := f.(next := f.next + 1)];
            && Searching(g, color[child := Gray], path + [child], stack + [Frame(child, 0)], rank)
            && Work(color[child := Gray]) < Work(color)
  {
    var f := before[|before| - 1];
    var stack := before[|before| - 1 := f.(next := f.next + 1)];
    assert before == stack[|stack| - 1 := stack[|stack| - 1].(next := stack[|stack| - 1].next - 1)];
    PushKeepsStack(g, color, stack, child);
    ColoredAfter(color, child, Gray);
    assert Nodes(stack + [Frame(child, 0)]) == path + [child];
  }

  /** The facts about the top frame that the loop needs. */
  lemma TopFrame(g: Graph, color: map<TaskId, Color>, path: seq<TaskId>, stack: seq<Frame>, rank: map<TaskId, nat>)
    requires |stack| > 0 && Searching(g, color, path, stack, rank)
    ensures var f := stack[|stack| - 1]; f.node in path && f.node in g && f.node in color && f.next <= |g[f.node]|
    ensures forall t | t in color && color[t] == Gray :: t in path
  {
    assert FrameOk(g, color, stack, |stack| - 1);
    assert path[|stack| - 1] == stack[|stack| - 1].node;
  }

  lemma EmptyStackSettles(g: Graph, color: map<TaskId, Color>, path: seq<TaskId>, rank: map<TaskId, nat>)
    requires Searching(g, color, path, [], rank)
    ensures Settled(g, color, rank)
  {
    assert Nodes([]) == [];
  }

  /** One start node: the `while stack` loop. */
  method SearchFrom(start: TaskId, deps: Graph, color0: map<TaskId, Color>, ghost rank0: map<TaskId, nat>)
    returns (result: Search, color: map<TaskId, Color>, ghost rank: map<TaskId, nat>)
    requires Settled(deps, color0, rank0) && start in color0 && color0[start] == White
    ensures result.Cycle? ==> IsCycle(deps, result.path)
    ensures result.UnknownTask? ==> result.child !in deps && exists a :: Edge(deps, a, result.child)
    ensures result.Acyclic? ==> Settled(deps, color, rank) && Keeps(color0[start := Black], color)
  {
    hide StackOk, Finished, Colored;
    var path := [start];
    color, rank := color0[start := Gray], rank0;
    var stack := [Frame(start, 0)];
    StartSearch(deps, color0, rank, start);
    while stack != []
      invariant Searching(deps, color, path, stack, rank)
      invariant Keeps(color0, color) && start in color && color[start] != White
      decreases Work(color)
    {
      var top := |stack| - 1;
      var node := stack[top].node;
      TopFrame(deps, color, path, stack, rank);
      var children := deps[node];
      var advanced := false;
      while stack[top].next < |children|
        invariant |stack| == top + 1 && stack[top].node == node && stack[top].next <= |children|
        invariant Searching(deps, color, path, stack, rank)
        decreases |children| - stack[top].next
      {
        ghost var before := stack;
        var child := children[stack[top].next];
        stack := stack[top := Frame(node, stack[top].next + 1)];
        if child == NotAString {
          NextFrame(deps, color, before, stack);
          continue;
        }
        assert Edge(deps, node, child.id);
        if child.id !in color {
          return UnknownTask(child.id), color, rank;
        }
        if color[child.id] == Gray {
          if child.id in path {
            var idx := IndexOf(path, child.id);
            GrayChildClosesCycle(deps, color, before, idx, child.id);
            return Cycle(path[idx..] + [child.id]), color, rank;
          }
          assert false;
        }
        if color[child.id] == White {
          EnterChild(deps, color, path, before, rank, child.id);
          color := color[child.id := Gray];
          path := path + [child.id];
          stack := stack + [Frame(child.id, 0)];
          advanced := true;
          break;
        }
        NextFrame(deps, color, before, stack);
      }
      if !advanced {
        LeaveNode(deps, color, path, stack, rank);
        rank := rank[node := |Colored(color, Black)|];
        color := color[node := Black];
        path := path[..|path| - 1];
        stack := stack[..|stack| - 1];
      }
    }
    EmptyStackSettles(deps, color, path, rank);
    result := Acyclic;
  }

  /** The search. `names` is the iteration order of the mapping `deps`. */
  method FindCycle(names: seq<TaskId>, deps: Graph) returns (result: Search, ghost rank: map<TaskId, nat>)
    requires forall t :: t in names <==> t in deps
    ensures result.Cycle? ==> IsCycle(deps, result.path)
    ensures result.Acyclic? ==> Ranks(deps, rank)
    ensures result.UnknownTask? ==> result.child !in deps && exists a :: Edge(deps, a, result.child)
  {
    var color: map<TaskId, Color> := map t | t in deps :: White;
    rank := map[];
    for s := 0 to |names|
      invariant Settled(deps, color, rank)
      invariant forall i | 0 <= i < s :: color[names[i]] == Black
    {
      if color[names[s]] == White {
        result, color, rank := SearchFrom(names[s], deps, color, rank);
        if result != Acyclic {
          return;
        }
      }
    }
    result := Acyclic;
  }

  /** When every reference is known, the search decides cyclicity: whatever it answers is right. */
  lemma SearchDecides(deps: Graph, result: Search, rank: map<TaskId, nat>)
    requires forall a, b | Edge(deps, a, b) :: b in deps
    requires result.Cycle? ==> IsCycle(deps, result.path)
    requires result.Acyclic? ==> Ranks(deps, rank)
    requires result.UnknownTask? ==> result.child !in deps && exists a :: Edge(deps, a, result.child)
    ensures result.Cycle? <==> exists p :: IsCycle(deps, p)
    ensures result.Acyclic? <==> forall p :: !IsCycle(deps, p)
  {
    if result.Acyclic? {
      forall p { RankExcludesCycle(deps, rank, p); }
    }
  }
}
