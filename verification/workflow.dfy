/**
 * The graph execution engine: nodes wrapping step functions, fixed and
 * conditional edges, the graph with its mutators, the traversal loop `Run`
 * and the fluent builder.
 */
module Workflow {
  import opened Wrappers

  /** The state threaded through a run: a caller-defined payload and a metadata area. */
  datatype WorkflowState<D> = WorkflowState(data: D, metadata: map<string, string>)

  /** A step function, as wrapped by a node. */
  type StateFn<!D> = WorkflowState<D> -> WorkflowState<D>

  /** One executed node: its position in the run, its name, when it ran and the state it left. */
  datatype ExecutionLog<D> = ExecutionLog(step: nat, nodeName: string, timestamp: string, stateSnapshot: WorkflowState<D>)

  /** A named step; `func` is None when the value given in its place is not callable. */
  datatype Node<!D> = Node(name: string, func: Option<StateFn<D>>, description: string) {

    /** Runs the wrapped function on `state` (awaiting a suspending result is a plain call here). */
    function Execute(state: WorkflowState<D>): (r: WorkflowState<D>)
      ensures func.Some? ==> r == func.value(state)
      ensures func.None? ==> r == state
    {
      match func
      case Some(f) => f(state)
      case None => state
    }
  }

  /** The outgoing edge of a node: a fixed destination or a router deciding on the state. */
  datatype Edge<!D> = Fixed(to: string) | Conditional(condition: WorkflowState<D> -> string) {

    /** The name of the next node, given the state left by the source node. */
    function Evaluate(state: WorkflowState<D>): (next: string)
      ensures Fixed? ==> next == to
      ensures Conditional? ==> next == condition(state)
    {
      match this
      case Fixed(to) => to
      case Conditional(condition) => condition(state)
    }
  }

  /** The structure of a graph as a value: what a run depends on. */
  datatype Topology<!D> = Topology(
    nodes: map<string, Node<D>>,
    edges: map<string, Edge<D>>,
    start: Option<string>,
    ends: seq<string>)

  datatype RunError = NoStartNode | NodeNotFound(name: string) | MaxStepsExceeded(maxSteps: int)

  datatype RunResult<D> = Completed(finalState: WorkflowState<D>, logs: seq<ExecutionLog<D>>) | Failed(error: RunError)

  ghost predicate NoDuplicates<T>(s: seq<T>) {
    forall i, j :: 0 <= i < j < |s| ==> s[i] != s[j]
  }

  /**
   * The traversal from `current` at iteration `step`, with `logs` already
   * written: the specification the loop of `Run` is proved against.
   */
  function Walk<D>(t: Topology<D>, current: string, state: WorkflowState<D>, step: nat, maxSteps: int,
                   logs: seq<ExecutionLog<D>>, clock: nat -> string): RunResult<D>
    decreases maxSteps - step
  {
    if step >= maxSteps then Failed(MaxStepsExceeded(maxSteps))
    else if current in t.ends then Completed(state, logs)
    else if current !in t.nodes then Failed(NodeNotFound(current))
    else
      var next := t.nodes[current].Execute(state);
      var logs' := logs + [ExecutionLog(step, current, clock(step), next)];
      if current !in t.edges then Completed(next, logs')
      else Walk(t, t.edges[current].Evaluate(next), next, step + 1, maxSteps, logs', clock)
  }

  /** What a run of a graph of shape `t` produces; `clock(k)` is the timestamp of step k. */
  function RunOutcome<D>(t: Topology<D>, initial: WorkflowState<D>, maxSteps: int, clock: nat -> string): RunResult<D>
  {
    if t.start.None? || t.start.value == "" then Failed(NoStartNode)
    else Walk(t, t.start.value, initial, 0, maxSteps, [], clock)
  }

  class WorkflowGraph<D> {
    const graphId: string
    var nodes: map<string, Node<D>>
    var edges: map<string, Edge<D>>
    var startNode: Option<string>
    var endNodes: seq<string>

    /** Every node is stored under its own name and no end node is listed twice. */
    ghost predicate Valid()
      reads this
    {
      && (forall name :: name in nodes ==> nodes[name].name == name)
      && NoDuplicates(endNodes)
    }

    function Shape(): Topology<D>
      reads this
    {
      Topology(nodes, edges, startNode, endNodes)
    }

    /** An empty graph; the identifier is supplied by the caller. */
    constructor (graphId: string)
      ensures Valid()
      ensures this.graphId == graphId
      ensures Shape() == Topology(map[], map[], None, [])
    {
      this.graphId := graphId;
      nodes := map[];
      edges := map[];
      startNode := None;
      endNodes := [];
    }

    method AddNode(name: string, func: Option<StateFn<D>>, description: string)
      requires Valid()
      modifies this
      ensures Valid()
      ensures Shape() == old(Shape()).(nodes := old(nodes)[name := Node(name, func, description)])
    {
      nodes := nodes[name := Node(name, func, description)];
    }

    method AddEdge(from: string, to: string)
      requires Valid()
      modifies this
      ensures Valid()
      ensures Shape() == old(Shape()).(edges := old(edges)[from := Fixed(to)])
    {
      edges := edges[from := Fixed(to)];
    }

    method AddConditionalEdge(from: string, condition: WorkflowState<D> -> string)
      requires Valid()
      modifies this
      ensures Valid()
      ensures Shape() == old(Shape()).(edges := old(edges)[from := Conditional(condition)])
    {
      edges := edges[from := Conditional(condition)];
    }

    method SetStart(name: string)
      requires Valid()
      modifies this
      ensures Valid()
      ensures Shape() == old(Shape()).(start := Some(name))
    {
      startNode := Some(name);
    }

    /** Marks `name` as an end node; a name already marked is left as it is. */
    method SetEnd(name: string)
      requires Valid()
      modifies this
      ensures Valid()
      ensures name in endNodes
      ensures endNodes == if name in old(endNodes) then old(endNodes) else old(endNodes) + [name]
      ensures Shape() == old(Shape()).(ends := endNodes)
    {
      if name !in endNodes {
        endNodes := endNodes + [name];
      }
    }

    /** The traversal loop. */
    method Run(initial: WorkflowState<D>, maxSteps: int, clock: nat -> string) returns (r: RunResult<D>)
      ensures r == RunOutcome(Shape(), initial, maxSteps, clock)
    {
      if startNode.None? || startNode.value == "" {
        return Failed(NoStartNode);
      }
      var current := startNode.value;
      var state := initial;
      var logs: seq<ExecutionLog<D>> := [];
      var step: nat := 0;
      while step < maxSteps
        invariant Walk(Shape(), current, state, step, maxSteps, logs, clock) == RunOutcome(Shape(), initial, maxSteps, clock)
        decreases maxSteps - step
      {
        if current in endNodes {
          break;
        }
        if current !in nodes {
          return Failed(NodeNotFound(current));
        }
        state := nodes[current].Execute(state);
        logs := logs + [ExecutionLog(step, current, clock(step), state)];
        if current !in edges {
          break;
        }
        current := edges[current].Evaluate(state);
        step := step + 1;
      }
      if step >= maxSteps {
        return Failed(MaxStepsExceeded(maxSteps));
      }
      return Completed(state, logs);
    }
  }

  /** Fluent construction of a graph; every call returns the builder itself. */
  class WorkflowBuilder<D> {
    const graph: WorkflowGraph<D>

    ghost predicate Valid()
      reads this, graph
    {
      graph.Valid()
    }

    constructor (graphId: string)
      ensures Valid() && fresh(graph)
      ensures graph.graphId == graphId
      ensures graph.Shape() == Topology(map[], map[], None, [])
    {
      graph := new WorkflowGraph(graphId);
    }

    method WithNode(name: string, func: Option<StateFn<D>>, description: string) returns (self: WorkflowBuilder<D>)
      requires Valid()
      modifies graph
      ensures Valid() && self == this
      ensures graph.Shape() == old(graph.Shape()).(nodes := old(graph.nodes)[name := Node(name, func, description)])
    {
      graph.AddNode(name, func, description);
      return this;
    }

    method WithEdge(from: string, to: string) returns (self: WorkflowBuilder<D>)
      requires Valid()
      modifies graph
      ensures Valid() && self == this
      ensures graph.Shape() == old(graph.Shape()).(edges := old(graph.edges)[from := Fixed(to)])
    {
      graph.AddEdge(from, to);
      return this;
    }

    method WithConditionalEdge(from: string, condition: WorkflowState<D> -> string) returns (self: WorkflowBuilder<D>)
      requires Valid()
      modifies graph
      ensures Valid() && self == this
      ensures graph.Shape() == old(graph.Shape()).(edges := old(graph.edges)[from := Conditional(condition)])
    {
      graph.AddConditionalEdge(from, condition);
      return this;
    }

    method WithStart(name: string) returns (self: WorkflowBuilder<D>)
      requires Valid()
      modifies graph
      ensures Valid() && self == this
      ensures graph.Shape() == old(graph.Shape()).(start := Some(name))
    {
      graph.SetStart(name);
      return this;
    }

    method WithEnd(name: string) returns (self: WorkflowBuilder<D>)
      requires Valid()
      modifies graph
      ensures Valid() && self == this
      ensures graph.endNodes == if name in old(graph.endNodes) then old(graph.endNodes) else old(graph.endNodes) + [name]
      ensures graph.Shape() == old(graph.Shape()).(ends := graph.endNodes)
    {
      graph.SetEnd(name);
      return this;
    }

    method Build() returns (g: WorkflowGraph<D>)
      ensures g == graph
    {
      return graph;
    }
  }
}
