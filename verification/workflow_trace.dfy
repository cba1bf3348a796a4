/**
 * What a run produces, stated without the loop: a log is a trace when its
 * entries are numbered 0, 1, 2, ..., each names the node executed at that
 * position, starting from the start node and following the edges, and each
 * holds the state that node left. A run's result is then described by the
 * trace it leaves and the reason it stopped.
 */
module WorkflowTrace {
  import opened Wrappers
  import opened Workflow

  /** The state the node at position `i` of `logs` received. */
  function StateBefore<D>(initial: WorkflowState<D>, logs: seq<ExecutionLog<D>>, i: nat): WorkflowState<D>
    requires i <= |logs|
  {
    if i == 0 then initial else logs[i - 1].stateSnapshot
  }

  /** Entry `i` of `logs` records the node control reached at position `i` and the state it left. */
  ghost predicate EntryOk<D>(t: Topology<D>, start: string, initial: WorkflowState<D>, clock: nat -> string,
                             logs: seq<ExecutionLog<D>>, i: nat)
    requires i < |logs|
  {
    && logs[i].step == i
    && logs[i].timestamp == clock(i)
    && logs[i].nodeName !in t.ends
    && logs[i].nodeName in t.nodes
    && logs[i].stateSnapshot == t.nodes[logs[i].nodeName].Execute(StateBefore(initial, logs, i))
    && (i == 0 ==> logs[i].nodeName == start)
    && (i > 0 ==> logs[i - 1].nodeName in t.edges
                  && logs[i].nodeName == t.edges[logs[i - 1].nodeName].Evaluate(logs[i - 1].stateSnapshot))
  }

  ghost predicate IsTrace<D>(t: Topology<D>, start: string, initial: WorkflowState<D>, clock: nat -> string,
                             logs: seq<ExecutionLog<D>>)
  {
    forall i :: 0 <= i < |logs| ==> EntryOk(t, start, initial, clock, logs, i)
  }

  /** Where control stands after the entries of `logs`: at a node to visit next, or halted. */
  datatype Cursor<D> = At(node: string, state: WorkflowState<D>) | Halted(state: WorkflowState<D>)

  function After<D>(t: Topology<D>, start: string, initial: WorkflowState<D>, logs: seq<ExecutionLog<D>>): Cursor<D>
  {
    if logs == [] then At(start, initial)
    else
      var last := logs[|logs| - 1];
      if last.nodeName in t.edges then At(t.edges[last.nodeName].Evaluate(last.stateSnapshot), last.stateSnapshot)
      else Halted(last.stateSnapshot)
  }

  /**
   * A successful stop with final state `s`: the last node had no outgoing
   * edge, or control reached an end node while the budget still allowed a check.
   */
  ghost predicate StoppedWith<D>(t: Topology<D>, c: Cursor<D>, s: WorkflowState<D>, withinBudget: bool)
  {
    c == Halted(s) || (c.At? && c.state == s && c.node in t.ends && withinBudget)
  }

  ghost predicate ReachedUnknown<D>(t: Topology<D>, start: string, initial: WorkflowState<D>, clock: nat -> string,
                                    maxSteps: int, logs: seq<ExecutionLog<D>>, name: string)
  {
    && IsTrace(t, start, initial, clock, logs)
    && |logs| < maxSteps
    && After(t, start, initial, logs).At?
    && After(t, start, initial, logs).node == name
    && name !in t.ends
    && name !in t.nodes
  }

  ghost predicate OutOfBudget<D>(t: Topology<D>, start: string, initial: WorkflowState<D>, clock: nat -> string,
                                 maxSteps: int, logs: seq<ExecutionLog<D>>)
  {
    && IsTrace(t, start, initial, clock, logs)
    && |logs| == (if maxSteps < 0 then 0 else maxSteps)
    && After(t, start, initial, logs).At?
  }

  /** The meaning of each result a run from `start` can produce. */
  ghost predicate Explains<D(!new)>(t: Topology<D>, start: string, initial: WorkflowState<D>, clock: nat -> string,
                              maxSteps: int, r: RunResult<D>)
  {
    match r
    case Completed(s, logs) =>
      && IsTrace(t, start, initial, clock, logs)
      && |logs| <= maxSteps
      && StoppedWith(t, After(t, start, initial, logs), s, |logs| < maxSteps)
    case Failed(NodeNotFound(name)) =>
      exists logs :: ReachedUnknown(t, start, initial, clock, maxSteps, logs, name)
    case Failed(MaxStepsExceeded(m)) =>
      m == maxSteps && exists logs :: OutOfBudget(t, start, initial, clock, maxSteps, logs)
    case Failed(NoStartNode) => false
  }

  /** Extending a trace by the entry of the node control stands at gives a trace. */
  lemma TraceExtend<D>(t: Topology<D>, start: string, initial: WorkflowState<D>, clock: nat -> string,
                       logs: seq<ExecutionLog<D>>, current: string, state: WorkflowState<D>)
    requires IsTrace(t, start, initial, clock, logs)
    requires After(t, start, initial, logs) == At(current, state)
    requires current !in t.ends && current in t.nodes
    ensures var next := t.nodes[current].Execute(state);
            var logs' := logs + [ExecutionLog(|logs|, current, clock(|logs|), next)];
            && IsTrace(t, start, initial, clock, logs')
            && After(t, start, initial, logs') == (if current in t.edges then At(t.edges[current].Evaluate(next), next) else Halted(next))
  {
    var next := t.nodes[current].Execute(state);
    var logs' := logs + [ExecutionLog(|logs|, current, clock(|logs|), next)];
    forall i | 0 <= i < |logs'|
      ensures EntryOk(t, start, initial, clock, logs', i)
    {
      if i < |logs| {
        assert EntryOk(t, start, initial, clock, logs, i);
        assert logs'[i] == logs[i];
        assert i > 0 ==> logs'[i - 1] == logs[i - 1];
        assert StateBefore(initial, logs', i) == StateBefore(initial, logs, i);
      } else {
        assert StateBefore(initial, logs', i) == state;
        assert i > 0 ==> logs'[i - 1] == logs[i - 1];
      }
    }
  }

  /** Induction along the traversal: every result of `Walk` is explained by the trace it leaves. */
  lemma {:induction false} WalkExplained<D(!new)>(t: Topology<D>, start: string, initial: WorkflowState<D>, clock: nat -> string,
                                            maxSteps: int, current: string, state: WorkflowState<D>, logs: seq<ExecutionLog<D>>)
    requires IsTrace(t, start, initial, clock, logs)
    requires After(t, start, initial, logs) == At(current, state)
    requires |logs| <= maxSteps || logs == []
    ensures Explains(t, start, initial, clock, maxSteps, Walk(t, current, state, |logs|, maxSteps, logs, clock))
    decreases maxSteps - |logs|
  {
    if |logs| >= maxSteps {
      assert OutOfBudget(t, start, initial, clock, maxSteps, logs);
    } else if current in t.ends {
    } else if current !in t.nodes {
      assert ReachedUnknown(t, start, initial, clock, maxSteps, logs, current);
    } else {
      TraceExtend(t, start, initial, clock, logs, current, state);
      var next := t.nodes[current].Execute(state);
      var logs' := logs + [ExecutionLog(|logs|, current, clock(|logs|), next)];
      if current in t.edges {
        WalkExplained(t, start, initial, clock, maxSteps, t.edges[current].Evaluate(next), next, logs');
      }
    }
  }

  /**
   * Every run is explained: it fails for want of a start node exactly when the
   * start is unset or empty, and otherwise its result is explained by its trace.
   */
  lemma RunExplained<D(!new)>(t: Topology<D>, initial: WorkflowState<D>, maxSteps: int, clock: nat -> string)
    ensures RunOutcome(t, initial, maxSteps, clock) == Failed(NoStartNode) <==> t.start.None? || t.start.value == ""
    ensures t.start.Some? && t.start.value != "" ==>
              Explains(t, t.start.value, initial, clock, maxSteps, RunOutcome(t, initial, maxSteps, clock))
  {
    if t.start.Some? && t.start.value != "" {
      WalkExplained(t, t.start.value, initial, clock, maxSteps, t.start.value, initial, []);
    }
  }

  /** Two traces of one graph agree on their common length: a run is deterministic. */
  lemma {:induction false} TracesAgree<D>(t: Topology<D>, start: string, initial: WorkflowState<D>, clock: nat -> string,
                                          a: seq<ExecutionLog<D>>, b: seq<ExecutionLog<D>>, k: nat)
    requires IsTrace(t, start, initial, clock, a) && IsTrace(t, start, initial, clock, b)
    requires k <= |a| && k <= |b|
    ensures a[..k] == b[..k]
    decreases k
  {
    if k > 0 {
      TracesAgree(t, start, initial, clock, a, b, k - 1);
      assert EntryOk(t, start, initial, clock, a, k - 1);
      assert EntryOk(t, start, initial, clock, b, k - 1);
      if k > 1 {
        assert a[k - 2] == a[..k - 1][k - 2] == b[..k - 1][k - 2] == b[k - 2];
      }
      assert StateBefore(initial, a, k - 1) == StateBefore(initial, b, k - 1);
      assert a[..k] == a[..k - 1] + [a[k - 1]];
      assert b[..k] == b[..k - 1] + [b[k - 1]];
    }
  }

  /** Of two traces, the shorter is a prefix of the longer, and control stood at the longer one's next node. */
  lemma TracePrefix<D>(t: Topology<D>, start: string, initial: WorkflowState<D>, clock: nat -> string,
                       short: seq<ExecutionLog<D>>, long: seq<ExecutionLog<D>>)
    requires IsTrace(t, start, initial, clock, short) && IsTrace(t, start, initial, clock, long)
    requires |short| < |long|
    ensures short == long[..|short|]
    ensures After(t, start, initial, short) == At(long[|short|].nodeName, StateBefore(initial, long, |short|))
    ensures long[|short|].nodeName !in t.ends && long[|short|].nodeName in t.nodes
  {
    TracesAgree(t, start, initial, clock, short, long, |short|);
    assert EntryOk(t, start, initial, clock, long, |short|);
    if |short| > 0 {
      assert short[|short| - 1] == long[|short| - 1];
    }
  }

  /** Two traces of the same length are the same trace. */
  lemma TracesEqual<D>(t: Topology<D>, start: string, initial: WorkflowState<D>, clock: nat -> string,
                       a: seq<ExecutionLog<D>>, b: seq<ExecutionLog<D>>)
    requires IsTrace(t, start, initial, clock, a) && IsTrace(t, start, initial, clock, b)
    requires |a| == |b|
    ensures a == b
  {
    TracesAgree(t, start, initial, clock, a, b, |a|);
    assert a == a[..|a|] && b == b[..|b|];
  }

  /** A run that stops successfully never also reaches an unknown node. */
  lemma CompletedExcludesUnknown<D>(t: Topology<D>, start: string, initial: WorkflowState<D>, clock: nat -> string,
                                    maxSteps: int, s: WorkflowState<D>, logs: seq<ExecutionLog<D>>,
                                    w: seq<ExecutionLog<D>>, name: string)
    requires IsTrace(t, start, initial, clock, logs)
    requires StoppedWith(t, After(t, start, initial, logs), s, |logs| < maxSteps)
    ensures !ReachedUnknown(t, start, initial, clock, maxSteps, w, name)
  {
    if IsTrace(t, start, initial, clock, w) {
      if |logs| < |w| {
        TracePrefix(t, start, initial, clock, logs, w);
      } else if |w| < |logs| {
        TracePrefix(t, start, initial, clock, w, logs);
      } else {
        TracesEqual(t, start, initial, clock, logs, w);
      }
    }
  }

  /** A run that stops successfully within the budget never also runs out of it. */
  lemma CompletedExcludesBudget<D>(t: Topology<D>, start: string, initial: WorkflowState<D>, clock: nat -> string,
                                   maxSteps: int, s: WorkflowState<D>, logs: seq<ExecutionLog<D>>,
                                   w: seq<ExecutionLog<D>>)
    requires IsTrace(t, start, initial, clock, logs) && |logs| <= maxSteps
    requires StoppedWith(t, After(t, start, initial, logs), s, |logs| < maxSteps)
    ensures !OutOfBudget(t, start, initial, clock, maxSteps, w)
  {
    if IsTrace(t, start, initial, clock, w) {
      if |logs| < |w| {
        TracePrefix(t, start, initial, clock, logs, w);
      } else if |logs| == |w| {
        TracesEqual(t, start, initial, clock, logs, w);
      }
    }
  }

  /** Reaching an unknown node and running out of budget exclude each other. */
  lemma UnknownExcludesBudget<D>(t: Topology<D>, start: string, initial: WorkflowState<D>, clock: nat -> string,
                                 maxSteps: int, w: seq<ExecutionLog<D>>, name: string, v: seq<ExecutionLog<D>>)
    requires ReachedUnknown(t, start, initial, clock, maxSteps, w, name)
    ensures !OutOfBudget(t, start, initial, clock, maxSteps, v)
  {
    if IsTrace(t, start, initial, clock, v) && |v| == (if maxSteps < 0 then 0 else maxSteps) {
      TracePrefix(t, start, initial, clock, w, v);
    }
  }

  /** The unknown node a run reaches is determined by the graph and the initial state. */
  lemma UnknownIsUnique<D>(t: Topology<D>, start: string, initial: WorkflowState<D>, clock: nat -> string,
                           maxSteps: int, w: seq<ExecutionLog<D>>, name: string, v: seq<ExecutionLog<D>>, other: string)
    requires ReachedUnknown(t, start, initial, clock, maxSteps, w, name)
    requires ReachedUnknown(t, start, initial, clock, maxSteps, v, other)
    ensures name == other
  {
    if |w| < |v| {
      TracePrefix(t, start, initial, clock, w, v);
    } else if |v| < |w| {
      TracePrefix(t, start, initial, clock, v, w);
    } else {
      TracesEqual(t, start, initial, clock, w, v);
    }
  }

  /** At most one result is explained by the traces of a graph. */
  lemma ExplainedUniquely<D(!new)>(t: Topology<D>, start: string, initial: WorkflowState<D>, clock: nat -> string,
                                   maxSteps: int, r1: RunResult<D>, r2: RunResult<D>)
    requires Explains(t, start, initial, clock, maxSteps, r1)
    requires Explains(t, start, initial, clock, maxSteps, r2)
    ensures r1 == r2
  {
    match r1 {
      case Completed(s1, l1) =>
        match r2 {
          case Completed(s2, l2) =>
            if |l1| < |l2| {
              TracePrefix(t, start, initial, clock, l1, l2);
            } else if |l2| < |l1| {
              TracePrefix(t, start, initial, clock, l2, l1);
            } else {
              TracesEqual(t, start, initial, clock, l1, l2);
            }
          case Failed(NodeNotFound(n)) =>
            var w :| ReachedUnknown(t, start, initial, clock, maxSteps, w, n);
            CompletedExcludesUnknown(t, start, initial, clock, maxSteps, s1, l1, w, n);
          case Failed(MaxStepsExceeded(_)) =>
            var w :| OutOfBudget(t, start, initial, clock, maxSteps, w);
            CompletedExcludesBudget(t, start, initial, clock, maxSteps, s1, l1, w);
        }
      case Failed(NodeNotFound(n1)) =>
        var w :| ReachedUnknown(t, start, initial, clock, maxSteps, w, n1);
        match r2 {
          case Completed(s2, l2) =>
            CompletedExcludesUnknown(t, start, initial, clock, maxSteps, s2, l2, w, n1);
          case Failed(NodeNotFound(n2)) =>
            var v :| ReachedUnknown(t, start, initial, clock, maxSteps, v, n2);
            UnknownIsUnique(t, start, initial, clock, maxSteps, w, n1, v, n2);
          case Failed(MaxStepsExceeded(_)) =>
            var v :| OutOfBudget(t, start, initial, clock, maxSteps, v);
            UnknownExcludesBudget(t, start, initial, clock, maxSteps, w, n1, v);
        }
      case Failed(MaxStepsExceeded(_)) =>
        var w :| OutOfBudget(t, start, initial, clock, maxSteps, w);
        match r2 {
          case Completed(s2, l2) =>
            CompletedExcludesBudget(t, start, initial, clock, maxSteps, s2, l2, w);
          case Failed(NodeNotFound(n2)) =>
            var v :| ReachedUnknown(t, start, initial, clock, maxSteps, v, n2);
            UnknownExcludesBudget(t, start, initial, clock, maxSteps, v, n2, w);
          case Failed(MaxStepsExceeded(_)) =>
        }
    }
  }

  /**
   * A run completes with final state `s` and log `logs` exactly when `logs`
   * is a trace within the budget after which the run stops with `s`.
   */
  lemma RunCompletedIff<D(!new)>(t: Topology<D>, initial: WorkflowState<D>, maxSteps: int, clock: nat -> string,
                                 s: WorkflowState<D>, logs: seq<ExecutionLog<D>>)
    requires t.start.Some? && t.start.value != ""
    ensures RunOutcome(t, initial, maxSteps, clock) == Completed(s, logs) <==>
              && IsTrace(t, t.start.value, initial, clock, logs)
              && |logs| <= maxSteps
              && StoppedWith(t, After(t, t.start.value, initial, logs), s, |logs| < maxSteps)
  {
    RunExplained(t, initial, maxSteps, clock);
    var r := Completed(s, logs);
    if Explains(t, t.start.value, initial, clock, maxSteps, r) {
      ExplainedUniquely(t, t.start.value, initial, clock, maxSteps, r, RunOutcome(t, initial, maxSteps, clock));
    }
  }

  /** A run fails on the unknown node `name` exactly when some trace within the budget leads to it. */
  lemma RunUnknownIff<D(!new)>(t: Topology<D>, initial: WorkflowState<D>, maxSteps: int, clock: nat -> string, name: string)
    requires t.start.Some? && t.start.value != ""
    ensures RunOutcome(t, initial, maxSteps, clock) == Failed(NodeNotFound(name)) <==>
              exists logs :: ReachedUnknown(t, t.start.value, initial, clock, maxSteps, logs, name)
  {
    RunExplained(t, initial, maxSteps, clock);
    var r := Failed(NodeNotFound(name));
    if Explains(t, t.start.value, initial, clock, maxSteps, r) {
      ExplainedUniquely(t, t.start.value, initial, clock, maxSteps, r, RunOutcome(t, initial, maxSteps, clock));
    }
  }

  /**
   * A run fails with the budget error exactly when it is still active after
   * `maxSteps` executions (after none, when `maxSteps <= 0`); the error names the budget.
   */
  lemma RunBudgetIff<D(!new)>(t: Topology<D>, initial: WorkflowState<D>, maxSteps: int, clock: nat -> string)
    requires t.start.Some? && t.start.value != ""
    ensures RunOutcome(t, initial, maxSteps, clock).Failed? && RunOutcome(t, initial, maxSteps, clock).error.MaxStepsExceeded? <==>
              exists logs :: OutOfBudget(t, t.start.value, initial, clock, maxSteps, logs)
    ensures RunOutcome(t, initial, maxSteps, clock).Failed? && RunOutcome(t, initial, maxSteps, clock).error.MaxStepsExceeded? ==>
              RunOutcome(t, initial, maxSteps, clock).error.maxSteps == maxSteps
  {
    RunExplained(t, initial, maxSteps, clock);
    var r := Failed(MaxStepsExceeded(maxSteps));
    if Explains(t, t.start.value, initial, clock, maxSteps, r) {
      ExplainedUniquely(t, t.start.value, initial, clock, maxSteps, r, RunOutcome(t, initial, maxSteps, clock));
    }
  }

  /** A budget of zero or less fails every run that has a start node, before any node executes. */
  lemma NonPositiveBudget<D>(t: Topology<D>, initial: WorkflowState<D>, maxSteps: int, clock: nat -> string)
    requires t.start.Some? && t.start.value != ""
    requires maxSteps <= 0
    ensures RunOutcome(t, initial, maxSteps, clock) == Failed(MaxStepsExceeded(maxSteps))
  {
  }

  /** A start node that is also an end node is not executed: the initial state comes back with no log. */
  lemma StartIsEnd<D>(t: Topology<D>, initial: WorkflowState<D>, maxSteps: int, clock: nat -> string)
    requires t.start.Some? && t.start.value != "" && t.start.value in t.ends
    requires maxSteps > 0
    ensures RunOutcome(t, initial, maxSteps, clock) == Completed(initial, [])
  {
  }
}
