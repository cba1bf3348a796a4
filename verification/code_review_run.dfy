/**
 * How a run of the wired code-review graph goes: two set-up steps, then one
 * to three rounds of detect / suggest / score, after which the router sends
 * control to the "end" node, which is never executed.
 */
module CodeReviewRun {
  import opened Wrappers
  import opened Workflow
  import opened CodeReview
  import opened Seqs

  const Round: seq<string> := ["detect_issues", "suggest_improvements", "calculate_quality_score"]

  function Rounds(k: nat): seq<string> {
    if k == 0 then [] else Round + Rounds(k - 1)
  }

  /** The node names of a run with `k` scoring rounds. */
  function Schedule(k: nat): seq<string> {
    ["extract_functions", "check_complexity"] + Rounds(k)
  }

  /** The names of the executed nodes, in execution order. */
  function NodeNames<D>(logs: seq<ExecutionLog<D>>): (names: seq<string>)
    ensures |names| == |logs|
  {
    if |logs| == 0 then [] else NodeNames(logs[..|logs| - 1]) + [logs[|logs| - 1].nodeName]
  }

  lemma NodeNamesAppend<D>(logs: seq<ExecutionLog<D>>, e: ExecutionLog<D>)
    ensures NodeNames(logs + [e]) == NodeNames(logs) + [e.nodeName]
  {
    assert (logs + [e])[..|logs|] == logs;
  }

  /** One iteration of the traversal from a node that is not an end node, is known and has an edge. */
  lemma WalkStep<D>(t: Topology<D>, current: string, state: WorkflowState<D>, step: nat, maxSteps: int,
                    logs: seq<ExecutionLog<D>>, clock: nat -> string)
    requires step < maxSteps && current !in t.ends && current in t.nodes && current in t.edges
    ensures var next := t.nodes[current].Execute(state);
            Walk(t, current, state, step, maxSteps, logs, clock)
            == Walk(t, t.edges[current].Evaluate(next), next, step + 1, maxSteps,
                    logs + [ExecutionLog(step, current, clock(step), next)], clock)
  {
  }

  /**
   * What a run of the review graph relies on: it starts at extract_functions,
   * the two set-up nodes and the three round nodes are chained by fixed edges
   * and the round is closed by `RouteAfterScore`, only the scoring node moves
   * the iteration counter, and "end" is the only end node.
   */
  ghost predicate ReviewShaped(t: Topology<ReviewData>) {
    && t.start == Some("extract_functions") && t.ends == ["end"]
    && "extract_functions" in t.nodes && "extract_functions" in t.edges
    && "check_complexity" in t.nodes && "check_complexity" in t.edges
    && "detect_issues" in t.nodes && "detect_issues" in t.edges
    && "suggest_improvements" in t.nodes && "suggest_improvements" in t.edges
    && "calculate_quality_score" in t.nodes && "calculate_quality_score" in t.edges
    && t.edges["extract_functions"] == Fixed("check_complexity")
    && t.edges["check_complexity"] == Fixed("detect_issues")
    && t.edges["detect_issues"] == Fixed("suggest_improvements")
    && t.edges["suggest_improvements"] == Fixed("calculate_quality_score")
    && t.edges["calculate_quality_score"] == Conditional(RouteAfterScore)
    && (forall s :: t.nodes["extract_functions"].Execute(s).data.iteration == s.data.iteration)
    && (forall s :: t.nodes["check_complexity"].Execute(s).data.iteration == s.data.iteration)
    && (forall s :: t.nodes["detect_issues"].Execute(s).data.iteration == s.data.iteration)
    && (forall s :: t.nodes["suggest_improvements"].Execute(s).data.iteration == s.data.iteration)
    && (forall s :: t.nodes["calculate_quality_score"].Execute(s).data.iteration
                    == Some(s.data.iteration.GetOr(0) + 1))
  }

  /** The state one round of detect / suggest / score leaves. */
  function AfterRound(t: Topology<ReviewData>, st: ReviewState): ReviewState
    requires ReviewShaped(t)
  {
    var s1 := t.nodes["detect_issues"].Execute(st);
    var s2 := t.nodes["suggest_improvements"].Execute(s1);
    t.nodes["calculate_quality_score"].Execute(s2)
  }

  /** The log entries of one round starting at step `n`. */
  function RoundLogs(t: Topology<ReviewData>, st: ReviewState, n: nat, clock: nat -> string)
    : seq<ExecutionLog<ReviewData>>
    requires ReviewShaped(t)
  {
    var s1 := t.nodes["detect_issues"].Execute(st);
    var s2 := t.nodes["suggest_improvements"].Execute(s1);
    [ExecutionLog(n, "detect_issues", clock(n), s1),
     ExecutionLog(n + 1, "suggest_improvements", clock(n + 1), s2),
     ExecutionLog(n + 2, "calculate_quality_score", clock(n + 2), t.nodes["calculate_quality_score"].Execute(s2))]
  }

  /** Logging three more nodes appends their names. */
  lemma NodeNamesAppend3<D>(logs: seq<ExecutionLog<D>>, e1: ExecutionLog<D>, e2: ExecutionLog<D>, e3: ExecutionLog<D>)
    ensures NodeNames(logs + [e1, e2, e3]) == NodeNames(logs) + [e1.nodeName, e2.nodeName, e3.nodeName]
  {
    NodeNamesAppend(logs, e1);
    NodeNamesAppend(logs + [e1], e2);
    NodeNamesAppend(logs + [e1] + [e2], e3);
    assert logs + [e1] + [e2] + [e3] == logs + [e1, e2, e3];
  }

  /** One round counts one more iteration and logs the three round nodes. */
  lemma RoundNames(t: Topology<ReviewData>, st: ReviewState, logs: seq<ExecutionLog<ReviewData>>, clock: nat -> string)
    requires ReviewShaped(t)
    ensures AfterRound(t, st).data.iteration == Some(st.data.iteration.GetOr(0) + 1)
    ensures NodeNames(logs + RoundLogs(t, st, |logs|, clock)) == NodeNames(logs) + Round
  {
    RoundCounts(t, st);
    var rl := RoundLogs(t, st, |logs|, clock);
    NodeNamesAppend3(logs, rl[0], rl[1], rl[2]);
    assert [rl[0], rl[1], rl[2]] == rl;
  }

  lemma RoundCounts(t: Topology<ReviewData>, st: ReviewState)
    requires ReviewShaped(t)
    ensures AfterRound(t, st).data.iteration == Some(st.data.iteration.GetOr(0) + 1)
  {
    var s1 := t.nodes["detect_issues"].Execute(st);
    var s2 := t.nodes["suggest_improvements"].Execute(s1);
    assert s1.data.iteration == st.data.iteration;
    assert s2.data.iteration == st.data.iteration;
  }

  /** One round: three nodes executed and logged, then the router decides. */
  lemma WalkRound(t: Topology<ReviewData>, maxSteps: int, clock: nat -> string, st: ReviewState,
                  logs: seq<ExecutionLog<ReviewData>>)
    requires ReviewShaped(t)
    requires |logs| + 3 <= maxSteps
    ensures Walk(t, "detect_issues", st, |logs|, maxSteps, logs, clock)
            == Walk(t, RouteAfterScore(AfterRound(t, st)), AfterRound(t, st), |logs| + 3, maxSteps,
                    logs + RoundLogs(t, st, |logs|, clock), clock)
  {
    var n := |logs|;
    var s1 := t.nodes["detect_issues"].Execute(st);
    var s2 := t.nodes["suggest_improvements"].Execute(s1);
    var e1 := ExecutionLog(n, "detect_issues", clock(n), s1);
    var e2 := ExecutionLog(n + 1, "suggest_improvements", clock(n + 1), s2);
    WalkStep(t, "detect_issues", st, n, maxSteps, logs, clock);
    WalkStep(t, "suggest_improvements", s1, n + 1, maxSteps, logs + [e1], clock);
    WalkStep(t, "calculate_quality_score", s2, n + 2, maxSteps, logs + [e1] + [e2], clock);
    assert logs + [e1] + [e2] + [RoundLogs(t, st, n, clock)[2]] == logs + RoundLogs(t, st, n, clock);
  }

  /** Reaching "end" within the budget stops the run without executing it. */
  lemma EndStops<D>(t: Topology<D>, s: WorkflowState<D>, step: nat, maxSteps: int,
                    logs: seq<ExecutionLog<D>>, clock: nat -> string)
    requires t.ends == ["end"]
    requires step < maxSteps
    ensures Walk(t, "end", s, step, maxSteps, logs, clock) == Completed(s, logs)
  {
  }

  /**
   * The detect / suggest / score loop on its own: rounds are repeated until
   * the router sends control to "end".
   */
  function RoundsResult(t: Topology<ReviewData>, st: ReviewState, logs: seq<ExecutionLog<ReviewData>>,
                        clock: nat -> string): RunResult<ReviewData>
    requires ReviewShaped(t) && st.data.iteration.GetOr(0) < MaxIterations
    decreases MaxIterations - st.data.iteration.GetOr(0)
  {
    var s3 := AfterRound(t, st);
    var logs3 := logs + RoundLogs(t, st, |logs|, clock);
    if RouteAfterScore(s3) == "end" then Completed(s3, logs3)
    else RoundsResult(t, s3, logs3, clock)
  }

  /**
   * Entering "detect_issues" in round `j` (iteration counter `j`, 0 meaning
   * absent) with the set-up and earlier rounds logged, the traversal runs
   * exactly the rounds loop: a budget of 12 steps is never exhausted.
   */
  lemma {:induction false} WalkRounds(t: Topology<ReviewData>, maxSteps: int, clock: nat -> string,
                                      j: nat, st: ReviewState, logs: seq<ExecutionLog<ReviewData>>)
    requires ReviewShaped(t)
    requires j < MaxIterations && st.data.iteration.GetOr(0) == j
    requires |logs| == 2 + 3 * j
    requires maxSteps >= 12
    ensures Walk(t, "detect_issues", st, |logs|, maxSteps, logs, clock) == RoundsResult(t, st, logs, clock)
    decreases MaxIterations - j
  {
    var s3 := AfterRound(t, st);
    var logs3 := logs + RoundLogs(t, st, |logs|, clock);
    assert |logs3| == |logs| + 3;
    RoundCounts(t, st);
    WalkRound(t, maxSteps, clock, st, logs);
    if RouteAfterScore(s3) == "end" {
      EndStops(t, s3, |logs3|, maxSteps, logs3, clock);
    } else {
      WalkRounds(t, maxSteps, clock, j + 1, s3, logs3);
    }
  }

  /**
   * The rounds loop from iteration counter `j` completes with the counter at
   * some `k` with `j < k <= 3`.
   */
  lemma {:induction false} RoundsResultCount(t: Topology<ReviewData>, j: nat, st: ReviewState,
                                             logs: seq<ExecutionLog<ReviewData>>, clock: nat -> string)
    requires ReviewShaped(t)
    requires j < MaxIterations && st.data.iteration.GetOr(0) == j
    ensures var r := RoundsResult(t, st, logs, clock);
            && r.Completed?
            && r.finalState.data.iteration.Some?
            && j < r.finalState.data.iteration.value <= MaxIterations
    decreases MaxIterations - j
  {
    RoundCounts(t, st);
    var s3 := AfterRound(t, st);
    if RouteAfterScore(s3) != "end" {
      RoundsResultCount(t, j + 1, s3, logs + RoundLogs(t, st, |logs|, clock), clock);
    }
  }

  /** ... and logs exactly the `k - j` rounds it ran. */
  lemma {:induction false} RoundsResultNames(t: Topology<ReviewData>, j: nat, st: ReviewState,
                                             logs: seq<ExecutionLog<ReviewData>>, clock: nat -> string)
    requires ReviewShaped(t)
    requires j < MaxIterations && st.data.iteration.GetOr(0) == j
    ensures var r := RoundsResult(t, st, logs, clock);
            r.Completed? && r.finalState.data.iteration.Some? && r.finalState.data.iteration.value >= j
            && NodeNames(r.logs) == NodeNames(logs) + Rounds(r.finalState.data.iteration.value - j)
    decreases MaxIterations - j
  {
    RoundsResultCount(t, j, st, logs, clock);
    var s3 := AfterRound(t, st);
    var logs3 := logs + RoundLogs(t, st, |logs|, clock);
    RoundNames(t, st, logs, clock);
    if RouteAfterScore(s3) == "end" {
      assert Rounds(1) == Round;
    } else {
      RoundsResultNames(t, j + 1, s3, logs3, clock);
      var k := RoundsResult(t, s3, logs3, clock).finalState.data.iteration.value;
      assert Rounds(k - j) == Round + Rounds(k - (j + 1));
      Associative(NodeNames(logs), Round, Rounds(k - (j + 1)));
    }
  }

  /** The wired review graph has the shape its runs rely on. */
  lemma ReviewTopologyShaped(scan: Scanner)
    ensures ReviewShaped(ReviewTopology(scan))
  {
    var t := ReviewTopology(scan);
    forall s: ReviewState
      ensures t.nodes["extract_functions"].Execute(s).data.iteration == s.data.iteration
    {
      assert t.nodes["extract_functions"].Execute(s) == ExtractFunctions(scan, s);
    }
    forall s: ReviewState
      ensures t.nodes["check_complexity"].Execute(s).data.iteration == s.data.iteration
    {
      assert t.nodes["check_complexity"].Execute(s) == AfterCheckComplexity(scan, s);
    }
    forall s: ReviewState
      ensures t.nodes["detect_issues"].Execute(s).data.iteration == s.data.iteration
    {
      assert t.nodes["detect_issues"].Execute(s) == DetectIssues(scan, s);
    }
    forall s: ReviewState
      ensures t.nodes["suggest_improvements"].Execute(s).data.iteration == s.data.iteration
    {
      assert t.nodes["suggest_improvements"].Execute(s) == AfterSuggestImprovements(s);
    }
    forall s: ReviewState
      ensures t.nodes["calculate_quality_score"].Execute(s).data.iteration == Some(s.data.iteration.GetOr(0) + 1)
    {
      assert t.nodes["calculate_quality_score"].Execute(s) == CalculateQualityScore(s);
    }
  }

  /** The two set-up steps: extract_functions then check_complexity, leaving the counter as it was. */
  lemma SetUp(t: Topology<ReviewData>, initial: ReviewState, maxSteps: int, clock: nat -> string)
    returns (s2: ReviewState, logs2: seq<ExecutionLog<ReviewData>>)
    requires ReviewShaped(t)
    requires maxSteps >= 2
    ensures s2.data.iteration == initial.data.iteration
    ensures |logs2| == 2 && NodeNames(logs2) == ["extract_functions", "check_complexity"]
    ensures RunOutcome(t, initial, maxSteps, clock) == Walk(t, "detect_issues", s2, 2, maxSteps, logs2, clock)
  {
    var s1 := t.nodes["extract_functions"].Execute(initial);
    var e1 := ExecutionLog(0, "extract_functions", clock(0), s1);
    WalkStep(t, "extract_functions", initial, 0, maxSteps, [], clock);
    s2 := t.nodes["check_complexity"].Execute(s1);
    var e2 := ExecutionLog(1, "check_complexity", clock(1), s2);
    WalkStep(t, "check_complexity", s1, 1, maxSteps, [e1], clock);
    logs2 := [e1, e2];
    assert [] + [e1] == [e1] && [e1] + [e2] == logs2;
    NodeNamesPair(e1, e2);
  }

  lemma NodeNamesPair<D>(e1: ExecutionLog<D>, e2: ExecutionLog<D>)
    ensures NodeNames([e1, e2]) == [e1.nodeName, e2.nodeName]
  {
    NodeNamesAppend([], e1);
    assert [] + [e1] == [e1];
    NodeNamesAppend([e1], e2);
    assert [e1] + [e2] == [e1, e2];
  }

  lemma {:induction false} RoundsShape(k: nat)
    ensures |Rounds(k)| == 3 * k
    ensures "end" !in Rounds(k)
  {
    if k > 0 {
      RoundsShape(k - 1);
    }
  }

  /**
   * Starting without an iteration counter and with a budget of at least 12,
   * a run of a graph of the review shape completes after 1 to 3 scoring
   * rounds, so it executes at most 11 nodes, scores at most 3 times and never
   * executes "end".
   */
  lemma ShapedRunBounded(t: Topology<ReviewData>, initial: ReviewState, maxSteps: int, clock: nat -> string)
    requires ReviewShaped(t)
    requires initial.data.iteration.None?
    requires maxSteps >= 12
    ensures var r := RunOutcome(t, initial, maxSteps, clock);
            && r.Completed?
            && r.finalState.data.iteration.Some?
            && 1 <= r.finalState.data.iteration.value <= MaxIterations
            && NodeNames(r.logs) == Schedule(r.finalState.data.iteration.value)
            && |r.logs| <= 11
            && "end" !in NodeNames(r.logs)
  {
    var s2, logs2 := SetUp(t, initial, maxSteps, clock);
    WalkRounds(t, maxSteps, clock, 0, s2, logs2);
    RoundsResultCount(t, 0, s2, logs2, clock);
    RoundsResultNames(t, 0, s2, logs2, clock);
    var r := RoundsResult(t, s2, logs2, clock);
    var k := r.finalState.data.iteration.value;
    RoundsShape(k);
  }

  /** The bound above, for the graph `CreateCodeReviewWorkflow` builds. */
  lemma ReviewRunBounded(scan: Scanner, initial: ReviewState, maxSteps: int, clock: nat -> string)
    requires initial.data.iteration.None?
    requires maxSteps >= 12
    ensures var r := RunOutcome(ReviewTopology(scan), initial, maxSteps, clock);
            && r.Completed?
            && r.finalState.data.iteration.Some?
            && 1 <= r.finalState.data.iteration.value <= MaxIterations
            && NodeNames(r.logs) == Schedule(r.finalState.data.iteration.value)
            && |r.logs| <= 11
  {
    ReviewTopologyShaped(scan);
    ShapedRunBounded(ReviewTopology(scan), initial, maxSteps, clock);
  }
}
