# Workflow engine: a verified model

This is a model of the core of a small graph-based workflow engine, written in Dafny.

- **Nodes** are named steps. Each one transforms a shared workflow state, which has a `data` area and a `metadata` area.
- **Edges** lead from one node to the next. A fixed edge always names the same node. A conditional edge asks a router function for the next node's name.
- **The run loop** starts at the start node. It executes nodes and follows edges until one of these happens:
  - control reaches an end node;
  - the node just executed has no outgoing edge;
  - a name that is not in the graph comes up;
  - the step budget (`max_steps`) is exhausted.
- **The tool registry** stores step implementations by name, together with a description each.
- **The code-review workflow** is built on top of the engine. It has five tools:
  1. extract the functions of a piece of code;
  2. score their complexity;
  3. detect issues;
  4. suggest improvements;
  5. compute a quality score out of 100.

  A router repeats detect / suggest / score until the score reaches the threshold (70 unless the state says otherwise) or three iterations have run.

The files are:

| file | contents |
|---|---|
| `wrappers.dfy` | `Option` and `Result` |
| `text.dfy` | decimal rendering of numbers, list rendering, ASCII lower-casing, substring search |
| `workflow.dfy` | the engine |
| `workflow_trace.dfy` | a loop-free description of what a run produces |
| `registry.dfy` | the tool registry and the `tool` decorator |
| `seqs.dfy` | concatenation of a sequence of sequences, and associativity of `+` |
| `code_review.dfy` | the five tools, the router, the graph wiring and the tool registration |
| `code_review_run.dfy` | how a run of the wired review graph goes |

### How the engine is modelled

- **State.** `WorkflowState<D>` is generic in its `data` payload. `metadata` is a `map<string, string>`.
- **The graph.**
  - `WorkflowGraph` is a class whose fields are updated in place by its mutators.
  - `WorkflowBuilder` holds the graph and returns itself from every call.
  - `Shape()` is the graph's content as a value (`Topology`).
- **The run.**
  - `Run` is the source's `while` loop. Its postcondition ties the result to `RunOutcome`, a recursive definition of the same traversal.
  - `WorkflowTrace` then says what `RunOutcome` means without recursion. A log is a *trace* when:
    - entry `i` has step `i` and timestamp `clock(i)`;
    - it names the start node, or the node the previous entry's edge chose;
    - it is not an end node;
    - it holds the state that node left.
  - Completion, an unknown node and an exhausted budget are each characterised by such a trace, in both directions.
  - A result explained by traces is unique.
- **Failures.** A failed run returns the error alone, with no logs. This is because the source raises an exception and its local log list is lost.

### How the code-review workflow is modelled

- **Data.** The dictionary keys the tools read and write become the `Option` fields of the record `ReviewData`. `None` stands for an absent key, so every `.get(key, default)` becomes `GetOr(default)`.
- **Regex scans.** The regular-expression scans over the code become the `Scanner` parameter, which reports three things:
  - the functions found, with their line counts;
  - the nesting count of a function's body, or none when the body is not found again;
  - the facts the five issue rules test.
- **Loops.** The loops of `check_complexity` and `suggest_improvements` are methods. Each is proved equal to a recursive specification, and lemmas state what that specification means.

## Model

| member | source | states |
|---|---|---|
| Workflow.Node.Execute | Desktop/workflow-engine/app/engine/workflow.py:35-42 | a callable function's result is returned; a non-callable one leaves the state as it was |
| Workflow.Edge.Evaluate | Desktop/workflow-engine/app/engine/workflow.py:50-52 | a conditional edge yields what its router returns for the state; a fixed edge yields its destination (the branch at workflow.py:117-120) |
| Workflow.WorkflowGraph.constructor | Desktop/workflow-engine/app/engine/workflow.py:57-62 | a new graph has the given id, no nodes, no edges, no start and no end nodes, and satisfies the graph invariant |
| Workflow.WorkflowGraph.AddNode | Desktop/workflow-engine/app/engine/workflow.py:64-66 | the node is stored under its name, replacing any node of that name; the invariant that every node sits under its own name is kept; edges, start and ends are unchanged |
| Workflow.WorkflowGraph.AddEdge | Desktop/workflow-engine/app/engine/workflow.py:68-70 | the outgoing edge of `from` becomes a fixed edge to `to`, replacing any earlier one; nothing else changes |
| Workflow.WorkflowGraph.AddConditionalEdge | Desktop/workflow-engine/app/engine/workflow.py:72-74 | the outgoing edge of `from` becomes the router, replacing any earlier edge; nothing else changes |
| Workflow.WorkflowGraph.SetStart | Desktop/workflow-engine/app/engine/workflow.py:76-78 | the start node becomes `name`; nothing else changes |
| Workflow.WorkflowGraph.SetEnd | Desktop/workflow-engine/app/engine/workflow.py:80-83 | `name` is an end node afterwards; it is appended only when not already listed, so the end list never holds duplicates |
| Workflow.WorkflowGraph.Run | Desktop/workflow-engine/app/engine/workflow.py:85-127 | the loop returns exactly the traversal `RunOutcome` defines: no start node (unset or empty) fails first; then per step an end node stops, an unknown node fails, the node runs and is logged, a missing edge stops, else the edge picks the next node; a run still active after `maxSteps` steps fails with the budget |
| Workflow.WorkflowBuilder.constructor | Desktop/workflow-engine/app/engine/workflow.py:132-133 | the builder holds a fresh, empty graph with the given id |
| Workflow.WorkflowBuilder.WithNode | Desktop/workflow-engine/app/engine/workflow.py:135-138 | the graph gains the node as `AddNode` does, and the builder itself is returned |
| Workflow.WorkflowBuilder.WithEdge | Desktop/workflow-engine/app/engine/workflow.py:140-143 | the graph gains the fixed edge as `AddEdge` does, and the builder itself is returned |
| Workflow.WorkflowBuilder.WithConditionalEdge | Desktop/workflow-engine/app/engine/workflow.py:145-148 | the graph gains the router as `AddConditionalEdge` does, and the builder itself is returned |
| Workflow.WorkflowBuilder.WithStart | Desktop/workflow-engine/app/engine/workflow.py:150-153 | the graph's start is set as `SetStart` does, and the builder itself is returned |
| Workflow.WorkflowBuilder.WithEnd | Desktop/workflow-engine/app/engine/workflow.py:155-158 | the end node is added as `SetEnd` does (no duplicates), and the builder itself is returned |
| Workflow.WorkflowBuilder.Build | Desktop/workflow-engine/app/engine/workflow.py:160-162 | the graph handed out is the builder's own graph object, not a copy |
| WorkflowTrace.WalkExplained | Desktop/workflow-engine/app/engine/workflow.py:95-127 | from any point of a trace, the rest of the traversal yields a result explained by an extension of that trace |
| WorkflowTrace.RunExplained | Desktop/workflow-engine/app/engine/workflow.py:85-127 | a run fails with "no start node" exactly when the start is unset or empty; otherwise its result is explained by a trace of the graph |
| WorkflowTrace.TracesAgree | Desktop/workflow-engine/app/engine/workflow.py:95-122 | two traces of the same graph and initial state agree entry by entry on their common length: the traversal is deterministic |
| WorkflowTrace.ExplainedUniquely | Desktop/workflow-engine/app/engine/workflow.py:95-127 | at most one result (completion, unknown node or budget error) is explained by the traces of a graph |
| WorkflowTrace.RunCompletedIff | Desktop/workflow-engine/app/engine/workflow.py:95-127 | a run completes with state `s` and logs `logs` iff `logs` is a trace within the budget after which control halts with `s`, either at a node without an edge or at an end node reached within the budget |
| WorkflowTrace.RunUnknownIff | Desktop/workflow-engine/app/engine/workflow.py:99-100 | a run fails on the unknown node `name` iff some trace within the budget leads to `name`, which is neither an end node nor in the graph |
| WorkflowTrace.RunBudgetIff | Desktop/workflow-engine/app/engine/workflow.py:124-125 | a run fails with the budget error iff a trace of `maxSteps` executions leaves control still moving; the error carries `maxSteps` |
| WorkflowTrace.NonPositiveBudget | Desktop/workflow-engine/app/engine/workflow.py:95-125 | with a start node and `maxSteps <= 0` the run fails with the budget error before executing anything |
| WorkflowTrace.StartIsEnd | Desktop/workflow-engine/app/engine/workflow.py:95-97 | with a positive budget, a start node that is also an end node is never executed: the run completes at once with the initial state and an empty log (with a budget of 0 or less the budget error comes first, as `NonPositiveBudget` states) |
| Registry.ToolRegistry.constructor | Desktop/workflow-engine/app/tools/registry.py:11-13 | a new registry has no tools and no descriptions |
| Registry.ToolRegistry.Register | Desktop/workflow-engine/app/tools/registry.py:15-18 | the tool and its description are stored under the name, replacing earlier ones; afterwards `Get` finds exactly that function, `Has` is true and the listing gains the entry; both key sets stay equal |
| Registry.ToolRegistry.Get | Desktop/workflow-engine/app/tools/registry.py:20-24 | succeeds exactly for registered names, with the stored function; otherwise fails with "Tool '<name>' not found in registry" |
| Registry.ToolRegistry.Has | Desktop/workflow-engine/app/tools/registry.py:26-28 | true exactly when `Get` would succeed |
| Registry.ToolRegistry.ListTools | Desktop/workflow-engine/app/tools/registry.py:30-35 | the listing has exactly the registered names as keys, each mapped to its stored description |
| Registry.ToolRegistry.Call | Desktop/workflow-engine/app/tools/registry.py:37-40 | a registered tool is applied to the argument; an unregistered name fails with `Get`'s error |
| Registry.DescriptionFor | Desktop/workflow-engine/app/tools/registry.py:18 | the description when non-empty, else the docstring when present and non-empty, else "" |
| Registry.ToolName | Desktop/workflow-engine/app/tools/registry.py:51 | the given name when non-empty, else the function's own name |
| Registry.Tool | Desktop/workflow-engine/app/tools/registry.py:48-54 | the decorator registers the function under `ToolName` with `DescriptionFor` as its description, and returns the function unchanged |
| CodeReview.ExtractFunctions | Desktop/workflow-engine/app/workflows/code_review.py:15-38 | `functions` lists every function found, in order, with its name and line count and no score; `function_count` is its length; the step is recorded; every other key is untouched |
| CodeReview.ComplexityScore | Desktop/workflow-engine/app/workflows/code_review.py:54-70 | the score is between 0 and 5; it exceeds 3 iff the function is over 30 lines and nested above 5; it is 0 iff neither holds |
| CodeReview.ScoreAll | Desktop/workflow-engine/app/workflows/code_review.py:50-73 | scoring keeps one entry per function, the total is between 0 and 5 per function, and there are at most two issues per function |
| CodeReview.ScoreAllScoresEach | Desktop/workflow-engine/app/workflows/code_review.py:72 | each function comes back in place with its own complexity score set and nothing else changed |
| CodeReview.ScoreAllTotal | Desktop/workflow-engine/app/workflows/code_review.py:73 | the total complexity is the sum of the scores set on the functions |
| CodeReview.ScoreAllIssuesInOrder | Desktop/workflow-engine/app/workflows/code_review.py:56-70 | the complexity issues are the per-function issues concatenated in function order, with "too long" before "high nesting" within a function |
| CodeReview.ScoreAllIssues | Desktop/workflow-engine/app/workflows/code_review.py:56-70 | a message is a complexity issue iff it is an issue of one of the functions: over 50 lines, or nesting above 5 |
| CodeReview.AfterCheckComplexity | Desktop/workflow-engine/app/workflows/code_review.py:41-79 | sets the complexity issues and a total between 0 and 5 per function; the functions are rescored only when the key is present; the step is recorded; other keys are untouched |
| CodeReview.ScoreFunctions | Desktop/workflow-engine/app/workflows/code_review.py:50-73 | the scoring loop computes exactly `ScoreAll` |
| CodeReview.CheckComplexity | Desktop/workflow-engine/app/workflows/code_review.py:41-79 | the tool's result is exactly `AfterCheckComplexity` |
| CodeReview.IssuesFound | Desktop/workflow-engine/app/workflows/code_review.py:88-104 | at most five issues, one per rule that fires (count given exactly); "Missing docstrings" comes first iff there is no triple-quoted string |
| CodeReview.DetectIssues | Desktop/workflow-engine/app/workflows/code_review.py:82-110 | `issues` are the issues of the scanned facts, `issue_count` is their number (at most 5), the step is recorded, and other keys are untouched |
| CodeReview.RefactorSuggestionsExact | Desktop/workflow-engine/app/workflows/code_review.py:121-123 | a refactoring suggestion is made for a function iff its score is above 3; there are never more than there are functions |
| CodeReview.RefactorSuggestionsInOrder | Desktop/workflow-engine/app/workflows/code_review.py:121-123 | the refactoring suggestions are exactly one message per function scoring above 3 (0 when unscored), in function order, and nothing else |
| CodeReview.IssueAdviceInOrder | Desktop/workflow-engine/app/workflows/code_review.py:125-131 | the issue advice is the advice of each issue, concatenated in issue order |
| CodeReview.AdviceIsFixed | Desktop/workflow-engine/app/workflows/code_review.py:125-131 | advice for issues is only ever the docstring, logging or exception text |
| CodeReview.SplitAdviceIff | Desktop/workflow-engine/app/workflows/code_review.py:133-134 | "Consider splitting into multiple modules" is suggested iff there are more than 10 functions |
| CodeReview.AfterSuggestImprovements | Desktop/workflow-engine/app/workflows/code_review.py:113-139 | `suggestions` are the refactorings, then the advice per issue, then the split advice; absent keys count as empty lists; the step is recorded; other keys are untouched |
| CodeReview.CollectRefactors | Desktop/workflow-engine/app/workflows/code_review.py:121-123 | the first loop collects exactly the refactoring suggestions |
| CodeReview.AddAdvice | Desktop/workflow-engine/app/workflows/code_review.py:126-131 | one pass of the second loop appends the advice for the issue (docstring, print statement, except; each tested on the lower-cased issue) |
| CodeReview.SuggestImprovements | Desktop/workflow-engine/app/workflows/code_review.py:113-139 | the tool's result is exactly `AfterSuggestImprovements` |
| CodeReview.QualityScore | Desktop/workflow-engine/app/workflows/code_review.py:148-150 | 100 minus 10 per issue minus 5 per complexity point, clamped to [0, 100] |
| CodeReview.CalculateQualityScore | Desktop/workflow-engine/app/workflows/code_review.py:142-156 | the quality score is `QualityScore` of the issue count and total complexity (0 when absent); the iteration counter goes up by one from 0 when absent; the step is recorded; other keys are untouched |
| CodeReview.RouteAfterScore | Desktop/workflow-engine/app/workflows/code_review.py:162-171 | the router answers only "end" or "detect_issues"; it answers "end" iff the score (0 when absent) reaches the threshold (70 when absent) or the iteration (0 when absent) has reached 3 |
| CodeReview.CreateCodeReviewWorkflow | Desktop/workflow-engine/app/workflows/code_review.py:159-192 | the builder holds a fresh graph with the six nodes and their descriptions, the four fixed edges, the router on the scoring node, start "extract_functions" and the single end "end" |
| CodeReview.RegisterReviewTools | Desktop/workflow-engine/app/workflows/code_review.py:15-143 | the five decorators register each tool under its function name with the decorator's description; nothing else in the registry changes |
| CodeReviewRun.ReviewTopologyShaped | Desktop/workflow-engine/app/workflows/code_review.py:173-190 | the wired graph has the review shape: the fixed chain, the router closing the round, only the scoring node moving the iteration counter, and "end" as the only end |
| CodeReviewRun.WalkRounds | Desktop/workflow-engine/app/engine/workflow.py:95-127 | from "detect_issues" in round `j` (iteration `j` < 3, with `2 + 3j` entries logged and a budget of at least 12), the traversal is exactly the rounds loop: the budget is never exhausted |
| CodeReviewRun.RoundsResultCount | Desktop/workflow-engine/app/workflows/code_review.py:162-171 | the remaining rounds complete with an iteration counter between `j + 1` and 3 |
| CodeReviewRun.RoundsResultNames | Desktop/workflow-engine/app/workflows/code_review.py:173-190 | the remaining rounds log detect / suggest / score once per round, in that order |
| CodeReviewRun.ShapedRunBounded | Desktop/workflow-engine/app/workflows/code_review.py:159-192 | for a graph of the review shape, no initial iteration and a budget of at least 12: the run completes after 1 to 3 rounds, logs exactly extract, check and then the rounds, executes at most 11 nodes, and never executes "end" |
| CodeReviewRun.ReviewRunBounded | Desktop/workflow-engine/app/workflows/code_review.py:159-192 | the same bound for the graph `CreateCodeReviewWorkflow` builds |

## Left out

- The HTTP layer, the request and response models and the application entry point are not part of this model. Only the engine, the registry and the code-review workflow are.
- `async`/`await`: a node's function is called synchronously, so a result that must be awaited is simply the function's result. There is no concurrency.
- Timestamps: `datetime.now().isoformat()` becomes the parameter `clock`, which gives the timestamp of step `i`.
- A missing `graph_id` gets a random UUID in the source. Here the caller always supplies the identifier, and `CreateCodeReviewWorkflow` takes it as a parameter.
- The regular-expression scans of `extract_functions`, `check_complexity` and `detect_issues` are the `Scanner` parameter. The model trusts whatever names, line counts, nesting counts and rule facts it reports. The regular expressions themselves and the line counting are not modelled.
- `inspect.getdoc` is modelled as an optional docstring given to `Registry.Tool`.
- `str.lower()` is modelled on ASCII letters only. No Unicode case mapping.
- Exceptions raised inside step functions or routers are not modelled. Neither is a step function that returns something other than a state. Step functions are total.
- Node functions mutate the state object in place, so the caller's initial state object is changed too. The model passes states as values, so this aliasing is not captured. `Build` returning the same graph object is captured.
- `data` is a dictionary of arbitrary values. The code-review workflow's keys become a typed record, and a value of the wrong type is not modelled.
- `metadata` is modelled as a map from strings to strings. The workflow only ever writes the step name into it.
- `state_snapshot` is `model_dump()` of the state, which is a copy. The model stores the state value itself.
- The global `registry` instance is modelled as a registry passed in explicitly. Module import is modelled as one call of `RegisterReviewTools`.
- `*args`/`**kwargs` of `call` are modelled as one argument of the tool's argument type.
- `ToolRegistry.get` raises `KeyError`, and `run` raises `ValueError` or `RuntimeError`. These become `Failure` and `Failed` results that carry the same information: the message, the missing node's name, or the budget.
- A failed run keeps no logs: `run` raises, so the log list it has collected is local and never reaches the caller.
- Registry.ToolRegistry.ListTools: returns a `map`, so the insertion order of the source's dictionary (the order in which tools were registered) is not modelled.
- Default arguments (`max_steps=50` of `run`, `description=""` of `add_node`, `node` and `register`) are not modelled as defaults: callers always pass them.
- Registry.Tool: `registry.Valid()` (tools and descriptions have the same keys) is required of the caller. The source keeps this by construction.
- CodeReviewRun.ShapedRunBounded: assumes no initial `iteration` key and a budget of at least 12. With a pre-set iteration, or with fewer steps, the run is described only by `WorkflowGraph.Run` and the trace lemmas. A three-round run needs 12 steps, because the end node is checked at step 11 (the source's default of 50 is enough).
- CodeReviewRun.ReviewRunBounded: does not restate that "end" is never executed. `ShapedRunBounded`, which it applies, states it.
- CodeReview.RegisterReviewTools: states the registry's new maps and not the `Get`/`Has`/`ListTools` views of them. Those follow from `Register`'s contract one tool at a time.
