/**
 * The code-review workflow: five tools that score a piece of source text,
 * the routing decision that loops until the score is good enough or three
 * iterations have passed, and the graph that wires them together.
 *
 * The regular-expression scans of the text are parameters (`Scanner`): the
 * model works on the counts and names they report.
 */
module CodeReview {
  import opened Wrappers
  import opened Workflow
  import Text
  import Registry
  import opened Seqs

  /** One extracted function: its name, its line count and, once scored, its complexity score. */
  datatype FunctionInfo = FunctionInfo(name: string, lines: nat, complexityScore: Option<int>)

  /** The keys of the data area the workflow reads and writes; None is a key that is absent. */
  datatype ReviewData = ReviewData(
    code: Option<string>,
    functions: Option<seq<FunctionInfo>>,
    functionCount: Option<int>,
    complexityIssues: Option<seq<string>>,
    totalComplexity: Option<int>,
    issues: Option<seq<string>>,
    issueCount: Option<int>,
    suggestions: Option<seq<string>>,
    qualityScore: Option<int>,
    iteration: Option<int>,
    qualityThreshold: Option<int>)

  type ReviewState = WorkflowState<ReviewData>

  /** What the scans of the text report for the five issue rules. */
  datatype CodeFacts = CodeFacts(
    hasDocstring: bool,      // a triple-quoted string occurs
    globalVariables: nat,    // lines assigning an upper-case name
    longLines: seq<nat>,     // 1-based numbers of the lines over 100 characters, in order
    hasBareExcept: bool,     // an `except:` with no exception type
    printCalls: nat)         // calls of `print(`

  /** The text scans: the functions found with their line counts, the nesting count of a function's body, the rule facts. */
  datatype Scanner = Scanner(
    functionsOf: string -> seq<(string, nat)>,
    nestingOf: (string, string) -> Option<nat>,
    factsOf: string -> CodeFacts)

  // ---------------------------------------------------------------- extract_functions

  function ExtractFunctions(scan: Scanner, s: ReviewState): (r: ReviewState)
    ensures r.data.functions.Some? && r.data.functionCount == Some(|r.data.functions.value|)
    ensures var found := scan.functionsOf(s.data.code.GetOr(""));
            && |r.data.functions.value| == |found|
            && forall i :: 0 <= i < |found| ==>
                 r.data.functions.value[i] == FunctionInfo(found[i].0, found[i].1, None)
    ensures r.data == s.data.(functions := r.data.functions, functionCount := r.data.functionCount)
    ensures r.metadata == s.metadata["step" := "extract_functions"]
  {
    var found := scan.functionsOf(s.data.code.GetOr(""));
    var functions := seq(|found|, i requires 0 <= i < |found| => FunctionInfo(found[i].0, found[i].1, None));
    WorkflowState(s.data.(functions := Some(functions), functionCount := Some(|functions|)),
                  s.metadata["step" := "extract_functions"])
  }

  // ---------------------------------------------------------------- check_complexity

  predicate DeeplyNested(nesting: Option<nat>) {
    nesting.Some? && nesting.value > 5
  }

  /** 3 points for more than 50 lines, else 2 for more than 30; 2 more for nesting above 5. */
  function ComplexityScore(lines: int, nesting: Option<nat>): (score: int)
    ensures 0 <= score <= 5
    ensures score > 3 <==> lines > 30 && DeeplyNested(nesting)
    ensures score == 0 <==> lines <= 30 && !DeeplyNested(nesting)
  {
    (if lines > 50 then 3 else if lines > 30 then 2 else 0) + (if DeeplyNested(nesting) then 2 else 0)
  }

  function TooLongMessage(name: string, lines: nat): string {
    "Function '" + name + "' is too long (" + Text.NatToString(lines) + " lines)"
  }

  function HighNestingMessage(name: string): string {
    "Function '" + name + "' has high nesting level"
  }

  /** The issues reported for one function: one for length over 50, one for nesting over 5. */
  function FunctionIssues(f: FunctionInfo, nesting: Option<nat>): seq<string> {
    (if f.lines > 50 then [TooLongMessage(f.name, f.lines)] else [])
    + (if DeeplyNested(nesting) then [HighNestingMessage(f.name)] else [])
  }

  /** The outcome of scoring a list of functions. */
  datatype Scored = Scored(functions: seq<FunctionInfo>, issues: seq<string>, total: int)

  /** Scores `fs` in order, as the loop of `CheckComplexity` does. */
  function ScoreAll(scan: Scanner, code: string, fs: seq<FunctionInfo>): (r: Scored)
    ensures |r.functions| == |fs|
    ensures 0 <= r.total <= 5 * |fs|
    ensures |r.issues| <= 2 * |fs|
    decreases |fs|
  {
    if fs == [] then Scored([], [], 0)
    else
      var prev := ScoreAll(scan, code, fs[..|fs| - 1]);
      var f := fs[|fs| - 1];
      var nesting := scan.nestingOf(code, f.name);
      var score := ComplexityScore(f.lines, nesting);
      Scored(prev.functions + [f.(complexityScore := Some(score))],
             prev.issues + FunctionIssues(f, nesting),
             prev.total + score)
  }

  function SumScores(fs: seq<FunctionInfo>): int
    decreases |fs|
  {
    if fs == [] then 0 else SumScores(fs[..|fs| - 1]) + fs[|fs| - 1].complexityScore.GetOr(0)
  }

  /** One more function scored: its entry, issues and score are appended. */
  lemma ScoreAllLast(scan: Scanner, code: string, fs: seq<FunctionInfo>)
    requires fs != []
    ensures var prev := ScoreAll(scan, code, fs[..|fs| - 1]);
            var f := fs[|fs| - 1];
            var nesting := scan.nestingOf(code, f.name);
            ScoreAll(scan, code, fs)
            == Scored(prev.functions + [f.(complexityScore := Some(ComplexityScore(f.lines, nesting)))],
                      prev.issues + FunctionIssues(f, nesting),
                      prev.total + ComplexityScore(f.lines, nesting))
  {
  }

  /** Each function with the score `check_complexity` gives it. */
  function ScoredFunctions(scan: Scanner, code: string, fs: seq<FunctionInfo>): (l: seq<FunctionInfo>)
    ensures |l| == |fs|
  {
    seq(|fs|, i requires 0 <= i < |fs| => fs[i].(complexityScore := Some(ComplexityScore(fs[i].lines, scan.nestingOf(code, fs[i].name)))))
  }

  /** Each function keeps its name and line count and receives its own score, in order. */
  lemma {:induction false} ScoreAllScoresEach(scan: Scanner, code: string, fs: seq<FunctionInfo>)
    ensures ScoreAll(scan, code, fs).functions == ScoredFunctions(scan, code, fs)
    decreases |fs|
  {
    if fs != [] {
      var last := |fs| - 1;
      var init := fs[..last];
      ScoreAllScoresEach(scan, code, init);
      ScoreAllLast(scan, code, fs);
      var l := ScoredFunctions(scan, code, fs);
      assert l[..last] == ScoredFunctions(scan, code, init);
      assert l == l[..last] + [l[last]];
    }
  }

  /** The total complexity is the sum of the scores given. */
  lemma {:induction false} ScoreAllTotal(scan: Scanner, code: string, fs: seq<FunctionInfo>)
    ensures ScoreAll(scan, code, fs).total == SumScores(ScoreAll(scan, code, fs).functions)
    decreases |fs|
  {
    if fs != [] {
      var last := |fs| - 1;
      ScoreAllTotal(scan, code, fs[..last]);
      ScoreAllLast(scan, code, fs);
      var r := ScoreAll(scan, code, fs).functions;
      assert r[..last] == ScoreAll(scan, code, fs[..last]).functions;
    }
  }

  /** The issue list of each function, in order. */
  function IssueLists(scan: Scanner, code: string, fs: seq<FunctionInfo>): (l: seq<seq<string>>)
    ensures |l| == |fs|
  {
    seq(|fs|, i requires 0 <= i < |fs| => FunctionIssues(fs[i], scan.nestingOf(code, fs[i].name)))
  }

  /** The reported issues are the functions' own issues, function by function. */
  lemma {:induction false} ScoreAllIssuesInOrder(scan: Scanner, code: string, fs: seq<FunctionInfo>)
    ensures ScoreAll(scan, code, fs).issues == Concat(IssueLists(scan, code, fs))
    decreases |fs|
  {
    if fs != [] {
      var last := |fs| - 1;
      var init := fs[..last];
      ScoreAllIssuesInOrder(scan, code, init);
      ScoreAllLast(scan, code, fs);
      var l := IssueLists(scan, code, fs);
      assert l[..last] == IssueLists(scan, code, init);
    }
  }

  /** An issue is reported exactly when some function is over 50 lines or nested deeper than 5. */
  lemma ScoreAllIssues(scan: Scanner, code: string, fs: seq<FunctionInfo>, m: string)
    ensures m in ScoreAll(scan, code, fs).issues <==>
              exists i :: 0 <= i < |fs| && m in FunctionIssues(fs[i], scan.nestingOf(code, fs[i].name))
  {
    ScoreAllIssuesInOrder(scan, code, fs);
    var l := IssueLists(scan, code, fs);
    InConcat(l, m);
    if exists i :: 0 <= i < |fs| && m in FunctionIssues(fs[i], scan.nestingOf(code, fs[i].name)) {
      var i :| 0 <= i < |fs| && m in FunctionIssues(fs[i], scan.nestingOf(code, fs[i].name));
      assert m in l[i];
    }
  }

  /** The state `check_complexity` leaves: the functions are scored in place, when the key is present. */
  function AfterCheckComplexity(scan: Scanner, s: ReviewState): (r: ReviewState)
    ensures r.data.totalComplexity.Some?
    ensures 0 <= r.data.totalComplexity.value <= 5 * |s.data.functions.GetOr([])|
    ensures r.data.functions.Some? <==> s.data.functions.Some?
    ensures r.data == s.data.(functions := r.data.functions, complexityIssues := r.data.complexityIssues,
                              totalComplexity := r.data.totalComplexity)
    ensures r.metadata == s.metadata["step" := "check_complexity"]
  {
    var scored := ScoreAll(scan, s.data.code.GetOr(""), s.data.functions.GetOr([]));
    WorkflowState(s.data.(functions := if s.data.functions.Some? then Some(scored.functions) else None,
                          complexityIssues := Some(scored.issues),
                          totalComplexity := Some(scored.total)),
                  s.metadata["step" := "check_complexity"])
  }

  /** The scoring loop of `CheckComplexity`. */
  method ScoreFunctions(scan: Scanner, code: string, functions: seq<FunctionInfo>) returns (scored: Scored)
    ensures scored == ScoreAll(scan, code, functions)
  {
    var complexityIssues: seq<string> := [];
    var totalComplexity := 0;
    var scoredFunctions: seq<FunctionInfo> := [];
    for i := 0 to |functions|
      invariant Scored(scoredFunctions, complexityIssues, totalComplexity) == ScoreAll(scan, code, functions[..i])
    {
      var f := functions[i];
      ghost var before := complexityIssues;
      var complexityScore := 0;
      if f.lines > 50 {
        complexityScore := complexityScore + 3;
        complexityIssues := complexityIssues + [TooLongMessage(f.name, f.lines)];
      } else if f.lines > 30 {
        complexityScore := complexityScore + 2;
      }
      var nesting := scan.nestingOf(code, f.name);
      if nesting.Some? && nesting.value > 5 {
        complexityScore := complexityScore + 2;
        complexityIssues := complexityIssues + [HighNestingMessage(f.name)];
      }
      assert complexityScore == ComplexityScore(f.lines, nesting);
      assert complexityIssues == before + FunctionIssues(f, nesting);
      scoredFunctions := scoredFunctions + [f.(complexityScore := Some(complexityScore))];
      totalComplexity := totalComplexity + complexityScore;
      assert functions[..i + 1][..i] == functions[..i];
      ScoreAllLast(scan, code, functions[..i + 1]);
    }
    assert functions[..|functions|] == functions;
    scored := Scored(scoredFunctions, complexityIssues, totalComplexity);
  }

  method CheckComplexity(scan: Scanner, s: ReviewState) returns (r: ReviewState)
    ensures r == AfterCheckComplexity(scan, s)
  {
    var scored := ScoreFunctions(scan, s.data.code.GetOr(""), s.data.functions.GetOr([]));
    var data := s.data.(complexityIssues := Some(scored.issues), totalComplexity := Some(scored.total));
    if s.data.functions.Some? {
      data := data.(functions := Some(scored.functions));
    }
    r := WorkflowState(data, s.metadata["step" := "check_complexity"]);
  }

  // ---------------------------------------------------------------- detect_issues

  const MissingDocstrings := "Missing docstrings"
  const BareExcept := "Bare except clause found - be specific"

  function GlobalsMessage(count: nat): string {
    "Too many global variables (" + Text.NatToString(count) + ")"
  }

  /** Names at most the first three long lines. */
  function LongLinesMessage(longLines: seq<nat>): string {
    "Lines too long: " + Text.ListRepr(if |longLines| <= 3 then longLines else longLines[..3])
  }

  function PrintsMessage(count: nat): string {
    "Too many print statements (" + Text.NatToString(count) + ") - use logging"
  }

  /** The issues of the five rules, in rule order, at most one per rule. */
  function IssuesFound(facts: CodeFacts): (issues: seq<string>)
    ensures |issues| <= 5
    ensures |issues| == (if facts.hasDocstring then 0 else 1) + (if facts.globalVariables > 5 then 1 else 0)
                        + (if |facts.longLines| > 0 then 1 else 0) + (if facts.hasBareExcept then 1 else 0)
                        + (if facts.printCalls > 3 then 1 else 0)
    ensures !facts.hasDocstring <==> |issues| > 0 && issues[0] == MissingDocstrings
  {
    var docs := if facts.hasDocstring then [] else [MissingDocstrings];
    var rest := (if facts.globalVariables > 5 then [GlobalsMessage(facts.globalVariables)] else [])
                + (if |facts.longLines| > 0 then [LongLinesMessage(facts.longLines)] else [])
                + (if facts.hasBareExcept then [BareExcept] else [])
                + (if facts.printCalls > 3 then [PrintsMessage(facts.printCalls)] else []);
    assert forall m :: m in rest ==> m[0] != 'M';
    docs + rest
  }

  function DetectIssues(scan: Scanner, s: ReviewState): (r: ReviewState)
    ensures r.data.issues.Some? && r.data.issueCount == Some(|r.data.issues.value|)
    ensures r.data.issueCount.value <= 5
    ensures r.data.issues.value == IssuesFound(scan.factsOf(s.data.code.GetOr("")))
    ensures r.data == s.data.(issues := r.data.issues, issueCount := r.data.issueCount)
    ensures r.metadata == s.metadata["step" := "detect_issues"]
  {
    var issues := IssuesFound(scan.factsOf(s.data.code.GetOr("")));
    WorkflowState(s.data.(issues := Some(issues), issueCount := Some(|issues|)), s.metadata["step" := "detect_issues"])
  }

  // ---------------------------------------------------------------- suggest_improvements

  const DocstringAdvice := "Add docstrings to all functions and classes"
  const LoggingAdvice := "Replace print() with proper logging"
  const ExceptAdvice := "Use specific exception types in try-except blocks"
  const SplitAdvice := "Consider splitting into multiple modules"

  function RefactorMessage(name: string): string {
    "Refactor '" + name + "' - break into smaller functions"
  }

  /** A function is worth refactoring when its score (0 when it has none) exceeds 3. */
  predicate NeedsRefactor(f: FunctionInfo) {
    f.complexityScore.GetOr(0) > 3
  }

  function RefactorSuggestions(fs: seq<FunctionInfo>): seq<string>
    decreases |fs|
  {
    if fs == [] then []
    else RefactorSuggestions(fs[..|fs| - 1]) + (if NeedsRefactor(fs[|fs| - 1]) then [RefactorMessage(fs[|fs| - 1].name)] else [])
  }

  /** The advice one issue text calls for, by case-insensitive keyword. */
  function AdviceFor(issue: string): seq<string> {
    var low := Text.Lower(issue);
    (if Text.Contains(low, "docstring") then [DocstringAdvice] else [])
    + (if Text.Contains(low, "print statement") then [LoggingAdvice] else [])
    + (if Text.Contains(low, "except") then [ExceptAdvice] else [])
  }

  function IssueAdvice(issues: seq<string>): seq<string>
    decreases |issues|
  {
    if issues == [] then [] else IssueAdvice(issues[..|issues| - 1]) + AdviceFor(issues[|issues| - 1])
  }

  function Suggestions(fs: seq<FunctionInfo>, issues: seq<string>): seq<string> {
    RefactorSuggestions(fs) + IssueAdvice(issues) + (if |fs| > 10 then [SplitAdvice] else [])
  }

  /** A message is a refactoring suggestion exactly when some function scoring above 3 calls for it. */
  lemma {:induction false} RefactorSuggestionsExact(fs: seq<FunctionInfo>, m: string)
    ensures |RefactorSuggestions(fs)| <= |fs|
    ensures m in RefactorSuggestions(fs) <==> exists i :: 0 <= i < |fs| && NeedsRefactor(fs[i]) && m == RefactorMessage(fs[i].name)
    decreases |fs|
  {
    if fs != [] {
      var init := fs[..|fs| - 1];
      RefactorSuggestionsExact(init, m);
      var last := |fs| - 1;
      if m in RefactorSuggestions(fs) {
        if m !in RefactorSuggestions(init) {
          assert NeedsRefactor(fs[last]) && m == RefactorMessage(fs[last].name);
        } else {
          var i :| 0 <= i < |init| && NeedsRefactor(init[i]) && m == RefactorMessage(init[i].name);
          assert fs[i] == init[i];
        }
      } else {
        forall i | 0 <= i < |fs| && NeedsRefactor(fs[i])
          ensures m != RefactorMessage(fs[i].name)
        {
          if i < last {
            assert fs[i] == init[i];
          }
        }
      }
    }
  }

  /** The refactoring suggestion each function calls for: one when it scores above 3, else none. */
  function RefactorLists(fs: seq<FunctionInfo>): (l: seq<seq<string>>)
    ensures |l| == |fs|
  {
    seq(|fs|, i requires 0 <= i < |fs| => if NeedsRefactor(fs[i]) then [RefactorMessage(fs[i].name)] else [])
  }

  /** The refactoring suggestions are those of the functions, one per qualifying function, in function order. */
  lemma {:induction false} RefactorSuggestionsInOrder(fs: seq<FunctionInfo>)
    ensures RefactorSuggestions(fs) == Concat(RefactorLists(fs))
    decreases |fs|
  {
    if fs != [] {
      var last := |fs| - 1;
      RefactorSuggestionsInOrder(fs[..last]);
      assert RefactorLists(fs)[..last] == RefactorLists(fs[..last]);
    }
  }

  /** The issue advice is the advice of each issue, in issue order. */
  lemma {:induction false} IssueAdviceInOrder(issues: seq<string>)
    ensures IssueAdvice(issues) == Concat(seq(|issues|, i requires 0 <= i < |issues| => AdviceFor(issues[i])))
    decreases |issues|
  {
    if issues != [] {
      var last := |issues| - 1;
      IssueAdviceInOrder(issues[..last]);
      var l := seq(|issues|, i requires 0 <= i < |issues| => AdviceFor(issues[i]));
      assert l[..last] == seq(last, i requires 0 <= i < last => AdviceFor(issues[..last][i]));
    }
  }

  /** Every refactoring suggestion starts with 'R'. */
  lemma {:induction false} RefactorsStartWithR(fs: seq<FunctionInfo>)
    ensures forall m :: m in RefactorSuggestions(fs) ==> |m| > 0 && m[0] == 'R'
    decreases |fs|
  {
    if fs != [] {
      RefactorsStartWithR(fs[..|fs| - 1]);
      assert RefactorMessage(fs[|fs| - 1].name)[0] == 'R';
    }
  }

  /** Issue advice is only ever one of the three fixed texts. */
  lemma {:induction false} AdviceIsFixed(issues: seq<string>)
    ensures forall m :: m in IssueAdvice(issues) ==> m == DocstringAdvice || m == LoggingAdvice || m == ExceptAdvice
    decreases |issues|
  {
    if issues != [] {
      AdviceIsFixed(issues[..|issues| - 1]);
    }
  }

  /** No refactoring suggestion and no issue advice starts with 'C'. */
  lemma OtherSuggestionsNotC(fs: seq<FunctionInfo>, issues: seq<string>)
    ensures forall m :: m in RefactorSuggestions(fs) + IssueAdvice(issues) ==> |m| > 0 && m[0] != 'C'
  {
    RefactorsStartWithR(fs);
    AdviceIsFixed(issues);
    assert DocstringAdvice[0] == 'A' && LoggingAdvice[0] == 'R' && ExceptAdvice[0] == 'U';
    forall m | m in RefactorSuggestions(fs) + IssueAdvice(issues)
      ensures |m| > 0 && m[0] != 'C'
    {
      if m !in RefactorSuggestions(fs) {
        assert m in IssueAdvice(issues);
      }
    }
  }

  /** The advice to split into modules is given exactly when there are more than 10 functions. */
  lemma SplitAdviceIff(fs: seq<FunctionInfo>, issues: seq<string>)
    ensures SplitAdvice in Suggestions(fs, issues) <==> |fs| > 10
  {
    OtherSuggestionsNotC(fs, issues);
    assert SplitAdvice[0] == 'C';
  }

  function AfterSuggestImprovements(s: ReviewState): (r: ReviewState)
    ensures r.data.suggestions == Some(Suggestions(s.data.functions.GetOr([]), s.data.issues.GetOr([])))
    ensures r.data == s.data.(suggestions := r.data.suggestions)
    ensures r.metadata == s.metadata["step" := "suggest_improvements"]
  {
    WorkflowState(s.data.(suggestions := Some(Suggestions(s.data.functions.GetOr([]), s.data.issues.GetOr([])))),
                  s.metadata["step" := "suggest_improvements"])
  }

  /** The refactoring loop of `SuggestImprovements`. */
  method CollectRefactors(functions: seq<FunctionInfo>) returns (suggestions: seq<string>)
    ensures suggestions == RefactorSuggestions(functions)
  {
    suggestions := [];
    for i := 0 to |functions|
      invariant suggestions == RefactorSuggestions(functions[..i])
    {
      if functions[i].complexityScore.GetOr(0) > 3 {
        suggestions := suggestions + [RefactorMessage(functions[i].name)];
      }
      assert functions[..i + 1][..i] == functions[..i];
    }
    assert functions[..|functions|] == functions;
  }

  /** The keyword tests of `SuggestImprovements` for one issue, appended to `suggestions`. */
  method AddAdvice(suggestions: seq<string>, issue: string) returns (more: seq<string>)
    ensures more == suggestions + AdviceFor(issue)
  {
    more := suggestions;
    var low := Text.Lower(issue);
    if Text.Contains(low, "docstring") {
      more := more + [DocstringAdvice];
    }
    if Text.Contains(low, "print statement") {
      more := more + [LoggingAdvice];
    }
    if Text.Contains(low, "except") {
      more := more + [ExceptAdvice];
    }
  }

  method SuggestImprovements(s: ReviewState) returns (r: ReviewState)
    ensures r == AfterSuggestImprovements(s)
  {
    var functions := s.data.functions.GetOr([]);
    var issues := s.data.issues.GetOr([]);
    var suggestions := CollectRefactors(functions);
    ghost var refactors := suggestions;
    for j := 0 to |issues|
      invariant suggestions == refactors + IssueAdvice(issues[..j])
    {
      suggestions := AddAdvice(suggestions, issues[j]);
      assert issues[..j + 1][..j] == issues[..j];
      assert IssueAdvice(issues[..j + 1]) == IssueAdvice(issues[..j]) + AdviceFor(issues[j]);
      Associative(refactors, IssueAdvice(issues[..j]), AdviceFor(issues[j]));
    }
    assert issues[..|issues|] == issues;
    if |functions| > 10 {
      suggestions := suggestions + [SplitAdvice];
    }
    assert suggestions == Suggestions(functions, issues);
    r := WorkflowState(s.data.(suggestions := Some(suggestions)), s.metadata["step" := "suggest_improvements"]);
  }

  // ---------------------------------------------------------------- calculate_quality_score

  /** 100, less 10 per issue and 5 per complexity point, clamped to [0, 100]. */
  function QualityScore(issueCount: int, totalComplexity: int): (score: int)
    ensures 0 <= score <= 100
    ensures var raw := 100 - 10 * issueCount - 5 * totalComplexity;
            && (0 <= raw <= 100 ==> score == raw)
            && (raw < 0 ==> score == 0)
            && (raw > 100 ==> score == 100)
  {
    var score := 100 - issueCount * 10 - totalComplexity * 5;
    if score > 100 then 100 else if score < 0 then 0 else score
  }

  /** Sets the score from the issue count and total complexity (0 when absent) and counts one more iteration. */
  function CalculateQualityScore(s: ReviewState): (r: ReviewState)
    ensures r.data.qualityScore.Some? && 0 <= r.data.qualityScore.value <= 100
    ensures r.data.qualityScore.value == QualityScore(s.data.issueCount.GetOr(0), s.data.totalComplexity.GetOr(0))
    ensures r.data.iteration == Some(s.data.iteration.GetOr(0) + 1)
    ensures r.data == s.data.(qualityScore := r.data.qualityScore, iteration := r.data.iteration)
    ensures r.metadata == s.metadata["step" := "calculate_quality_score"]
  {
    var score := QualityScore(s.data.issueCount.GetOr(0), s.data.totalComplexity.GetOr(0));
    WorkflowState(s.data.(qualityScore := Some(score), iteration := Some(s.data.iteration.GetOr(0) + 1)),
                  s.metadata["step" := "calculate_quality_score"])
  }

  // ---------------------------------------------------------------- routing and wiring

  const DefaultThreshold := 70
  const MaxIterations := 3

  /** Ends once the score reaches the threshold (70 by default) or three iterations have run. */
  function RouteAfterScore(s: ReviewState): (next: string)
    ensures next == "end" || next == "detect_issues"
    ensures next == "end" <==> s.data.qualityScore.GetOr(0) >= s.data.qualityThreshold.GetOr(DefaultThreshold)
                                || s.data.iteration.GetOr(0) >= MaxIterations
  {
    var score := s.data.qualityScore.GetOr(0);
    var iteration := s.data.iteration.GetOr(0);
    var threshold := s.data.qualityThreshold.GetOr(DefaultThreshold);
    if score >= threshold || iteration >= MaxIterations then "end" else "detect_issues"
  }

  /** The step functions of the graph's nodes. */
  function ExtractFunctionsStep(scan: Scanner): StateFn<ReviewData> {
    s => ExtractFunctions(scan, s)
  }

  function CheckComplexityStep(scan: Scanner): StateFn<ReviewData> {
    s => AfterCheckComplexity(scan, s)
  }

  function DetectIssuesStep(scan: Scanner): StateFn<ReviewData> {
    s => DetectIssues(scan, s)
  }

  function Identity(s: ReviewState): ReviewState {
    s
  }

  /** The graph `CreateCodeReviewWorkflow` builds. */
  function ReviewTopology(scan: Scanner): Topology<ReviewData> {
    Topology(
      map[
        "extract_functions" := Node("extract_functions", Some(ExtractFunctionsStep(scan)), "Extract function definitions from code"),
        "check_complexity" := Node("check_complexity", Some(CheckComplexityStep(scan)), "Analyze code complexity"),
        "detect_issues" := Node("detect_issues", Some(DetectIssuesStep(scan)), "Detect code smells and issues"),
        "suggest_improvements" := Node("suggest_improvements", Some(AfterSuggestImprovements), "Generate improvement suggestions"),
        "calculate_quality_score" := Node("calculate_quality_score", Some(CalculateQualityScore), "Calculate overall quality score"),
        "end" := Node("end", Some(Identity), "End node")],
      map[
        "extract_functions" := Fixed("check_complexity"),
        "check_complexity" := Fixed("detect_issues"),
        "detect_issues" := Fixed("suggest_improvements"),
        "suggest_improvements" := Fixed("calculate_quality_score"),
        "calculate_quality_score" := Conditional(RouteAfterScore)],
      Some("extract_functions"),
      ["end"])
  }

  method CreateCodeReviewWorkflow(scan: Scanner, graphId: string) returns (b: WorkflowBuilder<ReviewData>)
    ensures b.Valid() && fresh(b.graph)
    ensures b.graph.Shape() == ReviewTopology(scan)
  {
    b := new WorkflowBuilder(graphId);
    b := b.WithNode("extract_functions", Some(ExtractFunctionsStep(scan)), "Extract function definitions from code");
    b := b.WithNode("check_complexity", Some(CheckComplexityStep(scan)), "Analyze code complexity");
    b := b.WithNode("detect_issues", Some(DetectIssuesStep(scan)), "Detect code smells and issues");
    b := b.WithNode("suggest_improvements", Some(AfterSuggestImprovements), "Generate improvement suggestions");
    b := b.WithNode("calculate_quality_score", Some(CalculateQualityScore), "Calculate overall quality score");
    b := b.WithNode("end", Some(Identity), "End node");
    b := b.WithEdge("extract_functions", "check_complexity");
    b := b.WithEdge("check_complexity", "detect_issues");
    b := b.WithEdge("detect_issues", "suggest_improvements");
    b := b.WithEdge("suggest_improvements", "calculate_quality_score");
    b := b.WithConditionalEdge("calculate_quality_score", RouteAfterScore);
    b := b.WithStart("extract_functions");
    b := b.WithEnd("end");
  }

  /**
   * Loading the module applies the tool decorator to the five tools, in
   * order, under their function names, each with its own description and
   * the step function the node of the same name runs.
   */
  method RegisterReviewTools(registry: Registry.ToolRegistry<ReviewState, ReviewState>, scan: Scanner)
    requires registry.Valid()
    modifies registry
    ensures registry.Valid()
    ensures registry.tools == old(registry.tools)["extract_functions" := ExtractFunctionsStep(scan)]
                                                ["check_complexity" := CheckComplexityStep(scan)]
                                                ["detect_issues" := DetectIssuesStep(scan)]
                                                ["suggest_improvements" := AfterSuggestImprovements]
                                                ["calculate_quality_score" := CalculateQualityScore]
    ensures registry.descriptions == old(registry.descriptions)["extract_functions" := "Extract function definitions from code"]
                                                              ["check_complexity" := "Check code complexity"]
                                                              ["detect_issues" := "Detect basic code issues"]
                                                              ["suggest_improvements" := "Generate improvement suggestions"]
                                                              ["calculate_quality_score" := "Calculate overall quality score"]
  {
    var f: StateFn<ReviewData>;
    f := Registry.Tool(registry, None, "Extract function definitions from code", ExtractFunctionsStep(scan),
                       "extract_functions", Some("Extract all function definitions from code"));
    f := Registry.Tool(registry, None, "Check code complexity", CheckComplexityStep(scan),
                       "check_complexity", Some("Analyze complexity of extracted functions"));
    f := Registry.Tool(registry, None, "Detect basic code issues", DetectIssuesStep(scan),
                       "detect_issues", Some("Detect common code smells and issues"));
    f := Registry.Tool(registry, None, "Generate improvement suggestions", AfterSuggestImprovements,
                       "suggest_improvements", Some("Generate actionable improvement suggestions"));
    f := Registry.Tool(registry, None, "Calculate overall quality score", CalculateQualityScore,
                       "calculate_quality_score", Some("Calculate overall code quality score"));
  }
}
