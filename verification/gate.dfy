/**
 * The Gardener gate: after a rewrite, run four checks in a fixed order and either commit the
 * one rewritten file or revert every uncommitted change.
 */
module Gate {
  import opened Wrappers
  import opened Text
  import opened Seqs
  import opened Analyzers
  import opened Repo

  // ----- language and forbidden paths ---------------------------------------------

  /** `detect_language` of the gate: only `Cargo.toml` decides. */
  function DetectLanguage(present: set<string>): (lang: Lang)
    ensures lang == Rust <==> CARGO_TOML in present
  {
    if CARGO_TOML in present then Rust else Python
  }

  const FORBIDDEN_COMMON: seq<string> := ["scanner.py", "gate.py", "journal.py", "SKILL.md", "CONSTITUTION.md", ".github/"]
  const FORBIDDEN_PYTHON: seq<string> := FORBIDDEN_COMMON + ["test_", "tests/", "_test.py", "conftest.py"]
  const FORBIDDEN_RUST: seq<string> := FORBIDDEN_COMMON + ["tests/", "benches/", "build.rs", "Cargo.toml", "Cargo.lock"]

  /** `get_forbidden_patterns`: the Rust list for Rust, the Python list for every other language. */
  function ForbiddenPatterns(lang: Lang): (ps: seq<string>)
    ensures FORBIDDEN_COMMON <= ps
  {
    if lang == Rust then FORBIDDEN_RUST else FORBIDDEN_PYTHON
  }

  /** `git diff --name-only HEAD` output as a list: empty when the output is blank. */
  function ChangedPaths(diff: string): seq<string>
  {
    var d := Strip(diff);
    if d == [] then [] else Split(d, '\n')
  }

  /** A path is forbidden when some pattern occurs in it as a substring. */
  function Violates(patterns: seq<string>): string -> bool
  {
    (f: string) => exists p | p in patterns :: Contains(f, p)
  }

  /** `check_forbidden_files`: the changed paths that contain a pattern, each once, in diff order. */
  method CheckForbiddenFiles(diff: string, lang: Lang) returns (violations: seq<string>)
    ensures violations == Filter(ChangedPaths(diff), Violates(ForbiddenPatterns(lang)))
  {
    var changed := ChangedPaths(diff);
    var patterns := ForbiddenPatterns(lang);
    violations := [];
    for i := 0 to |changed|
      invariant violations == Filter(changed[..i], Violates(patterns))
    {
      var f := changed[i];
      var hit := MatchesAny(f, patterns);
      if hit {
        violations := violations + [f];
      }
      assert changed[..i + 1] == changed[..i] + [f];
      FilterSnoc(changed[..i], f, Violates(patterns));
    }
    assert changed[..|changed|] == changed;
  }

  /** The inner loop of `check_forbidden_files`: does any pattern occur in `f`? */
  method MatchesAny(f: string, patterns: seq<string>) returns (hit: bool)
    ensures hit == Violates(patterns)(f)
  {
    for j := 0 to |patterns|
      invariant forall k :: 0 <= k < j ==> !Contains(f, patterns[k])
    {
      if Contains(f, patterns[j]) {
        PatternOccurs(f, patterns, j);
        return true;
      }
    }
    NoPatternOccurs(f, patterns);
    return false;
  }

  lemma NoPatternOccurs(f: string, patterns: seq<string>)
    requires forall k :: 0 <= k < |patterns| ==> !Contains(f, patterns[k])
    ensures !Violates(patterns)(f)
  {
    forall p | p in patterns
      ensures !Contains(f, p)
    {
      var k :| 0 <= k < |patterns| && patterns[k] == p;
    }
  }

  lemma PatternOccurs(f: string, patterns: seq<string>, j: nat)
    requires j < |patterns| && Contains(f, patterns[j])
    ensures Violates(patterns)(f)
  {
    assert patterns[j] in patterns;
  }

  // ----- the radon lookup (get_complexity_python) ------------------------------------

  function BlockName(b: RadonBlock): string
  {
    b.name.GetOr("")
  }

  /** `f"{classname}.{name}"` when the class name is present and non-empty, else the bare name. */
  function Qualified(b: RadonBlock): string
  {
    if b.classname.Some? && b.classname.value != "" then b.classname.value + "." + BlockName(b) else BlockName(b)
  }

  predicate Names(b: RadonBlock, fn: string)
  {
    BlockName(b) == fn || Qualified(b) == fn
  }

  /** The complexity (0 when missing) of the first block named `fn`, bare or qualified; `None` when none is. */
  function RadonLookup(blocks: seq<(string, RadonBlock)>, fn: string): (r: Option<int>)
    ensures r.None? <==> forall x | x in blocks :: !Names(x.1, fn)
  {
    if blocks == [] then None
    else if Names(blocks[0].1, fn) then Some(blocks[0].1.complexity.GetOr(0))
    else RadonLookup(blocks[1..], fn)
  }

  /** The lookup answers with the first block that matches, however many later blocks match too. */
  lemma {:induction false} RadonLookupFirst(blocks: seq<(string, RadonBlock)>, fn: string, k: nat)
    requires k < |blocks| && Names(blocks[k].1, fn)
    requires forall m :: 0 <= m < k ==> !Names(blocks[m].1, fn)
    ensures RadonLookup(blocks, fn) == Some(blocks[k].1.complexity.GetOr(0))
  {
    if k > 0 {
      RadonLookupFirst(blocks[1..], fn, k - 1);
    }
  }

  /** `get_complexity_python` on radon's decoded output, `None` when the output is not JSON. */
  method GetComplexityPython(report: Option<RadonReport>, fn: string) returns (cc: Option<int>)
    ensures cc == if report.None? then None else RadonLookup(Flatten(report.value), fn)
  {
    if report.None? {
      return None;
    }
    var data := report.value;
    for i := 0 to |data|
      invariant forall x | x in Flatten(data[..i]) :: !Names(x.1, fn)
    {
      var blocks := data[i].1;
      for j := 0 to |blocks|
        invariant forall m :: 0 <= m < j ==> !Names(blocks[m], fn)
      {
        var block := blocks[j];
        var name := block.name.GetOr("");
        var qualified := if block.classname.Some? && block.classname.value != "" then block.classname.value + "." + name else name;
        if name == fn || qualified == fn {
          FoundInFile(data, i, j, fn);
          return Some(block.complexity.GetOr(0));
        }
      }
      FlattenNext(data, i);
    }
    assert data[..|data|] == data;
    return None;
  }

  /** A match at block `j` of file `i`, after no match in the blocks before it, is the lookup's answer. */
  lemma FoundInFile(data: RadonReport, i: nat, j: nat, fn: string)
    requires i < |data| && j < |data[i].1| && Names(data[i].1[j], fn)
    requires forall x | x in Flatten(data[..i]) :: !Names(x.1, fn)
    requires forall m :: 0 <= m < j ==> !Names(data[i].1[m], fn)
    ensures RadonLookup(Flatten(data), fn) == Some(data[i].1[j].complexity.GetOr(0))
  {
    var pre := Flatten(data[..i]);
    var here := Tagged(data[i].0, data[i].1);
    assert data == data[..i] + ([data[i]] + data[i + 1..]);
    FlattenAppend(data[..i], [data[i]] + data[i + 1..]);
    FlattenAppend([data[i]], data[i + 1..]);
    assert Flatten([data[i]]) == here + Flatten([]);
    var all := Flatten(data);
    assert all == pre + here + Flatten(data[i + 1..]);
    forall m | 0 <= m < |pre| + j
      ensures !Names(all[m].1, fn)
    {
      if m < |pre| {
        assert all[m] == pre[m] && pre[m] in pre;
      } else {
        assert all[m] == here[m - |pre|];
      }
    }
    assert all[|pre| + j] == here[j];
    RadonLookupFirst(all, fn, |pre| + j);
  }

  // ----- the clippy lookup (get_complexity_rust) ---------------------------------------

  /** What measuring the target gave: a complexity, no report for it, or an exception. */
  datatype Measure = Measured(cc: int) | NotFound | Raised

  /** What one clippy line tells the lookup. */
  datatype LineVerdict = Skip | Hit(cc: int) | Raise

  /**
   * A `compiler-message` with the cognitive-complexity code whose primary span's `fn` name is
   * `fn` and whose message carries a complexity answers; a JSON `null` code raises.
   */
  function Verdict(l: ClippyLine, fn: string): LineVerdict
  {
    match l
    case NotJson => Skip
    case Message(reason, code, cc, spans) =>
      if reason != COMPILER_MESSAGE then Skip
      else
        match code
        case NullCode => Raise
        case NoCode => Skip
        case Code(text) =>
          if !Contains(text, COGNITIVE_LINT) || spans == [] then Skip
          else if PrimarySpan(spans).fnName == Some(fn) && cc.Some? then Hit(cc.value)
          else Skip
  }

  /** The first line that answers decides; `NotFound` when none does. */
  function ClippyLookup(lines: seq<ClippyLine>, fn: string): (m: Measure)
    ensures m == NotFound <==> forall l | l in lines :: Verdict(l, fn) == Skip
    ensures m.Measured? ==> exists l | l in lines :: Verdict(l, fn) == Hit(m.cc)
  {
    if lines == [] then NotFound
    else
      match Verdict(lines[0], fn)
      case Skip => assert lines == [lines[0]] + lines[1..]; ClippyLookup(lines[1..], fn)
      case Hit(cc) => Measured(cc)
      case Raise => Raised
  }

  /** The lookup answers with the first line that does not skip, whatever the later lines say. */
  lemma {:induction false} ClippyLookupFirst(lines: seq<ClippyLine>, fn: string, k: nat)
    requires k < |lines| && Verdict(lines[k], fn) != Skip
    requires forall m :: 0 <= m < k ==> Verdict(lines[m], fn) == Skip
    ensures ClippyLookup(lines, fn) == if Verdict(lines[k], fn).Hit? then Measured(Verdict(lines[k], fn).cc) else Raised
  {
    if k > 0 {
      assert Verdict(lines[0], fn) == Skip;
      ClippyLookupFirst(lines[1..], fn, k - 1);
    }
  }

  function ClippyMeasure(run: ClippyRun, fn: string): Measure
  {
    match run
    case ClippyTimedOut => Raised
    case ClippyOutput(lines) => ClippyLookup(lines, fn)
  }

  /**
   * `get_complexity_rust`: run clippy under the temporary `clippy.toml`, which is put back on
   * every path (the timeout included) in text mode, then scan its lines for the target.
   */
  method GetComplexityRust(repo: Repository, clippy: map<string, string> -> ClippyRun, fn: string) returns (m: Measure)
    modifies repo
    ensures m == ClippyMeasure(clippy(old(repo.work)[CLIPPY_TOML := CLIPPY_THRESHOLD_ONE]), fn)
    ensures repo.work == ClippyRestored(old(repo.work)) && repo.head == old(repo.head) && repo.index == old(repo.index)
    ensures repo.ignored == old(repo.ignored) && repo.log == old(repo.log)
  {
    var run := RunClippyAtThresholdOne(repo, clippy);
    if run.ClippyTimedOut? {
      return Raised;
    }
    var lines := run.lines;
    for i := 0 to |lines|
      invariant ClippyLookup(lines, fn) == ClippyLookup(lines[i..], fn)
    {
      assert lines[i..][1..] == lines[i + 1..];
      var l := lines[i];
      if l.NotJson? || l.reason != COMPILER_MESSAGE {
        continue;
      }
      if l.code.NullCode? {
        return Raised;
      }
      if l.code.NoCode? || !Contains(l.code.text, COGNITIVE_LINT) || l.spans == [] {
        continue;
      }
      var primary := PrimarySpan(l.spans);
      if primary.fnName.Some? && primary.fnName.value == fn {
        if l.complexity.Some? {
          return Measured(l.complexity.value);
        }
      }
    }
    return NotFound;
  }

  /** The measurement `main` acts on, through the language's dispatch entry. */
  function MeasureFor(lang: Lang, radon: Option<RadonReport>, clippyRun: ClippyRun, fn: string): Measure
  {
    match lang
    case Python =>
      (if radon.None? then NotFound
       else match RadonLookup(Flatten(radon.value), fn) case None => NotFound case Some(cc) => Measured(cc))
    case Rust => ClippyMeasure(clippyRun, fn)
  }

  // ----- failure details ------------------------------------------------------------------

  const SYNTAX_DETAIL_LIMIT := 500
  const TEST_SUMMARY_LINES := 5

  /** `syntax_err[:500]`. */
  function SyntaxDetail(stderr: string): (d: string)
    ensures |d| <= SYNTAX_DETAIL_LIMIT && d <= stderr
  {
    Take(stderr, SYNTAX_DETAIL_LIMIT)
  }

  /**
   * `"\n".join(output.strip().split("\n")[-5:])`: splitting the summary again gives back exactly
   * the last five (or fewer) lines of the stripped output.
   */
  function TestSummary(output: string): (r: string)
    ensures Split(r, '\n') == Last(Split(Strip(output), '\n'), TEST_SUMMARY_LINES)
    ensures |Split(r, '\n')| <= TEST_SUMMARY_LINES
  {
    var last := Last(Split(Strip(output), '\n'), TEST_SUMMARY_LINES);
    LastLinesUnbroken(Strip(output));
    SplitJoin(last, '\n');
    Join(last, "\n")
  }

  /** No line of a split holds the separator, so neither does any of the last ones. */
  lemma LastLinesUnbroken(s: string)
    ensures forall p | p in Last(Split(s, '\n'), TEST_SUMMARY_LINES) :: '\n' !in p
  {
    var lines := Split(s, '\n');
    var last := Last(lines, TEST_SUMMARY_LINES);
    forall p | p in last
      ensures '\n' !in p
    {
      var k :| 0 <= k < |last| && last[k] == p;
      assert lines[|lines| - |last| + k] in lines;
    }
  }

  /** `str(violations)`: the Python list display of the paths, each in single quotes. */
  function ListDisplay(paths: seq<string>): string
  {
    "[" + Join(Quoted(paths), ", ") + "]"
  }

  /** Each path in single quotes, in the same order. */
  function Quoted(paths: seq<string>): (r: seq<string>)
    ensures |r| == |paths|
    ensures forall i :: 0 <= i < |paths| ==> r[i] == "'" + paths[i] + "'"
  {
    if paths == [] then [] else ["'" + paths[0] + "'"] + Quoted(paths[1..])
  }

  /** `if detail: result["detail"] = detail`. */
  function DetailField(detail: string): (r: Option<string>)
    ensures r.Some? <==> detail != ""
    ensures r.Some? ==> r.value == detail
  {
    if detail == "" then None else Some(detail)
  }

  // ----- the check sequence in main -----------------------------------------------------------

  /** A subprocess check: it exceeded its timeout, or it finished with a verdict and its output. */
  datatype CheckRun = TimedOut | Finished(ok: bool, output: string)

  datatype Stage = ForbiddenCheck | SyntaxCheck | TestCheck | ComplexityCheck

  const ALL_STAGES: seq<Stage> := [ForbiddenCheck, SyntaxCheck, TestCheck, ComplexityCheck]

  /** The JSON verdict: `FAIL` with a reason, `PASS` (new cc `N/A` when decomposed), or an uncaught exception. */
  datatype GateResult =
    | GateFail(reason: string, detail: Option<string>)
    | GatePass(passNote: Option<string>, oldCC: int, newCC: Option<int>)
    | GateRaised

  /** A failed check's reason and optional detail. */
  datatype GateFailure = GateFailure(reason: string, detail: Option<string>)

  const FUNCTION_DECOMPOSED := "function_decomposed"
  const ARROW := " → "

  /** Why the gate stops before measuring anything, if it does: the first of the three checks that fails. */
  function FirstFailure(violations: seq<string>, syntax: CheckRun, tests: CheckRun): Option<GateFailure>
  {
    if violations != [] then Some(GateFailure("forbidden_files_modified", DetailField(ListDisplay(violations))))
    else if syntax.TimedOut? then Some(GateFailure("syntax_timeout", None))
    else if !syntax.ok then Some(GateFailure("syntax_error", DetailField(SyntaxDetail(syntax.output))))
    else if tests.TimedOut? then Some(GateFailure("test_timeout", None))
    else if !tests.ok then Some(GateFailure("tests_failed", DetailField(TestSummary(tests.output))))
    else None
  }

  /** The complexity check's verdict on a new measurement of the target. */
  function ComplexityVerdict(measure: Measure, originalCC: int): GateResult
  {
    match measure
    case Raised => GateRaised
    case NotFound => GatePass(Some(FUNCTION_DECOMPOSED), originalCC, None)
    case Measured(cc) =>
      if cc >= originalCC then
        GateFail("complexity_not_reduced", DetailField(IntToString(originalCC) + ARROW + IntToString(cc)))
      else GatePass(None, originalCC, Some(cc))
  }

  /** The verdict of the fail-fast sequence: forbidden paths, syntax, tests, complexity. */
  function Decide(violations: seq<string>, syntax: CheckRun, tests: CheckRun, measure: Measure, originalCC: int): GateResult
  {
    match FirstFailure(violations, syntax, tests)
    case Some(f) => GateFail(f.reason, f.detail)
    case None => ComplexityVerdict(measure, originalCC)
  }

  /** The checks that start, in order: each one only after every earlier one passed. */
  function StagesRun(violations: seq<string>, syntax: CheckRun, tests: CheckRun): seq<Stage>
  {
    if violations != [] then ALL_STAGES[..1]
    else if syntax.TimedOut? || !syntax.ok then ALL_STAGES[..2]
    else if tests.TimedOut? || !tests.ok then ALL_STAGES[..3]
    else ALL_STAGES
  }

  /** The check each failure reason belongs to. */
  function StageOf(reason: string): Stage
  {
    if reason == "forbidden_files_modified" then ForbiddenCheck
    else if reason == "syntax_timeout" || reason == "syntax_error" then SyntaxCheck
    else if reason == "test_timeout" || reason == "tests_failed" then TestCheck
    else ComplexityCheck
  }

  /** The forbidden-file, syntax and test checks in order, stopping at the first that fails. */
  method Prechecks(diff: string, lang: Lang, syntax: CheckRun, tests: CheckRun)
    returns (failure: Option<GateFailure>, stages: seq<Stage>)
    ensures failure == FirstFailure(Filter(ChangedPaths(diff), Violates(ForbiddenPatterns(lang))), syntax, tests)
    ensures stages == StagesRun(Filter(ChangedPaths(diff), Violates(ForbiddenPatterns(lang))), syntax, tests)
  {
    stages := ALL_STAGES[..1];
    var violations := CheckForbiddenFiles(diff, lang);
    if violations != [] {
      return Some(GateFailure("forbidden_files_modified", DetailField(ListDisplay(violations)))), stages;
    }

    stages := ALL_STAGES[..2];
    if syntax.TimedOut? {
      return Some(GateFailure("syntax_timeout", None)), stages;
    }
    if !syntax.ok {
      return Some(GateFailure("syntax_error", DetailField(SyntaxDetail(syntax.output)))), stages;
    }

    stages := ALL_STAGES[..3];
    if tests.TimedOut? {
      return Some(GateFailure("test_timeout", None)), stages;
    }
    if !tests.ok {
      return Some(GateFailure("tests_failed", DetailField(TestSummary(tests.output)))), stages;
    }

    stages := ALL_STAGES;
    failure := None;
  }

  /** `fail`: revert every uncommitted change, then report the failure. */
  method Fail(repo: Repository, reason: string, detail: Option<string>) returns (result: GateResult)
    modifies repo
    ensures result == GateFail(reason, detail)
    ensures repo.work == Reverted(old(repo.index), old(repo.work), old(repo.ignored))
    ensures repo.head == old(repo.head) && repo.index == old(repo.index)
    ensures repo.ignored == old(repo.ignored) && repo.log == old(repo.log)
  {
    repo.RevertAll();
    result := GateFail(reason, detail);
  }

  /** The working tree once the target has been measured: clippy's run rewrites `clippy.toml`. */
  function MeasuredWork(lang: Lang, work: map<string, string>): map<string, string>
  {
    if lang == Rust then ClippyRestored(work) else work
  }

  /**
   * What a verdict does to the repository, whose tree was `w` when the verdict was reached:
   * revert on `FAIL`, commit on `PASS`, nothing more on an exception.
   */
  twostate predicate Settled(repo: Repository, w: map<string, string>, result: GateResult, file: string, fn: string, originalCC: int)
    reads repo
  {
    repo.ignored == old(repo.ignored)
    && (result.GateFail? ==>
          repo.work == Reverted(old(repo.index), w, old(repo.ignored))
          && repo.head == old(repo.head) && repo.index == old(repo.index) && repo.log == old(repo.log))
    && (result.GatePass? ==>
          repo.work == w
          && repo.index == Staged(old(repo.index), w, old(repo.ignored), file)
          && (repo.index != old(repo.head) ==>
                repo.head == repo.index && repo.log == old(repo.log) + [CommitMessage(fn, originalCC, result.newCC.GetOr(0))])
          && (repo.index == old(repo.head) ==> repo.head == old(repo.head) && repo.log == old(repo.log)))
    && (result.GateRaised? ==>
          repo.work == w && repo.head == old(repo.head) && repo.index == old(repo.index) && repo.log == old(repo.log))
  }

  /** The last check: measure the target again and accept only a strict decrease, or its disappearance. */
  method ComplexityStage(repo: Repository, lang: Lang, file: string, fn: string, originalCC: int,
                         radon: Option<RadonReport>, clippy: map<string, string> -> ClippyRun) returns (result: GateResult)
    modifies repo
    ensures result == ComplexityVerdict(MeasureFor(lang, radon, clippy(old(repo.work)[CLIPPY_TOML := CLIPPY_THRESHOLD_ONE]), fn), originalCC)
    ensures Settled(repo, MeasuredWork(lang, old(repo.work)), result, file, fn, originalCC)
  {
    var measure: Measure;
    if lang == Python {
      var cc := GetComplexityPython(radon, fn);
      measure := if cc.None? then NotFound else Measured(cc.value);
    } else {
      measure := GetComplexityRust(repo, clippy, fn);
    }
    result := Settle(repo, measure, file, fn, originalCC);
  }

  /** The complexity verdict carried out: commit on a decrease or a disappearance, revert otherwise. */
  method Settle(repo: Repository, measure: Measure, file: string, fn: string, originalCC: int) returns (result: GateResult)
    modifies repo
    ensures result == ComplexityVerdict(measure, originalCC)
    ensures Settled(repo, old(repo.work), result, file, fn, originalCC)
  {
    match measure {
      case Raised =>
        result := GateRaised;
      case NotFound =>
        result := GatePass(Some(FUNCTION_DECOMPOSED), originalCC, None);
        repo.CommitChange(file, fn, originalCC, 0);
      case Measured(cc) =>
        if cc >= originalCC {
          result := Fail(repo, "complexity_not_reduced", DetailField(IntToString(originalCC) + ARROW + IntToString(cc)));
        } else {
          result := GatePass(None, originalCC, Some(cc));
          repo.CommitChange(file, fn, originalCC, cc);
        }
    }
  }

  /**
   * The gate's `main`. Git's diff, the syntax and test runs, radon's output and clippy's
   * output for the tree it sees are inputs. A failure reverts the whole working tree; a pass
   * commits the index with `file` staged (`file` alone when the index was clean); an uncaught
   * exception leaves the repository as it was.
   */
  method RunGate(repo: Repository, file: string, fn: string, originalCC: int, langOverride: Option<Lang>,
                 diff: string, syntax: CheckRun, tests: CheckRun, radon: Option<RadonReport>,
                 clippy: map<string, string> -> ClippyRun) returns (result: GateResult, stages: seq<Stage>)
    modifies repo
    ensures var lang := if langOverride.Some? then langOverride.value else DetectLanguage(old(repo.work).Keys);
      var violations := Filter(ChangedPaths(diff), Violates(ForbiddenPatterns(lang)));
      result == Decide(violations, syntax, tests,
                       MeasureFor(lang, radon, clippy(old(repo.work)[CLIPPY_TOML := CLIPPY_THRESHOLD_ONE]), fn), originalCC)
      && stages == StagesRun(violations, syntax, tests)
    ensures var lang := if langOverride.Some? then langOverride.value else DetectLanguage(old(repo.work).Keys);
      var violations := Filter(ChangedPaths(diff), Violates(ForbiddenPatterns(lang)));
      var measured := FirstFailure(violations, syntax, tests).None?;
      Settled(repo, if measured then MeasuredWork(lang, old(repo.work)) else old(repo.work), result, file, fn, originalCC)
  {
    var lang := if langOverride.Some? then langOverride.value else DetectLanguage(repo.work.Keys);

    var failure;
    failure, stages := Prechecks(diff, lang, syntax, tests);
    if failure.Some? {
      result := Fail(repo, failure.value.reason, failure.value.detail);
      return;
    }
    result := ComplexityStage(repo, lang, file, fn, originalCC, radon, clippy);
  }
}

/** What the gate's verdict promises, for every combination of check outcomes. */
module GateLaws {
  import opened Wrappers
  import opened Text
  import opened Seqs
  import opened Analyzers
  import opened Gate

  /**
   * The checks start in the fixed order, each only after every earlier one passed, and a
   * failure is reported by the last check that started.
   */
  lemma StageOrder(violations: seq<string>, syntax: CheckRun, tests: CheckRun, measure: Measure, originalCC: int)
    ensures var stages := StagesRun(violations, syntax, tests);
      var r := Decide(violations, syntax, tests, measure, originalCC);
      stages != [] && stages <= ALL_STAGES
      && (r.GateFail? ==> StageOf(r.reason) == stages[|stages| - 1])
      && (!r.GateFail? ==> stages == ALL_STAGES)
  {
    ReasonStages();
    var r := Decide(violations, syntax, tests, measure, originalCC);
    if FirstFailure(violations, syntax, tests).None? {
      assert StagesRun(violations, syntax, tests) == ALL_STAGES;
      if r.GateFail? {
        assert r.reason == "complexity_not_reduced";
      }
    }
  }

  /** Each of the six failure reasons belongs to its own check. */
  lemma ReasonStages()
    ensures StageOf("forbidden_files_modified") == ForbiddenCheck
    ensures StageOf("syntax_timeout") == SyntaxCheck && StageOf("syntax_error") == SyntaxCheck
    ensures StageOf("test_timeout") == TestCheck && StageOf("tests_failed") == TestCheck
    ensures StageOf("complexity_not_reduced") == ComplexityCheck
  {
  }

  /**
   * The gate passes exactly when no forbidden path changed, the syntax check and the tests
   * finished cleanly, and the target either vanished or got strictly less complex.
   */
  lemma PassExactly(violations: seq<string>, syntax: CheckRun, tests: CheckRun, measure: Measure, originalCC: int)
    ensures var r := Decide(violations, syntax, tests, measure, originalCC);
      r.GatePass? <==>
        violations == [] && syntax.Finished? && syntax.ok && tests.Finished? && tests.ok
        && (measure.NotFound? || (measure.Measured? && measure.cc < originalCC))
    ensures var r := Decide(violations, syntax, tests, measure, originalCC);
      r.GatePass? ==>
        r.oldCC == originalCC
        && (r.newCC.Some? <==> measure.Measured?)
        && (r.newCC.Some? ==> r.newCC.value < originalCC)
        && (r.passNote == Some(FUNCTION_DECOMPOSED) <==> measure.NotFound?)
  {
  }

  /** An exception escapes only from the complexity check, after the other three passed. */
  lemma RaisedExactly(violations: seq<string>, syntax: CheckRun, tests: CheckRun, measure: Measure, originalCC: int)
    ensures Decide(violations, syntax, tests, measure, originalCC).GateRaised? <==>
      FirstFailure(violations, syntax, tests).None? && measure.Raised?
  {
  }

  /** Every failure carries one of the six reasons, and a detail only when it is non-empty. */
  lemma FailureShape(violations: seq<string>, syntax: CheckRun, tests: CheckRun, measure: Measure, originalCC: int)
    ensures var r := Decide(violations, syntax, tests, measure, originalCC);
      r.GateFail? ==>
        r.reason in {"forbidden_files_modified", "syntax_timeout", "syntax_error", "test_timeout", "tests_failed", "complexity_not_reduced"}
        && (r.detail.Some? ==> r.detail.value != "")
        && (r.reason in {"syntax_timeout", "test_timeout"} ==> r.detail.None?)
  {
  }

  /** A syntax failure's detail is a prefix of the compiler's error output, at most 500 characters long. */
  lemma SyntaxDetailBounded(violations: seq<string>, syntax: CheckRun, tests: CheckRun, measure: Measure, originalCC: int)
    ensures var r := Decide(violations, syntax, tests, measure, originalCC);
      r.GateFail? && r.reason == "syntax_error" && r.detail.Some? ==>
        syntax.Finished? && |r.detail.value| <= SYNTAX_DETAIL_LIMIT && r.detail.value <= syntax.output
  {
  }

  /** The violations are exactly the changed paths that contain a forbidden pattern. */
  lemma ViolationsExactly(diff: string, lang: Lang, f: string)
    ensures f in Filter(ChangedPaths(diff), Violates(ForbiddenPatterns(lang))) <==>
      f in ChangedPaths(diff) && exists p | p in ForbiddenPatterns(lang) :: Contains(f, p)
  {
    FilterMembers(ChangedPaths(diff), Violates(ForbiddenPatterns(lang)), f);
  }

  /** The common patterns are forbidden whatever the language. */
  lemma CommonPatternsForbidden(lang: Lang, f: string, p: string)
    requires p in FORBIDDEN_COMMON && Contains(f, p)
    ensures Violates(ForbiddenPatterns(lang))(f)
  {
    assert p in ForbiddenPatterns(lang);
  }

  /**
   * Patterns match anywhere in the path: every module whose name ends in `gate.py`, in any
   * directory (`src/delegate.py`, say), is refused as if it were the gate itself.
   */
  lemma SubstringMatchReachesOtherFiles(lang: Lang, dir: string, stem: string)
    ensures Violates(ForbiddenPatterns(lang))(dir + stem + "gate.py")
  {
    ContainsInside(dir + stem, "gate.py", "");
    assert dir + stem + "gate.py" + "" == dir + stem + "gate.py";
    CommonPatternsForbidden(lang, dir + stem + "gate.py", "gate.py");
  }

  /** A new measurement at or above the original fails the gate, below it passes. */
  lemma ComplexityMustDrop(cc: int, originalCC: int)
    ensures ComplexityVerdict(Measured(cc), originalCC).GatePass? <==> cc < originalCC
    ensures cc >= originalCC ==>
      ComplexityVerdict(Measured(cc), originalCC) ==
        GateFail("complexity_not_reduced", Some(IntToString(originalCC) + ARROW + IntToString(cc)))
  {
  }
}
