/**
 * The Gardener scanner: find the functions worth simplifying, most complex first, and pick
 * the few the journal has not seen fail recently.
 */
module Scanner {
  import opened Wrappers
  import opened Text
  import opened Seqs
  import opened Dates
  import opened Analyzers
  import opened Repo
  import opened Journal

  /** One target dict of the scanner's output; `skipped`/`skipReason` are the keys `select_targets` adds. */
  datatype Candidate = Candidate(
    file: string,
    func: string,
    complexity: int,
    line: int,
    rank: string,
    kind: string,
    classname: Option<string>,
    lang: Lang,
    skipped: bool,
    skipReason: Option<string>)

  // ----- language detection ----------------------------------------------------

  const PYTHON_MANIFESTS: seq<string> := ["pyproject.toml", "setup.py", "setup.cfg", "requirements.txt"]

  /**
   * `detect_language` of the scanner. `present` holds the names that exist at the top of the
   * repository; `rsCount` and `pyCount` are what `rglob("*.rs")` and `rglob("*.py")` count.
   */
  function DetectLanguage(present: set<string>, rsCount: nat, pyCount: nat): (lang: Lang)
    ensures lang == Rust <==>
      CARGO_TOML in present || ((forall m | m in PYTHON_MANIFESTS :: m !in present) && rsCount > pyCount)
  {
    if CARGO_TOML in present then Rust
    else if exists m :: m in PYTHON_MANIFESTS && m in present then Python
    else if rsCount > pyCount then Rust
    else Python
  }

  /**
   * The order of the tests: `Cargo.toml` first, then any Python manifest, and only then the
   * file counts, where a tie goes to Python.
   */
  lemma DetectionOrder(present: set<string>, rsCount: nat, pyCount: nat)
    ensures CARGO_TOML in present ==> DetectLanguage(present, rsCount, pyCount) == Rust
    ensures CARGO_TOML !in present && (exists m | m in PYTHON_MANIFESTS :: m in present) ==>
      DetectLanguage(present, rsCount, pyCount) == Python
    ensures CARGO_TOML !in present && (forall m | m in PYTHON_MANIFESTS :: m !in present) ==>
      (DetectLanguage(present, rsCount, pyCount) == Rust <==> rsCount > pyCount)
  {
  }

  // ----- rank ------------------------------------------------------------------

  const GRADES: seq<string> := ["A", "B", "C", "D", "F"]

  /** The position of a complexity's band among `GRADES`: at most 5, 10, 20, 30, or above. */
  function Band(cc: int): (b: nat)
    ensures b < |GRADES|
  {
    if cc <= 5 then 0 else if cc <= 10 then 1 else if cc <= 20 then 2 else if cc <= 30 then 3 else 4
  }

  /** `_rank`: the letter grade of a complexity. */
  function Rank(cc: int): (r: string)
    ensures r in GRADES
    ensures r == "A" <==> cc <= 5
    ensures r == "F" <==> cc > 30
  {
    if cc <= 5 then "A" else if cc <= 10 then "B" else if cc <= 20 then "C" else if cc <= 30 then "D" else "F"
  }

  // ----- stable sort by complexity, highest first --------------------------------

  predicate SortedDesc(s: seq<Candidate>)
  {
    forall i, j :: 0 <= i < j < |s| ==> s[i].complexity >= s[j].complexity
  }

  /** Place `x` after every element of `s` at least as complex as `x`. */
  function Insert(s: seq<Candidate>, x: Candidate): (r: seq<Candidate>)
    ensures |r| == |s| + 1
  {
    if s == [] || s[|s| - 1].complexity >= x.complexity then s + [x]
    else Insert(s[..|s| - 1], x) + [s[|s| - 1]]
  }

  /** `sort(key=complexity, reverse=True)`: Python's stable sort, descending. */
  function SortDesc(s: seq<Candidate>): (r: seq<Candidate>)
    ensures |r| == |s|
  {
    if s == [] then [] else Insert(SortDesc(s[..|s| - 1]), s[|s| - 1])
  }

  /** Selects the candidates of one complexity. */
  function HasComplexity(k: int): Candidate -> bool
  {
    (c: Candidate) => c.complexity == k
  }

  /** `targets.sort(key=lambda t: t["complexity"], reverse=True)`, in place. */
  method SortByComplexity(a: array<Candidate>)
    modifies a
    ensures a[..] == SortDesc(old(a[..]))
  {
    ghost var s := a[..];
    var i := 0;
    while i < a.Length
      invariant 0 <= i <= a.Length
      invariant a[..i] == SortDesc(s[..i])
      invariant a[i..] == s[i..]
    {
      assert s[..i + 1][..i] == s[..i];
      InsertAt(a, i);
      i := i + 1;
    }
    assert s[..a.Length] == s;
  }

  /** One step of insertion sort: move `a[i]` back past the less complex elements before it. */
  method InsertAt(a: array<Candidate>, i: nat)
    requires i < a.Length
    modifies a
    ensures a[..i + 1] == Insert(old(a[..i]), old(a[i]))
    ensures a[i + 1..] == old(a[i + 1..])
  {
    ghost var sorted := a[..i];
    ghost var rest := a[i + 1..];
    var x := a[i];
    var j := i;
    assert sorted[..j] == sorted && sorted[j..] == [];
    assert a[..] == sorted[..j] + [x] + sorted[j..] + rest;
    while j > 0 && a[j - 1].complexity < x.complexity
      invariant 0 <= j <= i
      invariant a[..] == sorted[..j] + [x] + sorted[j..] + rest
      invariant Insert(sorted, x) == Insert(sorted[..j], x) + sorted[j..]
    {
      assert a[j - 1] == sorted[j - 1];
      InsertShift(sorted, j, x);
      ghost var before := a[..];
      a[j] := a[j - 1];
      a[j - 1] := x;
      SwapBack(sorted, rest, x, j, before);
      j := j - 1;
    }
    InsertPlace(sorted, j, x);
    Halves(a[..], sorted[..j] + [x] + sorted[j..], rest);
  }

  /** Swapping `x` one place back in the array image moves the split point one place back. */
  lemma SwapBack(sorted: seq<Candidate>, rest: seq<Candidate>, x: Candidate, j: nat, before: seq<Candidate>)
    requires 0 < j <= |sorted| && before == sorted[..j] + [x] + sorted[j..] + rest
    ensures before[j := before[j - 1]][j - 1 := x] == sorted[..j - 1] + [x] + sorted[j - 1..] + rest
  {
    var after := before[j := before[j - 1]][j - 1 := x];
    var target := sorted[..j - 1] + [x] + sorted[j - 1..] + rest;
    forall k | 0 <= k < |after|
      ensures after[k] == target[k]
    {
      if k < j - 1 {
        assert after[k] == sorted[k] == target[k];
      } else if k > j {
        assert after[k] == before[k] == target[k];
      }
    }
  }

  /** A sequence made of two parts splits back into them at the first part's length. */
  lemma Halves(whole: seq<Candidate>, front: seq<Candidate>, back: seq<Candidate>)
    requires whole == front + back
    ensures whole[..|front|] == front && whole[|front|..] == back
  {
  }

  lemma InsertShift(sorted: seq<Candidate>, j: nat, x: Candidate)
    requires 0 < j <= |sorted| && sorted[j - 1].complexity < x.complexity
    ensures Insert(sorted[..j], x) + sorted[j..] == Insert(sorted[..j - 1], x) + sorted[j - 1..]
  {
    assert sorted[..j][..j - 1] == sorted[..j - 1];
    assert sorted[j - 1..] == [sorted[j - 1]] + sorted[j..];
  }

  lemma InsertPlace(sorted: seq<Candidate>, j: nat, x: Candidate)
    requires j <= |sorted| && (j == 0 || sorted[j - 1].complexity >= x.complexity)
    ensures Insert(sorted[..j], x) == sorted[..j] + [x]
  {
  }

  lemma {:induction false} InsertPermutes(s: seq<Candidate>, x: Candidate)
    ensures multiset(Insert(s, x)) == multiset(s) + multiset{x}
  {
    if !(s == [] || s[|s| - 1].complexity >= x.complexity) {
      var n := |s|;
      InsertPermutes(s[..n - 1], x);
      assert s == s[..n - 1] + [s[n - 1]];
    }
  }

  lemma {:induction false} InsertSorted(s: seq<Candidate>, x: Candidate)
    requires SortedDesc(s)
    ensures SortedDesc(Insert(s, x))
  {
    if !(s == [] || s[|s| - 1].complexity >= x.complexity) {
      var front := s[..|s| - 1];
      var last := s[|s| - 1];
      assert SortedDesc(front);
      InsertSorted(front, x);
      InsertAbove(front, x, last.complexity);
      SortedSnoc(Insert(front, x), last);
    }
  }

  /** Inserting into records no less complex than `m` a record no less complex than `m` keeps that bound. */
  lemma {:induction false} InsertAbove(s: seq<Candidate>, x: Candidate, m: int)
    requires forall i :: 0 <= i < |s| ==> s[i].complexity >= m
    requires x.complexity >= m
    ensures forall i :: 0 <= i < |Insert(s, x)| ==> Insert(s, x)[i].complexity >= m
  {
    if !(s == [] || s[|s| - 1].complexity >= x.complexity) {
      InsertAbove(s[..|s| - 1], x, m);
    }
  }

  /** A sorted list followed by a record no more complex than any of its elements is sorted. */
  lemma SortedSnoc(r: seq<Candidate>, last: Candidate)
    requires SortedDesc(r)
    requires forall i :: 0 <= i < |r| ==> r[i].complexity >= last.complexity
    ensures SortedDesc(r + [last])
  {
  }

  lemma {:induction false} InsertStable(s: seq<Candidate>, x: Candidate, k: int)
    requires SortedDesc(s)
    ensures Filter(Insert(s, x), HasComplexity(k)) == Filter(s, HasComplexity(k)) + (if x.complexity == k then [x] else [])
  {
    var p := HasComplexity(k);
    if s == [] || s[|s| - 1].complexity >= x.complexity {
      FilterSnoc(s, x, p);
    } else {
      var front := s[..|s| - 1];
      var last := s[|s| - 1];
      var mid: seq<Candidate> := if x.complexity == k then [x] else [];
      var end: seq<Candidate> := if p(last) then [last] else [];
      assert SortedDesc(front);
      calc {
        Filter(Insert(s, x), p);
        { assert Insert(s, x) == Insert(front, x) + [last]; }
        Filter(Insert(front, x) + [last], p);
        { FilterSnoc(Insert(front, x), last, p); }
        Filter(Insert(front, x), p) + end;
        { InsertStable(front, x, k); }
        Filter(front, p) + mid + end;
        { assert mid == [] || end == []; }
        Filter(front, p) + end + mid;
        { assert s == front + [last]; FilterSnoc(front, last, p); }
        Filter(s, p) + mid;
      }
    }
  }

  /** The sort's result is ordered from the most complex down. */
  lemma {:induction false} SortSorted(s: seq<Candidate>)
    ensures SortedDesc(SortDesc(s))
  {
    if s != [] {
      SortSorted(s[..|s| - 1]);
      InsertSorted(SortDesc(s[..|s| - 1]), s[|s| - 1]);
    }
  }

  /** The sort neither loses nor invents a record. */
  lemma {:induction false} SortPermutes(s: seq<Candidate>)
    ensures multiset(SortDesc(s)) == multiset(s)
  {
    if s != [] {
      SortPermutes(s[..|s| - 1]);
      InsertPermutes(SortDesc(s[..|s| - 1]), s[|s| - 1]);
      assert s == s[..|s| - 1] + [s[|s| - 1]];
    }
  }

  /** Stability: records of equal complexity keep the order the analyzer reported them in. */
  lemma {:induction false} SortStable(s: seq<Candidate>, k: int)
    ensures Filter(SortDesc(s), HasComplexity(k)) == Filter(s, HasComplexity(k))
  {
    if s != [] {
      var n := |s|;
      var p := HasComplexity(k);
      SortStable(s[..n - 1], k);
      SortSorted(s[..n - 1]);
      InsertStable(SortDesc(s[..n - 1]), s[n - 1], k);
      assert s == s[..n - 1] + [s[n - 1]];
      FilterSnoc(s[..n - 1], s[n - 1], p);
    }
  }

  /** A higher complexity never gets a better grade. */
  lemma RankMonotone(a: int, b: int)
    requires a <= b
    ensures Rank(a) == GRADES[Band(a)] && Rank(b) == GRADES[Band(b)] && Band(a) <= Band(b)
  {
  }

  // ----- scan_python -------------------------------------------------------------

  /** One target built from one radon block, with radon's defaults for missing keys. */
  function FromBlock(file: string, b: RadonBlock): Candidate
  {
    Candidate(file, b.name.GetOr("unknown"), b.complexity.GetOr(0), b.lineno.GetOr(0),
              b.rank.GetOr("?"), b.kind.GetOr("function"), b.classname, Python, false, None)
  }

  /** The targets of one file of the report, in block order. */
  function FileCandidates(entry: (string, seq<RadonBlock>)): (r: seq<Candidate>)
    ensures |r| == |entry.1| && forall j :: 0 <= j < |r| ==> r[j] == FromBlock(entry.0, entry.1[j])
  {
    seq(|entry.1|, j requires 0 <= j < |entry.1| => FromBlock(entry.0, entry.1[j]))
  }

  /** Every target of the report, file by file, before sorting. */
  function RadonCandidates(report: RadonReport): seq<Candidate>
  {
    ConcatOf(report, FileCandidates)
  }

  /** The run whose output `scan_python` parses: the `-n C` run, or the plain run when that one fails. */
  function ChosenRun(first: RadonRun, fallback: RadonRun): RadonRun
  {
    if first.exitCode != 0 then fallback else first
  }

  /** What `scan_python` returns: nothing when the output is not JSON, else every block, sorted. */
  function PythonScan(first: RadonRun, fallback: RadonRun): seq<Candidate>
  {
    match ChosenRun(first, fallback).report
    case None => []
    case Some(report) => SortDesc(RadonCandidates(report))
  }

  /** `scan_python`, with radon's two possible runs as inputs. */
  method ScanPython(first: RadonRun, fallback: RadonRun) returns (targets: seq<Candidate>)
    ensures targets == PythonScan(first, fallback)
  {
    var run := first;
    if run.exitCode != 0 {
      run := fallback;
    }
    if run.report.None? {
      return [];
    }
    var data := run.report.value;
    var ts: seq<Candidate> := [];
    for i := 0 to |data|
      invariant ts == ConcatUpTo(data, i, FileCandidates)
    {
      var fpath := data[i].0;
      var blocks := data[i].1;
      for j := 0 to |blocks|
        invariant ts == ConcatUpTo(data, i, FileCandidates) + FileCandidates(data[i])[..j]
      {
        assert FileCandidates(data[i])[..j + 1] == FileCandidates(data[i])[..j] + [FromBlock(fpath, blocks[j])];
        ts := ts + [FromBlock(fpath, blocks[j])];
      }
      assert FileCandidates(data[i])[..|blocks|] == FileCandidates(data[i]);
      ConcatStep(data, i, FileCandidates);
    }
    var a := new Candidate[|ts|](k requires 0 <= k < |ts| => ts[k]);
    assert a[..] == ts;
    SortByComplexity(a);
    targets := a[..];
  }

  // ----- scan_rust -----------------------------------------------------------------

  const UNKNOWN := "unknown"

  /** The de-duplication key `f"{file_path}::{func_name}:{line_num}"`. */
  function RustKey(file: string, func: string, line: int): string
  {
    file + "::" + func + ":" + IntToString(line)
  }

  function KeyOf(c: Candidate): string
  {
    RustKey(c.file, c.func, c.line)
  }

  /** The target `scan_rust` emits for one diagnostic. */
  function RustCandidate(file: string, func: string, cc: int, line: int): Candidate
  {
    Candidate(file, func, cc, line, Rank(cc), "function", None, Rust, false, None)
  }

  /** What the loop over clippy's lines has built so far: the targets and the keys seen. */
  datatype RustState = RustState(targets: seq<Candidate>, seen: set<string>)

  /**
   * One line of clippy's output: skipped unless it is a `compiler-message` whose code names
   * the cognitive-complexity lint, whose message carries a complexity and which has a span;
   * skipped too when its key was seen. `None` when the line raises: a `code` that is JSON `null`.
   */
  function RustStep(st: RustState, l: ClippyLine): Option<RustState>
  {
    match l
    case NotJson => Some(st)
    case Message(reason, code, cc, spans) =>
      if reason != COMPILER_MESSAGE then Some(st)
      else
        match code
        case NullCode => None
        case NoCode => Some(st)
        case Code(text) =>
          if !Contains(text, COGNITIVE_LINT) || cc.None? || spans == [] then Some(st)
          else
            var primary := PrimarySpan(spans);
            var file := primary.fileName.GetOr(UNKNOWN);
            var line := primary.lineStart.GetOr(0);
            var func := primary.fnName.GetOr(UNKNOWN);
            var key := RustKey(file, func, line);
            if key in st.seen then Some(st)
            else Some(RustState(st.targets + [RustCandidate(file, func, cc.value, line)], st.seen + {key}))
  }

  /** The loop's state after the first `n` lines, `None` once a line has raised. */
  function RustScanUpTo(lines: seq<ClippyLine>, n: nat): Option<RustState>
    requires n <= |lines|
  {
    if n == 0 then Some(RustState([], {}))
    else
      match RustScanUpTo(lines, n - 1)
      case None => None
      case Some(st) => RustStep(st, lines[n - 1])
  }

  /** What `scan_rust` returns for a clippy run: `None` when it raises (the timeout included). */
  function RustScan(run: ClippyRun): Option<seq<Candidate>>
  {
    match run
    case ClippyTimedOut => None
    case ClippyOutput(lines) =>
      match RustScanUpTo(lines, |lines|)
      case None => None
      case Some(st) => Some(SortDesc(st.targets))
  }

  lemma {:induction false} RustScanStaysRaised(lines: seq<ClippyLine>, i: nat, n: nat)
    requires i <= n <= |lines| && RustScanUpTo(lines, i).None?
    ensures RustScanUpTo(lines, n).None?
    decreases n - i
  {
    if i < n {
      RustScanStaysRaised(lines, i + 1, n);
    }
  }

  /**
   * `scan_rust`: run clippy under the temporary `clippy.toml` (put back afterwards on every
   * path, in text mode), then parse its lines, de-duplicate and sort. `None` when it raises.
   */
  method ScanRust(repo: Repository, clippy: map<string, string> -> ClippyRun) returns (targets: Option<seq<Candidate>>)
    modifies repo
    ensures targets == RustScan(clippy(old(repo.work)[CLIPPY_TOML := CLIPPY_THRESHOLD_ONE]))
    ensures repo.work == ClippyRestored(old(repo.work)) && repo.head == old(repo.head) && repo.index == old(repo.index)
    ensures repo.ignored == old(repo.ignored) && repo.log == old(repo.log)
  {
    var run := RunClippyAtThresholdOne(repo, clippy);
    if run.ClippyTimedOut? {
      return None;
    }
    var lines := run.lines;
    var ts: seq<Candidate> := [];
    var seen: set<string> := {};
    for i := 0 to |lines|
      invariant RustScanUpTo(lines, i) == Some(RustState(ts, seen))
    {
      var l := lines[i];
      if l.NotJson? || l.reason != COMPILER_MESSAGE {
        continue;
      }
      if l.code.NullCode? {
        RustScanStaysRaised(lines, i + 1, |lines|);
        return None;
      }
      if l.code.NoCode? || !Contains(l.code.text, COGNITIVE_LINT) || l.complexity.None? || l.spans == [] {
        continue;
      }
      var primary := PrimarySpan(l.spans);
      var file := primary.fileName.GetOr(UNKNOWN);
      var lineNum := primary.lineStart.GetOr(0);
      var func := primary.fnName.GetOr(UNKNOWN);
      var key := RustKey(file, func, lineNum);
      if key in seen {
        continue;
      }
      seen := seen + {key};
      ts := ts + [RustCandidate(file, func, l.complexity.value, lineNum)];
    }
    var a := new Candidate[|ts|](k requires 0 <= k < |ts| => ts[k]);
    assert a[..] == ts;
    SortByComplexity(a);
    targets := Some(a[..]);
  }

  /** At most one target per `file::func:line` key, and no target twice. */
  predicate KeyedOnce(s: seq<Candidate>)
  {
    (forall c, d | c in s && d in s && KeyOf(c) == KeyOf(d) :: c == d)
    && forall c | c in s :: multiset(s)[c] == 1
  }

  /** The shape of every target `scan_rust` builds. */
  predicate RustShaped(c: Candidate)
  {
    c.rank == Rank(c.complexity) && c.classname == None && c.lang == Rust && c.kind == "function" && !c.skipped
  }

  function Keys(s: seq<Candidate>): set<string>
  {
    set c | c in s :: KeyOf(c)
  }

  predicate RustStateOk(st: RustState)
  {
    st.seen == Keys(st.targets) && KeyedOnce(st.targets) && forall c | c in st.targets :: RustShaped(c)
  }

  lemma RustStepOk(st: RustState, l: ClippyLine)
    requires RustStateOk(st) && RustStep(st, l).Some?
    ensures RustStateOk(RustStep(st, l).value)
  {
    var st' := RustStep(st, l).value;
    if st'.targets != st.targets {
      var c := st'.targets[|st'.targets| - 1];
      assert st' == RustState(st.targets + [c], st.seen + {KeyOf(c)}) && KeyOf(c) !in st.seen && RustShaped(c);
      RustAddOk(st, c);
    }
  }

  /** Appending a well-shaped target under a new key keeps the state consistent. */
  lemma RustAddOk(st: RustState, c: Candidate)
    requires RustStateOk(st) && KeyOf(c) !in st.seen && RustShaped(c)
    ensures RustStateOk(RustState(st.targets + [c], st.seen + {KeyOf(c)}))
  {
    var ts := st.targets + [c];
    assert c !in st.targets;
    assert multiset(ts) == multiset(st.targets) + multiset{c};
    assert Keys(ts) == Keys(st.targets) + {KeyOf(c)};
  }

  /** The de-duplication invariant of the `seen` set, after any number of lines. */
  lemma {:induction false} RustScanOk(lines: seq<ClippyLine>, n: nat)
    requires n <= |lines|
    ensures RustScanUpTo(lines, n).Some? ==> RustStateOk(RustScanUpTo(lines, n).value)
  {
    if n > 0 {
      RustScanOk(lines, n - 1);
      if RustScanUpTo(lines, n - 1).Some? && RustScanUpTo(lines, n).Some? {
        RustStepOk(RustScanUpTo(lines, n - 1).value, lines[n - 1]);
      }
    }
  }

  /**
   * `scan_rust` emits at most one target per key, each graded by `_rank`, with no class name,
   * sorted from the most complex down.
   */
  lemma RustScanLaws(run: ClippyRun)
    requires RustScan(run).Some?
    ensures var ts := RustScan(run).value;
      KeyedOnce(ts) && SortedDesc(ts) && forall c | c in ts :: RustShaped(c)
  {
    var lines := run.lines;
    var st := RustScanUpTo(lines, |lines|).value;
    RustScanOk(lines, |lines|);
    SortSorted(st.targets);
    SortPermutes(st.targets);
    var ts := SortDesc(st.targets);
    forall c | c in ts
      ensures c in st.targets
    {
      assert c in multiset(ts);
    }
  }

  // ----- select_targets --------------------------------------------------------------

  const SKIP_REASON := "recently failed (see journal.md)"

  /** `classname.function` when the class name is present and non-empty, else the bare function name. */
  function QName(c: Candidate): string
  {
    if c.classname.Some? && c.classname.value != "" then c.classname.value + "." + c.func else c.func
  }

  /** The journal names the target, by qualified name or by `file::name`. */
  predicate RecentlyFailed(c: Candidate, failed: set<string>)
  {
    QName(c) in failed || c.file + "::" + QName(c) in failed
  }

  function Eligible(failed: set<string>): Candidate -> bool
  {
    (c: Candidate) => !RecentlyFailed(c, failed)
  }

  /** A rejected candidate, as `select_targets` leaves it. */
  function MarkSkipped(c: Candidate): Candidate
  {
    c.(skipped := true, skipReason := Some(SKIP_REASON))
  }

  /** How many targets the loop waits for: the length test follows the append, so at least one. */
  function Quota(topN: int): nat
  {
    if topN >= 1 then topN else 1
  }

  /** Where the walk over `s` ends, from position `i` with `count` targets taken. */
  function StopFrom(s: seq<Candidate>, failed: set<string>, quota: nat, i: nat, count: nat): (n: nat)
    requires i <= |s|
    ensures i <= n <= |s|
    decreases |s| - i
  {
    if i == |s| then |s|
    else if RecentlyFailed(s[i], failed) then StopFrom(s, failed, quota, i + 1, count)
    else if count + 1 >= quota then i + 1
    else StopFrom(s, failed, quota, i + 1, count + 1)
  }

  /** The candidates after the walk stopped at `stop`: every rejected one before it marked, nothing else changed. */
  function Marked(s: seq<Candidate>, failed: set<string>, stop: nat): (r: seq<Candidate>)
    ensures |r| == |s|
  {
    seq(|s|, j requires 0 <= j < |s| => if j < stop && RecentlyFailed(s[j], failed) then MarkSkipped(s[j]) else s[j])
  }

  /**
   * `select_targets`: walk the ranked candidates, mark the recently failed ones in place and
   * keep the others, until `top_n` are kept.
   */
  method SelectTargets(a: array<Candidate>, failed: set<string>, topN: int) returns (selected: seq<Candidate>)
    modifies a
    ensures selected == Take(Filter(old(a[..]), Eligible(failed)), Quota(topN))
    ensures a[..] == Marked(old(a[..]), failed, StopFrom(old(a[..]), failed, Quota(topN), 0, 0))
  {
    ghost var s := a[..];
    ghost var quota := Quota(topN);
    ghost var e := Eligible(failed);
    selected := [];
    var i := 0;
    while i < a.Length
      invariant 0 <= i <= a.Length
      invariant selected == Filter(s[..i], e) && |selected| < quota
      invariant a[..] == Marked(s, failed, i)
      invariant StopFrom(s, failed, quota, 0, 0) == StopFrom(s, failed, quota, i, |selected|)
    {
      var t := a[i];
      assert s[..i + 1] == s[..i] + [s[i]];
      FilterSnoc(s[..i], s[i], e);
      MarkedStep(s, failed, i);
      if RecentlyFailed(t, failed) {
        a[i] := MarkSkipped(t);
        i := i + 1;
        continue;
      }
      selected := selected + [t];
      if |selected| >= topN {
        i := i + 1;
        TakeFilterPrefix(s, i, e, quota);
        return;
      }
      i := i + 1;
    }
    assert s[..i] == s;
  }

  lemma MarkedStep(s: seq<Candidate>, failed: set<string>, i: nat)
    requires i < |s|
    ensures Marked(s, failed, i)[i] == s[i]
    ensures Marked(s, failed, i + 1)
      == Marked(s, failed, i)[i := if RecentlyFailed(s[i], failed) then MarkSkipped(s[i]) else s[i]]
  {
  }

  /** Once a prefix holds `quota` kept elements, the first `quota` kept elements are exactly those. */
  lemma TakeFilterPrefix(s: seq<Candidate>, i: nat, e: Candidate -> bool, quota: nat)
    requires i <= |s| && |Filter(s[..i], e)| == quota
    ensures Take(Filter(s, e), quota) == Filter(s[..i], e)
  {
    assert s == s[..i] + s[i..];
    FilterAppend(s[..i], s[i..], e);
  }

  /**
   * What `select_targets` returns: an order-preserving subsequence of its input, none of it
   * recently failed, at most `max(top_n, 1)` long, and non-empty whenever some candidate is eligible.
   */
  lemma SelectionLaws(s: seq<Candidate>, failed: set<string>, topN: int)
    ensures var sel := Take(Filter(s, Eligible(failed)), Quota(topN));
      IsSubsequence(sel, s)
      && (forall c | c in sel :: !RecentlyFailed(c, failed))
      && |sel| <= Quota(topN)
      && ((exists c | c in s :: !RecentlyFailed(c, failed)) ==> sel != [])
  {
    var e := Eligible(failed);
    var f := Filter(s, e);
    var sel := Take(f, Quota(topN));
    FilterIsSubsequence(s, e);
    SubsequenceOfPrefix(f, Quota(topN), s);
    forall c | c in sel
      ensures !RecentlyFailed(c, failed)
    {
      var k :| 0 <= k < |sel| && sel[k] == c;
      assert f[k] in f;
    }
    if c :| c in s && !RecentlyFailed(c, failed) {
      FilterMembers(s, e, c);
    }
  }

  /**
   * The walk stops right after the candidate that fills the quota, or at the end of the list
   * when the quota is never filled.
   */
  lemma {:induction false} StopAtQuota(s: seq<Candidate>, failed: set<string>, quota: nat, i: nat, count: nat)
    requires i <= |s| && count == |Filter(s[..i], Eligible(failed))| < quota
    ensures StopsRight(s, failed, quota, StopFrom(s, failed, quota, i, count))
    decreases |s| - i
  {
    if i < |s| {
      FilterCountStep(s, failed, i);
      if RecentlyFailed(s[i], failed) {
        assert StopFrom(s, failed, quota, i, count) == StopFrom(s, failed, quota, i + 1, count);
        StopAtQuota(s, failed, quota, i + 1, count);
      } else if count + 1 < quota {
        assert StopFrom(s, failed, quota, i, count) == StopFrom(s, failed, quota, i + 1, count + 1);
        StopAtQuota(s, failed, quota, i + 1, count + 1);
      } else {
        assert StopFrom(s, failed, quota, i, count) == i + 1;
        assert |Filter(s[..i + 1], Eligible(failed))| == quota;
      }
    }
  }

  /** Stopping at `n` is right: at the end, or just after the candidate that fills the quota. */
  predicate StopsRight(s: seq<Candidate>, failed: set<string>, quota: nat, n: nat)
    requires n <= |s|
  {
    n == |s| || (0 < n && |Filter(s[..n], Eligible(failed))| == quota && !RecentlyFailed(s[n - 1], failed))
  }

  /** One more candidate adds one to the count of eligible ones, unless it recently failed. */
  lemma FilterCountStep(s: seq<Candidate>, failed: set<string>, i: nat)
    requires i < |s|
    ensures |Filter(s[..i + 1], Eligible(failed))| == |Filter(s[..i], Eligible(failed))| + if RecentlyFailed(s[i], failed) then 0 else 1
  {
    assert s[..i + 1] == s[..i] + [s[i]];
    FilterSnoc(s[..i], s[i], Eligible(failed));
  }

  // ----- main --------------------------------------------------------------------------

  /** `args.lang or detect_language(repo)`. */
  function ChosenLang(langOverride: Option<Lang>, present: set<string>, rsCount: nat, pyCount: nat): Lang
  {
    if langOverride.Some? then langOverride.value else DetectLanguage(present, rsCount, pyCount)
  }

  /** The working tree after a scan: only the Rust scan rewrites `clippy.toml`. */
  function ScanWork(lang: Lang, work: map<string, string>): map<string, string>
  {
    if lang == Rust then ClippyRestored(work) else work
  }

  /** The scan for a language: `None` when it raises. */
  function Scanned(lang: Lang, first: RadonRun, fallback: RadonRun, clippyRun: ClippyRun): Option<seq<Candidate>>
  {
    match lang
    case Python => Some(PythonScan(first, fallback))
    case Rust => RustScan(clippyRun)
  }

  /** What the scanner prints: nothing (it raised), the empty report, or the selection with its summary. */
  datatype ScanOutcome =
    | ScanRaised
    | NoTargets(lang: Lang)
    | Report(lang: Lang, targets: seq<Candidate>, totalScanned: nat, skippedFromJournal: nat, maxComplexity: int)

  /**
   * The journal is read only once the scan found something, and reading it raises when the
   * look-back leaves the calendar (`failed` is `None`).
   */
  function Summary(lang: Lang, scanned: Option<seq<Candidate>>, failed: Option<set<string>>, topN: int): ScanOutcome
  {
    match scanned
    case None => ScanRaised
    case Some(all) =>
      if all == [] then NoTargets(lang)
      else if failed.None? then ScanRaised
      else Report(lang, Take(Filter(all, Eligible(failed.value)), Quota(topN)), |all|, |failed.value|, all[0].complexity)
  }

  /**
   * The scanner's `main`. The repository's files decide the language unless it is given; radon's
   * runs and clippy's output for the tree it sees are inputs; the journal is read from the tree.
   */
  method ScannerMain(repo: Repository, langOverride: Option<Lang>, rsCount: nat, pyCount: nat,
                     radonFirst: RadonRun, radonFallback: RadonRun, clippy: map<string, string> -> ClippyRun,
                     now: Clock, skipDays: int, topN: int) returns (out: ScanOutcome)
    requires ValidClock(now)
    modifies repo
    ensures var w := old(repo.work);
      out == Summary(ChosenLang(langOverride, w.Keys, rsCount, pyCount),
                     Scanned(ChosenLang(langOverride, w.Keys, rsCount, pyCount), radonFirst, radonFallback,
                             clippy(w[CLIPPY_TOML := CLIPPY_THRESHOLD_ONE])),
                     FailuresRead(JournalText(w), now, skipDays), topN)
    ensures repo.work == ScanWork(ChosenLang(langOverride, old(repo.work).Keys, rsCount, pyCount), old(repo.work))
    ensures repo.head == old(repo.head) && repo.index == old(repo.index)
    ensures repo.ignored == old(repo.ignored) && repo.log == old(repo.log)
  {
    var lang := if langOverride.Some? then langOverride.value else DetectLanguage(repo.work.Keys, rsCount, pyCount);
    var all: seq<Candidate>;
    if lang == Python {
      all := ScanPython(radonFirst, radonFallback);
    } else {
      var scanned := ScanRust(repo, clippy);
      if scanned.None? {
        return ScanRaised;
      }
      all := scanned.value;
    }
    if all == [] {
      return NoTargets(lang);
    }
    assert JournalText(repo.work) == JournalText(old(repo.work));
    out := ReportScan(lang, all, JournalText(repo.work), now, skipDays, topN);
  }

  /** The end of `main` once the scan found something: read the journal, select, report. */
  method ReportScan(lang: Lang, all: seq<Candidate>, journal: Option<string>, now: Clock, skipDays: int, topN: int)
    returns (out: ScanOutcome)
    requires ValidClock(now) && all != []
    ensures out == Summary(lang, Some(all), FailuresRead(journal, now, skipDays), topN)
  {
    var failed := ReadJournalFailures(journal, now, skipDays);
    if failed.None? {
      return ScanRaised;
    }
    var a := new Candidate[|all|](k requires 0 <= k < |all| => all[k]);
    assert a[..] == all;
    var selected := SelectTargets(a, failed.value, topN);
    out := Report(lang, selected, |all|, |failed.value|, all[0].complexity);
  }

  /** Both scanners return their records sorted, so the first complexity reported is the largest. */
  lemma MaxComplexityIsMaximum(lang: Lang, first: RadonRun, fallback: RadonRun, clippyRun: ClippyRun,
                               failed: Option<set<string>>, topN: int)
    requires Summary(lang, Scanned(lang, first, fallback, clippyRun), failed, topN).Report?
    ensures var all := Scanned(lang, first, fallback, clippyRun).value;
      var m := Summary(lang, Scanned(lang, first, fallback, clippyRun), failed, topN).maxComplexity;
      (exists c | c in all :: c.complexity == m) && forall c | c in all :: c.complexity <= m
  {
    var all := Scanned(lang, first, fallback, clippyRun).value;
    if lang == Python {
      var r := ChosenRun(first, fallback).report;
      SortSorted(RadonCandidates(r.value));
    } else {
      RustScanLaws(clippyRun);
    }
    assert all[0] in all;
    forall c | c in all
      ensures c.complexity <= all[0].complexity
    {
      var k :| 0 <= k < |all| && all[k] == c;
      if k > 0 {
        assert all[0].complexity >= all[k].complexity;
      }
    }
  }
}
