/**
 * What the two complexity analyzers report, as already-decoded records, and the scoped
 * rewrite of `clippy.toml` that both the scanner and the gate run clippy under.
 */
module Analyzers {
  import opened Wrappers
  import opened Repo

  /** The two ecosystems the scripts support (`--lang python|rust`). */
  datatype Lang = Python | Rust

  function LangName(lang: Lang): string
  {
    match lang
    case Python => "python"
    case Rust => "rust"
  }

  // ----- radon cc -j -------------------------------------------------------

  /** One block of `radon cc -j` output; a missing key is `None`. */
  datatype RadonBlock = RadonBlock(
    name: Option<string>,
    classname: Option<string>,
    complexity: Option<int>,
    lineno: Option<int>,
    rank: Option<string>,
    kind: Option<string>)

  /** The decoded JSON object of `radon cc -j`: file path to blocks, in document order. */
  type RadonReport = seq<(string, seq<RadonBlock>)>

  /** One run of radon: its exit status and its stdout, `None` when it is not valid JSON. */
  datatype RadonRun = RadonRun(exitCode: int, report: Option<RadonReport>)

  /** The blocks of one file, each tagged with its file path. */
  function Tagged(file: string, blocks: seq<RadonBlock>): (r: seq<(string, RadonBlock)>)
    ensures |r| == |blocks| && forall i :: 0 <= i < |r| ==> r[i] == (file, blocks[i])
  {
    seq(|blocks|, i requires 0 <= i < |blocks| => (file, blocks[i]))
  }

  /** Every block of the report in the order `for fpath, blocks in data.items(): for block in blocks` visits them. */
  function Flatten(report: RadonReport): seq<(string, RadonBlock)>
  {
    if report == [] then [] else Tagged(report[0].0, report[0].1) + Flatten(report[1..])
  }

  lemma {:induction false} FlattenAppend(a: RadonReport, b: RadonReport)
    ensures Flatten(a + b) == Flatten(a) + Flatten(b)
  {
    if a == [] {
      assert a + b == b;
    } else {
      assert (a + b)[1..] == a[1..] + b;
      FlattenAppend(a[1..], b);
    }
  }

  /** The outer loop over files adds one file's blocks at a time. */
  lemma FlattenNext(report: RadonReport, i: nat)
    requires i < |report|
    ensures Flatten(report[..i + 1]) == Flatten(report[..i]) + Tagged(report[i].0, report[i].1)
  {
    assert report[..i + 1] == report[..i] + [report[i]];
    FlattenAppend(report[..i], [report[i]]);
  }

  // ----- cargo clippy --message-format=json ----------------------------------

  /** The manifest whose presence makes a repository a Rust one. */
  const CARGO_TOML := "Cargo.toml"
  /** The `reason` of clippy's diagnostic lines. */
  const COMPILER_MESSAGE := "compiler-message"
  /** The lint code that reports cognitive complexity. */
  const COGNITIVE_LINT := "cognitive_complexity"

  /** `diag["code"]`: absent (or without an inner `code`), JSON `null`, or an object with a code string. */
  datatype CodeField = NoCode | NullCode | Code(text: string)

  /**
   * One entry of `diag["spans"]`. `fnName` is what the pattern `\bfn\s+(\w+)\s*[(<]` captures
   * from the span's first source line, `None` when the span has no text or nothing matches.
   */
  datatype Span = Span(isPrimary: bool, fileName: Option<string>, lineStart: Option<int>, fnName: Option<string>)

  /**
   * One stdout line of clippy: not JSON, or an object with its `reason`, its diagnostic's code,
   * the N that `cognitive complexity of \((\d+)/\d+\)` captures from the diagnostic's message,
   * and the diagnostic's spans.
   */
  datatype ClippyLine = NotJson | Message(reason: string, code: CodeField, complexity: Option<int>, spans: seq<Span>)

  /** A clippy run either exceeds its 300-second timeout or produces its stdout lines. */
  datatype ClippyRun = ClippyTimedOut | ClippyOutput(lines: seq<ClippyLine>)

  /** `next((s for s in spans if s.get("is_primary")), spans[0])`. */
  function PrimarySpan(spans: seq<Span>): (s: Span)
    requires spans != []
    ensures s in spans
    ensures s.isPrimary || (s == spans[0] && forall t :: t in spans ==> !t.isPrimary)
  {
    if spans[0].isPrimary || |spans| == 1 then spans[0]
    else
      var rest := PrimarySpan(spans[1..]);
      if rest.isPrimary then rest else spans[0]
  }

  /** The span chosen is the first primary one: no span before it is primary. */
  lemma {:induction false} PrimarySpanIsFirst(spans: seq<Span>)
    requires spans != []
    ensures PrimarySpan(spans).isPrimary ==>
      exists k :: 0 <= k < |spans| && spans[k] == PrimarySpan(spans) && forall m :: 0 <= m < k ==> !spans[m].isPrimary
  {
    if spans[0].isPrimary || |spans| == 1 {
      if spans[0].isPrimary {
        assert spans[0] == PrimarySpan(spans);
      }
    } else {
      var rest := PrimarySpan(spans[1..]);
      if rest.isPrimary {
        PrimarySpanIsFirst(spans[1..]);
        var k :| 0 <= k < |spans| - 1 && spans[1..][k] == rest && forall m :: 0 <= m < k ==> !spans[1..][m].isPrimary;
        forall m | 0 <= m < k + 1
          ensures !spans[m].isPrimary
        {
          if m > 0 {
            assert spans[m] == spans[1..][m - 1];
          }
        }
        assert spans[k + 1] == PrimarySpan(spans);
      }
    }
  }

  const CLIPPY_TOML := "clippy.toml"
  const CLIPPY_THRESHOLD_ONE := "cognitive-complexity-threshold = 1\n"

  /**
   * Python's text-mode newline translation on reading (`newline=None`): `\r\n` and a lone `\r`
   * each become `\n`. `read_text` hands this back and `write_text` writes it out unchanged on
   * a system whose line separator is `\n`.
   */
  function UniversalNewlines(s: string): (r: string)
    ensures '\r' !in r
    decreases |s|
  {
    if s == [] then []
    else if s[0] == '\r' then "\n" + UniversalNewlines(if |s| > 1 && s[1] == '\n' then s[2..] else s[1..])
    else [s[0]] + UniversalNewlines(s[1..])
  }

  /** A text without `\r` comes back from the round trip exactly as it was. */
  lemma {:induction false} UniversalNewlinesKeepsPlainText(s: string)
    requires '\r' !in s
    ensures UniversalNewlines(s) == s
  {
    if s != [] {
      assert '\r' !in s[1..] by {
        forall k | 0 <= k < |s[1..]| ensures s[1..][k] != '\r' {
          assert s[1..][k] == s[k + 1];
        }
      }
      UniversalNewlinesKeepsPlainText(s[1..]);
      assert s == [s[0]] + s[1..];
    }
  }

  /** The translation is applied once: a second round trip changes nothing. */
  lemma UniversalNewlinesIdempotent(s: string)
    ensures UniversalNewlines(UniversalNewlines(s)) == UniversalNewlines(s)
  {
    UniversalNewlinesKeepsPlainText(UniversalNewlines(s));
  }

  /** A `clippy.toml` with Windows line ends does not survive the round trip. */
  lemma CrLfIsRewritten()
    ensures UniversalNewlines("x = 1\r\n") == "x = 1\n"
  {
    var s := "x = 1\r\n";
    assert s[1..] == " = 1\r\n" && s[1..][1..] == "= 1\r\n" && s[1..][1..][1..] == " 1\r\n";
    assert s[1..][1..][1..][1..] == "1\r\n" && s[1..][1..][1..][1..][1..] == "\r\n";
    assert UniversalNewlines("\r\n") == "\n";
  }

  /**
   * The working tree after the temporary `clippy.toml` is put back: its old content passed
   * through the text-mode round trip, or no file when there was none.
   */
  function ClippyRestored(work: map<string, string>): (w: map<string, string>)
    ensures w.Keys == work.Keys
    ensures forall p | p in work && p != CLIPPY_TOML :: w[p] == work[p]
    ensures CLIPPY_TOML in work ==> w[CLIPPY_TOML] == UniversalNewlines(work[CLIPPY_TOML])
  {
    if CLIPPY_TOML in work then work[CLIPPY_TOML := UniversalNewlines(work[CLIPPY_TOML])] else work
  }

  /** Without a `\r` in `clippy.toml` (or without the file), the tree is back exactly as it was. */
  lemma ClippyRestoredExactly(work: map<string, string>)
    requires CLIPPY_TOML in work ==> '\r' !in work[CLIPPY_TOML]
    ensures ClippyRestored(work) == work
  {
    if CLIPPY_TOML in work {
      UniversalNewlinesKeepsPlainText(work[CLIPPY_TOML]);
    }
  }

  /**
   * Run clippy with `clippy.toml` temporarily set to threshold 1, as `scan_rust` and
   * `get_complexity_rust` do. `clippy` gives the run's result for the working tree it sees.
   * Whatever the run returns, the timeout included, the file is put back: its old content,
   * as read and rewritten in text mode, or no file when it did not exist.
   */
  method RunClippyAtThresholdOne(repo: Repository, clippy: map<string, string> -> ClippyRun) returns (run: ClippyRun)
    modifies repo
    ensures run == clippy(old(repo.work)[CLIPPY_TOML := CLIPPY_THRESHOLD_ONE])
    ensures repo.work == ClippyRestored(old(repo.work))
    ensures repo.head == old(repo.head) && repo.index == old(repo.index)
    ensures repo.ignored == old(repo.ignored) && repo.log == old(repo.log)
  {
    var original: Option<string> := if CLIPPY_TOML in repo.work then Some(UniversalNewlines(repo.work[CLIPPY_TOML])) else None;
    repo.work := repo.work[CLIPPY_TOML := CLIPPY_THRESHOLD_ONE];
    run := clippy(repo.work);
    if original.Some? {
      repo.work := repo.work[CLIPPY_TOML := original.value];
    } else if CLIPPY_TOML in repo.work {
      repo.work := repo.work - {CLIPPY_TOML};
    }
  }
}
