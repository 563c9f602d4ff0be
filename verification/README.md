# Gardener: a Dafny model

The Gardener is a loop of three scripts:
- The **scanner** ranks a repository's functions by complexity and picks a few targets. It skips any target the journal says failed recently.
- An outside rewriter then edits one target.
- The **gate** either commits the edit or reverts every uncommitted change. It runs four checks in a fixed order: forbidden paths, syntax, tests, and complexity.
- The **journal** is `journal.md` at the root of the repository. It is a pipe-delimited log. The agent appends one line per attempt, and the scanner reads it back.

The agent's **tool registry** is modelled as well. It is a name-to-tool dictionary kept in insertion order.

The model works on the following things:
- An abstract git repository (`Repo.Repository`), with:
  - `head`, the committed tree;
  - `index`, the staging area;
  - `work`, the files on disk;
  - the set of ignored paths;
  - the commit log.
- Decoded analyzer output (`Analyzers`): radon blocks and clippy diagnostic lines.
- The outcomes of the toolchain runs, which are inputs:
  - `git diff` text;
  - syntax and test results, including timeouts;
  - clippy's run, as a function of the tree it sees.

The journal lives in `work["journal.md"]`. So `revert_all` and `clippy.toml`'s save and restore act on it as they do on disk.

Files, in dependency order:
- `wrappers.dfy`: `Option`.
- `seqs.dfy`: filters, prefixes, subsequences, and folds over sequences.
- `text.dfy`: Python's `strip`, `split`, `join`, `splitlines`, `in` and `str(int)`.
- `dates.dfy`: `strftime`/`strptime` with `%Y-%m-%d`, proleptic Gregorian ordinals, and the look-back cutoff `now - timedelta(days)`.
- `repo.dfy`: git's two transitions, `revert_all` and `commit_change`.
- `analyzers.dfy`: radon and clippy records, and the scoped rewrite of `clippy.toml`.
- `journal.dfy`, `scanner.dfy`, `gate.dfy`, `registry.dfy`: the four core files.
- `gardener.dfy`: properties that span the scanner, the journal and the gate.

How the source's shapes map onto Dafny:
- Loops that build results become methods with loop invariants. Each method is proved equal to a specification function, and the properties are proved as lemmas about those functions. Examples: `check_forbidden_files`, the radon and clippy lookups, both scanners, `read_journal_failures`, `read_entries`.
- Each of the following is kept as an `array` updated in place:
  - the in-place sort, an insertion sort standing in for Python's stable `list.sort`;
  - the candidate list `select_targets` mutates.
- `ToolRegistry` is a class whose methods reassign its map and its key order.

## Model

| member | source | states |
|---|---|---|
| Gate.DetectLanguage | nanobot/skills/gardener/scripts/gate.py:32-37 | The gate picks Rust exactly when `Cargo.toml` exists, and Python otherwise. |
| Gate.ForbiddenPatterns | nanobot/skills/gardener/scripts/gate.py:42-64 | Every language's pattern list contains the common list (scripts, governance docs, `.github/`). |
| GateLaws.CommonPatternsForbidden | nanobot/skills/gardener/scripts/gate.py:42-64 | A path containing a common pattern is forbidden whatever the language. |
| Gate.MatchesAny | nanobot/skills/gardener/scripts/gate.py:83-86 | The inner loop finds a hit exactly when some pattern occurs in the path. |
| Gate.CheckForbiddenFiles | nanobot/skills/gardener/scripts/gate.py:69-88 | The violations are the changed paths that contain some pattern, in diff order. Each path appears once thanks to the `break`. Blank diff output gives no paths. |
| GateLaws.ViolationsExactly | nanobot/skills/gardener/scripts/gate.py:75-88 | A path is a violation if and only if it was changed and some pattern occurs in it. |
| GateLaws.SubstringMatchReachesOtherFiles | nanobot/skills/gardener/scripts/gate.py:83-86 | Substring matching refuses ordinary modules: every path ending in `gate.py` (`src/delegate.py`, say) is forbidden in both languages. |
| Repo.Repository.RevertAll | nanobot/skills/gardener/scripts/gate.py:91-94 | `git checkout .` plus `git clean -fd`. Tracked paths return to their staged content and untracked, unignored paths disappear. Head, index and log do not change. |
| Repo.RevertIdempotent | nanobot/skills/gardener/scripts/gate.py:91-94 | Reverting a second time changes nothing. |
| Repo.RevertRestoresHead | nanobot/skills/gardener/scripts/gate.py:91-94 | With a clean index, a revert restores exactly the committed content of every unignored path. |
| Repo.Repository.CommitChange | nanobot/skills/gardener/scripts/gate.py:97-101 | Stages `file` alone, then commits the whole index with the message `refactor: reduce complexity of F (old → new)`. A commit with nothing staged records nothing. The working tree does not change. |
| Repo.CommitRecordsStaged | nanobot/skills/gardener/scripts/gate.py:97-101 | A change already staged at another path is committed along with `file`, even when `file` brings nothing new. |
| Repo.CommitTouchesOnlyFile | nanobot/skills/gardener/scripts/gate.py:97-101 | With a clean index, the commit changes the committed tree at `file` only. `file` gets its on-disk content, or is removed. |
| Gate.RadonLookup | nanobot/skills/gardener/scripts/gate.py:135-142 | The lookup gives no complexity exactly when no block's bare or `Class.name` name is the target. |
| Gate.RadonLookupFirst | nanobot/skills/gardener/scripts/gate.py:135-141 | The first matching block answers, however many later blocks match. A missing complexity counts as 0. |
| Gate.GetComplexityPython | nanobot/skills/gardener/scripts/gate.py:124-142 | The nested loop returns the lookup's answer over every file's blocks in order. Non-JSON output gives `None`. |
| Gate.FoundInFile | nanobot/skills/gardener/scripts/gate.py:135-141 | A first match at block `j` of file `i` is the lookup over the whole report. |
| Analyzers.RunClippyAtThresholdOne | nanobot/skills/gardener/scripts/gate.py:173-188 | Clippy runs on the tree with `clippy.toml` set to threshold 1. On every path, the timeout included, the file is put back: the text `read_text` returned for it is rewritten, or it is removed when it did not exist. Every other path is untouched. |
| Analyzers.UniversalNewlines | nanobot/skills/gardener/scripts/gate.py:175 | Text read in text mode holds no `\r`: `\r\n` and a lone `\r` both become `\n`. |
| Analyzers.UniversalNewlinesKeepsPlainText | nanobot/skills/gardener/scripts/gate.py:175-186 | Text without `\r` reads back unchanged. |
| Analyzers.UniversalNewlinesIdempotent | nanobot/skills/gardener/scripts/gate.py:175-186 | Reading back text that was read in text mode changes nothing more. |
| Analyzers.CrLfIsRewritten | nanobot/skills/gardener/scripts/gate.py:175-186 | A `clippy.toml` with Windows line ends is not restored byte for byte: `x = 1\r\n` comes back as `x = 1\n`. |
| Analyzers.ClippyRestored | nanobot/skills/gardener/scripts/gate.py:184-188 | The restored tree has the same paths as before, and every path other than `clippy.toml` keeps its content. |
| Analyzers.ClippyRestoredExactly | nanobot/skills/gardener/scripts/gate.py:184-188 | When `clippy.toml` is absent or holds no `\r`, the tree is restored exactly. |
| Analyzers.PrimarySpan | nanobot/skills/gardener/scripts/gate.py:206 | The chosen span is a primary one, or the first span when none is primary. |
| Analyzers.PrimarySpanIsFirst | nanobot/skills/gardener/scripts/gate.py:206 | A primary span chosen is the first primary one: no span before it is primary. |
| Gate.ClippyLookup | nanobot/skills/gardener/scripts/gate.py:190-215 | The lookup gives `NotFound` exactly when every line skips. A measured result is the complexity of some line that answers. |
| Gate.ClippyLookupFirst | nanobot/skills/gardener/scripts/gate.py:190-215 | The first line that does not skip decides, whatever later lines say: a hit gives its complexity and a null code raises. |
| Gate.GetComplexityRust | nanobot/skills/gardener/scripts/gate.py:167-217 | The first `compiler-message` with the cognitive-complexity code, whose primary span is `fn target` and which carries a complexity, answers. A null code raises, and a clippy timeout raises. Without a match the result is `NotFound`. The working tree is left as it was, except that `clippy.toml` comes back with its line ends normalised. |
| Gate.SyntaxDetail | nanobot/skills/gardener/scripts/gate.py:288 | The syntax-error detail is a prefix of stderr and at most 500 characters long. |
| Gate.TestSummary | nanobot/skills/gardener/scripts/gate.py:301-302 | The test summary splits back into exactly the last five (or fewer) lines of the stripped output. |
| Gate.Quoted | nanobot/skills/gardener/scripts/gate.py:274 | Each path of `str(violations)` appears in single quotes, in the same order. |
| Gate.DetailField | nanobot/skills/gardener/scripts/gate.py:264-265 | `detail` is emitted only when it is non-empty, and then it carries that text. |
| Gate.Prechecks | nanobot/skills/gardener/scripts/gate.py:269-305 | Runs forbidden, then syntax (timeout, then error), then tests (timeout, then failure), stopping at the first failure. Its result is `FirstFailure`, and it records which checks started. |
| Gate.Fail | nanobot/skills/gardener/scripts/gate.py:260-267 | `fail` reverts the whole working tree before reporting, and commits nothing. |
| Gate.ComplexityStage | nanobot/skills/gardener/scripts/gate.py:307-327 | Measures again. A vanished target passes as `function_decomposed` and commits with new cc 0. A cc at or above the original fails (and reverts). A lower cc passes and commits. An exception leaves the repository untouched. On Rust every outcome starts from the tree clippy's run left behind. |
| Gate.Settle | nanobot/skills/gardener/scripts/gate.py:311-327 | Carries out the complexity verdict: on a pass, a commit of the index with `file` staged (of `file` alone when the index was clean, `Repo.CommitTouchesOnlyFile`); a revert on a failure, nothing on an exception. |
| Gate.RunGate | nanobot/skills/gardener/scripts/gate.py:238-327 | The gate's verdict is `Decide` of its inputs. Each run ends in exactly one of three ways: a revert (FAIL), a commit of the index with `file` staged (PASS; of `file` alone when the index was clean, `Repo.CommitTouchesOnlyFile`), or no change at all (an uncaught exception). Once the complexity was measured on Rust, the tree is the one clippy's run left behind. |
| GateLaws.StageOrder | nanobot/skills/gardener/scripts/gate.py:269-321 | The checks start in the fixed order, each only after every earlier one passed. A failure's reason belongs to the last check started, and a pass or an exception means all four started. |
| GateLaws.PassExactly | nanobot/skills/gardener/scripts/gate.py:269-327 | PASS holds if and only if: no violation; syntax and tests finished cleanly; and the target vanished or its cc dropped strictly. `new_cc` is present exactly when the target was measured, and is then below the original. |
| GateLaws.RaisedExactly | nanobot/skills/gardener/scripts/gate.py:307-310 | An exception escapes if and only if the first three checks passed and the measurement raised. |
| GateLaws.FailureShape | nanobot/skills/gardener/scripts/gate.py:260-321 | A FAIL carries one of the six reasons. A detail, when present, is non-empty, and the two timeouts carry none. |
| GateLaws.SyntaxDetailBounded | nanobot/skills/gardener/scripts/gate.py:286-288 | A `syntax_error` detail is a prefix of the compiler's stderr, at most 500 characters long. |
| GateLaws.ComplexityMustDrop | nanobot/skills/gardener/scripts/gate.py:319-326 | A measured cc passes if and only if it is below the original. Otherwise the result is `complexity_not_reduced` with detail `old → new`. |
| Scanner.DetectLanguage | nanobot/skills/gardener/scripts/scanner.py:30-40 | The scanner picks Rust exactly when `Cargo.toml` exists, or when no Python manifest exists and there are strictly more `.rs` files than `.py` files. |
| Scanner.DetectionOrder | nanobot/skills/gardener/scripts/scanner.py:30-40 | `Cargo.toml` decides first, then any Python manifest. Only then do the file counts decide, with Rust only for strictly more `.rs` files (a tie goes to Python). |
| Scanner.Rank | nanobot/skills/gardener/scripts/scanner.py:177-183 | The grade is one of A–F: A exactly for cc ≤ 5 and F exactly for cc > 30. |
| Scanner.RankMonotone | nanobot/skills/gardener/scripts/scanner.py:177-183 | A higher complexity never gets a better grade. |
| Scanner.SortByComplexity | nanobot/skills/gardener/scripts/scanner.py:78 | The array is sorted in place into `SortDesc` of its old contents. |
| Scanner.InsertAt | nanobot/skills/gardener/scripts/scanner.py:78 | One insertion step puts element `i` after every earlier element at least as complex and leaves the rest alone. |
| Scanner.SortSorted | nanobot/skills/gardener/scripts/scanner.py:78 | The result is ordered from most to least complex. |
| Scanner.SortPermutes | nanobot/skills/gardener/scripts/scanner.py:78 | The result is a permutation of the input. |
| Scanner.SortStable | nanobot/skills/gardener/scripts/scanner.py:78 | Records of equal complexity keep their analyzer order, as in Python's stable sort with `reverse=True`. |
| Scanner.FileCandidates | nanobot/skills/gardener/scripts/scanner.py:65-76 | One candidate per radon block of a file, with the defaults `unknown`, 0, 0, `?` and `function` for missing keys. |
| Scanner.ScanPython | nanobot/skills/gardener/scripts/scanner.py:45-79 | Falls back to the unfiltered radon run when the first one fails. Output that is not JSON gives no candidates. Otherwise every block becomes a candidate, sorted by complexity. |
| Scanner.ScanRust | nanobot/skills/gardener/scripts/scanner.py:84-174 | Under the scoped `clippy.toml`, the result is the fold `RustScan` over clippy's lines. A timeout or a null code raises. The tree is restored, with `clippy.toml`'s line ends normalised. |
| Scanner.RustScanStaysRaised | nanobot/skills/gardener/scripts/scanner.py:122-128 | Once a line raises, the whole scan raises. |
| Scanner.RustStepOk | nanobot/skills/gardener/scripts/scanner.py:156-171 | Each accepted line adds a target whose key is new and records that key as seen. |
| Scanner.RustScanOk | nanobot/skills/gardener/scripts/scanner.py:113-171 | The scan's invariant holds after any number of lines. |
| Scanner.RustScanLaws | nanobot/skills/gardener/scripts/scanner.py:156-173 | Rust targets hold at most one per `file::func:line` key. Each is graded by `_rank` and has no class name, and the list is sorted by complexity. |
| Scanner.SelectTargets | nanobot/skills/gardener/scripts/scanner.py:221-245 | Returns the first `max(top_n, 1)` candidates not named in the failure set. Marks exactly the rejected candidates before the stopping point as skipped, with the reason. Every other entry is unchanged. |
| Scanner.SelectionLaws | nanobot/skills/gardener/scripts/scanner.py:227-245 | The selection preserves order, names no recently failed target, and holds at most `max(top_n, 1)` entries. It is non-empty whenever some candidate is eligible. |
| Scanner.StopAtQuota | nanobot/skills/gardener/scripts/scanner.py:241-243 | The loop stops right after the quota-th eligible candidate, or at the end. |
| Scanner.ScannerMain | nanobot/skills/gardener/scripts/scanner.py:250-293 | An empty scan reports no targets, and a raising scan reports nothing. The journal is read only after a non-empty scan, and a look-back that leaves the calendar raises. Otherwise the report holds the selection, the full count, the size of the failure set, and the first record's complexity. The repository is left as it was, except for `clippy.toml`'s line ends after a Rust scan. |
| Scanner.ReportScan | nanobot/skills/gardener/scripts/scanner.py:280-293 | After a non-empty scan: reading the journal raises, or the report holds the selection made against the failures read. |
| Scanner.MaxComplexityIsMaximum | nanobot/skills/gardener/scripts/scanner.py:292 | The reported `max_complexity` is the largest complexity scanned. |
| Journal.EnsureJournal | nanobot/skills/gardener/scripts/journal.py:26-31 | A missing journal is created holding exactly the header. An existing one is not touched. |
| Journal.WriteEntry | nanobot/skills/gardener/scripts/journal.py:34-42 | The entry, dated today, is appended after everything already in the file. Nothing else changes. |
| JournalLaws.EntryLayout | nanobot/skills/gardener/scripts/journal.py:39 | The entry is one line: the fields `[date]`, `target: F`, `status: R`, `cc: X` and `reason: W`, joined by ` | `, then a newline. |
| JournalLaws.FailureCcRepeatsOld | nanobot/skills/gardener/scripts/journal.py:38 | A failure's `cc` field is `old->old`, whatever new complexity was passed. |
| JournalLaws.EntryIsOneLine | nanobot/skills/gardener/scripts/journal.py:39 | With no line break in the target or the reason, the entry is exactly one line. |
| Dates.ParseFormat | nanobot/skills/gardener/scripts/journal.py:37 | `strptime("%Y-%m-%d")` reads back exactly the date `strftime` wrote. |
| Dates.OrdinalRange | nanobot/skills/gardener/scripts/journal.py:53 | Every valid date's ordinal lies between that of 0001-01-01 (1) and that of 9999-12-31. |
| Dates.CutoffDefinedBounds | nanobot/skills/gardener/scripts/journal.py:53 | A look-back that stays in the calendar is less than 3652059 days either way, so `timedelta` never overflows first. Any look-back from 0 up to today's ordinal stays in the calendar. |
| Dates.WindowBoundary | nanobot/skills/gardener/scripts/journal.py:53-65 | An entry counts when its date is after `today - days`. It also counts on that day, but only at exactly midnight. |
| Journal.ReadJournalFailures | nanobot/skills/gardener/scripts/journal.py:47-76 | The loop collects each line's failed target into `FailuresIn`. A missing journal gives the empty set. A look-back that leaves years 1 to 9999 raises (`OverflowError`), but only when the journal exists. |
| JournalLaws.TargetFieldReads | nanobot/skills/gardener/scripts/journal.py:68-71 | The identity read back is the text after the first `:` of the `target:` part, stripped, so `file::Class.func` survives. |
| JournalLaws.StatusFieldReads | nanobot/skills/gardener/scripts/journal.py:68-70 | The status part contains `Fail` exactly for a failure. |
| JournalLaws.FirstWithPrefixAt | nanobot/skills/gardener/scripts/journal.py:68-69 | `next(p for p in parts if p.startswith(k))` is the first part with that prefix. |
| JournalLaws.EntryLineFailure | nanobot/skills/gardener/scripts/journal.py:56-72 | A written line yields its stripped target exactly when it records a failure dated inside the window. |
| JournalLaws.RecentFailuresAppend | nanobot/skills/gardener/scripts/journal.py:56-72 | The failures of two runs of lines are the union of each run's failures, so no line aborts the read. |
| JournalLaws.FailureOfLineIsRecent | nanobot/skills/gardener/scripts/journal.py:56-72 | Every line's failure is in the result, whatever surrounds it. |
| JournalLaws.HeaderHasNoFailures | nanobot/skills/gardener/scripts/journal.py:23 | The header contributes no failures. |
| JournalLaws.EnsuredFailures | nanobot/skills/gardener/scripts/journal.py:26-31 | Creating the journal changes nothing the reader sees. |
| JournalLaws.EntryFailures | nanobot/skills/gardener/scripts/journal.py:34-76 | Appending an entry adds its stripped target to the failures read back if and only if it is a failure inside the window. |
| JournalLaws.FailureWrittenNowIsSkipped | nanobot/skills/gardener/scripts/journal.py:37-72 | A failure written today is in the window for any `skip_days ≥ 1`. The read raises exactly when the look-back leaves the calendar, and otherwise returns the target. |
| Journal.ReadEntries | nanobot/skills/gardener/scripts/journal.py:79-109 | Without a journal the result is "No journal found." and nothing is created. A look-back that leaves the calendar raises. Otherwise it keeps the stripped lines dated inside the window, in file order, and counts `status: Success` and `status: Fail` among them. |
| JournalLaws.EntryLineKept | nanobot/skills/gardener/scripts/journal.py:89-98 | A written line is kept, stripped, exactly when its date is not before the cutoff. |
| JournalLaws.HeaderHasNoEntries | nanobot/skills/gardener/scripts/journal.py:91-92 | The header contributes no entries. |
| JournalLaws.EntryListed | nanobot/skills/gardener/scripts/journal.py:34-98 | Appending an entry adds its line to the end of the kept entries exactly when its date is inside the window. |
| JournalLaws.EntryCounted | nanobot/skills/gardener/scripts/journal.py:107-108 | A kept entry raises the count of its own outcome's `status:` mark by one. |
| Registry.ToolRegistry.constructor | nanobot/agent/tools/registry.py:17-18 | A new registry is empty. |
| Registry.ToolRegistry.Register | nanobot/agent/tools/registry.py:20-22 | Files the tool under its name, replacing any earlier tool. A new name goes last in the key order, and a re-registered name keeps its place. |
| Registry.ToolRegistry.Unregister | nanobot/agent/tools/registry.py:24-26 | Drops the name from the map and from the key order. An absent name changes nothing. |
| Registry.ToolRegistry.Get | nanobot/agent/tools/registry.py:28-30 | The tool filed under the name, whose own name is that name, or `None` exactly when it is not registered. |
| Registry.ToolRegistry.Has | nanobot/agent/tools/registry.py:32-34 | `has` holds exactly when `get` finds a tool, and exactly for the listed tool names. |
| Registry.ToolRegistry.Contains | nanobot/agent/tools/registry.py:75-76 | `in` agrees with `has`. |
| Registry.ToolRegistry.ToolNames | nanobot/agent/tools/registry.py:67-70 | Exactly the registered names, each once. |
| Registry.ToolRegistry.Len | nanobot/agent/tools/registry.py:72-73 | The number of distinct registered names. |
| Registry.ToolRegistry.GetDefinitions | nanobot/agent/tools/registry.py:36-38 | One schema per registered tool, in key order. |
| Registry.ToolRegistry.Execute | nanobot/agent/tools/registry.py:40-47 | An unknown name returns `Error: Tool '<name>' not found` and runs nothing. A known name returns its tool's outcome. |
| Registry.DistinctCount | nanobot/agent/tools/registry.py:72-73 | A key list without repeats is as long as its set of keys. |
| RegistryLaws.RegisterThenGet | nanobot/agent/tools/registry.py:20-34 | After `register(t)`, `has(t.name)` holds and `get(t.name)` is `t`, and every other name's entry is unchanged. |
| RegistryLaws.UnregisterThenGet | nanobot/agent/tools/registry.py:24-34 | After `unregister(n)`, `has(n)` is false and `get(n)` is `None`, and every other name's entry is unchanged. |
| RegistryLaws.ReRegisterReplaces | nanobot/agent/tools/registry.py:20-22 | Registering under a taken name replaces the tool without growing the registry. |
| Gardener.DetectionAgreesWithCargo | nanobot/skills/gardener/scripts/gate.py:32-37 | With `Cargo.toml` present, the scanner and the gate both choose Rust. |
| Gardener.DetectionCanDisagree | nanobot/skills/gardener/scripts/scanner.py:30-40 | The two detections disagree exactly when no manifest exists and `.rs` files outnumber `.py` files. The scanner then chooses Rust and the gate Python. |
| Gardener.FailedTargetIsNotReselected | nanobot/skills/gardener/scripts/scanner.py:227-245 | A failure written to the journal today keeps every candidate it names out of the next report within the skip window. The name can be a qualified name or `file::name`. The scan raises instead exactly when the look-back leaves the calendar. |

## Left out

- Subprocesses are inputs, not runs. This covers `git diff`, `py_compile`/`cargo check`, `pytest`/`cargo test`, `radon` and `cargo clippy`. Their results appear as text, a finished flag with ok and output, a timeout marker, decoded analyzer records, and clippy as a function of the tree it sees.
- Git is abstracted as maps. `revert_all` and `commit_change` act on head, index, working tree and an ignored set. Directories, renames, submodules and the ignore rules themselves are not modelled.
- JSON decoding and the regular expressions are not modelled. Records arrive decoded: missing keys are `None`, and the `fn` name and the complexity are already extracted from clippy's text. Radon always emits integer complexities, so a JSON `null` complexity is not modelled. Neither is a null `message` object in a clippy line.
- Counts and dates are parameters. `rglob("*.rs")` and `rglob("*.py")` counts are inputs. The clock is a date plus the microsecond of the day. `strptime` is modelled for ASCII-digit `%Y-%m-%d` only.
- Output is not modelled: printing, emoji narration, argparse, exit codes, the "not a directory" check, and the unsupported-language branch, which argparse's `choices` make unreachable.
- The scanner's `avg_complexity` is left out, because it uses float division and `round`.
- Gate.ListDisplay: `str(violations)` is modelled as single-quoted paths joined by `, `. Python's escaping of quotes and backslashes inside paths is not modelled.
- Registry.ToolRegistry.Execute: the found branch is left out. It covers parameter validation, the asynchronous `tool.execute`, the exception-to-message conversion and the tracer, and is one outcome supplied from outside. A registered tool always counts as present. nanobot/agent/tools/base.py is not part of this model.
- `nanobot/agent/tracer.py` is not part of this model. It holds logging state, file appends and timing.
- Analyzers.RunClippyAtThresholdOne: `read_text` of a `clippy.toml` that is not valid text in the locale's encoding raises `UnicodeDecodeError` before clippy runs. The model reads every file as text. Encodings, and a platform line separator other than `\n` on writing, are not modelled. The same holds for `read_text` of the journal.
- Scanner.SortByComplexity: Python's `list.sort` is a merge sort. The model uses an in-place insertion sort and proves the same result, sorted, a permutation and stable, but not its running time.

## Behaviour of the code worth knowing

- The gate reverts on every reported failure, but not on an uncaught exception in the complexity check. Two cases produce one: a clippy timeout, and a clippy diagnostic whose `code` is JSON `null`. `RunGate` then leaves the repository as it was, with the rewrite still uncommitted.
- A PASS runs `git add file` and then a plain `git commit`, so it commits whatever was already staged along with `file` (`Repo.CommitRecordsStaged`).
- `skipped_from_journal` is the size of the failure set read from the journal. It is not the number of candidates actually skipped.
- The scanner and the gate detect the language differently (`Gardener.DetectionCanDisagree`).
- `clippy.toml` is read and written back in text mode. A `clippy.toml` with `\r\n` line ends is left rewritten with `\n` and uncommitted after every scan or gate run on Rust (`Analyzers.CrLfIsRewritten`).
- `now - timedelta(days=skip_days)` raises `OverflowError` when the result falls outside years 1 to 9999. This happens, for instance, with a negative `skip_days` that reaches past 9999-12-31, or with a `skip_days` of at least today's ordinal. The journal readers and the scanner then raise instead of returning, but only when the journal exists.
- `journal.md` sits in the working tree. A gate failure reverts it to its staged content, or removes it when it is untracked and not ignored.
- An entry appended to a journal that does not end with a newline joins the journal's last line. The read-back lemmas therefore assume the journal ends with a complete line.
