/**
 * The Gardener journal: `journal.md` at the repository root, an append-only ledger of
 * pipe-delimited lines `[YYYY-MM-DD] | target: F | status: R | cc: X | reason: W`.
 * Writers append one line; readers re-read the whole file, skip what does not parse,
 * and keep what falls inside a look-back window.
 */
module Journal {
  import opened Wrappers
  import opened Text
  import opened Dates
  import opened Repo
  import opened Seqs

  const JOURNAL := "journal.md"
  const TARGET_KEY := "target:"
  const STATUS_KEY := "status:"
  const HEADER := "# Gardener Journal\n\n"

  /** `--result`, restricted to these two values. */
  datatype Outcome = Success | Fail

  function OutcomeText(result: Outcome): string
  {
    match result
    case Success => "Success"
    case Fail => "Fail"
  }

  /** `cc_str`: the new complexity is recorded only for a success; a failure repeats the old one. */
  function CcField(result: Outcome, oldCC: int, newCC: int): string
  {
    IntToString(oldCC) + "->" + IntToString(if result == Success then newCC else oldCC)
  }

  /** The fields of an entry before its reason, each followed by `|` as the entry format puts them. */
  function DateField(date: Date): string
    requires Valid(date)
  {
    "[" + Format(date) + "] "
  }

  function TargetField(target: string): string
  {
    " " + TARGET_KEY + " " + target + " "
  }

  /** The status mark `read_entries` counts for an outcome. */
  function Mark(result: Outcome): string
  {
    STATUS_KEY + " " + OutcomeText(result)
  }

  function StatusField(result: Outcome): string
  {
    " " + Mark(result) + " "
  }

  function CcText(result: Outcome, oldCC: int, newCC: int): string
  {
    " cc: " + CcField(result, oldCC, newCC) + " "
  }

  /** Everything up to `| cc: X |`, the part of an entry the readers look at. */
  function EntryHead(date: Date, target: string, result: Outcome, oldCC: int, newCC: int): string
    requires Valid(date)
  {
    Terminated([DateField(date), TargetField(target), StatusField(result), CcText(result, oldCC, newCC)], '|')
  }

  /** The text `write_entry` appends: one line and its `\n`. */
  function Entry(date: Date, target: string, result: Outcome, reason: string, oldCC: int, newCC: int): string
    requires Valid(date)
  {
    EntryHead(date, target, result, oldCC, newCC) + " reason: " + reason + "\n"
  }

  /** The journal's content, `None` when `journal.md` does not exist. */
  function JournalText(work: map<string, string>): Option<string>
  {
    if JOURNAL in work then Some(work[JOURNAL]) else None
  }

  /** The working tree after `ensure_journal`. */
  function Ensured(work: map<string, string>): (w: map<string, string>)
    ensures JOURNAL in w
  {
    if JOURNAL in work then work else work[JOURNAL := HEADER]
  }

  /** The working tree after appending `entry` to the (ensured) journal. */
  function Appended(work: map<string, string>, entry: string): (w: map<string, string>)
    ensures JOURNAL in w
  {
    var e := Ensured(work);
    e[JOURNAL := e[JOURNAL] + entry]
  }

  /** `ensure_journal`: create `journal.md` holding exactly `HEADER` when absent; never touch an existing one. */
  method EnsureJournal(repo: Repository)
    modifies repo
    ensures repo.work == Ensured(old(repo.work))
    ensures repo.head == old(repo.head) && repo.index == old(repo.index)
    ensures repo.ignored == old(repo.ignored) && repo.log == old(repo.log)
  {
    if JOURNAL !in repo.work {
      repo.work := repo.work[JOURNAL := HEADER];
    }
  }

  /** `write_entry`: dated with today's date, appended after everything already in the file. */
  method WriteEntry(repo: Repository, now: Clock, target: string, result: Outcome, reason: string, oldCC: int, newCC: int)
    requires ValidClock(now)
    modifies repo
    ensures repo.work == Appended(old(repo.work), Entry(now.today, target, result, reason, oldCC, newCC))
    ensures repo.head == old(repo.head) && repo.index == old(repo.index)
    ensures repo.ignored == old(repo.ignored) && repo.log == old(repo.log)
  {
    EnsureJournal(repo);
    var entry := Entry(now.today, target, result, reason, oldCC, newCC);
    repo.work := repo.work[JOURNAL := repo.work[JOURNAL] + entry];
  }

  // ----- parsing one line ----------------------------------------------------

  const DATE_BRACKETS: set<char> := {'[', ']', ' '}

  /** `[p.strip() for p in line.split("|")]`. */
  function StrippedParts(line: string): (parts: seq<string>)
    ensures |parts| == |Split(line, '|')| >= 1
    ensures forall i :: 0 <= i < |parts| ==> parts[i] == Strip(Split(line, '|')[i])
  {
    var raw := Split(line, '|');
    seq(|raw|, i requires 0 <= i < |raw| => Strip(raw[i]))
  }

  /** `next((p for p in parts if p.startswith(prefix)), None)`. */
  function FirstWithPrefix(parts: seq<string>, prefix: string): (r: Option<string>)
    ensures r.Some? ==> r.value in parts && StartsWith(r.value, prefix)
    ensures r.None? ==> forall p :: p in parts ==> !StartsWith(p, prefix)
  {
    if parts == [] then None
    else if StartsWith(parts[0], prefix) then Some(parts[0])
    else FirstWithPrefix(parts[1..], prefix)
  }

  /** `datetime.strptime(parts[0].strip("[] "), "%Y-%m-%d")` on a stripped line. */
  function LineDate(l: string): Option<Date>
  {
    Parse(StripChars(StrippedParts(l)[0], DATE_BRACKETS))
  }

  /** Blank lines and `#` lines are skipped before anything is parsed. */
  predicate Skipped(l: string)
  {
    l == [] || l[0] == '#'
  }

  /** `target_part.split(":", 1)[1].strip()`. */
  function TargetName(tg: string): string
    requires StartsWith(tg, TARGET_KEY)
  {
    assert tg[6] == tg[..7][6] == ':';
    Strip(AfterFirst(tg, ':'))
  }

  /** The failed target named by a line's parts: its `status:` part contains `Fail` and it has a `target:` part. */
  function FailedTarget(parts: seq<string>): Option<string>
  {
    match FirstWithPrefix(parts, STATUS_KEY)
    case None => None
    case Some(st) =>
      if !Contains(st, "Fail") then None
      else
        match FirstWithPrefix(parts, TARGET_KEY)
        case None => None
        case Some(tg) => Some(TargetName(tg))
  }

  /**
   * What one line adds to `read_journal_failures`: the failed target it names, when the
   * line's date parses and is not before `cutoff`.
   */
  function FailureOf(line: string, cutoff: int): Option<string>
  {
    var l := Strip(line);
    if Skipped(l) then None
    else
      match LineDate(l)
      case None => None
      case Some(d) => if Before(d, cutoff) then None else FailedTarget(StrippedParts(l))
  }

  /** The identities one line contributes. */
  function FailureSet(line: string, cutoff: int): set<string>
  {
    match FailureOf(line, cutoff) case Some(f) => {f} case None => {}
  }

  /** `FailureSet` at a fixed cutoff, as the per-line step of the read loop. */
  function LineFailures(cutoff: int): string -> set<string>
  {
    line => FailureSet(line, cutoff)
  }

  /** The identities named as recent failures by any of `lines`. */
  function RecentFailures(lines: seq<string>, cutoff: int): set<string>
  {
    UnionOf(lines, LineFailures(cutoff))
  }

  /** The recent failures recorded in a journal, none when there is no journal. */
  function FailuresIn(journal: Option<string>, cutoff: int): set<string>
  {
    match journal
    case None => {}
    case Some(text) => RecentFailures(SplitLines(text), cutoff)
  }

  /**
   * What `read_journal_failures` returns: nothing to read without a journal; otherwise `None`
   * when `now - timedelta(days=skip_days)` raises, and the recent failures when it does not.
   */
  function FailuresRead(journal: Option<string>, now: Clock, skipDays: int): Option<set<string>>
    requires ValidClock(now)
  {
    if journal.None? then Some({})
    else if !CutoffDefined(now, skipDays) then None
    else Some(FailuresIn(journal, Cutoff(now, skipDays)))
  }

  /** `read_journal_failures` (and the identical `read_journal` of the scanner); `None` when it raises. */
  method ReadJournalFailures(journal: Option<string>, now: Clock, skipDays: int) returns (failed: Option<set<string>>)
    requires ValidClock(now)
    ensures journal.None? ==> failed == Some({})
    ensures journal.Some? && !CutoffDefined(now, skipDays) ==> failed == None
    ensures journal.Some? && CutoffDefined(now, skipDays) ==> failed == Some(FailuresIn(journal, Cutoff(now, skipDays)))
  {
    if journal.None? {
      return Some({});
    }
    if !CutoffDefined(now, skipDays) {
      return None;
    }
    var cutoff := Cutoff(now, skipDays);
    var lines := SplitLines(journal.value);
    var acc: set<string> := {};
    var i := 0;
    while i < |lines|
      invariant 0 <= i <= |lines|
      invariant acc == UnionUpTo(lines, i, LineFailures(cutoff))
    {
      UnionStep(lines, i, LineFailures(cutoff));
      acc := acc + LineFailures(cutoff)(lines[i]);
      i := i + 1;
    }
    failed := Some(acc);
  }

  // ----- read_entries ----------------------------------------------------------

  /** What one line contributes to `read_entries`: the stripped line, when its date parses and is not before `cutoff`. */
  function KeptEntry(line: string, cutoff: int): Option<string>
  {
    var l := Strip(line);
    if Skipped(l) then None
    else
      match LineDate(l)
      case None => None
      case Some(d) => if !Before(d, cutoff) then Some(l) else None
  }

  /** `KeptEntry` at a fixed cutoff, as the per-line step of the read loop. */
  function LineEntries(cutoff: int): string -> seq<string>
  {
    line => match KeptEntry(line, cutoff) case Some(e) => [e] case None => []
  }

  /** The entries `read_entries` keeps, in file order. */
  function RecentEntries(lines: seq<string>, cutoff: int): seq<string>
  {
    ConcatOf(lines, LineEntries(cutoff))
  }

  const SUCCESS_MARK := "status: Success"
  const FAIL_MARK := "status: Fail"

  /** `sum(1 for e in entries if needle in e)`. */
  function CountContaining(entries: seq<string>, needle: string): (c: nat)
    ensures c <= |entries|
  {
    CountOf(entries, Containing(needle))
  }

  function Containing(needle: string): string -> bool
  {
    e => Contains(e, needle)
  }

  /**
   * What `read_entries` reports: no journal, the `OverflowError` of a look-back that leaves the
   * calendar, or the recent entries with their success and failure counts.
   */
  datatype EntriesReport = NoJournal | ReadRaised | Recent(entries: seq<string>, successes: nat, fails: nat)

  /** `read_entries`: reads only, and does not create a missing journal. */
  method ReadEntries(journal: Option<string>, now: Clock, days: int) returns (report: EntriesReport)
    requires ValidClock(now)
    ensures journal.None? <==> report == NoJournal
    ensures report == ReadRaised <==> journal.Some? && !CutoffDefined(now, days)
    ensures journal.Some? && CutoffDefined(now, days) ==>
      var kept := RecentEntries(SplitLines(journal.value), Cutoff(now, days));
      report == Recent(kept, CountContaining(kept, SUCCESS_MARK), CountContaining(kept, FAIL_MARK))
  {
    if journal.None? {
      return NoJournal;
    }
    if !CutoffDefined(now, days) {
      return ReadRaised;
    }
    var cutoff := Cutoff(now, days);
    var lines := SplitLines(journal.value);
    var entries: seq<string> := [];
    var i := 0;
    while i < |lines|
      invariant 0 <= i <= |lines|
      invariant entries == ConcatUpTo(lines, i, LineEntries(cutoff))
    {
      ConcatStep(lines, i, LineEntries(cutoff));
      entries := entries + LineEntries(cutoff)(lines[i]);
      i := i + 1;
    }
    report := Recent(entries, CountContaining(entries, SUCCESS_MARK), CountContaining(entries, FAIL_MARK));
  }
}

module JournalLaws {
  import opened Wrappers
  import opened Text
  import opened Dates
  import opened Journal
  import opened Seqs

  // ----- one entry, read back --------------------------------------------------

  /** A failure's `cc` field repeats the old complexity, whatever new complexity was passed. */
  lemma FailureCcRepeatsOld(oldCC: int, newCC: int)
    ensures CcField(Fail, oldCC, newCC) == CcField(Success, oldCC, oldCC)
  {
  }


  lemma DateFieldReads(date: Date)
    requires Valid(date)
    ensures Strip(DateField(date)) != [] && Strip(DateField(date))[0] == '['
    ensures Parse(StripChars(Strip(DateField(date)), DATE_BRACKETS)) == Some(date)
  {
    var ds := Format(date);
    var core := "[" + ds + "]";
    StripPadded("", core, " ");
    assert "" + core + " " == DateField(date);
    StripSolid(core);
    StripCharsBracketed('[', ds, ']', DATE_BRACKETS);
    assert ['['] + ds + [']'] == core;
    ParseFormat(date);
  }

  lemma TargetFieldUnpadded(target: string)
    ensures Strip(TargetField(target)) == Strip(TARGET_KEY + " " + target)
  {
    StripPadded(" ", TARGET_KEY + " " + target, " ");
    assert " " + (TARGET_KEY + " " + target) + " " == TargetField(target);
  }

  lemma TargetKeyStrips(target: string)
    ensures Strip(TARGET_KEY + " " + target) == TARGET_KEY + RStrip(" " + target)
  {
    StripAfterSolidPrefix(TARGET_KEY, " " + target);
    assert TARGET_KEY + (" " + target) == TARGET_KEY + " " + target;
  }

  lemma TargetFieldStrips(target: string)
    ensures Strip(TargetField(target)) == TARGET_KEY + RStrip(" " + target)
  {
    TargetFieldUnpadded(target);
    TargetKeyStrips(target);
  }

  lemma TargetNameAfterKey(t: string)
    ensures StartsWith(TARGET_KEY + t, TARGET_KEY)
    ensures !StartsWith(TARGET_KEY + t, STATUS_KEY)
    ensures TargetName(TARGET_KEY + t) == Strip(t)
  {
    var tg := TARGET_KEY + t;
    assert tg[..7] == TARGET_KEY;
    assert tg[0] == 't';
    assert tg[6] == ':';
    assert Find(tg, ':') == 6;
    assert AfterFirst(tg, ':') == t;
  }

  lemma TargetFieldReads(target: string)
    ensures StartsWith(Strip(TargetField(target)), TARGET_KEY)
    ensures !StartsWith(Strip(TargetField(target)), STATUS_KEY)
    ensures TargetName(Strip(TargetField(target))) == Strip(target)
  {
    TargetFieldStrips(target);
    TargetNameAfterKey(RStrip(" " + target));
    StripOfRStrip(" " + target);
    StripPadded(" ", target, "");
    assert " " + target + "" == " " + target;
  }

  lemma StatusFieldStrips(result: Outcome)
    ensures Strip(StatusField(result)) == Mark(result)
  {
    StripPadded(" ", Mark(result), " ");
    StripSolid(Mark(result));
  }

  lemma StatusTextReads(result: Outcome)
    ensures StartsWith(Mark(result), STATUS_KEY)
    ensures Contains(Mark(result), "Fail") <==> result == Fail
  {
    var st := Mark(result);
    assert st[..|STATUS_KEY|] == STATUS_KEY;
    if result == Fail {
      assert st == (STATUS_KEY + " ") + "Fail" + "";
      ContainsInside(STATUS_KEY + " ", "Fail", "");
    } else {
      forall i | 0 <= i <= |st| ensures !OccursAt(st, "Fail", i) {
        if i + 4 <= |st| {
          assert st[i..i + 4][0] == st[i] != 'F';
        }
      }
    }
  }

  lemma StatusFieldReads(result: Outcome)
    ensures StartsWith(Strip(StatusField(result)), STATUS_KEY)
    ensures Contains(Strip(StatusField(result)), "Fail") <==> result == Fail
  {
    StatusFieldStrips(result);
    StatusTextReads(result);
  }

  lemma {:induction false} FirstWithPrefixAt(parts: seq<string>, prefix: string, k: nat)
    requires k < |parts| && StartsWith(parts[k], prefix)
    requires forall j | 0 <= j < k :: !StartsWith(parts[j], prefix)
    ensures FirstWithPrefix(parts, prefix) == Some(parts[k])
  {
    if k > 0 {
      assert !StartsWith(parts[0], prefix);
      FirstWithPrefixAt(parts[1..], prefix, k - 1);
    }
  }

  function EntryFields(date: Date, target: string, result: Outcome, oldCC: int, newCC: int): seq<string>
    requires Valid(date)
  {
    [DateField(date), TargetField(target), StatusField(result), CcText(result, oldCC, newCC)]
  }

  lemma EntryHeadSolid(date: Date, target: string, result: Outcome, oldCC: int, newCC: int)
    requires Valid(date)
    ensures var head := EntryHead(date, target, result, oldCC, newCC);
      head != [] && head[0] == '[' && head[|head| - 1] == '|'
  {
    var fields := EntryFields(date, target, result, oldCC, newCC);
    assert EntryHead(date, target, result, oldCC, newCC) == DateField(date) + "|" + Terminated(fields[1..], '|');
    TerminatedEnds(fields, '|');
  }

  lemma StripEntryLine(date: Date, target: string, result: Outcome, oldCC: int, newCC: int, w: string)
    requires Valid(date)
    ensures Strip(EntryHead(date, target, result, oldCC, newCC) + " reason: " + w)
      == EntryHead(date, target, result, oldCC, newCC) + RStrip(" reason: " + w)
  {
    var head := EntryHead(date, target, result, oldCC, newCC);
    EntryHeadSolid(date, target, result, oldCC, newCC);
    assert head + " reason: " + w == head + (" reason: " + w);
    StripAfterSolidPrefix(head, " reason: " + w);
  }

  lemma SplitEntryHead(date: Date, target: string, result: Outcome, oldCC: int, newCC: int, t: string)
    requires Valid(date) && '|' !in target
    ensures Split(EntryHead(date, target, result, oldCC, newCC) + t, '|') == EntryFields(date, target, result, oldCC, newCC) + Split(t, '|')
  {
    EntryFieldsFreeOfBar(date, target, result, oldCC, newCC);
    SplitTerminated(EntryFields(date, target, result, oldCC, newCC), '|', t);
  }

  /** No field of an entry holds a `|` of its own when the target has none. */
  lemma EntryFieldsFreeOfBar(date: Date, target: string, result: Outcome, oldCC: int, newCC: int)
    requires Valid(date) && '|' !in target
    ensures forall f :: f in EntryFields(date, target, result, oldCC, newCC) ==> '|' !in f
  {
    NumeralFreeOfBar(Format(date));
    NumeralFreeOfBar(IntToString(oldCC));
    NumeralFreeOfBar(IntToString(if result == Success then newCC else oldCC));
    assert '|' !in DateField(date);
    assert '|' !in TargetField(target);
    assert '|' !in OutcomeText(result);
    assert '|' !in StatusField(result);
    assert '|' !in CcText(result, oldCC, newCC);
  }

  /** Digits and dashes leave no room for a `|`. */
  lemma NumeralFreeOfBar(s: string)
    requires forall i :: 0 <= i < |s| ==> IsDigit(s[i]) || s[i] == '-'
    ensures '|' !in s
  {
  }

  /** A written line, stripped and cut at `|`, starts with the stripped date, target and status fields. */
  lemma EntryLineParts(date: Date, target: string, result: Outcome, oldCC: int, newCC: int, w: string)
    requires Valid(date) && '|' !in target
    ensures var l := Strip(EntryHead(date, target, result, oldCC, newCC) + " reason: " + w);
      l != [] && l[0] == '[' &&
      var parts := StrippedParts(l);
      |parts| >= 3 && parts[0] == Strip(DateField(date)) && parts[1] == Strip(TargetField(target))
      && parts[2] == Strip(StatusField(result))
  {
    EntryHeadSolid(date, target, result, oldCC, newCC);
    StripEntryLine(date, target, result, oldCC, newCC, w);
    SplitEntryHead(date, target, result, oldCC, newCC, RStrip(" reason: " + w));
  }

  /** Parts `[date], target: …, status: …` name the target when the status contains `Fail`. */
  lemma FailedTargetOfParts(parts: seq<string>)
    requires |parts| >= 3 && parts[0] != [] && parts[0][0] == '['
    requires StartsWith(parts[1], TARGET_KEY) && !StartsWith(parts[1], STATUS_KEY) && StartsWith(parts[2], STATUS_KEY)
    ensures FailedTarget(parts) == if Contains(parts[2], "Fail") then Some(TargetName(parts[1])) else None
  {
    assert !StartsWith(parts[0], STATUS_KEY) && !StartsWith(parts[0], TARGET_KEY);
    FirstWithPrefixAt(parts, TARGET_KEY, 1);
    FirstWithPrefixAt(parts, STATUS_KEY, 2);
  }

  /**
   * The line `[D] | target: T | status: R | cc: X | reason: W` names `T.strip()` as a recent failure
   * exactly when R is `Fail` and D is not before the cutoff, whatever W holds.
   */
  lemma EntryLineFailure(date: Date, target: string, result: Outcome, w: string, oldCC: int, newCC: int, cutoff: int)
    requires Valid(date) && '|' !in target
    ensures FailureOf(EntryHead(date, target, result, oldCC, newCC) + " reason: " + w, cutoff)
      == if result == Fail && !Before(date, cutoff) then Some(Strip(target)) else None
  {
    EntryLineParts(date, target, result, oldCC, newCC, w);
    var l := Strip(EntryHead(date, target, result, oldCC, newCC) + " reason: " + w);
    var parts := StrippedParts(l);
    DateFieldReads(date);
    assert LineDate(l) == Some(date);
    assert parts[0][0] == '[';
    TargetFieldReads(target);
    StatusFieldReads(result);
    FailedTargetOfParts(parts);
    FailureOfDatedLine(EntryHead(date, target, result, oldCC, newCC) + " reason: " + w, cutoff, date);
  }

  /** A line that is not skipped and carries a date names its failed target unless the date is before the cutoff. */
  lemma FailureOfDatedLine(line: string, cutoff: int, date: Date)
    requires !Skipped(Strip(line)) && LineDate(Strip(line)) == Some(date)
    ensures FailureOf(line, cutoff) == if Before(date, cutoff) then None else FailedTarget(StrippedParts(Strip(line)))
  {
  }

  // ----- the whole file ---------------------------------------------------------

  /** Reading is line by line: the failures of two blocks of lines are the failures of each. */
  lemma RecentFailuresAppend(a: seq<string>, b: seq<string>, cutoff: int)
    ensures RecentFailures(a + b, cutoff) == RecentFailures(a, cutoff) + RecentFailures(b, cutoff)
  {
    UnionOfAppend(a, b, LineFailures(cutoff));
  }

  /** Every failure a line names is among the recent failures of any text holding that line. */
  lemma FailureOfLineIsRecent(lines: seq<string>, k: nat, cutoff: int)
    requires k < |lines| && FailureOf(lines[k], cutoff).Some?
    ensures FailureOf(lines[k], cutoff).value in RecentFailures(lines, cutoff)
  {
    UnionMember(lines, |lines|, k, LineFailures(cutoff));
    assert LineFailures(cutoff)(lines[k]) == {FailureOf(lines[k], cutoff).value};
  }

  lemma TitleNoLineBreak()
    ensures NoLineBreak("# Gardener Journal")
  {
  }

  /** The header `ensure_journal` writes is a title line and a blank line. */
  lemma HeaderLines()
    ensures SplitLines(HEADER) == ["# Gardener Journal", ""]
  {
    var title := "# Gardener Journal";
    assert HEADER == (title + "\n") + ("" + "\n");
    SplitLinesAppend(title + "\n", "" + "\n");
    TitleNoLineBreak();
    SplitLinesOneLine(title);
    SplitLinesOneLine("");
  }

  /** A `#` line is a heading and names nothing. */
  lemma HeadingNamesNothing(line: string, cutoff: int)
    requires line != [] && line[0] == '#' && !IsSpace(line[|line| - 1])
    ensures FailureSet(line, cutoff) == {}
  {
    StripSolid(line);
  }

  /** The header `ensure_journal` writes names no failure. */
  lemma HeaderHasNoFailures(cutoff: int)
    ensures RecentFailures(SplitLines(HEADER), cutoff) == {}
  {
    HeaderLines();
    HeadingNamesNothing("# Gardener Journal", cutoff);
    assert FailureSet("", cutoff) == {};
    UnionOfPair("# Gardener Journal", "", LineFailures(cutoff));
  }

  /** A text ends with a complete line: appending to it starts a new line. */
  predicate EndsWithCompleteLine(text: string)
  {
    text == [] || IsLineBreak(text[|text| - 1])
  }

  lemma DateFieldNoLineBreak(date: Date)
    requires Valid(date)
    ensures NoLineBreak(DateField(date))
  {
    assert NoLineBreak(Format(date));
    NoLineBreakConcat("[", Format(date));
    NoLineBreakConcat("[" + Format(date), "] ");
  }

  lemma TargetFieldNoLineBreak(target: string)
    requires NoLineBreak(target)
    ensures NoLineBreak(TargetField(target))
  {
    NoLineBreakConcat(" " + TARGET_KEY + " ", target);
    NoLineBreakConcat(" " + TARGET_KEY + " " + target, " ");
  }

  lemma StatusFieldNoLineBreak(result: Outcome)
    ensures NoLineBreak(StatusField(result))
  {
    assert NoLineBreak(STATUS_KEY + " ");
    assert NoLineBreak(OutcomeText(result));
    NoLineBreakConcat(STATUS_KEY + " ", OutcomeText(result));
    NoLineBreakConcat(" ", Mark(result));
    NoLineBreakConcat(" " + Mark(result), " ");
  }

  lemma CcTextNoLineBreak(result: Outcome, oldCC: int, newCC: int)
    ensures NoLineBreak(CcText(result, oldCC, newCC))
  {
    var n := if result == Success then newCC else oldCC;
    assert NoLineBreak(IntToString(oldCC)) && NoLineBreak(IntToString(n));
    NoLineBreakConcat(IntToString(oldCC), "->");
    NoLineBreakConcat(IntToString(oldCC) + "->", IntToString(n));
    NoLineBreakConcat(" cc: ", CcField(result, oldCC, newCC));
    NoLineBreakConcat(" cc: " + CcField(result, oldCC, newCC), " ");
  }

  lemma EntryHeadNoLineBreak(date: Date, target: string, result: Outcome, oldCC: int, newCC: int)
    requires Valid(date) && NoLineBreak(target)
    ensures NoLineBreak(EntryHead(date, target, result, oldCC, newCC) + " reason: ")
  {
    HeadNoLineBreak(date, target, result, oldCC, newCC);
    assert NoLineBreak(" reason: ");
    NoLineBreakConcat(EntryHead(date, target, result, oldCC, newCC), " reason: ");
  }

  lemma HeadNoLineBreak(date: Date, target: string, result: Outcome, oldCC: int, newCC: int)
    requires Valid(date) && NoLineBreak(target)
    ensures NoLineBreak(EntryHead(date, target, result, oldCC, newCC))
  {
    var fields := EntryFields(date, target, result, oldCC, newCC);
    DateFieldNoLineBreak(date);
    TargetFieldNoLineBreak(target);
    StatusFieldNoLineBreak(result);
    CcTextNoLineBreak(result, oldCC, newCC);
    TerminatedNoLineBreak(fields, '|');
  }

  lemma {:induction false} TerminatedNoLineBreak(fields: seq<string>, sep: char)
    requires !IsLineBreak(sep) && forall f :: f in fields ==> NoLineBreak(f)
    ensures NoLineBreak(Terminated(fields, sep))
  {
    if fields != [] {
      assert fields[0] in fields;
      TerminatedNoLineBreak(fields[1..], sep);
    }
  }

  /** The lines of the journal after `write_entry`: the old lines, then the entry's first line (and any further lines of its reason). */
  lemma AppendedLines(work: map<string, string>, entry: string)
    requires JOURNAL in work ==> EndsWithCompleteLine(work[JOURNAL])
    requires entry != [] && entry[0] == '['
    ensures SplitLines(Appended(work, entry)[JOURNAL]) == SplitLines(Ensured(work)[JOURNAL]) + SplitLines(entry)
  {
    var text := Ensured(work)[JOURNAL];
    assert EndsWithBreak(text, entry);
    SplitLinesAppend(text, entry);
  }

  /**
   * Round trip: after `write_entry` of a `Fail` for `target`, reading the journal with a cutoff
   * the entry's date is not before names `target.strip()`, whatever the reason says.
   */
  lemma WrittenFailureIsRead(work: map<string, string>, now: Clock, target: string, reason: string,
                             oldCC: int, newCC: int, cutoff: int)
    requires ValidClock(now) && '|' !in target && NoLineBreak(target)
    requires JOURNAL in work ==> EndsWithCompleteLine(work[JOURNAL])
    requires !Before(now.today, cutoff)
    ensures Strip(target) in FailuresIn(JournalText(Appended(work, Entry(now.today, target, Fail, reason, oldCC, newCC))), cutoff)
  {
    var head := EntryHead(now.today, target, Fail, oldCC, newCC) + " reason: ";
    var entry := Entry(now.today, target, Fail, reason, oldCC, newCC);
    assert entry == head + (reason + "\n");
    EntryHeadSolid(now.today, target, Fail, oldCC, newCC);
    AppendedLines(work, entry);
    EntryHeadNoLineBreak(now.today, target, Fail, oldCC, newCC);
    FirstLineStartsWith(head, reason + "\n");
    var w := (reason + "\n")[..LineEnd(reason + "\n")];
    EntryLineFailure(now.today, target, Fail, w, oldCC, newCC, cutoff);
    assert head + w == EntryHead(now.today, target, Fail, oldCC, newCC) + " reason: " + w;
    var lines := SplitLines(Appended(work, entry)[JOURNAL]);
    var before := SplitLines(Ensured(work)[JOURNAL]);
    assert lines[|before|] == head + w;
    FailureOfLineIsRecent(lines, |before|, cutoff);
  }

  /** An entry whose target and reason hold no line break is exactly one line of the journal. */
  lemma EntryIsOneLine(date: Date, target: string, result: Outcome, reason: string, oldCC: int, newCC: int)
    requires Valid(date) && NoLineBreak(target) && NoLineBreak(reason)
    ensures SplitLines(Entry(date, target, result, reason, oldCC, newCC))
      == [EntryHead(date, target, result, oldCC, newCC) + " reason: " + reason]
  {
    var head := EntryHead(date, target, result, oldCC, newCC) + " reason: ";
    EntryHeadNoLineBreak(date, target, result, oldCC, newCC);
    NoLineBreakConcat(head, reason);
    SplitLinesOneLine(head + reason);
  }

  /** The failures a journal names before `ensure_journal` are those it names after. */
  lemma EnsuredFailures(work: map<string, string>, cutoff: int)
    ensures RecentFailures(SplitLines(Ensured(work)[JOURNAL]), cutoff) == FailuresIn(JournalText(work), cutoff)
  {
    if JOURNAL !in work {
      HeaderHasNoFailures(cutoff);
    }
  }

  /**
   * What `write_entry` changes for `read_journal_failures`: a one-line entry adds `target.strip()`
   * exactly when it records a `Fail` dated no earlier than the cutoff; a `Success` or a stale entry
   * adds nothing, and every failure read before is still read after.
   */
  lemma EntryFailures(work: map<string, string>, date: Date, target: string, result: Outcome, reason: string,
                      oldCC: int, newCC: int, cutoff: int)
    requires Valid(date) && '|' !in target && NoLineBreak(target) && NoLineBreak(reason)
    requires JOURNAL in work ==> EndsWithCompleteLine(work[JOURNAL])
    ensures FailuresIn(JournalText(Appended(work, Entry(date, target, result, reason, oldCC, newCC))), cutoff)
      == FailuresIn(JournalText(work), cutoff) + (if result == Fail && !Before(date, cutoff) then {Strip(target)} else {})
  {
    var entry := Entry(date, target, result, reason, oldCC, newCC);
    var line := EntryHead(date, target, result, oldCC, newCC) + " reason: " + reason;
    EntryHeadSolid(date, target, result, oldCC, newCC);
    AppendedLines(work, entry);
    EntryIsOneLine(date, target, result, reason, oldCC, newCC);
    var before := SplitLines(Ensured(work)[JOURNAL]);
    RecentFailuresAppend(before, [line], cutoff);
    UnionOfSingle(line, LineFailures(cutoff));
    EntryLineFailure(date, target, result, reason, oldCC, newCC, cutoff);
    EnsuredFailures(work, cutoff);
  }

  /**
   * The round trip as the gardener uses it: a `Fail` written now is among the failures read
   * with the same clock and a window of at least one day.
   */
  lemma FailureWrittenNowIsSkipped(work: map<string, string>, now: Clock, target: string, reason: string,
                                   oldCC: int, newCC: int, skipDays: int)
    requires ValidClock(now) && '|' !in target && NoLineBreak(target) && skipDays >= 1
    requires JOURNAL in work ==> EndsWithCompleteLine(work[JOURNAL])
    ensures Strip(target) in FailuresIn(JournalText(Appended(work, Entry(now.today, target, Fail, reason, oldCC, newCC))),
                                        Cutoff(now, skipDays))
    ensures var read := FailuresRead(JournalText(Appended(work, Entry(now.today, target, Fail, reason, oldCC, newCC))),
                                     now, skipDays);
      (read.Some? <==> CutoffDefined(now, skipDays)) && (read.Some? ==> Strip(target) in read.value)
  {
    WindowBoundary(now.today, now, skipDays);
    WrittenFailureIsRead(work, now, target, reason, oldCC, newCC, Cutoff(now, skipDays));
  }

  // ----- read_entries after write_entry -------------------------------------------

  /** The entries `read_entries` would list for a journal, none when there is no journal. */
  function EntriesIn(journal: Option<string>, cutoff: int): seq<string>
  {
    match journal
    case None => []
    case Some(text) => RecentEntries(SplitLines(text), cutoff)
  }

  /** The date part of a written line is its first `|`-separated part, whatever the target holds. */
  lemma EntryDatePart(date: Date, target: string, result: Outcome, oldCC: int, newCC: int, t: string)
    requires Valid(date)
    ensures StrippedParts(EntryHead(date, target, result, oldCC, newCC) + t)[0] == Strip(DateField(date))
  {
    var fields := EntryFields(date, target, result, oldCC, newCC);
    assert EntryHead(date, target, result, oldCC, newCC) + t
      == Terminated([DateField(date)], '|') + (Terminated(fields[1..], '|') + t);
    assert '|' !in Format(date);
    SplitTerminated([DateField(date)], '|', Terminated(fields[1..], '|') + t);
  }

  /** A written line is kept by `read_entries`, stripped, exactly when its date is not before the cutoff. */
  lemma EntryLineKept(date: Date, target: string, result: Outcome, w: string, oldCC: int, newCC: int, cutoff: int)
    requires Valid(date)
    ensures var line := EntryHead(date, target, result, oldCC, newCC) + " reason: " + w;
      KeptEntry(line, cutoff) == if Before(date, cutoff) then None else Some(Strip(line))
  {
    var head := EntryHead(date, target, result, oldCC, newCC);
    StripEntryLine(date, target, result, oldCC, newCC, w);
    EntryHeadSolid(date, target, result, oldCC, newCC);
    EntryDatePart(date, target, result, oldCC, newCC, RStrip(" reason: " + w));
    DateFieldReads(date);
    assert LineDate(Strip(head + " reason: " + w)) == Some(date);
  }

  /** The header `ensure_journal` writes lists no entry. */
  lemma HeaderHasNoEntries(cutoff: int)
    ensures RecentEntries(SplitLines(HEADER), cutoff) == []
  {
    HeaderLines();
    var title := "# Gardener Journal";
    StripSolid(title);
    assert KeptEntry(title, cutoff) == None;
    assert KeptEntry("", cutoff) == None;
    ConcatOfPair(title, "", LineEntries(cutoff));
  }

  /**
   * What `write_entry` changes for `read_entries`: a one-line entry is listed last, stripped,
   * exactly when its date is not before the cutoff, and every entry listed before is still listed.
   */
  lemma EntryListed(work: map<string, string>, date: Date, target: string, result: Outcome, reason: string,
                    oldCC: int, newCC: int, cutoff: int)
    requires Valid(date) && NoLineBreak(target) && NoLineBreak(reason)
    requires JOURNAL in work ==> EndsWithCompleteLine(work[JOURNAL])
    ensures var line := EntryHead(date, target, result, oldCC, newCC) + " reason: " + reason;
      EntriesIn(JournalText(Appended(work, Entry(date, target, result, reason, oldCC, newCC))), cutoff)
      == EntriesIn(JournalText(work), cutoff) + (if Before(date, cutoff) then [] else [Strip(line)])
  {
    var entry := Entry(date, target, result, reason, oldCC, newCC);
    var line := EntryHead(date, target, result, oldCC, newCC) + " reason: " + reason;
    EntryHeadSolid(date, target, result, oldCC, newCC);
    AppendedLines(work, entry);
    EntryIsOneLine(date, target, result, reason, oldCC, newCC);
    var before := SplitLines(Ensured(work)[JOURNAL]);
    ConcatOfSnoc(before, line, LineEntries(cutoff));
    EntryLineKept(date, target, result, reason, oldCC, newCC, cutoff);
    if JOURNAL !in work {
      HeaderHasNoEntries(cutoff);
    }
  }

  lemma EntryHeadAroundStatus(date: Date, target: string, result: Outcome, oldCC: int, newCC: int)
    requires Valid(date)
    ensures EntryHead(date, target, result, oldCC, newCC)
      == (DateField(date) + "|" + TargetField(target) + "|") + StatusField(result) + ("|" + CcText(result, oldCC, newCC) + "|")
  {
    TerminatedFour(DateField(date), TargetField(target), StatusField(result), CcText(result, oldCC, newCC), '|');
  }

  /** The entry is the documented one-line layout `[date] | target: F | status: R | cc: X | reason: W`. */
  lemma EntryLayout(date: Date, target: string, result: Outcome, reason: string, oldCC: int, newCC: int)
    requires Valid(date)
    ensures Entry(date, target, result, reason, oldCC, newCC) ==
      ("[" + Format(date) + "] | target: " + target + " |") + (" status: " + OutcomeText(result) + " ")
        + ("| cc: " + CcField(result, oldCC, newCC) + " |") + " reason: " + reason + "\n"
  {
    EntryHeadAroundStatus(date, target, result, oldCC, newCC);
    DateTargetLayout(date, target);
    StatusLayout(result);
    CcLayout(result, oldCC, newCC);
    Regroup(EntryHead(date, target, result, oldCC, newCC),
      DateField(date) + "|" + TargetField(target) + "|", StatusField(result), "|" + CcText(result, oldCC, newCC) + "|",
      "[" + Format(date) + "] | target: " + target + " |", " status: " + OutcomeText(result) + " ",
      "| cc: " + CcField(result, oldCC, newCC) + " |", reason);
  }

  /** Replacing the three parts of an entry's head by equal texts leaves the entry equal. */
  lemma Regroup(head: string, x: string, y: string, z: string, x': string, y': string, z': string, reason: string)
    requires head == x + y + z && x == x' && y == y' && z == z'
    ensures head + " reason: " + reason + "\n" == x' + y' + z' + " reason: " + reason + "\n"
  {
  }

  lemma StatusLayout(result: Outcome)
    ensures StatusField(result) == " status: " + OutcomeText(result) + " "
  {
  }

  lemma DateTargetLayout(date: Date, target: string)
    requires Valid(date)
    ensures DateField(date) + "|" + TargetField(target) + "|" == "[" + Format(date) + "] | target: " + target + " |"
  {
  }

  lemma CcLayout(result: Outcome, oldCC: int, newCC: int)
    ensures "|" + CcText(result, oldCC, newCC) + "|" == "| cc: " + CcField(result, oldCC, newCC) + " |"
  {
  }

  /** Every written line, and anything after its head, holds the status mark of its outcome. */
  lemma EntryHeadMarked(date: Date, target: string, result: Outcome, oldCC: int, newCC: int, t: string)
    requires Valid(date)
    ensures Contains(EntryHead(date, target, result, oldCC, newCC) + t, Mark(result))
  {
    EntryHeadAroundStatus(date, target, result, oldCC, newCC);
    ContainsPadded(DateField(date) + "|" + TargetField(target) + "|", Mark(result), "|" + CcText(result, oldCC, newCC) + "|", t);
  }

  /** A listed entry adds one to the count of its own outcome. */
  lemma EntryCounted(kept: seq<string>, date: Date, target: string, result: Outcome, w: string, oldCC: int, newCC: int)
    requires Valid(date)
    ensures var line := EntryHead(date, target, result, oldCC, newCC) + " reason: " + w;
      CountContaining(kept + [Strip(line)], Mark(result)) == CountContaining(kept, Mark(result)) + 1
  {
    StripEntryLine(date, target, result, oldCC, newCC, w);
    EntryHeadMarked(date, target, result, oldCC, newCC, RStrip(" reason: " + w));
    CountOfSnoc(kept, Strip(EntryHead(date, target, result, oldCC, newCC) + " reason: " + w), Containing(Mark(result)));
  }
}
