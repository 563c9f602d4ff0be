/**
 * How the Gardener's scripts fit together: the scanner and the gate each pick the language on
 * their own, and a failure written to the journal keeps the scanner off that target for the
 * skip window.
 */
module Gardener {
  import opened Wrappers
  import opened Text
  import opened Seqs
  import opened Dates
  import opened Analyzers
  import Journal
  import JournalLaws
  import Scanner
  import Gate

  /** With `Cargo.toml` present the scanner and the gate both work on Rust. */
  lemma DetectionAgreesWithCargo(present: set<string>, rsCount: nat, pyCount: nat)
    requires CARGO_TOML in present
    ensures Scanner.DetectLanguage(present, rsCount, pyCount) == Gate.DetectLanguage(present) == Rust
  {
  }

  /**
   * The two detections disagree exactly when there is no manifest at all and the scanner counts
   * more `.rs` files than `.py` files: the scanner then picks Rust while the gate stays on Python.
   */
  lemma DetectionCanDisagree(present: set<string>, rsCount: nat, pyCount: nat)
    ensures Scanner.DetectLanguage(present, rsCount, pyCount) != Gate.DetectLanguage(present) <==>
      CARGO_TOML !in present && (forall m | m in Scanner.PYTHON_MANIFESTS :: m !in present) && rsCount > pyCount
    ensures Scanner.DetectLanguage(present, rsCount, pyCount) != Gate.DetectLanguage(present) ==>
      Scanner.DetectLanguage(present, rsCount, pyCount) == Rust && Gate.DetectLanguage(present) == Python
  {
  }

  /**
   * A `Fail` entry written today for a target keeps every candidate it names, by qualified
   * name or by `file::name`, out of the next report made within the skip window. The scanner
   * raises instead when the look-back leaves the calendar.
   */
  lemma FailedTargetIsNotReselected(work: map<string, string>, now: Clock, target: string, reason: string,
                                     oldCC: int, newCC: int, skipDays: int, lang: Lang,
                                     candidates: seq<Scanner.Candidate>, topN: int)
    requires ValidClock(now) && '|' !in target && NoLineBreak(target) && skipDays >= 1
    requires Journal.JOURNAL in work ==> JournalLaws.EndsWithCompleteLine(work[Journal.JOURNAL])
    ensures var written := Journal.Appended(work, Journal.Entry(now.today, target, Journal.Fail, reason, oldCC, newCC));
      var out := Scanner.Summary(lang, Some(candidates), Journal.FailuresRead(Journal.JournalText(written), now, skipDays), topN);
      (out.ScanRaised? <==> candidates != [] && !CutoffDefined(now, skipDays))
      && (out.Report? ==>
            forall c | c in out.targets ::
              Scanner.QName(c) != Strip(target) && c.file + "::" + Scanner.QName(c) != Strip(target))
  {
    var written := Journal.Appended(work, Journal.Entry(now.today, target, Journal.Fail, reason, oldCC, newCC));
    var read := Journal.FailuresRead(Journal.JournalText(written), now, skipDays);
    JournalLaws.FailureWrittenNowIsSkipped(work, now, target, reason, oldCC, newCC, skipDays);
    if read.Some? {
      Scanner.SelectionLaws(candidates, read.value, topN);
    }
  }
}
