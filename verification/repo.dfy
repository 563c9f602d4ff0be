/**
 * The target repository as the gate sees it through git: the tree of the last commit
 * (`head`), the staging area (`index`), every file on disk (`work`), the paths git's
 * ignore rules match, and the commit log. `revert_all` and `commit_change` are its two
 * transitions.
 */
module Repo {
  import opened Text

  /**
   * The working tree after `git checkout .` (every tracked path back to its staged content,
   * deleted ones restored) and `git clean -fd` (untracked paths removed unless ignored).
   */
  function Reverted(index: map<string, string>, work: map<string, string>, ignored: set<string>): map<string, string>
  {
    map p | p in index.Keys + (work.Keys * ignored) :: if p in index then index[p] else work[p]
  }

  /** The staging area after `git add file`: the on-disk content, or the removal of a deleted tracked file. */
  function Staged(index: map<string, string>, work: map<string, string>, ignored: set<string>, file: string): map<string, string>
  {
    if file in work && (file in index || file !in ignored) then index[file := work[file]]
    else if file !in work && file in index then index - {file}
    else index
  }

  /** `f"refactor: reduce complexity of {function_name} ({old_cc} → {new_cc})"`. */
  function CommitMessage(target: string, oldCC: int, newCC: int): string
  {
    "refactor: reduce complexity of " + target + " (" + IntToString(oldCC) + " \U{2192} " + IntToString(newCC) + ")"
  }

  class Repository {
    var head: map<string, string>
    var index: map<string, string>
    var work: map<string, string>
    var ignored: set<string>
    var log: seq<string>

    constructor (head: map<string, string>, index: map<string, string>, work: map<string, string>, ignored: set<string>)
      ensures this.head == head && this.index == index && this.work == work && this.ignored == ignored && log == []
    {
      this.head, this.index, this.work, this.ignored, this.log := head, index, work, ignored, [];
    }

    /** `revert_all`: discard every uncommitted change in the working tree. */
    method RevertAll()
      modifies this
      ensures work == Reverted(old(index), old(work), old(ignored))
      ensures head == old(head) && index == old(index) && ignored == old(ignored) && log == old(log)
    {
      work := Reverted(index, work, ignored);
    }

    /** `commit_change`: `git add file` then `git commit`, which records nothing when the index equals HEAD. */
    method CommitChange(file: string, target: string, oldCC: int, newCC: int)
      modifies this
      ensures index == Staged(old(index), old(work), old(ignored), file)
      ensures index != old(head) ==> head == index && log == old(log) + [CommitMessage(target, oldCC, newCC)]
      ensures index == old(head) ==> head == old(head) && log == old(log)
      ensures work == old(work) && ignored == old(ignored)
    {
      index := Staged(index, work, ignored, file);
      if index != head {
        head := index;
        log := log + [CommitMessage(target, oldCC, newCC)];
      }
    }
  }

  /** Reverting twice is the same as reverting once. */
  lemma RevertIdempotent(index: map<string, string>, work: map<string, string>, ignored: set<string>)
    ensures Reverted(index, Reverted(index, work, ignored), ignored) == Reverted(index, work, ignored)
  {
  }

  /**
   * With nothing staged beyond HEAD, a revert puts back exactly the committed tree on every
   * path git does not ignore.
   */
  lemma RevertRestoresHead(head: map<string, string>, work: map<string, string>, ignored: set<string>, p: string)
    requires p !in ignored
    ensures p in Reverted(head, work, ignored) <==> p in head
    ensures p in head ==> Reverted(head, work, ignored)[p] == head[p]
  {
  }

  /**
   * With nothing staged beyond HEAD, the commit changes the committed tree at `file` only,
   * to the file's on-disk content (or its removal).
   */
  /**
   * `git commit` records the whole index, not just `file`: a change staged earlier at another
   * path is committed too, even when `file` itself brings nothing new.
   */
  lemma CommitRecordsStaged(head: map<string, string>, index: map<string, string>, work: map<string, string>,
                            ignored: set<string>, file: string, p: string)
    requires p != file && p in index && (p !in head || head[p] != index[p])
    ensures var s := Staged(index, work, ignored, file);
      s != head && p in s && s[p] == index[p]
  {
  }

  lemma CommitTouchesOnlyFile(head: map<string, string>, work: map<string, string>, ignored: set<string>, file: string, p: string)
    ensures var s := Staged(head, work, ignored, file);
      && (p != file ==> (p in s <==> p in head) && (p in head ==> s[p] == head[p]))
      && (file in work && (file in head || file !in ignored) ==> file in s && s[file] == work[file])
      && (file !in work ==> file !in s)
  {
  }
}
