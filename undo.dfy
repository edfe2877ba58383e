/**
 * The `undo` command (src/cli/commands/undo.ts): it reads the most recent
 * history entry, asks for confirmation, skips a path that no longer exists,
 * and otherwise deletes the path before it drops the entry, so that a
 * failed deletion leaves the entry in place for another attempt.
 */
module Undo {
  import opened Optional
  import opened History
  import opened Files

  datatype Outcome =
    | NothingToUndo                    // "Nothing to undo"
    | Cancelled(entry: HistoryEntry)   // the user declined
    | PathMissing(entry: HistoryEntry) // "Path no longer exists"; the entry is dropped
    | Deleted(entry: HistoryEntry)     // "Successfully deleted"
    | DeleteFailed(entry: HistoryEntry) // "Failed to delete"; exit code 1

  function ExitCode(o: Outcome): (code: nat)
    ensures code == 1 <==> o.DeleteFailed?
    ensures code == 0 <==> !o.DeleteFailed?
  {
    if o.DeleteFailed? then 1 else 0
  }

  /** The part of the world undo reads and changes. */
  datatype State = State(entries: seq<HistoryEntry>, disk: Disk)

  /**
   * One run of undo from state `s`, with `confirm` the answer to the
   * confirmation prompt (only asked when there is something to undo) and
   * `attempt` how the removal ends if one is made.
   */
  function UndoStep(s: State, confirm: bool, attempt: RemoveAttempt): (r: (Outcome, State))
    // empty history: nothing happens
    ensures r.0 == NothingToUndo <==> s.entries == []
    ensures s.entries == [] ==> r.1 == s
    // whatever happens is about the most recent entry
    ensures !r.0.NothingToUndo? ==> r.0.entry == s.entries[0]
    // declining changes nothing
    ensures s.entries != [] && !confirm ==> r == (Cancelled(s.entries[0]), s)
    // history only ever loses its head
    ensures r.1.entries == s.entries || (s.entries != [] && r.1.entries == s.entries[1..])
    // the head is dropped only when its path was already gone or has just been deleted
    ensures r.1.entries != s.entries ==>
      s.entries[0].path !in s.disk.present ||
      (r.0 == Deleted(s.entries[0]) && s.entries[0].path !in r.1.disk.present)
    // the disk only loses paths, and only beneath the head's path after confirmation
    ensures r.1.disk.present <= s.disk.present
    ensures r.1.disk != s.disk ==> s.entries != [] && confirm
    ensures s.entries != [] ==>
      forall q :: q in s.disk.present && !Under(q, s.entries[0].path) ==> q in r.1.disk.present
    // no deletion is attempted for a path that no longer exists
    ensures s.entries != [] && confirm && s.entries[0].path !in s.disk.present ==>
      r == (PathMissing(s.entries[0]), State(s.entries[1..], s.disk))
    // a failed removal keeps the entry, whatever part of the tree it took with it
    ensures r.0.DeleteFailed? <==>
      s.entries != [] && confirm && s.entries[0].path in s.disk.present && attempt.Fails?
    ensures r.0.DeleteFailed? ==>
      r.1 == State(s.entries, PartlyRemoved(s.disk, s.entries[0].path, attempt.survivors))
    // a successful removal deletes the tree and then drops the entry
    ensures r.0.Deleted? <==>
      s.entries != [] && confirm && s.entries[0].path in s.disk.present && attempt.Succeeds?
    ensures r.0.Deleted? ==> r.1 == State(s.entries[1..], RemoveTree(s.disk, s.entries[0].path))
  {
    if s.entries == [] then (NothingToUndo, s)
    else
      var last := s.entries[0];
      if !confirm then (Cancelled(last), s)
      else if last.path !in s.disk.present then (PathMissing(last), State(s.entries[1..], s.disk))
      else if attempt.Fails? then (DeleteFailed(last), State(s.entries, PartlyRemoved(s.disk, last.path, attempt.survivors)))
      else (Deleted(last), State(s.entries[1..], RemoveTree(s.disk, last.path)))
  }

  /**
   * After a failure the history is as it was, so running undo again works
   * on the very same entry; if the failed removal took the path itself, the
   * next run finds it gone and drops the entry.
   */
  lemma {:induction false} FailureAllowsRetry(s: State, attempt: RemoveAttempt, retry: RemoveAttempt)
    requires UndoStep(s, true, attempt).0.DeleteFailed?
    ensures UndoStep(s, true, attempt).1.entries == s.entries
    ensures UndoStep(UndoStep(s, true, attempt).1, true, retry).0.entry == s.entries[0]
    ensures s.entries[0].path !in UndoStep(s, true, attempt).1.disk.present ==>
      UndoStep(UndoStep(s, true, attempt).1, true, retry).0 == PathMissing(s.entries[0])
  {
  }

  /** After a successful undo the history holds one entry fewer, and a second
      undo works on the entry that came next. */
  lemma {:induction false} SuccessMovesToNext(s: State, attempt: RemoveAttempt, next: RemoveAttempt)
    requires UndoStep(s, true, attempt).0.Deleted?
    ensures var after := UndoStep(s, true, attempt).1;
      |after.entries| == |s.entries| - 1 &&
      (after.entries != [] ==> UndoStep(after, true, next).0.entry == s.entries[1])
  {
  }

  /** `undoCommand`, step by step over the history store and the file system. */
  method UndoCommand(history: HistoryStore, fs: FileSystem, confirm: bool, attempt: RemoveAttempt)
    returns (outcome: Outcome)
    modifies history, fs
    ensures (outcome, State(history.entries, fs.disk)) ==
            UndoStep(State(old(history.entries), old(fs.disk)), confirm, attempt)
  {
    var last := history.GetLast();
    if last.None? {
      return NothingToUndo;
    }
    var entry := last.value;
    if !confirm {
      return Cancelled(entry);
    }
    var found := fs.FileExists(entry.path);
    if !found {
      var _ := history.RemoveLast();
      return PathMissing(entry);
    }
    var ok := fs.DeleteFile(entry.path, attempt);
    if !ok {
      return DeleteFailed(entry);
    }
    var _ := history.RemoveLast();
    return Deleted(entry);
  }
}
