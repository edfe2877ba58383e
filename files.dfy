/**
 * The file-system side of the tool, as far as the model needs it: a file the
 * generators would write, and an abstract disk with the two operations the
 * undo command uses (src/utils/file.ts `fileExists` and `deleteFile`).
 */
module Files {
  import opened Text

  /** One `writeFile(path, content)` call. */
  datatype FileWrite = FileWrite(path: string, content: string)

  /** `q` is `p` itself or lies beneath the directory `p`. */
  predicate Under(q: string, p: string) {
    q == p || IsPrefix(p + "/", q)
  }

  /** The paths that exist. */
  datatype Disk = Disk(present: set<string>)

  /** The disk after `fs.remove(p)` succeeded: `p` and everything beneath it are gone. */
  function RemoveTree(d: Disk, p: string): (r: Disk)
    ensures p !in r.present
    ensures r.present <= d.present
    ensures forall q :: q in d.present && !Under(q, p) ==> q in r.present
    ensures forall q :: q in r.present ==> !Under(q, p)
  {
    Disk(set q | q in d.present && !Under(q, p))
  }

  /**
   * How one `fs.remove(p)` call ends, as decided by the environment: it
   * succeeds, or it throws (a permission problem, a busy file) after removing
   * part of the tree, the paths in `survivors` beneath `p` still being there.
   * A later call may end differently.
   */
  datatype RemoveAttempt = Succeeds | Fails(survivors: set<string>)

  /** The disk after `fs.remove(p)` threw: some of the tree may be gone, nothing outside it is touched. */
  function PartlyRemoved(d: Disk, p: string, survivors: set<string>): (r: Disk)
    ensures r.present <= d.present
    ensures forall q :: q in d.present && !Under(q, p) ==> q in r.present
    ensures forall q :: q in d.present && q in survivors ==> q in r.present
  {
    Disk(set q | q in d.present && (!Under(q, p) || q in survivors))
  }

  /**
   * Every disk a failed removal can leave behind, one that lost only paths
   * beneath `p`, is one of the outcomes `PartlyRemoved` describes.
   */
  lemma {:induction false} EveryFailureCovered(d: Disk, p: string, after: Disk)
    requires after.present <= d.present
    requires forall q :: q in d.present && !Under(q, p) ==> q in after.present
    ensures PartlyRemoved(d, p, after.present) == after
  {
    var r := PartlyRemoved(d, p, after.present);
    assert r.present == after.present by {
      forall q ensures q in r.present <==> q in after.present {
        if q in after.present {
          assert q in d.present;
        }
      }
    }
  }

  class FileSystem {
    var disk: Disk

    constructor(initial: Disk)
      ensures disk == initial
    {
      disk := initial;
    }

    /** `fileExists`: whether `fs.access(path)` succeeds. */
    method FileExists(path: string) returns (found: bool)
      ensures found <==> path in disk.present
    {
      found := path in disk.present;
    }

    /**
     * `deleteFile`: `fs.remove(path)`, ending as `attempt` says. On success
     * the tree is gone; on failure part of it may be gone, and every path
     * outside it is still there.
     */
    method DeleteFile(path: string, attempt: RemoveAttempt) returns (ok: bool)
      modifies this
      ensures ok <==> attempt.Succeeds?
      ensures ok ==> disk == RemoveTree(old(disk), path)
      ensures !ok ==> disk == PartlyRemoved(old(disk), path, attempt.survivors)
      ensures disk.present <= old(disk).present
      ensures forall q :: q in old(disk).present && !Under(q, path) ==> q in disk.present
    {
      ok := attempt.Succeeds?;
      if ok {
        disk := RemoveTree(disk, path);
      } else {
        disk := PartlyRemoved(disk, path, attempt.survivors);
      }
    }
  }
}
