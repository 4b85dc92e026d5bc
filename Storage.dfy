/**
 * The output file system as seen by the day loop: a map from path to file
 * size (and, for a completed write, the dataset it holds). Existence of a path
 * is the only completion signal the loop tests.
 */
module Storage {
  import opened Wrappers
  import opened Datasets

  datatype FileEntry = FileEntry(size: nat, content: Option<Vars>)

  type FileSystem = map<string, FileEntry>

  type PositiveSize = n: nat | n > 0 witness 1

  /**
   * What one `save_nc` call does: it completes, leaving a non-empty file
   * holding the dataset, or it raises, leaving no file or a file of the given
   * size (zero for a stub created before any byte was written).
   */
  datatype WriteOutcome =
    | Completed(size: PositiveSize)
    | Failed(leftover: Option<nat>)

  /** The file system after one write to `path`; no other path changes. */
  function AfterWrite(fs: FileSystem, path: string, vars: Vars, w: WriteOutcome): (r: FileSystem)
    ensures forall p :: p != path ==> (p in r <==> p in fs) && (p in fs ==> r[p] == fs[p])
    ensures w.Completed? ==> path in r && r[path] == FileEntry(w.size, Some(vars))
    ensures w.Failed? && w.leftover.None? ==> r == fs
    ensures w.Failed? && w.leftover.Some? ==> path in r && r[path] == FileEntry(w.leftover.value, None)
  {
    match w
    case Completed(n) => fs[path := FileEntry(n, Some(vars))]
    case Failed(None) => fs
    case Failed(Some(n)) => fs[path := FileEntry(n, None)]
  }

  /**
   * The file system after the failure cleanup over `paths`: exactly the
   * zero-byte files among them are gone, and everything else is as it was.
   */
  function Cleaned(fs: FileSystem, paths: seq<string>): (r: FileSystem)
    ensures forall p :: p in r <==> p in fs && !(p in paths && fs[p].size == 0)
    ensures forall p :: p in r ==> r[p] == fs[p]
  {
    map p | p in fs && !(p in paths && fs[p].size == 0) :: fs[p]
  }

  /** The cleanup never removes a non-empty file, whether or not this day wrote it. */
  lemma CleanupKeepsNonEmpty(fs: FileSystem, paths: seq<string>, p: string)
    requires p in fs && fs[p].size > 0
    ensures p in Cleaned(fs, paths) && Cleaned(fs, paths)[p] == fs[p]
  {
  }

  /** After the cleanup no zero-byte file is left among `paths`. */
  lemma CleanupLeavesNoStub(fs: FileSystem, paths: seq<string>, p: string)
    requires p in paths && p in Cleaned(fs, paths)
    ensures Cleaned(fs, paths)[p].size > 0
  {
  }
}
