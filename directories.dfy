/**
 * The directory primitives the orchestrator relies on (IOExtensions.DeleteDirectory
 * and IOExtensions.MoveDirectory), over an abstract file system that maps the full
 * path of a directory to what the directory holds.
 */
module Directories {

  type Path = string

  /** What a directory holds: file names to file bytes. The orchestrator never looks inside. */
  datatype Contents = Contents(files: map<string, seq<bv8>>)

  type FileSystem = map<Path, Contents>

  /** `<base>-Compacting`: the scratch directory the compactor writes into. */
  function CompactingPath(base: Path): (p: Path)
    ensures |p| == |base| + 11 && p[..|base|] == base
  {
    base + "-Compacting"
  }

  /** `<base>-old`: where the live directory is parked during the swap. */
  function OldPath(base: Path): (p: Path)
    ensures |p| == |base| + 4 && p[..|base|] == base
  {
    base + "-old"
  }

  /** The three siblings derived from one base path are three different directories. */
  lemma SiblingsDistinct(base: Path)
    ensures base != CompactingPath(base) && base != OldPath(base)
    ensures CompactingPath(base) != OldPath(base)
  {
  }

  /** Every directory outside `touched` is present in `fs'` exactly when it is in `fs`, with the same contents. */
  ghost predicate UnchangedExcept(fs: FileSystem, fs': FileSystem, touched: set<Path>)
  {
    forall p :: p !in touched ==> (p in fs <==> p in fs') && (p in fs ==> fs'[p] == fs[p])
  }

  /** The outcome of a directory primitive: the new file system, or an I/O exception. */
  datatype IoResult = Done(fs: FileSystem) | IoError

  /**
   * Recursive delete that tolerates a directory that is already absent. `fault`
   * stands for an I/O error the operating system reports (a file still in use).
   */
  function Delete(fs: FileSystem, path: Path, fault: bool): (r: IoResult)
    ensures r.IoError? <==> fault
    ensures r.Done? ==> path !in r.fs
  {
    if fault then IoError else Done(fs - {path})
  }

  /**
   * Rename of a directory within one volume. Like Directory.Move it throws when the
   * source does not exist or the destination already exists; `fault` stands for
   * any other I/O error.
   */
  function Move(fs: FileSystem, from: Path, to: Path, fault: bool): (r: IoResult)
    ensures r.Done? <==> !fault && from in fs && to !in fs
    ensures r.Done? ==> from !in r.fs && to in r.fs && r.fs[to] == fs[from]
  {
    if fault || from !in fs || to in fs then IoError
    else Done((fs - {from})[to := fs[from]])
  }

  /** A delete touches no directory but the one it removes. */
  lemma DeleteLeavesOthers(fs: FileSystem, path: Path, fault: bool)
    ensures Delete(fs, path, fault).Done? ==> UnchangedExcept(fs, Delete(fs, path, fault).fs, {path})
  {
  }

  /** A rename touches no directory but its source and its destination. */
  lemma MoveLeavesOthers(fs: FileSystem, from: Path, to: Path, fault: bool)
    ensures Move(fs, from, to, fault).Done? ==> UnchangedExcept(fs, Move(fs, from, to, fault).fs, {from, to})
  {
  }
}
