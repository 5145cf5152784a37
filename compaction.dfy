/**
 * CompactDatabaseTask as the source runs it: step by step, updating the progress
 * record in place, the file system, the guard's held flag and the two fields of the
 * compaction result. Every method is proved to do what the value-level model in
 * CompactionSpec says.
 */
module Compaction {
  import opened Wrappers
  import opened Directories
  import opened SizeAccountant
  import opened CompactionSpec

  /** DatabaseCompactionProgress: one record whose fields every report overwrites. */
  class CompactionProgress {
    var processed: int
    var total: int
    var treeProgress: int
    var treeTotal: int
    var treeName: Option<string>
    var message: string

    /** The field values, as an observer sees them. */
    function Snapshot(): ProgressSnapshot
      reads this
    {
      ProgressSnapshot(processed, total, treeProgress, treeTotal, treeName, message)
    }

    /** Lines 32-35: a fresh record carrying only the "Started" message. */
    constructor (database: string)
      ensures Snapshot() == StartedSnapshot(database)
    {
      processed, total, treeProgress, treeTotal := 0, 0, 0, 0;
      treeName := None;
      message := StartedMessage(database);
    }

    /** Lines 59-64: the relay copies the six fields of one report into the record. */
    method Update(report: ProgressReport)
      modifies this
      ensures processed == report.globalProgress && total == report.globalTotal
      ensures treeProgress == report.treeProgress && treeTotal == report.treeTotal
      ensures treeName == Some(report.treeName) && message == report.message
      ensures Snapshot() == FromReport(report)
    {
      processed := report.globalProgress;
      total := report.globalTotal;
      treeProgress := report.treeProgress;
      treeTotal := report.treeTotal;
      treeName := Some(report.treeName);
      message := report.message;
    }
  }

  /** One compaction request for one database. */
  class CompactDatabaseTask {
    const database: string
    /** configuration.Core.DataDirectory.FullPath: the live directory. */
    const basePath: Path
    var fs: FileSystem
    /** Whether the unload-and-lock guard is held. */
    var locked: bool
    /** What the request has done so far, in order. */
    var events: seq<Event>
    /** DatabaseCompactionResult.Instance.SizeBeforeCompactionInMb and SizeAfterCompactionInMb. */
    var sizeBeforeMb: nat
    var sizeAfterMb: nat

    constructor (database: string, basePath: Path, fs: FileSystem)
      ensures this.database == database && this.basePath == basePath && this.fs == fs
      ensures !locked && events == [] && sizeBeforeMb == 0 && sizeAfterMb == 0
    {
      this.database := database;
      this.basePath := basePath;
      this.fs := fs;
      locked := false;
      events := [];
      sizeBeforeMb, sizeAfterMb := 0, 0;
    }

    /** IOExtensions.DeleteDirectory, only ever called under the guard. */
    method DeleteDirectory(path: Path, step: Step, env: Environment) returns (error: Option<Exception>)
      requires locked
      modifies this`fs, this`events
      ensures var s := DeleteStep(old(fs), old(events), path, step, env);
        fs == s.fs && events == s.trace && error == s.error
    {
      events := events + [Deleted(path)];
      match Delete(fs, path, step in env.failing)
      case Done(fs') =>
        fs := fs';
        error := None;
      case IoError =>
        error := Some(Raised(step));
    }

    /** IOExtensions.MoveDirectory, only ever called under the guard. */
    method MoveDirectory(from: Path, to: Path, step: Step, env: Environment) returns (error: Option<Exception>)
      requires locked
      modifies this`fs, this`events
      ensures var s := MoveStep(old(fs), old(events), from, to, step, env);
        fs == s.fs && events == s.trace && error == s.error
    {
      events := events + [Moved(from, to)];
      match Move(fs, from, to, step in env.failing)
      case Done(fs') =>
        fs := fs';
        error := None;
      case IoError =>
        error := Some(Raised(step));
    }

    /** Lines 57-66: the compactor fills `-Compacting`; each of its reports goes through the relay. */
    method RunCompactor(progress: CompactionProgress, observe: bool, env: Environment)
      requires locked
      modifies this`fs, this`events, progress
      ensures fs == old(fs)[CompactingPath(basePath) := env.compactor.written]
      ensures events == old(events) + Relay(env.compactor.reports, observe) + [Compacted(CompactingPath(basePath))]
      ensures progress.Snapshot() == RecordAfter(env.compactor.reports, old(progress.Snapshot()))
    {
      var reports := env.compactor.reports;
      var i := 0;
      while i < |reports|
        invariant i <= |reports|
        invariant fs == old(fs)
        invariant events == old(events) + Relay(reports[..i], observe)
        invariant progress.Snapshot() == RecordAfter(reports[..i], old(progress.Snapshot()))
      {
        assert reports[..i + 1][..i] == reports[..i];
        progress.Update(reports[i]);
        if observe {
          events := events + [Notified(progress.Snapshot())];
        }
        i := i + 1;
      }
      assert reports[..i] == reports;
      fs := fs[CompactingPath(basePath) := env.compactor.written];
      events := events + [Compacted(CompactingPath(basePath))];
    }

    /** Lines 52-71: the body of the try, ending with the exception as thrown. */
    method TryCompactAndSwap(progress: CompactionProgress, observe: bool, env: Environment)
      returns (error: Option<Exception>)
      requires locked
      modifies this`fs, this`events, progress
      ensures var s := CompactAndSwap(basePath, env, observe, old(fs), old(events));
        fs == s.fs && events == s.trace && error == s.error
      ensures progress.Snapshot()
        == if OpenDestination in env.failing || env.cancelledBeforeCompaction then old(progress.Snapshot())
           else RecordAfter(env.compactor.reports, old(progress.Snapshot()))
    {
      if OpenDestination in env.failing {
        return Some(Raised(OpenDestination));
      }
      if env.cancelledBeforeCompaction {
        return Some(OperationCanceled);
      }
      RunCompactor(progress, observe, env);
      match env.compactor.outcome
      case Failed(e) =>
        return Some(e);
      case Cancelled =>
        return Some(OperationCanceled);
      case Completed =>
      if env.cancelledBeforeSwap {
        return Some(OperationCanceled);
      }
      error := MoveDirectory(basePath, OldPath(basePath), MoveLiveToOld, env);
      if error.Some? {
        return;
      }
      error := MoveDirectory(CompactingPath(basePath), basePath, MoveCompactingToLive, env);
    }

    /** Lines 41-82: the work done while the guard is held, ending with the exception that escapes the block. */
    method RunGuarded(progress: CompactionProgress, observe: bool, env: Environment)
      returns (error: Option<Exception>)
      requires locked
      modifies this`fs, this`events, progress
      ensures var s := Guarded(database, basePath, env, observe, old(fs), old(events));
        fs == s.fs && events == s.trace && error == s.error
      ensures progress.Snapshot()
        == if Configure in env.failing || OpenSource in env.failing || DeleteStaleCompacting in env.failing
              || DeleteStaleOld in env.failing || OpenDestination in env.failing || env.cancelledBeforeCompaction
           then old(progress.Snapshot())
           else RecordAfter(env.compactor.reports, old(progress.Snapshot()))
    {
      if Configure in env.failing {
        return Some(Raised(Configure));
      }
      if OpenSource in env.failing {
        return Some(Raised(OpenSource));
      }
      error := DeleteDirectory(CompactingPath(basePath), DeleteStaleCompacting, env);
      if error.Some? {
        return;
      }
      error := DeleteDirectory(OldPath(basePath), DeleteStaleOld, env);
      if error.Some? {
        return;
      }
      // try
      var thrown := TryCompactAndSwap(progress, observe, env);
      // catch: rethrow wrapped
      var pending := Wrap(database, thrown);
      // finally
      error := DeleteDirectory(CompactingPath(basePath), CleanupCompacting, env);
      if error.Some? {
        return;
      }
      error := DeleteDirectory(OldPath(basePath), CleanupOld, env);
      if error.None? {
        error := pending;
      }
    }

    /** Lines 30-87: one compaction request; `observe` says whether onProgress is non-null. */
    method Execute(observe: bool, env: Environment) returns (outcome: Outcome)
      requires !locked
      modifies this
      ensures !locked
      ensures var r := Compaction(database, basePath, env, observe, old(fs), old(events));
        outcome == r.outcome && fs == r.fs && events == r.trace
      ensures sizeBeforeMb == ToMb(StorageSize(env.storesBefore))
      ensures sizeAfterMb == (if outcome.Returned? then outcome.result.sizeAfterMb else old(sizeAfterMb))
    {
      var progress := new CompactionProgress(database);
      if observe {
        events := events + [Notified(progress.Snapshot())];
      }
      var bytesBefore, _ := CalculateStorageSizeInBytes(env.storesBefore);
      events := events + [Measured(bytesBefore)];
      sizeBeforeMb := ToMb(bytesBefore);
      if Lock in env.failing {
        return Threw(Raised(Lock));
      }
      locked := true;
      events := events + [Acquired];
      var error := RunGuarded(progress, observe, env);
      // leaving the using block disposes the guard on every path
      locked := false;
      events := events + [Released];
      if error.Some? {
        return Threw(error.value);
      }
      var bytesAfter, _ := CalculateStorageSizeInBytes(env.storesAfter);
      events := events + [Measured(bytesAfter)];
      sizeAfterMb := ToMb(bytesAfter);
      outcome := Returned(CompactionResult(sizeBeforeMb, sizeAfterMb));
    }
  }
}
