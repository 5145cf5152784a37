/**
 * A value-level model of one run of CompactDatabaseTask.Execute: which directories
 * exist and what they hold after each exit path, which exception escapes, and the
 * ordered events the run produces (progress notifications, size measurements, the
 * guard's acquisition and release, directory operations).
 */
module CompactionSpec {
  import opened Wrappers
  import opened Directories
  import opened SizeAccountant

  /** The foreign steps and directory operations of a run that can throw. */
  datatype Step =
    | Lock                   // UnloadAndLockDatabase
    | Configure              // CreateDatabaseConfiguration
    | OpenSource             // storage options over the live directory
    | DeleteStaleCompacting  // stale `-Compacting` removed before the try
    | DeleteStaleOld         // stale `-old` removed before the try
    | OpenDestination        // storage options over `-Compacting`
    | MoveLiveToOld
    | MoveCompactingToLive
    | CleanupCompacting      // first delete of the finally
    | CleanupOld             // second delete of the finally

  /** The exceptions that can leave a run. */
  datatype Exception =
    | OperationCanceled                              // from ThrowIfCancellationRequested or the compactor
    | Raised(step: Step)                             // whatever the failing step or primitive throws
    | InvalidOperation(message: string, inner: Exception)

  /** One progress callback of the storage engine's compactor. */
  datatype ProgressReport = ProgressReport(
    globalProgress: int, globalTotal: int,
    treeProgress: int, treeTotal: int,
    treeName: string, message: string)

  /** The fields of the progress record as the observer sees them when it is called. */
  datatype ProgressSnapshot = ProgressSnapshot(
    processed: int, total: int,
    treeProgress: int, treeTotal: int,
    treeName: Option<string>, message: string)

  function StartedMessage(database: string): string
  {
    "Started database compaction for " + database
  }

  function FailureMessage(database: string): string
  {
    "Failed to execute compaction for " + database
  }

  /** The record before any work: only the message is set, every other field has its default. */
  function StartedSnapshot(database: string): ProgressSnapshot
  {
    ProgressSnapshot(0, 0, 0, 0, None, StartedMessage(database))
  }

  /** The record after the relay has copied one report into it. */
  function FromReport(r: ProgressReport): ProgressSnapshot
  {
    ProgressSnapshot(r.globalProgress, r.globalTotal, r.treeProgress, r.treeTotal, Some(r.treeName), r.message)
  }

  /** How StorageCompaction.Execute ends. */
  datatype CompactorOutcome = Completed | Failed(error: Exception) | Cancelled

  /**
   * One run of the foreign compactor: the progress reports it emits, what it leaves
   * in `-Compacting` (the whole compacted copy when it completes, a partial one
   * otherwise) and how it ends.
   */
  datatype CompactorRun = CompactorRun(reports: seq<ProgressReport>, written: Contents, outcome: CompactorOutcome)

  /** Everything a run consults that lies outside the orchestrator. */
  datatype Environment = Environment(
    failing: set<Step>,                       // the steps that throw
    cancelledBeforeCompaction: bool,          // the token as line 56 sees it
    cancelledBeforeSwap: bool,                // the token as line 69 sees it
    compactor: CompactorRun,
    storesBefore: Option<seq<StorageUnit>>,   // the storage environments when size-before is taken
    storesAfter: Option<seq<StorageUnit>>)    // the storage environments when size-after is taken

  /** What a run does, in order. */
  datatype Event =
    | Notified(snapshot: ProgressSnapshot)  // onProgress called with the progress record
    | Measured(bytes: nat)                  // CalculateStorageSizeInBytes returned
    | Acquired | Released                   // the unload-and-lock guard
    | Deleted(path: Path)                   // DeleteDirectory attempted
    | Moved(from: Path, to: Path)           // MoveDirectory attempted
    | Compacted(destination: Path)          // StorageCompaction.Execute returned or threw

  /** The file system after a part of the run, the events so far, and the exception the part ends with. */
  datatype Stage = Stage(fs: FileSystem, trace: seq<Event>, error: Option<Exception>)

  /** The two fields of DatabaseCompactionResult a run writes. */
  datatype CompactionResult = CompactionResult(sizeBeforeMb: nat, sizeAfterMb: nat)

  datatype Outcome = Returned(result: CompactionResult) | Threw(error: Exception)

  /** A whole run: its outcome, the final file system, its events and the size-before it recorded. */
  datatype Run = Run(outcome: Outcome, fs: FileSystem, trace: seq<Event>, sizeBeforeMb: nat)

  /** IOExtensions.DeleteDirectory as a step of the run. */
  function DeleteStep(fs: FileSystem, trace: seq<Event>, path: Path, step: Step, env: Environment): (r: Stage)
    ensures r.trace == trace + [Deleted(path)]
    ensures r.error.Some? <==> step in env.failing
    ensures r.error.Some? ==> r.error == Some(Raised(step)) && r.fs == fs
    ensures r.error.None? ==> path !in r.fs
  {
    match Delete(fs, path, step in env.failing)
    case Done(fs') => Stage(fs', trace + [Deleted(path)], None)
    case IoError => Stage(fs, trace + [Deleted(path)], Some(Raised(step)))
  }

  /** IOExtensions.MoveDirectory as a step of the run. */
  function MoveStep(fs: FileSystem, trace: seq<Event>, from: Path, to: Path, step: Step, env: Environment): (r: Stage)
    ensures r.trace == trace + [Moved(from, to)]
    ensures r.error.None? <==> step !in env.failing && from in fs && to !in fs
    ensures r.error.Some? ==> r.error == Some(Raised(step)) && r.fs == fs
    ensures r.error.None? ==> from !in r.fs && to in r.fs && r.fs[to] == fs[from]
  {
    match Move(fs, from, to, step in env.failing)
    case Done(fs') => Stage(fs', trace + [Moved(from, to)], None)
    case IoError => Stage(fs, trace + [Moved(from, to)], Some(Raised(step)))
  }

  /** The observer calls of the relay for the reports, in order; none without an observer. */
  function Relay(reports: seq<ProgressReport>, observe: bool): (r: seq<Event>)
    ensures |r| == if observe then |reports| else 0
  {
    if reports == [] then []
    else Relay(reports[..|reports| - 1], observe)
         + (if observe then [Notified(FromReport(reports[|reports| - 1]))] else [])
  }

  /** The progress record after the relay has copied the reports into it in turn, starting from `before`. */
  function RecordAfter(reports: seq<ProgressReport>, before: ProgressSnapshot): ProgressSnapshot
  {
    if reports == [] then before else FromReport(reports[|reports| - 1])
  }

  /** Lines 41-48: configuration, the source options, and the removal of stale siblings (outside the try). */
  function Prepare(base: Path, env: Environment, fs: FileSystem, trace: seq<Event>): Stage
  {
    if Configure in env.failing then Stage(fs, trace, Some(Raised(Configure)))
    else if OpenSource in env.failing then Stage(fs, trace, Some(Raised(OpenSource)))
    else
      var c := DeleteStep(fs, trace, CompactingPath(base), DeleteStaleCompacting, env);
      if c.error.Some? then c
      else DeleteStep(c.fs, c.trace, OldPath(base), DeleteStaleOld, env)
  }

  /** Lines 52-71, the body of the try; the error is the exception as thrown, not yet wrapped. */
  function CompactAndSwap(base: Path, env: Environment, observe: bool, fs: FileSystem, trace: seq<Event>): Stage
  {
    if OpenDestination in env.failing then Stage(fs, trace, Some(Raised(OpenDestination)))
    else if env.cancelledBeforeCompaction then Stage(fs, trace, Some(OperationCanceled))
    else
      var run := env.compactor;
      var compacted := fs[CompactingPath(base) := run.written];
      var relayed := trace + Relay(run.reports, observe) + [Compacted(CompactingPath(base))];
      match run.outcome
      case Failed(e) => Stage(compacted, relayed, Some(e))
      case Cancelled => Stage(compacted, relayed, Some(OperationCanceled))
      case Completed =>
        if env.cancelledBeforeSwap then Stage(compacted, relayed, Some(OperationCanceled))
        else
          var m1 := MoveStep(compacted, relayed, base, OldPath(base), MoveLiveToOld, env);
          if m1.error.Some? then m1
          else MoveStep(m1.fs, m1.trace, CompactingPath(base), base, MoveCompactingToLive, env)
  }

  /** Lines 73-76: every exception of the try body is rethrown wrapped, with the original as inner cause. */
  function Wrap(database: string, error: Option<Exception>): (r: Option<Exception>)
    ensures r.Some? <==> error.Some?
    ensures error.Some? ==> r.value.InvalidOperation? && r.value.inner == error.value
    ensures error.Some? ==> r.value.message == FailureMessage(database)
  {
    match error
    case None => None
    case Some(e) => Some(InvalidOperation(FailureMessage(database), e))
  }

  /**
   * Lines 77-81, the finally: both scratch siblings are deleted. An exception thrown
   * here replaces the pending one and skips what is left of the finally.
   */
  function Cleanup(base: Path, env: Environment, s: Stage): Stage
  {
    var c := DeleteStep(s.fs, s.trace, CompactingPath(base), CleanupCompacting, env);
    if c.error.Some? then c
    else
      var o := DeleteStep(c.fs, c.trace, OldPath(base), CleanupOld, env);
      if o.error.Some? then o else Stage(o.fs, o.trace, s.error)
  }

  /** Lines 41-82: everything done while the guard is held. */
  function Guarded(database: string, base: Path, env: Environment, observe: bool, fs: FileSystem, trace: seq<Event>): Stage
  {
    var p := Prepare(base, env, fs, trace);
    if p.error.Some? then p
    else
      var b := CompactAndSwap(base, env, observe, p.fs, p.trace);
      Cleanup(base, env, Stage(b.fs, b.trace, Wrap(database, b.error)))
  }

  /** The events of lines 32-37: the "Started" notification, if there is an observer, and the size-before measurement. */
  function Opening(database: string, env: Environment, observe: bool, trace: seq<Event>): seq<Event>
  {
    (if observe then trace + [Notified(StartedSnapshot(database))] else trace) + [Measured(StorageSize(env.storesBefore))]
  }

  /**
   * Lines 30-87: one whole run of Execute for `database`, whose data directory is
   * `base`, in a file system `fs`, after the events `trace`.
   */
  function Compaction(database: string, base: Path, env: Environment, observe: bool, fs: FileSystem, trace: seq<Event>): Run
  {
    var before := ToMb(StorageSize(env.storesBefore));
    var opening := Opening(database, env, observe, trace);
    if Lock in env.failing then Run(Threw(Raised(Lock)), fs, opening, before)
    else
      var g := Guarded(database, base, env, observe, fs, opening + [Acquired]);
      var released := g.trace + [Released];
      if g.error.Some? then Run(Threw(g.error.value), g.fs, released, before)
      else
        var bytesAfter := StorageSize(env.storesAfter);
        Run(Returned(CompactionResult(before, ToMb(bytesAfter))), g.fs, released + [Measured(bytesAfter)], before)
  }
}
