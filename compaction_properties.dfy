/**
 * What a run of CompactDatabaseTask.Execute guarantees, stated and proved over the
 * value-level model: which of the three sibling directories exist after each exit
 * path, which exception escapes, when the guard is held, and what the observer sees.
 */
module CompactionProperties {
  import opened Wrappers
  import opened Directories
  import opened SizeAccountant
  import opened CompactionSpec

  /** The steps before the try whose failure escapes unwrapped. */
  predicate PreparationSucceeds(env: Environment)
  {
    Configure !in env.failing && OpenSource !in env.failing
    && DeleteStaleCompacting !in env.failing && DeleteStaleOld !in env.failing
  }

  /** Whether the compactor is started at line 57. */
  predicate CompactorStarts(env: Environment)
  {
    Lock !in env.failing && PreparationSucceeds(env)
    && OpenDestination !in env.failing && !env.cancelledBeforeCompaction
  }

  /** Whether the try body stops before the first rename (line 70). */
  predicate StopsBeforeSwap(env: Environment)
  {
    OpenDestination in env.failing || env.cancelledBeforeCompaction
    || !env.compactor.outcome.Completed? || env.cancelledBeforeSwap
  }

  /** The exception the try body throws when it stops before the first rename. */
  function CauseBeforeSwap(env: Environment): Exception
  {
    if OpenDestination in env.failing then Raised(OpenDestination)
    else if env.cancelledBeforeCompaction then OperationCanceled
    else match env.compactor.outcome
      case Failed(e) => e
      case _ => OperationCanceled
  }

  /** The live directory is present after exactly when before, with the same contents. */
  ghost predicate LiveKept(fs: FileSystem, fs': FileSystem, base: Path)
  {
    (base in fs' <==> base in fs) && (base in fs ==> fs'[base] == fs[base])
  }

  /** The work under the guard is the preparation, then, if it succeeded, the try body and the finally. */
  lemma GuardedSteps(database: string, base: Path, env: Environment, observe: bool, fs: FileSystem, trace: seq<Event>)
    ensures var p := Prepare(base, env, fs, trace);
      var b := CompactAndSwap(base, env, observe, p.fs, p.trace);
      Guarded(database, base, env, observe, fs, trace)
        == if p.error.Some? then p else Cleanup(base, env, Stage(b.fs, b.trace, Wrap(database, b.error)))
  {
  }

  // ---------------------------------------------------------------------------
  // Directory lifecycle

  /**
   * Lines 46-48: before the try body runs, neither `-Compacting` nor `-old` exists,
   * whatever existed before, and every other directory (the live one included) is
   * untouched. A failure there escapes as it was thrown.
   */
  lemma StaleSiblingsRemovedBeforeTry(base: Path, env: Environment, fs: FileSystem, trace: seq<Event>)
    ensures var p := Prepare(base, env, fs, trace);
      && (p.error.None? <==> PreparationSucceeds(env))
      && (p.error.None? ==> CompactingPath(base) !in p.fs && OldPath(base) !in p.fs)
      && UnchangedExcept(fs, p.fs, {CompactingPath(base), OldPath(base)})
      && p.error == if Configure in env.failing then Some(Raised(Configure))
                    else if OpenSource in env.failing then Some(Raised(OpenSource))
                    else if DeleteStaleCompacting in env.failing then Some(Raised(DeleteStaleCompacting))
                    else if DeleteStaleOld in env.failing then Some(Raised(DeleteStaleOld))
                    else None
  {
  }

  /** Two steps that each touch only their own directories together touch only the union. */
  lemma UnchangedExceptCompose(fs: FileSystem, fs': FileSystem, fs'': FileSystem, touched: set<Path>, touched': set<Path>)
    requires UnchangedExcept(fs, fs', touched) && UnchangedExcept(fs', fs'', touched')
    ensures UnchangedExcept(fs, fs'', touched + touched')
  {
  }

  /** A run is the opening, then either the failed attempt to take the guard or the guarded work and the release. */
  lemma CompactionSteps(database: string, base: Path, env: Environment, observe: bool, fs: FileSystem, trace: seq<Event>)
    ensures var r := Compaction(database, base, env, observe, fs, trace);
      var g := Guarded(database, base, env, observe, fs, Opening(database, env, observe, trace) + [Acquired]);
      && (Lock in env.failing ==> r.outcome == Threw(Raised(Lock)) && r.fs == fs)
      && (Lock !in env.failing ==> r.fs == g.fs)
      && (Lock !in env.failing && g.error.Some? ==> r.outcome == Threw(g.error.value))
      && (Lock !in env.failing && g.error.None? ==>
            r.outcome == Returned(CompactionResult(ToMb(StorageSize(env.storesBefore)), ToMb(StorageSize(env.storesAfter)))))
  {
  }

  /** Lines 77-81: what the finally removes, and which exception leaves it. */
  lemma CleanupSteps(base: Path, env: Environment, s: Stage)
    ensures var c := Cleanup(base, env, s);
      && (CleanupCompacting in env.failing ==> c.error == Some(Raised(CleanupCompacting)) && c.fs == s.fs)
      && (CleanupCompacting !in env.failing && CleanupOld in env.failing ==>
            c.error == Some(Raised(CleanupOld)) && c.fs == s.fs - {CompactingPath(base)})
      && (CleanupCompacting !in env.failing && CleanupOld !in env.failing ==>
            c.error == s.error && c.fs == s.fs - {CompactingPath(base)} - {OldPath(base)})
  {
  }

  /** Lines 52-69: a try body that stops before the first rename leaves the live directory alone. */
  lemma SwapNotReached(base: Path, env: Environment, observe: bool, fs: FileSystem, trace: seq<Event>)
    requires StopsBeforeSwap(env)
    ensures var b := CompactAndSwap(base, env, observe, fs, trace);
      b.error == Some(CauseBeforeSwap(env)) && LiveKept(fs, b.fs, base)
  {
    SiblingsDistinct(base);
  }

  /**
   * Lines 70-71: the two renames, after the compactor completed and the token was
   * not cancelled, starting from a file system without `-old`.
   */
  lemma SwapRenames(base: Path, env: Environment, observe: bool, fs: FileSystem, trace: seq<Event>)
    requires !StopsBeforeSwap(env) && OldPath(base) !in fs
    ensures var b := CompactAndSwap(base, env, observe, fs, trace);
      && (MoveLiveToOld in env.failing || base !in fs ==> b.error == Some(Raised(MoveLiveToOld)) && LiveKept(fs, b.fs, base))
      && (MoveLiveToOld !in env.failing && base in fs && MoveCompactingToLive in env.failing ==>
            && b.error == Some(Raised(MoveCompactingToLive))
            && base !in b.fs && CompactingPath(base) in b.fs && OldPath(base) in b.fs
            && UnchangedExcept(fs, b.fs, {base, CompactingPath(base), OldPath(base)}))
      && (MoveLiveToOld !in env.failing && base in fs && MoveCompactingToLive !in env.failing ==>
            && b.error.None?
            && base in b.fs && b.fs[base] == env.compactor.written
            && CompactingPath(base) !in b.fs && OldPath(base) in b.fs
            && UnchangedExcept(fs, b.fs, {base, CompactingPath(base), OldPath(base)}))
  {
    SiblingsDistinct(base);
  }

  /**
   * A run returns normally exactly when no step fails, the token is not cancelled at
   * either checkpoint, the compactor completes, and the live directory exists. Stale
   * `-Compacting` and `-old` directories do not prevent success.
   */
  lemma SucceedsExactlyWhen(database: string, base: Path, env: Environment, observe: bool, fs: FileSystem, trace: seq<Event>)
    ensures Compaction(database, base, env, observe, fs, trace).outcome.Returned?
      <==> env.failing == {} && !env.cancelledBeforeCompaction && !env.cancelledBeforeSwap
           && env.compactor.outcome.Completed? && base in fs
  {
    SiblingsDistinct(base);
    CompactionSteps(database, base, env, observe, fs, trace);
    var r := Compaction(database, base, env, observe, fs, trace);
    if r.outcome.Returned? {
      var t := Opening(database, env, observe, trace) + [Acquired];
      var p := Prepare(base, env, fs, t);
      StaleSiblingsRemovedBeforeTry(base, env, fs, t);
      GuardedSteps(database, base, env, observe, fs, t);
      var b := CompactAndSwap(base, env, observe, p.fs, p.trace);
      CleanupSteps(base, env, Stage(b.fs, b.trace, Wrap(database, b.error)));
      if StopsBeforeSwap(env) {
        SwapNotReached(base, env, observe, p.fs, p.trace);
      } else {
        SwapRenames(base, env, observe, p.fs, p.trace);
      }
      forall s: Step ensures s !in env.failing {
        match s
        case MoveLiveToOld =>
        case _ =>
      }
    }
  }

  /**
   * Lines 57-71 and 79-80: after a normal return neither `-Compacting` nor `-old`
   * exists, the live path holds exactly what the compactor wrote into
   * `-Compacting`, and no other directory changed. The result carries both sizes,
   * converted to whole megabytes.
   */
  lemma SuccessInstallsCompactedCopy(database: string, base: Path, env: Environment, observe: bool, fs: FileSystem, trace: seq<Event>)
    requires Compaction(database, base, env, observe, fs, trace).outcome.Returned?
    ensures var r := Compaction(database, base, env, observe, fs, trace);
      && CompactingPath(base) !in r.fs && OldPath(base) !in r.fs
      && base in r.fs && r.fs[base] == env.compactor.written
      && UnchangedExcept(fs, r.fs, {base, CompactingPath(base), OldPath(base)})
      && r.outcome.result == CompactionResult(ToMb(StorageSize(env.storesBefore)), ToMb(StorageSize(env.storesAfter)))
  {
    SiblingsDistinct(base);
    SucceedsExactlyWhen(database, base, env, observe, fs, trace);
    CompactionSteps(database, base, env, observe, fs, trace);
    var t := Opening(database, env, observe, trace) + [Acquired];
    var p := Prepare(base, env, fs, t);
    StaleSiblingsRemovedBeforeTry(base, env, fs, t);
    GuardedSteps(database, base, env, observe, fs, t);
    var b := CompactAndSwap(base, env, observe, p.fs, p.trace);
    SwapRenames(base, env, observe, p.fs, p.trace);
    CleanupSteps(base, env, Stage(b.fs, b.trace, Wrap(database, b.error)));
  }

  /**
   * Lines 56-80: when the destination cannot be opened, the token is cancelled at
   * line 56 or 69, or the compactor fails or is cancelled, the live directory is
   * never moved and keeps its contents. With a clean finally both scratch siblings
   * are gone and the exception is an InvalidOperation naming the database whose inner
   * cause is the original one (a cancellation included).
   */
  lemma FailureBeforeSwapKeepsLive(database: string, base: Path, env: Environment, observe: bool, fs: FileSystem, trace: seq<Event>)
    requires Lock !in env.failing && PreparationSucceeds(env) && StopsBeforeSwap(env)
    ensures var r := Compaction(database, base, env, observe, fs, trace);
      && LiveKept(fs, r.fs, base)
      && (CleanupCompacting !in env.failing && CleanupOld !in env.failing ==>
            && CompactingPath(base) !in r.fs && OldPath(base) !in r.fs
            && r.outcome == Threw(InvalidOperation(FailureMessage(database), CauseBeforeSwap(env))))
  {
    SiblingsDistinct(base);
    CompactionSteps(database, base, env, observe, fs, trace);
    var t := Opening(database, env, observe, trace) + [Acquired];
    var p := Prepare(base, env, fs, t);
    StaleSiblingsRemovedBeforeTry(base, env, fs, t);
    GuardedSteps(database, base, env, observe, fs, t);
    var b := CompactAndSwap(base, env, observe, p.fs, p.trace);
    SwapNotReached(base, env, observe, p.fs, p.trace);
    CleanupSteps(base, env, Stage(b.fs, b.trace, Wrap(database, b.error)));
  }

  /**
   * Lines 77-81: an exception thrown by a delete of the finally replaces the one in
   * flight (the wrapped failure, or a normal return) and skips the rest of the finally.
   */
  lemma CleanupFaultReplacesOutcome(database: string, base: Path, env: Environment, observe: bool, fs: FileSystem, trace: seq<Event>)
    requires Lock !in env.failing && PreparationSucceeds(env)
    requires CleanupCompacting in env.failing || CleanupOld in env.failing
    ensures var r := Compaction(database, base, env, observe, fs, trace);
      r.outcome == Threw(Raised(if CleanupCompacting in env.failing then CleanupCompacting else CleanupOld))
  {
    CompactionSteps(database, base, env, observe, fs, trace);
    var t := Opening(database, env, observe, trace) + [Acquired];
    var p := Prepare(base, env, fs, t);
    StaleSiblingsRemovedBeforeTry(base, env, fs, t);
    GuardedSteps(database, base, env, observe, fs, t);
    var b := CompactAndSwap(base, env, observe, p.fs, p.trace);
    CleanupSteps(base, env, Stage(b.fs, b.trace, Wrap(database, b.error)));
  }

  /** No event of the trace is a rename or a compactor run. */
  predicate NothingSwapped(trace: seq<Event>)
  {
    forall e :: e in trace ==> !e.Moved? && !e.Compacted?
  }

  lemma NothingSwappedStep(trace: seq<Event>, e: Event)
    ensures NothingSwapped(trace + [e]) == (NothingSwapped(trace) && !e.Moved? && !e.Compacted?)
  {
    assert e in trace + [e];
    assert forall x :: x in trace + [e] ==> x in trace || x == e;
  }

  /** Lines 39-48: a run that fails before the try neither runs the compactor nor renames anything. */
  lemma EarlyFailureMovesNothing(database: string, base: Path, env: Environment, observe: bool, fs: FileSystem, trace: seq<Event>)
    requires Lock in env.failing || !PreparationSucceeds(env)
    ensures NothingSwapped(Compaction(database, base, env, observe, fs, trace).trace) == NothingSwapped(trace)
  {
    var started := if observe then trace + [Notified(StartedSnapshot(database))] else trace;
    NothingSwappedStep(trace, Notified(StartedSnapshot(database)));
    var opening := Opening(database, env, observe, trace);
    NothingSwappedStep(started, Measured(StorageSize(env.storesBefore)));
    if Lock !in env.failing {
      var t := opening + [Acquired];
      NothingSwappedStep(opening, Acquired);
      var p := Prepare(base, env, fs, t);
      NothingSwappedStep(t, Deleted(CompactingPath(base)));
      NothingSwappedStep(t + [Deleted(CompactingPath(base))], Deleted(OldPath(base)));
      assert p.trace == t || p.trace == t + [Deleted(CompactingPath(base))]
        || p.trace == t + [Deleted(CompactingPath(base))] + [Deleted(OldPath(base))];
      StaleSiblingsRemovedBeforeTry(base, env, fs, t);
      GuardedSteps(database, base, env, observe, fs, t);
      NothingSwappedStep(p.trace, Released);
      CompactionSteps(database, base, env, observe, fs, trace);
      assert Compaction(database, base, env, observe, fs, trace).trace == p.trace + [Released];
    }
  }

  /**
   * Lines 39-48: a failure to take the guard, to build the configuration, to open
   * the source, or to delete a stale sibling escapes unwrapped: the exception is
   * that of the first of these steps that fails. The try is never
   * entered, so the finally does not run: a stale `-old` that could not be deleted
   * is still there, and nothing is compacted or moved.
   */
  lemma EarlyFailureEscapesUnwrapped(database: string, base: Path, env: Environment, observe: bool, fs: FileSystem, trace: seq<Event>)
    requires Lock in env.failing || !PreparationSucceeds(env)
    ensures var r := Compaction(database, base, env, observe, fs, trace);
      && r.outcome == Threw(Raised(if Lock in env.failing then Lock
                                   else if Configure in env.failing then Configure
                                   else if OpenSource in env.failing then OpenSource
                                   else if DeleteStaleCompacting in env.failing then DeleteStaleCompacting
                                   else DeleteStaleOld))
      && UnchangedExcept(fs, r.fs, {CompactingPath(base), OldPath(base)})
      && (DeleteStaleOld in env.failing ==> (OldPath(base) in r.fs <==> OldPath(base) in fs))
      && NothingSwapped(r.trace) == NothingSwapped(trace)
  {
    SiblingsDistinct(base);
    CompactionSteps(database, base, env, observe, fs, trace);
    if Lock !in env.failing {
      var t := Opening(database, env, observe, trace) + [Acquired];
      StaleSiblingsRemovedBeforeTry(base, env, fs, t);
      GuardedSteps(database, base, env, observe, fs, t);
    }
    EarlyFailureMovesNothing(database, base, env, observe, fs, trace);
  }

  /**
   * Lines 70-71 and 80: when the first rename succeeds and the second fails, the
   * finally deletes `-old`, which by then holds the original data, and `-Compacting`,
   * which holds the compacted copy. None of the three siblings is left: the database
   * is gone from disk.
   */
  lemma SecondMoveFailureLosesBothCopies(database: string, base: Path, env: Environment, observe: bool, fs: FileSystem, trace: seq<Event>)
    requires env.failing == {MoveCompactingToLive}
    requires !env.cancelledBeforeCompaction && !env.cancelledBeforeSwap && env.compactor.outcome.Completed?
    requires base in fs
    ensures var r := Compaction(database, base, env, observe, fs, trace);
      && base !in r.fs && CompactingPath(base) !in r.fs && OldPath(base) !in r.fs
      && UnchangedExcept(fs, r.fs, {base, CompactingPath(base), OldPath(base)})
      && r.outcome == Threw(InvalidOperation(FailureMessage(database), Raised(MoveCompactingToLive)))
  {
    assert Lock !in env.failing && PreparationSucceeds(env) && OpenDestination !in env.failing;
    assert MoveLiveToOld !in env.failing && CleanupCompacting !in env.failing && CleanupOld !in env.failing;
    SiblingsDistinct(base);
    CompactionSteps(database, base, env, observe, fs, trace);
    var t := Opening(database, env, observe, trace) + [Acquired];
    var p := Prepare(base, env, fs, t);
    StaleSiblingsRemovedBeforeTry(base, env, fs, t);
    GuardedSteps(database, base, env, observe, fs, t);
    var b := CompactAndSwap(base, env, observe, p.fs, p.trace);
    SwapRenames(base, env, observe, p.fs, p.trace);
    var c := Cleanup(base, env, Stage(b.fs, b.trace, Wrap(database, b.error)));
    CleanupSteps(base, env, Stage(b.fs, b.trace, Wrap(database, b.error)));
    UnchangedExceptCompose(fs, p.fs, b.fs, {CompactingPath(base), OldPath(base)}, {base, CompactingPath(base), OldPath(base)});
    UnchangedExceptCompose(fs, b.fs, c.fs, {base, CompactingPath(base), OldPath(base)}, {CompactingPath(base), OldPath(base)});
  }

  // ---------------------------------------------------------------------------
  // The unload-and-lock guard

  /** Where a run stands with respect to the guard. */
  datatype GuardPhase = BeforeLock | UnderLock | AfterRelease

  /** The guard's phase after one more event, or None when the event breaks the discipline. */
  function Advance(phase: GuardPhase, e: Event): Option<GuardPhase>
  {
    match e
    case Acquired => if phase == BeforeLock then Some(UnderLock) else None
    case Released => if phase == UnderLock then Some(AfterRelease) else None
    case Measured(_) => if phase != UnderLock then Some(phase) else None
    case Notified(_) => Some(phase)
    case _ => if phase == UnderLock then Some(phase) else None  // directory work and the compactor
  }

  /**
   * The guard's phase at the end of a trace, or None when the trace breaks the
   * discipline: the guard acquired at most once and released once after that,
   * every directory operation and the compactor inside, sizes measured outside.
   */
  function GuardPhaseOf(trace: seq<Event>): Option<GuardPhase>
  {
    if trace == [] then Some(BeforeLock)
    else match GuardPhaseOf(trace[..|trace| - 1])
      case None => None
      case Some(phase) => Advance(phase, trace[|trace| - 1])
  }

  lemma GuardPhaseStep(trace: seq<Event>, e: Event)
    ensures GuardPhaseOf(trace + [e]) == match GuardPhaseOf(trace) case None => None case Some(phase) => Advance(phase, e)
  {
    assert (trace + [e])[..|trace|] == trace;
  }

  /** Relayed notifications do not move the guard. */
  lemma {:induction false} RelayKeepsGuardPhase(trace: seq<Event>, reports: seq<ProgressReport>, observe: bool)
    ensures GuardPhaseOf(trace + Relay(reports, observe)) == GuardPhaseOf(trace)
    decreases |reports|
  {
    if reports == [] {
      assert trace + Relay(reports, observe) == trace;
    } else {
      var init := reports[..|reports| - 1];
      RelayKeepsGuardPhase(trace, init, observe);
      if observe {
        var e := Notified(FromReport(reports[|reports| - 1]));
        assert trace + Relay(reports, observe) == (trace + Relay(init, observe)) + [e];
        GuardPhaseStep(trace + Relay(init, observe), e);
      } else {
        assert trace + Relay(reports, observe) == trace + Relay(init, observe);
      }
    }
  }

  /** Once the compactor starts, the try body's events are the relay, the compactor's return, then the renames attempted. */
  lemma CompactAndSwapTrace(base: Path, env: Environment, observe: bool, fs: FileSystem, trace: seq<Event>)
    requires OpenDestination !in env.failing && !env.cancelledBeforeCompaction
    ensures var relayed := trace + Relay(env.compactor.reports, observe) + [Compacted(CompactingPath(base))];
      var moved := relayed + [Moved(base, OldPath(base))];
      var b := CompactAndSwap(base, env, observe, fs, trace);
      b.trace == relayed || b.trace == moved || b.trace == moved + [Moved(CompactingPath(base), base)]
  {
  }

  /** The deletes before the try are directory work: they keep the guard held. */
  lemma PrepareKeepsGuardHeld(base: Path, env: Environment, fs: FileSystem, trace: seq<Event>)
    requires GuardPhaseOf(trace) == Some(UnderLock)
    ensures GuardPhaseOf(Prepare(base, env, fs, trace).trace) == Some(UnderLock)
  {
    if Configure !in env.failing && OpenSource !in env.failing {
      GuardPhaseStep(trace, Deleted(CompactingPath(base)));
      GuardPhaseStep(trace + [Deleted(CompactingPath(base))], Deleted(OldPath(base)));
    }
  }

  /** The try body keeps the guard held. */
  lemma CompactAndSwapKeepsGuardHeld(base: Path, env: Environment, observe: bool, fs: FileSystem, trace: seq<Event>)
    requires GuardPhaseOf(trace) == Some(UnderLock)
    ensures GuardPhaseOf(CompactAndSwap(base, env, observe, fs, trace).trace) == Some(UnderLock)
  {
    if OpenDestination !in env.failing && !env.cancelledBeforeCompaction {
      var relay := trace + Relay(env.compactor.reports, observe);
      var relayed := relay + [Compacted(CompactingPath(base))];
      RelayKeepsGuardPhase(trace, env.compactor.reports, observe);
      GuardPhaseStep(relay, Compacted(CompactingPath(base)));
      var moved := relayed + [Moved(base, OldPath(base))];
      GuardPhaseStep(relayed, Moved(base, OldPath(base)));
      GuardPhaseStep(moved, Moved(CompactingPath(base), base));
      CompactAndSwapTrace(base, env, observe, fs, trace);
    }
  }

  /** The deletes of the finally keep the guard held. */
  lemma CleanupKeepsGuardHeld(base: Path, env: Environment, s: Stage)
    requires GuardPhaseOf(s.trace) == Some(UnderLock)
    ensures GuardPhaseOf(Cleanup(base, env, s).trace) == Some(UnderLock)
  {
    GuardPhaseStep(s.trace, Deleted(CompactingPath(base)));
    GuardPhaseStep(s.trace + [Deleted(CompactingPath(base))], Deleted(OldPath(base)));
  }

  /** Everything done between acquiring and releasing the guard keeps it held. */
  lemma GuardedKeepsGuardHeld(database: string, base: Path, env: Environment, observe: bool, fs: FileSystem, trace: seq<Event>)
    requires GuardPhaseOf(trace) == Some(UnderLock)
    ensures GuardPhaseOf(Guarded(database, base, env, observe, fs, trace).trace) == Some(UnderLock)
  {
    var p := Prepare(base, env, fs, trace);
    PrepareKeepsGuardHeld(base, env, fs, trace);
    GuardedSteps(database, base, env, observe, fs, trace);
    if p.error.None? {
      var b := CompactAndSwap(base, env, observe, p.fs, p.trace);
      CompactAndSwapKeepsGuardHeld(base, env, observe, p.fs, p.trace);
      CleanupKeepsGuardHeld(base, env, Stage(b.fs, b.trace, Wrap(database, b.error)));
    }
  }

  /** Lines 32-37: the "Started" notification and the size-before measurement come before the guard is taken. */
  lemma OpeningLeavesGuardFree(database: string, env: Environment, observe: bool, trace: seq<Event>)
    requires GuardPhaseOf(trace) == Some(BeforeLock)
    ensures GuardPhaseOf(Opening(database, env, observe, trace)) == Some(BeforeLock)
  {
    var started := if observe then trace + [Notified(StartedSnapshot(database))] else trace;
    GuardPhaseStep(trace, Notified(StartedSnapshot(database)));
    GuardPhaseStep(started, Measured(StorageSize(env.storesBefore)));
  }

  /** Lines 82-85: the guard is released on leaving its block, and size-after is measured after that. */
  lemma ReleaseEndsGuard(database: string, base: Path, env: Environment, observe: bool, fs: FileSystem, trace: seq<Event>)
    requires Lock !in env.failing
    requires GuardPhaseOf(Guarded(database, base, env, observe, fs, Opening(database, env, observe, trace) + [Acquired]).trace)
      == Some(UnderLock)
    ensures GuardPhaseOf(Compaction(database, base, env, observe, fs, trace).trace) == Some(AfterRelease)
  {
    var g := Guarded(database, base, env, observe, fs, Opening(database, env, observe, trace) + [Acquired]);
    var r := Compaction(database, base, env, observe, fs, trace);
    GuardPhaseStep(g.trace, Released);
    if g.error.Some? {
      assert r.trace == g.trace + [Released];
    } else {
      GuardPhaseStep(g.trace + [Released], Measured(StorageSize(env.storesAfter)));
      assert r.trace == g.trace + [Released] + [Measured(StorageSize(env.storesAfter))];
    }
  }

  /**
   * Lines 36-85: over a whole run that starts with no guard held, the guard is taken
   * once (unless taking it fails), released on every exit from its block, all
   * directory work and the compactor happen while it is held, size-before is taken
   * before it and size-after after its release.
   */
  lemma GuardBracketsDirectoryWork(database: string, base: Path, env: Environment, observe: bool, fs: FileSystem, trace: seq<Event>)
    requires GuardPhaseOf(trace) == Some(BeforeLock)
    ensures GuardPhaseOf(Compaction(database, base, env, observe, fs, trace).trace)
      == Some(if Lock in env.failing then BeforeLock else AfterRelease)
  {
    OpeningLeavesGuardFree(database, env, observe, trace);
    if Lock !in env.failing {
      var opening := Opening(database, env, observe, trace);
      GuardPhaseStep(opening, Acquired);
      GuardedKeepsGuardHeld(database, base, env, observe, fs, opening + [Acquired]);
      ReleaseEndsGuard(database, base, env, observe, fs, trace);
    }
  }

  // ---------------------------------------------------------------------------
  // Progress relay

  /** The records the observer is called with, in order. */
  function Notifications(trace: seq<Event>): seq<ProgressSnapshot>
  {
    if trace == [] then []
    else Notifications(trace[..|trace| - 1])
         + (if trace[|trace| - 1].Notified? then [trace[|trace| - 1].snapshot] else [])
  }

  /** The record after each report, in order. */
  function Snapshots(reports: seq<ProgressReport>): seq<ProgressSnapshot>
  {
    if reports == [] then [] else Snapshots(reports[..|reports| - 1]) + [FromReport(reports[|reports| - 1])]
  }

  lemma NotificationsStep(trace: seq<Event>, e: Event)
    ensures Notifications(trace + [e]) == Notifications(trace) + (if e.Notified? then [e.snapshot] else [])
  {
    assert (trace + [e])[..|trace|] == trace;
  }

  /**
   * Lines 57-66: the relay calls the observer once per report, in order, with the
   * record holding exactly that report's six fields; without an observer nobody is called.
   */
  lemma {:induction false} RelayNotifiesEachReport(trace: seq<Event>, reports: seq<ProgressReport>, observe: bool)
    ensures Notifications(trace + Relay(reports, observe)) == Notifications(trace) + (if observe then Snapshots(reports) else [])
    decreases |reports|
  {
    if reports == [] {
      assert trace + Relay(reports, observe) == trace;
    } else {
      var init := reports[..|reports| - 1];
      RelayNotifiesEachReport(trace, init, observe);
      var e := Notified(FromReport(reports[|reports| - 1]));
      RelayLast(trace, reports, observe);
      if observe {
        NotificationsStep(trace + Relay(init, observe), e);
      }
    }
  }

  /** Lines 59-65: after the relay, the record is what the observer was last called with. */
  lemma {:induction false} RecordIsLastNotified(reports: seq<ProgressReport>, before: ProgressSnapshot)
    requires reports != []
    ensures Relay(reports, true)[|reports| - 1] == Notified(RecordAfter(reports, before))
  {
    RelayLast([], reports, true);
    assert Relay(reports, true) == Relay(reports[..|reports| - 1], true) + [Notified(FromReport(reports[|reports| - 1]))];
  }

  /** The relay's last call is for the last report. */
  lemma RelayLast(trace: seq<Event>, reports: seq<ProgressReport>, observe: bool)
    requires reports != []
    ensures trace + Relay(reports, observe) == trace + Relay(reports[..|reports| - 1], observe)
              + (if observe then [Notified(FromReport(reports[|reports| - 1]))] else [])
  {
    assert Relay(reports, observe) == Relay(reports[..|reports| - 1], observe)
              + (if observe then [Notified(FromReport(reports[|reports| - 1]))] else []);
  }

  /** A snapshot is the report it was copied from, field by field. */
  lemma {:induction false} SnapshotsCopyReports(reports: seq<ProgressReport>, i: nat)
    requires i < |reports|
    ensures |Snapshots(reports)| == |reports|
    ensures Snapshots(reports)[i].processed == reports[i].globalProgress
    ensures Snapshots(reports)[i].total == reports[i].globalTotal
    ensures Snapshots(reports)[i].treeProgress == reports[i].treeProgress
    ensures Snapshots(reports)[i].treeTotal == reports[i].treeTotal
    ensures Snapshots(reports)[i].treeName == Some(reports[i].treeName)
    ensures Snapshots(reports)[i].message == reports[i].message
    decreases |reports|
  {
    var init := reports[..|reports| - 1];
    if i < |reports| - 1 {
      SnapshotsCopyReports(init, i);
    } else if i > 0 {
      SnapshotsCopyReports(init, 0);
    }
  }

  /** The deletes before the try notify nobody. */
  lemma PrepareNotifiesNobody(base: Path, env: Environment, fs: FileSystem, trace: seq<Event>)
    ensures Notifications(Prepare(base, env, fs, trace).trace) == Notifications(trace)
  {
    if Configure !in env.failing && OpenSource !in env.failing {
      NotificationsStep(trace, Deleted(CompactingPath(base)));
      NotificationsStep(trace + [Deleted(CompactingPath(base))], Deleted(OldPath(base)));
    }
  }

  /** The try body notifies the observer through the relay only, once the compactor starts. */
  lemma CompactAndSwapNotifications(base: Path, env: Environment, observe: bool, fs: FileSystem, trace: seq<Event>)
    ensures Notifications(CompactAndSwap(base, env, observe, fs, trace).trace)
      == Notifications(trace)
         + (if observe && OpenDestination !in env.failing && !env.cancelledBeforeCompaction
            then Snapshots(env.compactor.reports) else [])
  {
    if OpenDestination !in env.failing && !env.cancelledBeforeCompaction {
      var relay := trace + Relay(env.compactor.reports, observe);
      var relayed := relay + [Compacted(CompactingPath(base))];
      RelayNotifiesEachReport(trace, env.compactor.reports, observe);
      NotificationsStep(relay, Compacted(CompactingPath(base)));
      assert Notifications(relayed) == Notifications(trace) + (if observe then Snapshots(env.compactor.reports) else []);
      var moved := relayed + [Moved(base, OldPath(base))];
      NotificationsStep(relayed, Moved(base, OldPath(base)));
      NotificationsStep(moved, Moved(CompactingPath(base), base));
      CompactAndSwapTrace(base, env, observe, fs, trace);
    }
  }

  /** The deletes of the finally notify nobody. */
  lemma CleanupNotifiesNobody(base: Path, env: Environment, s: Stage)
    ensures Notifications(Cleanup(base, env, s).trace) == Notifications(s.trace)
  {
    NotificationsStep(s.trace, Deleted(CompactingPath(base)));
    NotificationsStep(s.trace + [Deleted(CompactingPath(base))], Deleted(OldPath(base)));
  }

  /** The work under the guard notifies the observer only through the relay, once the compactor starts. */
  lemma GuardedNotifications(database: string, base: Path, env: Environment, observe: bool, fs: FileSystem, trace: seq<Event>)
    ensures Notifications(Guarded(database, base, env, observe, fs, trace).trace)
      == Notifications(trace) + (if observe && PreparationSucceeds(env) && OpenDestination !in env.failing
                                    && !env.cancelledBeforeCompaction
                                 then Snapshots(env.compactor.reports) else [])
  {
    var p := Prepare(base, env, fs, trace);
    PrepareNotifiesNobody(base, env, fs, trace);
    StaleSiblingsRemovedBeforeTry(base, env, fs, trace);
    GuardedSteps(database, base, env, observe, fs, trace);
    if p.error.None? {
      var b := CompactAndSwap(base, env, observe, p.fs, p.trace);
      CompactAndSwapNotifications(base, env, observe, p.fs, p.trace);
      CleanupNotifiesNobody(base, env, Stage(b.fs, b.trace, Wrap(database, b.error)));
    }
  }

  /** Lines 32-37: before the guard is taken the observer has seen the "Started" record only. */
  lemma OpeningNotifications(database: string, env: Environment, observe: bool, trace: seq<Event>)
    ensures Notifications(Opening(database, env, observe, trace))
      == Notifications(trace) + (if observe then [StartedSnapshot(database)] else [])
  {
    var started := if observe then trace + [Notified(StartedSnapshot(database))] else trace;
    NotificationsStep(trace, Notified(StartedSnapshot(database)));
    NotificationsStep(started, Measured(StorageSize(env.storesBefore)));
  }

  /** Lines 79-85: releasing the guard and measuring the size after notify nobody. */
  lemma ReleaseNotifiesNobody(database: string, base: Path, env: Environment, observe: bool, fs: FileSystem, trace: seq<Event>)
    requires Lock !in env.failing
    ensures var g := Guarded(database, base, env, observe, fs, Opening(database, env, observe, trace) + [Acquired]);
      Notifications(Compaction(database, base, env, observe, fs, trace).trace) == Notifications(g.trace)
  {
    var g := Guarded(database, base, env, observe, fs, Opening(database, env, observe, trace) + [Acquired]);
    var r := Compaction(database, base, env, observe, fs, trace);
    NotificationsStep(g.trace, Released);
    if g.error.Some? {
      assert r.trace == g.trace + [Released];
    } else {
      NotificationsStep(g.trace + [Released], Measured(StorageSize(env.storesAfter)));
      assert r.trace == g.trace + [Released] + [Measured(StorageSize(env.storesAfter))];
    }
  }

  /**
   * Lines 32-36 and 57-66: the observer, when there is one, is called first with the
   * "Started database compaction" record, then once per compactor report if the
   * compactor is started, and never otherwise.
   */
  lemma ObserverSeesStartedThenReports(database: string, base: Path, env: Environment, observe: bool, fs: FileSystem, trace: seq<Event>)
    ensures Notifications(Compaction(database, base, env, observe, fs, trace).trace)
      == Notifications(trace)
         + (if observe then [StartedSnapshot(database)] else [])
         + (if observe && CompactorStarts(env) then Snapshots(env.compactor.reports) else [])
  {
    OpeningNotifications(database, env, observe, trace);
    if Lock !in env.failing {
      var opening := Opening(database, env, observe, trace);
      NotificationsStep(opening, Acquired);
      GuardedNotifications(database, base, env, observe, fs, opening + [Acquired]);
      ReleaseNotifiesNobody(database, base, env, observe, fs, trace);
    }
  }

  // ---------------------------------------------------------------------------
  // An end-to-end run

  /** Database "orders" reports 10,485,760 bytes before and 6,291,456 bytes after; the compactor completes. */
  function OrdersEnvironment(built: Contents): Environment
  {
    Environment({}, false, false, CompactorRun([], built, Completed),
                Some([Reported(StorageReport(10485760, []))]),
                Some([Reported(StorageReport(6291456, []))]))
  }

  /** The orders run returns 10 MB before and 6 MB after. */
  lemma OrdersScenarioSizes(built: Contents, fs: FileSystem)
    requires "orders" in fs
    ensures Compaction("orders", "orders", OrdersEnvironment(built), false, fs, []).outcome
      == Returned(CompactionResult(10, 6))
  {
    var env := OrdersEnvironment(built);
    ReportedUnitAdds([], StorageReport(10485760, []));
    ReportedUnitAdds([], StorageReport(6291456, []));
    assert [] + [Reported(StorageReport(10485760, []))] == [Reported(StorageReport(10485760, []))];
    assert [] + [Reported(StorageReport(6291456, []))] == [Reported(StorageReport(6291456, []))];
    SucceedsExactlyWhen("orders", "orders", env, false, fs, []);
    SuccessInstallsCompactedCopy("orders", "orders", env, false, fs, []);
  }

  /**
   * When the database's directories are the only ones around, a successful run leaves
   * exactly one: the live directory, holding what the compactor built, whatever stale
   * siblings were there before.
   */
  lemma SuccessLeavesOnlyLive(database: string, base: Path, env: Environment, observe: bool, fs: FileSystem, trace: seq<Event>)
    requires fs.Keys <= {base, CompactingPath(base), OldPath(base)}
    requires Compaction(database, base, env, observe, fs, trace).outcome.Returned?
    ensures Compaction(database, base, env, observe, fs, trace).fs == map[base := env.compactor.written]
  {
    SuccessInstallsCompactedCopy(database, base, env, observe, fs, trace);
    var r := Compaction(database, base, env, observe, fs, trace);
    assert r.fs.Keys == {base} by {
      forall p | p in r.fs ensures p == base {
      }
    }
  }
}
