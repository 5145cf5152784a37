# Compaction of a RavenDB database, modelled in Dafny

`CompactDatabaseTask.Execute` compacts one database while the database is unloaded and locked.
It does the following, in order:

1. It tells the observer that compaction started.
2. It measures the database's size on disk.
3. It takes the unload-and-lock guard.
4. It removes stale `<base>-Compacting` and `<base>-old` siblings of the data directory `<base>`.
5. It has the storage engine's compactor write a compacted copy into `<base>-Compacting`.
   Each compactor progress report is relayed to the observer.
6. It swaps the copy in with two renames: `<base>` → `<base>-old`, then `<base>-Compacting` → `<base>`.
7. In a `finally`, it deletes both siblings.
8. It releases the guard.
9. It measures the size again.

Any exception of the compaction and swap is rethrown as an `InvalidOperationException`.
That exception names the database and carries the original as its inner cause.
`CalculateStorageSizeInBytes` adds up the allocated bytes of every storage environment of the database.
The sum covers each environment's data file and all of its journals.
It skips an environment whose read transaction is cancelled, and one without a storage report.

The project has five modules:

- `Wrappers`: the `Option` type.
- `Directories`: the file system is a map from directory path to contents.
  Recursive delete and rename are pure functions on it.
  Either primitive can fail with an I/O error.
- `SizeAccountant`: the storage environments as values, and the size-accounting loop as a method.
  The method is proved equal to a recursive sum.
  The module also proves the transaction bookkeeping and the conversion to whole megabytes.
- `CompactionSpec`: one run of `Execute` as a pure function of its inputs.
  The inputs are the database name, the data directory, the file system and an `Environment`.
  The `Environment` holds everything foreign: which steps throw, the two cancellation checkpoints, what the compactor reports and writes, and the storage environments seen at each measurement.
  The function gives the outcome, the final file system and the ordered events of the run.
- `CompactionProperties`: what a run guarantees.
  This covers which directories survive each exit path and which exception escapes.
  It also covers the guard bracketing all directory work, and what the observer is called with.
- `Compaction`: the classes `CompactDatabaseTask` and `CompactionProgress`.
  Their methods update fields in place, as the source does.
  Each method is proved to produce exactly the state and events of the pure model.

## Model

All source paths are in `src/Raven.Server/Documents/CompactDatabaseTask.cs`.

| member | source | states |
|---|---|---|
| Directories.CompactingPath | src/Raven.Server/Documents/CompactDatabaseTask.cs:47 | the scratch directory is the base path followed by `-Compacting` |
| Directories.OldPath | src/Raven.Server/Documents/CompactDatabaseTask.cs:48 | the parking directory is the base path followed by `-old` |
| Directories.SiblingsDistinct | src/Raven.Server/Documents/CompactDatabaseTask.cs:46-48 | the live directory, `-Compacting` and `-old` are three different paths |
| Directories.Delete | src/Raven.Server/Documents/CompactDatabaseTask.cs:47-48 | a delete fails exactly on an I/O fault; otherwise the directory is gone afterwards, whether or not it existed |
| Directories.DeleteLeavesOthers | src/Raven.Server/Documents/CompactDatabaseTask.cs:47-48 | a delete leaves every other directory as it was |
| Directories.Move | src/Raven.Server/Documents/CompactDatabaseTask.cs:70-71 | a rename succeeds exactly when there is no fault, the source exists and the destination does not; the destination then holds the source's contents and the source is gone |
| Directories.MoveLeavesOthers | src/Raven.Server/Documents/CompactDatabaseTask.cs:70-71 | a rename leaves every directory other than its source and destination as it was |
| SizeAccountant.CalculateStorageSizeInBytes | src/Raven.Server/Documents/CompactDatabaseTask.cs:89-124 | the loop returns the sum over the environments of data-file plus journal bytes, with the skip rules; for a null database it returns 0; the transactions it opens and disposes are exactly `Transactions` |
| SizeAccountant.TotalSizeAppend | src/Raven.Server/Documents/CompactDatabaseTask.cs:97-121 | the size of two lists of environments laid end to end is the sum of their sizes |
| SizeAccountant.SkippedUnitAddsNothing | src/Raven.Server/Documents/CompactDatabaseTask.cs:104-112 | an environment that is null, whose read transaction is cancelled, or that has no report can be removed without changing the total |
| SizeAccountant.ReportedUnitAdds | src/Raven.Server/Documents/CompactDatabaseTask.cs:114-115 | an environment with a report adds its data-file bytes plus the sum of its journals' bytes |
| SizeAccountant.ToMb | src/Raven.Server/Documents/CompactDatabaseTask.cs:37 | the size in MB is the largest whole number of mebibytes not above the byte count (truncation) |
| SizeAccountant.SizeExamples | src/Raven.Server/Documents/CompactDatabaseTask.cs:114-115 | 1,000,000 + [200,000, 300,000] bytes sum to 1,500,000, two such environments to 3,000,000; 1,500,000 B is 1 MB, 10,485,760 B is 10 MB |
| SizeAccountant.TxLogInRange | src/Raven.Server/Documents/CompactDatabaseTask.cs:97-104 | every transaction event names an environment of the list |
| SizeAccountant.TransactionsDisposedOnce | src/Raven.Server/Documents/CompactDatabaseTask.cs:99-120 | each environment opens one read transaction when opening succeeds and none otherwise, and each opened transaction is disposed exactly once |
| SizeAccountant.DisposeFollowsOpen | src/Raven.Server/Documents/CompactDatabaseTask.cs:117-120 | every dispose comes right after the open of the same environment's transaction |
| SizeAccountant.JournalSum | src/Raven.Server/Documents/CompactDatabaseTask.cs:114 | the journals' total is at least each journal's allocated bytes; `ReportedUnitAdds` and `SizeExamples` state what it adds up to |
| SizeAccountant.UnitSize | src/Raven.Server/Documents/CompactDatabaseTask.cs:104-115 | only an environment with a report adds anything, and it adds at least its data file's bytes; `SkippedUnitAddsNothing` and `ReportedUnitAdds` state each case |
| SizeAccountant.TotalSize | src/Raven.Server/Documents/CompactDatabaseTask.cs:97-121 | the total is at least what each environment adds; `TotalSizeAppend` makes it additive and `CalculateStorageSizeInBytes` is proved equal to it |
| SizeAccountant.TxLog | src/Raven.Server/Documents/CompactDatabaseTask.cs:99-120 | the loop's transaction events come in pairs, at most one pair per environment; `TxLogInRange`, `TransactionsDisposedOnce` and `DisposeFollowsOpen` state which pairs and in what order |
| CompactionSpec.DeleteStep | src/Raven.Server/Documents/CompactDatabaseTask.cs:47-48 | a delete step records its attempt; it throws the step's own exception exactly when the step faults, leaving the file system as it was, and otherwise the path is gone |
| CompactionSpec.MoveStep | src/Raven.Server/Documents/CompactDatabaseTask.cs:70-71 | a rename step records its attempt; it succeeds exactly when the step does not fault, the source exists and the destination does not, and then the destination holds the source's contents; on failure it throws the step's own exception and changes nothing |
| CompactionSpec.Relay | src/Raven.Server/Documents/CompactDatabaseTask.cs:57-66 | the relay makes one observer call per report when there is an observer and none otherwise; `RelayNotifiesEachReport` states the calls' contents and order |
| CompactionSpec.RecordAfter | src/Raven.Server/Documents/CompactDatabaseTask.cs:59-64 | the record after the relay; `RecordIsLastNotified` states that it is what the observer was last called with, and `RunCompactor` that the loop leaves the record so |
| CompactionSpec.Wrap | src/Raven.Server/Documents/CompactDatabaseTask.cs:73-76 | the catch rethrows every exception of the try body as an InvalidOperation with the database's failure message and the original as inner cause, and passes a normal exit through; `FailureBeforeSwapKeepsLive` states it for a whole run |
| CompactionSpec.Prepare | src/Raven.Server/Documents/CompactDatabaseTask.cs:41-48 | configuration, source options and the stale deletes; `StaleSiblingsRemovedBeforeTry`, `PrepareKeepsGuardHeld` and `PrepareNotifiesNobody` state its properties |
| CompactionSpec.CompactAndSwap | src/Raven.Server/Documents/CompactDatabaseTask.cs:52-71 | the try body; `SwapNotReached`, `SwapRenames`, `CompactAndSwapTrace`, `CompactAndSwapKeepsGuardHeld` and `CompactAndSwapNotifications` state its properties |
| CompactionSpec.Cleanup | src/Raven.Server/Documents/CompactDatabaseTask.cs:77-81 | the finally; `CleanupSteps`, `CleanupFaultReplacesOutcome`, `CleanupKeepsGuardHeld` and `CleanupNotifiesNobody` state its properties |
| CompactionSpec.Guarded | src/Raven.Server/Documents/CompactDatabaseTask.cs:41-82 | the work under the guard; `GuardedKeepsGuardHeld` and `GuardedNotifications` state its properties |
| CompactionSpec.Opening | src/Raven.Server/Documents/CompactDatabaseTask.cs:32-37 | the "Started" notification and the size-before measurement; `OpeningLeavesGuardFree` and `OpeningNotifications` state its properties |
| CompactionSpec.Compaction | src/Raven.Server/Documents/CompactDatabaseTask.cs:30-87 | one whole run; `SucceedsExactlyWhen`, `SuccessInstallsCompactedCopy`, `FailureBeforeSwapKeepsLive`, `EarlyFailureEscapesUnwrapped`, `GuardBracketsDirectoryWork` and `ObserverSeesStartedThenReports` state its properties, and `Execute` is proved to match it |
| CompactionProperties.StaleSiblingsRemovedBeforeTry | src/Raven.Server/Documents/CompactDatabaseTask.cs:41-48 | preparation succeeds exactly when configuration, the source options and both stale deletes succeed; then neither sibling exists; the live directory and every other directory are untouched; a failure is the step's own exception |
| CompactionProperties.CleanupSteps | src/Raven.Server/Documents/CompactDatabaseTask.cs:77-81 | the finally removes `-Compacting` then `-old`; a failing delete throws its own exception in place of the pending one and skips the rest |
| CompactionProperties.SwapNotReached | src/Raven.Server/Documents/CompactDatabaseTask.cs:52-69 | when the body stops before the first rename, the live directory is unchanged and the body's exception is the original cause |
| CompactionProperties.SwapRenames | src/Raven.Server/Documents/CompactDatabaseTask.cs:69-71 | the outcome of the two renames: the first fails and leaves the live directory alone, or the second fails with the live directory moved to `-old`, or both succeed and the live path holds the compacted copy |
| CompactionProperties.SucceedsExactlyWhen | src/Raven.Server/Documents/CompactDatabaseTask.cs:30-87 | a run returns normally exactly when no step throws, the token is not cancelled at line 56 or 69, the compactor completes and the live directory exists |
| CompactionProperties.SuccessInstallsCompactedCopy | src/Raven.Server/Documents/CompactDatabaseTask.cs:57-85 | after success the live path holds what the compactor wrote, both siblings are gone, nothing else changed, and the result holds both sizes in MB |
| CompactionProperties.FailureBeforeSwapKeepsLive | src/Raven.Server/Documents/CompactDatabaseTask.cs:53-81 | a destination failure, a cancellation or a compactor failure keeps the live directory and its contents; with a clean finally both siblings are gone and the exception is the wrapped original cause |
| CompactionProperties.CleanupFaultReplacesOutcome | src/Raven.Server/Documents/CompactDatabaseTask.cs:77-81 | a failing delete in the finally replaces both the wrapped failure and a normal return with its own exception |
| CompactionProperties.EarlyFailureMovesNothing | src/Raven.Server/Documents/CompactDatabaseTask.cs:39-48 | a run that fails before the try adds neither a rename nor a compactor run to the trace |
| CompactionProperties.EarlyFailureEscapesUnwrapped | src/Raven.Server/Documents/CompactDatabaseTask.cs:39-48 | a failure of the guard, the configuration, the source options or a stale delete escapes unwrapped, as the exception of the first of these steps that fails; the finally does not run, so an undeletable stale `-old` survives; only the two siblings may have changed |
| CompactionProperties.SecondMoveFailureLosesBothCopies | src/Raven.Server/Documents/CompactDatabaseTask.cs:70-80 | if only the second rename fails, the finally deletes `-old`, which now holds the original, and `-Compacting`, which holds the copy; no copy of the database is left |
| CompactionProperties.RelayKeepsGuardPhase | src/Raven.Server/Documents/CompactDatabaseTask.cs:57-66 | relayed notifications do not move the guard |
| CompactionProperties.CompactAndSwapTrace | src/Raven.Server/Documents/CompactDatabaseTask.cs:57-71 | once the compactor starts, the body's events are the relay, the compactor's return and the renames it attempted, in that order |
| CompactionProperties.PrepareKeepsGuardHeld | src/Raven.Server/Documents/CompactDatabaseTask.cs:41-48 | the stale deletes happen while the guard is held |
| CompactionProperties.CompactAndSwapKeepsGuardHeld | src/Raven.Server/Documents/CompactDatabaseTask.cs:52-71 | the compactor and the renames happen while the guard is held |
| CompactionProperties.CleanupKeepsGuardHeld | src/Raven.Server/Documents/CompactDatabaseTask.cs:77-81 | the deletes of the finally happen while the guard is held |
| CompactionProperties.GuardedKeepsGuardHeld | src/Raven.Server/Documents/CompactDatabaseTask.cs:41-82 | all work of the guarded block happens while the guard is held |
| CompactionProperties.OpeningLeavesGuardFree | src/Raven.Server/Documents/CompactDatabaseTask.cs:32-37 | the "Started" notification and the size-before measurement come before the guard is taken |
| CompactionProperties.ReleaseEndsGuard | src/Raven.Server/Documents/CompactDatabaseTask.cs:83-85 | the guard is released on leaving its block, whether the block throws or not, and size-after is measured after the release |
| CompactionProperties.GuardBracketsDirectoryWork | src/Raven.Server/Documents/CompactDatabaseTask.cs:36-85 | over a whole run the guard is taken at most once and released on every exit; all directory work and the compactor happen under it; both measurements happen outside it |
| CompactionProperties.RelayNotifiesEachReport | src/Raven.Server/Documents/CompactDatabaseTask.cs:57-66 | the relay calls the observer once per report, in order, with that report's fields; without an observer it calls nobody |
| CompactionProperties.RecordIsLastNotified | src/Raven.Server/Documents/CompactDatabaseTask.cs:59-65 | after the relay, the record holds what the observer was last called with |
| CompactionProperties.SnapshotsCopyReports | src/Raven.Server/Documents/CompactDatabaseTask.cs:59-64 | the record passed for the i-th report holds exactly its six fields |
| CompactionProperties.PrepareNotifiesNobody | src/Raven.Server/Documents/CompactDatabaseTask.cs:41-48 | preparation calls no observer |
| CompactionProperties.CompactAndSwapNotifications | src/Raven.Server/Documents/CompactDatabaseTask.cs:52-71 | the try body calls the observer only through the relay, and only once the compactor starts |
| CompactionProperties.CleanupNotifiesNobody | src/Raven.Server/Documents/CompactDatabaseTask.cs:77-81 | the finally calls no observer |
| CompactionProperties.GuardedNotifications | src/Raven.Server/Documents/CompactDatabaseTask.cs:41-82 | the guarded block calls the observer with exactly the compactor's reports, if it gets as far as starting the compactor |
| CompactionProperties.OpeningNotifications | src/Raven.Server/Documents/CompactDatabaseTask.cs:32-37 | before the guard the observer sees only the "Started" record |
| CompactionProperties.ReleaseNotifiesNobody | src/Raven.Server/Documents/CompactDatabaseTask.cs:83-85 | the release and the size-after measurement call no observer |
| CompactionProperties.ObserverSeesStartedThenReports | src/Raven.Server/Documents/CompactDatabaseTask.cs:32-66 | the observer is called first with the "Started" record, then once per report if the compactor starts, and never otherwise |
| CompactionProperties.OrdersScenarioSizes | src/Raven.Server/Documents/CompactDatabaseTask.cs:30-87 | a clean compaction of "orders" from 10,485,760 to 6,291,456 bytes returns 10 MB before and 6 MB after |
| CompactionProperties.SuccessLeavesOnlyLive | src/Raven.Server/Documents/CompactDatabaseTask.cs:46-81 | when only the database's own three directories exist, success leaves just the live one, holding the compacted copy |
| Compaction.CompactionProgress.constructor | src/Raven.Server/Documents/CompactDatabaseTask.cs:32-35 | a fresh progress record carries only the "Started" message; every other field has its default |
| Compaction.CompactionProgress.Update | src/Raven.Server/Documents/CompactDatabaseTask.cs:59-64 | the relay overwrites exactly the six fields of the record with those of the report |
| Compaction.CompactDatabaseTask.constructor | src/Raven.Server/Documents/CompactDatabaseTask.cs:23-28 | a new task holds the database's name, its directory and the file system it works on, holds no guard, has recorded no events and has both result sizes at 0 |
| Compaction.CompactDatabaseTask.DeleteDirectory | src/Raven.Server/Documents/CompactDatabaseTask.cs:47-48 | under the guard, a delete updates the file system and the events as the model's delete step does |
| Compaction.CompactDatabaseTask.MoveDirectory | src/Raven.Server/Documents/CompactDatabaseTask.cs:70-71 | under the guard, a rename updates the file system and the events as the model's rename step does |
| Compaction.CompactDatabaseTask.RunCompactor | src/Raven.Server/Documents/CompactDatabaseTask.cs:57-66 | the loop over the compactor's reports copies each report into the shared record and notifies the observer per report; afterwards the record holds the last report's fields (or is unchanged when there were none) and `-Compacting` holds what was written |
| Compaction.CompactDatabaseTask.TryCompactAndSwap | src/Raven.Server/Documents/CompactDatabaseTask.cs:52-71 | the try body leaves the state, the events and the exception of the model's try body; the record holds the last report's fields once the compactor has started |
| Compaction.CompactDatabaseTask.RunGuarded | src/Raven.Server/Documents/CompactDatabaseTask.cs:41-82 | the guarded block, with its catch and finally, leaves the state, events and exception of the model's guarded work; the record is left as the relay leaves it |
| Compaction.CompactDatabaseTask.Execute | src/Raven.Server/Documents/CompactDatabaseTask.cs:30-87 | a request's outcome, final file system and events are those of the model's run; the guard is no longer held afterwards; the result fields hold the sizes in MB |

## Left out

- The implementations of `IOExtensions.DeleteDirectory` and `IOExtensions.MoveDirectory` are not part of the source.
  The model treats Delete as a recursive delete that tolerates a missing directory.
  It treats Move as a rename that throws when the source is missing or the destination exists.
  Any other I/O error is a per-step fault flag.
- A delete that fails is taken to leave its directory whole.
  A real recursive delete can fail after removing part of the directory; the model does not capture that partial state.
- Every directory path is independent of the others: no directory of the model lies under another.
  A rename or delete in the model does not carry along paths nested under it, so "every other directory is unchanged" holds only for file systems without such nesting.
- The observer is taken never to throw.
  A throw at line 36 would leave `Execute` before the size-before measurement and before the guard is taken; no `Environment` expresses it.
  A throw at line 65 corresponds to a compactor that ends with `Failed`.
- `UnloadAndLockDatabase`, `CreateDatabaseConfiguration`, `GetStorageEnvironmentOptionsFromConfiguration` and `StorageCompaction.Execute` are foreign code.
  Each is a step that may throw, chosen by the `Environment`.
  The compactor is what it reports, what it writes and how it ends.
  Its internals, and the storage options it reads, are not modelled.
- The storage options `src` and `dst` are disposed on leaving their `using` blocks, but their disposal is not modelled.
  The same goes for the `CatastrophicFailureNotification` callbacks.
- The database is unloaded while the guard is held, and other requests are kept out.
  That is, concurrency and exclusivity are not modelled.
  The guard is a held flag plus acquire and release events, so the model shows only that the work happens between them.
- `async`/`await` and the `CancellationToken` are not modelled as such.
  The token is read at two checkpoints (lines 56 and 69), each modelled as a boolean of the `Environment`.
  A cancellation seen inside the compactor is one of its outcomes.
- `TryGetOrCreateResourceStore`, `GetAllStoragesEnvironment`, `ReadTransaction` and `GenerateReport` are not modelled.
  Their results are the storage-unit list passed to the size loop.
  An exception they might throw, other than the cancelled read transaction, is not modelled.
  Such an exception escapes the size loop; at line 85 it would fail a request whose compacted copy is already installed.
- SizeAccountant.CalculateStorageSizeInBytes: the `long` accumulator is an unbounded natural number, so the model has no 64-bit overflow.
  Allocated sizes are assumed to fit.
- `DatabaseCompactionResult.Instance` is a process-wide singleton.
  The model keeps its two fields on the task object, so sharing between concurrent requests is not modelled.
- A crash between the two renames, and recovery on the next start, are not modelled.
- The compactor's progress values are copied as given.
  Their monotonicity is a property of the compactor and is not stated.
- Compaction.CompactDatabaseTask.Execute: the observer is modelled by the records it is called with.
  The source passes the same mutable record each time, so an observer that keeps the reference sees later overwrites; the model does not capture that aliasing.
- When only the second rename fails, the original data is lost, and this is modelled as written, not corrected.
  `-old` holds the original by then, and the finally deletes it.
  `CompactionProperties.SecondMoveFailureLosesBothCopies` states the loss.
