/**
 * The storage size accountant: CalculateStorageSizeInBytes sums, over the storage
 * environments of a database, the allocated bytes of the data file and of every
 * journal, skipping environments it cannot read, and disposes every read
 * transaction it opens.
 */
module SizeAccountant {
  import opened Wrappers

  /** What GenerateReport yields: allocated bytes of the data file and of each journal. */
  datatype StorageReport = StorageReport(dataFileBytes: nat, journalBytes: seq<nat>)

  /** One entry of GetAllStoragesEnvironment, as the size loop meets it. */
  datatype StorageUnit =
    | Absent                           // a null entry: no transaction, no report
    | CancelledOnOpen                  // ReadTransaction throws OperationCanceledException
    | NoReport                         // a transaction opens, GenerateReport yields null
    | Reported(report: StorageReport)  // a transaction opens and a report comes back

  /** `Journals.Sum(j => j.AllocatedSpaceInBytes)`. */
  function JournalSum(journals: seq<nat>): (r: nat)
    ensures forall i :: 0 <= i < |journals| ==> journals[i] <= r
  {
    if journals == [] then 0 else JournalSum(journals[..|journals| - 1]) + journals[|journals| - 1]
  }

  /** What one unit adds to the total: its report's data file plus journals, or nothing. */
  function UnitSize(u: StorageUnit): (r: nat)
    ensures r > 0 ==> u.Reported?
    ensures u.Reported? ==> u.report.dataFileBytes <= r
  {
    match u
    case Reported(r) => r.dataFileBytes + JournalSum(r.journalBytes)
    case _ => 0
  }

  /** The sum of UnitSize over the units, in order. */
  function TotalSize(units: seq<StorageUnit>): (r: nat)
    ensures forall i :: 0 <= i < |units| ==> UnitSize(units[i]) <= r
  {
    if units == [] then 0 else TotalSize(units[..|units| - 1]) + UnitSize(units[|units| - 1])
  }

  /** The size of a database; `None` is a database (or storage list) that is null. */
  function StorageSize(environments: Option<seq<StorageUnit>>): nat
  {
    match environments
    case None => 0
    case Some(units) => TotalSize(units)
  }

  /** Whether the loop opens a read transaction for this unit. */
  predicate OpensTransaction(u: StorageUnit)
  {
    u.NoReport? || u.Reported?
  }

  /** Opening and disposing the read transaction of the unit at index `unit`. */
  datatype TxEvent = Opened(unit: nat) | Disposed(unit: nat)

  /** The transaction events of one unit: an opened transaction is disposed right after its use. */
  function UnitTransactions(u: StorageUnit, index: nat): seq<TxEvent>
  {
    if OpensTransaction(u) then [Opened(index), Disposed(index)] else []
  }

  /** The transaction events of the whole loop. */
  function TxLog(units: seq<StorageUnit>): (r: seq<TxEvent>)
    ensures |r| <= 2 * |units| && |r| % 2 == 0
  {
    if units == [] then []
    else TxLog(units[..|units| - 1]) + UnitTransactions(units[|units| - 1], |units| - 1)
  }

  function Transactions(environments: Option<seq<StorageUnit>>): seq<TxEvent>
  {
    match environments
    case None => []
    case Some(units) => TxLog(units)
  }

  /**
   * CalculateStorageSizeInBytes once the landlord has resolved the database:
   * `environments` is what `database?.GetAllStoragesEnvironment()` yields.
   * `transactions` records every transaction opened and disposed, in order.
   */
  method CalculateStorageSizeInBytes(environments: Option<seq<StorageUnit>>)
    returns (sizeOnDiskInBytes: nat, transactions: seq<TxEvent>)
    ensures sizeOnDiskInBytes == StorageSize(environments)
    ensures transactions == Transactions(environments)
  {
    sizeOnDiskInBytes := 0;
    transactions := [];
    if environments.None? {
      return;
    }
    var units := environments.value;
    for i := 0 to |units|
      invariant sizeOnDiskInBytes == TotalSize(units[..i])
      invariant transactions == TxLog(units[..i])
    {
      assert units[..i + 1][..i] == units[..i];
      var environment := units[i];
      var tx: Option<nat> := None;
      // ReadTransaction: a null environment leaves tx null, a cancelled one skips the unit
      if !environment.CancelledOnOpen? {
        if !environment.Absent? {
          tx := Some(i);
          transactions := transactions + [Opened(i)];
        }
        // GenerateReport: null for a null environment and for NoReport
        if environment.Reported? {
          var report := environment.report;
          var journalSize := JournalSum(report.journalBytes);
          sizeOnDiskInBytes := sizeOnDiskInBytes + report.dataFileBytes + journalSize;
        }
      }
      // finally: tx?.Dispose()
      if tx.Some? {
        transactions := transactions + [Disposed(tx.value)];
      }
    }
    assert units[..|units|] == units;
  }

  /** The size of two runs of units laid end to end is the sum of their sizes. */
  lemma {:induction false} TotalSizeAppend(a: seq<StorageUnit>, b: seq<StorageUnit>)
    ensures TotalSize(a + b) == TotalSize(a) + TotalSize(b)
    decreases |b|
  {
    if b == [] {
      assert a + b == a;
    } else {
      var b' := b[..|b| - 1];
      assert (a + b)[..|a + b| - 1] == a + b';
      TotalSizeAppend(a, b');
    }
  }

  /**
   * The skip rules: a null unit, a unit whose transaction is cancelled and a unit
   * without report add nothing; taking one out leaves the total as it was.
   */
  lemma SkippedUnitAddsNothing(units: seq<StorageUnit>, k: nat)
    requires k < |units| && !units[k].Reported?
    ensures TotalSize(units) == TotalSize(units[..k] + units[k + 1..])
  {
    assert units == units[..k] + [units[k]] + units[k + 1..];
    TotalSizeAppend(units[..k] + [units[k]], units[k + 1..]);
    TotalSizeAppend(units[..k], [units[k]]);
    TotalSizeAppend(units[..k], units[k + 1..]);
    assert TotalSize([units[k]]) == TotalSize([]) + UnitSize(units[k]);
  }

  /** A unit with a report adds its data file bytes and the bytes of all its journals. */
  lemma ReportedUnitAdds(units: seq<StorageUnit>, r: StorageReport)
    ensures TotalSize(units + [Reported(r)]) == TotalSize(units) + r.dataFileBytes + JournalSum(r.journalBytes)
  {
    assert (units + [Reported(r)])[..|units|] == units;
  }

  /** Whole megabytes as `bytes / 1024 / 1024`: the division truncates. */
  function ToMb(bytes: nat): (mb: nat)
    ensures mb * 1048576 <= bytes < (mb + 1) * 1048576
  {
    bytes / 1024 / 1024
  }

  /** The arithmetic examples: one unit of 1,000,000 + [200,000, 300,000] bytes, two such units, and truncation. */
  lemma SizeExamples()
    ensures TotalSize([Reported(StorageReport(1000000, [200000, 300000]))]) == 1500000
    ensures TotalSize([Reported(StorageReport(1000000, [200000, 300000])), Reported(StorageReport(1000000, [200000, 300000]))]) == 3000000
    ensures ToMb(1500000) == 1 && ToMb(10485760) == 10 && ToMb(6291456) == 6
  {
    var u := Reported(StorageReport(1000000, [200000, 300000]));
    assert [200000, 300000][..1] == [200000] && [200000][..0] == [];
    assert JournalSum([200000, 300000]) == 500000;
    assert [u, u][..1] == [u] && [u][..0] == [];
  }

  /** Every transaction event of the loop names a unit that exists. */
  lemma {:induction false} TxLogInRange(units: seq<StorageUnit>)
    ensures forall e :: e in TxLog(units) ==> e.unit < |units|
    decreases |units|
  {
    if units != [] {
      TxLogInRange(units[..|units| - 1]);
    }
  }

  /**
   * Every transaction the loop opens is disposed exactly once, and none is disposed
   * without being opened: the unit at `k` opens and disposes one transaction when
   * ReadTransaction succeeds for it, and none otherwise.
   */
  lemma {:induction false} TransactionsDisposedOnce(units: seq<StorageUnit>, k: nat)
    requires k < |units|
    ensures multiset(TxLog(units))[Opened(k)] == (if OpensTransaction(units[k]) then 1 else 0)
    ensures multiset(TxLog(units))[Disposed(k)] == multiset(TxLog(units))[Opened(k)]
    decreases |units|
  {
    var n := |units| - 1;
    var prefix := units[..n];
    var before := multiset(TxLog(prefix));
    var last := multiset(UnitTransactions(units[n], n));
    assert TxLog(units) == TxLog(prefix) + UnitTransactions(units[n], n);
    assert multiset(TxLog(units)) == before + last;
    TxLogInRange(prefix);
    if k == n {
      assert Opened(k) !in TxLog(prefix) && Disposed(k) !in TxLog(prefix);
      assert before[Opened(k)] == 0 && before[Disposed(k)] == 0;
    } else {
      TransactionsDisposedOnce(prefix, k);
      assert units[k] == prefix[k];
      assert last[Opened(k)] == 0 && last[Disposed(k)] == 0;
    }
  }

  /** A transaction is disposed immediately after the one unit that opened it is done with it. */
  lemma {:induction false} DisposeFollowsOpen(units: seq<StorageUnit>)
    ensures forall j :: 0 <= j < |TxLog(units)| && TxLog(units)[j].Disposed? ==>
      0 < j && TxLog(units)[j - 1] == Opened(TxLog(units)[j].unit)
    decreases |units|
  {
    if units != [] {
      DisposeFollowsOpen(units[..|units| - 1]);
    }
  }
}
