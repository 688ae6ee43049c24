/** Reading a window of committed days, one fixed attempt for each, and what a reader sees
    of a day that was compacted. */
module CommittedReader {
  import opened Wrappers
  import opened Collections
  import opened Control
  import opened Coverage
  import opened Archive
  import opened ParquetFiles
  import opened Rewrite
  import opened CompactedDay
  import Compaction
  import Export
  import CommitBarrier

  /** A selected day, and the records found in its files. */
  datatype DayRead = DayRead(day: DayManifest, files: seq<Key>, records: seq<Compaction.Record>)

  /** The day may be selected for the date: a committed attempt that started last. */
  ghost predicate Selects(fs: Store, resource: string, lo: int, hi: int, date: int, day: DayManifest)
    requires WellKeyed(fs)
  {
    IsLatest(Control.Committed(Attempts(fs, resource, lo, hi, date)), Some(day))
  }

  /** Its files, in some order. */
  ghost predicate ListsDay(fs: Store, day: DayManifest, files: seq<Key>)
    requires WellKeyed(fs)
  {
    Lists(files, Inventory(fs, EntryOf(day)).Keys)
  }

  predicate Sound(fs: Store, day: DayManifest, files: seq<Key>, verifyHash: bool)
    requires WellKeyed(fs) && forall k :: k in files <==> k in Inventory(fs, EntryOf(day))
  {
    var stored := StoredAt(Inventory(fs, EntryOf(day)), files);
    && Compaction.AllReadable(stored, |stored|, day.runId, day.date, verifyHash)
    && Compaction.RowsTotal(stored, |stored|) == day.bronzeRecords
  }

  ghost predicate Read(fs: Store, resource: string, lo: int, hi: int, date: int, r: DayRead, verifyHash: bool)
    requires WellKeyed(fs)
  {
    && Selects(fs, resource, lo, hi, date, r.day) && ListsDay(fs, r.day, r.files) && Sound(fs, r.day, r.files, verifyHash)
    && r.records == Compaction.RecordsOf(StoredAt(Inventory(fs, EntryOf(r.day)), r.files), |r.files|)
  }

  /** A date that cannot be read: nothing is committed, or the files of an attempt that may be
      selected are not what it says. */
  ghost predicate Unreadable(fs: Store, resource: string, lo: int, hi: int, date: int, verifyHash: bool)
    requires WellKeyed(fs)
  {
    || Control.Committed(Attempts(fs, resource, lo, hi, date)) == {}
    || exists day, files :: Selects(fs, resource, lo, hi, date, day) && ListsDay(fs, day, files) && !Sound(fs, day, files, verifyHash)
  }

  /** `select_committed_days` and `iter_committed_records`: every date of the window, or an
      error at the first that cannot be read. */
  method ReadCommitted(fs: Store, resource: string, lo: int, hi: int, verifyHash: bool) returns (days: Option<seq<DayRead>>)
    requires WellKeyed(fs)
    ensures days.Some? ==> lo <= hi && |days.value| == hi - lo + 1
                           && forall i :: 0 <= i < |days.value| ==> Read(fs, resource, lo, hi, lo + i, days.value[i], verifyHash)
    ensures days.None? ==> lo > hi || exists date :: lo <= date <= hi && Unreadable(fs, resource, lo, hi, date, verifyHash)
  {
    var coverage := ReadCoverage(fs, resource, lo, hi);
    if coverage.None? {
      return None;
    }
    var found: seq<DayRead> := [];
    for i := 0 to |coverage.value|
      invariant |found| == i && forall j :: 0 <= j < i ==> Read(fs, resource, lo, hi, lo + j, found[j], verifyHash)
    {
      var next := ReadDate(fs, resource, lo, hi, coverage.value[i], verifyHash);
      if next.None? {
        assert Unreadable(fs, resource, lo, hi, lo + i, verifyHash);
        return None;
      }
      found := found + [next.value];
    }
    return Some(found);
  }

  method ReadDate(fs: Store, resource: string, lo: int, hi: int, c: CoverageDay, verifyHash: bool) returns (found: Option<DayRead>)
    requires WellKeyed(fs) && Covers(fs, resource, lo, hi, c)
    ensures found.Some? ==> Read(fs, resource, lo, hi, c.date, found.value, verifyHash)
    ensures found.None? ==> Unreadable(fs, resource, lo, hi, c.date, verifyHash)
  {
    if c.effective.None? {
      return None;
    }
    var day := c.effective.value;
    var files := Export.ListFiles(fs, EntryOf(day));
    assert ListsDay(fs, day, files) && Selects(fs, resource, lo, hi, c.date, day);
    var inventory := Inventory(fs, EntryOf(day));
    var records := Compaction.IterCommitted(StoredAt(inventory, files), day.runId, day.date, day.bronzeRecords, verifyHash);
    if records.None? {
      assert !Sound(fs, day, files, verifyHash);
      return None;
    }
    return Some(DayRead(day, files, records.value));
  }

  /* A compacted day. */

  /** The rows of one table among the first `n` records. */
  function RowsFor(records: seq<Compaction.Record>, table: string): seq<Row> {
    if records == [] then []
    else
      var last := records[|records| - 1];
      RowsFor(records[..|records| - 1], table) + (if last.table == table then [last.row] else [])
  }

  lemma {:induction false} RowsForConcat(a: seq<Compaction.Record>, b: seq<Compaction.Record>, table: string)
    ensures RowsFor(a + b, table) == RowsFor(a, table) + RowsFor(b, table)
  {
    if b == [] {
      assert a + b == a;
    } else {
      RowsForConcat(a, b[..|b| - 1], table);
      assert (a + b)[..|a + b| - 1] == a + b[..|b| - 1];
    }
  }

  lemma {:induction false} RowsForFile(t: string, rows: seq<Row>, table: string)
    ensures RowsFor(Compaction.AsRecords(t, rows), table) == if t == table then rows else []
  {
    if rows != [] {
      var n := |rows| - 1;
      RowsForFile(t, rows[..n], table);
      AsRecordsPrefix(t, rows);
      assert rows == rows[..n] + [rows[n]];
    }
  }

  lemma AsRecordsPrefix(t: string, rows: seq<Row>)
    requires rows != []
    ensures var records, n := Compaction.AsRecords(t, rows), |rows| - 1;
            records[..n] == Compaction.AsRecords(t, rows[..n]) && records[n] == Compaction.Record(t, rows[n])
  {
  }

  /** The records of a table are the rows of its files, in order. */
  lemma {:induction false} RecordsByTable(stored: seq<Compaction.Stored>, n: nat, table: string)
    requires n <= |stored|
    ensures RowsFor(Compaction.RecordsOf(stored, n), table) == Rows(Compaction.FilesUpTo(stored, n, table))
  {
    if n > 0 {
      RecordsByTable(stored, n - 1, table);
      OneFileMore(stored, n, table);
      RowsOfOneMore(stored, n, table);
    }
  }

  lemma OneFileMore(stored: seq<Compaction.Stored>, n: nat, table: string)
    requires 0 < n <= |stored|
    ensures RowsFor(Compaction.RecordsOf(stored, n), table) == RowsFor(Compaction.RecordsOf(stored, n - 1), table) + RowsOf(stored[n - 1], table)
  {
    var last := stored[n - 1];
    RowsForConcat(Compaction.RecordsOf(stored, n - 1), Compaction.AsRecords(last.table, Flatten(last.file.batches)), table);
    RowsForFile(last.table, Flatten(last.file.batches), table);
  }

  lemma RowsOfOneMore(stored: seq<Compaction.Stored>, n: nat, table: string)
    requires 0 < n <= |stored|
    ensures Rows(Compaction.FilesUpTo(stored, n, table)) == Rows(Compaction.FilesUpTo(stored, n - 1, table)) + RowsOf(stored[n - 1], table)
  {
    var before := Compaction.FilesUpTo(stored, n - 1, table);
    if stored[n - 1].table == table {
      Compaction.RowsAppend(before, stored[n - 1].file);
    } else {
      assert Compaction.FilesUpTo(stored, n, table) == before;
    }
  }

  function RowsOf(s: Compaction.Stored, table: string): seq<Row> {
    if s.table == table then Flatten(s.file.batches) else []
  }

  /** No run has a marker for a date outside its range. */
  ghost predicate MarkersInRange(fs: Store, resource: string)
    requires WellKeyed(fs)
  {
    forall d :: HasDay(fs, resource, d) && ReadRun(fs, resource, d.runId).Some? ==>
      ReadRun(fs, resource, d.runId).value.start <= d.date <= ReadRun(fs, resource, d.runId).value.end
  }

  /** Readers of a longer window then see the same attempts of the day. */
  lemma WindowsAgree(fs: Store, resource: string, lo: int, hi: int, date: int)
    requires WellKeyed(fs) && lo <= date <= hi && MarkersInRange(fs, resource)
    ensures Attempts(fs, resource, lo, hi, date) == Attempts(fs, resource, date, date, date)
  {
    forall d ensures d in Attempts(fs, resource, lo, hi, date) <==> d in Attempts(fs, resource, date, date, date) {
      assert d in Attempts(fs, resource, lo, hi, date) ==> HasDay(fs, resource, d);
    }
  }

  /** Per table, the rows of the planned files: absent columns null, the run id replaced. */
  ghost predicate RowsOfBaseline(item: Item, run: RunId, records: seq<Compaction.Record>) {
    && AllParquet(item.files)
    && forall keys, t :: Lists(keys, item.files.Keys) ==>
         var files := Compaction.FilesOf(StoredAt(item.files, keys), t);
         multiset(RowsFor(records, t)) == multiset(RelabelAll(Rows(files), Unified(files, |files|), run))
  }

  /** A compacted day can be read in every window, whatever attempt and order the reader
      picks, and shows the rows of the baseline. */
  lemma CompactedDayReads(fs: Store, item: Item, day: DayManifest, lo: int, hi: int, verifyHash: bool, r: DayRead)
    requires WellKeyed(fs) && DayKept(fs, item, day) && lo <= item.baseline.date <= hi
    requires MarkersInRange(fs, item.baseline.resource) || lo == hi
    ensures !Unreadable(fs, item.baseline.resource, lo, hi, item.baseline.date, verifyHash)
    ensures Read(fs, item.baseline.resource, lo, hi, item.baseline.date, r, verifyHash) ==>
              r.day == day && RowsOfBaseline(item, day.runId, r.records)
  {
    var resource, date := item.baseline.resource, item.baseline.date;
    if lo != hi { WindowsAgree(fs, resource, lo, hi, date); }
    assert Control.Committed(Attempts(fs, resource, lo, hi, date)) == CompactedDay.Committed(fs, item.baseline);
    forall d | Selects(fs, resource, lo, hi, date, d) ensures d == day {
      assert IsLatest(CompactedDay.Committed(fs, item.baseline), Some(d));
    }
    KeptIsSound(fs, item, day, verifyHash);
    assert IsLatest(CompactedDay.Committed(fs, item.baseline), Some(day));
    if Read(fs, resource, lo, hi, date, r, verifyHash) { KeptRecords(fs, item, day, r.files, r.records); }
  }

  lemma KeptIsSound(fs: Store, item: Item, day: DayManifest, verifyHash: bool)
    requires WellKeyed(fs) && DayKept(fs, item, day)
    ensures forall files :: ListsDay(fs, day, files) ==> Sound(fs, day, files, verifyHash)
  {
    var before := AnyListing(item.files.Keys);
    forall files | ListsDay(fs, day, files) ensures Sound(fs, day, files, verifyHash) {
      assert KeepsRows(StoredAt(item.files, before), StoredAt(Inventory(fs, EntryOf(day)), files), day);
    }
  }

  lemma KeptRecords(fs: Store, item: Item, day: DayManifest, files: seq<Key>, records: seq<Compaction.Record>)
    requires WellKeyed(fs) && DayKept(fs, item, day) && ListsDay(fs, day, files)
    requires records == Compaction.RecordsOf(StoredAt(Inventory(fs, EntryOf(day)), files), |files|)
    ensures RowsOfBaseline(item, day.runId, records)
  {
    var after := StoredAt(Inventory(fs, EntryOf(day)), files);
    forall keys, t | Lists(keys, item.files.Keys)
      ensures var files := Compaction.FilesOf(StoredAt(item.files, keys), t);
              multiset(RowsFor(records, t)) == multiset(RelabelAll(Rows(files), Unified(files, |files|), day.runId))
    {
      assert KeepsRows(StoredAt(item.files, keys), after, day);
      RecordsByTable(after, |after|, t);
    }
  }

  /** Any story of a planned day, and then a reader of the day: once a run reported it
      committed, the reader takes the reported attempt and finds the baseline's rows. */
  method StoryThenRead(plan: string, item: Item, targetBytes: int, fs: Store, turns: seq<CommitBarrier.Turn>, verifyHash: bool)
    returns (reported: set<RunId>, days: Option<seq<DayRead>>)
    requires WellKeyed(fs)
    ensures forall run :: run in reported ==>
              days.Some? && |days.value| == 1 && days.value[0].day.runId == run && RowsOfBaseline(item, run, days.value[0].records)
  {
    var resource, date := item.baseline.resource, item.baseline.date;
    var compactor;
    compactor, reported := CommitBarrier.Story(plan, item, targetBytes, fs, turns);
    days := ReadCommitted(compactor.fs, resource, date, date, verifyHash);
    forall run | run in reported
      ensures days.Some? && |days.value| == 1 && days.value[0].day.runId == run && RowsOfBaseline(item, run, days.value[0].records)
    {
      var any := DayRead(item.baseline, [], []);
      CompactedDayReads(compactor.fs, item, compactor.commit.value, date, date, verifyHash, if days.Some? then days.value[0] else any);
    }
  }
}
