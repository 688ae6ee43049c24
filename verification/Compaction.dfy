/** Compacting the files of a day, and what a reader of the committed day sees of it. */
module Compaction {
  import opened Wrappers
  import opened Collections
  import opened ParquetFiles
  import opened Rewrite

  datatype Stored = Stored(table: string, file: ParquetFile)

  /** The files of one table among the first `n`, in order. */
  function FilesUpTo(stored: seq<Stored>, n: nat, table: string): seq<ParquetFile>
    requires n <= |stored|
  {
    if n == 0 then []
    else FilesUpTo(stored, n - 1, table) + (if stored[n - 1].table == table then [stored[n - 1].file] else [])
  }

  function FilesOf(stored: seq<Stored>, table: string): seq<ParquetFile> { FilesUpTo(stored, |stored|, table) }

  function TableRows(stored: seq<Stored>, table: string): seq<Row> { Rows(FilesOf(stored, table)) }

  function RowsTotal(stored: seq<Stored>, n: nat): nat
    requires n <= |stored|
  {
    if n == 0 then 0 else RowsTotal(stored, n - 1) + |Flatten(stored[n - 1].file.batches)|
  }

  /* `iter_committed_records` */

  datatype Record = Record(table: string, row: Row)

  function AsRecords(table: string, rows: seq<Row>): (records: seq<Record>)
    ensures |records| == |rows| && forall i :: 0 <= i < |rows| ==> records[i] == Record(table, rows[i])
  {
    seq(|rows|, i requires 0 <= i < |rows| => Record(table, rows[i]))
  }

  /** The records of the first `n` files. */
  function RecordsOf(stored: seq<Stored>, n: nat): seq<Record>
    requires n <= |stored|
  {
    if n == 0 then []
    else RecordsOf(stored, n - 1) + AsRecords(stored[n - 1].table, Flatten(stored[n - 1].file.batches))
  }

  predicate AllReadable(stored: seq<Stored>, n: nat, runId: string, date: int, verifyHash: bool)
    requires n <= |stored|
  {
    forall i :: 0 <= i < n ==>
      forall j :: 0 <= j < |Flatten(stored[i].file.batches)| ==>
        Readable(Flatten(stored[i].file.batches)[j], runId, date, verifyHash)
  }

  /** Every record of the selection, when its lineage, hashes and number are right. */
  method IterCommitted(stored: seq<Stored>, runId: string, date: int, expected: nat, verifyHash: bool)
    returns (records: Option<seq<Record>>)
    ensures records.Some? <==> AllReadable(stored, |stored|, runId, date, verifyHash) && RowsTotal(stored, |stored|) == expected
    ensures records.Some? ==> records.value == RecordsOf(stored, |stored|)
  {
    var found: seq<Record> := [];
    var count := 0;
    for i := 0 to |stored|
      invariant AllReadable(stored, i, runId, date, verifyHash)
      invariant found == RecordsOf(stored, i) && count == RowsTotal(stored, i)
    {
      var rows := Flatten(stored[i].file.batches);
      for j := 0 to |rows|
        invariant forall k :: 0 <= k < j ==> Readable(rows[k], runId, date, verifyHash)
      {
        if !Readable(rows[j], runId, date, verifyHash) {
          return None;
        }
      }
      found := found + AsRecords(stored[i].table, rows);
      count := count + |rows|;
    }
    if count != expected {
      return None;
    }
    return Some(found);
  }

  /* Any listing order. */

  /** The rows of a table as a bag, file by file. */
  function Bag(stored: seq<Stored>, n: nat, table: string): multiset<Row>
    requires n <= |stored|
  {
    if n == 0 then multiset{} else Bag(stored, n - 1, table) + BagOf(stored[n - 1], table)
  }

  function BagOf(s: Stored, table: string): multiset<Row> {
    if s.table == table then multiset(Flatten(s.file.batches)) else multiset{}
  }

  lemma {:induction false} BagRows(stored: seq<Stored>, n: nat, table: string)
    requires n <= |stored|
    ensures multiset(Rows(FilesUpTo(stored, n, table))) == Bag(stored, n, table)
  {
    if n > 0 {
      var before, last := FilesUpTo(stored, n - 1, table), stored[n - 1];
      BagRows(stored, n - 1, table);
      if last.table == table {
        RowsAppend(before, last.file);
        assert FilesUpTo(stored, n, table) == before + [last.file];
      } else {
        assert FilesUpTo(stored, n, table) == before;
      }
    }
  }

  lemma RowsAppend(files: seq<ParquetFile>, file: ParquetFile)
    ensures Rows(files + [file]) == Rows(files) + Flatten(file.batches)
  {
    RowsFrame(files, files + [file], |files|);
  }

  lemma {:induction false} RowsFrame(files: seq<ParquetFile>, more: seq<ParquetFile>, n: nat)
    requires n <= |files| <= |more| && forall i :: 0 <= i < n ==> files[i] == more[i]
    ensures RowsUpTo(files, n) == RowsUpTo(more, n)
  {
    if n > 0 { RowsFrame(files, more, n - 1); }
  }

  lemma {:induction false} BagFrame(a: seq<Stored>, b: seq<Stored>, n: nat, table: string)
    requires n <= |a| && n <= |b| && forall i :: 0 <= i < n ==> a[i] == b[i]
    ensures Bag(a, n, table) == Bag(b, n, table)
  {
    if n > 0 { BagFrame(a, b, n - 1, table); }
  }

  /** Taking one file out takes its rows out. */
  lemma {:induction false} BagWithout(b: seq<Stored>, rest: seq<Stored>, i: nat, n: nat, table: string)
    requires i < n <= |b| && |rest| == |b| - 1
    requires (forall j :: 0 <= j < i ==> rest[j] == b[j]) && (forall j :: i <= j < |rest| ==> rest[j] == b[j + 1])
    ensures Bag(b, n, table) == Bag(rest, n - 1, table) + BagOf(b[i], table)
  {
    if n == i + 1 {
      BagFrame(b, rest, i, table);
    } else {
      BagWithout(b, rest, i, n - 1, table);
      assert rest[n - 2] == b[n - 1];
      Swap(Bag(rest, n - 2, table), BagOf(b[i], table), BagOf(b[n - 1], table));
    }
  }

  lemma Swap<T>(a: multiset<T>, b: multiset<T>, c: multiset<T>)
    ensures a + b + c == a + c + b
  {
  }

  /** The last element of one ordering, taken out of the other. */
  lemma TakeOut<T>(a: seq<T>, b: seq<T>) returns (i: nat, rest: seq<T>)
    requires a != [] && multiset(a) == multiset(b)
    ensures i < |b| && b[i] == a[|a| - 1] && |rest| == |b| - 1 && multiset(rest) == multiset(a[..|a| - 1])
    ensures (forall j :: 0 <= j < i ==> rest[j] == b[j]) && (forall j :: i <= j < |rest| ==> rest[j] == b[j + 1])
  {
    var init, x := a[..|a| - 1], a[|a| - 1];
    assert a == init + [x];
    assert x in multiset(b);
    i :| 0 <= i < |b| && b[i] == x;
    rest := b[..i] + b[i + 1..];
    assert b == b[..i] + [x] + b[i + 1..];
    assert multiset(b) == multiset(rest) + multiset{x};
    Cancel(multiset(rest), multiset(init), x);
  }

  lemma Cancel<T>(a: multiset<T>, b: multiset<T>, x: T)
    requires a + multiset{x} == b + multiset{x}
    ensures a == b
  {
    forall y ensures a[y] == b[y] { assert (a + multiset{x})[y] == (b + multiset{x})[y]; }
  }

  /** The order files are listed in does not matter. */
  lemma {:induction false} BagOrderFree(a: seq<Stored>, b: seq<Stored>, table: string)
    requires multiset(a) == multiset(b)
    ensures Bag(a, |a|, table) == Bag(b, |b|, table)
    decreases |a|
  {
    assert |a| == |multiset(a)| == |multiset(b)| == |b|;
    if a != [] {
      var n := |a| - 1;
      var i, rest := TakeOut(a, b);
      BagOrderFree(a[..n], rest, table);
      BagFrame(a, a[..n], n, table);
      BagWithout(b, rest, i, |b|, table);
    }
  }

  /* Compacting a day. */

  /** Per table, the new files are a rewrite of the old ones; tables without files stay so. */
  ghost predicate Compacts(before: seq<Stored>, after: seq<Stored>, runId: string) {
    forall t :: if FilesOf(before, t) == [] then FilesOf(after, t) == [] else IsRewrite(FilesOf(before, t), FilesOf(after, t), runId)
  }

  datatype DayResult = Refused | NoBenefit | Compacted(outputs: seq<Stored>)

  /** Every table can be rewritten. */
  ghost predicate AllRewritable(before: seq<Stored>, runId: string, date: int) {
    forall t :: FilesOf(before, t) != [] ==> Rewritable(before, t, runId, date)
  }

  ghost predicate Rewritable(before: seq<Stored>, table: string, runId: string, date: int) {
    SchemaOk(FilesOf(before, table)) && RowsOk(TableRows(before, table), runId, date)
  }

  function Tagged(table: string, files: seq<ParquetFile>): (stored: seq<Stored>)
    ensures |stored| == |files| && forall i :: 0 <= i < |files| ==> stored[i] == Stored(table, files[i])
  {
    seq(|files|, i requires 0 <= i < |files| => Stored(table, files[i]))
  }

  lemma {:induction false} TaggedFiles(table: string, files: seq<ParquetFile>, n: nat, t: string)
    requires n <= |files|
    ensures FilesUpTo(Tagged(table, files), n, t) == if t == table then files[..n] else []
  {
    if n > 0 {
      TaggedFiles(table, files, n - 1, t);
      assert files[..n] == files[..n - 1] + [files[n - 1]];
    }
  }

  lemma {:induction false} FilesConcat(a: seq<Stored>, b: seq<Stored>, n: nat, t: string)
    requires n <= |b|
    ensures FilesUpTo(a + b, |a| + n, t) == FilesOf(a, t) + FilesUpTo(b, n, t)
  {
    if n == 0 {
      FilesFrame(a, a + b, |a|, t);
    } else {
      FilesConcat(a, b, n - 1, t);
    }
  }

  lemma {:induction false} FilesFrame(a: seq<Stored>, b: seq<Stored>, n: nat, t: string)
    requires n <= |a| <= |b| && forall i :: 0 <= i < n ==> a[i] == b[i]
    ensures FilesUpTo(a, n, t) == FilesUpTo(b, n, t)
  {
    if n > 0 { FilesFrame(a, b, n - 1, t); }
  }

  lemma {:induction false} ListedTable(stored: seq<Stored>, n: nat, t: string)
    requires n <= |stored|
    ensures FilesUpTo(stored, n, t) != [] <==> exists i :: 0 <= i < n && stored[i].table == t
  {
    if n > 0 { ListedTable(stored, n - 1, t); }
  }

  lemma {:induction false} TotalConcat(a: seq<Stored>, b: seq<Stored>, all: seq<Stored>, m: nat)
    requires all == a + b && |a| <= m <= |all|
    ensures RowsTotal(all, m) == RowsTotal(a, |a|) + RowsTotal(b, m - |a|)
  {
    if m == |a| {
      TotalFrame(a, all, m);
    } else {
      TotalConcat(a, b, all, m - 1);
      assert all[m - 1] == b[m - 1 - |a|];
    }
  }

  lemma {:induction false} TotalFrame(a: seq<Stored>, b: seq<Stored>, n: nat)
    requires n <= |a| <= |b| && forall i :: 0 <= i < n ==> a[i] == b[i]
    ensures RowsTotal(a, n) == RowsTotal(b, n)
  {
    if n > 0 { TotalFrame(a, b, n - 1); }
  }

  lemma {:induction false} TaggedTotal(files: seq<ParquetFile>, stored: seq<Stored>, n: nat)
    requires n <= |files| == |stored| && forall i :: 0 <= i < n ==> stored[i].file == files[i]
    ensures RowsTotal(stored, n) == |RowsUpTo(files, n)|
  {
    if n > 0 {
      var k := n - 1;
      TaggedTotal(files, stored, k);
      assert stored[k].file == files[k];
    }
  }

  /** The tables done so far are rewritten, the others not begun. */
  ghost predicate Done(before: seq<Stored>, outputs: seq<Stored>, tables: seq<string>, runId: string) {
    forall t :: if t in tables then IsRewrite(FilesOf(before, t), FilesOf(outputs, t), runId) else FilesOf(outputs, t) == []
  }

  lemma FilesAdded(outputs: seq<Stored>, table: string, files: seq<ParquetFile>, t: string)
    ensures FilesOf(outputs + Tagged(table, files), t) == if t == table then FilesOf(outputs, t) + files else FilesOf(outputs, t)
  {
    var added := Tagged(table, files);
    FilesConcat(outputs, added, |added|, t);
    TaggedFiles(table, files, |files|, t);
    assert files[..|files|] == files;
    assert FilesOf(outputs, t) + [] == FilesOf(outputs, t);
  }

  lemma TotalAdded(outputs: seq<Stored>, table: string, files: seq<ParquetFile>, all: seq<Stored>)
    requires all == outputs + Tagged(table, files)
    ensures RowsTotal(all, |all|) == RowsTotal(outputs, |outputs|) + |Rows(files)|
  {
    var added := Tagged(table, files);
    TotalConcat(outputs, added, all, |all|);
    TaggedTotal(files, added, |all| - |outputs|);
  }

  lemma DoneNext(before: seq<Stored>, outputs: seq<Stored>, tables: seq<string>, i: nat, runId: string, files: seq<ParquetFile>)
    requires i < |tables| && tables[i] !in tables[..i] && Done(before, outputs, tables[..i], runId) == true
    requires IsRewrite(FilesOf(before, tables[i]), files, runId)
    ensures Done(before, outputs + Tagged(tables[i], files), tables[..i + 1], runId)
  {
    assert tables[..i + 1] == tables[..i] + [tables[i]];
    forall t ensures if t in tables[..i + 1]
                     then IsRewrite(FilesOf(before, t), FilesOf(outputs + Tagged(tables[i], files), t), runId)
                     else FilesOf(outputs + Tagged(tables[i], files), t) == []
    {
      FilesAdded(outputs, tables[i], files, t);
      if t == tables[i] { assert FilesOf(outputs, t) + files == files; }
    }
  }

  /** The rows of the first `k` tables among the first `n` files. */
  ghost function RowsByTable(stored: seq<Stored>, n: nat, tables: seq<string>, k: nat): nat
    requires n <= |stored| && k <= |tables|
  {
    if k == 0 then 0 else RowsByTable(stored, n, tables, k - 1) + |Rows(FilesUpTo(stored, n, tables[k - 1]))|
  }

  lemma {:induction false} OneMoreFile(stored: seq<Stored>, n: nat, tables: seq<string>, k: nat)
    requires 0 < n <= |stored| && k <= |tables| && forall i, j :: 0 <= i < j < |tables| ==> tables[i] != tables[j]
    ensures RowsByTable(stored, n, tables, k)
            == RowsByTable(stored, n - 1, tables, k)
               + (if stored[n - 1].table in tables[..k] then |Flatten(stored[n - 1].file.batches)| else 0)
  {
    if k > 0 {
      OneMoreFile(stored, n, tables, k - 1);
      var last, t := stored[n - 1], tables[k - 1];
      assert tables[..k] == tables[..k - 1] + [t];
      if last.table == t {
        RowsAppend(FilesUpTo(stored, n - 1, t), last.file);
      } else {
        assert FilesUpTo(stored, n, t) == FilesUpTo(stored, n - 1, t);
      }
    }
  }

  /** Counting by table counts every row once. */
  lemma {:induction false} RowsByTableTotal(stored: seq<Stored>, n: nat, tables: seq<string>)
    requires n <= |stored| && forall i, j :: 0 <= i < j < |tables| ==> tables[i] != tables[j]
    requires forall i :: 0 <= i < n ==> stored[i].table in tables
    ensures RowsByTable(stored, n, tables, |tables|) == RowsTotal(stored, n)
  {
    if n == 0 {
      NoRows(stored, tables, |tables|);
    } else {
      RowsByTableTotal(stored, n - 1, tables);
      OneMoreFile(stored, n, tables, |tables|);
      assert stored[n - 1].table in tables[..|tables|];
    }
  }

  lemma {:induction false} NoRows(stored: seq<Stored>, tables: seq<string>, k: nat)
    requires k <= |tables|
    ensures RowsByTable(stored, 0, tables, k) == 0
  {
    if k > 0 { NoRows(stored, tables, k - 1); }
  }

  function TablesOf(stored: seq<Stored>): set<string> { set s | s in stored :: s.table }

  /** Every table fits in one file. */
  ghost predicate AllSmall(sizes: map<string, seq<nat>>, targetBytes: int) {
    targetBytes > 0 && forall t :: t in sizes ==> NeverFull(sizes[t], targetBytes)
  }

  function SizesFor(sizes: map<string, seq<nat>>, table: string): seq<nat> {
    if table in sizes then sizes[table] else []
  }

  /** The files a table is rewritten to. */
  function FilesFor(before: seq<Stored>, table: string, sizes: map<string, seq<nat>>, targetBytes: int): nat {
    var files := FilesOf(before, table);
    FileCount(SizesFor(sizes, table), BatchCount(files, |files|), targetBytes)
  }

  /** Table by table. */
  ghost function FilesEach(before: seq<Stored>, sizes: map<string, seq<nat>>, targetBytes: int): map<string, nat> {
    map t | t in TablesOf(before) :: FilesFor(before, t, sizes, targetBytes)
  }

  /** The files the whole day is rewritten to. */
  ghost function FilesAfter(before: seq<Stored>, sizes: map<string, seq<nat>>, targetBytes: int): nat {
    Sum(FilesEach(before, sizes, targetBytes), AnyListing(TablesOf(before)))
  }

  ghost function FilesSoFar(before: seq<Stored>, tables: seq<string>, n: nat, sizes: map<string, seq<nat>>, targetBytes: int): nat
    requires n <= |tables|
  {
    Sum(FilesEach(before, sizes, targetBytes), tables[..n])
  }

  lemma OneMoreTable(before: seq<Stored>, tables: seq<string>, i: nat, sizes: map<string, seq<nat>>, targetBytes: int)
    requires i < |tables| && tables[i] in TablesOf(before)
    ensures FilesSoFar(before, tables, i + 1, sizes, targetBytes)
            == FilesSoFar(before, tables, i, sizes, targetBytes) + FilesFor(before, tables[i], sizes, targetBytes)
  {
    assert tables[..i + 1][..i] == tables[..i];
  }

  lemma AllTablesCounted(before: seq<Stored>, tables: seq<string>, sizes: map<string, seq<nat>>, targetBytes: int)
    requires Lists(tables, TablesOf(before))
    ensures FilesSoFar(before, tables, |tables|, sizes, targetBytes) == FilesAfter(before, sizes, targetBytes)
  {
    assert tables[..|tables|] == tables;
    SumOrderFree(FilesEach(before, sizes, targetBytes), TablesOf(before), tables, AnyListing(TablesOf(before)));
  }

  /** With every table in one file, the day becomes as many files as it has tables. */
  lemma SmallFiles(before: seq<Stored>, sizes: map<string, seq<nat>>, targetBytes: int)
    requires AllSmall(sizes, targetBytes)
    ensures FilesAfter(before, sizes, targetBytes) == |TablesOf(before)|
  {
    forall t | t in TablesOf(before) ensures FilesFor(before, t, sizes, targetBytes) == 1 {
      var files := FilesOf(before, t);
      NeverClosed(SizesFor(sizes, t), BatchCount(files, |files|), targetBytes);
    }
    SumOfOnes(FilesEach(before, sizes, targetBytes), AnyListing(TablesOf(before)));
    ListingSize(AnyListing(TablesOf(before)), TablesOf(before));
  }

  /** Rewrite a table and check it. */
  method CompactTable(files: seq<ParquetFile>, table: string, baselineRun: string, runId: string, date: int, targetBytes: int,
                      sizes: map<string, seq<nat>>)
    returns (outputs: Option<seq<ParquetFile>>, count: nat)
    ensures outputs.Some? <==> SchemaOk(files) && RowsOk(Rows(files), baselineRun, date)
    ensures outputs.Some? ==> IsRewrite(files, outputs.value, runId) && count == |Rows(files)|
    ensures outputs.Some? ==> |outputs.value| == FileCount(SizesFor(sizes, table), BatchCount(files, |files|), targetBytes)
  {
    outputs, count := RewriteTable(files, baselineRun, runId, date, targetBytes, SizesFor(sizes, table));
    if outputs.Some? {
      var same := VerifyMultiset(files, outputs.value);
      RewritePasses(files, outputs.value, runId);
      if !same {
        outputs := None;
      }
    }
  }

  lemma TableDone(before: seq<Stored>, outputs: seq<Stored>, tables: seq<string>, i: nat, runId: string, files: seq<ParquetFile>)
    requires i < |tables| && tables[i] !in tables[..i] && Done(before, outputs, tables[..i], runId) == true
    requires IsRewrite(FilesOf(before, tables[i]), files, runId) && RowsTotal(outputs, |outputs|) == RowsByTable(before, |before|, tables, i)
    ensures var more := outputs + Tagged(tables[i], files);
            && Done(before, more, tables[..i + 1], runId) == true && |more| == |outputs| + |files|
            && RowsTotal(more, |more|) == RowsTotal(outputs, |outputs|) + |Rows(FilesOf(before, tables[i]))|
            && RowsTotal(more, |more|) == RowsByTable(before, |before|, tables, i + 1)
  {
    DoneNext(before, outputs, tables, i, runId, files);
    TotalAdded(outputs, tables[i], files, outputs + Tagged(tables[i], files));
  }

  /** Every table in turn. */
  method CompactTables(before: seq<Stored>, tables: seq<string>, baselineRun: string, runId: string, date: int,
                       targetBytes: int, sizes: map<string, seq<nat>>) returns (outputs: Option<seq<Stored>>, total: nat)
    requires Lists(tables, TablesOf(before))
    ensures outputs.Some? <==> forall j :: 0 <= j < |tables| ==> Rewritable(before, tables[j], baselineRun, date)
    ensures outputs.Some? ==> Done(before, outputs.value, tables, runId) == true
                              && total == RowsTotal(outputs.value, |outputs.value|) == RowsByTable(before, |before|, tables, |tables|)
    ensures outputs.Some? ==> |outputs.value| == FilesAfter(before, sizes, targetBytes)
  {
    var done: seq<Stored> := [];
    total := 0;
    for i := 0 to |tables|
      invariant Done(before, done, tables[..i], runId) == true
      invariant total == RowsTotal(done, |done|) == RowsByTable(before, |before|, tables, i)
      invariant forall j :: 0 <= j < i ==> Rewritable(before, tables[j], baselineRun, date)
      invariant |done| == FilesSoFar(before, tables, i, sizes, targetBytes)
    {
      var rewritten, count := CompactTable(FilesOf(before, tables[i]), tables[i], baselineRun, runId, date, targetBytes, sizes);
      if rewritten.None? {
        return None, total;
      }
      TableDone(before, done, tables, i, runId, rewritten.value);
      OneMoreTable(before, tables, i, sizes, targetBytes);
      done, total := done + Tagged(tables[i], rewritten.value), total + count;
    }
    assert tables[..|tables|] == tables;
    AllTablesCounted(before, tables, sizes, targetBytes);
    outputs := Some(done);
  }

  /** Rewrite every table and check it. The day is refused exactly when a table cannot be
      rewritten or the rows are not as many as the day says; it is left alone exactly when
      that saves no files. */
  method CompactDay(before: seq<Stored>, baselineRun: string, runId: string, date: int, expected: nat,
                    targetBytes: int, sizes: map<string, seq<nat>>) returns (result: DayResult)
    ensures !result.Refused? <==> AllRewritable(before, baselineRun, date) && RowsTotal(before, |before|) == expected
    ensures result.Compacted? ==> Compacts(before, result.outputs, runId) && |result.outputs| < |before|
                                  && RowsTotal(result.outputs, |result.outputs|) == expected
    ensures !result.Refused? ==> (result.Compacted? <==> FilesAfter(before, sizes, targetBytes) < |before|)
  {
    var tables := Enumerate(TablesOf(before));
    forall t ensures t in tables <==> FilesOf(before, t) != [] { TablesListed(before, tables, t); }
    var outputs, total := CompactTables(before, tables, baselineRun, runId, date, targetBytes, sizes);
    forall j | 0 <= j < |tables| ensures FilesOf(before, tables[j]) != [] { assert tables[j] in tables; }
    if outputs.None? {
      return Refused;
    }
    assert forall i :: 0 <= i < |before| ==> before[i] in before;
    RowsByTableTotal(before, |before|, tables);
    if total != expected {
      return Refused;
    }
    if |outputs.value| >= |before| {
      return NoBenefit;
    }
    return Compacted(outputs.value);
  }

  lemma TablesListed(before: seq<Stored>, tables: seq<string>, t: string)
    requires Lists(tables, TablesOf(before))
    ensures t in tables <==> FilesOf(before, t) != []
  {
    ListedTable(before, |before|, t);
    if FilesOf(before, t) != [] {
      var i :| 0 <= i < |before| && before[i].table == t;
      assert before[i] in before;
    }
  }

  /* What a reader sees. */

  /** However the new files are listed, a reader of the day finds per table the rows it
      found before, absent columns null and only `run_id` replaced. */
  lemma ReaderSeesSameRows(before: seq<Stored>, after: seq<Stored>, listed: seq<Stored>, runId: string, t: string)
    requires Compacts(before, after, runId) && multiset(listed) == multiset(after)
    ensures multiset(TableRows(listed, t))
            == multiset(RelabelAll(TableRows(before, t), Unified(FilesOf(before, t), |FilesOf(before, t)|), runId))
  {
    BagRows(listed, |listed|, t);
    BagRows(after, |after|, t);
    BagOrderFree(listed, after, t);
    if FilesOf(before, t) == [] {
      assert TableRows(before, t) == [] && TableRows(after, t) == [];
    }
  }

  /** Per table the same rows, absent columns null and only `run_id` replaced. */
  ghost predicate SameRows(before: seq<Stored>, listed: seq<Stored>, runId: string) {
    forall t :: multiset(TableRows(listed, t))
                == multiset(RelabelAll(TableRows(before, t), Unified(FilesOf(before, t), |FilesOf(before, t)|), runId))
  }

  lemma AllTablesSame(before: seq<Stored>, after: seq<Stored>, listed: seq<Stored>, runId: string)
    requires Compacts(before, after, runId) && multiset(listed) == multiset(after)
    ensures SameRows(before, listed, runId)
  {
    forall t ensures multiset(TableRows(listed, t))
                     == multiset(RelabelAll(TableRows(before, t), Unified(FilesOf(before, t), |FilesOf(before, t)|), runId)) {
      ReaderSeesSameRows(before, after, listed, runId, t);
    }
  }

  lemma {:induction false} TotalWithout(b: seq<Stored>, rest: seq<Stored>, i: nat, n: nat)
    requires i < n <= |b| && |rest| == |b| - 1
    requires (forall j :: 0 <= j < i ==> rest[j] == b[j]) && (forall j :: i <= j < |rest| ==> rest[j] == b[j + 1])
    ensures RowsTotal(b, n) == RowsTotal(rest, n - 1) + |Flatten(b[i].file.batches)|
  {
    if n == i + 1 {
      TotalFrameTo(b, rest, i);
    } else {
      TotalWithout(b, rest, i, n - 1);
      assert rest[n - 2] == b[n - 1];
    }
  }

  lemma {:induction false} TotalFrameTo(a: seq<Stored>, b: seq<Stored>, n: nat)
    requires n <= |a| && n <= |b| && forall i :: 0 <= i < n ==> a[i] == b[i]
    ensures RowsTotal(a, n) == RowsTotal(b, n)
  {
    if n > 0 { TotalFrameTo(a, b, n - 1); }
  }

  lemma {:induction false} TotalOrderFree(a: seq<Stored>, b: seq<Stored>)
    requires multiset(a) == multiset(b)
    ensures RowsTotal(a, |a|) == RowsTotal(b, |b|)
    decreases |a|
  {
    assert |a| == |multiset(a)| == |multiset(b)| == |b|;
    if a != [] {
      var i, rest := TakeOut(a, b);
      TotalOrderFree(a[..|a| - 1], rest);
      TotalFrameTo(a, a[..|a| - 1], |a| - 1);
      TotalWithout(b, rest, i, |b|);
    }
  }

  lemma {:induction false} RowInBag(stored: seq<Stored>, n: nat, i: nat, row: Row)
    requires i < n <= |stored| && row in Flatten(stored[i].file.batches)
    ensures row in Bag(stored, n, stored[i].table)
  {
    if i < n - 1 {
      RowInBag(stored, n - 1, i, row);
    } else {
      assert row in BagOf(stored[i], stored[i].table);
    }
  }

  /** And that reader accepts the day: lineage, hashes and count are right. */
  lemma ReaderAccepts(before: seq<Stored>, after: seq<Stored>, listed: seq<Stored>, baselineRun: string, runId: string,
                      date: int)
    requires Compacts(before, after, runId) && multiset(listed) == multiset(after)
    requires AllRewritable(before, baselineRun, date)
    ensures AllReadable(listed, |listed|, runId, date, true)
    ensures RowsTotal(listed, |listed|) == RowsTotal(after, |after|)
  {
    TotalOrderFree(listed, after);
    forall i, j | 0 <= i < |listed| && 0 <= j < |Flatten(listed[i].file.batches)|
      ensures Readable(Flatten(listed[i].file.batches)[j], runId, date, true)
    {
      var row, t := Flatten(listed[i].file.batches)[j], listed[i].table;
      RowInBag(listed, |listed|, i, row);
      BagRows(listed, |listed|, t);
      ReaderSeesSameRows(before, after, listed, runId, t);
      assert row in multiset(TableRows(listed, t));
      RelabeledRow(before, baselineRun, runId, date, t, row);
    }
  }

  lemma RelabeledRow(before: seq<Stored>, baselineRun: string, runId: string, date: int, t: string, row: Row)
    requires AllRewritable(before, baselineRun, date)
    requires row in multiset(RelabelAll(TableRows(before, t), Unified(FilesOf(before, t), |FilesOf(before, t)|), runId))
    ensures RowOk(row, runId, date)
  {
  }

  /* Nor does the order the old files are listed in. */

  lemma {:induction false} UnifiedFrame(files: seq<ParquetFile>, more: seq<ParquetFile>, n: nat)
    requires n <= |files| <= |more| && forall i :: 0 <= i < n ==> files[i] == more[i]
    ensures Unified(files, n) == Unified(more, n)
  {
    if n > 0 { UnifiedFrame(files, more, n - 1); }
  }

  /** The columns of a table are those of its files. */
  lemma {:induction false} ColumnsListed(stored: seq<Stored>, n: nat, t: string, c: string)
    requires n <= |stored|
    ensures var files := FilesUpTo(stored, n, t);
            c in Unified(files, |files|) <==> exists i :: 0 <= i < n && stored[i].table == t && c in stored[i].file.schema
  {
    if n > 0 {
      ColumnsListed(stored, n - 1, t, c);
      var before, files := FilesUpTo(stored, n - 1, t), FilesUpTo(stored, n, t);
      if stored[n - 1].table == t {
        UnifiedFrame(before, files, |before|);
        assert c in Unified(files, |files|) <==> c in Unified(before, |before|) || c in stored[n - 1].file.schema;
      } else {
        assert files == before;
      }
    }
  }

  lemma ColumnsOrderFree(a: seq<Stored>, b: seq<Stored>, t: string)
    requires multiset(a) == multiset(b)
    ensures Columns(FilesOf(a, t)) == Columns(FilesOf(b, t))
  {
    forall c ensures c in Columns(FilesOf(a, t)) <==> c in Columns(FilesOf(b, t)) {
      ColumnsListed(a, |a|, t, c);
      ColumnsListed(b, |b|, t, c);
      SameMember(a, b, t, c);
    }
  }

  lemma SameMember(a: seq<Stored>, b: seq<Stored>, t: string, c: string)
    requires multiset(a) == multiset(b)
    ensures (exists i :: 0 <= i < |a| && a[i].table == t && c in a[i].file.schema)
            <==> (exists i :: 0 <= i < |b| && b[i].table == t && c in b[i].file.schema)
  {
    forall i | 0 <= i < |a| ensures a[i] in b { assert a[i] in multiset(b); }
    forall i | 0 <= i < |b| ensures b[i] in a { assert b[i] in multiset(a); }
  }

  lemma RelabelWithout(rows: seq<Row>, i: nat, rest: seq<Row>, schema: Schema, runId: string)
    requires i < |rows| && rest == rows[..i] + rows[i + 1..]
    ensures multiset(RelabelAll(rows, schema, runId))
            == multiset(RelabelAll(rest, schema, runId)) + multiset{Relabel(rows[i], schema, runId)}
  {
    var all := RelabelAll(rows, schema, runId);
    assert RelabelAll(rest, schema, runId) == all[..i] + all[i + 1..];
    assert all == all[..i] + [all[i]] + all[i + 1..];
  }

  lemma {:induction false} RelabelBag(a: seq<Row>, b: seq<Row>, schema: Schema, other: Schema, runId: string)
    requires multiset(a) == multiset(b) && schema.Keys == other.Keys
    ensures multiset(RelabelAll(a, schema, runId)) == multiset(RelabelAll(b, other, runId))
    decreases |a|
  {
    assert |a| == |multiset(a)| == |multiset(b)| == |b|;
    if a != [] {
      var n := |a| - 1;
      var i, rest := TakeOut(a, b);
      assert a[..n] == a[..n] + a[n + 1..] && rest == b[..i] + b[i + 1..];
      RelabelBag(a[..n], rest, schema, other, runId);
      RelabelWithout(a, n, a[..n], schema, runId);
      RelabelWithout(b, i, rest, other, runId);
      assert Relabel(a[n], schema, runId) == Relabel(b[i], other, runId);
    }
  }

  lemma SameRowsOrderFree(before: seq<Stored>, other: seq<Stored>, listed: seq<Stored>, runId: string)
    requires multiset(before) == multiset(other) && SameRows(before, listed, runId)
    ensures SameRows(other, listed, runId)
  {
    forall t ensures multiset(TableRows(listed, t))
                     == multiset(RelabelAll(TableRows(other, t), Unified(FilesOf(other, t), |FilesOf(other, t)|), runId)) {
      BagRows(before, |before|, t);
      BagRows(other, |other|, t);
      BagOrderFree(before, other, t);
      ColumnsOrderFree(before, other, t);
      RelabelBag(TableRows(before, t), TableRows(other, t), Unified(FilesOf(before, t), |FilesOf(before, t)|),
                 Unified(FilesOf(other, t), |FilesOf(other, t)|), runId);
    }
  }
}
