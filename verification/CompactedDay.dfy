/** One planned day in the store: what the plan found, what the candidate's objects must
    be, and what the commit of the candidate changes for every reader. */
module CompactedDay {
  import opened Wrappers
  import opened Collections
  import opened Control
  import opened Coverage
  import opened Archive
  import CoverageGuard
  import Compaction

  /** A planned day: the attempt to compact, its files, its pages and its quality evidence,
      as the plan found them. */
  datatype Item = Item(baseline: DayManifest, files: Store, pages: seq<PageManifest>, quality: Store)

  function EntryOf(day: DayManifest): BundleDay {
    BundleDay(day.resource, day.date, day.runId, [])
  }

  /** `inventory` */
  function Inventory(fs: Store, e: BundleDay): Store {
    map k | k in fs && e.OwnsFile(k) :: fs[k]
  }

  predicate OwnsQuality(e: BundleDay, k: Key) {
    k.QualityKey? && k.resource == e.resource && k.run == e.run && k.date == e.date
  }

  /** `quality_inventory` */
  function QualityInventory(fs: Store, e: BundleDay): Store {
    map k | k in fs && OwnsQuality(e, k) :: fs[k]
  }

  /** The baseline's evidence is what the plan found, and consistent. */
  predicate EvidenceHolds(fs: Store, item: Item)
    requires WellKeyed(fs)
  {
    var day, e := item.baseline, EntryOf(item.baseline);
    && Inventory(fs, e) == item.files && QualityInventory(fs, e) == item.quality && PagesOf(fs, e) == Some(item.pages)
    && var run := ReadRun(fs, day.resource, day.runId);
       run.Some? && DayMetadataValid(day.resource, day.date, day.runId, run.value, day, item.pages, false)
  }

  /** The attempts of the day that readers choose from. */
  function Committed(fs: Store, day: DayManifest): set<DayManifest>
    requires WellKeyed(fs)
  {
    Control.Committed(Attempts(fs, day.resource, day.date, day.date, day.date))
  }

  /** The planned day is still the one readers see, and nobody but the candidate is at work on it. */
  ghost predicate BaselineHolds(fs: Store, item: Item, own: Option<RunId>)
    requires WellKeyed(fs)
  {
    var day := item.baseline;
    && IsLatest(Committed(fs, day), Some(day))
    && (forall r :: r in ActiveRuns(fs, day.resource, day.date) ==> Some(r) == own)
    && EvidenceHolds(fs, item)
  }

  /** `assert_baseline`: it passes only when the baseline holds, and with distinct start
      times whenever it does and every run has a header. */
  method AssertBaseline(fs: Store, item: Item, guard: CoverageGuard.Guard, own: Option<RunId>) returns (ok: bool)
    requires guard.Valid() && WellKeyed(fs) && guard.resource == item.baseline.resource
    requires CoverageGuard.TerminalKept(guard.seen, fs, guard.resource)
    modifies guard
    ensures guard.Valid() && guard.seen == fs
    ensures ok ==> BaselineHolds(fs, item, own)
    ensures (&& BaselineHolds(fs, item, own) && CoverageGuard.AllHeaded(fs, guard.resource)
             && DistinctStarts(Attempts(fs, guard.resource, item.baseline.date, item.baseline.date, item.baseline.date))) ==> ok
  {
    var current := guard.Read(fs, item.baseline.date);
    if current.None? {
      return false;
    }
    ghost var attempts := Attempts(fs, guard.resource, item.baseline.date, item.baseline.date, item.baseline.date);
    if BaselineHolds(fs, item, own) && DistinctStarts(attempts) {
      LatestUnique(Control.Committed(attempts), current.value.effective, Some(item.baseline));
    }
    ok := current.value.effective == Some(item.baseline) && (forall r | r in current.value.active :: Some(r) == own)
          && EvidenceHolds(fs, item);
  }

  /* Files of a day, as a list a reader goes through. */

  predicate AllParquet(files: Store) {
    forall k :: k in files ==> k.FileKey? && files[k].content.Parquet?
  }

  function StoredAt(files: Store, keys: seq<Key>): (stored: seq<Compaction.Stored>)
    requires AllParquet(files) && forall k :: k in keys ==> k in files
    ensures |stored| == |keys|
    ensures forall i :: 0 <= i < |keys| ==> stored[i] == Compaction.Stored(keys[i].table, files[keys[i]].content.file)
  {
    seq(|keys|, i requires 0 <= i < |keys| => Compaction.Stored(keys[i].table, files[keys[i]].content.file))
  }

  lemma {:induction false} ListedOnce<T(!new)>(items: seq<T>, elements: set<T>, x: T)
    requires Lists(items, elements)
    ensures multiset(items)[x] == if x in elements then 1 else 0
  {
    if items == [] {
      assert x !in items;
    } else {
      var n := |items| - 1;
      assert items == items[..n] + [items[n]];
      forall y ensures y in items[..n] <==> y in elements - {items[n]} { assert y in items <==> y in elements; }
      ListedOnce(items[..n], elements - {items[n]}, x);
      assert items[n] in items;
    }
  }

  lemma {:induction false} StoredBag(files: Store, a: seq<Key>, b: seq<Key>)
    requires AllParquet(files) && (forall k :: k in a ==> k in files) && (forall k :: k in b ==> k in files)
    requires multiset(a) == multiset(b)
    ensures multiset(StoredAt(files, a)) == multiset(StoredAt(files, b))
    decreases |a|
  {
    assert |a| == |multiset(a)| == |multiset(b)| == |b|;
    if a != [] {
      var n := |a| - 1;
      var i, rest := Compaction.TakeOut(a, b);
      assert a[..n] == a[..n] + a[n + 1..] && rest == b[..i] + b[i + 1..];
      StoredBag(files, a[..n], rest);
      StoredWithout(files, a, n, a[..n]);
      StoredWithout(files, b, i, rest);
    }
  }

  lemma StoredWithout(files: Store, keys: seq<Key>, i: nat, rest: seq<Key>)
    requires AllParquet(files) && (forall k :: k in keys ==> k in files) && i < |keys| && rest == keys[..i] + keys[i + 1..]
    ensures multiset(StoredAt(files, keys)) == multiset(StoredAt(files, rest)) + multiset{StoredAt(files, keys)[i]}
  {
    var all := StoredAt(files, keys);
    assert StoredAt(files, rest) == all[..i] + all[i + 1..];
    assert all == all[..i] + [all[i]] + all[i + 1..];
  }

  /** Two listings of the same files hold the same files. */
  lemma ListingsAgree(files: Store, a: seq<Key>, b: seq<Key>)
    requires AllParquet(files) && Lists(a, files.Keys) && Lists(b, files.Keys)
    ensures multiset(StoredAt(files, a)) == multiset(StoredAt(files, b))
  {
    forall k ensures multiset(a)[k] == multiset(b)[k] {
      ListedOnce(a, files.Keys, k);
      ListedOnce(b, files.Keys, k);
    }
    assert multiset(a) == multiset(b);
    StoredBag(files, a, b);
  }

  /* What the candidate's files must be. */

  /** However both are listed, a reader of the new files accepts them as the day's, and
      finds per table the rows of the old ones, absent columns null and only `run_id`
      replaced. */
  ghost predicate Faithful(before: Store, after: Store, day: DayManifest) {
    && AllParquet(before) && AllParquet(after)
    && forall a, b :: Lists(a, before.Keys) && Lists(b, after.Keys) ==>
         KeepsRows(StoredAt(before, a), StoredAt(after, b), day)
  }

  ghost predicate KeepsRows(before: seq<Compaction.Stored>, listed: seq<Compaction.Stored>, day: DayManifest) {
    && Compaction.SameRows(before, listed, day.runId)
    && Compaction.AllReadable(listed, |listed|, day.runId, day.date, true)
    && Compaction.RowsTotal(listed, |listed|) == day.bronzeRecords
  }

  /** One pair of listings is enough. */
  lemma FaithfulFrom(before: Store, keys: seq<Key>, after: Store, parts: seq<Key>, outputs: seq<Compaction.Stored>,
                     baseline: DayManifest, day: DayManifest)
    requires AllParquet(before) && AllParquet(after) && Lists(keys, before.Keys) && Lists(parts, after.Keys)
    requires StoredAt(after, parts) == outputs && Compaction.Compacts(StoredAt(before, keys), outputs, day.runId)
    requires Compaction.AllRewritable(StoredAt(before, keys), baseline.runId, day.date)
    requires Compaction.RowsTotal(outputs, |outputs|) == day.bronzeRecords
    ensures Faithful(before, after, day)
  {
    forall a, b | Lists(a, before.Keys) && Lists(b, after.Keys) ensures KeepsRows(StoredAt(before, a), StoredAt(after, b), day) {
      ListingsAgree(before, keys, a);
      ListingsAgree(after, b, parts);
      var listed := StoredAt(after, b);
      Compaction.AllTablesSame(StoredAt(before, keys), outputs, listed, day.runId);
      Compaction.ReaderAccepts(StoredAt(before, keys), outputs, listed, baseline.runId, day.runId, day.date);
      Compaction.SameRowsOrderFree(StoredAt(before, keys), StoredAt(before, a), listed, day.runId);
    }
  }

  /* The names of the output files. */

  function Digit(d: nat): char
    requires d < 10
  {
    ('0' as int + d) as char
  }

  function Decimal(n: nat): string {
    if n < 10 then [Digit(n)] else Decimal(n / 10) + [Digit(n % 10)]
  }

  function Padded(s: string, width: nat): string
    decreases width - |s|
  {
    if |s| >= width then s else Padded("0" + s, width)
  }

  function PartName(n: nat): string { "compact-" + Padded(Decimal(n), 6) + ".parquet" }

  function Value(s: string): int {
    if s == [] then 0 else Value(s[..|s| - 1]) * 10 + (s[|s| - 1] as int - '0' as int)
  }

  lemma {:induction false} DecimalValue(n: nat)
    ensures Value(Decimal(n)) == n
  {
    if n >= 10 {
      DecimalValue(n / 10);
      assert Decimal(n)[..|Decimal(n)| - 1] == Decimal(n / 10);
    } else {
      assert Decimal(n)[..0] == [];
    }
  }

  lemma {:induction false} LeadingZero(s: string)
    ensures Value("0" + s) == Value(s)
  {
    var t := "0" + s;
    if s == [] {
      assert t[..0] == [];
    } else {
      LeadingZero(s[..|s| - 1]);
      assert t[..|t| - 1] == "0" + s[..|s| - 1];
    }
  }

  lemma {:induction false} PaddedValue(s: string, width: nat)
    ensures Value(Padded(s, width)) == Value(s)
    decreases width - |s|
  {
    if |s| < width {
      PaddedValue("0" + s, width);
      LeadingZero(s);
    }
  }

  lemma PartNamesDiffer(m: nat, n: nat)
    requires m != n
    ensures PartName(m) != PartName(n)
  {
    var p, q := Padded(Decimal(m), 6), Padded(Decimal(n), 6);
    DecimalValue(m);
    DecimalValue(n);
    PaddedValue(Decimal(m), 6);
    PaddedValue(Decimal(n), 6);
    assert PartName(m)[8..|PartName(m)| - 8] == p && PartName(n)[8..|PartName(n)| - 8] == q;
  }

  /** The files of a table are numbered in their order. */
  function PartKey(outputs: seq<Compaction.Stored>, i: nat, e: BundleDay): Key
    requires i < |outputs|
  {
    var t := outputs[i].table;
    FileKey(t, e.date, e.run, PartName(|Compaction.FilesUpTo(outputs, i, t)|))
  }

  lemma {:induction false} LaterNumber(outputs: seq<Compaction.Stored>, i: nat, j: nat, t: string)
    requires i < j <= |outputs| && outputs[i].table == t
    ensures |Compaction.FilesUpTo(outputs, i, t)| < |Compaction.FilesUpTo(outputs, j, t)|
  {
    if i < j - 1 { LaterNumber(outputs, i, j - 1, t); }
  }

  lemma PartKeysDiffer(outputs: seq<Compaction.Stored>, i: nat, j: nat, e: BundleDay)
    requires i < j < |outputs|
    ensures PartKey(outputs, i, e) != PartKey(outputs, j, e)
  {
    var t := outputs[i].table;
    if outputs[j].table == t {
      LaterNumber(outputs, i, j, t);
      PartNamesDiffer(|Compaction.FilesUpTo(outputs, i, t)|, |Compaction.FilesUpTo(outputs, j, t)|);
    }
  }

  function PartKeys(outputs: seq<Compaction.Stored>, e: BundleDay): (keys: seq<Key>)
    ensures |keys| == |outputs| && forall i :: 0 <= i < |outputs| ==> keys[i] == PartKey(outputs, i, e)
  {
    seq(|outputs|, i requires 0 <= i < |outputs| => PartKey(outputs, i, e))
  }

  lemma PartKeysDistinct(outputs: seq<Compaction.Stored>, e: BundleDay)
    ensures Distinct(PartKeys(outputs, e))
  {
    forall i, j | 0 <= i < j < |outputs| ensures PartKeys(outputs, e)[i] != PartKeys(outputs, e)[j] { PartKeysDiffer(outputs, i, j, e); }
  }

  /** The first `n` output files, as they are uploaded under their names. */
  function Uploaded(outputs: seq<Compaction.Stored>, keys: seq<Key>, n: nat): Store
    requires n <= |outputs| == |keys|
  {
    if n == 0 then map[]
    else Uploaded(outputs, keys, n - 1)[keys[n - 1] := Written(Parquet(outputs[n - 1].file))]
  }

  lemma {:induction false} UploadedKey(outputs: seq<Compaction.Stored>, keys: seq<Key>, n: nat, k: Key)
    requires n <= |outputs| == |keys|
    ensures k in Uploaded(outputs, keys, n) <==> k in keys[..n]
    ensures k in Uploaded(outputs, keys, n) ==> Uploaded(outputs, keys, n)[k].content.Parquet?
  {
    if n > 0 {
      UploadedKey(outputs, keys, n - 1, k);
      assert keys[..n] == keys[..n - 1] + [keys[n - 1]];
    }
  }

  lemma {:induction false} UploadedAt(outputs: seq<Compaction.Stored>, keys: seq<Key>, n: nat, i: nat)
    requires i < n <= |outputs| == |keys| && Distinct(keys)
    ensures keys[i] in Uploaded(outputs, keys, n) && Uploaded(outputs, keys, n)[keys[i]] == Written(Parquet(outputs[i].file))
  {
    if i < n - 1 { UploadedAt(outputs, keys, n - 1, i); }
  }

  lemma {:induction false} UploadedCount(outputs: seq<Compaction.Stored>, keys: seq<Key>, n: nat)
    requires n <= |outputs| == |keys| && Distinct(keys)
    ensures |Uploaded(outputs, keys, n)| == n
  {
    if n > 0 {
      UploadedCount(outputs, keys, n - 1);
      UploadedKey(outputs, keys, n - 1, keys[n - 1]);
      assert Uploaded(outputs, keys, n).Keys == Uploaded(outputs, keys, n - 1).Keys + {keys[n - 1]};
    }
  }

  /** All output files, under the names of their tables. */
  function AllUploaded(outputs: seq<Compaction.Stored>, e: BundleDay): (files: Store)
  {
    Uploaded(outputs, PartKeys(outputs, e), |outputs|)
  }

  lemma {:induction false} UploadedUnder(outputs: seq<Compaction.Stored>, keys: seq<Key>)
    requires Distinct(keys) && |keys| == |outputs| && forall i :: 0 <= i < |keys| ==> keys[i].FileKey? && keys[i].table == outputs[i].table
    ensures var files := Uploaded(outputs, keys, |outputs|);
            AllParquet(files) && Lists(keys, files.Keys) && StoredAt(files, keys) == outputs && |files| == |outputs|
  {
    var n, files := |outputs|, Uploaded(outputs, keys, |outputs|);
    assert keys[..n] == keys;
    forall k ensures (k in files <==> k in keys) && (k in files ==> files[k].content.Parquet?) { UploadedKey(outputs, keys, n, k); }
    forall i | 0 <= i < n ensures files[keys[i]] == Written(Parquet(outputs[i].file)) { UploadedAt(outputs, keys, n, i); }
    UploadedCount(outputs, keys, n);
  }

  /** The uploaded files, listed in order, are the output files. */
  lemma UploadedListed(outputs: seq<Compaction.Stored>, e: BundleDay)
    ensures var files, keys := AllUploaded(outputs, e), PartKeys(outputs, e);
            AllParquet(files) && Lists(keys, files.Keys) && StoredAt(files, keys) == outputs && |files| == |outputs|
  {
    PartKeysDistinct(outputs, e);
    UploadedUnder(outputs, PartKeys(outputs, e));
  }

  /* The candidate's manifests. */

  /** The marker `apply_day` commits: the baseline's, under the new run and times. */
  function CompletedDay(baseline: DayManifest, run: RunId, startedAt: int, completedAt: int): DayManifest {
    baseline.(runId := run, status := Success, startedAt := startedAt, completedAt := Some(completedAt))
  }

  function CopiedPage(page: PageManifest, run: RunId, startedAt: int, completedAt: int): PageManifest {
    page.(runId := run, startedAt := startedAt, completedAt := Some(completedAt))
  }

  function CopiedPages(pages: seq<PageManifest>, run: RunId, startedAt: int, completedAt: int): (copied: seq<PageManifest>)
    ensures |copied| == |pages|
    ensures forall i :: 0 <= i < |pages| ==> copied[i] == CopiedPage(pages[i], run, startedAt, completedAt)
  {
    seq(|pages|, i requires 0 <= i < |pages| => CopiedPage(pages[i], run, startedAt, completedAt))
  }

  /** The manifests written for the candidate pass the same checks as the baseline's. */
  lemma CompactedIsValid(fs: Store, item: Item, header: RunManifest, run: RunId, startedAt: int, completedAt: int)
    requires WellKeyed(fs) && EvidenceHolds(fs, item) && startedAt <= completedAt
    requires header.schemaVersion == 1 && header.completedAt.None? && header.runId == run && header.source == DEFAULT_SOURCE
    requires header.resource == item.baseline.resource && header.start <= item.baseline.date <= header.end
    ensures DayMetadataValid(item.baseline.resource, item.baseline.date, run, header,
                             CompletedDay(item.baseline, run, startedAt, completedAt),
                             CopiedPages(item.pages, run, startedAt, completedAt), false)
  {
    SumsCopied(item.pages, CopiedPages(item.pages, run, startedAt, completedAt));
  }

  lemma {:induction false} SumsCopied(pages: seq<PageManifest>, copied: seq<PageManifest>)
    requires |copied| == |pages| && forall i :: 0 <= i < |pages| ==>
               copied[i].searchItems == pages[i].searchItems && copied[i].bronzeRecords == pages[i].bronzeRecords
    ensures SumItems(copied) == SumItems(pages) && SumRecords(copied) == SumRecords(pages)
  {
    if pages != [] { SumsCopied(pages[..|pages| - 1], copied[..|copied| - 1]); }
  }

  /** The header `apply_day` opens a candidate with. */
  function HeaderOf(item: Item, run: RunId, startedAt: int): RunManifest {
    var day := item.baseline;
    RunManifest(1, run, DEFAULT_SOURCE, day.resource, day.date, day.date, RunRunning, 1, 0, 0, startedAt, None)
  }

  /** A header of a candidate, at any stage. */
  predicate OwnHeader(item: Item, header: RunManifest) {
    && header.schemaVersion == 1 && header.source == DEFAULT_SOURCE && header.resource == item.baseline.resource
    && header.start == header.end == item.baseline.date && header.totalDates == 1
    && (header.status == RunSuccess ==> header.successDates == 1 && header.failedDates == 0)
  }

  /** The pages in the store go with the day. */
  predicate Documented(fs: Store, item: Item, day: DayManifest) {
    var pages := PagesOf(fs, EntryOf(day));
    pages.Some? && DayMetadataValid(day.resource, day.date, day.runId, HeaderOf(item, day.runId, day.startedAt), day, pages.value, false)
  }

  /** `_metadata`, of what is stored for the day. */
  predicate MetadataHolds(fs: Store, day: DayManifest)
    requires WellKeyed(fs)
  {
    var header, pages := ReadRun(fs, day.resource, day.runId), PagesOf(fs, EntryOf(day));
    header.Some? && pages.Some? && DayMetadataValid(day.resource, day.date, day.runId, header.value, day, pages.value, false)
  }

  /** Whatever the clock of the run that closed it said. */
  predicate Ordered(header: RunManifest) {
    header.completedAt.Some? ==> header.completedAt.value >= header.startedAt
  }

  lemma DocumentedIsValid(fs: Store, item: Item, day: DayManifest)
    requires WellKeyed(fs) && Documented(fs, item, day) && day.resource == item.baseline.resource
    requires var header := ReadRun(fs, day.resource, day.runId); header.Some? && OwnHeader(item, header.value) && Ordered(header.value)
    ensures MetadataHolds(fs, day)
  {
  }

  /* What readers see once the commit was sent. */

  /** The name a piece of quality evidence gets under another run. */
  function CopyKey(item: Item, run: RunId, k: Key): Key
    requires k.QualityKey?
  {
    QualityKey(item.baseline.resource, run, item.baseline.date, k.name)
  }

  predicate OwnEvidence(item: Item) {
    forall k :: k in item.quality ==> OwnsQuality(EntryOf(item.baseline), k)
  }

  /** These are the copies of some of the planned quality evidence, and nothing else. */
  ghost predicate CopiesEvidence(item: Item, run: RunId, copies: Store, done: set<Key>) {
    && OwnEvidence(item) && done <= item.quality.Keys
    && (forall k :: k in copies ==> exists s :: s in done && k == CopyKey(item, run, s))
    && (forall s :: s in done ==> CopyKey(item, run, s) in copies && copies[CopyKey(item, run, s)] == item.quality[s])
  }

  lemma CopiedOneMore(item: Item, run: RunId, copies: Store, done: set<Key>, s: Key)
    requires CopiesEvidence(item, run, copies, done) && s in item.quality && s !in done
    ensures CopiesEvidence(item, run, copies[CopyKey(item, run, s) := item.quality[s]], done + {s})
  {
  }

  /** Everything but the marker is in place: with it, `day` is the only effective attempt. */
  ghost predicate Vouched(fs: Store, item: Item, day: DayManifest)
    requires WellKeyed(fs)
  {
    && day.completedAt.Some? && day == CompletedDay(item.baseline, day.runId, day.startedAt, day.completedAt.value)
    && day.runId != item.baseline.runId && Listed(fs, day.resource, day.runId, day.date, day.date)
    && (forall d :: d in Committed(fs, day) ==> d == day || d.startedAt < day.startedAt)
    && Inventory(fs, EntryOf(item.baseline)) == item.files
    && Faithful(item.files, Inventory(fs, EntryOf(day)), day)
    && CopiesEvidence(item, day.runId, QualityInventory(fs, EntryOf(day)), item.quality.Keys)
  }

  /** Readers see the compacted day alone, in it the rows of the baseline, and beside it the
      baseline's quality evidence. */
  ghost predicate DayKept(fs: Store, item: Item, day: DayManifest)
    requires WellKeyed(fs)
  {
    && (forall e :: IsLatest(Committed(fs, item.baseline), e) <==> e == Some(day))
    && Inventory(fs, EntryOf(item.baseline)) == item.files
    && Faithful(item.files, Inventory(fs, EntryOf(day)), day)
    && CopiesEvidence(item, day.runId, QualityInventory(fs, EntryOf(day)), item.quality.Keys)
  }

  lemma VouchedIsKept(fs: Store, item: Item, day: DayManifest)
    requires WellKeyed(fs) && Vouched(fs, item, day) && HasDay(fs, day.resource, day)
    ensures DayKept(fs, item, day)
  {
    var committed := Committed(fs, day);
    assert day in committed;
    forall e ensures IsLatest(committed, e) <==> e == Some(day) {
      if IsLatest(committed, e) { assert e.Some? && e.value in committed; }
    }
  }

  /** When the baseline was asserted under the execution lock and the worker's clock is past
      its start, as it checks, the candidate has no rival. */
  lemma AssertedIsVouched(fs: Store, item: Item, run: RunId, startedAt: int, completedAt: int)
    requires WellKeyed(fs) && BaselineHolds(fs, item, Some(run)) && startedAt > item.baseline.startedAt
    requires run != item.baseline.runId && Listed(fs, item.baseline.resource, run, item.baseline.date, item.baseline.date)
    requires Faithful(item.files, Inventory(fs, EntryOf(item.baseline).(run := run)), CompletedDay(item.baseline, run, startedAt, completedAt))
    requires CopiesEvidence(item, run, QualityInventory(fs, EntryOf(item.baseline).(run := run)), item.quality.Keys)
    ensures Vouched(fs, item, CompletedDay(item.baseline, run, startedAt, completedAt))
  {
    var day := CompletedDay(item.baseline, run, startedAt, completedAt);
    assert EntryOf(day) == EntryOf(item.baseline).(run := run);
  }

  /* What may be written afterwards. */

  /** A write that is neither a file of the two attempts nor a page or quality evidence of the
      candidate, nor a commit of another attempt, nor a header that brings one in. */
  predicate Harmless(fs: Store, k: Key, o: Object, item: Item, day: DayManifest)
    requires WellKeyed(fs) && KeyFits(k, o.content)
  {
    && !EntryOf(item.baseline).OwnsFile(k) && !EntryOf(day).OwnsFile(k) && !EntryOf(day).OwnsPage(k)
    && !OwnsQuality(EntryOf(day), k)
    && (k.RunKey? && k.resource == day.resource ==>
          if k.run == day.runId then o.content.run.start <= day.date <= o.content.run.end else !BringsIn(fs, day, k, o))
    && (k.DayKey? && k.resource == day.resource && k.date == day.date ==> o.content.day.status != Success || o.content.day == day)
  }

  /** The header makes readers see a commit of the day that they did not see before. */
  predicate BringsIn(fs: Store, day: DayManifest, k: Key, o: Object)
    requires WellKeyed(fs) && k.RunKey? && KeyFits(k, o.content)
  {
    && CommittedBy(fs, day, k.run) && !Listed(fs, day.resource, k.run, day.date, day.date)
    && o.content.run.start <= day.date <= o.content.run.end
  }

  /** The run has a commit of the day in the store. */
  predicate CommittedBy(fs: Store, day: DayManifest, run: RunId)
    requires WellKeyed(fs)
  {
    var marker := ReadDay(fs, day.resource, run, day.date);
    marker.Some? && marker.value.status == Success
  }

  lemma VouchedStays(fs: Store, k: Key, o: Object, item: Item, day: DayManifest)
    requires WellKeyed(fs) && KeyFits(k, o.content) && Vouched(fs, item, day) && Harmless(fs, k, o, item, day)
    ensures WellKeyed(fs[k := o]) && Vouched(fs[k := o], item, day)
    ensures Inventory(fs[k := o], EntryOf(day)) == Inventory(fs, EntryOf(day))
    ensures PagesOf(fs[k := o], EntryOf(day)) == PagesOf(fs, EntryOf(day))
  {
    var fs' := fs[k := o];
    assert WellKeyed(fs');
    InventoryPut(fs, k, o, EntryOf(item.baseline));
    InventoryPut(fs, k, o, EntryOf(day));
    PagesFrame(fs, fs', EntryOf(day), |PageKeysOf(fs, EntryOf(day))|);
    NoRival(fs, k, o, item, day);
  }

  lemma NoRival(fs: Store, k: Key, o: Object, item: Item, day: DayManifest)
    requires WellKeyed(fs) && KeyFits(k, o.content) && WellKeyed(fs[k := o]) && Harmless(fs, k, o, item, day)
    requires forall d :: d in Committed(fs, day) ==> d == day || d.startedAt < day.startedAt
    requires Listed(fs, day.resource, day.runId, day.date, day.date)
    ensures forall d :: d in Committed(fs[k := o], day) ==> d == day || d.startedAt < day.startedAt
  {
    var fs' := fs[k := o];
    forall d | d in Committed(fs', day) && d != day ensures d.startedAt < day.startedAt {
      assert k != DayKey(day.resource, d.runId, day.date);
      assert CommittedBy(fs, day, d.runId);
      assert k == RunKey(day.resource, d.runId) ==> Listed(fs, day.resource, d.runId, day.date, day.date);
      assert d in Committed(fs, day);
    }
  }

  lemma InventoryPut(fs: Store, k: Key, o: Object, e: BundleDay)
    ensures Inventory(fs[k := o], e) == if e.OwnsFile(k) then Inventory(fs, e)[k := o] else Inventory(fs, e)
    ensures QualityInventory(fs[k := o], e) == if OwnsQuality(e, k) then QualityInventory(fs, e)[k := o] else QualityInventory(fs, e)
    ensures PageKeysOf(fs[k := o], e) == PageKeysOf(fs, e) + (if e.OwnsPage(k) then {k} else {})
  {
  }

  lemma {:induction false} PagesFrame(fs: Store, fs': Store, e: BundleDay, n: nat)
    requires forall k :: e.OwnsPage(k) ==> (k in fs <==> k in fs') && (k in fs ==> fs[k] == fs'[k])
    ensures PagesAt(fs, e, n) == PagesAt(fs', e, n) && PageKeysOf(fs, e) == PageKeysOf(fs', e)
  {
    if n > 0 {
      PagesFrame(fs, fs', e, n - 1);
      assert e.OwnsPage(PageKey(e.resource, e.run, e.date, n - 1));
    }
  }

  /* A candidate in the making. */

  /** What a candidate has written so far, on top of the store it began with. */
  datatype Placed = Placed(base: Store, startedAt: int, files: Store, quality: Store, pages: seq<PageManifest>)

  function CandidateOf(item: Item, run: RunId): BundleDay { EntryOf(item.baseline).(run := run) }

  /** Nothing of the run was there, and nothing else changed. */
  ghost predicate OnlyOf(base: Store, fs: Store, run: RunId) {
    && (forall k :: k in base ==> k.run != run)
    && forall k: Key :: k.run != run ==> (k in fs <==> k in base) && (k in base ==> fs[k] == base[k])
  }

  ghost predicate InPlace(fs: Store, item: Item, run: RunId, p: Placed) {
    var e := CandidateOf(item, run);
    && OnlyOf(p.base, fs, run) && Inventory(fs, e) == p.files && QualityInventory(fs, e) == p.quality
    && e.RunOf() in fs && fs[e.RunOf()] == Written(Run(HeaderOf(item, run, p.startedAt)))
    && (forall k :: k in fs && e.OwnsPage(k) ==> k.number < |p.pages|)
    && forall i :: 0 <= i < |p.pages| ==>
         var k := PageKey(e.resource, run, e.date, i); k in fs && fs[k] == Written(Page(p.pages[i]))
  }

  lemma Opened(base: Store, item: Item, run: RunId, startedAt: int)
    requires forall k :: k in base ==> k.run != run
    ensures var k, o := RunKey(item.baseline.resource, run), Written(Run(HeaderOf(item, run, startedAt)));
            InPlace(base[k := o], item, run, Placed(base, startedAt, map[], map[], []))
  {
    var e := CandidateOf(item, run);
    InventoryPut(base, e.RunOf(), Written(Run(HeaderOf(item, run, startedAt))), e);
    assert Inventory(base, e) == map[] && QualityInventory(base, e) == map[];
  }

  /** Files and quality evidence are added to their inventories; markers leave both alone. */
  lemma PutFile(fs: Store, item: Item, run: RunId, p: Placed, k: Key, o: Object)
    requires InPlace(fs, item, run, p) == true && k.run == run && !k.RunKey? && !k.PageKey?
    ensures var e := CandidateOf(item, run);
            InPlace(fs[k := o], item, run, p.(files := if e.OwnsFile(k) then p.files[k := o] else p.files,
                                              quality := if OwnsQuality(e, k) then p.quality[k := o] else p.quality))
  {
    InventoryPut(fs, k, o, CandidateOf(item, run));
  }

  lemma PutPage(fs: Store, item: Item, run: RunId, p: Placed, page: PageManifest)
    requires InPlace(fs, item, run, p) == true
    ensures var k := PageKey(item.baseline.resource, run, item.baseline.date, |p.pages|);
            InPlace(fs[k := Written(Page(page))], item, run, p.(pages := p.pages + [page]))
  {
    var k := PageKey(item.baseline.resource, run, item.baseline.date, |p.pages|);
    InventoryPut(fs, k, Written(Page(page)), CandidateOf(item, run));
  }

  lemma PagesInPlace(fs: Store, item: Item, run: RunId, p: Placed)
    requires InPlace(fs, item, run, p)
    ensures PagesOf(fs, CandidateOf(item, run)) == Some(p.pages)
  {
    var e := CandidateOf(item, run);
    var keys := set i: nat | i < |p.pages| :: PageKey(e.resource, run, e.date, i);
    assert PageKeysOf(fs, e) == keys;
    NumberedCount(e, |p.pages|, keys);
    PagesAtPlaced(fs, e, p.pages, |p.pages|);
    assert p.pages[..|p.pages|] == p.pages;
  }

  lemma {:induction false} NumberedCount(e: BundleDay, n: nat, keys: set<Key>)
    requires forall k :: k in keys <==> e.OwnsPage(k) && k.number < n
    ensures |keys| == n
  {
    if n > 0 {
      var last := PageKey(e.resource, e.run, e.date, n - 1);
      NumberedCount(e, n - 1, keys - {last});
      assert last in keys;
    } else {
      assert keys == {};
    }
  }

  lemma {:induction false} PagesAtPlaced(fs: Store, e: BundleDay, pages: seq<PageManifest>, n: nat)
    requires n <= |pages|
    requires forall i :: 0 <= i < n ==> var k := PageKey(e.resource, e.run, e.date, i); k in fs && fs[k] == Written(Page(pages[i]))
    ensures PagesAt(fs, e, n) == Some(pages[..n])
  {
    if n > 0 {
      PagesAtPlaced(fs, e, pages, n - 1);
      assert pages[..n] == pages[..n - 1] + [pages[n - 1]];
    }
  }

  /** What the baseline wrote is as it was. */
  lemma BaselineUntouched(fs: Store, item: Item, run: RunId, p: Placed)
    requires InPlace(fs, item, run, p) && run != item.baseline.runId && WellKeyed(p.base) && EvidenceHolds(p.base, item)
    requires WellKeyed(fs)
    ensures EvidenceHolds(fs, item)
  {
    var e := EntryOf(item.baseline);
    PagesFrame(p.base, fs, e, |PageKeysOf(p.base, e)|);
    assert Inventory(fs, e) == Inventory(p.base, e) && QualityInventory(fs, e) == QualityInventory(p.base, e);
  }

  /** So the guard may trust what it remembers, and finds the baseline again. */
  lemma GuardMayTrust(base: Store, fs: Store, resource: string, run: RunId)
    requires WellKeyed(base) && WellKeyed(fs) && OnlyOf(base, fs, run)
    ensures CoverageGuard.TerminalKept(base, fs, resource)
  {
  }

  /** The marker of the candidate, so far. */
  predicate NotCommitted(fs: Store, item: Item, run: RunId, startedAt: int)
    requires WellKeyed(fs)
  {
    var marker := ReadDay(fs, item.baseline.resource, run, item.baseline.date);
    marker.Some? ==> marker.value.status != Success && marker.value.startedAt == startedAt
  }

  lemma StillHolds(fs: Store, item: Item, run: RunId, p: Placed)
    requires InPlace(fs, item, run, p) && WellKeyed(fs) && WellKeyed(p.base) && run != item.baseline.runId
    requires BaselineHolds(p.base, item, None) && NotCommitted(fs, item, run, p.startedAt)
    ensures BaselineHolds(fs, item, Some(run))
  {
    BaselineUntouched(fs, item, run, p);
    SameAttempts(p.base, fs, item, run);
  }

  lemma SameAttempts(base: Store, fs: Store, item: Item, run: RunId)
    requires WellKeyed(base) && WellKeyed(fs) && OnlyOf(base, fs, run) && !CommittedBy(fs, item.baseline, run)
    ensures Committed(fs, item.baseline) == Committed(base, item.baseline)
    ensures forall r :: r in ActiveRuns(fs, item.baseline.resource, item.baseline.date) && r != run ==>
              r in ActiveRuns(base, item.baseline.resource, item.baseline.date)
  {
    var day := item.baseline;
    forall d ensures d in Committed(fs, day) <==> d in Committed(base, day) {
      if d.runId != run { assert HasDay(fs, day.resource, d) <==> HasDay(base, day.resource, d); }
    }
    forall r | r in ActiveRuns(fs, day.resource, day.date) && r != run ensures r in ActiveRuns(base, day.resource, day.date) {
      assert Reaches(fs, day.resource, r, day.date);
    }
  }

  /** The start times of the day's attempts, and that of the candidate, all differ. */
  ghost predicate StartsDiffer(fs: Store, item: Item, startedAt: int)
    requires WellKeyed(fs)
  {
    var attempts := Attempts(fs, item.baseline.resource, item.baseline.date, item.baseline.date, item.baseline.date);
    DistinctStarts(attempts) && forall d :: d in attempts ==> d.startedAt != startedAt
  }

  lemma StillReadable(fs: Store, item: Item, run: RunId, p: Placed)
    requires InPlace(fs, item, run, p) && WellKeyed(fs) && WellKeyed(p.base) && NotCommitted(fs, item, run, p.startedAt)
    requires CoverageGuard.AllHeaded(p.base, item.baseline.resource) && StartsDiffer(p.base, item, p.startedAt)
    ensures CoverageGuard.AllHeaded(fs, item.baseline.resource)
    ensures DistinctStarts(Attempts(fs, item.baseline.resource, item.baseline.date, item.baseline.date, item.baseline.date))
  {
    var resource, date := item.baseline.resource, item.baseline.date;
    forall r | r in CoverageGuard.RunDirs(fs, resource) ensures ReadRun(fs, resource, r).Some? {
      if r != run { assert r in CoverageGuard.RunDirs(p.base, resource); }
    }
    var before, after := Attempts(p.base, resource, date, date, date), Attempts(fs, resource, date, date, date);
    forall d | d in after ensures if d.runId == run then d.startedAt == p.startedAt else d in before {
      assert HasDay(fs, resource, d) && Listed(fs, resource, d.runId, date, date);
    }
  }
}
