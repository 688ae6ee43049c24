/** Portable bundles of committed days: their inventory, and the checks an archive must
    pass before any of it is imported. */
module Archive {
  import opened Wrappers
  import opened Control
  import opened ParquetFiles
  import opened Projection

  datatype BundleDay = BundleDay(resource: string, date: int, run: RunId, objects: seq<Key>) {
    function RunOf(): Key { RunKey(resource, run) }

    function MarkerOf(): Key { DayKey(resource, run, date) }

    predicate OwnsPage(k: Key) { k.PageKey? && k.resource == resource && k.run == run && k.date == date }

    /** A Parquet file of this day and run, in one of its resource's tables. */
    predicate OwnsFile(k: Key) { k.FileKey? && k.table in Tables(resource) && k.date == date && k.run == run }
  }

  /** The ZIP: its index (`lo..hi` is the calendar of its year) and its members. */
  datatype Bundle = Bundle(legacy: bool, lo: int, hi: int, resources: seq<string>, missing: map<string, seq<int>>,
                           days: seq<BundleDay>, objects: map<Key, Digest>, members: Store)

  function SumItems(pages: seq<PageManifest>): nat {
    if pages == [] then 0 else SumItems(pages[..|pages| - 1]) + pages[|pages| - 1].searchItems
  }

  function SumRecords(pages: seq<PageManifest>): nat {
    if pages == [] then 0 else SumRecords(pages[..|pages| - 1]) + pages[|pages| - 1].bronzeRecords
  }

  /** `validate_day_metadata`: the day, its run and its pages are consistent and finished. */
  predicate DayMetadataValid(resource: string, date: int, runId: RunId, run: RunManifest, day: DayManifest,
                             pages: seq<PageManifest>, legacy: bool)
  {
    && run.schemaVersion == 1
    && (run.completedAt.Some? ==> run.completedAt.value >= run.startedAt)
    && (legacy ==>
          && Completed(run.schemaVersion, run.status == RunSuccess, run.startedAt, run.completedAt)
          && run.start == run.end == date && run.totalDates == run.successDates == 1 && run.failedDates == 0)
    && CompletedDay(day) && day.runId == runId
    && (forall i :: 0 <= i < |pages| ==>
          && Completed(pages[i].schemaVersion, pages[i].status == Success, pages[i].startedAt, pages[i].completedAt)
          && pages[i].runId == runId)
    && run.runId == runId && run.source == day.source == DEFAULT_SOURCE && run.resource == day.resource == resource
    && run.start <= date <= run.end && day.date == date && day.errorCount == 0
    && day.expectedPages == Some(|pages|) && day.completedPages == |pages|
    && (forall i :: 0 <= i < |pages| ==> pages[i].number == i && pages[i].date == date && pages[i].errorCount == 0)
    && SumRecords(pages) == day.bronzeRecords && SumItems(pages) == day.searchItems
  }

  /* `_validate_index` */

  predicate Distinct<T(==)>(items: seq<T>) {
    forall i, j :: 0 <= i < j < |items| ==> items[i] != items[j]
  }

  /** A day may not come twice, and in the old format neither may a run. */
  predicate Clash(b: Bundle, d: BundleDay, e: BundleDay) {
    d.resource == e.resource && (d.date == e.date || (b.legacy && d.run == e.run))
  }

  /** Two days own no object together, but for a run header they share. */
  ghost predicate Apart(b: Bundle, d: BundleDay, e: BundleDay) {
    forall k :: k in d.objects && k in e.objects ==> !b.legacy && k == e.RunOf()
  }

  ghost predicate DaysValid(b: Bundle, days: seq<BundleDay>) {
    && (forall i :: 0 <= i < |days| ==>
          days[i].resource in b.resources && b.lo <= days[i].date <= b.hi && Distinct(days[i].objects))
    && (forall i, j :: 0 <= i < j < |days| ==> !Clash(b, days[i], days[j]) && Apart(b, days[i], days[j]))
  }

  ghost predicate Owned(days: seq<BundleDay>, k: Key) {
    exists i :: 0 <= i < |days| && k in days[i].objects
  }

  ghost predicate Selected(days: seq<BundleDay>, resource: string, date: int) {
    exists i :: 0 <= i < |days| && days[i].resource == resource && days[i].date == date
  }

  /** The missing dates of a resource are exactly the calendar days without an entry. */
  ghost predicate MissingExact(b: Bundle, resource: string) {
    && resource in b.missing && Distinct(b.missing[resource])
    && forall date :: date in b.missing[resource] <==> b.lo <= date <= b.hi && !Selected(b.days, resource, date)
  }

  ghost predicate IndexValid(b: Bundle) {
    && Distinct(b.resources) && (forall r :: r in b.missing <==> r in b.resources)
    && (forall r :: r in b.resources ==> Supported(r))
    && DaysValid(b, b.days)
    && (forall k :: k in b.objects <==> Owned(b.days, k))
    && (forall r :: r in b.resources ==> MissingExact(b, r))
  }

  method AllDistinct<T(==)>(items: seq<T>) returns (ok: bool)
    ensures ok <==> Distinct(items)
  {
    var seen: set<T> := {};
    for i := 0 to |items|
      invariant Distinct(items[..i]) && forall x :: x in seen <==> x in items[..i]
    {
      if items[i] in seen {
        var j :| 0 <= j < i && items[..i][j] == items[i];
        assert items[j] == items[i];
        return false;
      }
      seen := seen + {items[i]};
      assert items[..i + 1] == items[..i] + [items[i]];
    }
    assert items[..|items|] == items;
    return true;
  }

  datatype Pair = Pair(resource: string, date: int)

  datatype RunPair = RunPair(resource: string, run: RunId)

  /** Claim the objects of one day. */
  method ClaimObjects(b: Bundle, entry: BundleDay, objects: set<Key>) returns (ok: bool, claimed: set<Key>)
    requires Distinct(entry.objects)
    ensures ok <==> forall k :: k in entry.objects && k in objects ==> !b.legacy && k == entry.RunOf()
    ensures ok ==> forall k :: k in claimed <==> k in objects || k in entry.objects
  {
    claimed := objects;
    for i := 0 to |entry.objects|
      invariant forall k :: k in claimed <==> k in objects || k in entry.objects[..i]
      invariant forall j :: 0 <= j < i && entry.objects[j] in objects ==> !b.legacy && entry.objects[j] == entry.RunOf()
    {
      var k := entry.objects[i];
      assert entry.objects[..i + 1] == entry.objects[..i] + [k];
      if k in claimed && !(!b.legacy && k == entry.RunOf()) {
        assert k !in entry.objects[..i];
        assert k in entry.objects;
        return false, claimed;
      }
      claimed := claimed + {k};
    }
    assert entry.objects[..|entry.objects|] == entry.objects;
    return true, claimed;
  }

  ghost predicate RanIn(days: seq<BundleDay>, resource: string, run: RunId) {
    exists i :: 0 <= i < |days| && days[i].resource == resource && days[i].run == run
  }

  /** The sets the scan builds, over the days seen so far. */
  ghost predicate Scanned(days: seq<BundleDay>, selected: set<Pair>, runs: set<RunPair>, objects: set<Key>) {
    && (forall p :: p in selected <==> Selected(days, p.resource, p.date))
    && (forall p :: p in runs <==> RanIn(days, p.resource, p.run))
    && (forall k :: k in objects <==> Owned(days, k))
  }

  lemma ScannedNext(days: seq<BundleDay>, i: nat, selected: set<Pair>, runs: set<RunPair>, objects: set<Key>, claimed: set<Key>)
    requires i < |days| && Scanned(days[..i], selected, runs, objects)
    requires forall k :: k in claimed <==> k in objects || k in days[i].objects
    ensures Scanned(days[..i + 1], selected + {Pair(days[i].resource, days[i].date)},
                    runs + {RunPair(days[i].resource, days[i].run)}, claimed)
  {
  }

  /** What the scan checks of a day against the days before it. */
  ghost predicate Fresh(b: Bundle, before: seq<BundleDay>, e: BundleDay) {
    && e.resource in b.resources && b.lo <= e.date <= b.hi && Distinct(e.objects)
    && !Selected(before, e.resource, e.date)
    && (b.legacy ==> !RanIn(before, e.resource, e.run))
    && forall k :: k in e.objects && Owned(before, k) ==> !b.legacy && k == e.RunOf()
  }

  lemma FreshNext(b: Bundle, days: seq<BundleDay>, i: nat)
    requires i < |days| && DaysValid(b, days[..i])
    ensures DaysValid(b, days[..i + 1]) <==> Fresh(b, days[..i], days[i])
  {
    var before, after, e := days[..i], days[..i + 1], days[i];
    assert after[i] == e && forall j :: 0 <= j < i ==> after[j] == before[j];
    if Fresh(b, before, e) {
      forall j | 0 <= j < i ensures !Clash(b, before[j], e) && Apart(b, before[j], e) {
        assert !Selected(before, e.resource, e.date) ==> !(before[j].resource == e.resource && before[j].date == e.date);
        forall k | k in before[j].objects && k in e.objects ensures !b.legacy && k == e.RunOf() { assert Owned(before, k); }
      }
    }
    if DaysValid(b, after) {
      forall j | 0 <= j < i ensures !Clash(b, before[j], e) && Apart(b, before[j], e) {
        assert !Clash(b, after[j], after[i]) && Apart(b, after[j], after[i]);
      }
    }
  }

  /** The first loop of `_validate_index`. */
  method ScanDays(b: Bundle) returns (ok: bool, selected: set<Pair>, objects: set<Key>)
    ensures ok <==> DaysValid(b, b.days)
    ensures ok ==> forall p :: p in selected <==> Selected(b.days, p.resource, p.date)
    ensures ok ==> forall k :: k in objects <==> Owned(b.days, k)
  {
    selected, objects := {}, {};
    var runs: set<RunPair> := {};
    for i := 0 to |b.days|
      invariant DaysValid(b, b.days[..i]) && Scanned(b.days[..i], selected, runs, objects)
    {
      var e := b.days[i];
      FreshNext(b, b.days, i);
      ok := e.resource in b.resources && b.lo <= e.date <= b.hi
            && Pair(e.resource, e.date) !in selected && !(b.legacy && RunPair(e.resource, e.run) in runs);
      if ok {
        ok := AllDistinct(e.objects);
      }
      if !ok {
        PrefixInvalid(b, i);
        return;
      }
      var claimed;
      ok, claimed := ClaimObjects(b, e, objects);
      if !ok {
        PrefixInvalid(b, i);
        return;
      }
      ScannedNext(b.days, i, selected, runs, objects, claimed);
      selected, runs, objects := selected + {Pair(e.resource, e.date)}, runs + {RunPair(e.resource, e.run)}, claimed;
    }
    assert b.days[..|b.days|] == b.days;
    ok := true;
  }

  lemma PrefixInvalid(b: Bundle, i: nat)
    requires i < |b.days| && !DaysValid(b, b.days[..i + 1])
    ensures !DaysValid(b, b.days)
  {
  }

  /** `set(missing) == calendar - present`, without repeats. */
  method CheckMissing(b: Bundle, resource: string, selected: set<Pair>) returns (ok: bool)
    requires resource in b.missing && forall p :: p in selected <==> Selected(b.days, p.resource, p.date)
    ensures ok <==> MissingExact(b, resource)
  {
    var missing := b.missing[resource];
    ok := AllDistinct(missing);
    var listed := set date | date in missing :: Pair(resource, date);
    var calendar := set date | b.lo <= date <= b.hi :: Pair(resource, date);
    var present := set p | p in selected && p.resource == resource;
    ok := ok && listed == calendar - present;
    assert forall date :: date in missing <==> Pair(resource, date) in listed;
    assert forall date :: Pair(resource, date) in calendar - present <==> b.lo <= date <= b.hi && !Selected(b.days, resource, date);
  }

  method ValidateIndex(b: Bundle) returns (ok: bool)
    ensures ok <==> IndexValid(b)
  {
    ok := AllDistinct(b.resources);
    var named := set r | r in b.resources;
    if !ok || b.missing.Keys != named {
      return false;
    }
    for i := 0 to |b.resources|
      invariant forall j :: 0 <= j < i ==> Supported(b.resources[j])
    {
      if !Supported(b.resources[i]) {
        assert b.resources[i] in b.resources;
        return false;
      }
    }
    var selected, objects;
    ok, selected, objects := ScanDays(b);
    if !ok || objects != b.objects.Keys {
      return false;
    }
    for i := 0 to |b.resources|
      invariant forall j :: 0 <= j < i ==> MissingExact(b, b.resources[j])
    {
      assert b.resources[i] in b.resources;
      ok := CheckMissing(b, b.resources[i], selected);
      if !ok {
        return;
      }
    }
    return true;
  }

  /* `ValidatedArchive` */

  /* Reading a manifest: None when the object is missing or is not one. */

  function RunAt(fs: Store, e: BundleDay): Option<RunManifest> {
    if e.RunOf() in fs && fs[e.RunOf()].content.Run? then Some(fs[e.RunOf()].content.run) else None
  }

  function DayAt(fs: Store, e: BundleDay): Option<DayManifest> {
    if e.MarkerOf() in fs && fs[e.MarkerOf()].content.Day? then Some(fs[e.MarkerOf()].content.day) else None
  }

  /** The first `n` pages of a day, by number. */
  function PagesAt(fs: Store, e: BundleDay, n: nat): Option<seq<PageManifest>> {
    if n == 0 then Some([])
    else
      var k, rest := PageKey(e.resource, e.run, e.date, n - 1), PagesAt(fs, e, n - 1);
      if rest.None? || k !in fs || !fs[k].content.Page? then None else Some(rest.value + [fs[k].content.page])
  }

  function PageKeysOf(fs: Store, e: BundleDay): set<Key> {
    set k | k in fs && e.OwnsPage(k)
  }

  /** `list_page_manifests`, when the pages are numbered without a gap. */
  function PagesOf(fs: Store, e: BundleDay): Option<seq<PageManifest>> {
    PagesAt(fs, e, |PageKeysOf(fs, e)|)
  }

  function RowsIn(o: Object): seq<Row>
    requires o.content.Parquet?
  {
    Flatten(o.content.file.batches)
  }

  /** The number of rows of the Parquet files among some keys. */
  function FileRows(fs: Store, keys: seq<Key>): nat {
    if keys == [] then 0
    else
      var k := keys[|keys| - 1];
      FileRows(fs, keys[..|keys| - 1]) + (if k.FileKey? && k in fs && fs[k].content.Parquet? then |RowsIn(fs[k])| else 0)
  }

  /** Every record carries the run, the date and the hash it should. */
  predicate SoundFile(o: Object, run: RunId, date: int) {
    o.content.Parquet? && RowsOk(RowsIn(o), run, date)
  }

  /** `verify_committed`: every file can be read, its rows carry the right lineage and
      hashes, and they are as many as the day says. */
  ghost predicate Verified(fs: Store, e: BundleDay, day: DayManifest) {
    && (forall k :: k in e.objects && k.FileKey? ==> k in fs && SoundFile(fs[k], e.run, e.date))
    && FileRows(fs, e.objects) == day.bronzeRecords
  }

  lemma {:induction false} FileRowsFrame(fs: Store, fs': Store, keys: seq<Key>)
    requires forall k: Key :: k in keys && k.FileKey? ==> k in fs && k in fs' && fs'[k] == fs[k]
    ensures FileRows(fs', keys) == FileRows(fs, keys)
  {
    if keys != [] { FileRowsFrame(fs, fs', keys[..|keys| - 1]); }
  }

  /** The check looks at nothing but the day's files. */
  lemma VerifiedFrame(fs: Store, fs': Store, e: BundleDay, day: DayManifest)
    requires forall k: Key :: k in e.objects && k.FileKey? ==> k in fs && k in fs' && fs'[k] == fs[k]
    ensures Verified(fs', e, day) == Verified(fs, e, day)
  {
    FileRowsFrame(fs, fs', e.objects);
  }

  method VerifyCommitted(fs: Store, e: BundleDay, day: DayManifest) returns (ok: bool)
    ensures ok == Verified(fs, e, day)
  {
    var rows := 0;
    for i := 0 to |e.objects|
      invariant forall j :: 0 <= j < i && e.objects[j].FileKey? ==>
                  e.objects[j] in fs && SoundFile(fs[e.objects[j]], e.run, e.date)
      invariant rows == FileRows(fs, e.objects[..i])
    {
      var k := e.objects[i];
      assert e.objects[..i + 1][..i] == e.objects[..i];
      if k.FileKey? {
        if k !in fs || !SoundFile(fs[k], e.run, e.date) {
          assert k in e.objects;
          return false;
        }
        rows := rows + |RowsIn(fs[k])|;
      }
    }
    assert e.objects[..|e.objects|] == e.objects;
    return rows == day.bronzeRecords;
  }

  /** The objects a day with `n` pages may list. */
  predicate Expected(e: BundleDay, n: nat, k: Key) {
    k == e.RunOf() || k == e.MarkerOf() || (e.OwnsPage(k) && k.number < n) || e.OwnsFile(k)
  }

  /** `_validate_day` */
  ghost predicate DayValid(b: Bundle, e: BundleDay) {
    && e.RunOf() in e.objects && e.MarkerOf() in e.objects
    && var run, day := RunAt(b.members, e), DayAt(b.members, e);
    && run.Some? && day.Some? && day.value.expectedPages.Some?
    && var n := day.value.expectedPages.value;
    && (forall i: nat :: i < n ==> PageKey(e.resource, e.run, e.date, i) in e.objects)
    && (forall k :: k in e.objects ==> Expected(e, n, k))
    && var pages := PagesAt(b.members, e, n);
    && pages.Some? && DayMetadataValid(e.resource, e.date, e.run, run.value, day.value, pages.value, b.legacy)
    && Verified(b.members, e, day.value)
  }

  /** An archive the importer accepts. */
  ghost predicate Valid(b: Bundle) {
    && b.lo < b.hi && IndexValid(b) && b.members.Keys == b.objects.Keys
    && (forall k :: k in b.objects ==> b.members[k].digest == b.objects[k])
    && (forall e :: e in b.days ==> DayValid(b, e))
  }

  lemma {:induction false} PagesAtMeaning(fs: Store, e: BundleDay, n: nat)
    requires PagesAt(fs, e, n).Some?
    ensures |PagesAt(fs, e, n).value| == n
    ensures forall i: nat :: i < n ==>
              var k := PageKey(e.resource, e.run, e.date, i);
              k in fs && fs[k].content == Page(PagesAt(fs, e, n).value[i])
  {
    if n > 0 { PagesAtMeaning(fs, e, n - 1); }
  }

  lemma MemberFits(b: Bundle, e: BundleDay, k: Key)
    requires DayValid(b, e) && k in e.objects && k in b.members
    ensures KeyFits(k, b.members[k].content)
  {
    var n := DayAt(b.members, e).value.expectedPages.value;
    assert Expected(e, n, k);
    if k.PageKey? {
      PagesAtMeaning(b.members, e, n);
    }
  }

  /* What the import relies on. */

  /** A day's objects: its run header, its marker, its pages and its files. */
  predicate Shape(e: BundleDay, k: Key) {
    k == e.RunOf() || k == e.MarkerOf() || e.OwnsPage(k) || e.OwnsFile(k)
  }

  ghost predicate SoundDay(b: Bundle, e: BundleDay) {
    && RunAt(b.members, e).Some? && DayAt(b.members, e).Some?
    && e.RunOf() in e.objects && e.MarkerOf() in e.objects
    && (forall k :: k in e.objects ==>
          && k in b.objects && k in b.members && b.members[k].digest == b.objects[k]
          && KeyFits(k, b.members[k].content) && Shape(e, k))
    && DayOf(RunAt(b.members, e).value, DayAt(b.members, e).value)
    && b.lo <= e.date <= b.hi
    && Verified(b.members, e, DayAt(b.members, e).value)
  }

  ghost predicate Sound(b: Bundle) {
    forall e :: e in b.days ==> SoundDay(b, e)
  }

  /** Days are of different resources or dates and share no object but a run header. */
  ghost predicate Disjoint(b: Bundle) {
    && Distinct(b.days)
    && forall d, e :: d in b.days && e in b.days && d != e ==>
         && !(d.resource == e.resource && d.date == e.date)
         && forall k :: k in d.objects && k in e.objects ==> k.RunKey?
  }

  /** Every archive that passes validation is sound. */
  lemma ValidIsSound(b: Bundle)
    requires Valid(b)
    ensures Sound(b) && Disjoint(b)
  {
    forall e | e in b.days ensures SoundDay(b, e) {
      var i :| 0 <= i < |b.days| && b.days[i] == e;
      forall k | k in e.objects ensures k in b.objects { assert Owned(b.days, k); }
      ValidDayIsSound(b, e);
    }
    assert Distinct(b.days) by {
      forall i, j | 0 <= i < j < |b.days| ensures b.days[i] != b.days[j] { assert !Clash(b, b.days[i], b.days[j]); }
    }
    forall d, e | d in b.days && e in b.days && d != e
      ensures !(d.resource == e.resource && d.date == e.date) && forall k :: k in d.objects && k in e.objects ==> k.RunKey?
    {
      DaysApart(b, d, e);
    }
  }

  lemma DaysApart(b: Bundle, d: BundleDay, e: BundleDay)
    requires DaysValid(b, b.days) && d in b.days && e in b.days && d != e
    ensures !(d.resource == e.resource && d.date == e.date) && forall k :: k in d.objects && k in e.objects ==> k.RunKey?
  {
  }

  lemma ValidDayIsSound(b: Bundle, e: BundleDay)
    requires DayValid(b, e) && b.lo <= e.date <= b.hi
    requires forall k :: k in e.objects ==> k in b.objects && k in b.members && b.members[k].digest == b.objects[k]
    ensures SoundDay(b, e)
  {
    forall k | k in e.objects ensures KeyFits(k, b.members[k].content) && Shape(e, k) {
      MemberFits(b, e, k);
      assert Expected(e, DayAt(b.members, e).value.expectedPages.value, k);
    }
  }

  /** `day_manifests` and `run_manifests` */
  function DayIn(b: Bundle, e: BundleDay): DayManifest
    requires DayAt(b.members, e).Some?
  {
    DayAt(b.members, e).value
  }

  function RunIn(b: Bundle, e: BundleDay): RunManifest
    requires RunAt(b.members, e).Some?
  {
    RunAt(b.members, e).value
  }
}
