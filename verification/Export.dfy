/** `export_bundle`: the committed days of a year as a bundle. Its index always passes
    `_validate_index`, and importing it into an empty store brings back the same
    effective attempts and nothing else. */
module Export {
  import opened Wrappers
  import opened Collections
  import opened Control
  import opened Coverage
  import opened Projection
  import opened Archive

  /** An entry for an effective day of the source store. */
  ghost predicate EntryOk(fs: Store, e: BundleDay, day: DayManifest)
    requires WellKeyed(fs)
  {
    && e.date == day.date && e.run == day.runId
    && e.RunOf() in e.objects && e.MarkerOf() in e.objects && Distinct(e.objects)
    && (forall k :: k in e.objects ==> k in fs) && (forall k :: k in fs && e.OwnsFile(k) ==> k in e.objects)
    && DayAt(fs, e) == Some(day) && RunAt(fs, e).Some? && day.expectedPages.Some?
    && var n := day.expectedPages.value;
    && (forall i: nat :: i < n ==> PageKey(e.resource, e.run, e.date, i) in e.objects)
    && (forall k :: k in e.objects ==> Expected(e, n, k))
    && PagesAt(fs, e, n).Some?
    && DayMetadataValid(e.resource, e.date, e.run, RunAt(fs, e).value, day, PagesAt(fs, e, n).value, false) == true
  }

  /** `objects.extend(sorted(fs.glob(...)))` over the tables of the resource. */
  method ListFiles(fs: Store, e: BundleDay) returns (keys: seq<Key>)
    ensures Distinct(keys) && forall k :: k in keys <==> k in fs && e.OwnsFile(k)
  {
    var tables := Tables(e.resource);
    keys := [];
    for t := 0 to |tables|
      invariant Distinct(keys)
      invariant forall k :: k in keys <==> k in fs && e.OwnsFile(k) && k.table in tables[..t]
    {
      assert tables[t] in tables && tables[..t + 1] == tables[..t] + [tables[t]];
      TablesDistinct(e.resource);
      var listing := Enumerate(set k | k in fs && k.FileKey? && k.table == tables[t] && k.date == e.date && k.run == e.run);
      assert forall k :: k in keys && k in listing ==> k.table in tables[..t] && k.table == tables[t];
      ConcatDistinct(keys, listing);
      keys := keys + listing;
    }
    assert tables[..|tables|] == tables;
  }

  lemma ConcatDistinct<T>(a: seq<T>, b: seq<T>)
    requires Distinct(a) && Distinct(b) && forall x :: !(x in a && x in b)
    ensures Distinct(a + b)
  {
    forall i, j | 0 <= i < j < |a + b| ensures (a + b)[i] != (a + b)[j] {
      if i < |a| <= j { assert a[i] in a && b[j - |a|] in b; }
    }
  }

  lemma TablesDistinct(resource: string)
    ensures Distinct(Tables(resource))
  {
  }

  /** The pages of a day when they are numbered 0, 1, ... without a gap. */
  method ListPages(fs: Store, e: BundleDay) returns (pages: Option<seq<PageManifest>>)
    ensures pages == PagesOf(fs, e) && (pages.Some? ==> pages == PagesAt(fs, e, |pages.value|))
  {
    pages := PagesOf(fs, e);
    if pages.Some? { PagesAtMeaning(fs, e, |PageKeysOf(fs, e)|); }
  }

  function PageKeys(e: BundleDay, n: nat): (keys: seq<Key>)
    ensures |keys| == n && forall i :: 0 <= i < n ==> keys[i] == PageKey(e.resource, e.run, e.date, i)
  {
    if n == 0 then [] else PageKeys(e, n - 1) + [PageKey(e.resource, e.run, e.date, n - 1)]
  }

  /** The day has its run, finished pages that add up, and files if it has records. */
  ghost predicate Exportable(fs: Store, resource: string, day: DayManifest)
    requires WellKeyed(fs)
  {
    var e, run := BundleDay(resource, day.date, day.runId, []), ReadRun(fs, resource, day.runId);
    && run.Some? && PagesOf(fs, e).Some?
    && DayMetadataValid(resource, day.date, day.runId, run.value, day, PagesOf(fs, e).value, false)
    && (day.bronzeRecords > 0 ==> exists k :: k in fs && e.OwnsFile(k))
  }

  /** Its files carry its lineage and hashes, and as many rows as it says. */
  ghost predicate FilesSound(fs: Store, resource: string, day: DayManifest) {
    var e := BundleDay(resource, day.date, day.runId, []);
    && (forall k :: k in fs && e.OwnsFile(k) ==> SoundFile(fs[k], day.runId, day.date))
    && forall files :: Lists(files, FilesOf(fs, e)) ==> FileRows(fs, files) == day.bronzeRecords
  }

  function FilesOf(fs: Store, e: BundleDay): set<Key> {
    set k | k in fs && e.OwnsFile(k)
  }

  /** A day readers see. */
  ghost predicate EffectiveDay(fs: Store, resource: string, lo: int, hi: int, day: DayManifest)
    requires WellKeyed(fs)
  {
    lo <= day.date <= hi && IsLatest(Committed(Attempts(fs, resource, lo, hi, day.date)), Some(day))
  }

  /** Every day readers see is consistent, down to its rows. */
  ghost predicate AllExportable(fs: Store, resources: seq<string>, lo: int, hi: int)
    requires WellKeyed(fs)
  {
    forall r, d :: r in resources && EffectiveDay(fs, r, lo, hi, d) ==> Exportable(fs, r, d) && FilesSound(fs, r, d)
  }

  /** No two commits of a day started at the same time. */
  ghost predicate StartsDiffer(fs: Store, resources: seq<string>, lo: int, hi: int)
    requires WellKeyed(fs)
  {
    forall r, date :: r in resources && lo <= date <= hi ==> DistinctStarts(Committed(Attempts(fs, r, lo, hi, date)))
  }

  /** One selected day; None exactly when it is inconsistent or lost its files. */
  method SourceDay(fs: Store, resource: string, day: DayManifest) returns (entry: Option<BundleDay>)
    requires WellKeyed(fs) && HasDay(fs, resource, day) && day.resource == resource
    ensures entry.Some? <==> Exportable(fs, resource, day)
    ensures entry.Some? ==> entry.value.resource == resource && EntryOk(fs, entry.value, day)
  {
    var e := BundleDay(resource, day.date, day.runId, []);
    var run := ReadRun(fs, resource, day.runId);
    if run.None? {
      return None;
    }
    var pages := ListPages(fs, e);
    if pages.None? || !DayMetadataValid(resource, day.date, day.runId, run.value, day, pages.value, false) {
      return None;
    }
    var files := ListFiles(fs, e);
    if day.bronzeRecords > 0 && files == [] {
      return None;
    }
    if files != [] { assert files[0] in files; }
    var n := |pages.value|;
    EntryFound(fs, resource, day, run.value, pages.value, files);
    return Some(e.(objects := [e.RunOf(), e.MarkerOf()] + PageKeys(e, n) + files));
  }

  /** The entry of a consistent day lists its own objects, each once. */
  lemma EntryFound(fs: Store, resource: string, day: DayManifest, run: RunManifest, pages: seq<PageManifest>, files: seq<Key>)
    requires WellKeyed(fs) && HasDay(fs, resource, day) && day.resource == resource
    requires ReadRun(fs, resource, day.runId) == Some(run)
    requires var e := BundleDay(resource, day.date, day.runId, []);
             && PagesAt(fs, e, |pages|) == Some(pages)
             && Distinct(files) && forall k :: k in files <==> k in fs && e.OwnsFile(k)
    requires DayMetadataValid(resource, day.date, day.runId, run, day, pages, false) == true && (day.bronzeRecords > 0 ==> files != [])
    ensures var e := BundleDay(resource, day.date, day.runId, []);
            EntryOk(fs, e.(objects := [e.RunOf(), e.MarkerOf()] + PageKeys(e, |pages|) + files), day)
  {
    var e, n := BundleDay(resource, day.date, day.runId, []), |pages|;
    var found := e.(objects := [e.RunOf(), e.MarkerOf()] + PageKeys(e, n) + files);
    PagesAtMeaning(fs, e, n);
    ObjectsDistinct(e, n, files);
    SamePages(fs, e, found, n);
    forall k ensures k in found.objects <==> k == e.RunOf() || k == e.MarkerOf() || k in PageKeys(e, n) || k in files {
      ListedIn([e.RunOf(), e.MarkerOf()], PageKeys(e, n), files, k);
    }
    forall k | k in PageKeys(e, n) ensures k in fs && found.OwnsPage(k) && k.number < n { PageKeyIn(e, n, k); }
    forall k | k in fs && found.OwnsFile(k) ensures k in found.objects { assert e.OwnsFile(k) && k in files; }
    forall i: nat | i < n ensures PageKey(found.resource, found.run, found.date, i) in found.objects {
      assert PageKeys(e, n)[i] in PageKeys(e, n);
    }
  }

  lemma ListedIn(a: seq<Key>, b: seq<Key>, c: seq<Key>, k: Key)
    ensures k in a + b + c <==> k in a || k in b || k in c
  {
  }

  lemma PageKeyIn(e: BundleDay, n: nat, k: Key)
    requires k in PageKeys(e, n)
    ensures e.OwnsPage(k) && k.number < n && k == PageKey(e.resource, e.run, e.date, k.number)
  {
  }

  lemma {:induction false} SamePages(fs: Store, d: BundleDay, e: BundleDay, n: nat)
    requires d.resource == e.resource && d.run == e.run && d.date == e.date
    ensures PagesAt(fs, d, n) == PagesAt(fs, e, n)
  {
    if n > 0 { SamePages(fs, d, e, n - 1); }
  }

  lemma ObjectsDistinct(e: BundleDay, n: nat, files: seq<Key>)
    requires Distinct(files) && forall k :: k in files ==> k.FileKey?
    ensures Distinct([e.RunOf(), e.MarkerOf()] + PageKeys(e, n) + files)
  {
    var objects := [e.RunOf(), e.MarkerOf()] + PageKeys(e, n) + files;
    forall i, j | 0 <= i < j < |objects| ensures objects[i] != objects[j] {
      if j >= 2 + n { assert objects[j] == files[j - 2 - n] && files[j - 2 - n] in files; }
      if 2 <= i < 2 + n { assert objects[i] == PageKeys(e, n)[i - 2]; }
      if i >= 2 + n { assert objects[i] == files[i - 2 - n]; }
    }
  }

  /* `_source_plan` */

  /** Every entry is of an effective day of one of the resources. */
  ghost predicate EntriesOk(fs: Store, resources: seq<string>, lo: int, hi: int, entries: seq<BundleDay>)
    requires WellKeyed(fs)
  {
    forall i :: 0 <= i < |entries| ==>
      && entries[i].resource in resources && lo <= entries[i].date <= hi
      && IsLatest(Committed(Attempts(fs, entries[i].resource, lo, hi, entries[i].date)), DayAt(fs, entries[i]))
      && DayAt(fs, entries[i]).Some? && EntryOk(fs, entries[i], DayAt(fs, entries[i]).value)
      && Exportable(fs, entries[i].resource, DayAt(fs, entries[i]).value)
  }

  ghost predicate OneEntryEach(entries: seq<BundleDay>) {
    forall i, j :: 0 <= i < j < |entries| ==> !(entries[i].resource == entries[j].resource && entries[i].date == entries[j].date)
  }

  /** The days of one resource, up to the `n`th of its calendar. */
  ghost predicate ResourcePlanned(fs: Store, resource: string, lo: int, hi: int, n: nat, entries: seq<BundleDay>, missing: seq<int>)
    requires WellKeyed(fs)
  {
    && EntriesOk(fs, [resource], lo, hi, entries) && OneEntryEach(entries) && Distinct(missing)
    && DatesBelow(entries, lo + n) && MissingOk(fs, resource, lo, hi, n, entries, missing)
    && AllTold(entries, missing, resource, lo, n)
  }

  ghost predicate DatesBelow(entries: seq<BundleDay>, limit: int) {
    forall i :: 0 <= i < |entries| ==> entries[i].date < limit
  }

  ghost predicate MissingOk(fs: Store, resource: string, lo: int, hi: int, n: nat, entries: seq<BundleDay>, missing: seq<int>)
    requires WellKeyed(fs)
  {
    forall i :: 0 <= i < |missing| ==> lo <= missing[i] < lo + n && Uncommitted(fs, resource, lo, hi, entries, missing[i])
  }

  /** Nothing was taken for this date, and nothing is committed. */
  ghost predicate Uncommitted(fs: Store, resource: string, lo: int, hi: int, entries: seq<BundleDay>, date: int)
    requires WellKeyed(fs)
  {
    !Selected(entries, resource, date) && Committed(Attempts(fs, resource, lo, hi, date)) == {}
  }

  ghost predicate AllTold(entries: seq<BundleDay>, missing: seq<int>, resource: string, lo: int, n: nat) {
    forall date :: lo <= date < lo + n ==> date in missing || Selected(entries, resource, date)
  }

  /** A day readers see that is inconsistent or lost its files. */
  ghost predicate Unexportable(fs: Store, resource: string, lo: int, hi: int)
    requires WellKeyed(fs)
  {
    exists d: DayManifest :: EffectiveDay(fs, resource, lo, hi, d) && !Exportable(fs, resource, d)
  }

  ghost predicate NothingCommitted(fs: Store, resources: seq<string>, lo: int, hi: int)
    requires WellKeyed(fs)
  {
    forall r, date :: r in resources && lo <= date <= hi ==> Committed(Attempts(fs, r, lo, hi, date)) == {}
  }

  method PlanResource(fs: Store, resource: string, lo: int, hi: int)
    returns (planned: bool, entries: seq<BundleDay>, missing: seq<int>)
    requires WellKeyed(fs) && lo <= hi && Supported(resource)
    ensures planned ==> ResourcePlanned(fs, resource, lo, hi, hi - lo + 1, entries, missing)
    ensures !planned ==> Unexportable(fs, resource, lo, hi)
  {
    var scan := ReadCoverage(fs, resource, lo, hi);
    var coverage := scan.value;
    entries, missing := [], [];
    for c := 0 to |coverage|
      invariant ResourcePlanned(fs, resource, lo, hi, c, entries, missing)
    {
      var covered := coverage[c];
      if covered.effective.None? {
        NextMissing(fs, resource, lo, hi, c, entries, missing);
        missing := missing + [covered.date];
      } else {
        var day := covered.effective.value;
        assert day in Attempts(fs, resource, lo, hi, covered.date);
        var entry := SourceDay(fs, resource, day);
        if entry.None? {
          assert EffectiveDay(fs, resource, lo, hi, day);
          return false, entries, missing;
        }
        NextEntryPlanned(fs, resource, lo, hi, c, entries, missing, entry.value);
        entries := entries + [entry.value];
      }
    }
    planned := true;
  }

  lemma SelectedMore(entries: seq<BundleDay>, e: BundleDay, resource: string, date: int)
    ensures Selected(entries + [e], resource, date) <==> Selected(entries, resource, date) || (e.resource == resource && e.date == date)
  {
    if Selected(entries, resource, date) {
      var i :| 0 <= i < |entries| && entries[i].resource == resource && entries[i].date == date;
      assert (entries + [e])[i] == entries[i];
    }
    assert (entries + [e])[|entries|] == e;
  }

  lemma NextMissing(fs: Store, resource: string, lo: int, hi: int, c: nat, entries: seq<BundleDay>, missing: seq<int>)
    requires WellKeyed(fs) && ResourcePlanned(fs, resource, lo, hi, c, entries, missing)
    requires Committed(Attempts(fs, resource, lo, hi, lo + c)) == {}
    ensures ResourcePlanned(fs, resource, lo, hi, c + 1, entries, missing + [lo + c])
  {
    var more := missing + [lo + c];
    assert more[|missing|] == lo + c;
    forall date | lo <= date < lo + c + 1 ensures date in more || Selected(entries, resource, date) {
      if date < lo + c { assert date in missing || Selected(entries, resource, date); }
    }
  }

  lemma NextEntryPlanned(fs: Store, resource: string, lo: int, hi: int, c: nat, entries: seq<BundleDay>, missing: seq<int>,
                         e: BundleDay)
    requires WellKeyed(fs) && ResourcePlanned(fs, resource, lo, hi, c, entries, missing)
    requires EntriesOk(fs, [resource], lo, hi, [e]) && e.date == lo + c
    ensures ResourcePlanned(fs, resource, lo, hi, c + 1, entries + [e], missing)
  {
    var more := entries + [e];
    EntriesMore(fs, resource, lo, hi, entries, e);
    forall date ensures Selected(more, resource, date) <==> Selected(entries, resource, date) || date == lo + c {
      SelectedMore(entries, e, resource, date);
    }
    StillMissing(fs, resource, lo, hi, c, entries, more, missing);
    StillTold(entries, more, missing, resource, lo, c);
  }

  lemma StillMissing(fs: Store, resource: string, lo: int, hi: int, c: nat, entries: seq<BundleDay>, more: seq<BundleDay>, missing: seq<int>)
    requires WellKeyed(fs) && MissingOk(fs, resource, lo, hi, c, entries, missing)
    requires forall date :: Selected(more, resource, date) <==> Selected(entries, resource, date) || date == lo + c
    ensures MissingOk(fs, resource, lo, hi, c + 1, more, missing)
  {
    forall i | 0 <= i < |missing| ensures Uncommitted(fs, resource, lo, hi, more, missing[i]) {
      assert Uncommitted(fs, resource, lo, hi, entries, missing[i]);
    }
  }

  lemma StillTold(entries: seq<BundleDay>, more: seq<BundleDay>, missing: seq<int>, resource: string, lo: int, c: nat)
    requires AllTold(entries, missing, resource, lo, c)
    requires forall date :: Selected(more, resource, date) <==> Selected(entries, resource, date) || date == lo + c
    ensures AllTold(more, missing, resource, lo, c + 1)
  {
  }

  lemma EntriesMore(fs: Store, resource: string, lo: int, hi: int, entries: seq<BundleDay>, e: BundleDay)
    requires WellKeyed(fs) && EntriesOk(fs, [resource], lo, hi, entries) && EntriesOk(fs, [resource], lo, hi, [e])
    ensures EntriesOk(fs, [resource], lo, hi, entries + [e]) && e.resource == resource
  {
    assert [e][0] == e;
  }

  /** Exactly the calendar days without an entry, each once. */
  ghost predicate MissingIs(entries: seq<BundleDay>, resource: string, missing: seq<int>, lo: int, hi: int) {
    Distinct(missing) && forall date :: date in missing <==> lo <= date <= hi && !Selected(entries, resource, date)
  }

  ghost predicate Planned(fs: Store, resources: seq<string>, lo: int, hi: int, entries: seq<BundleDay>, missing: map<string, seq<int>>)
    requires WellKeyed(fs)
  {
    && EntriesOk(fs, resources, lo, hi, entries) && OneEntryEach(entries)
    && (forall r :: r in missing <==> r in resources)
    && (forall r :: r in missing ==> MissingIs(entries, r, missing[r], lo, hi) && NoneCommitted(fs, r, lo, hi, missing[r]))
  }

  ghost predicate NoneCommitted(fs: Store, resource: string, lo: int, hi: int, dates: seq<int>)
    requires WellKeyed(fs)
  {
    forall i :: 0 <= i < |dates| ==> Committed(Attempts(fs, resource, lo, hi, dates[i])) == {}
  }

  method SourcePlan(fs: Store, resources: seq<string>, lo: int, hi: int)
    returns (planned: bool, entries: seq<BundleDay>, missing: map<string, seq<int>>)
    requires WellKeyed(fs) && lo <= hi && Distinct(resources) && forall r :: r in resources ==> Supported(r)
    ensures planned ==> entries != [] && Planned(fs, resources, lo, hi, entries, missing)
    ensures !planned ==> (exists r :: r in resources && Unexportable(fs, r, lo, hi)) || NothingCommitted(fs, resources, lo, hi)
  {
    entries, missing := [], map[];
    for r := 0 to |resources|
      invariant Planned(fs, resources[..r], lo, hi, entries, missing)
    {
      assert resources[r] in resources;
      var days, absent;
      planned, days, absent := PlanResource(fs, resources[r], lo, hi);
      if !planned {
        return;
      }
      var next := missing[resources[r] := absent];
      NextResource(fs, resources, r, lo, hi, entries, missing, days, absent, next);
      entries, missing := entries + days, next;
    }
    assert resources[..|resources|] == resources;
    planned := entries != [];
    if !planned {
      forall r, date | r in resources && lo <= date <= hi ensures Committed(Attempts(fs, r, lo, hi, date)) == {} {
        assert MissingIs(entries, r, missing[r], lo, hi) && !Selected(entries, r, date);
        assert date in missing[r];
      }
    }
  }

  lemma SelectedConcat(a: seq<BundleDay>, b: seq<BundleDay>, resource: string, date: int)
    ensures Selected(a + b, resource, date) <==> Selected(a, resource, date) || Selected(b, resource, date)
  {
    if Selected(a, resource, date) {
      var i :| 0 <= i < |a| && a[i].resource == resource && a[i].date == date;
      assert (a + b)[i] == a[i];
    }
    if Selected(b, resource, date) {
      var i :| 0 <= i < |b| && b[i].resource == resource && b[i].date == date;
      assert (a + b)[|a| + i] == b[i];
    }
    if Selected(a + b, resource, date) {
      var i :| 0 <= i < |a + b| && (a + b)[i].resource == resource && (a + b)[i].date == date;
      assert if i < |a| then a[i] == (a + b)[i] else b[i - |a|] == (a + b)[i];
    }
  }

  lemma NextResource(fs: Store, resources: seq<string>, r: nat, lo: int, hi: int, entries: seq<BundleDay>,
                     missing: map<string, seq<int>>, days: seq<BundleDay>, absent: seq<int>, next: map<string, seq<int>>)
    requires WellKeyed(fs) && r < |resources| && Distinct(resources) && next == missing[resources[r] := absent]
    requires Planned(fs, resources[..r], lo, hi, entries, missing)
    requires lo <= hi && ResourcePlanned(fs, resources[r], lo, hi, hi - lo + 1, days, absent)
    ensures Planned(fs, resources[..r + 1], lo, hi, entries + days, next)
  {
    var q := resources[r];
    assert resources[..r + 1] == resources[..r] + [q] && q !in resources[..r];
    EntriesNext(fs, resources[..r], q, lo, hi, entries, days);
    assert MissingIs(days, q, absent, lo, hi);
    MissingNext(resources[..r], q, lo, hi, entries, missing, days, absent, next);
  }

  lemma EntriesNext(fs: Store, resources: seq<string>, q: string, lo: int, hi: int, entries: seq<BundleDay>, days: seq<BundleDay>)
    requires WellKeyed(fs) && q !in resources
    requires EntriesOk(fs, resources, lo, hi, entries) && OneEntryEach(entries)
    requires EntriesOk(fs, [q], lo, hi, days) && OneEntryEach(days)
    ensures EntriesOk(fs, resources + [q], lo, hi, entries + days) && OneEntryEach(entries + days)
    ensures forall i :: 0 <= i < |days| ==> days[i].resource == q
    ensures forall i :: 0 <= i < |entries| ==> entries[i].resource in resources
  {
    forall i | 0 <= i < |days| ensures days[i].resource == q { assert days[i].resource in [q]; }
    var all := entries + days;
    forall i, j | 0 <= i < j < |all| ensures !(all[i].resource == all[j].resource && all[i].date == all[j].date) {
      if i < |entries| <= j {
        assert entries[i].resource in resources && days[j - |entries|].resource == q;
      }
    }
  }

  lemma NotSelected(resources: seq<string>, q: string, entries: seq<BundleDay>)
    requires q !in resources && forall i :: 0 <= i < |entries| ==> entries[i].resource in resources
    ensures forall date :: !Selected(entries, q, date)
  {
  }

  lemma MissingNext(resources: seq<string>, q: string, lo: int, hi: int, entries: seq<BundleDay>,
                    missing: map<string, seq<int>>, days: seq<BundleDay>, absent: seq<int>, next: map<string, seq<int>>)
    requires q !in resources && (forall r :: r in missing <==> r in resources) && next == missing[q := absent]
    requires forall r :: r in missing ==> MissingIs(entries, r, missing[r], lo, hi)
    requires forall i :: 0 <= i < |days| ==> days[i].resource == q
    requires MissingIs(days, q, absent, lo, hi)
    requires forall i :: 0 <= i < |entries| ==> entries[i].resource in resources
    ensures forall r :: r in next ==> MissingIs(entries + days, r, next[r], lo, hi)
  {
    forall r | r in next ensures MissingIs(entries + days, r, next[r], lo, hi) {
      forall date ensures Selected(entries + days, r, date) <==> if r == q then Selected(days, q, date) else Selected(entries, r, date) {
        SelectedConcat(entries, days, r, date);
        NotSelected(resources, q, entries);
      }
    }
  }

  /* `export_bundle` */

  /** The archive holds the entries' objects as the store has them. */
  ghost predicate Copied(fs: Store, entries: seq<BundleDay>, objects: map<Key, Digest>, members: Store) {
    && (forall k :: k in objects <==> Owned(entries, k)) && members.Keys == objects.Keys
    && (forall k :: k in objects ==> k in fs && members[k] == fs[k] && objects[k] == fs[k].digest)
  }

  method CopyObjects(fs: Store, entries: seq<BundleDay>) returns (objects: map<Key, Digest>, members: Store)
    requires forall i, k :: 0 <= i < |entries| && k in entries[i].objects ==> k in fs
    ensures Copied(fs, entries, objects, members)
  {
    objects, members := map[], map[];
    for i := 0 to |entries|
      invariant Copied(fs, entries[..i], objects, members)
    {
      var keys := entries[i].objects;
      ghost var before := objects;
      for j := 0 to |keys|
        invariant members.Keys == objects.Keys
        invariant forall k :: k in objects <==> k in before || k in keys[..j]
        invariant forall k :: k in objects ==> k in fs && members[k] == fs[k] && objects[k] == fs[k].digest
      {
        var k := keys[j];
        assert k in keys && keys[..j + 1] == keys[..j] + [k];
        if k !in objects {
          objects, members := objects[k := fs[k].digest], members[k := fs[k]];
        }
      }
      assert keys[..|keys|] == keys;
      forall k ensures Owned(entries[..i + 1], k) <==> Owned(entries[..i], k) || k in keys { OwnedNext(entries, i, k); }
    }
    assert entries[..|entries|] == entries;
  }

  lemma OwnedNext(entries: seq<BundleDay>, i: nat, k: Key)
    requires i < |entries|
    ensures Owned(entries[..i + 1], k) <==> Owned(entries[..i], k) || k in entries[i].objects
  {
  }

  /** An object of two days is the header of a run they share. */
  lemma SharedObject(d: BundleDay, e: BundleDay, k: Key)
    requires Shape(d, k) && Shape(e, k) && !(d.resource == e.resource && d.date == e.date)
    ensures k == d.RunOf() == e.RunOf()
  {
    if k.FileKey? { TablesDisjoint(d.resource, e.resource, k.table); }
  }

  lemma EntryShape(fs: Store, e: BundleDay, day: DayManifest)
    requires WellKeyed(fs) && EntryOk(fs, e, day)
    ensures forall k :: k in e.objects ==> Shape(e, k)
  {
  }

  lemma EntriesApart(b: Bundle, d: BundleDay, e: BundleDay)
    requires !b.legacy && !(d.resource == e.resource && d.date == e.date)
    requires (forall k :: k in d.objects ==> Shape(d, k)) && (forall k :: k in e.objects ==> Shape(e, k))
    ensures !Clash(b, d, e) && Apart(b, d, e)
  {
    forall k | k in d.objects && k in e.objects ensures k == e.RunOf() { SharedObject(d, e, k); }
  }

  lemma DaysAccepted(fs: Store, b: Bundle)
    requires WellKeyed(fs) && !b.legacy && EntriesOk(fs, b.resources, b.lo, b.hi, b.days) && OneEntryEach(b.days)
    ensures DaysValid(b, b.days)
  {
    forall i | 0 <= i < |b.days| ensures forall k :: k in b.days[i].objects ==> Shape(b.days[i], k) {
      EntryShape(fs, b.days[i], DayAt(fs, b.days[i]).value);
    }
    forall i, j | 0 <= i < j < |b.days| ensures !Clash(b, b.days[i], b.days[j]) && Apart(b, b.days[i], b.days[j]) {
      EntriesApart(b, b.days[i], b.days[j]);
    }
  }

  /** The index of every export passes `_validate_index`. */
  lemma IndexAccepted(fs: Store, b: Bundle)
    requires WellKeyed(fs) && !b.legacy && Distinct(b.resources) && (forall r :: r in b.resources ==> Supported(r))
    requires Planned(fs, b.resources, b.lo, b.hi, b.days, b.missing) && Copied(fs, b.days, b.objects, b.members)
    ensures IndexValid(b)
  {
    DaysAccepted(fs, b);
    forall r | r in b.resources ensures MissingExact(b, r) {
      assert r in b.missing && MissingIs(b.days, r, b.missing[r], b.lo, b.hi);
    }
  }

  lemma {:induction false} PagesCopied(fs: Store, members: Store, e: BundleDay, n: nat)
    requires forall i: nat :: i < n ==> var k := PageKey(e.resource, e.run, e.date, i); k in fs && k in members && members[k] == fs[k]
    ensures PagesAt(members, e, n) == PagesAt(fs, e, n)
  {
    if n > 0 {
      PagesCopied(fs, members, e, n - 1);
      assert PageKey(e.resource, e.run, e.date, n - 1) in fs;
    }
  }

  /** An exported day passes every check of the archive but the count of its rows. */
  lemma DayAccepted(fs: Store, b: Bundle, e: BundleDay, day: DayManifest)
    requires WellKeyed(fs) && !b.legacy && EntryOk(fs, e, day)
    requires forall k :: k in e.objects ==> k in b.members && b.members[k] == fs[k]
    ensures DayAt(b.members, e) == Some(day)
    ensures DayValid(b, e) <==> Verified(b.members, e, day)
  {
    PagesCopied(fs, b.members, e, day.expectedPages.value);
  }

  /** What an export of `lo..hi` promises: a valid archive of the effective days. */
  ghost predicate Exported(fs: Store, b: Bundle)
    requires WellKeyed(fs)
  {
    && Archive.Valid(b)
    && (forall e :: e in b.days ==>
          && e.resource in b.resources && DayAt(b.members, e).Some?
          && IsLatest(Committed(Attempts(fs, e.resource, b.lo, b.hi, e.date)), DayAt(b.members, e)))
    && DatesKept(fs, b)
  }

  /** It is refused only when nothing is committed or some day readers see is not
      exportable, and, when no start times are equal, always then. */
  method ExportBundle(fs: Store, resources: seq<string>, lo: int, hi: int) returns (archive: Option<Bundle>)
    requires WellKeyed(fs) && lo < hi && Distinct(resources) && forall r :: r in resources ==> Supported(r)
    ensures archive.Some? ==> archive.value.resources == resources && archive.value.lo == lo && archive.value.hi == hi
                              && Exported(fs, archive.value)
    ensures archive.None? ==> NothingCommitted(fs, resources, lo, hi) || !AllExportable(fs, resources, lo, hi)
    ensures archive.Some? ==> !NothingCommitted(fs, resources, lo, hi)
                              && (StartsDiffer(fs, resources, lo, hi) ==> AllExportable(fs, resources, lo, hi))
  {
    var planned, entries, missing := SourcePlan(fs, resources, lo, hi);
    if !planned {
      return None;
    }
    var objects, members := CopyObjects(fs, entries);
    var b := Bundle(false, lo, hi, resources, missing, entries, objects, members);
    IndexAccepted(fs, b);
    forall i | 0 <= i < |entries| ensures DayAt(members, entries[i]).Some? { EntryChecked(fs, b, i); }
    var ok := CheckRows(b);
    if !ok {
      ghost var i :| 0 <= i < |entries| && !RowsOk(b, entries[i]);
      UnsoundFiles(fs, b, i);
      return None;
    }
    NothingLost(fs, b);
    SomethingCommitted(fs, b);
    OnlyExportable(fs, b);
    return Some(b);
  }

  lemma EntryChecked(fs: Store, b: Bundle, i: nat)
    requires WellKeyed(fs) && !b.legacy && EntriesOk(fs, b.resources, b.lo, b.hi, b.days)
    requires Copied(fs, b.days, b.objects, b.members) && i < |b.days|
    ensures var e := b.days[i];
            && DayAt(b.members, e) == DayAt(fs, e) && DayAt(fs, e).Some?
            && (DayValid(b, e) <==> Verified(b.members, e, DayAt(b.members, e).value))
  {
    var e := b.days[i];
    forall k | k in e.objects ensures k in b.members && b.members[k] == fs[k] { assert Owned(b.days, k); }
    DayAccepted(fs, b, e, DayAt(fs, e).value);
  }

  /** A day whose files fail the check in the archive cannot be exported. */
  lemma UnsoundFiles(fs: Store, b: Bundle, i: nat)
    requires WellKeyed(fs) && !b.legacy && EntriesOk(fs, b.resources, b.lo, b.hi, b.days)
    requires Copied(fs, b.days, b.objects, b.members) && i < |b.days| && !RowsOk(b, b.days[i])
    ensures !AllExportable(fs, b.resources, b.lo, b.hi)
  {
    var e := b.days[i];
    EntryChecked(fs, b, i);
    forall k | k in e.objects ensures k in b.members && b.members[k] == fs[k] { assert Owned(b.days, k); }
    VerifiedAlike(fs, b.members, e, DayAt(fs, e).value);
    VerifiedIsSound(fs, e, DayAt(fs, e).value);
    assert EffectiveDay(fs, e.resource, b.lo, b.hi, DayAt(fs, e).value);
  }

  /** The check of the entry is the check of the day's files, in any order. */
  lemma VerifiedIsSound(fs: Store, e: BundleDay, day: DayManifest)
    requires WellKeyed(fs) && EntryOk(fs, e, day)
    ensures Verified(fs, e, day) <==> FilesSound(fs, e.resource, day)
  {
    var d := BundleDay(e.resource, day.date, day.runId, []);
    forall k: Key ensures k.FileKey? && k in e.objects <==> k in FilesOf(fs, d) {
      assert e.OwnsFile(k) <==> d.OwnsFile(k);
    }
    forall files | Lists(files, FilesOf(fs, d)) ensures FileRows(fs, files) == FileRows(fs, e.objects) {
      forall k: Key | k.FileKey? ensures k in files <==> k in e.objects { assert k in files <==> k in FilesOf(fs, d); }
      RowsOrderFree(fs, files, e.objects);
    }
    var files := AnyListing(FilesOf(fs, d));
    assert FileRows(fs, files) == FileRows(fs, e.objects);
  }

  function RowsAt(fs: Store, k: Key): nat {
    if k.FileKey? && k in fs && fs[k].content.Parquet? then |RowsIn(fs[k])| else 0
  }

  /** Taking one key out takes its rows out. */
  lemma {:induction false} RowsWithout(fs: Store, keys: seq<Key>, i: nat)
    requires i < |keys|
    ensures FileRows(fs, keys) == FileRows(fs, keys[..i] + keys[i + 1..]) + RowsAt(fs, keys[i])
  {
    var n := |keys| - 1;
    if i < n {
      var rest, init := keys[..i] + keys[i + 1..], keys[..n];
      RowsWithout(fs, init, i);
      assert rest[..|rest| - 1] == init[..i] + init[i + 1..] && rest[|rest| - 1] == keys[n];
    } else {
      assert keys[..i] + keys[i + 1..] == keys[..n];
    }
  }

  /** Only the files count, whatever their order. */
  lemma {:induction false} RowsOrderFree(fs: Store, a: seq<Key>, b: seq<Key>)
    requires Distinct(a) && Distinct(b) && forall k: Key :: k.FileKey? ==> (k in a <==> k in b)
    ensures FileRows(fs, a) == FileRows(fs, b)
    decreases |a| + |b|
  {
    if a != [] {
      var x, init := a[|a| - 1], a[..|a| - 1];
      if x.FileKey? {
        var i :| 0 <= i < |b| && b[i] == x;
        var rest := b[..i] + b[i + 1..];
        RowsWithout(fs, b, i);
        RowsOrderFree(fs, init, rest);
      } else {
        RowsOrderFree(fs, init, b);
      }
    } else if b != [] {
      RowsOrderFree(fs, a, b[..|b| - 1]);
      assert b[|b| - 1] in b;
    }
  }

  lemma OnlyExportable(fs: Store, b: Bundle)
    requires WellKeyed(fs) && !b.legacy && DatesKept(fs, b) == true && Copied(fs, b.days, b.objects, b.members) == true
    requires EntriesOk(fs, b.resources, b.lo, b.hi, b.days) == true && forall i :: 0 <= i < |b.days| ==> RowsOk(b, b.days[i]) == true
    ensures StartsDiffer(fs, b.resources, b.lo, b.hi) ==> AllExportable(fs, b.resources, b.lo, b.hi)
  {
    forall r, d | StartsDiffer(fs, b.resources, b.lo, b.hi) && r in b.resources && EffectiveDay(fs, r, b.lo, b.hi, d)
      ensures Exportable(fs, r, d) == true && FilesSound(fs, r, d) == true
    {
      var i := EntryOf(fs, b, r, d);
      EntryExportable(fs, b, i, d);
    }
  }

  lemma SomethingCommitted(fs: Store, b: Bundle)
    requires WellKeyed(fs) && EntriesOk(fs, b.resources, b.lo, b.hi, b.days) && b.days != []
    ensures !NothingCommitted(fs, b.resources, b.lo, b.hi)
  {
    assert b.days[0].resource in b.resources;
  }

  /** Dates without an entry have no commit. */
  ghost predicate DatesKept(fs: Store, b: Bundle)
    requires WellKeyed(fs)
  {
    forall r, date :: r in b.resources && b.lo <= date <= b.hi && !Selected(b.days, r, date) ==>
      Committed(Attempts(fs, r, b.lo, b.hi, date)) == {}
  }

  lemma EntryOf(fs: Store, b: Bundle, r: string, d: DayManifest) returns (i: nat)
    requires WellKeyed(fs) && EntriesOk(fs, b.resources, b.lo, b.hi, b.days) && r in b.resources
    requires StartsDiffer(fs, b.resources, b.lo, b.hi) && EffectiveDay(fs, r, b.lo, b.hi, d)
    requires DatesKept(fs, b)
    ensures i < |b.days| && b.days[i].resource == r && DayAt(fs, b.days[i]) == Some(d)
  {
    assert Selected(b.days, r, d.date);
    i :| 0 <= i < |b.days| && b.days[i].resource == r && b.days[i].date == d.date;
    LatestUnique(Committed(Attempts(fs, r, b.lo, b.hi, d.date)), Some(d), DayAt(fs, b.days[i]));
  }

  /** The day of an entry that was checked. */
  lemma EntryExportable(fs: Store, b: Bundle, i: nat, d: DayManifest)
    requires WellKeyed(fs) && !b.legacy && Copied(fs, b.days, b.objects, b.members) && i < |b.days|
    requires EntriesOk(fs, b.resources, b.lo, b.hi, b.days) && RowsOk(b, b.days[i]) && DayAt(fs, b.days[i]) == Some(d)
    ensures Exportable(fs, b.days[i].resource, d) && FilesSound(fs, b.days[i].resource, d)
  {
    var e := b.days[i];
    EntryChecked(fs, b, i);
    forall k | k in e.objects ensures k in b.members && b.members[k] == fs[k] { assert Owned(b.days, k); }
    VerifiedAlike(fs, b.members, e, d);
    VerifiedIsSound(fs, e, d);
  }

  lemma VerifiedAlike(fs: Store, members: Store, e: BundleDay, day: DayManifest)
    requires forall k :: k in e.objects ==> k in fs && k in members && members[k] == fs[k]
    ensures Verified(fs, e, day) == Verified(members, e, day)
  {
    FileRowsFrame(fs, members, e.objects);
  }

  ghost predicate RowsOk(b: Bundle, e: BundleDay) {
    DayAt(b.members, e).Some? && Verified(b.members, e, DayAt(b.members, e).value)
  }

  /** `ValidatedArchive` on the new archive: only the rows of its files are left to check. */
  method CheckRows(b: Bundle) returns (ok: bool)
    requires forall i :: 0 <= i < |b.days| ==> DayAt(b.members, b.days[i]).Some?
    ensures ok <==> forall i :: 0 <= i < |b.days| ==> RowsOk(b, b.days[i])
  {
    for i := 0 to |b.days|
      invariant forall j :: 0 <= j < i ==> RowsOk(b, b.days[j])
    {
      ok := VerifyCommitted(b.members, b.days[i], DayAt(b.members, b.days[i]).value);
      if !ok {
        return;
      }
    }
    ok := true;
  }

  lemma NothingLost(fs: Store, b: Bundle)
    requires WellKeyed(fs) && IndexValid(b) && b.lo < b.hi && !b.legacy
    requires Planned(fs, b.resources, b.lo, b.hi, b.days, b.missing) && Copied(fs, b.days, b.objects, b.members)
    requires forall i :: 0 <= i < |b.days| ==> RowsOk(b, b.days[i])
    ensures Exported(fs, b)
  {
    forall e | e in b.days
      ensures DayValid(b, e) && e.resource in b.resources && DayAt(b.members, e).Some?
              && IsLatest(Committed(Attempts(fs, e.resource, b.lo, b.hi, e.date)), DayAt(b.members, e))
    {
      var i :| 0 <= i < |b.days| && b.days[i] == e;
      EntryChecked(fs, b, i);
    }
    forall r, date | r in b.resources && b.lo <= date <= b.hi && !Selected(b.days, r, date)
      ensures Committed(Attempts(fs, r, b.lo, b.hi, date)) == {}
    {
      assert r in b.missing && date in b.missing[r];
    }
  }
}
