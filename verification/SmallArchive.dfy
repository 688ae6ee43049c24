/** An archive of one day with one page and one file: the theorems about imports are
    about something. */
module SmallArchive {
  import opened Wrappers
  import opened Control
  import opened Archive
  import opened ParquetFiles

  const DAY := BundleDay("project", 0, "r", [RunKey("project", "r"), DayKey("project", "r", 0), PageKey("project", "r", 0, 0),
                                             FileKey("project_detail", 0, "r", "0.parquet")])

  const RUN := RunManifest(1, "r", DEFAULT_SOURCE, "project", 0, 0, RunSuccess, 1, 1, 0, 10, Some(20))

  const MARKER := DayManifest(1, "r", DEFAULT_SOURCE, "project", 0, Success, Some(1), 1, 1, 1, 0, 10, Some(20))

  const PAGE := PageManifest(1, "r", 0, 0, 50, Success, 1, 1, 0, 10, Some(20))

  const RECORD := Row(map["run_id" := Text("r"), "source_date" := Dated(0, "")], true)

  function ContentOf(k: Key): Content {
    match k
    case RunKey(_, _) => Run(RUN)
    case DayKey(_, _, _) => Day(MARKER)
    case PageKey(_, _, _, _) => Page(PAGE)
    case FileKey(_, _, _, _) => Parquet(ParquetFile(map[], [[RECORD]]))
    case QualityKey(_, _, _, _) => Control.Evidence(0)
  }

  function Small(): Bundle {
    Bundle(false, 0, 1, ["project"], map["project" := [1]], [DAY],
           map k | k in DAY.objects :: Of(ContentOf(k)), map k | k in DAY.objects :: Written(ContentOf(k)))
  }

  lemma SmallIsValid()
    ensures Archive.Valid(Small()) && Small().days == [DAY]
  {
    var b := Small();
    IndexIsValid();
    DayIsValid();
    assert b.members.Keys == b.objects.Keys;
  }

  lemma IndexIsValid()
    ensures IndexValid(Small())
  {
    var b := Small();
    assert b.days[0] == DAY;
    assert Selected(b.days, "project", 0);
    assert MissingExact(b, "project") by {
      assert b.missing["project"] == [1];
    }
    forall k ensures k in b.objects <==> Owned(b.days, k) {
      if k in b.objects { assert k in b.days[0].objects; }
    }
  }

  lemma DayIsValid()
    ensures DayValid(Small(), DAY)
  {
    var b, o := Small(), DAY.objects;
    assert o[0] in o && o[1] in o && o[2] in o;
    RowsAre();
    MetadataIsValid();
    OnePageDay(b, DAY, RUN, MARKER, PAGE);
  }

  lemma MetadataIsValid()
    ensures DayMetadataValid("project", 0, "r", RUN, MARKER, [PAGE], false)
  {
    OneSum(PAGE);
  }

  lemma OneSum(page: PageManifest)
    ensures SumRecords([page]) == page.bronzeRecords && SumItems([page]) == page.searchItems
  {
    var pages := [page];
    assert pages[..|pages| - 1] == [];
    assert SumRecords([]) == 0 && SumItems([]) == 0;
  }

  /** A day of one page, in general. */
  lemma OnePageDay(b: Bundle, e: BundleDay, run: RunManifest, day: DayManifest, page: PageManifest)
    requires e.RunOf() in e.objects && e.MarkerOf() in e.objects && PageKey(e.resource, e.run, e.date, 0) in e.objects
    requires RunAt(b.members, e) == Some(run) && DayAt(b.members, e) == Some(day) && day.expectedPages == Some(1)
    requires PageKey(e.resource, e.run, e.date, 0) in b.members
    requires b.members[PageKey(e.resource, e.run, e.date, 0)].content == Page(page)
    requires forall k :: k in e.objects ==> Expected(e, 1, k)
    requires DayMetadataValid(e.resource, e.date, e.run, run, day, [page], b.legacy) == true
    requires Verified(b.members, e, day) == true
    ensures DayValid(b, e)
  {
    OnePage(b.members, e, page);
  }

  lemma OnePage(fs: Store, e: BundleDay, page: PageManifest)
    requires PageKey(e.resource, e.run, e.date, 0) in fs && fs[PageKey(e.resource, e.run, e.date, 0)].content == Page(page)
    ensures PagesAt(fs, e, 1) == Some([page])
  {
    assert PagesAt(fs, e, 0) == Some([]);
    assert [] + [page] == [page];
  }

  lemma RowsAre()
    ensures Verified(Small().members, DAY, MARKER)
  {
    var fs, o := Small().members, DAY.objects;
    assert o[3] in o;
    LastRows(fs, o, 3);
    OneRow([[RECORD]]);
  }

  lemma OneRow(batches: seq<seq<Row>>)
    requires batches == [[RECORD]]
    ensures Flatten(batches) == [RECORD] && RowsOk([RECORD], "r", 0)
  {
    assert Joined(batches, 0) == [];
    assert [] + [RECORD] == [RECORD];
  }

  /** Only the last object is a file. */
  lemma {:induction false} NoRows(fs: Store, keys: seq<Key>)
    requires forall k :: k in keys ==> !k.FileKey?
    ensures FileRows(fs, keys) == 0
  {
    if keys != [] { NoRows(fs, keys[..|keys| - 1]); }
  }

  lemma LastRows(fs: Store, keys: seq<Key>, n: nat)
    requires |keys| == n + 1 && (forall i :: 0 <= i < n ==> !keys[i].FileKey?)
    requires keys[n].FileKey? && keys[n] in fs && fs[keys[n]].content.Parquet?
    ensures FileRows(fs, keys) == |RowsIn(fs[keys[n]])|
  {
    NoRows(fs, keys[..n]);
  }
}
