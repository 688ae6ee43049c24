/** Run, day and page manifests, the object store that holds them, and what a run's
    markers say about the days it covers. */
module Control {
  import opened Wrappers
  import opened ParquetFiles

  type RunId = string

  datatype RunStatus = RunRunning | RunSuccess | RunPartialFailed | RunFailed

  /** Days and pages have the same states. */
  datatype Status = Running | Success | Failed

  datatype RunManifest = RunManifest(schemaVersion: int, runId: RunId, source: string, resource: string,
                                     start: int, end: int, status: RunStatus,
                                     totalDates: nat, successDates: nat, failedDates: nat,
                                     startedAt: int, completedAt: Option<int>)

  datatype DayManifest = DayManifest(schemaVersion: int, runId: RunId, source: string, resource: string, date: int,
                                     status: Status, expectedPages: Option<nat>, completedPages: nat,
                                     searchItems: nat, bronzeRecords: nat, errorCount: nat,
                                     startedAt: int, completedAt: Option<int>)

  datatype PageManifest = PageManifest(schemaVersion: int, runId: RunId, date: int, number: nat, pageSize: nat,
                                       status: Status, searchItems: nat, bronzeRecords: nat, errorCount: nat,
                                       startedAt: int, completedAt: Option<int>)

  const DEFAULT_SOURCE := "muasamcong"

  /* The resource catalog. */

  predicate Supported(resource: string) {
    resource in {"project", "khlcnt", "notify_contractor", "bid_opening", "contractor_result"}
  }

  function Tables(resource: string): seq<string> {
    if resource == "project" then ["project_detail"]
    else if resource == "khlcnt" then ["khlcnt_plan_detail", "khlcnt_bid_package_detail"]
    else if resource == "notify_contractor" then
      ["notify_contractor_standard_detail", "notify_contractor_reoffer_detail", "notify_contractor_vk_adb_detail"]
    else if resource == "bid_opening" then ["bid_opening_detail"]
    else if resource == "contractor_result" then ["contractor_result_detail"]
    else []
  }

  /** No table belongs to two resources: two days of one date and run never share
      a Parquet directory. */
  lemma TablesDisjoint(r: string, q: string, table: string)
    requires table in Tables(r) && table in Tables(q)
    ensures r == q
  {
    assert |table| in {14, 18, 25, 33, 32, 31, 24};
    if |table| == 18 { assert table[0] == 'k' || table[0] == 'b'; }
  }

  /* The object store. */

  datatype Key =
    | RunKey(resource: string, run: RunId)
    | DayKey(resource: string, run: RunId, date: int)
    | PageKey(resource: string, run: RunId, date: int, number: nat)
    | FileKey(table: string, date: int, run: RunId, name: string)
    | QualityKey(resource: string, run: RunId, date: int, name: string)

  /** Quality evidence is only copied and compared. */
  datatype Content =
    | Run(run: RunManifest)
    | Day(day: DayManifest)
    | Page(page: PageManifest)
    | Parquet(file: ParquetFile)
    | Evidence(id: int)

  /** SHA-256 and size of an object's bytes. Only digests are compared: those of the bytes
      this code writes for a content, and those of any other bytes. */
  datatype Digest = Of(content: Content) | Bytes(id: int)

  datatype Object = Object(content: Content, digest: Digest)

  type Store = map<Key, Object>

  /** What is stored when a content is written. */
  function Written(content: Content): Object { Object(content, Of(content)) }

  /** Objects are where the key builders put them. */
  predicate KeyFits(k: Key, c: Content) {
    match k
    case RunKey(resource, run) => c.Run? && c.run.resource == resource && c.run.runId == run
    case DayKey(resource, run, date) => c.Day? && c.day.resource == resource && c.day.runId == run && c.day.date == date
    case PageKey(_, run, date, number) => c.Page? && c.page.runId == run && c.page.date == date && c.page.number == number
    case FileKey(_, _, _, _) => c.Parquet?
    case QualityKey(_, _, _, _) => c.Evidence?
  }

  predicate WellKeyed(fs: Store) {
    forall k :: k in fs ==> KeyFits(k, fs[k].content)
  }

  function ReadRun(fs: Store, resource: string, run: RunId): Option<RunManifest>
    requires WellKeyed(fs)
  {
    if RunKey(resource, run) in fs then Some(fs[RunKey(resource, run)].content.run) else None
  }

  function ReadDay(fs: Store, resource: string, run: RunId, date: int): Option<DayManifest>
    requires WellKeyed(fs)
  {
    if DayKey(resource, run, date) in fs then Some(fs[DayKey(resource, run, date)].content.day) else None
  }

  /* `max(items, key=started_at)` and `effective_attempt`. */

  /** The first of the latest started. */
  function Latest(items: seq<DayManifest>): Option<DayManifest> {
    if items == [] then None
    else
      var rest, last := Latest(items[..|items| - 1]), items[|items| - 1];
      if rest.None? || last.startedAt > rest.value.startedAt then Some(last) else rest
  }

  function Successful(items: seq<DayManifest>): seq<DayManifest> {
    if items == [] then []
    else Successful(items[..|items| - 1]) + (if items[|items| - 1].status == Success then [items[|items| - 1]] else [])
  }

  function EffectiveAttempt(items: seq<DayManifest>): Option<DayManifest> {
    Latest(Successful(items))
  }

  ghost predicate IsLatest(items: set<DayManifest>, found: Option<DayManifest>) {
    if found.None? then items == {}
    else found.value in items && forall d :: d in items ==> d.startedAt <= found.value.startedAt
  }

  function Elements(items: seq<DayManifest>): set<DayManifest> {
    set d | d in items
  }

  function Committed(items: set<DayManifest>): set<DayManifest> {
    set d | d in items && d.status == Success
  }

  lemma {:induction false} LatestIsLatest(items: seq<DayManifest>)
    ensures IsLatest(Elements(items), Latest(items))
  {
    if items != [] {
      var init := items[..|items| - 1];
      LatestIsLatest(init);
      assert items == init + [items[|items| - 1]];
      assert Latest(init).None? ==> init == [] by {
        if init != [] { assert init[0] in Elements(init); }
      }
    }
  }

  lemma {:induction false} SuccessfulMeaning(items: seq<DayManifest>, d: DayManifest)
    ensures d in Successful(items) <==> d in items && d.status == Success
  {
    if items != [] {
      SuccessfulMeaning(items[..|items| - 1], d);
      assert items == items[..|items| - 1] + [items[|items| - 1]];
    }
  }

  /** The selection rule every reader uses, whatever the order of the attempts. */
  lemma EffectiveMeaning(items: seq<DayManifest>)
    ensures IsLatest(Committed(Elements(items)), EffectiveAttempt(items))
  {
    LatestIsLatest(Successful(items));
    forall d ensures d in Successful(items) <==> d in items && d.status == Success { SuccessfulMeaning(items, d); }
    assert Elements(Successful(items)) == Committed(Elements(items));
  }

  ghost predicate DistinctStarts(items: set<DayManifest>) {
    forall c, d :: c in items && d in items && c.startedAt == d.startedAt ==> c == d
  }

  lemma LatestUnique(items: set<DayManifest>, a: Option<DayManifest>, b: Option<DayManifest>)
    requires DistinctStarts(items) && IsLatest(items, a) && IsLatest(items, b)
    ensures a == b
  {
  }
}
