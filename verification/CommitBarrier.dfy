/** `apply_day`: one planned day, candidate after candidate, against a store that may
    lose acknowledgements or apply a write long after it was sent, and a process that
    may die before any operation. */
module CommitBarrier {
  import opened Wrappers
  import opened Collections
  import opened Control
  import opened Coverage
  import opened Archive
  import opened CompactedDay
  import opened CommitBooks
  import CoverageGuard
  import Compaction

  /** What one operation meets: it is done, or it raises having taken effect, or it
      raises and may take effect later or never; an interruption is not an error the
      commit handles itself. A process whose events have run out is dead. */
  datatype Event = Acked | Landing | Lost | Interrupted(landed: bool)

  /** How an operation ends for the process: it raised an error, or it was interrupted. */
  datatype Ended = Done | Raised | Halted | Died

  datatype DayOutcome = DayCommitted(run: RunId) | Unhelpful | MarkedFailed | Refused | Unconfirmed | Crashed

  function Acks(events: seq<Event>): nat {
    if events == [] || events[0] != Acked then 0 else 1 + Acks(events[1..])
  }

  /** What the clock says when a candidate starts, when its files are verified, and when it
      is closed. */
  datatype Times = Times(started: int, completed: int, closed: int)

  /** The marker of a candidate that is not committed. */
  function MarkerOf(item: Item, run: RunId, status: Status, errors: nat, startedAt: int, completedAt: Option<int>): DayManifest {
    DayManifest(1, run, DEFAULT_SOURCE, item.baseline.resource, item.baseline.date, status, None, 0, 0, 0, errors, startedAt, completedAt)
  }

  function FailedHeader(item: Item, run: RunId, times: Times): RunManifest {
    HeaderOf(item, run, times.started).(status := RunFailed, failedDates := 1, completedAt := Some(times.closed))
  }

  /** A reader of the files, in this order, accepts them as the day's. */
  predicate Accepted(files: Store, keys: seq<Key>, item: Item, run: RunId)
    requires AllParquet(files) && Lists(keys, files.Keys)
  {
    var stored := StoredAt(files, keys);
    && Compaction.AllReadable(stored, |stored|, run, item.baseline.date, true)
    && Compaction.RowsTotal(stored, |stored|) == item.baseline.bronzeRecords
  }

  predicate SameDigests(files: Store, outputs: Store) {
    files.Keys == outputs.Keys && forall k :: k in files ==> files[k].digest == outputs[k].digest
  }

  /** However they are listed, the planned files can be rewritten and are complete. */
  ghost predicate RewritableFiles(item: Item) {
    && AllParquet(item.files)
    && forall keys :: Lists(keys, item.files.Keys) ==>
         && Compaction.AllRewritable(StoredAt(item.files, keys), item.baseline.runId, item.baseline.date)
         && Compaction.RowsTotal(StoredAt(item.files, keys), |keys|) == item.baseline.bronzeRecords
  }

  /** The baseline holds, and the guard can tell. */
  ghost predicate Unrivalled(fs: Store, item: Item, startedAt: int)
    requires WellKeyed(fs)
  {
    BaselineHolds(fs, item, None) && CoverageGuard.AllHeaded(fs, item.baseline.resource) && StartsDiffer(fs, item, startedAt)
  }

  lemma StaysUnrivalled(fs: Store, item: Item, run: RunId, p: Placed)
    requires InPlace(fs, item, run, p) && WellKeyed(fs) && WellKeyed(p.base) && run != item.baseline.runId
    requires NotCommitted(fs, item, run, p.startedAt)
    ensures Unrivalled(p.base, item, p.startedAt) ==>
              && BaselineHolds(fs, item, Some(run)) && CoverageGuard.AllHeaded(fs, item.baseline.resource)
              && DistinctStarts(Attempts(fs, item.baseline.resource, item.baseline.date, item.baseline.date, item.baseline.date))
  {
    if Unrivalled(p.base, item, p.startedAt) {
      StillHolds(fs, item, run, p);
      StillReadable(fs, item, run, p);
    }
  }

  /** Nothing stands in the way of a candidate. */
  ghost predicate Favourable(fs: Store, item: Item, times: Times)
    requires WellKeyed(fs)
  {
    && Unrivalled(fs, item, times.started) && RewritableFiles(item)
    && item.baseline.startedAt < times.started <= times.completed
  }

  function PlannedTables(item: Item): set<string> {
    set k | k in item.files && k.FileKey? :: k.table
  }

  /** However its files are listed, they become fewer. */
  ghost predicate Worthwhile(item: Item, sizes: map<string, seq<nat>>, targetBytes: int) {
    && AllParquet(item.files)
    && forall keys :: Lists(keys, item.files.Keys) ==>
         Compaction.FilesAfter(StoredAt(item.files, keys), sizes, targetBytes) < |item.files|
  }

  /** So they do when every table fits in one file, and some has more. */
  lemma SmallIsWorthwhile(item: Item, sizes: map<string, seq<nat>>, targetBytes: int)
    requires AllParquet(item.files) && Compaction.AllSmall(sizes, targetBytes) && |PlannedTables(item)| < |item.files|
    ensures Worthwhile(item, sizes, targetBytes)
  {
    forall keys | Lists(keys, item.files.Keys)
      ensures Compaction.FilesAfter(StoredAt(item.files, keys), sizes, targetBytes) < |item.files|
    {
      TablesPlanned(item, keys);
      Compaction.SmallFiles(StoredAt(item.files, keys), sizes, targetBytes);
    }
  }

  lemma TablesPlanned(item: Item, keys: seq<Key>)
    requires AllParquet(item.files) && Lists(keys, item.files.Keys)
    ensures Compaction.TablesOf(StoredAt(item.files, keys)) == PlannedTables(item)
  {
    var stored := StoredAt(item.files, keys);
    forall t ensures t in Compaction.TablesOf(stored) <==> t in PlannedTables(item) {
      if t in PlannedTables(item) {
        var k :| k in item.files && k.FileKey? && k.table == t;
        var i :| 0 <= i < |keys| && keys[i] == k;
        assert stored[i] in stored;
      }
      if t in Compaction.TablesOf(stored) {
        var i :| 0 <= i < |stored| && stored[i].table == t;
        assert keys[i] in keys;
      }
    }
  }

  /** Rewrite the planned files, as they were fetched. */
  method CompactFiles(item: Item, ghost keys: seq<Key>, before: seq<Compaction.Stored>, run: RunId, targetBytes: int,
                      sizes: map<string, seq<nat>>) returns (result: Compaction.DayResult)
    requires AllParquet(item.files) && Lists(keys, item.files.Keys) && before == StoredAt(item.files, keys)
    ensures RewritableFiles(item) ==> !result.Refused?
    ensures result.Compacted? ==> RewriteOf(item, run, keys, result.outputs)
    ensures !result.Refused? ==> (result.Compacted? <==> Compaction.FilesAfter(before, sizes, targetBytes) < |item.files|)
    ensures !result.Refused? && Worthwhile(item, sizes, targetBytes) ==> result.Compacted?
  {
    ListingSize(keys, item.files.Keys);
    result := Compaction.CompactDay(before, item.baseline.runId, run, item.baseline.date, item.baseline.bronzeRecords,
                                    targetBytes, sizes);
  }

  /** The operations of a candidate that meets no error, at most. */
  function Budget(item: Item): nat { 15 + 3 * |item.files| + 3 * |item.quality| + |item.pages| }

  /** The rewritten files of a candidate. */
  ghost predicate RewriteOf(item: Item, run: RunId, keys: seq<Key>, outputs: seq<Compaction.Stored>) {
    && AllParquet(item.files) && Lists(keys, item.files.Keys)
    && Compaction.Compacts(StoredAt(item.files, keys), outputs, run) && |outputs| < |keys|
    && Compaction.AllRewritable(StoredAt(item.files, keys), item.baseline.runId, item.baseline.date)
    && Compaction.RowsTotal(outputs, |outputs|) == item.baseline.bronzeRecords
  }

  /** One file more after each upload. */
  ghost predicate Uploads(outputs: seq<Compaction.Stored>, keys: seq<Key>, steps: seq<Store>) {
    && |keys| == |outputs| && |steps| == |outputs| + 1
    && forall i :: 0 <= i < |outputs| ==> steps[i + 1] == steps[i][keys[i] := Written(Parquet(outputs[i].file))]
  }

  /** They go to the day's own directories. */
  ghost predicate OwnOutputs(outputs: seq<Compaction.Stored>, e: BundleDay) {
    forall i :: 0 <= i < |outputs| ==> e.OwnsFile(PartKey(outputs, i, e))
  }

  lemma OutputsOwned(fs: Store, item: Item, run: RunId, keys: seq<Key>, outputs: seq<Compaction.Stored>)
    requires Inventory(fs, EntryOf(item.baseline)) == item.files && RewriteOf(item, run, keys, outputs)
    ensures OwnOutputs(outputs, CandidateOf(item, run))
  {
    forall i | 0 <= i < |outputs| ensures CandidateOf(item, run).OwnsFile(PartKey(outputs, i, CandidateOf(item, run))) {
      var t, before := outputs[i].table, StoredAt(item.files, keys);
      Compaction.ListedTable(outputs, |outputs|, t);
      assert Compaction.FilesOf(outputs, t) != [];
      Compaction.ListedTable(before, |before|, t);
      var j :| 0 <= j < |before| && before[j].table == t;
      assert keys[j] in item.files;
    }
  }

  /** A candidate whose files are in place and whose baseline was just asserted. */
  lemma PreparedIsVouched(fs: Store, item: Item, run: RunId, keys: seq<Key>, outputs: seq<Compaction.Stored>, p: Placed, completedAt: int)
    requires WellKeyed(fs) && BaselineHolds(fs, item, Some(run)) && run != item.baseline.runId && p.startedAt > item.baseline.startedAt
    requires RewriteOf(item, run, keys, outputs) && InPlace(fs, item, run, p)
    requires p.files == AllUploaded(outputs, CandidateOf(item, run)) && CopiesEvidence(item, run, p.quality, item.quality.Keys)
    ensures var day := CompletedDay(item.baseline, run, p.startedAt, completedAt);
            Vouched(fs, item, day) && Inventory(fs, EntryOf(day)) == p.files
  {
    var day, e := CompletedDay(item.baseline, run, p.startedAt, completedAt), CandidateOf(item, run);
    UploadedListed(outputs, e);
    FaithfulFrom(item.files, keys, p.files, PartKeys(outputs, e), outputs, item.baseline, day);
    AssertedIsVouched(fs, item, run, p.startedAt, completedAt);
  }

  /** The uploaded files are accepted in any order. */
  lemma UploadsAccepted(item: Item, run: RunId, keys: seq<Key>, outputs: seq<Compaction.Stored>, files: Store, listed: seq<Key>)
    requires RewriteOf(item, run, keys, outputs) && files == AllUploaded(outputs, CandidateOf(item, run))
    requires AllParquet(files) && Lists(listed, files.Keys)
    ensures Accepted(files, listed, item, run)
  {
    var day, e := CompletedDay(item.baseline, run, 0, 0), CandidateOf(item, run);
    UploadedListed(outputs, e);
    FaithfulFrom(item.files, keys, files, PartKeys(outputs, e), outputs, item.baseline, day);
    assert KeepsRows(StoredAt(item.files, keys), StoredAt(files, listed), day);
  }

  /** The evidence to copy is where the plan found it. */
  lemma QualityInPlace(fs: Store, item: Item, run: RunId, p: Placed, k: Key)
    requires InPlace(fs, item, run, p) && run != item.baseline.runId && WellKeyed(fs) && WellKeyed(p.base)
    requires EvidenceHolds(p.base, item) && k in item.quality
    ensures k in fs && fs[k] == item.quality[k] && k.QualityKey? && fs[k].content.Evidence?
  {
    assert k in QualityInventory(p.base, EntryOf(item.baseline));
    assert KeyFits(k, fs[k].content);
  }

  /** One piece of evidence more after each copy. */
  ghost predicate Copies(item: Item, run: RunId, keys: seq<Key>, steps: seq<Store>) {
    && |steps| == |keys| + 1
    && forall i :: 0 <= i < |keys| ==>
         keys[i].QualityKey? && keys[i] in item.quality && steps[i + 1] == steps[i][CopyKey(item, run, keys[i]) := item.quality[keys[i]]]
  }

  /** After the last all are copied. */
  lemma {:induction false} EvidenceSteps(item: Item, run: RunId, keys: seq<Key>, done: set<Key>) returns (steps: seq<Store>)
    requires OwnEvidence(item) && Lists(keys, done) && done <= item.quality.Keys
    ensures Copies(item, run, keys, steps) == true && steps[0] == map[] && CopiesEvidence(item, run, steps[|keys|], done) == true
    decreases |keys|
  {
    if keys == [] {
      steps := [map[]];
      assert CopiesEvidence(item, run, map[], {});
      assert done == {};
    } else {
      var n, s := |keys| - 1, keys[|keys| - 1];
      InitLists(keys, done);
      var before := EvidenceSteps(item, run, keys[..n], done - {s});
      assert s in done && OwnsQuality(EntryOf(item.baseline), s);
      CopiedOneMore(item, run, before[n], done - {s}, s);
      assert done - {s} + {s} == done;
      steps := before + [before[n][CopyKey(item, run, s) := item.quality[s]]];
      CopiesMore(item, run, keys, before, steps);
    }
  }

  lemma CopiesMore(item: Item, run: RunId, keys: seq<Key>, before: seq<Store>, steps: seq<Store>)
    requires keys != [] && Copies(item, run, keys[..|keys| - 1], before)
    requires var s := keys[|keys| - 1];
             && s.QualityKey? && s in item.quality
             && steps == before + [before[|keys| - 1][CopyKey(item, run, s) := item.quality[s]]]
    ensures Copies(item, run, keys, steps) && steps[0] == before[0]
  {
    forall i | 0 <= i < |keys|
      ensures keys[i].QualityKey? && keys[i] in item.quality && steps[i + 1] == steps[i][CopyKey(item, run, keys[i]) := item.quality[keys[i]]]
    {
      if i < |keys| - 1 { assert keys[..|keys| - 1][i] == keys[i] && steps[i] == before[i] && steps[i + 1] == before[i + 1]; }
    }
  }

  lemma InitLists<T(!new)>(items: seq<T>, elements: set<T>)
    requires Lists(items, elements) && items != []
    ensures items[|items| - 1] in elements && Lists(items[..|items| - 1], elements - {items[|items| - 1]})
  {
    var n := |items| - 1;
    assert items == items[..n] + [items[n]];
    assert items[n] in items;
    forall y ensures y in items[..n] <==> y in elements - {items[n]} { assert y in items <==> y in elements; }
  }

  lemma PlannedEvidence(fs: Store, item: Item)
    requires WellKeyed(fs) && EvidenceHolds(fs, item)
    ensures OwnEvidence(item)
  {
    forall k | k in item.quality ensures OwnsQuality(EntryOf(item.baseline), k) { assert k in QualityInventory(fs, EntryOf(item.baseline)); }
  }

  /** On top of a store where the baseline's evidence holds, the candidate wrote this. */
  ghost predicate Wrote(fs: Store, item: Item, run: RunId, p: Placed)
    requires WellKeyed(fs)
  {
    && WellKeyed(p.base) && EvidenceHolds(p.base, item) == true
    && InPlace(fs, item, run, p) == true && NotCommitted(fs, item, run, p.startedAt)
  }

  lemma WroteFile(fs: Store, item: Item, run: RunId, p: Placed, k: Key, o: Object)
    requires WellKeyed(fs) && Wrote(fs, item, run, p) == true && CandidateOf(item, run).OwnsFile(k) && KeyFits(k, o.content)
    ensures WellKeyed(fs[k := o]) && Wrote(fs[k := o], item, run, p.(files := p.files[k := o]))
  {
    PutFile(fs, item, run, p, k, o);
  }

  lemma WroteCopy(fs: Store, item: Item, run: RunId, p: Placed, k: Key, o: Object)
    requires WellKeyed(fs) && Wrote(fs, item, run, p) == true && OwnsQuality(CandidateOf(item, run), k) && KeyFits(k, o.content)
    ensures WellKeyed(fs[k := o]) && Wrote(fs[k := o], item, run, p.(quality := p.quality[k := o]))
  {
    PutFile(fs, item, run, p, k, o);
  }

  lemma WrotePage(fs: Store, item: Item, run: RunId, p: Placed, page: PageManifest)
    requires WellKeyed(fs) && Wrote(fs, item, run, p) == true
    requires page.runId == run && page.date == item.baseline.date && page.number == |p.pages|
    ensures var k, o := PageKey(item.baseline.resource, run, item.baseline.date, |p.pages|), Written(Page(page));
            WellKeyed(fs[k := o]) && Wrote(fs[k := o], item, run, p.(pages := p.pages + [page]))
  {
    PutPage(fs, item, run, p, page);
  }

  /** A candidate is at work, and no commit was sent. */
  ghost predicate OpenBooks(plan: string, item: Item, fs: Store, inflight: set<Write>, drawn: set<RunId>, sent: seq<MarkerWrite>,
                            commit: Option<DayManifest>, checkpoint: Option<Checkpoint>, run: RunId)
  {
    && Books(item, fs, inflight, drawn, sent, commit) == true
    && Recorded(plan, drawn, sent, commit, FilesOf(fs, commit), checkpoint) == true
    && commit.None? && run in drawn && checkpoint.Some? && checkpoint.value.run == run
  }

  /** The candidate's marker and header say that it failed. */
  ghost predicate StoredFailed(fs: Store, item: Item, run: RunId, times: Times, errors: nat)
    requires WellKeyed(fs)
  {
    var day, header := ReadDay(fs, item.baseline.resource, run, item.baseline.date), ReadRun(fs, item.baseline.resource, run);
    && day.Some? && day.value.status == Failed && day.value.errorCount == errors && day.value.source == DEFAULT_SOURCE
    && day.value.startedAt == times.started && day.value.completedAt == Some(times.closed)
    && header.Some? && header.value.status == RunFailed && OwnHeader(item, header.value)
    && header.value.successDates == 0 && header.value.failedDates == 1
    && header.value.startedAt == times.started && header.value.completedAt == Some(times.closed)
  }

  /** Nothing of the candidate is under way, and it was not marked failed. */
  ghost predicate Quiet(inflight: set<Write>, sent: seq<MarkerWrite>, run: RunId) {
    !Sent(sent, run, Failed) && forall w :: w in inflight ==> w.key.run != run
  }

  lemma Prefixes<T>(items: seq<T>, i: nat)
    requires i <= |items|
    ensures i < |items| ==> items[..i] + [items[i]] == items[..i + 1]
    ensures items[..|items|] == items
  {
  }

  lemma EvidencePages(fs: Store, item: Item)
    requires WellKeyed(fs) && EvidenceHolds(fs, item)
    ensures forall i :: 0 <= i < |item.pages| ==> item.pages[i].date == item.baseline.date && item.pages[i].number == i
  {
  }

  /** The copied pages go with the day, unless the clock ran backwards. */
  lemma CopiesDocument(fs: Store, item: Item, run: RunId, q: Placed, startedAt: int, completedAt: int)
    requires WellKeyed(q.base) && EvidenceHolds(q.base, item) && InPlace(fs, item, run, q)
    requires q.pages == CopiedPages(item.pages, run, startedAt, completedAt) && q.startedAt == startedAt
    ensures startedAt <= completedAt ==> Documented(fs, item, CompletedDay(item.baseline, run, startedAt, completedAt))
  {
    PagesInPlace(fs, item, run, q);
    if startedAt <= completedAt {
      CompactedIsValid(q.base, item, HeaderOf(item, run, startedAt), run, startedAt, completedAt);
    }
  }

  /** The header of the candidate was not closed before it was opened. */
  predicate OrderedHeader(fs: Store, day: DayManifest)
    requires WellKeyed(fs)
  {
    var header := ReadRun(fs, day.resource, day.runId);
    header.Some? ==> Ordered(header.value)
  }

  /** What was committed passes the checks of a later run. */
  lemma CommittedAccepted(item: Item, fs: Store, inflight: set<Write>, drawn: set<RunId>, sent: seq<MarkerWrite>, day: DayManifest)
    requires Books(item, fs, inflight, drawn, sent, Some(day))
    ensures OrderedHeader(fs, day) ==> MetadataHolds(fs, day)
    ensures var files := Inventory(fs, CandidateOf(item, day.runId));
            && files == FilesOf(fs, Some(day)) && AllParquet(files)
            && forall keys :: Lists(keys, files.Keys) ==> Accepted(files, keys, item, day.runId)
  {
    HeaderInPlace(item, fs, inflight, drawn, sent, day);
    if OrderedHeader(fs, day) { DocumentedIsValid(fs, item, day); }
    var files := Inventory(fs, CandidateOf(item, day.runId));
    var before := AnyListing(item.files.Keys);
    assert CandidateOf(item, day.runId) == EntryOf(day);
    forall keys | Lists(keys, files.Keys) ensures Accepted(files, keys, item, day.runId) {
      assert KeepsRows(StoredAt(item.files, before), StoredAt(files, keys), day);
    }
  }

  /** Nor can its readers tell it from the baseline, but for the run id. */
  lemma CommittedIsKept(item: Item, fs: Store, inflight: set<Write>, drawn: set<RunId>, sent: seq<MarkerWrite>, day: DayManifest)
    requires Books(item, fs, inflight, drawn, sent, Some(day)) && Landed(fs, Some(day))
    ensures DayKept(fs, item, day)
  {
    VouchedIsKept(fs, item, day);
  }

  /** The baseline's run is not the one just drawn. */
  lemma BaselineStored(fs: Store, item: Item)
    requires WellKeyed(fs) && BaselineHolds(fs, item, None)
    ensures DayKey(item.baseline.resource, item.baseline.runId, item.baseline.date) in fs
  {
    assert HasDay(fs, item.baseline.resource, item.baseline);
  }

  class Compactor {
    const plan: string
    const item: Item
    const targetBytes: int

    /** The rest of the story: one event per operation. */
    var events: seq<Event>

    /** The store, and the writes of candidates that may still arrive. */
    var fs: Store
    var inflight: set<Write>
    var checkpoint: Option<Checkpoint>

    /** Every run id ever drawn, every marker ever sent, in order, and the commit among them. */
    var drawn: set<RunId>
    ghost var sent: seq<MarkerWrite>
    ghost var commit: Option<DayManifest>

    ghost predicate Valid()
      reads this`fs, this`inflight, this`checkpoint, this`drawn, this`sent, this`commit
    {
      && Books(item, fs, inflight, drawn, sent, commit) == true
      && Recorded(plan, drawn, sent, commit, FilesOf(fs, commit), checkpoint) == true
    }

    constructor (plan: string, item: Item, targetBytes: int, fs: Store)
      requires WellKeyed(fs)
      ensures Valid() == true && this.plan == plan && this.item == item && this.targetBytes == targetBytes && this.fs == fs
      ensures sent == [] && drawn == {} && checkpoint == None && inflight == {} && commit == None && events == []
    {
      this.plan, this.item, this.targetBytes, this.fs := plan, item, targetBytes, fs;
      events, inflight, checkpoint, sent, drawn, commit := [], {}, None, [], {}, None;
    }

    /** The number of operations acknowledged from here on, before the first that is not. */
    ghost function Calm(): nat
      reads this`events
    {
      Acks(events)
    }

    method NextEvent() returns (event: Option<Event>)
      modifies this`events
      ensures old(Calm()) >= 1 ==> event == Some(Acked)
      ensures Calm() >= old(Calm()) - 1
    {
      if events == [] {
        return None;
      }
      event := Some(events[0]);
      events := events[1..];
    }

    static function EndOf(event: Option<Event>): Ended {
      if event.None? then Died
      else match event.value
        case Acked => Done
        case Landing => Raised
        case Lost => Raised
        case Interrupted(_) => Halted
    }

    /** The operation took effect at once. */
    static predicate TookEffect(event: Option<Event>) {
      event.Some? && event.value != Lost && event.value != Interrupted(false)
    }

    /** Any operation that changes neither store nor checkpoint. */
    method Work() returns (ended: Ended)
      modifies this`events
      ensures old(Calm()) >= 1 ==> ended == Done
      ensures Calm() >= old(Calm()) - 1
    {
      var event := NextEvent();
      ended := EndOf(event);
    }

    /** One write to the store. */
    method Put(k: Key, o: Object) returns (ended: Ended)
      modifies this`events, this`fs, this`inflight
      ensures old(Calm()) >= 1 ==> ended == Done
      ensures Calm() >= old(Calm()) - 1
      ensures ended.Done? ==> fs == old(fs)[k := o] && inflight == old(inflight)
      ensures ended.Died? ==> fs == old(fs) && inflight == old(inflight)
      ensures || (fs == old(fs)[k := o] && inflight == old(inflight))
              || (fs == old(fs) && (ended.Died? || inflight == old(inflight) + {Write(k, o)}))
    {
      var event := NextEvent();
      if TookEffect(event) {
        fs := fs[k := o];
      } else if event.Some? {
        inflight := inflight + {Write(k, o)};
      }
      ended := EndOf(event);
    }

    /** `write_json(checkpoint, ...)`: local and atomic. */
    method SaveCheckpoint(run: RunId, progress: Progress, outputs: Store) returns (ended: Ended)
      modifies this`events, this`checkpoint
      ensures old(Calm()) >= 1 ==> ended == Done
      ensures Calm() >= old(Calm()) - 1
      ensures ended.Done? ==> checkpoint == Some(Checkpoint(plan, run, progress, outputs))
      ensures checkpoint == Some(Checkpoint(plan, run, progress, outputs)) || checkpoint == old(checkpoint)
    {
      var event := NextEvent();
      if TookEffect(event) {
        checkpoint := Some(Checkpoint(plan, run, progress, outputs));
      }
      ended := EndOf(event);
    }

    /** `read_day_manifest` */
    method ReadMarker(run: RunId) returns (ended: Ended, found: Option<DayManifest>)
      requires WellKeyed(fs)
      modifies this`events
      ensures old(Calm()) >= 1 ==> ended == Done
      ensures Calm() >= old(Calm()) - 1
      ensures ended.Done? ==> found == ReadDay(fs, item.baseline.resource, run, item.baseline.date)
      ensures !ended.Done? ==> found == None
    {
      ended := Work();
      found := if ended.Done? then ReadDay(fs, item.baseline.resource, run, item.baseline.date) else None;
    }

    /* Before the commit. */

    /** Between two statements of the candidate `run`, before its commit is sent. */
    ghost predicate Trying(run: RunId)
      reads this`fs, this`inflight, this`checkpoint, this`drawn, this`sent, this`commit
    {
      OpenBooks(plan, item, fs, inflight, drawn, sent, commit, checkpoint, run) == true
    }

    /** The candidate has met no error so far, and has written this. */
    ghost predicate Going(run: RunId, p: Placed)
      reads this`fs, this`inflight, this`checkpoint, this`drawn, this`sent, this`commit
    {
      Trying(run) && Quiet(inflight, sent, run) == true && Wrote(fs, item, run, p) == true
    }

    /** Write the checkpoint of a candidate before its commit. */
    method SaveProgress(run: RunId, progress: Progress, outputs: Store) returns (ended: Ended)
      requires Trying(run) == true
      modifies this`events, this`checkpoint
      ensures Trying(run) == true
      ensures old(Calm()) >= 1 ==> ended == Done
      ensures Calm() >= old(Calm()) - 1
      ensures ended.Done? ==> checkpoint == Some(Checkpoint(plan, run, progress, outputs))
    {
      RecordedAgain(item, plan, fs, inflight, drawn, sent, checkpoint, Checkpoint(plan, run, progress, outputs));
      ended := SaveCheckpoint(run, progress, outputs);
    }

    /** A header, page, file or copy of the candidate. */
    method PutOwn(run: RunId, k: Key, o: Object) returns (ended: Ended)
      requires Trying(run) == true && k.run == run && !k.DayKey? && OwnObject(item, sent, None, k, o)
      modifies this`events, this`fs, this`inflight
      ensures Trying(run) == true
      ensures old(Calm()) >= 1 ==> ended == Done
      ensures Calm() >= old(Calm()) - 1
      ensures ended.Done? ==> fs == old(fs)[k := o] && inflight == old(inflight)
    {
      BooksPut(item, fs, inflight, drawn, sent, sent, k, o);
      ended := Put(k, o);
    }

    /** `write_day_manifest`, of anything but a commit. */
    method WriteMarker(run: RunId, marker: DayManifest) returns (ended: Ended)
      requires Trying(run) == true && marker.status != Success
      requires marker.runId == run && marker.resource == item.baseline.resource && marker.date == item.baseline.date
      modifies this`events, this`fs, this`inflight, this`sent
      ensures Trying(run) == true && old(sent) <= sent
      ensures old(Calm()) >= 1 ==> ended == Done
      ensures Calm() >= old(Calm()) - 1
      ensures !ended.Died? ==> SentMore(old(sent), sent, run, marker.status)
      ensures ended.Done? ==> inflight == old(inflight)
      ensures ended.Done? ==> fs == old(fs)[DayKey(marker.resource, run, marker.date) := Written(Day(marker))]
    {
      var k, o := DayKey(marker.resource, run, marker.date), Written(Day(marker));
      ghost var more := sent + [MarkerWrite(run, marker.status)];
      RecordedMarker(item, plan, fs, inflight, drawn, sent, checkpoint, MarkerWrite(run, marker.status));
      BooksPut(item, fs, inflight, drawn, sent, more, k, o);
      ended := Put(k, o);
      if !ended.Died? {
        sent := more;
      }
    }

    /** The first writes of a candidate. */
    method Announce(run: RunId, startedAt: int) returns (ended: Ended)
      requires Trying(run) == true && Quiet(inflight, sent, run) && (forall k :: k in fs ==> k.run != run)
      requires EvidenceHolds(fs, item)
      modifies this`events, this`fs, this`inflight, this`sent
      ensures Trying(run) == true && old(sent) <= sent
      ensures old(Calm()) >= 2 ==> ended == Done
      ensures Calm() >= old(Calm()) - 2
      ensures ended.Done? ==> Going(run, Placed(old(fs), startedAt, map[], map[], []))
    {
      ghost var p := Placed(fs, startedAt, map[], map[], []);
      ended := PutOwn(run, RunKey(item.baseline.resource, run), Written(Run(HeaderOf(item, run, startedAt))));
      if ended.Done? {
        Opened(old(fs), item, run, startedAt);
        var marker := MarkerOf(item, run, Running, 0, startedAt, None);
        PutFile(fs, item, run, p, DayKey(item.baseline.resource, run, item.baseline.date), Written(Day(marker)));
        ended := WriteMarker(run, marker);
      }
    }

    /** What a candidate's run leaves: the checkpoint tells how it ended, and a candidate that
        failed or was declined is stored as failed, its errors counted. */
    ghost predicate Concluded(run: RunId, times: Times, outcome: DayOutcome)
      requires WellKeyed(fs)
      reads this`fs, this`checkpoint
    {
      && (outcome.MarkedFailed? || outcome.Unhelpful? || outcome.Unconfirmed? ==> checkpoint.Some? && checkpoint.value.run == run)
      && (outcome.MarkedFailed? ==> checkpoint.value.progress == GivenUp && StoredFailed(fs, item, run, times, 1))
      && (outcome.Unhelpful? ==> checkpoint.value.progress == NoBenefit && StoredFailed(fs, item, run, times, 0))
      && (outcome.Unconfirmed? ==> checkpoint.value.progress == CommitUncertain || checkpoint.value.progress == Finished)
    }

    /** The marker and the header of a candidate that failed. */
    method MarkFailed(run: RunId, times: Times, errors: nat) returns (ended: Ended)
      requires Trying(run) == true
      modifies this`events, this`fs, this`inflight, this`sent
      ensures Trying(run) == true && old(sent) <= sent
      ensures old(Calm()) >= 2 ==> ended == Done
      ensures Calm() >= old(Calm()) - 2
      ensures ended.Done? ==> StoredFailed(fs, item, run, times, errors) == true && Sent(sent, run, Failed)
    {
      ended := WriteMarker(run, MarkerOf(item, run, Failed, errors, times.started, Some(times.closed)));
      if ended.Done? {
        ended := PutOwn(run, RunKey(item.baseline.resource, run), Written(Run(FailedHeader(item, run, times))));
      }
    }

    /** What is left to do once the candidate cannot be committed. An interruption here
        leaves the checkpoint as it is. */
    method GiveUp(run: RunId, times: Times) returns (outcome: DayOutcome)
      requires Trying(run) == true
      modifies this`events, this`fs, this`inflight, this`sent, this`checkpoint
      ensures Trying(run) == true && (outcome.MarkedFailed? || outcome.Unconfirmed? || outcome.Crashed?) && old(sent) <= sent
      ensures Concluded(run, times, outcome)
      ensures outcome.MarkedFailed? ==> Sent(sent, run, Failed)
      ensures old(Calm()) >= 4 ==> outcome == MarkedFailed
    {
      NoCommitFound(item, fs, inflight, drawn, sent, run);
      var ended, found := ReadMarker(run);
      if ended.Done? && (found.None? || found.value.status != Success) {
        ended := MarkFailed(run, times, 1);
        if ended.Done? {
          ended := SaveProgress(run, GivenUp, map[]);
          return if ended.Done? then MarkedFailed else Crashed;
        }
      }
      if ended.Died? || ended.Halted? {
        return Crashed;
      }
      ended := SaveProgress(run, CommitUncertain, map[]);
      outcome := if ended.Done? then Unconfirmed else Crashed;
    }

    /** A candidate that saves no files: marked failed, and not tried again. */
    method Decline(run: RunId, times: Times) returns (outcome: DayOutcome)
      requires Trying(run) == true
      modifies this`events, this`fs, this`inflight, this`sent, this`checkpoint
      ensures old(Calm()) >= 4 ==> outcome == Unhelpful
      ensures Trying(run) == true && !outcome.DayCommitted? && old(sent) <= sent
      ensures Concluded(run, times, outcome)
      ensures outcome.Unhelpful? ==> Sent(sent, run, Failed)
    {
      var ended := MarkFailed(run, times, 0);
      if ended.Done? {
        ended := Work();
      }
      if ended.Done? {
        ended := SaveProgress(run, NoBenefit, map[]);
      }
      if ended.Done? {
        return Unhelpful;
      }
      if ended.Died? {
        return Crashed;
      }
      outcome := GiveUp(run, times);
    }

    /** Fetch the planned files, table by table in the order they are listed. */
    method Download() returns (ended: Ended, keys: seq<Key>, before: seq<Compaction.Stored>)
      requires WellKeyed(fs) && Inventory(fs, EntryOf(item.baseline)) == item.files
      modifies this`events
      ensures old(Calm()) >= |item.files| ==> ended == Done
      ensures Calm() >= old(Calm()) - |item.files|
      ensures AllParquet(item.files) && Lists(keys, item.files.Keys)
      ensures ended.Done? ==> before == StoredAt(item.files, keys)
    {
      assert AllParquet(item.files);
      keys := Enumerate(item.files.Keys);
      before, ended := [], Done;
      ListingSize(keys, item.files.Keys);
      for i := 0 to |keys|
        invariant |before| == i && forall j :: 0 <= j < i ==> before[j] == StoredAt(item.files, keys)[j]
        invariant Calm() >= old(Calm()) - i
      {
        ended := Work();
        if !ended.Done? {
          return;
        }
        assert keys[i] in keys && keys[i] in fs;
        before := before + [Compaction.Stored(keys[i].table, fs[keys[i]].content.file)];
      }
      ended := Done;
    }

    /** Upload one file. */
    method UploadFile(run: RunId, ghost p: Placed, k: Key, o: Object) returns (ended: Ended)
      requires Going(run, p) == true && CandidateOf(item, run).OwnsFile(k) == true && o.content.Parquet?
      modifies this`events, this`fs, this`inflight
      ensures Trying(run) == true
      ensures old(Calm()) >= 1 ==> ended == Done
      ensures Calm() >= old(Calm()) - 1
      ensures ended.Done? ==> Going(run, p.(files := p.files[k := o])) == true
    {
      WroteFile(fs, item, run, p, k, o);
      ended := PutOwn(run, k, o);
    }

    /** Upload the output files, one after the other: `steps` says what is there after each. */
    method Upload(run: RunId, ghost p: Placed, outputs: seq<Compaction.Stored>, keys: seq<Key>, ghost steps: seq<Store>)
      returns (ended: Ended)
      requires Going(run, p) == true && |keys| == |outputs| && Uploads(outputs, keys, steps) && p.files == steps[0]
      requires forall i :: 0 <= i < |keys| ==> CandidateOf(item, run).OwnsFile(keys[i]) == true
      modifies this`events, this`fs, this`inflight
      ensures Trying(run) == true
      ensures old(Calm()) >= |outputs| ==> ended == Done
      ensures Calm() >= old(Calm()) - |outputs|
      ensures ended.Done? ==> Going(run, p.(files := steps[|outputs|])) == true
    {
      ended := Done;
      for i := 0 to |outputs|
        invariant Going(run, p.(files := steps[i])) == true
        invariant Calm() >= old(Calm()) - i
      {
        ended := UploadFile(run, p.(files := steps[i]), keys[i], Written(Parquet(outputs[i].file)));
        if !ended.Done? {
          return;
        }
      }
      ended := Done;
    }

    /** Write one copy of quality evidence. */
    method WriteCopy(run: RunId, ghost p: Placed, k: Key, o: Object) returns (ended: Ended)
      requires Going(run, p) == true && OwnsQuality(CandidateOf(item, run), k) && o.content.Evidence?
      modifies this`events, this`fs, this`inflight
      ensures Trying(run) == true
      ensures old(Calm()) >= 1 ==> ended == Done
      ensures Calm() >= old(Calm()) - 1
      ensures ended.Done? ==> Going(run, p.(quality := p.quality[k := o])) == true
    {
      WroteCopy(fs, item, run, p, k, o);
      ended := PutOwn(run, k, o);
    }

    /** Read one piece of quality evidence, write it under the new run, and read it back. */
    method CopyEvidence(run: RunId, ghost p: Placed, key: Key) returns (ended: Ended)
      requires Going(run, p) == true && run != item.baseline.runId && key in item.quality && key.QualityKey?
      modifies this`events, this`fs, this`inflight
      ensures Trying(run) == true
      ensures old(Calm()) >= 3 ==> ended == Done
      ensures Calm() >= old(Calm()) - 3
      ensures ended.Done? ==> Going(run, p.(quality := p.quality[CopyKey(item, run, key) := item.quality[key]])) == true
    {
      QualityInPlace(fs, item, run, p, key);
      ended := Work();
      if !ended.Done? {
        return;
      }
      ended := WriteCopy(run, p, CopyKey(item, run, key), fs[key]);
      if !ended.Done? {
        return;
      }
      ended := Work();
    }

    /** Copy the quality evidence under the new run. */
    method CopyQuality(run: RunId, ghost p: Placed) returns (ended: Ended, ghost q: Placed)
      requires Going(run, p) == true && run != item.baseline.runId && p.quality == map[] && OwnEvidence(item)
      modifies this`events, this`fs, this`inflight
      ensures Trying(run) == true
      ensures old(Calm()) >= 3 * |item.quality| ==> ended == Done
      ensures Calm() >= old(Calm()) - 3 * |item.quality|
      ensures ended.Done? ==> Going(run, q) == true && q == p.(quality := q.quality)
      ensures ended.Done? ==> CopiesEvidence(item, run, q.quality, item.quality.Keys) == true
    {
      var keys := Enumerate(item.quality.Keys);
      ListingSize(keys, item.quality.Keys);
      ghost var steps := EvidenceSteps(item, run, keys, item.quality.Keys);
      q := p.(quality := steps[|keys|]);
      ended := CopyAll(run, p, keys, steps);
    }

    /** One after the other: `steps` says what is there after each. */
    method CopyAll(run: RunId, ghost p: Placed, keys: seq<Key>, ghost steps: seq<Store>) returns (ended: Ended)
      requires Going(run, p) == true && run != item.baseline.runId && Copies(item, run, keys, steps) && p.quality == steps[0]
      modifies this`events, this`fs, this`inflight
      ensures Trying(run) == true
      ensures old(Calm()) >= 3 * |keys| ==> ended == Done
      ensures Calm() >= old(Calm()) - 3 * |keys|
      ensures ended.Done? ==> Going(run, p.(quality := steps[|keys|])) == true
    {
      ended := Done;
      for i := 0 to |keys|
        invariant Going(run, p.(quality := steps[i])) == true
        invariant Calm() >= old(Calm()) - 3 * i
      {
        ended := CopyEvidence(run, p.(quality := steps[i]), keys[i]);
        if !ended.Done? {
          return;
        }
      }
      ended := Done;
    }

    /** Fetch the candidate's files and compare them with the receipt. */
    method CompareDigests(files: Store, outputs: Store) returns (ended: Ended, keys: seq<Key>)
      modifies this`events
      ensures Lists(keys, files.Keys)
      ensures ended.Done? ==> SameDigests(files, outputs)
      ensures old(Calm()) >= |outputs| && SameDigests(files, outputs) ==> ended == Done
      ensures Calm() >= old(Calm()) - |outputs|
    {
      keys := Enumerate(files.Keys);
      if files.Keys != outputs.Keys {
        return Raised, keys;
      }
      assert |keys| == |outputs.Keys|;
      for i := 0 to |keys|
        invariant forall j :: 0 <= j < i ==> files[keys[j]].digest == outputs[keys[j]].digest
        invariant Calm() >= old(Calm()) - i
      {
        ended := Work();
        if !ended.Done? {
          return;
        }
        assert keys[i] in keys;
        if files[keys[i]].digest != outputs[keys[i]].digest {
          return Raised, keys;
        }
      }
      ended := Done;
    }

    /** `_verify_receipt`: the files of the candidate are the receipt's, byte by byte, and a
        reader accepts them. */
    method VerifyReceipt(run: RunId, outputs: Store) returns (ended: Ended)
      requires WellKeyed(fs)
      modifies this`events
      ensures var files := Inventory(fs, CandidateOf(item, run));
              && AllParquet(files)
              && (ended.Done? ==> SameDigests(files, outputs) && exists keys :: Lists(keys, files.Keys) && Accepted(files, keys, item, run))
              && (old(Calm()) >= 2 + |outputs| && SameDigests(files, outputs)
                  && (forall keys :: Lists(keys, files.Keys) ==> Accepted(files, keys, item, run)) ==>
                    ended == Done && Calm() >= old(Calm()) - 2 - |outputs|)
    {
      var files := Inventory(fs, CandidateOf(item, run));
      ended := Work();
      if !ended.Done? {
        return;
      }
      var keys;
      ended, keys := CompareDigests(files, outputs);
      if ended.Done? {
        ended := Work();
      }
      if !ended.Done? {
        return;
      }
      var records := Compaction.IterCommitted(StoredAt(files, keys), run, item.baseline.date, item.baseline.bronzeRecords, true);
      ended := if records.Some? then Done else Raised;
    }

    /** One page manifest. */
    method WritePage(run: RunId, ghost p: Placed, page: PageManifest) returns (ended: Ended)
      requires Going(run, p) == true && page.runId == run && page.date == item.baseline.date && page.number == |p.pages|
      modifies this`events, this`fs, this`inflight
      ensures Trying(run) == true
      ensures old(Calm()) >= 1 ==> ended == Done
      ensures Calm() >= old(Calm()) - 1
      ensures ended.Done? ==> Going(run, p.(pages := p.pages + [page])) == true
    {
      WrotePage(fs, item, run, p, page);
      ended := PutOwn(run, PageKey(item.baseline.resource, run, item.baseline.date, page.number), Written(Page(page)));
    }

    /** Write the page manifests of the baseline again, under the new run and times. */
    method WritePages(run: RunId, ghost p: Placed, pages: seq<PageManifest>) returns (ended: Ended, ghost q: Placed)
      requires Going(run, p) == true && p.pages == []
      requires forall i :: 0 <= i < |pages| ==> pages[i].runId == run && pages[i].date == item.baseline.date && pages[i].number == i
      modifies this`events, this`fs, this`inflight
      ensures Trying(run) == true
      ensures old(Calm()) >= |pages| ==> ended == Done
      ensures Calm() >= old(Calm()) - |pages|
      ensures ended.Done? ==> q == p.(pages := pages) && Going(run, q) == true
    {
      q, ended := p, Done;
      for i := 0 to |pages|
        invariant q == p.(pages := pages[..i]) && Going(run, q) == true
        invariant Calm() >= old(Calm()) - i
      {
        ended := WritePage(run, q, pages[i]);
        if !ended.Done? {
          return;
        }
        Prefixes(pages, i);
        q := q.(pages := pages[..i + 1]);
      }
      Prefixes(pages, |pages|);
      ended := Done;
    }

    /** Everything of the candidate is in place, and the checkpoint says that its commit is next. */
    ghost predicate Ready(day: DayManifest)
      reads this`fs, this`inflight, this`checkpoint, this`drawn, this`sent, this`commit
    {
      && Trying(day.runId) && Quiet(inflight, sent, day.runId)
      && checkpoint == Some(Checkpoint(plan, day.runId, CommitUncertain, Inventory(fs, EntryOf(day))))
      && Vouched(fs, item, day) == true && Documented(fs, item, day) == true
    }

    /** Verify what was uploaded. */
    method VerifyUploads(run: RunId, ghost p: Placed, ghost keys: seq<Key>, ghost outputs: seq<Compaction.Stored>, files: Store)
      returns (ended: Ended)
      requires WellKeyed(fs) && InPlace(fs, item, run, p) == true && RewriteOf(item, run, keys, outputs) == true
      requires files == p.files == AllUploaded(outputs, CandidateOf(item, run))
      modifies this`events
      ensures old(Calm()) >= 2 + |files| ==> ended == Done
      ensures Calm() >= old(Calm()) - 2 - |files|
    {
      forall listed | AllParquet(files) && Lists(listed, files.Keys) ensures Accepted(files, listed, item, run) {
        UploadsAccepted(item, run, keys, outputs, files, listed);
      }
      ended := VerifyReceipt(run, files);
    }

    /** Check the manifests as they are stored, and store the receipt as well. */
    method CheckPages(run: RunId, ghost p: Placed, day: DayManifest) returns (ended: Ended)
      requires WellKeyed(fs) && Wrote(fs, item, run, p) == true && day.completedAt.Some? && p.pages == CopiedPages(item.pages, run, day.startedAt, day.completedAt.value)
      requires day == CompletedDay(item.baseline, run, p.startedAt, day.completedAt.value)
      modifies this`events
      ensures day.startedAt <= day.completedAt.value && old(Calm()) >= 2 ==> ended == Done
      ensures Calm() >= old(Calm()) - 2
      ensures ended.Done? ==> Documented(fs, item, day) == true
    {
      ended := Work();
      if !ended.Done? {
        return;
      }
      CopiesDocument(fs, item, run, p, day.startedAt, day.completedAt.value);
      if !Documented(fs, item, day) {
        return Raised;
      }
      ended := Work();
    }

    /** Write the pages of the completed day. */
    method Document(run: RunId, ghost p: Placed, times: Times) returns (ended: Ended, day: DayManifest, ghost q: Placed)
      requires Going(run, p) == true && p.pages == [] && p.startedAt == times.started
      modifies this`events, this`fs, this`inflight
      ensures Trying(run) == true && day == CompletedDay(item.baseline, run, times.started, times.completed)
      ensures times.started <= times.completed && old(Calm()) >= |item.pages| + 2 ==>
                ended == Done
      ensures Calm() >= old(Calm()) - |item.pages| - 2
      ensures ended.Done? ==> Going(run, q) == true && q == p.(pages := q.pages) && Documented(fs, item, day) == true
    {
      day := CompletedDay(item.baseline, run, times.started, times.completed);
      var copied := CopiedPages(item.pages, run, times.started, times.completed);
      EvidencePages(p.base, item);
      ended, q := WritePages(run, p, copied);
      if ended.Done? {
        ended := CheckPages(run, q, day);
      }
    }

    /** Assert the baseline once more. */
    method AssertAgain(run: RunId, ghost p: Placed, guard: CoverageGuard.Guard) returns (ended: Ended)
      requires Going(run, p) == true && run != item.baseline.runId
      requires guard.Valid() && guard.seen == p.base && guard.resource == item.baseline.resource
      modifies this`events, guard
      ensures Going(run, p) == true
      ensures old(Calm()) >= 1 && Unrivalled(p.base, item, p.startedAt) ==> ended == Done
      ensures Calm() >= old(Calm()) - 1
      ensures ended.Done? ==> BaselineHolds(fs, item, Some(run)) == true
    {
      GuardMayTrust(p.base, fs, item.baseline.resource, run);
      ended := Work();
      if !ended.Done? {
        return;
      }
      StaysUnrivalled(fs, item, run, p);
      var ok := AssertBaseline(fs, item, guard, Some(run));
      ended := if ok then Done else Raised;
    }

    /** Assert the baseline once more, and put the receipt behind the commit. */
    method Confirm(day: DayManifest, ghost p: Placed, ghost keys: seq<Key>, ghost outputs: seq<Compaction.Stored>, files: Store,
                   guard: CoverageGuard.Guard) returns (ended: Ended)
      requires Going(day.runId, p) == true && day.completedAt.Some?
      requires day == CompletedDay(item.baseline, day.runId, p.startedAt, day.completedAt.value) && item.baseline.startedAt < p.startedAt
      requires RewriteOf(item, day.runId, keys, outputs) == true && Documented(fs, item, day) == true && day.runId != item.baseline.runId
      requires files == p.files == AllUploaded(outputs, CandidateOf(item, day.runId))
      requires CopiesEvidence(item, day.runId, p.quality, item.quality.Keys) == true
      requires guard.Valid() && guard.seen == p.base && guard.resource == item.baseline.resource
      modifies this`events, this`checkpoint, guard
      ensures Trying(day.runId) == true
      ensures old(Calm()) >= 2 && Unrivalled(p.base, item, p.startedAt) ==> ended == Done
      ensures Calm() >= old(Calm()) - 2
      ensures ended.Done? ==> Ready(day) == true
    {
      ended := AssertAgain(day.runId, p, guard);
      if ended.Done? {
        ended := SaveReceipt(day, p, keys, outputs, files);
      }
    }

    /** The receipt says that the commit is next. */
    method SaveReceipt(day: DayManifest, ghost p: Placed, ghost keys: seq<Key>, ghost outputs: seq<Compaction.Stored>, files: Store)
      returns (ended: Ended)
      requires Going(day.runId, p) == true && BaselineHolds(fs, item, Some(day.runId)) == true && day.completedAt.Some?
      requires day == CompletedDay(item.baseline, day.runId, p.startedAt, day.completedAt.value) && item.baseline.startedAt < p.startedAt
      requires RewriteOf(item, day.runId, keys, outputs) == true && Documented(fs, item, day) == true && day.runId != item.baseline.runId
      requires files == p.files == AllUploaded(outputs, CandidateOf(item, day.runId))
      requires CopiesEvidence(item, day.runId, p.quality, item.quality.Keys) == true
      modifies this`events, this`checkpoint
      ensures Trying(day.runId) == true
      ensures old(Calm()) >= 1 ==> ended == Done
      ensures Calm() >= old(Calm()) - 1
      ensures ended.Done? ==> Ready(day) == true
    {
      PreparedIsVouched(fs, item, day.runId, keys, outputs, p, day.completedAt.value);
      ended := SaveProgress(day.runId, CommitUncertain, files);
    }

    /* The commit and after. */

    /** The candidate's commit was sent, and the checkpoint holds it. */
    ghost predicate Committing(day: DayManifest)
      reads this`fs, this`inflight, this`checkpoint, this`drawn, this`sent, this`commit
    {
      Valid() && commit == Some(day)
    }

    /** `write_day_manifest`, of the commit. */
    method SendCommit(day: DayManifest) returns (ended: Ended)
      requires Ready(day) == true
      modifies this`events, this`fs, this`inflight, this`sent, this`commit
      ensures Valid() == true && old(sent) <= sent
      ensures old(Calm()) >= 1 ==> ended == Done
      ensures Calm() >= old(Calm()) - 1
      ensures !ended.Died? ==> Committing(day) && FilesOf(fs, commit) == FilesOf(old(fs), Some(day))
      ensures ended.Done? ==> Landed(fs, commit)
    {
      var w := CommitWrite(day);
      ghost var more := sent + [MarkerWrite(day.runId, Success)];
      RecordedCommit(item, plan, fs, inflight, drawn, sent, checkpoint, day, FilesOf(fs, Some(day)));
      BooksCommit(item, fs, inflight, drawn, sent, day);
      ended := Put(w.key, w.value);
      if !ended.Died? {
        sent, commit := more, Some(day);
      }
    }

    /** `_finish_run` */
    method FinishRun(run: RunId, now: int) returns (ended: Ended)
      requires Valid() && commit.Some? && commit.value.runId == run
      modifies this`events, this`fs, this`inflight
      ensures Valid() == true && (Landed(old(fs), commit) ==> Landed(fs, commit)) && (Closed(old(fs), commit) ==> Closed(fs, commit))
      ensures ended.Done? ==> Closed(fs, commit)
      ensures old(Calm()) >= 2 ==> ended == Done
      ensures Calm() >= old(Calm()) - 2
    {
      ghost var day := commit.value;
      ended := Work();
      if !ended.Done? {
        return;
      }
      var k := RunKey(item.baseline.resource, run);
      HeaderInPlace(item, fs, inflight, drawn, sent, day);
      var header := fs[k].content.run;
      if header.status == RunSuccess {
        return;
      }
      var closed := header.(status := RunSuccess, successDates := 1, failedDates := 0, completedAt := Some(now));
      BooksHeader(item, fs, inflight, drawn, sent, day, closed);
      ended := Put(k, Written(Run(closed)));
    }

    /** Write the checkpoint again once the commit was sent. */
    method SaveCommit(run: RunId, progress: Progress) returns (ended: Ended)
      requires Valid() && commit.Some? && commit.value.runId == run && (progress == CommitUncertain || progress == Finished)
      modifies this`events, this`checkpoint
      ensures Valid() == true
      ensures old(Calm()) >= 1 ==> ended == Done
      ensures Calm() >= old(Calm()) - 1
      ensures ended.Done? ==> checkpoint.value.progress == progress
    {
      ended := SaveCheckpoint(run, progress, checkpoint.value.outputs);
    }

    /** Close the candidate whose commit is in the store. */
    method Close(run: RunId, now: int) returns (ended: Ended)
      requires Valid() && commit.Some? && commit.value.runId == run && Landed(fs, commit)
      modifies this`events, this`fs, this`inflight, this`checkpoint
      ensures Valid() == true && Landed(fs, commit) && (Closed(old(fs), commit) ==> Closed(fs, commit))
      ensures old(Calm()) >= 3 ==> ended == Done
      ensures Calm() >= old(Calm()) - 3
      ensures ended.Done? ==> checkpoint.value.progress == Finished && Closed(fs, commit)
    {
      ended := FinishRun(run, now);
      if ended.Done? {
        ended := SaveCommit(run, Finished);
      }
    }

    /** The run reports the day committed: the commit it sent is in the store, and its run is closed. */
    ghost predicate Reported(outcome: DayOutcome)
      reads this`fs, this`inflight, this`checkpoint, this`drawn, this`sent, this`commit
    {
      outcome.DayCommitted? ==> Valid() && Landed(fs, commit) && Closed(fs, commit) && commit.value.runId == outcome.run && checkpoint.value.progress == Finished
    }

    /** `commit_day_manifest`, behind a checkpoint that says so. */
    method CommitDay(day: DayManifest, now: int) returns (outcome: DayOutcome)
      requires Ready(day) == true
      modifies this`events, this`fs, this`inflight, this`sent, this`commit, this`checkpoint
      ensures Valid() == true && old(sent) <= sent && Reported(outcome)
      ensures outcome.DayCommitted? ==> commit == Some(day)
      ensures outcome.DayCommitted? || outcome.Unconfirmed? || outcome.Crashed?
      ensures checkpoint.Some? && checkpoint.value.run == day.runId
      ensures outcome.Unconfirmed? ==> checkpoint.value.progress == CommitUncertain || checkpoint.value.progress == Finished
      ensures old(Calm()) >= 4 ==> outcome == DayCommitted(day.runId)
    {
      var ended := SendCommit(day);
      if ended.Raised? {
        var found;
        ended, found := ReadMarker(day.runId);
        if ended.Raised? || (ended.Done? && found != Some(day)) {
          return Unconfirmed;
        }
      }
      if ended.Died? {
        return Crashed;
      }
      if ended.Halted? {
        ended := SaveCommit(day.runId, CommitUncertain);
        return Unconfirmed;
      }
      ended := Close(day.runId, now);
      return if ended.Done? then DayCommitted(day.runId) else if ended.Died? then Crashed else Unconfirmed;
    }

    /** Fetch the planned files and rewrite them. */
    method RewriteFiles(run: RunId, sizes: map<string, seq<nat>>)
      returns (ended: Ended, ghost keys: seq<Key>, result: Compaction.DayResult)
      requires WellKeyed(fs) && Inventory(fs, EntryOf(item.baseline)) == item.files
      modifies this`events
      ensures RewritableFiles(item) && old(Calm()) >= 1 + |item.files| ==> ended == Done
      ensures Calm() >= old(Calm()) - 1 - |item.files|
      ensures ended.Done? ==> !result.Refused?
      ensures ended.Done? && result.Compacted? ==> RewriteOf(item, run, keys, result.outputs)
      ensures ended.Done? && Worthwhile(item, sizes, targetBytes) ==> result.Compacted?
    {
      result := Compaction.DayResult.Refused;
      var listed, before;
      ended, listed, before := Download();
      keys := listed;
      if ended.Done? {
        ended := Work();
      }
      if !ended.Done? {
        return;
      }
      result := CompactFiles(item, keys, before, run, targetBytes, sizes);
      ended := if result.Refused? then Raised else Done;
    }

    /** Upload the output files under their names. */
    method UploadAll(run: RunId, ghost p: Placed, outputs: seq<Compaction.Stored>) returns (ended: Ended, files: Store)
      requires Going(run, p) == true && p.files == map[] && OwnOutputs(outputs, CandidateOf(item, run)) == true
      modifies this`events, this`fs, this`inflight
      ensures Trying(run) == true && files == AllUploaded(outputs, CandidateOf(item, run))
      ensures old(Calm()) >= |outputs| ==> ended == Done
      ensures Calm() >= old(Calm()) - |outputs|
      ensures ended.Done? ==> Going(run, p.(files := files)) == true
    {
      var keys := PartKeys(outputs, CandidateOf(item, run));
      ghost var steps := seq(|outputs| + 1, i requires 0 <= i < |outputs| + 1 => Uploaded(outputs, keys, i));
      files := AllUploaded(outputs, CandidateOf(item, run));
      ended := Upload(run, p, outputs, keys, steps);
    }

    /** Copy the quality evidence, and verify what was uploaded. */
    method Secure(run: RunId, ghost p: Placed, ghost keys: seq<Key>, ghost outputs: seq<Compaction.Stored>, files: Store)
      returns (ended: Ended, ghost q: Placed)
      requires Going(run, p) == true && run != item.baseline.runId && RewriteOf(item, run, keys, outputs) == true
      requires files == p.files == AllUploaded(outputs, CandidateOf(item, run)) && p.quality == map[] && OwnEvidence(item)
      modifies this`events, this`fs, this`inflight
      ensures Trying(run) == true
      ensures old(Calm()) >= 3 * |item.quality| + |files| + 2 ==> ended == Done
      ensures Calm() >= old(Calm()) - (3 * |item.quality| + |files| + 2)
      ensures ended.Done? ==> Going(run, q) == true && q == p.(quality := q.quality)
      ensures ended.Done? ==> CopiesEvidence(item, run, q.quality, item.quality.Keys) == true
    {
      ended, q := CopyQuality(run, p);
      if !ended.Done? {
        return;
      }
      ended := VerifyUploads(run, q, keys, outputs, files);
    }

    /** Upload the files, copy the quality evidence, and verify what was uploaded. */
    method Transfer(run: RunId, ghost p: Placed, ghost keys: seq<Key>, outputs: seq<Compaction.Stored>)
      returns (ended: Ended, files: Store, ghost q: Placed)
      requires Going(run, p) == true && p.files == map[] && run != item.baseline.runId && p.quality == map[] && OwnEvidence(item)
      requires RewriteOf(item, run, keys, outputs) == true && OwnOutputs(outputs, CandidateOf(item, run)) == true
      modifies this`events, this`fs, this`inflight
      ensures Trying(run) == true
      ensures old(Calm()) >= 2 * |outputs| + 3 * |item.quality| + 2 ==> ended == Done
      ensures Calm() >= old(Calm()) - (2 * |outputs| + 3 * |item.quality| + 2)
      ensures ended.Done? ==> files == AllUploaded(outputs, CandidateOf(item, run))
      ensures ended.Done? ==> q == p.(files := files, quality := q.quality) && Going(run, q) == true
      ensures ended.Done? ==> CopiesEvidence(item, run, q.quality, item.quality.Keys) == true
    {
      ended, files := UploadAll(run, p, outputs);
      q := p.(files := files);
      if !ended.Done? {
        return;
      }
      UploadedListed(outputs, CandidateOf(item, run));
      ended, q := Secure(run, q, keys, outputs, files);
    }

    /** From the rewritten files to a checkpoint that says the commit is next. */
    method Prepare(run: RunId, ghost p: Placed, ghost keys: seq<Key>, outputs: seq<Compaction.Stored>, times: Times,
                   guard: CoverageGuard.Guard) returns (ended: Ended, day: DayManifest)
      requires Going(run, p) == true && p.files == map[] && p.quality == map[] && p.pages == [] && p.startedAt == times.started
      requires run != item.baseline.runId
      requires RewriteOf(item, run, keys, outputs) == true && item.baseline.startedAt < times.started
      requires guard.Valid() && guard.seen == p.base && guard.resource == item.baseline.resource
      modifies this`events, this`fs, this`inflight, this`checkpoint, guard
      ensures Trying(run) == true
      ensures times.started <= times.completed && Unrivalled(p.base, item, times.started)
              && old(Calm()) >= 2 * |outputs| + 3 * |item.quality| + |item.pages| + 6 ==>
                ended == Done && Calm() >= old(Calm()) - (2 * |outputs| + 3 * |item.quality| + |item.pages| + 6)
      ensures ended.Done? ==> Ready(day) == true && day.runId == run
    {
      day := item.baseline;
      var files;
      ghost var q;
      BaselineUntouched(fs, item, run, p);
      PlannedEvidence(p.base, item);
      OutputsOwned(fs, item, run, keys, outputs);
      ended, files, q := Transfer(run, p, keys, outputs);
      if !ended.Done? {
        return;
      }
      ended, day, q := Document(run, q, times);
      if !ended.Done? {
        return;
      }
      ended := Confirm(day, q, keys, outputs, files, guard);
    }

    /** An error or an interruption before the commit. */
    method Abandon(run: RunId, times: Times, ended: Ended) returns (outcome: DayOutcome)
      requires Trying(run) == true && !ended.Done?
      modifies this`events, this`fs, this`inflight, this`sent, this`checkpoint
      ensures Valid() == true && old(sent) <= sent && !outcome.DayCommitted? && Concluded(run, times, outcome)
      ensures !ended.Died? && old(Calm()) >= 4 ==> outcome == MarkedFailed
    {
      if ended.Died? {
        return Crashed;
      }
      outcome := GiveUp(run, times);
    }

    /** A candidate whose files save some, up to its verdict. */
    method FinishCandidate(run: RunId, ghost p: Placed, ghost keys: seq<Key>, outputs: seq<Compaction.Stored>, times: Times,
                           guard: CoverageGuard.Guard) returns (outcome: DayOutcome)
      requires Going(run, p) == true && p.files == map[] && p.quality == map[] && p.pages == [] && p.startedAt == times.started
      requires run != item.baseline.runId
      requires RewriteOf(item, run, keys, outputs) == true && item.baseline.startedAt < times.started
      requires guard.Valid() && guard.seen == p.base && guard.resource == item.baseline.resource
      modifies this`events, this`fs, this`inflight, this`sent, this`commit, this`checkpoint, guard
      ensures Valid() == true && old(sent) <= sent && Reported(outcome)
      ensures Concluded(run, times, outcome)
      ensures outcome.DayCommitted? ==> outcome.run == run
      ensures times.started <= times.completed && Unrivalled(p.base, item, times.started)
              && old(Calm()) >= 2 * |outputs| + 3 * |item.quality| + |item.pages| + 10 ==>
                outcome == DayCommitted(run)
    {
      var ended, day := Prepare(run, p, keys, outputs, times, guard);
      if ended.Done? {
        outcome := CommitDay(day, times.closed);
      } else {
        outcome := Abandon(run, times, ended);
      }
    }

    /** A candidate from its rewritten files to its verdict. */
    method RewriteCandidate(run: RunId, ghost p: Placed, times: Times, sizes: map<string, seq<nat>>, guard: CoverageGuard.Guard)
      returns (outcome: DayOutcome)
      requires Going(run, p) == true && p.files == map[] && p.quality == map[] && p.pages == [] && p.startedAt == times.started
      requires run != item.baseline.runId
      requires item.baseline.startedAt < times.started && Inventory(fs, EntryOf(item.baseline)) == item.files
      requires guard.Valid() && guard.seen == p.base && guard.resource == item.baseline.resource
      modifies this`events, this`fs, this`inflight, this`sent, this`commit, this`checkpoint, guard
      ensures Valid() == true && old(sent) <= sent && Reported(outcome)
      ensures Concluded(run, times, outcome)
      ensures outcome.DayCommitted? ==> outcome.run == run
      ensures Favourable(p.base, item, times) && old(Calm()) >= Budget(item) - 4 ==>
                outcome == DayCommitted(run) || (outcome == Unhelpful && !Worthwhile(item, sizes, targetBytes))
    {
      var ended, result;
      ghost var keys;
      ended, keys, result := RewriteFiles(run, sizes);
      if !ended.Done? {
        outcome := Abandon(run, times, ended);
      } else if result.NoBenefit? {
        outcome := Decline(run, times);
      } else {
        ListingSize(keys, item.files.Keys);
        outcome := FinishCandidate(run, p, keys, result.outputs, times, guard);
      }
    }

    /** A candidate from its first marker to its verdict. */
    method TryCandidate(run: RunId, times: Times, sizes: map<string, seq<nat>>, guard: CoverageGuard.Guard)
      returns (outcome: DayOutcome)
      requires Trying(run) == true && Quiet(inflight, sent, run) && (forall k :: k in fs ==> k.run != run)
      requires EvidenceHolds(fs, item) && run != item.baseline.runId && item.baseline.startedAt < times.started
      requires guard.Valid() && guard.seen == fs && guard.resource == item.baseline.resource
      modifies this`events, this`fs, this`inflight, this`sent, this`commit, this`checkpoint, guard
      ensures Valid() == true && old(sent) <= sent && Reported(outcome)
      ensures Concluded(run, times, outcome)
      ensures outcome.DayCommitted? ==> outcome.run == run
      ensures Favourable(old(fs), item, times) && old(Calm()) >= Budget(item) - 2 ==>
                outcome == DayCommitted(run) || (outcome == Unhelpful && !Worthwhile(item, sizes, targetBytes))
    {
      ghost var p := Placed(fs, times.started, map[], map[], []);
      var ended := Announce(run, times.started);
      if ended.Done? {
        BaselineUntouched(fs, item, run, p);
        outcome := RewriteCandidate(run, p, times, sizes, guard);
      } else {
        outcome := Abandon(run, times, ended);
      }
    }

    /* Later runs. */

    /** Check the committed candidate once more, and close it. */
    method Recover(day: DayManifest, outputs: Store, now: int) returns (ended: Ended)
      requires Valid() && commit == Some(day) && Landed(fs, commit) && outputs == FilesOf(fs, commit)
      modifies this`events, this`fs, this`inflight, this`checkpoint
      ensures Valid() == true && Landed(fs, commit) && (Closed(old(fs), commit) ==> Closed(fs, commit))
      ensures OrderedHeader(old(fs), day) && old(Calm()) >= 6 + |outputs| ==> ended == Done
      ensures ended.Done? ==> checkpoint.value.progress == Finished && Closed(fs, commit)
    {
      ended := Work();
      if !ended.Done? {
        return;
      }
      CommittedAccepted(item, fs, inflight, drawn, sent, day);
      if !MetadataHolds(fs, day) {
        return Raised;
      }
      ended := VerifyReceipt(day.runId, outputs);
      if ended.Done? {
        ended := Close(day.runId, now);
      }
    }

    /** The store has a commit of the checkpoint's candidate. */
    predicate MarkerLanded(previous: Checkpoint)
      requires WellKeyed(fs)
      reads this`fs
    {
      var day := ReadDay(fs, item.baseline.resource, previous.run, item.baseline.date);
      day.Some? && day.value.status == Success
    }

    /** The commit of an earlier run of this plan is in the store, and its header makes sense. */
    predicate CommitLanded(previous: Checkpoint)
      requires WellKeyed(fs)
      reads this`fs
    {
      var day := ReadDay(fs, item.baseline.resource, previous.run, item.baseline.date);
      previous.plan == plan && day.Some? && day.value.status == Success && OrderedHeader(fs, day.value)
    }

    /** What an earlier checkpoint allows. */
    method Resume(previous: Checkpoint, now: int) returns (decided: bool, outcome: DayOutcome)
      requires Valid() && checkpoint == Some(previous)
      modifies this`events, this`fs, this`inflight, this`checkpoint
      ensures Valid() == true && (Landed(old(fs), commit) ==> Landed(fs, commit)) && (Closed(old(fs), commit) ==> Closed(fs, commit))
      ensures Reported(outcome)
      ensures old(CommitLanded(previous)) && old(Calm()) >= 7 + |previous.outputs| ==> decided && outcome == DayCommitted(previous.run)
      ensures outcome.DayCommitted? ==> outcome.run == previous.run
      ensures !decided ==> fs == old(fs) && inflight == old(inflight) && checkpoint == old(checkpoint)
      ensures !decided ==> commit == None && previous.progress == GivenUp && previous.plan == plan
      ensures previous.plan != plan ==> decided && outcome == Refused && fs == old(fs) && checkpoint == old(checkpoint)
      ensures previous.plan == plan && old(Calm()) >= 1 && !old(MarkerLanded(previous)) ==>
                if previous.progress == GivenUp then !decided && Calm() >= old(Calm()) - 1
                else decided && outcome == if previous.progress == NoBenefit then Unhelpful else Unconfirmed
    {
      if previous.plan != plan {
        return true, Refused;
      }
      RecordedRun(item, plan, fs, inflight, drawn, sent, commit, checkpoint);
      var ended, found := ReadMarker(previous.run);
      if ended.Done? && found.Some? && found.value.status == Success {
        FoundIsCommit(item, fs, inflight, drawn, sent, commit, found.value);
        ended := Recover(found.value, previous.outputs, now);
        if ended.Done? {
          return true, DayCommitted(previous.run);
        }
      }
      if !ended.Done? {
        return true, if ended.Died? then Crashed else Unconfirmed;
      }
      match previous.progress
      case Working => return true, Unconfirmed;
      case CommitUncertain => return true, Unconfirmed;
      case Finished => return true, Unconfirmed;
      case NoBenefit => return true, Unhelpful;
      case GivenUp => return false, Refused;
    }

    /** A new candidate: its baseline is asserted, its id is drawn, its checkpoint is written. */
    method Draw(run: RunId, times: Times, guard: CoverageGuard.Guard) returns (ended: Ended)
      requires Valid() && commit == None && run !in drawn && forall k :: k in fs ==> k.run != run
      requires guard.Valid() && guard.resource == item.baseline.resource && CoverageGuard.TerminalKept(guard.seen, fs, guard.resource)
      modifies this`events, this`checkpoint, this`drawn, guard
      ensures Valid() == true && (drawn == old(drawn) || drawn == old(drawn) + {run})
      ensures Unrivalled(fs, item, times.started) && item.baseline.startedAt < times.started && old(Calm()) >= 3 ==>
                ended == Done
      ensures Calm() >= old(Calm()) - 3
      ensures ended.Done? ==> Trying(run) == true && Quiet(inflight, sent, run)
      ensures ended.Done? ==> EvidenceHolds(fs, item) && run != item.baseline.runId && item.baseline.startedAt < times.started
      ensures ended.Done? ==> guard.Valid() && guard.seen == fs
    {
      ended := Work();
      if !ended.Done? {
        return;
      }
      var ok := AssertBaseline(fs, item, guard, None);
      if !ok || times.started <= item.baseline.startedAt {
        return Raised;
      }
      BaselineStored(fs, item);
      ended := OpenReceipt(run);
    }

    /** The id and the first checkpoint of a candidate. */
    method OpenReceipt(run: RunId) returns (ended: Ended)
      requires Valid() && commit == None && run !in drawn && run != item.baseline.runId && forall k :: k in fs ==> k.run != run
      modifies this`events, this`checkpoint, this`drawn
      ensures Valid() == true && drawn == old(drawn) + {run}
      ensures old(Calm()) >= 2 ==> ended == Done
      ensures Calm() >= old(Calm()) - 2
      ensures ended.Done? ==> Trying(run) == true && Quiet(inflight, sent, run)
    {
      NothingSent(item, fs, inflight, drawn, sent, run);
      BooksDraw(item, fs, inflight, drawn, sent, run);
      RecordedDraw(plan, drawn, sent, checkpoint, run);
      drawn := drawn + {run};
      // An earlier receipt is kept aside.
      ended := Work();
      if !ended.Done? {
        return;
      }
      RecordedAgain(item, plan, fs, inflight, drawn, sent, checkpoint, Checkpoint(plan, run, Working, map[]));
      ended := SaveCheckpoint(run, Working, map[]);
    }

    /** The last candidate of this plan failed, and was recorded so. */
    ghost predicate MayTryAgain()
      reads this`checkpoint
    {
      checkpoint.Some? && checkpoint.value.plan == plan && checkpoint.value.progress == GivenUp
    }

    /** `apply_day`. `run` is the id a new candidate would draw; `sizes` says how the files
        grow as they are written. After a foreign checkpoint nothing is done, after a failed
        candidate a new one is tried, and after any other none is. */
    method ApplyDay(run: RunId, times: Times, sizes: map<string, seq<nat>>, guard: CoverageGuard.Guard) returns (outcome: DayOutcome)
      requires Valid() && run !in drawn && forall k :: k in fs ==> k.run != run
      requires guard.Valid() && guard.resource == item.baseline.resource && CoverageGuard.TerminalKept(guard.seen, fs, guard.resource)
      modifies this, guard
      ensures Valid() == true && old(sent) <= sent && Reported(outcome)
      ensures old(commit).Some? ==> commit == old(commit) && sent == old(sent) && drawn == old(drawn)
      ensures (Landed(old(fs), old(commit)) ==> Landed(fs, commit)) && (Closed(old(fs), old(commit)) ==> Closed(fs, commit))
      ensures drawn == old(drawn) || drawn == old(drawn) + {run}
      ensures drawn != old(drawn) ==> Concluded(run, times, outcome)
      ensures old(checkpoint).None? && Favourable(old(fs), item, times) && old(Calm()) >= Budget(item) + 1 ==>
                outcome == DayCommitted(run) || (outcome == Unhelpful && !Worthwhile(item, sizes, targetBytes))
      ensures old(checkpoint).Some? && old(CommitLanded(checkpoint.value)) && old(Calm()) >= 7 + |old(checkpoint).value.outputs| ==>
                outcome == DayCommitted(old(checkpoint).value.run)
      ensures old(checkpoint).Some? && old(checkpoint).value.plan != plan ==> outcome == Refused && fs == old(fs) && checkpoint == old(checkpoint)
      ensures old(MayTryAgain()) && Favourable(old(fs), item, times) && old(Calm()) >= Budget(item) + 2 ==>
                outcome == DayCommitted(run) || (outcome == Unhelpful && !Worthwhile(item, sizes, targetBytes))
      ensures old(checkpoint).Some? && !old(MayTryAgain()) ==> drawn == old(drawn) && sent == old(sent)
      ensures old(checkpoint).Some? && old(checkpoint).value.plan == plan
              && !old(MarkerLanded(checkpoint.value)) && old(Calm()) >= 1 && old(checkpoint).value.progress != GivenUp ==>
                outcome == if old(checkpoint).value.progress == NoBenefit then Unhelpful else Unconfirmed
    {
      RecordedRun(item, plan, fs, inflight, drawn, sent, commit, checkpoint);
      if checkpoint.None? {
        outcome := NewCandidate(run, times, sizes, guard);
      } else {
        outcome := ApplyAgain(checkpoint.value, run, times, sizes, guard);
      }
    }

    /** `apply_day`, when a checkpoint is there. */
    method ApplyAgain(previous: Checkpoint, run: RunId, times: Times, sizes: map<string, seq<nat>>, guard: CoverageGuard.Guard)
      returns (outcome: DayOutcome)
      requires Valid() && checkpoint == Some(previous) && run !in drawn && forall k :: k in fs ==> k.run != run
      requires guard.Valid() && guard.resource == item.baseline.resource && CoverageGuard.TerminalKept(guard.seen, fs, guard.resource)
      modifies this, guard
      ensures Valid() == true && old(sent) <= sent && Reported(outcome)
      ensures old(commit).Some? ==> commit == old(commit) && sent == old(sent) && drawn == old(drawn)
      ensures (Landed(old(fs), old(commit)) ==> Landed(fs, commit)) && (Closed(old(fs), old(commit)) ==> Closed(fs, commit))
      ensures drawn == old(drawn) || drawn == old(drawn) + {run}
      ensures drawn != old(drawn) ==> Concluded(run, times, outcome)
      ensures old(CommitLanded(previous)) && old(Calm()) >= 7 + |previous.outputs| ==> outcome == DayCommitted(previous.run)
      ensures previous.plan != plan ==> outcome == Refused && fs == old(fs) && checkpoint == old(checkpoint)
      ensures old(MayTryAgain()) && Favourable(old(fs), item, times) && old(Calm()) >= Budget(item) + 2 ==>
                outcome == DayCommitted(run) || (outcome == Unhelpful && !Worthwhile(item, sizes, targetBytes))
      ensures !old(MayTryAgain()) ==> drawn == old(drawn) && sent == old(sent)
      ensures previous.plan == plan && !old(MarkerLanded(previous)) && old(Calm()) >= 1 && previous.progress != GivenUp ==>
                outcome == if previous.progress == NoBenefit then Unhelpful else Unconfirmed
    {
      RecordedRun(item, plan, fs, inflight, drawn, sent, commit, checkpoint);
      NoCommitYet(item, fs, inflight, drawn, sent, commit, previous.run);
      var decided;
      decided, outcome := Resume(previous, times.closed);
      if !decided {
        outcome := NewCandidate(run, times, sizes, guard);
      }
    }

    method NewCandidate(run: RunId, times: Times, sizes: map<string, seq<nat>>, guard: CoverageGuard.Guard) returns (outcome: DayOutcome)
      requires Valid() && commit == None && run !in drawn && forall k :: k in fs ==> k.run != run
      requires guard.Valid() && guard.resource == item.baseline.resource && CoverageGuard.TerminalKept(guard.seen, fs, guard.resource)
      modifies this, guard
      ensures Valid() == true && old(sent) <= sent && Reported(outcome)
      ensures drawn == old(drawn) || drawn == old(drawn) + {run}
      ensures Concluded(run, times, outcome) && (drawn == old(drawn) ==> outcome.Refused? || outcome.Crashed?)
      ensures outcome.DayCommitted? ==> outcome.run == run
      ensures Favourable(old(fs), item, times) && old(Calm()) >= Budget(item) + 1 ==>
                outcome == DayCommitted(run) || (outcome == Unhelpful && !Worthwhile(item, sizes, targetBytes))
    {
      var ended := Draw(run, times, guard);
      if ended.Done? {
        outcome := TryCandidate(run, times, sizes, guard);
      } else {
        outcome := if ended.Died? then Crashed else Refused;
      }
    }

    /** The worker is started, unless the id is taken: `uuid4` draws one that nothing has yet. */
    method Start(run: RunId, times: Times, sizes: map<string, seq<nat>>, events: seq<Event>) returns (outcome: DayOutcome)
      requires Valid()
      modifies this
      ensures Valid() == true && old(sent) <= sent && Reported(outcome)
      ensures (Landed(old(fs), old(commit)) ==> Landed(fs, commit)) && (Closed(old(fs), old(commit)) ==> Closed(fs, commit))
      ensures old(commit).Some? ==> commit == old(commit) && sent == old(sent)
    {
      if run in drawn || exists k | k in fs :: k.run == run {
        return Refused;
      }
      this.events := events;
      var guard := new CoverageGuard.Guard(item.baseline.resource);
      outcome := ApplyDay(run, times, sizes, guard);
    }

    /** A sent write arrives at last. */
    method Deliver(w: Write)
      requires Valid() && w in inflight
      modifies this`fs, this`inflight
      ensures Valid() == true && fs == old(fs)[w.key := w.value] && (Landed(old(fs), commit) ==> Landed(fs, commit))
      ensures Closed(old(fs), commit) ==> Closed(fs, commit)
    {
      BooksArrive(item, fs, inflight, drawn, sent, commit, w);
      fs, inflight := fs[w.key := w.value], inflight - {w};
    }

    /** Somebody else writes something else. */
    method Meanwhile(k: Key, o: Object)
      requires Valid() && KeyFits(k, o.content) && k.run !in drawn && Elsewhere(item, fs, k, o)
      modifies this`fs
      ensures Valid() == true && fs == old(fs)[k := o] && (Landed(old(fs), commit) ==> Landed(fs, commit))
      ensures Closed(old(fs), commit) ==> Closed(fs, commit)
    {
      BooksElsewhere(item, fs, inflight, drawn, sent, commit, k, o);
      fs := fs[k := o];
    }
  }

  /* The story of a day. */

  /** The worker runs again, with new events; or a sent write arrives; or others write. */
  datatype Turn =
    | Apply(run: RunId, times: Times, sizes: map<string, seq<nat>>, events: seq<Event>)
    | Arrive(write: Write)
    | Others(key: Key, value: Object)

  /** Any story, however often the worker dies and whenever writes arrive: at most one
      candidate is sent a commit, nothing is sent after it, and once a run reports the day
      committed it stays so: every reader chooses the reported attempt, and finds in it
      the rows of the baseline. */
  method Story(plan: string, item: Item, targetBytes: int, fs: Store, turns: seq<Turn>)
    returns (compactor: Compactor, reported: set<RunId>)
    requires WellKeyed(fs)
    ensures compactor.item == item && WellKeyed(compactor.fs)
    ensures CommitIsLast(compactor.sent) && OneVerdict(compactor.sent)
    ensures forall r :: r in reported ==>
              && compactor.commit.Some? && compactor.commit.value.runId == r && Landed(compactor.fs, compactor.commit)
              && Closed(compactor.fs, compactor.commit)
              && DayKept(compactor.fs, item, compactor.commit.value)
    ensures forall k :: k in compactor.fs && OfDay(item, k) && k.run in compactor.drawn ==>
              KeyFits(k, compactor.fs[k].content) && Sent(compactor.sent, k.run, compactor.fs[k].content.day.status)
    ensures forall w :: w in compactor.inflight && w.key.run in reported ==> w.key.RunKey? || w == CommitWrite(compactor.commit.value)
  {
    compactor := new Compactor(plan, item, targetBytes, fs);
    reported := {};
    for i := 0 to |turns|
      invariant fresh(compactor) && compactor.item == item && compactor.Valid() == true
      invariant reported != {} ==> Landed(compactor.fs, compactor.commit) && Closed(compactor.fs, compactor.commit) && reported == {compactor.commit.value.runId}
    {
      match turns[i]
      case Arrive(w) =>
        if w in compactor.inflight {
          compactor.Deliver(w);
        }
      case Others(k, o) =>
        if k.run !in compactor.drawn && KeyFits(k, o.content) && Elsewhere(item, compactor.fs, k, o) {
          compactor.Meanwhile(k, o);
        }
      case Apply(run, times, sizes, events) =>
        var outcome := compactor.Start(run, times, sizes, events);
        if outcome.DayCommitted? {
          reported := reported + {outcome.run};
        }
    }
    if reported != {} {
      CommittedIsKept(item, compactor.fs, compactor.inflight, compactor.drawn, compactor.sent, compactor.commit.value);
    }
  }
}
