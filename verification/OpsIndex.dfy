/** `OpsIndex`: the rows kept of storage objects, and the error rows that mirror the
    payloads of error files. A sync publishes all its changes together. */
module OpsIndex {
  import opened Wrappers

  datatype Area = ControlArea | OpsArea | ErrorsArea

  datatype Kind = RunKind | DayKind | ExecutionKind | ErrorsKind

  /** What `_identity` makes of an object's key: an object the index keeps, one it does
      not, or a date it cannot read. */
  datatype Key =
    | Tracked(kind: Kind, resource: string, run: string, tail: string)
    | Ignored(area: Area, name: string)
    | Misdated(area: Area, name: string)

  function AreaOf(k: Key): Area {
    match k
    case Tracked(kind, _, _, _) =>
      (match kind case RunKind => ControlArea case DayKind => ControlArea case ExecutionKind => OpsArea case ErrorsKind => ErrorsArea)
    case Ignored(area, _) => area
    case Misdated(area, _) => area
  }

  /** A manifest with the status it states, if any, or the records of an error file. */
  datatype Payload = Manifest(status: Option<string>, body: int) | Records(records: seq<int>)

  datatype IndexRow = IndexRow(fingerprint: Option<string>, status: Option<string>, payload: Payload)

  datatype Download = Download(key: Key, fingerprint: Option<string>, payload: Payload)

  datatype ErrorKey = ErrorKey(target: Key, ordinal: nat)

  /** An error file is a list of records, everything else one manifest. */
  predicate Fitting(k: Key, p: Payload) {
    k.Tracked? && (k.kind.ErrorsKind? <==> p.Records?)
  }

  function MakeRow(fingerprint: Option<string>, p: Payload): IndexRow {
    IndexRow(fingerprint, if p.Manifest? then p.status else None, p)
  }

  function RowOf(d: Download): IndexRow {
    MakeRow(d.fingerprint, d.payload)
  }

  function Upserted(objects: map<Key, IndexRow>, items: seq<Download>, n: nat): map<Key, IndexRow>
    requires n <= |items|
  {
    if n == 0 then objects else Upserted(objects, items, n - 1)[items[n - 1].key := RowOf(items[n - 1])]
  }

  ghost predicate DistinctKeys(items: seq<Download>) {
    forall i, j :: 0 <= i < j < |items| ==> items[i].key != items[j].key
  }

  ghost predicate Loaded(items: seq<Download>, n: nat, k: Key)
    requires n <= |items|
  {
    exists i :: 0 <= i < n && items[i].key == k
  }

  /** The row has the fingerprint and the payload, and the status the payload states. */
  predicate Shows(row: IndexRow, fingerprint: Option<string>, p: Payload) {
    row.fingerprint == fingerprint && row.payload == p && row.status == if p.Manifest? then p.status else None
  }

  /** A row that was downloaded anew shows what was downloaded. */
  lemma {:induction false} UpsertedAt(objects: map<Key, IndexRow>, items: seq<Download>, n: nat, i: nat)
    requires DistinctKeys(items) && i < n <= |items|
    ensures items[i].key in Upserted(objects, items, n) && Upserted(objects, items, n)[items[i].key] == RowOf(items[i])
    ensures Shows(Upserted(objects, items, n)[items[i].key], items[i].fingerprint, items[i].payload)
  {
    if i < n - 1 { UpsertedAt(objects, items, n - 1, i); }
  }

  /** Every other row is as it was. */
  lemma {:induction false} UpsertedElse(objects: map<Key, IndexRow>, items: seq<Download>, n: nat, k: Key)
    requires n <= |items| && !Loaded(items, n, k)
    ensures k in Upserted(objects, items, n) <==> k in objects
    ensures k in objects ==> Upserted(objects, items, n)[k] == objects[k]
  {
    if n > 0 {
      assert items[n - 1].key != k;
      assert Loaded(items, n - 1, k) ==> Loaded(items, n, k);
      UpsertedElse(objects, items, n - 1, k);
    }
  }

  /** The error rows are the records of the error files, each at its ordinal. */
  ghost predicate Mirrors(objects: map<Key, IndexRow>, errors: map<ErrorKey, int>) {
    forall e :: && (e in errors <==> HasRecord(objects, e))
                && (e in errors && HasRecord(objects, e) ==> errors[e] == objects[e.target].payload.records[e.ordinal])
  }

  predicate HasRecord(objects: map<Key, IndexRow>, e: ErrorKey) {
    && e.target in objects && objects[e.target].payload.Records?
    && e.ordinal < |objects[e.target].payload.records|
  }

  ghost predicate RowsFit(objects: map<Key, IndexRow>) {
    forall k :: k in objects ==> Fitting(k, objects[k].payload)
  }

  /** `status`: when rows were last published, when the scan that read them began, and when
      a sync failed since. */
  datatype SyncTimes = SyncTimes(lastSuccess: Option<int>, snapshotStartedAt: Option<int>, lastError: Option<int>)

  class Index {
    var objects: map<Key, IndexRow>
    var errors: map<ErrorKey, int>

    /** The metadata rows of the last successful and the last failed sync. */
    var counted: nat
    var lastSuccess: Option<int>
    var snapshotStartedAt: Option<int>
    var lastError: Option<int>

    ghost predicate Valid()
      reads this
    {
      && RowsFit(objects) && Mirrors(objects, errors) == true && counted == |objects|
      && (lastSuccess.None? ==> objects == map[])
    }

    function Times(): SyncTimes
      reads this
    {
      SyncTimes(lastSuccess, snapshotStartedAt, lastError)
    }

    constructor ()
      ensures Valid() && objects == map[]
    {
      objects, errors, counted := map[], map[], 0;
      lastSuccess, snapshotStartedAt, lastError := None, None, None;
    }

    /** The last snapshot stays as it is. */
    method RecordFailure(now: int)
      requires Valid()
      modifies `lastError
      ensures Valid() && lastError == Some(now)
    {
      lastError := Some(now);
    }

    /** Insert or update one row, and replace its error rows. */
    method Upsert(item: Download)
      requires RowsFit(objects) && Mirrors(objects, errors) && Fitting(item.key, item.payload)
      modifies `objects, `errors
      ensures objects == old(objects)[item.key := RowOf(item)]
      ensures RowsFit(objects) && Mirrors(objects, errors) == true
    {
      objects := objects[item.key := RowOf(item)];
      if item.key.kind.ErrorsKind? {
        errors := map e | e in errors && e.target != item.key :: errors[e];
        InsertRecords(item.key, item.payload.records);
      }
    }

    method InsertRecords(key: Key, records: seq<int>)
      requires forall e :: e in errors ==> e.target != key
      modifies `errors
      ensures forall e :: e in errors <==> e in old(errors) || (e.target == key && e.ordinal < |records|)
      ensures forall e :: e in old(errors) ==> errors[e] == old(errors)[e]
      ensures forall e :: e in errors && e !in old(errors) ==> errors[e] == records[e.ordinal]
    {
      for n := 0 to |records|
        invariant forall e :: e in errors <==> e in old(errors) || (e.target == key && e.ordinal < n)
        invariant forall e :: e in old(errors) ==> errors[e] == old(errors)[e]
        invariant forall e :: e in errors && e !in old(errors) ==> errors[e] == records[e.ordinal]
      {
        errors := errors[ErrorKey(key, n) := records[n]];
      }
    }

    /** Delete rows, with their error rows. */
    method Delete(removed: set<Key>)
      requires RowsFit(objects) && Mirrors(objects, errors) == true
      modifies `objects, `errors
      ensures objects == old(objects) - removed && RowsFit(objects) && Mirrors(objects, errors) == true
    {
      objects := objects - removed;
      errors := map e | e in errors && e.target !in removed :: errors[e];
    }

    method UpsertAll(items: seq<Download>)
      requires RowsFit(objects) && Mirrors(objects, errors) == true
      requires forall i :: 0 <= i < |items| ==> Fitting(items[i].key, items[i].payload)
      modifies `objects, `errors
      ensures objects == Upserted(old(objects), items, |items|)
      ensures RowsFit(objects) && Mirrors(objects, errors) == true
    {
      for i := 0 to |items|
        invariant objects == Upserted(old(objects), items, i)
        invariant RowsFit(objects) && Mirrors(objects, errors) == true
      {
        Upsert(items[i]);
      }
    }

    method Stamp(startedAt: int, now: int)
      requires RowsFit(objects) && Mirrors(objects, errors) == true
      modifies `counted, `lastSuccess, `snapshotStartedAt, `lastError
      ensures Valid() && lastSuccess == Some(now) && snapshotStartedAt == Some(startedAt) && lastError == None
    {
      counted, lastSuccess, snapshotStartedAt, lastError := |objects|, Some(now), Some(startedAt), None;
    }

    /** Publish downloaded rows and deletions in one transaction. */
    method Apply(items: seq<Download>, removed: set<Key>, startedAt: int, now: int)
      requires Valid() && forall i :: 0 <= i < |items| ==> Fitting(items[i].key, items[i].payload)
      modifies this
      ensures Valid() && objects == Upserted(old(objects), items, |items|) - removed
      ensures lastSuccess == Some(now) && snapshotStartedAt == Some(startedAt) && lastError == None
    {
      UpsertAll(items);
      Delete(removed);
      Stamp(startedAt, now);
    }
  }
}
