/** `IndexSynchronizer`: one writer per index, against object storage that others write
    to meanwhile. A row never shows a payload older than its fingerprint. */
module IndexSync {
  import opened Wrappers
  import opened Collections
  import opened OpsIndex

  /** A stored object: its fingerprint, if the storage gives one, and what its bytes
      parse to, if they do and belong to its key. */
  datatype Object = Object(fingerprint: Option<string>, parsed: Option<Payload>)

  type Store = map<Key, Object>

  /** What happens before an operation on storage: other writers, a listing that leaves
      something out, a failure, a request to stop. */
  datatype Event = Event(store: Store, hidden: set<Key>, fails: bool, stop: bool)

  datatype Entry = Entry(key: Key, fingerprint: Option<string>)

  datatype SyncOutcome = Synced | Stopped | Failed

  /** What the index says of a sync afterwards. */
  predicate Noted(before: SyncTimes, after: SyncTimes, outcome: SyncOutcome, startedAt: int, wall: int) {
    match outcome
    case Synced => after == SyncTimes(Some(wall), Some(startedAt), None)
    case Stopped => after == before
    case Failed => after == before.(lastError := Some(wall))
  }

  function PayloadOf(k: Key, o: Object): Option<Payload> {
    if o.parsed.Some? && Fitting(k, o.parsed.value) then o.parsed else None
  }

  /* What a run of operations has seen. */

  ghost predicate Extends(before: seq<Store>, after: seq<Store>) {
    before <= after
  }

  /** The row has its fingerprint from one state of storage and its payload from another. */
  ghost predicate Reads(k: Key, row: IndexRow, listed: Store, loaded: Store) {
    && k in listed && k in loaded && PayloadOf(k, loaded[k]) == Some(row.payload)
    && Shows(row, listed[k].fingerprint, row.payload)
  }

  /** The row was read since the moment `from`, its fingerprint no later than its payload. */
  ghost predicate ShownSince(k: Key, row: IndexRow, history: seq<Store>, from: nat) {
    exists f, p :: from <= f <= p < |history| && Reads(k, row, history[f], history[p])
  }

  /** From when a scan took its listing, up to when, and so from when on it read. */
  datatype Span = Span(from: nat, mid: nat)

  /** The row has its fingerprint from the listing of a scan and its payload from later. */
  ghost predicate ShownAcross(k: Key, row: IndexRow, history: seq<Store>, span: Span) {
    exists f, p :: span.from <= f < span.mid <= p < |history| && Reads(k, row, history[f], history[p])
  }

  ghost predicate Has(s: Store, k: Key) {
    k in s
  }

  ghost predicate GoneSince(k: Key, history: seq<Store>, from: nat) {
    exists t :: from <= t < |history| && !Has(history[t], k)
  }

  ghost predicate ThereSince(k: Key, history: seq<Store>, from: nat) {
    exists t :: from <= t < |history| && Has(history[t], k)
  }

  ghost predicate Carries(e: Entry, s: Store) {
    e.key in s && s[e.key].fingerprint == e.fingerprint
  }

  ghost predicate ListedSince(e: Entry, history: seq<Store>, from: nat) {
    exists t :: from <= t < |history| && Carries(e, history[t])
  }

  /** Every row of the index is what storage held when it was read. */
  ghost predicate Witnessed(objects: map<Key, IndexRow>, history: seq<Store>) {
    forall k :: k in objects ==> ShownSince(k, objects[k], history, 0)
  }

  lemma WitnessedLater(objects: map<Key, IndexRow>, before: seq<Store>, after: seq<Store>)
    requires Witnessed(objects, before) == true && Extends(before, after)
    ensures Witnessed(objects, after)
  {
  }

  lemma GoneLater(k: Key, before: seq<Store>, after: seq<Store>, from: nat)
    requires Extends(before, after)
    ensures GoneSince(k, before, from) ==> GoneSince(k, after, from)
    ensures ThereSince(k, before, from) ==> ThereSince(k, after, from)
  {
  }

  /** Since the moment `from` storage did not change. */
  ghost predicate Still(history: seq<Store>, from: nat, s: Store) {
    forall t :: from <= t < |history| ==> history[t] == s
  }

  /** Everything the index tracks can be read. */
  ghost predicate Readable(s: Store) {
    forall k :: k in s ==> !k.Misdated? && (k.Tracked? ==> PayloadOf(k, s[k]).Some?)
  }

  /** What happens to storage from a moment of its history on, event by event; after the last
      event nobody else is there any more. */
  datatype Plot = Plot(epoch: nat, start: Store, stopped: bool, script: seq<Event>)
  {
    function StateAt(n: nat): Store {
      if n == 0 || script == [] then start
      else if n <= |script| then script[n - 1].store else script[|script| - 1].store
    }

    function Rest(n: nat): seq<Event> {
      if n <= |script| then script[n..] else []
    }

    predicate StopsBefore(n: nat) {
      stopped || exists i :: 0 <= i < n && i < |script| && script[i].stop
    }
  }

  /** This state of the history is the plot's. */
  ghost predicate At(plot: Plot, history: seq<Store>, t: nat)
    requires plot.epoch <= t < |history|
  {
    history[t] == plot.StateAt(t - plot.epoch)
  }

  /** The history follows the plot, and these events are still to come. */
  ghost predicate Plotted(plot: Plot, history: seq<Store>, events: seq<Event>, stopping: bool) {
    && plot.epoch < |history| && (forall t :: plot.epoch <= t < |history| ==> At(plot, history, t))
    && events == plot.Rest(|history| - 1 - plot.epoch) && stopping == plot.StopsBefore(|history| - 1 - plot.epoch)
  }

  lemma PlottedStep(plot: Plot, history: seq<Store>, events: seq<Event>, stopping: bool)
    requires Plotted(plot, history, events, stopping)
    ensures events == [] ==> Plotted(plot, history + [history[|history| - 1]], [], stopping)
    ensures events != [] ==> Plotted(plot, history + [events[0].store], events[1..], stopping || events[0].stop)
  {
    var n := |history| - 1 - plot.epoch;
    var next := if events == [] then history[|history| - 1] else events[0].store;
    var more := history + [next];
    assert At(plot, history, |history| - 1);
    if events != [] {
      assert n < |plot.script| && events[0] == plot.script[n];
      assert plot.StopsBefore(n + 1) == (plot.StopsBefore(n) || plot.script[n].stop);
    } else {
      assert plot.StopsBefore(n + 1) == plot.StopsBefore(n);
    }
    forall t | plot.epoch <= t < |more| ensures At(plot, more, t) {
      if t < |history| { assert At(plot, history, t); }
    }
  }

  lemma PlottedAnew(before: seq<Store>, store: Store, stopped: bool, events: seq<Event>)
    ensures Plotted(Plot(|before|, store, stopped, events), before + [store], events, stopped)
  {
    var plot := Plot(|before|, store, stopped, events);
    assert plot.Rest(0) == events && plot.StateAt(0) == store;
  }

  /** Once its events are over storage stands still. */
  lemma StaysQuiet(plot: Plot, before: seq<Store>, history: seq<Store>, stopped: bool, events: seq<Event>, stopping: bool)
    requires Plotted(plot, before, [], stopped) && Plotted(plot, history, events, stopping) && Extends(before, history)
    ensures events == [] && stopping == stopped
    ensures Still(history, |before|, before[|before| - 1]) && history[|history| - 1] == before[|before| - 1]
  {
    assert At(plot, before, |before| - 1);
    forall t | |before| - 1 <= t < |history| ensures history[t] == before[|before| - 1] { assert At(plot, history, t); }
  }

  /** Others only overwrite what can be read, and let every operation through. */
  ghost predicate CalmEvent(event: Event, keys: set<Key>) {
    !event.fails && !event.stop && event.hidden == {} && event.store.Keys == keys && Readable(event.store)
  }

  ghost predicate CalmFrom(now: Store, events: seq<Event>, stopping: bool) {
    !stopping && Readable(now) && forall i :: 0 <= i < |events| ==> CalmEvent(events[i], now.Keys)
  }

  class Storage {
    var now: Store
    var events: seq<Event>
    var stopping: bool

    /** The states storage was in, operation by operation, and where they came from. */
    ghost var history: seq<Store>
    ghost var plot: Plot

    /** How many operations failed. */
    ghost var failures: nat

    ghost predicate Valid()
      reads this
    {
      history != [] && history[|history| - 1] == now && Plotted(plot, history, events, stopping) == true
    }

    /** Nobody else is there any more. */
    ghost predicate Quiet()
      reads this
    {
      events == [] && !stopping
    }

    /** Nothing that is still to come disturbs a scan. */
    ghost predicate Calm()
      reads this
    {
      CalmFrom(now, events, stopping) == true
    }

    constructor (now: Store, events: seq<Event>)
      ensures Valid() && history == [now] && !stopping && this.now == now && this.events == events
      ensures plot == Plot(0, now, false, events)
    {
      PlottedAnew([], now, false, events);
      assert [] + [now] == [now];
      this.now, this.events, stopping, history, plot, failures := now, events, false, [now], Plot(0, now, false, events), 0;
    }

    /** Between two scans others write, and this is what happens afterwards. */
    method Others(store: Store, events: seq<Event>)
      requires Valid()
      modifies this
      ensures Valid() && history == old(history) + [store] && stopping == old(stopping) && now == store && this.events == events
      ensures plot == Plot(|old(history)|, store, stopping, events)
    {
      PlottedAnew(history, store, stopping, events);
      now, this.events, history, plot := store, events, history + [store], Plot(|history|, store, stopping, events);
    }

    /** Before any operation the storage may change. */
    method Step() returns (ok: bool, hidden: set<Key>)
      requires Valid()
      modifies this
      ensures Valid() && plot == old(plot) && |history| == |old(history)| + 1 && Extends(old(history), history)
      ensures failures == old(failures) + (if ok then 0 else 1) && (old(stopping) ==> stopping)
      ensures old(Calm()) ==> ok && hidden == {} && Calm() && now.Keys == old(now.Keys)
    {
      PlottedStep(plot, history, events, stopping);
      ok, hidden := true, {};
      if events != [] {
        var event := events[0];
        assert CalmFrom(now, events, stopping) ==> CalmEvent(event, now.Keys) && CalmFrom(event.store, events[1..], stopping);
        ok, hidden := !event.fails, event.hidden;
        now, stopping, events := event.store, stopping || event.stop, events[1..];
        failures := failures + (if ok then 0 else 1);
      }
      history := history + [now];
    }

    /** `find` in one area. */
    method Find(area: Area) returns (ok: bool, entries: seq<Entry>, ghost complete: bool)
      requires Valid()
      modifies this
      ensures Valid() && plot == old(plot) && |history| == |old(history)| + 1 && Extends(old(history), history)
      ensures failures == old(failures) + (if ok then 0 else 1) && (old(stopping) ==> stopping)
      ensures forall i :: 0 <= i < |entries| ==> AreaOf(entries[i].key) == area && Carries(entries[i], now)
      ensures forall i, j :: 0 <= i < j < |entries| ==> entries[i].key != entries[j].key
      ensures complete ==> forall k :: k in now && AreaOf(k) == area ==> exists i :: 0 <= i < |entries| && entries[i].key == k
      ensures old(Calm()) ==> ok && complete && Calm() && now.Keys == old(now.Keys)
    {
      var hidden;
      ok, hidden := Step();
      complete := hidden == {};
      var keys := Enumerate(set k | k in now.Keys && k !in hidden && AreaOf(k) == area);
      entries := [];
      for i := 0 to |keys|
        invariant |entries| == i && forall j :: 0 <= j < i ==> entries[j].key == keys[j] && Carries(entries[j], now)
      {
        assert keys[i] in keys;
        entries := entries + [Entry(keys[i], now[keys[i]].fingerprint)];
      }
      forall k | complete && k in now && AreaOf(k) == area ensures exists i :: 0 <= i < |entries| && entries[i].key == k {
        assert k in keys;
        var i :| 0 <= i < |keys| && keys[i] == k;
        assert entries[i].key == k;
      }
      forall i | 0 <= i < |entries| ensures AreaOf(entries[i].key) == area { assert keys[i] in keys; }
    }

    method Exists(key: Key) returns (ok: bool, present: bool)
      requires Valid()
      modifies this
      ensures Valid() && plot == old(plot) && |history| == |old(history)| + 1 && Extends(old(history), history)
      ensures failures == old(failures) + (if ok then 0 else 1) && (old(stopping) ==> stopping)
      ensures present == (key in now)
      ensures old(Calm()) ==> ok && Calm() && now.Keys == old(now.Keys)
    {
      var hidden;
      ok, hidden := Step();
      present := key in now;
    }

    /** `_download`: the object may be gone, or not be what its key says. */
    method Read(entry: Entry) returns (item: Option<Download>)
      requires Valid()
      modifies this
      ensures Valid() && plot == old(plot) && |history| == |old(history)| + 1 && Extends(old(history), history)
      ensures failures >= old(failures) && (item.Some? ==> failures == old(failures) && !old(stopping)) && (old(stopping) ==> stopping)
      ensures item.Some? ==>
                && item.value.key == entry.key && item.value.fingerprint == entry.fingerprint && entry.key in now
                && PayloadOf(entry.key, now[entry.key]) == Some(item.value.payload)
      ensures old(Calm()) ==> Calm() && now.Keys == old(now.Keys) && (entry.key.Tracked? && entry.key in now ==> item.Some?)
    {
      var stopped := stopping;
      var ok, hidden := Step();
      if stopped || !ok || entry.key !in now {
        return None;
      }
      var payload := PayloadOf(entry.key, now[entry.key]);
      item := if payload.None? then None else Some(Download(entry.key, entry.fingerprint, payload.value));
    }
  }

  /* One listing of the three areas. */

  predicate InListing(listed: seq<Entry>, k: Key) {
    exists i :: 0 <= i < |listed| && listed[i].key == k
  }

  ghost predicate DistinctEntries(listed: seq<Entry>) {
    forall i, j :: 0 <= i < j < |listed| ==> listed[i].key != listed[j].key
  }

  ghost predicate Listing(listed: seq<Entry>, history: seq<Store>, from: nat) {
    && DistinctEntries(listed)
    && forall i :: 0 <= i < |listed| ==> listed[i].key.Tracked? && ListedSince(listed[i], history, from)
  }

  /** An object that is not listed was gone when its area was. */
  ghost predicate LeavesOnlyGone(listed: seq<Entry>, areas: set<Area>, history: seq<Store>, from: nat) {
    forall k: Key :: k.Tracked? && AreaOf(k) in areas ==> InListing(listed, k) || GoneSince(k, history, from)
  }

  /** The rows a listed object needs to be read anew for. */
  predicate NeedsReading(e: Entry, known: map<Key, IndexRow>, reconcile: bool) {
    || reconcile || e.fingerprint.None? || e.key !in known || known[e.key].fingerprint != e.fingerprint
    || known[e.key].status == Some("running")
  }

  /** Keep what the index tracks; one date that cannot be read stops the sync. */
  method KeepTracked(entries: seq<Entry>) returns (ok: bool, kept: seq<Entry>)
    requires DistinctEntries(entries)
    ensures DistinctEntries(kept)
    ensures forall i :: 0 <= i < |kept| ==> kept[i].key.Tracked? && kept[i] in entries
    ensures ok ==> forall i :: 0 <= i < |entries| && entries[i].key.Tracked? ==> InListing(kept, entries[i].key)
    ensures ok <==> forall i :: 0 <= i < |entries| ==> !entries[i].key.Misdated?
  {
    kept := [];
    for i := 0 to |entries|
      invariant DistinctEntries(kept)
      invariant forall j :: 0 <= j < |kept| ==> kept[j].key.Tracked? && kept[j] in entries[..i]
      invariant forall j :: 0 <= j < i && entries[j].key.Tracked? ==> InListing(kept, entries[j].key)
      invariant forall j :: 0 <= j < i ==> !entries[j].key.Misdated?
    {
      if entries[i].key.Misdated? {
        return false, kept;
      }
      if entries[i].key.Tracked? {
        var more := kept + [entries[i]];
        StillListed(kept, more);
        assert more[|kept|].key == entries[i].key;
        kept := more;
      }
      assert entries[..i + 1] == entries[..i] + [entries[i]];
    }
    ok := true;
  }

  lemma StillListed(listed: seq<Entry>, more: seq<Entry>)
    requires |listed| <= |more| && listed == more[..|listed|]
    ensures forall k :: InListing(listed, k) ==> InListing(more, k)
  {
  }

  /** The entries that need reading, in the order of the listing. */
  method Choose(listed: seq<Entry>, known: map<Key, IndexRow>, reconcile: bool) returns (changed: seq<Entry>)
    requires DistinctEntries(listed)
    ensures DistinctEntries(changed)
    ensures forall e :: e in changed <==> e in listed && NeedsReading(e, known, reconcile)
    ensures forall e :: e in changed <==>
              e in listed && (reconcile || e.fingerprint.None? || e.key !in known || known[e.key].fingerprint != e.fingerprint
                              || known[e.key].status == Some("running"))
  {
    changed := [];
    for i := 0 to |listed|
      invariant DistinctEntries(changed)
      invariant forall e :: e in changed <==> e in listed[..i] && NeedsReading(e, known, reconcile)
    {
      assert listed[..i + 1] == listed[..i] + [listed[i]];
      assert listed[i] !in listed[..i];
      if NeedsReading(listed[i], known, reconcile) {
        assert forall j :: 0 <= j < |changed| ==> changed[j] in listed[..i];
        changed := changed + [listed[i]];
      }
    }
    assert listed[..|listed|] == listed;
  }

  /* What a sync leaves. */

  /** A fingerprint stands for one write: as long as it shows, the object does not change. */
  ghost predicate OneWriteEach(history: seq<Store>) {
    forall i, j, l, k :: 0 <= i <= j <= l < |history| ==> Undisturbed(k, history[i], history[j], history[l])
  }

  ghost predicate Undisturbed(k: Key, a: Store, b: Store, c: Store) {
    k in a && k in c && a[k].fingerprint.Some? && a[k].fingerprint == c[k].fingerprint ==> k in b && b[k] == c[k]
  }

  /** After a sync a row is as storage had it during the sync, or its object went and came
      back meanwhile; and what has no row was gone. */
  ghost predicate UpToDate(k: Key, before: map<Key, IndexRow>, after: map<Key, IndexRow>, history: seq<Store>, from: nat, complete: bool) {
    if k in after then
      || ShownSince(k, after[k], history, from)
      || (k in before && after[k] == before[k] && ThereSince(k, history, from) && (complete ==> GoneSince(k, history, from)))
    else complete ==> GoneSince(k, history, from)
  }

  /** What a scan does with an object: a listed one is read, or keeps its row when nothing
      calls for reading it; one that is not listed keeps its row when it is there after all,
      and is dropped when it is gone. */
  ghost predicate Treated(k: Key, before: map<Key, IndexRow>, after: map<Key, IndexRow>, history: seq<Store>, span: Span, complete: bool,
                          reconcile: bool)
  {
    || (exists e: Entry :: e.key == k && ListedSince(e, history, span.from) && TreatedEntry(e, before, after, history, span, reconcile))
    || (&& (complete ==> GoneSince(k, history, span.from))
        && (if k in after then k in before && after[k] == before[k] && ThereSince(k, history, span.from)
            else k in before ==> GoneSince(k, history, span.from)))
  }

  ghost predicate TreatedEntry(e: Entry, before: map<Key, IndexRow>, after: map<Key, IndexRow>, history: seq<Store>, span: Span,
                               reconcile: bool)
  {
    && e.key in after
    && if NeedsReading(e, before, reconcile) then ShownAcross(e.key, after[e.key], history, span)
       else e.key in before && after[e.key] == before[e.key]
  }

  /** What a scan claims of all objects: each is treated so; each is up to date, if the scan
      reads everything or with one write to a fingerprint; and a row is dropped only for an
      object that was gone. */
  ghost predicate Brought(before: map<Key, IndexRow>, after: map<Key, IndexRow>, history: seq<Store>, span: Span, complete: bool,
                          reconcile: bool)
  {
    && (forall k: Key :: k.Tracked? ==> Treated(k, before, after, history, span, complete, reconcile))
    && (reconcile || OneWriteEach(history) ==> forall k: Key :: k.Tracked? ==> UpToDate(k, before, after, history, span.from, complete))
    && (forall k :: k in before && k !in after ==> GoneSince(k, history, span.from))
  }

  /** A row whose fingerprint still shows is current, whenever it was read: its payload is
      not older than its fingerprint. */
  lemma UnchangedIsCurrent(e: Entry, row: IndexRow, before: seq<Store>, history: seq<Store>, from: nat)
    requires ShownSince(e.key, row, before, 0) && Extends(before, history) && |before| <= from
    requires ListedSince(e, history, from) && row.fingerprint == e.fingerprint && e.fingerprint.Some? && OneWriteEach(history)
    ensures ShownSince(e.key, row, history, from)
  {
    var f, p :| 0 <= f <= p < |before| && Reads(e.key, row, before[f], before[p]);
    var t :| from <= t < |history| && Carries(e, history[t]);
    assert before[f] == history[f] && before[p] == history[p];
    assert Undisturbed(e.key, history[f], history[p], history[t]);
    assert Reads(e.key, row, history[t], history[t]);
  }

  /** The index a rebuild from nothing would give. */
  ghost predicate IsRebuild(objects: map<Key, IndexRow>, s: Store) {
    && (forall k: Key :: k.Tracked? && Has(s, k) ==> k in objects)
    && (forall k :: k in objects ==> k.Tracked? && Has(s, k) && Reads(k, objects[k], s, s))
  }

  lemma RebuildUnique(a: map<Key, IndexRow>, b: map<Key, IndexRow>, s: Store)
    requires IsRebuild(a, s) && IsRebuild(b, s)
    ensures a == b
  {
  }

  /** A sync over storage that stands still leaves what a rebuild would. */
  lemma QuietSyncIsRebuild(before: map<Key, IndexRow>, after: map<Key, IndexRow>, history: seq<Store>, span: Span, reconcile: bool, s: Store)
    requires Brought(before, after, history, span, true, reconcile) && (reconcile || OneWriteEach(history)) && RowsFit(after)
    requires Still(history, span.from, s)
    ensures IsRebuild(after, s)
  {
  }

  /** Every row that a scan of this storage does not read anew shows what storage holds. */
  ghost predicate KeptShow(before: map<Key, IndexRow>, s: Store, reconcile: bool) {
    forall k: Key :: k.Tracked? && Has(s, k) && !NeedsReading(Entry(k, s[k].fingerprint), before, reconcile) ==> Reads(k, before[k], s, s)
  }

  /** A sync over storage that stands still leaves what a rebuild would exactly then; any
      other row is left as it was. */
  lemma QuietSyncExactly(before: map<Key, IndexRow>, after: map<Key, IndexRow>, history: seq<Store>, span: Span, reconcile: bool, s: Store)
    requires Brought(before, after, history, span, true, reconcile) && RowsFit(after) && Still(history, span.from, s)
    ensures IsRebuild(after, s) <==> KeptShow(before, s, reconcile)
    ensures forall k: Key :: k.Tracked? && Has(s, k) && !NeedsReading(Entry(k, s[k].fingerprint), before, reconcile) ==>
              k in after && after[k] == before[k]
  {
    forall k: Key | k.Tracked? ensures QuietlyTreated(k, before, after, s, reconcile) {
      TreatedQuietly(k, before, after, history, span, reconcile, s);
    }
    ExactlyRebuilt(before, after, s, reconcile);
  }

  lemma ExactlyRebuilt(before: map<Key, IndexRow>, after: map<Key, IndexRow>, s: Store, reconcile: bool)
    requires RowsFit(after) && forall k: Key :: k.Tracked? ==> QuietlyTreated(k, before, after, s, reconcile)
    ensures IsRebuild(after, s) <==> KeptShow(before, s, reconcile)
    ensures forall k: Key :: k.Tracked? && Has(s, k) && !NeedsReading(Entry(k, s[k].fingerprint), before, reconcile) ==>
              k in after && after[k] == before[k]
  {
    if KeptShow(before, s, reconcile) {
      forall k | k in after ensures k.Tracked? && Has(s, k) && Reads(k, after[k], s, s) { assert QuietlyTreated(k, before, after, s, reconcile); }
    }
  }

  /** Of what storage holds, these rows show it afterwards whatever they were before. */
  ghost predicate ReadAnew(before: map<Key, IndexRow>, after: map<Key, IndexRow>, s: Store, reconcile: bool) {
    forall k: Key :: k.Tracked? && Has(s, k) && k in s
      && (reconcile || s[k].fingerprint.None? || k !in before || before[k].fingerprint != s[k].fingerprint
          || before[k].status == Some("running"))
      ==> k in after && Reads(k, after[k], s, s)
  }

  lemma QuietSyncReads(before: map<Key, IndexRow>, after: map<Key, IndexRow>, history: seq<Store>, span: Span, reconcile: bool, s: Store)
    requires Brought(before, after, history, span, true, reconcile) && Still(history, span.from, s)
    ensures ReadAnew(before, after, s, reconcile)
  {
    forall k: Key | k.Tracked? ensures QuietlyTreated(k, before, after, s, reconcile) {
      TreatedQuietly(k, before, after, history, span, reconcile, s);
    }
  }

  ghost predicate QuietlyTreated(k: Key, before: map<Key, IndexRow>, after: map<Key, IndexRow>, s: Store, reconcile: bool) {
    && (k in after <==> Has(s, k))
    && (Has(s, k) && k in after ==>
          if NeedsReading(Entry(k, s[k].fingerprint), before, reconcile) then Reads(k, after[k], s, s)
          else k in before && after[k] == before[k])
  }

  lemma TreatedQuietly(k: Key, before: map<Key, IndexRow>, after: map<Key, IndexRow>, history: seq<Store>, span: Span, reconcile: bool,
                       s: Store)
    requires Treated(k, before, after, history, span, true, reconcile) && Still(history, span.from, s)
    ensures QuietlyTreated(k, before, after, s, reconcile)
  {
    if e: Entry :| e.key == k && ListedSince(e, history, span.from) && TreatedEntry(e, before, after, history, span, reconcile) {
      var t :| span.from <= t < |history| && Carries(e, history[t]);
      assert e == Entry(k, s[k].fingerprint);
    }
  }

  /** With one write to a fingerprint that is always so. */
  lemma OneWriteShows(before: map<Key, IndexRow>, past: seq<Store>, history: seq<Store>, reconcile: bool, s: Store)
    requires Witnessed(before, past) && Extends(past, history) && |past| < |history| && Still(history, |past|, s)
    requires reconcile || OneWriteEach(history)
    ensures KeptShow(before, s, reconcile)
  {
    forall k: Key | k.Tracked? && Has(s, k) && !NeedsReading(Entry(k, s[k].fingerprint), before, reconcile)
      ensures Reads(k, before[k], s, s)
    {
      var e := Entry(k, s[k].fingerprint);
      assert Carries(e, history[|past|]);
      UnchangedIsCurrent(e, before[k], past, history, |past|);
    }
  }

  /** The row a download becomes was read in the scan. */
  ghost predicate ReadSince(item: Download, history: seq<Store>, span: Span) {
    item.key.Tracked? && Fitting(item.key, item.payload) && ShownAcross(item.key, RowOf(item), history, span)
  }

  lemma ReadIsShown(e: Entry, item: Download, before: seq<Store>, history: seq<Store>, from: nat)
    requires e.key.Tracked? && ListedSince(e, before, from) && Extends(before, history) && |history| > |before|
    requires item.key == e.key && item.fingerprint == e.fingerprint && e.key in history[|history| - 1]
    requires PayloadOf(e.key, history[|history| - 1][e.key]) == Some(item.payload)
    ensures ReadSince(item, history, Span(from, |before|))
  {
    var f :| from <= f < |before| && Carries(e, before[f]);
    assert Reads(item.key, RowOf(item), history[f], history[|history| - 1]);
  }

  lemma ReadLater(item: Download, before: seq<Store>, after: seq<Store>, span: Span)
    requires ReadSince(item, before, span) && Extends(before, after)
    ensures ReadSince(item, after, span)
  {
    var f, p :| span.from <= f < span.mid <= p < |before| && Reads(item.key, RowOf(item), before[f], before[p]);
    assert Reads(item.key, RowOf(item), after[f], after[p]);
  }

  lemma ListingLater(listed: seq<Entry>, before: seq<Store>, after: seq<Store>, from: nat)
    requires Listing(listed, before, from) && Extends(before, after)
    ensures Listing(listed, after, from)
  {
  }

  /** A finished sync, as its parts left it. */
  ghost predicate Applied(before: map<Key, IndexRow>, after: map<Key, IndexRow>, items: seq<Download>, removed: set<Key>) {
    Publishable(items, removed) && after == Upserted(before, items, |items|) - removed
  }

  /** What was read shows it; what was removed is gone; the rest is as it was. */
  lemma AppliedAt(before: map<Key, IndexRow>, after: map<Key, IndexRow>, items: seq<Download>, removed: set<Key>, k: Key)
    requires Applied(before, after, items, removed)
    ensures forall i :: 0 <= i < |items| && items[i].key == k ==> k in after && after[k] == RowOf(items[i])
    ensures k in removed ==> k !in after
    ensures !Loaded(items, |items|, k) && k !in removed ==> (k in after <==> k in before) && (k in before ==> after[k] == before[k])
  {
    forall i | 0 <= i < |items| && items[i].key == k ensures k in after && after[k] == RowOf(items[i]) {
      UpsertedAt(before, items, |items|, i);
    }
    if !Loaded(items, |items|, k) { UpsertedElse(before, items, |items|, k); }
  }

  /** Rows stay witnessed. */
  lemma AppliedWitnessed(before: map<Key, IndexRow>, after: map<Key, IndexRow>, items: seq<Download>, removed: set<Key>, history: seq<Store>,
                         span: Span)
    requires Applied(before, after, items, removed) && Witnessed(before, history)
    requires AllRead(items, history, span)
    ensures Witnessed(after, history)
  {
    forall k | k in after ensures ShownSince(k, after[k], history, 0) {
      AppliedAt(before, after, items, removed, k);
      if Loaded(items, |items|, k) {
        var i :| 0 <= i < |items| && items[i].key == k;
        assert ReadSince(items[i], history, span);
      }
    }
  }

  ghost predicate ListedWell(listed: seq<Entry>, history: seq<Store>, from: nat, complete: bool) {
    && Listing(listed, history, from)
    && (complete ==> LeavesOnlyGone(listed, {ControlArea, OpsArea, ErrorsArea}, history, from))
  }

  lemma ListedWellLater(listed: seq<Entry>, before: seq<Store>, after: seq<Store>, from: nat, complete: bool)
    requires ListedWell(listed, before, from, complete) == true && Extends(before, after)
    ensures ListedWell(listed, after, from, complete)
  {
  }

  lemma ChosenListing(listed: seq<Entry>, changed: seq<Entry>, history: seq<Store>, from: nat)
    requires Listing(listed, history, from) && DistinctEntries(changed) && forall e :: e in changed ==> e in listed
    ensures Listing(changed, history, from)
  {
    forall i | 0 <= i < |changed| ensures changed[i].key.Tracked? && ListedSince(changed[i], history, from) {
      assert changed[i] in changed;
      var j :| 0 <= j < |listed| && listed[j] == changed[i];
    }
  }

  /** Of the rows that are not listed, these are gone and the others are not. */
  ghost predicate Confirmed(known: map<Key, IndexRow>, listed: seq<Entry>, removed: set<Key>, history: seq<Store>, from: nat) {
    && (forall k :: k in removed ==> k in known && !InListing(listed, k) && GoneSince(k, history, from))
    && (forall k :: k in known && !InListing(listed, k) && k !in removed ==> ThereSince(k, history, from))
  }

  lemma ConfirmedLater(known: map<Key, IndexRow>, listed: seq<Entry>, removed: set<Key>, before: seq<Store>, after: seq<Store>, from: nat)
    requires Confirmed(known, listed, removed, before, from) == true && Extends(before, after)
    ensures Confirmed(known, listed, removed, after, from)
  {
  }

  ghost predicate AllRead(items: seq<Download>, history: seq<Store>, span: Span) {
    forall i :: 0 <= i < |items| ==> ReadSince(items[i], history, span)
  }

  lemma AllReadLater(items: seq<Download>, before: seq<Store>, after: seq<Store>, span: Span)
    requires AllRead(items, before, span) == true && Extends(before, after)
    ensures AllRead(items, after, span)
  {
    forall i | 0 <= i < |items| ensures ReadSince(items[i], after, span) { ReadLater(items[i], before, after, span); }
  }

  /** What one sync gathered: the listing, what of it needed reading, the downloads, and
      the objects confirmed gone. */
  ghost predicate Gathered(known: map<Key, IndexRow>, listed: seq<Entry>, changed: seq<Entry>, items: seq<Download>, removed: set<Key>,
                           reconcile: bool, history: seq<Store>, span: Span, complete: bool)
  {
    && ListedWell(listed, history, span.from, complete) == true
    && (forall e :: e in changed <==> e in listed && NeedsReading(e, known, reconcile))
    && |items| == |changed| && (forall i :: 0 <= i < |items| ==> items[i].key == changed[i].key) && DistinctEntries(changed)
    && AllRead(items, history, span) == true
    && Confirmed(known, listed, removed, history, span.from) == true
  }

  /** What is read and what is removed can be published together. */
  ghost predicate Publishable(items: seq<Download>, removed: set<Key>) {
    DistinctKeys(items) && forall i :: 0 <= i < |items| ==> items[i].key !in removed
  }

  lemma GatheredPublishable(known: map<Key, IndexRow>, listed: seq<Entry>, changed: seq<Entry>, items: seq<Download>, removed: set<Key>,
                            reconcile: bool, history: seq<Store>, span: Span, complete: bool)
    requires Gathered(known, listed, changed, items, removed, reconcile, history, span, complete) == true
    ensures Publishable(items, removed)
  {
    forall i | 0 <= i < |items| ensures items[i].key !in removed {
      assert changed[i] in changed;
      var j :| 0 <= j < |listed| && listed[j] == changed[i];
      assert InListing(listed, items[i].key);
    }
  }

  /** Whatever the others did meanwhile, every object is up to date. */
  lemma GatheredUpToDate(k: Key, known: map<Key, IndexRow>, after: map<Key, IndexRow>, listed: seq<Entry>, changed: seq<Entry>,
                         items: seq<Download>, removed: set<Key>, reconcile: bool, before: seq<Store>, history: seq<Store>,
                         span: Span, complete: bool)
    requires Gathered(known, listed, changed, items, removed, reconcile, history, span, complete)
    requires Applied(known, after, items, removed) && k.Tracked?
    requires Witnessed(known, before) && Extends(before, history) && |before| <= span.from && (reconcile || OneWriteEach(history))
    ensures UpToDate(k, known, after, history, span.from, complete)
  {
    AppliedAt(known, after, items, removed, k);
    if Loaded(items, |items|, k) {
      var i :| 0 <= i < |items| && items[i].key == k;
      assert ReadSince(items[i], history, span);
    } else if InListing(listed, k) {
      var j :| 0 <= j < |listed| && listed[j].key == k;
      if listed[j] in changed {
        var i :| 0 <= i < |changed| && changed[i] == listed[j];
        assert items[i].key == k;
      } else {
        assert listed[j] in listed && !NeedsReading(listed[j], known, reconcile);
        UnchangedIsCurrent(listed[j], known[k], before, history, span.from);
      }
    }
  }

  class IndexSynchronizer {
    const index: Index
    const fs: Storage
    const reconcileInterval: int

    var lastReconcile: int
    var seenEvents: set<Notice>

    /** No payload is older than its fingerprint. */
    ghost predicate Valid()
      reads this, index, fs
    {
      index.Valid() == true && fs.Valid() && Witnessed(index.objects, fs.history) == true
    }

    constructor (index: Index, fs: Storage, reconcileInterval: int)
      requires index.Valid() && fs.Valid() && index.objects == map[]
      ensures Valid() && this.index == index && this.fs == fs && this.reconcileInterval == reconcileInterval
      ensures seenEvents == {} && lastReconcile == 0
    {
      this.index, this.fs, this.reconcileInterval := index, fs, reconcileInterval;
      lastReconcile, seenEvents := 0, {};
    }

    /** Between two syncs others write. */
    method Meanwhile(store: Store, events: seq<Event>)
      requires Valid()
      modifies fs
      ensures Valid() && fs.history == old(fs.history) + [store] && fs.stopping == old(fs.stopping) && fs.now == store && fs.events == events
    {
      fs.Others(store, events);
      WitnessedLater(index.objects, old(fs.history), fs.history);
    }

    /** The three listings of a sync. */
    method ListAll(ghost from: nat) returns (ok: bool, listed: seq<Entry>, ghost complete: bool)
      requires fs.Valid() && from <= |fs.history|
      modifies fs
      ensures fs.Valid() && Extends(old(fs.history), fs.history)
      ensures fs.failures >= old(fs.failures) && (ok ==> fs.failures == old(fs.failures)) && (old(fs.stopping) ==> fs.stopping)
      ensures ok ==> ListedWell(listed, fs.history, from, complete) == true && |fs.history| == |old(fs.history)| + 3
      ensures old(fs.Calm()) ==> ok && complete
      ensures old(fs.Calm()) ==> forall i :: 0 <= i < |listed| ==> listed[i].key in fs.now
      ensures fs.plot == old(fs.plot) && (old(fs.Calm()) ==> fs.Calm() && fs.now.Keys == old(fs.now.Keys))
    {
      ok, listed, complete := true, [], true;
      var areas := [ControlArea, OpsArea, ErrorsArea];
      ghost var done := {};
      for a := 0 to 3
        invariant fs.Valid() && Extends(old(fs.history), fs.history) && |fs.history| == |old(fs.history)| + a && ok
        invariant fs.failures == old(fs.failures) && (old(fs.stopping) ==> fs.stopping)
        invariant Listing(listed, fs.history, from) && forall i :: 0 <= i < |listed| ==> AreaOf(listed[i].key) in done
        invariant fs.plot == old(fs.plot) && (old(fs.Calm()) ==> fs.Calm() && fs.now.Keys == old(fs.now.Keys))
        invariant old(fs.Calm()) ==> complete && forall i :: 0 <= i < |listed| ==> listed[i].key in fs.now
        invariant (ControlArea in done <==> a >= 1) && (OpsArea in done <==> a >= 2) && (ErrorsArea in done <==> a >= 3)
        invariant complete ==> LeavesOnlyGone(listed, done, fs.history, from)
      {
        ok, listed, complete := ListArea(areas[a], listed, done, from, complete);
        if !ok { return; }
        done := done + {areas[a]};
      }
    }

    /** One of them. */
    method ListArea(area: Area, before: seq<Entry>, ghost done: set<Area>, ghost from: nat, ghost wasComplete: bool)
      returns (ok: bool, listed: seq<Entry>, ghost complete: bool)
      requires fs.Valid() && from <= |fs.history| && area !in done
      requires Listing(before, fs.history, from) == true && forall i :: 0 <= i < |before| ==> AreaOf(before[i].key) in done
      requires wasComplete ==> LeavesOnlyGone(before, done, fs.history, from) == true
      modifies fs
      ensures fs.Valid() && Extends(old(fs.history), fs.history) && |fs.history| == |old(fs.history)| + 1
      ensures fs.failures >= old(fs.failures) && (ok ==> fs.failures == old(fs.failures)) && (old(fs.stopping) ==> fs.stopping)
      ensures ok ==> Listing(listed, fs.history, from) == true && forall i :: 0 <= i < |listed| ==> AreaOf(listed[i].key) in done + {area}
      ensures ok && complete ==> LeavesOnlyGone(listed, done + {area}, fs.history, from) == true
      ensures old(fs.Calm()) ==> ok && (wasComplete ==> complete)
      ensures old(fs.Calm()) && (forall i :: 0 <= i < |before| ==> before[i].key in old(fs.now)) ==>
                forall i :: 0 <= i < |listed| ==> listed[i].key in fs.now
      ensures fs.plot == old(fs.plot) && (old(fs.Calm()) ==> fs.Calm() && fs.now.Keys == old(fs.now.Keys))
    {
      ghost var history := fs.history;
      var entries, kept;
      ok, entries, complete := fs.Find(area);
      listed, complete := before, wasComplete && complete;
      if !ok { return; }
      ok, kept := KeepTracked(entries);
      if !ok { return; }
      listed := before + kept;
      AreaListed(before, kept, entries, area, done, history, fs.history, from, complete);
    }

    /** Read what changed. */
    method ReadAll(changed: seq<Entry>, ghost from: nat) returns (ok: bool, items: seq<Download>)
      requires fs.Valid() && Listing(changed, fs.history, from)
      modifies fs
      ensures fs.Valid() && Extends(old(fs.history), fs.history)
      ensures fs.failures >= old(fs.failures) && (ok ==> fs.failures == old(fs.failures)) && (old(fs.stopping) ==> fs.stopping)
      ensures ok ==> |items| == |changed| && forall i :: 0 <= i < |items| ==> items[i].key == changed[i].key
      ensures AllRead(items, fs.history, Span(from, |old(fs.history)|))
      ensures old(fs.Calm()) && (forall e :: e in changed ==> e.key in old(fs.now)) ==> ok
      ensures fs.plot == old(fs.plot) && (old(fs.Calm()) ==> fs.Calm() && fs.now.Keys == old(fs.now.Keys))
    {
      items := [];
      ghost var span := Span(from, |fs.history|);
      for i := 0 to |changed|
        invariant fs.Valid() && Extends(old(fs.history), fs.history) && |items| == i
        invariant fs.failures == old(fs.failures) && (old(fs.stopping) ==> fs.stopping)
        invariant fs.plot == old(fs.plot) && (old(fs.Calm()) ==> fs.Calm() && fs.now.Keys == old(fs.now.Keys))
        invariant forall j :: 0 <= j < i ==> items[j].key == changed[j].key && ReadSince(items[j], fs.history, span)
      {
        ghost var history := fs.history;
        var item := fs.Read(changed[i]);
        forall j | 0 <= j < i ensures ReadSince(items[j], fs.history, span) { ReadLater(items[j], history, fs.history, span); }
        if item.None? {
          return false, items;
        }
        ReadIsShown(changed[i], item.value, old(fs.history), fs.history, from);
        items := items + [item.value];
      }
      ok := true;
    }

    /** Confirm directly which of the rows that are not listed are gone. */
    method ConfirmGone(listed: seq<Entry>, ghost from: nat) returns (ok: bool, removed: set<Key>)
      requires fs.Valid() && from <= |fs.history|
      modifies fs
      ensures fs.Valid() && Extends(old(fs.history), fs.history)
      ensures fs.failures >= old(fs.failures) && (ok ==> fs.failures == old(fs.failures)) && (old(fs.stopping) ==> fs.stopping)
      ensures ok ==> Confirmed(index.objects, listed, removed, fs.history, from)
      ensures index.objects == map[] ==> fs.history == old(fs.history)
      ensures old(fs.Calm()) ==> ok
      ensures fs.plot == old(fs.plot) && (old(fs.Calm()) ==> fs.Calm() && fs.now.Keys == old(fs.now.Keys))
    {
      var candidates := Enumerate(set k | k in index.objects && !InListing(listed, k));
      assert index.objects == map[] ==> |candidates| == 0;
      removed := {};
      for i := 0 to |candidates|
        invariant fs.Valid() && Extends(old(fs.history), fs.history)
        invariant fs.failures == old(fs.failures) && (old(fs.stopping) ==> fs.stopping)
        invariant fs.plot == old(fs.plot) && (old(fs.Calm()) ==> fs.Calm() && fs.now.Keys == old(fs.now.Keys))
        invariant i == 0 ==> fs.history == old(fs.history)
        invariant forall k :: k in removed ==> k in candidates && GoneSince(k, fs.history, from)
        invariant forall k :: k in candidates[..i] && k !in removed ==> ThereSince(k, fs.history, from)
      {
        ghost var history := fs.history;
        var k := candidates[i];
        var present;
        ok, present := fs.Exists(k);
        forall c ensures GoneSince(c, history, from) ==> GoneSince(c, fs.history, from)
                 ensures ThereSince(c, history, from) ==> ThereSince(c, fs.history, from) { GoneLater(c, history, fs.history, from); }
        if !ok { return; }
        assert Has(fs.history[|fs.history| - 1], k) == present;
        if !present {
          removed := removed + {k};
        }
        assert candidates[..i + 1] == candidates[..i] + [k];
      }
      assert candidates[..|candidates|] == candidates;
      ok := true;
    }

    /** Confirm what is gone, then read what changed. */
    method Take(listed: seq<Entry>, changed: seq<Entry>, ghost from: nat, ghost complete: bool)
      returns (ok: bool, items: seq<Download>, removed: set<Key>, ghost mid: nat)
      requires fs.Valid() && from <= |fs.history|
      requires ListedWell(listed, fs.history, from, complete) == true
      requires DistinctEntries(changed) && forall e :: e in changed ==> e in listed
      modifies fs
      ensures fs.Valid() && Extends(old(fs.history), fs.history)
      ensures fs.failures >= old(fs.failures) && (ok ==> fs.failures == old(fs.failures)) && (old(fs.stopping) ==> fs.stopping)
      ensures ListedWell(listed, fs.history, from, complete) == true
      ensures ok ==> |items| == |changed| && (forall i :: 0 <= i < |items| ==> items[i].key == changed[i].key)
      ensures ok ==> AllRead(items, fs.history, Span(from, mid)) == true
      ensures index.objects == map[] ==> mid == |old(fs.history)|
      ensures ok ==> Confirmed(index.objects, listed, removed, fs.history, from) == true
      ensures old(fs.Calm()) && (forall e :: e in changed ==> e.key in old(fs.now)) ==> ok
      ensures fs.plot == old(fs.plot) && (old(fs.Calm()) ==> fs.Calm() && fs.now.Keys == old(fs.now.Keys))
    {
      items := [];
      ok, removed := ConfirmGone(listed, from);
      ghost var history := fs.history;
      mid := |history|;
      ListedWellLater(listed, old(fs.history), history, from, complete);
      if !ok { return; }
      ChosenListing(listed, changed, history, from);
      ok, items := ReadAll(changed, from);
      ListedWellLater(listed, history, fs.history, from, complete);
      ConfirmedLater(index.objects, listed, removed, history, fs.history, from);
    }

    /** The listing, and what of it needs reading. */
    method Survey(reconcile: bool, ghost from: nat) returns (ok: bool, listed: seq<Entry>, changed: seq<Entry>, ghost complete: bool)
      requires fs.Valid() && from <= |fs.history|
      modifies fs
      ensures fs.Valid() && Extends(old(fs.history), fs.history)
      ensures fs.failures >= old(fs.failures) && (ok ==> fs.failures == old(fs.failures)) && (old(fs.stopping) ==> fs.stopping)
      ensures ok ==> ListedWell(listed, fs.history, from, complete) == true && DistinctEntries(changed)
      ensures ok ==> |fs.history| == |old(fs.history)| + 3
      ensures ok ==> forall e :: e in changed <==> e in listed && NeedsReading(e, index.objects, reconcile)
      ensures old(fs.Calm()) ==> ok && complete
      ensures old(fs.Calm()) && ok ==> forall e :: e in changed ==> e.key in fs.now
      ensures fs.plot == old(fs.plot) && (old(fs.Calm()) ==> fs.Calm() && fs.now.Keys == old(fs.now.Keys))
    {
      changed := [];
      ok, listed, complete := ListAll(from);
      if ok {
        changed := Choose(listed, index.objects, reconcile);
      }
    }

    /** Everything a sync does before it touches the index. */
    method Gather(reconcile: bool, ghost from: nat)
      returns (ok: bool, listed: seq<Entry>, changed: seq<Entry>, items: seq<Download>, removed: set<Key>, ghost complete: bool,
               ghost mid: nat)
      requires fs.Valid() && from <= |fs.history|
      modifies fs
      ensures fs.Valid() && Extends(old(fs.history), fs.history)
      ensures fs.failures >= old(fs.failures) && (ok ==> fs.failures == old(fs.failures)) && (old(fs.stopping) ==> fs.stopping)
      ensures ok ==> Gathered(index.objects, listed, changed, items, removed, reconcile, fs.history, Span(from, mid), complete) == true
      ensures ok && index.objects == map[] ==> mid == |old(fs.history)| + 3
      ensures old(fs.Calm()) ==> ok && complete
      ensures fs.plot == old(fs.plot) && (old(fs.Calm()) ==> fs.Calm() && fs.now.Keys == old(fs.now.Keys))
    {
      items, removed, mid := [], {}, 0;
      ok, listed, changed, complete := Survey(reconcile, from);
      if ok {
        ok, items, removed, mid := Take(listed, changed, from, complete);
      }
    }

    /** Publish what was read, unless asked to stop. */
    method Publish(items: seq<Download>, removed: set<Key>, startedAt: int, wall: int, ghost span: Span) returns (outcome: SyncOutcome)
      requires Valid() && AllRead(items, fs.history, span) == true
      requires Publishable(items, removed) == true
      modifies index, fs
      ensures Noted(old(index.Times()), index.Times(), outcome, startedAt, wall)
      ensures Valid() && Extends(old(fs.history), fs.history)
      ensures fs.failures >= old(fs.failures) && (!outcome.Failed? ==> fs.failures == old(fs.failures)) && (old(fs.stopping) ==> fs.stopping)
      ensures outcome.Synced? ==> Applied(old(index.objects), index.objects, items, removed) == true
      ensures !outcome.Synced? ==> index.objects == old(index.objects) && index.errors == old(index.errors)
      ensures old(fs.Calm()) ==> outcome.Synced?
      ensures outcome.Stopped? <==> old(fs.stopping)
      ensures fs.plot == old(fs.plot) && (old(fs.Calm()) ==> fs.Calm() && fs.now.Keys == old(fs.now.Keys))
    {
      if fs.stopping {
        return Stopped;
      }
      ghost var history := fs.history;
      var ok, hidden := fs.Step();
      WitnessedLater(index.objects, history, fs.history);
      if !ok {
        index.RecordFailure(wall);
        return Failed;
      }
      AllReadLater(items, history, fs.history, span);
      Store(items, removed, startedAt, wall, span);
      outcome := Synced;
    }

    method Store(items: seq<Download>, removed: set<Key>, startedAt: int, wall: int, ghost span: Span)
      requires Valid() && AllRead(items, fs.history, span) == true
      requires Publishable(items, removed) == true
      modifies index
      ensures index.Times() == SyncTimes(Some(wall), Some(startedAt), None)
      ensures Valid() && Applied(old(index.objects), index.objects, items, removed) == true
    {
      ghost var before := index.objects;
      index.Apply(items, removed, startedAt, wall);
      AppliedWitnessed(before, index.objects, items, removed, fs.history, span);
    }

    /** One full scan. Rows change all at once or not at all. Whatever others write
        meanwhile, afterwards every object is up to date, and a row is dropped only for an
        object that was gone during the scan. */
    method SyncOnce(force: bool, clock: int, startedAt: int, wall: int) returns (outcome: SyncOutcome, ghost complete: bool, ghost mid: nat)
      requires Valid()
      modifies this, index, fs
      ensures (outcome.Stopped? ==> fs.stopping) && (old(fs.stopping) ==> !outcome.Synced?)
      ensures Noted(old(index.Times()), index.Times(), outcome, startedAt, wall)
      ensures Valid() && Extends(old(fs.history), fs.history) && seenEvents == old(seenEvents)
      ensures fs.failures >= old(fs.failures) && (!outcome.Failed? ==> fs.failures == old(fs.failures)) && (old(fs.stopping) ==> fs.stopping)
      ensures !outcome.Synced? ==> index.objects == old(index.objects) && index.errors == old(index.errors)
      ensures var reconcile := force || clock - old(lastReconcile) >= reconcileInterval;
              && (outcome.Synced? ==>
                    Brought(old(index.objects), index.objects, fs.history, Span(|old(fs.history)|, mid), complete, reconcile) == true)
              && lastReconcile == if outcome.Synced? && reconcile then clock else old(lastReconcile)
      ensures outcome.Synced? && old(index.objects) == map[] ==> mid == |old(fs.history)| + 4
      ensures |fs.history| > |old(fs.history)|
      ensures fs.plot == old(fs.plot) && (old(fs.Calm()) ==> outcome.Synced? && complete && fs.Calm() && fs.now.Keys == old(fs.now.Keys))
      ensures old(fs.Quiet()) ==> fs.Quiet() && fs.now == old(fs.now) && Still(fs.history, |old(fs.history)|, fs.now)
    {
      var reconcile := force || clock - lastReconcile >= reconcileInterval;
      ghost var before, rows, quiet := fs.history, index.objects, fs.Quiet();
      complete, mid := false, 0;
      var ok, hidden := fs.Step();
      WitnessedLater(rows, before, fs.history);
      if !ok {
        index.RecordFailure(wall);
        if quiet { StaysQuiet(fs.plot, before, fs.history, false, fs.events, fs.stopping); }
        return Failed, complete, mid;
      }
      outcome, complete, mid := Scan(reconcile, startedAt, wall, before);
      if quiet { StaysQuiet(fs.plot, before, fs.history, false, fs.events, fs.stopping); }
      if outcome.Synced? && reconcile {
        lastReconcile := clock;
      }
    }

    /** `--once`, with or without `--rebuild`: over quiet, readable storage the index ends as
        a rebuild of it exactly when every row that is not read anew shows storage. What is
        new, has another fingerprint or none, or was running is always read anew. */
    method RunOnce(rebuild: bool, clock: int, startedAt: int, wall: int) returns (outcome: SyncOutcome)
      requires Valid()
      modifies this, index, fs
      ensures (outcome.Stopped? ==> fs.stopping) && (old(fs.stopping) ==> !outcome.Synced?)
      ensures Noted(old(index.Times()), index.Times(), outcome, startedAt, wall)
      ensures Valid() && Extends(old(fs.history), fs.history)
      ensures fs.failures >= old(fs.failures) && (!outcome.Failed? ==> fs.failures == old(fs.failures)) && (old(fs.stopping) ==> fs.stopping)
      ensures old(fs.Quiet()) && Readable(old(fs.now)) ==> outcome.Synced? && fs.now == old(fs.now)
      ensures old(fs.Quiet()) && Readable(old(fs.now)) ==>
                (IsRebuild(index.objects, fs.now)
                 <==> KeptShow(old(index.objects), fs.now, rebuild || clock - old(lastReconcile) >= reconcileInterval))
      ensures old(fs.Quiet()) && Readable(old(fs.now)) && (rebuild || OneWriteEach(fs.history)) ==> IsRebuild(index.objects, fs.now)
      ensures old(fs.Quiet()) && Readable(old(fs.now)) ==>
                ReadAnew(old(index.objects), index.objects, fs.now, rebuild || clock - old(lastReconcile) >= reconcileInterval) == true
    {
      ghost var rows, before, due := index.objects, fs.history, rebuild || clock - lastReconcile >= reconcileInterval;
      ghost var complete, mid;
      outcome, complete, mid := SyncOnce(rebuild, clock, startedAt, wall);
      if outcome.Synced? && complete && Still(fs.history, |before|, fs.now) {
        QuietSyncExactly(rows, index.objects, fs.history, Span(|before|, mid), due, fs.now);
        QuietSyncReads(rows, index.objects, fs.history, Span(|before|, mid), due, fs.now);
        if due || OneWriteEach(fs.history) {
          OneWriteShows(rows, before, fs.history, due, fs.now);
        }
      }
    }

    /** List, confirm, read and publish. */
    method Scan(reconcile: bool, startedAt: int, wall: int, ghost before: seq<Store>) returns (outcome: SyncOutcome, ghost complete: bool, ghost mid: nat)
      requires Valid() && Witnessed(index.objects, before) == true && Extends(before, fs.history)
      modifies index, fs
      ensures (outcome.Stopped? ==> fs.stopping) && (old(fs.stopping) ==> !outcome.Synced?)
      ensures Noted(old(index.Times()), index.Times(), outcome, startedAt, wall)
      ensures Valid() && Extends(old(fs.history), fs.history)
      ensures fs.failures >= old(fs.failures) && (!outcome.Failed? ==> fs.failures == old(fs.failures)) && (old(fs.stopping) ==> fs.stopping)
      ensures !outcome.Synced? ==> index.objects == old(index.objects) && index.errors == old(index.errors)
      ensures outcome.Synced? ==> Brought(old(index.objects), index.objects, fs.history, Span(|before|, mid), complete, reconcile) == true
      ensures outcome.Synced? && old(index.objects) == map[] ==> mid == |old(fs.history)| + 3
      ensures old(fs.Calm()) ==> outcome.Synced? && complete
      ensures fs.plot == old(fs.plot) && (old(fs.Calm()) ==> fs.Calm() && fs.now.Keys == old(fs.now.Keys))
    {
      ghost var rows, history := index.objects, fs.history;
      var ok, listed, changed, items, removed;
      ok, listed, changed, items, removed, complete, mid := Gather(reconcile, |before|);
      WitnessedLater(rows, history, fs.history);
      if ok {
        outcome := Bring(listed, changed, items, removed, reconcile, startedAt, wall, before, complete, mid);
      } else {
        outcome := Fail(wall);
      }
    }

    /** The index keeps its rows. */
    method Fail(wall: int) returns (outcome: SyncOutcome)
      requires Valid()
      modifies index`lastError
      ensures Valid() && outcome == Failed && index.Times() == old(index.Times()).(lastError := Some(wall))
    {
      index.RecordFailure(wall);
      outcome := Failed;
    }

    /** Publish what a scan gathered. */
    method Bring(ghost listed: seq<Entry>, ghost changed: seq<Entry>, items: seq<Download>, removed: set<Key>, ghost reconcile: bool,
                 startedAt: int, wall: int, ghost before: seq<Store>, ghost complete: bool, ghost mid: nat) returns (outcome: SyncOutcome)
      requires Valid() && Witnessed(index.objects, before) == true && Extends(before, fs.history)
      requires Gathered(index.objects, listed, changed, items, removed, reconcile, fs.history, Span(|before|, mid), complete) == true
      modifies index, fs
      ensures (outcome.Stopped? ==> fs.stopping) && (old(fs.stopping) ==> !outcome.Synced?)
      ensures Noted(old(index.Times()), index.Times(), outcome, startedAt, wall)
      ensures Valid() && Extends(old(fs.history), fs.history)
      ensures fs.failures >= old(fs.failures) && (!outcome.Failed? ==> fs.failures == old(fs.failures)) && (old(fs.stopping) ==> fs.stopping)
      ensures !outcome.Synced? ==> index.objects == old(index.objects) && index.errors == old(index.errors)
      ensures outcome.Synced? ==> Brought(old(index.objects), index.objects, fs.history, Span(|before|, mid), complete, reconcile) == true
      ensures old(fs.Calm()) ==> outcome.Synced?
      ensures fs.plot == old(fs.plot) && (old(fs.Calm()) ==> fs.Calm() && fs.now.Keys == old(fs.now.Keys))
    {
      ghost var rows, gathered := index.objects, fs.history;
      GatheredPublishable(rows, listed, changed, items, removed, reconcile, gathered, Span(|before|, mid), complete);
      outcome := Publish(items, removed, startedAt, wall, Span(|before|, mid));
      if outcome.Synced? {
        ScanUpToDate(rows, index.objects, listed, changed, items, removed, reconcile, before, gathered, fs.history, complete, mid);
      }
    }

    /* Events. */

    /** The objects some event files name. */
    method ReadTargets(pending: set<Notice>) returns (ok: bool, keys: set<Key>)
      requires fs.Valid()
      modifies fs
      ensures fs.Valid() && Extends(old(fs.history), fs.history)
      ensures fs.failures >= old(fs.failures) && (ok ==> fs.failures == old(fs.failures)) && (old(fs.stopping) ==> fs.stopping)
      ensures ok ==> (forall k :: k in keys <==> Targeted(pending, k)) && forall k :: k in keys ==> k.Tracked?
      ensures (ok ==> AllTracked(pending)) && (old(fs.Calm()) && AllTracked(pending) ==> ok)
      ensures fs.plot == old(fs.plot) && (old(fs.Calm()) ==> fs.Calm() && fs.now.Keys == old(fs.now.Keys))
    {
      keys := {};
      var files := Enumerate(pending);
      for i := 0 to |files|
        invariant fs.Valid() && Extends(old(fs.history), fs.history)
        invariant fs.failures == old(fs.failures) && (old(fs.stopping) ==> fs.stopping)
        invariant fs.plot == old(fs.plot) && (old(fs.Calm()) ==> fs.Calm() && fs.now.Keys == old(fs.now.Keys))
        invariant forall k :: k in keys <==> exists j :: 0 <= j < i && files[j].target == k
        invariant forall k :: k in keys ==> k.Tracked?
        invariant forall j :: 0 <= j < i ==> files[j].target.Tracked?
      {
        var hidden;
        assert files[i] in files;
        ok, hidden := fs.Step();
        if !ok || !files[i].target.Tracked? {
          return false, keys;
        }
        keys := keys + {files[i].target};
      }
      ok := true;
      forall k ensures k in keys <==> Targeted(pending, k) {
        if Targeted(pending, k) {
          var n :| n in pending && n.target == k;
          assert n in files;
        }
        if k in keys {
          var j :| 0 <= j < |files| && files[j].target == k;
          assert files[j] in files;
        }
      }
    }

    /** One object an event names: its fingerprint now, or that it is gone. */
    method ProbeOne(key: Key) returns (ok: bool, entry: Option<Entry>)
      requires fs.Valid() && key.Tracked?
      modifies fs
      ensures fs.Valid() && Extends(old(fs.history), fs.history)
      ensures fs.failures >= old(fs.failures) && (ok ==> fs.failures == old(fs.failures)) && (old(fs.stopping) ==> fs.stopping)
      ensures ok && entry.Some? ==> entry.value.key == key && ListedSince(entry.value, fs.history, |old(fs.history)|)
      ensures ok && entry.None? ==> GoneSince(key, fs.history, |old(fs.history)|)
      ensures old(fs.Calm()) ==> ok && (entry.Some? <==> key in fs.now)
      ensures fs.plot == old(fs.plot) && (old(fs.Calm()) ==> fs.Calm() && fs.now.Keys == old(fs.now.Keys))
    {
      var present, hidden;
      entry := None;
      ok, present := fs.Exists(key);
      if !ok { return; }
      if !present {
        assert !Has(fs.history[|fs.history| - 1], key);
        return;
      }
      ok, hidden := fs.Step();
      if !ok || key !in fs.now {
        return false, entry;
      }
      entry := Some(Entry(key, fs.now[key].fingerprint));
      assert Carries(entry.value, fs.history[|fs.history| - 1]);
    }

    method Probe(keys: seq<Key>, ghost from: nat) returns (ok: bool, entries: seq<Entry>, removed: set<Key>)
      requires fs.Valid() && from <= |fs.history| && forall k :: k in keys ==> k.Tracked?
      requires forall i, j :: 0 <= i < j < |keys| ==> keys[i] != keys[j]
      modifies fs
      ensures fs.Valid() && Extends(old(fs.history), fs.history)
      ensures fs.failures >= old(fs.failures) && (ok ==> fs.failures == old(fs.failures)) && (old(fs.stopping) ==> fs.stopping)
      ensures ok ==> Probed(keys, |keys|, entries, removed, fs.history, from) == true
      ensures old(fs.Calm()) ==> ok && forall e :: e in entries ==> e.key in fs.now
      ensures fs.plot == old(fs.plot) && (old(fs.Calm()) ==> fs.Calm() && fs.now.Keys == old(fs.now.Keys))
    {
      entries, removed := [], {};
      for i := 0 to |keys|
        invariant fs.Valid() && Extends(old(fs.history), fs.history)
        invariant fs.failures == old(fs.failures) && (old(fs.stopping) ==> fs.stopping)
        invariant Probed(keys, i, entries, removed, fs.history, from) == true
        invariant fs.plot == old(fs.plot) && (old(fs.Calm()) ==> fs.Calm() && fs.now.Keys == old(fs.now.Keys))
        invariant old(fs.Calm()) ==> forall e :: e in entries ==> e.key in fs.now
      {
        ghost var history := fs.history;
        var entry;
        ok, entry := ProbeOne(keys[i]);
        if !ok { return; }
        ProbedNext(keys, i, entries, removed, entry, history, fs.history, from);
        if entry.Some? {
          entries := entries + [entry.value];
        } else {
          removed := removed + {keys[i]};
        }
      }
      ok := true;
    }

    /** Read what the new events name, and publish it. */
    method FollowEvents(listing: set<Notice>, startedAt: int, wall: int) returns (outcome: SyncOutcome)
      requires Valid()
      modifies `seenEvents, index, fs
      ensures (outcome.Stopped? ==> fs.stopping) && (old(fs.stopping) ==> !outcome.Synced?)
      ensures Noted(old(index.Times()), index.Times(), outcome, startedAt, wall)
      ensures Valid() && Extends(old(fs.history), fs.history)
      ensures fs.failures >= old(fs.failures) && (!outcome.Failed? ==> fs.failures == old(fs.failures)) && (old(fs.stopping) ==> fs.stopping)
      ensures !outcome.Synced? ==>
                index.objects == old(index.objects) && index.errors == old(index.errors) && seenEvents == old(seenEvents)
      ensures outcome.Synced? ==>
                && seenEvents == listing && AllTracked(listing - old(seenEvents))
                && Followed(listing - old(seenEvents), old(index.objects), index.objects, fs.history, |old(fs.history)|) == true
      ensures old(fs.Calm()) && AllTracked(listing - old(seenEvents)) ==> outcome.Synced?
    {
      ghost var rows, before := index.objects, fs.history;
      var pending := listing - seenEvents;
      var ok, entries, removed := Look(pending, |before|);
      WitnessedLater(rows, before, fs.history);
      if !ok {
        outcome := Fail(wall);
        return;
      }
      outcome := Update(pending, entries, removed, startedAt, wall, before);
      if outcome.Synced? {
        seenEvents := (seenEvents + pending) * listing;
        assert seenEvents == listing;
      }
    }

    /** The two listings of events, their contents, and the objects they name. */
    method Look(pending: set<Notice>, ghost from: nat) returns (ok: bool, entries: seq<Entry>, removed: set<Key>)
      requires fs.Valid() && from <= |fs.history|
      modifies fs
      ensures fs.Valid() && Extends(old(fs.history), fs.history)
      ensures fs.failures >= old(fs.failures) && (ok ==> fs.failures == old(fs.failures)) && (old(fs.stopping) ==> fs.stopping)
      ensures ok ==> AllTracked(pending) && Noticed(pending, entries, removed, fs.history, from) == true
      ensures old(fs.Calm()) && AllTracked(pending) ==> ok && forall e :: e in entries ==> e.key in fs.now
      ensures fs.plot == old(fs.plot) && (old(fs.Calm()) ==> fs.Calm() && fs.now.Keys == old(fs.now.Keys))
    {
      entries, removed := [], {};
      var hidden, keys;
      ok, hidden := fs.Step();
      if !ok { return; }
      ok, hidden := fs.Step();
      if !ok { return; }
      ok, keys := ReadTargets(pending);
      if !ok { return; }
      var named := Enumerate(keys);
      ok, entries, removed := Probe(named, from);
      if ok {
        ProbedAll(pending, keys, named, entries, removed, fs.history, from);
      }
    }

    /** Read the objects that are there, and publish. */
    method Update(ghost pending: set<Notice>, entries: seq<Entry>, removed: set<Key>, startedAt: int, wall: int, ghost before: seq<Store>)
      returns (outcome: SyncOutcome)
      requires Valid() && Noticed(pending, entries, removed, fs.history, |before|) == true
      modifies index, fs
      ensures (outcome.Stopped? ==> fs.stopping) && (old(fs.stopping) ==> !outcome.Synced?)
      ensures Noted(old(index.Times()), index.Times(), outcome, startedAt, wall)
      ensures Valid() && Extends(old(fs.history), fs.history)
      ensures fs.failures >= old(fs.failures) && (!outcome.Failed? ==> fs.failures == old(fs.failures)) && (old(fs.stopping) ==> fs.stopping)
      ensures !outcome.Synced? ==> index.objects == old(index.objects) && index.errors == old(index.errors)
      ensures outcome.Synced? ==> Followed(pending, old(index.objects), index.objects, fs.history, |before|) == true
      ensures old(fs.Calm()) && (forall e :: e in entries ==> e.key in old(fs.now)) ==> outcome.Synced?
    {
      ghost var rows, history := index.objects, fs.history;
      ghost var span := Span(|before|, |fs.history|);
      var ok, items := ReadAll(entries, |before|);
      WitnessedLater(rows, history, fs.history);
      if !ok {
        outcome := Fail(wall);
        return;
      }
      ghost var read := fs.history;
      NoticedPublishable(pending, entries, removed, items, history, |before|);
      outcome := Publish(items, removed, startedAt, wall, span);
      if outcome.Synced? {
        AllReadLater(items, read, fs.history, span);
        NoticedFollowed(pending, entries, removed, items, rows, index.objects, history, fs.history, span);
      }
    }

    /** `sync_events`: a full scan when one is due, else the new events. */
    method SyncEvents(listing: set<Notice>, clock: int, startedAt: int, wall: int)
      returns (outcome: SyncOutcome, ghost complete: bool, ghost mid: nat)
      requires Valid()
      modifies this, index, fs
      ensures (outcome.Stopped? ==> fs.stopping) && (old(fs.stopping) ==> !outcome.Synced?)
      ensures Noted(old(index.Times()), index.Times(), outcome, startedAt, wall)
      ensures Valid() && Extends(old(fs.history), fs.history)
      ensures fs.failures >= old(fs.failures) && (!outcome.Failed? ==> fs.failures == old(fs.failures)) && (old(fs.stopping) ==> fs.stopping)
      ensures !outcome.Synced? ==> index.objects == old(index.objects) && index.errors == old(index.errors)
      ensures outcome.Failed? ==> seenEvents == old(seenEvents) && lastReconcile == old(lastReconcile)
      ensures outcome.Synced? ==>
                if old(lastReconcile) == 0 || clock - old(lastReconcile) >= reconcileInterval then
                  && lastReconcile == clock && seenEvents == {}
                  && Brought(old(index.objects), index.objects, fs.history, Span(|old(fs.history)|, mid), complete, true) == true
                  && (old(fs.Calm()) ==> complete)
                else
                  && seenEvents == listing && lastReconcile == old(lastReconcile)
                  && Followed(listing - old(seenEvents), old(index.objects), index.objects, fs.history, |old(fs.history)|) == true
      ensures old(fs.Calm()) && AllTracked(listing - old(seenEvents)) ==> outcome.Synced?
    {
      if lastReconcile == 0 || clock - lastReconcile >= reconcileInterval {
        outcome, complete, mid := SyncOnce(true, clock, startedAt, wall);
        if !outcome.Failed? {
          seenEvents := {};
        }
        return;
      }
      complete, mid := false, 0;
      outcome := FollowEvents(listing, startedAt, wall);
    }
  }

  /** Every event file names an object the index keeps. */
  ghost predicate AllTracked(pending: set<Notice>) {
    forall n :: n in pending ==> n.target.Tracked?
  }

  ghost predicate Targeted(pending: set<Notice>, k: Key) {
    exists n :: n in pending && n.target == k
  }

  /** The first `n` keys: those that are there, and those that are gone. */
  ghost predicate Probed(keys: seq<Key>, n: nat, entries: seq<Entry>, removed: set<Key>, history: seq<Store>, from: nat) {
    && n <= |keys| && Listing(entries, history, from)
    && (forall i :: 0 <= i < |entries| ==> entries[i].key in keys[..n] && entries[i].key !in removed)
    && (forall k :: k in removed ==> k in keys[..n] && GoneSince(k, history, from))
    && (forall k :: k in keys[..n] ==> InListing(entries, k) || k in removed)
  }

  lemma ProbedNext(keys: seq<Key>, n: nat, entries: seq<Entry>, removed: set<Key>, entry: Option<Entry>, before: seq<Store>,
                   history: seq<Store>, from: nat)
    requires n < |keys| && Probed(keys, n, entries, removed, before, from) && Extends(before, history) && from <= |before|
    requires forall i, j :: 0 <= i < j < |keys| ==> keys[i] != keys[j]
    requires forall k :: k in keys ==> k.Tracked?
    requires if entry.Some? then entry.value.key == keys[n] && ListedSince(entry.value, history, |before|)
             else GoneSince(keys[n], history, |before|)
    ensures entry.Some? ==> Probed(keys, n + 1, entries + [entry.value], removed, history, from)
    ensures entry.None? ==> Probed(keys, n + 1, entries, removed + {keys[n]}, history, from)
  {
    ListingLater(entries, before, history, from);
    assert keys[..n + 1] == keys[..n] + [keys[n]];
    forall k ensures GoneSince(k, before, from) ==> GoneSince(k, history, from) { GoneLater(k, before, history, from); }
    if entry.Some? {
      var more := entries + [entry.value];
      StillListed(entries, more);
      assert more[|entries|].key == keys[n];
    }
  }

  /** What the new events name: there with its fingerprint, or gone. */
  ghost predicate Noticed(pending: set<Notice>, entries: seq<Entry>, removed: set<Key>, history: seq<Store>, from: nat) {
    && Listing(entries, history, from)
    && (forall i :: 0 <= i < |entries| ==> Targeted(pending, entries[i].key) && entries[i].key !in removed)
    && (forall k :: k in removed ==> Targeted(pending, k) && GoneSince(k, history, from))
    && (forall k :: Targeted(pending, k) ==> InListing(entries, k) || k in removed)
  }

  lemma ProbedAll(pending: set<Notice>, keys: set<Key>, named: seq<Key>, entries: seq<Entry>, removed: set<Key>,
                  history: seq<Store>, from: nat)
    requires Lists(named, keys) && (forall k :: k in keys <==> Targeted(pending, k))
    requires Probed(named, |named|, entries, removed, history, from) == true
    ensures Noticed(pending, entries, removed, history, from)
  {
  }

  /** What events named is as storage had it since, or gone; nothing else changed. */
  ghost predicate Followed(pending: set<Notice>, before: map<Key, IndexRow>, after: map<Key, IndexRow>, history: seq<Store>, from: nat) {
    forall k :: FollowedAt(k, pending, before, after, history, from)
  }

  ghost predicate FollowedAt(k: Key, pending: set<Notice>, before: map<Key, IndexRow>, after: map<Key, IndexRow>, history: seq<Store>,
                             from: nat)
  {
    if Targeted(pending, k) then (if k in after then ShownSince(k, after[k], history, from) else GoneSince(k, history, from))
    else (k in after <==> k in before) && (k in before && k in after ==> after[k] == before[k])
  }

  lemma NoticedPublishable(pending: set<Notice>, entries: seq<Entry>, removed: set<Key>, items: seq<Download>, history: seq<Store>,
                           from: nat)
    requires Noticed(pending, entries, removed, history, from) == true
    requires |items| == |entries| && forall i :: 0 <= i < |items| ==> items[i].key == entries[i].key
    ensures Publishable(items, removed)
  {
  }

  lemma NoticedFollowed(pending: set<Notice>, entries: seq<Entry>, removed: set<Key>, items: seq<Download>, before: map<Key, IndexRow>,
                        after: map<Key, IndexRow>, earlier: seq<Store>, history: seq<Store>, span: Span)
    requires Noticed(pending, entries, removed, earlier, span.from) == true && Extends(earlier, history)
    requires |items| == |entries| && forall i :: 0 <= i < |items| ==> items[i].key == entries[i].key
    requires AllRead(items, history, span) && Applied(before, after, items, removed) == true
    ensures Followed(pending, before, after, history, span.from)
  {
    forall k ensures FollowedAt(k, pending, before, after, history, span.from) {
      NoticedAt(k, pending, entries, removed, items, before, after, earlier, history, span);
    }
  }

  lemma NoticedAt(k: Key, pending: set<Notice>, entries: seq<Entry>, removed: set<Key>, items: seq<Download>, before: map<Key, IndexRow>,
                  after: map<Key, IndexRow>, earlier: seq<Store>, history: seq<Store>, span: Span)
    requires Noticed(pending, entries, removed, earlier, span.from) && Extends(earlier, history)
    requires |items| == |entries| && forall i :: 0 <= i < |items| ==> items[i].key == entries[i].key
    requires AllRead(items, history, span) == true && Applied(before, after, items, removed) == true
    ensures FollowedAt(k, pending, before, after, history, span.from)
  {
    AppliedAt(before, after, items, removed, k);
    if i :| 0 <= i < |entries| && entries[i].key == k {
      LoadedShown(items, i, history, span);
      assert items[i].key == k;
    } else {
      assert !Loaded(items, |items|, k);
      GoneLater(k, earlier, history, span.from);
    }
  }

  lemma LoadedShown(items: seq<Download>, i: nat, history: seq<Store>, span: Span)
    requires AllRead(items, history, span) && i < |items|
    ensures ShownSince(items[i].key, RowOf(items[i]), history, span.from)
  {
    assert ReadSince(items[i], history, span);
  }

  /** A file under `_events`, and the object it says has changed. */
  datatype Notice = Notice(name: string, target: Key)

  /** One more area of a listing. */
  lemma AreaListed(listed: seq<Entry>, kept: seq<Entry>, entries: seq<Entry>, area: Area, done: set<Area>, before: seq<Store>,
                   history: seq<Store>, from: nat, complete: bool)
    requires Listing(listed, before, from) && Extends(before, history) && |before| < |history| && from <= |before| && area !in done
    requires forall i :: 0 <= i < |listed| ==> AreaOf(listed[i].key) in done
    requires complete ==> LeavesOnlyGone(listed, done, before, from)
    requires DistinctEntries(kept) && forall i :: 0 <= i < |kept| ==> kept[i].key.Tracked? && kept[i] in entries
    requires forall i :: 0 <= i < |entries| ==> AreaOf(entries[i].key) == area && Carries(entries[i], history[|history| - 1])
    requires forall i :: 0 <= i < |entries| && entries[i].key.Tracked? ==> InListing(kept, entries[i].key)
    requires complete ==> forall k :: k in history[|history| - 1] && AreaOf(k) == area ==> InListing(entries, k)
    ensures Listing(listed + kept, history, from)
    ensures forall i :: 0 <= i < |listed + kept| ==> AreaOf((listed + kept)[i].key) in done + {area}
    ensures complete ==> LeavesOnlyGone(listed + kept, done + {area}, history, from)
  {
    var all, now := listed + kept, history[|history| - 1];
    ListingLater(listed, before, history, from);
    forall i | 0 <= i < |kept| ensures AreaOf(kept[i].key) == area && ListedSince(kept[i], history, from) {
      assert Carries(kept[i], now);
    }
    forall i | 0 <= i < |all| ensures AreaOf(all[i].key) in done + {area} && ListedSince(all[i], history, from) {
      if i >= |listed| { assert all[i] == kept[i - |listed|]; }
    }
    forall k: Key | complete && k.Tracked? && AreaOf(k) in done + {area} ensures InListing(all, k) || GoneSince(k, history, from) {
      if AreaOf(k) == area {
        assert Has(now, k) || !Has(now, k);
        if Has(now, k) {
          var i :| 0 <= i < |entries| && entries[i].key == k;
          var j :| 0 <= j < |kept| && kept[j].key == k;
          assert all[|listed| + j].key == k;
        }
      } else {
        StillListed(listed, all);
        GoneLater(k, before, history, from);
      }
    }
  }

  /** The two claims of a scan. */
  lemma ScanUpToDate(known: map<Key, IndexRow>, after: map<Key, IndexRow>, listed: seq<Entry>, changed: seq<Entry>, items: seq<Download>,
                     removed: set<Key>, reconcile: bool, before: seq<Store>, gathered: seq<Store>, history: seq<Store>, complete: bool,
                     mid: nat)
    requires Gathered(known, listed, changed, items, removed, reconcile, gathered, Span(|before|, mid), complete) == true
    requires Applied(known, after, items, removed) == true && Extends(gathered, history)
    requires Witnessed(known, before) == true && Extends(before, history)
    ensures Brought(known, after, history, Span(|before|, mid), complete, reconcile)
  {
    var span := Span(|before|, mid);
    GatheredLater(known, listed, changed, items, removed, reconcile, gathered, history, span, complete);
    forall k: Key | k.Tracked? ensures Treated(k, known, after, history, span, complete, reconcile) {
      GatheredTreated(k, known, after, listed, changed, items, removed, reconcile, history, span, complete);
    }
    if reconcile || OneWriteEach(history) {
      forall k: Key | k.Tracked? ensures UpToDate(k, known, after, history, |before|, complete) {
        GatheredUpToDate(k, known, after, listed, changed, items, removed, reconcile, before, history, span, complete);
      }
    }
    forall k | k in known && k !in after ensures GoneSince(k, history, |before|) {
      AppliedAt(known, after, items, removed, k);
    }
  }

  /** What the scan does with each object, told from what it gathered. */
  lemma GatheredTreated(k: Key, known: map<Key, IndexRow>, after: map<Key, IndexRow>, listed: seq<Entry>, changed: seq<Entry>,
                        items: seq<Download>, removed: set<Key>, reconcile: bool, history: seq<Store>, span: Span, complete: bool)
    requires Gathered(known, listed, changed, items, removed, reconcile, history, span, complete)
    requires Applied(known, after, items, removed) && k.Tracked?
    ensures Treated(k, known, after, history, span, complete, reconcile)
  {
    AppliedAt(known, after, items, removed, k);
    if Loaded(items, |items|, k) {
      var i :| 0 <= i < |items| && items[i].key == k;
      assert ReadSince(items[i], history, span) && changed[i] in changed;
      var j :| 0 <= j < |listed| && listed[j] == changed[i];
      assert TreatedEntry(listed[j], known, after, history, span, reconcile);
    } else if InListing(listed, k) {
      var j :| 0 <= j < |listed| && listed[j].key == k;
      assert listed[j] in listed && !NeedsReading(listed[j], known, reconcile) by {
        assert forall i :: 0 <= i < |items| ==> items[i].key != k;
        assert listed[j] !in changed;
      }
      assert TreatedEntry(listed[j], known, after, history, span, reconcile);
    }
  }

  lemma GatheredLater(known: map<Key, IndexRow>, listed: seq<Entry>, changed: seq<Entry>, items: seq<Download>, removed: set<Key>,
                      reconcile: bool, before: seq<Store>, after: seq<Store>, span: Span, complete: bool)
    requires Gathered(known, listed, changed, items, removed, reconcile, before, span, complete) == true && Extends(before, after)
    ensures Gathered(known, listed, changed, items, removed, reconcile, after, span, complete)
  {
    ListedWellLater(listed, before, after, span.from, complete);
    AllReadLater(items, before, after, span);
    ConfirmedLater(known, listed, removed, before, after, span.from);
  }

  /** Over the same quiet storage an incremental sync leaves the rows of a rebuild, which reads
      everything, exactly when every row it does not read anew shows storage. */
  lemma IncrementalIsRebuild(before: map<Key, IndexRow>, after: map<Key, IndexRow>, history: seq<Store>, span: Span,
                             before': map<Key, IndexRow>, after': map<Key, IndexRow>, history': seq<Store>, span': Span, s: Store)
    requires Brought(before, after, history, span, true, false) && RowsFit(after) && Still(history, span.from, s)
    requires Brought(before', after', history', span', true, true) && RowsFit(after') && Still(history', span'.from, s)
    ensures after == after' <==> KeptShow(before, s, false)
  {
    QuietSyncExactly(before, after, history, span, false, s);
    QuietSyncIsRebuild(before', after', history', span', true, s);
    if IsRebuild(after, s) { RebuildUnique(after, after', s); }
  }

  /** A fingerprint that only depends on the content. */
  ghost predicate ContentFingerprints(history: seq<Store>) {
    forall i, j, k :: 0 <= i < |history| && 0 <= j < |history| ==> SameContent(k, history[i], history[j])
  }

  ghost predicate SameContent(k: Key, a: Store, b: Store) {
    k in a && k in b && a[k].fingerprint.Some? && a[k].fingerprint == b[k].fingerprint ==> a[k] == b[k]
  }

  /* A fingerprint of the content alone does not do. */

  /** Two states of storage that differ in the content of an object, and show it. */
  ghost predicate Switch(k: Key, a: Store, b: Store) {
    && a.Keys == b.Keys && Readable(a) && Readable(b) && ContentFingerprints([a, b])
    && k.Tracked? && k in a && a[k].fingerprint.Some? && a[k].parsed != b[k].parsed
    && PayloadOf(k, b[k]).Some? && StaleRow(k, a, b).status != Some("running")
  }

  /** The fingerprint of the one, and the payload of the other. */
  ghost function StaleRow(k: Key, a: Store, b: Store): IndexRow
    requires k in a && k in b && PayloadOf(k, b[k]).Some?
  {
    MakeRow(a[k].fingerprint, PayloadOf(k, b[k]).value)
  }

  function Overwritten(store: Store): Event { Event(store, {}, false, false) }

  /** Storage changes between the listing of a scan and its readings. */
  function ChangedMidway(a: Store, b: Store): seq<Event> {
    [Overwritten(a), Overwritten(a), Overwritten(a), Overwritten(a), Overwritten(b)]
  }

  ghost predicate OnlyThese(history: seq<Store>, a: Store, b: Store) {
    forall t :: 0 <= t < |history| ==> history[t] == a || history[t] == b
  }

  lemma TheseAreContent(history: seq<Store>, a: Store, b: Store)
    requires OnlyThese(history, a, b) && ContentFingerprints([a, b])
    ensures ContentFingerprints(history)
  {
    assert [a, b][0] == a && [a, b][1] == b;
    forall i, j, c | 0 <= i < |history| && 0 <= j < |history| ensures SameContent(c, history[i], history[j]) {
      assert SameContent(c, a, a) && SameContent(c, a, b) && SameContent(c, b, a) && SameContent(c, b, b);
    }
  }

  lemma MidwayHistory(a: Store, b: Store, history: seq<Store>, events: seq<Event>, stopping: bool)
    requires Plotted(Plot(0, a, false, ChangedMidway(a, b)), history, events, stopping)
    ensures Midway(history, a, b) && OnlyThese(history, a, b)
  {
    var plot := Plot(0, a, false, ChangedMidway(a, b));
    forall t | 0 <= t < |history| ensures history[t] == if t < 5 then a else b { assert At(plot, history, t); }
  }

  ghost predicate Midway(history: seq<Store>, a: Store, b: Store) {
    forall t :: 0 <= t < |history| ==> history[t] == if t < 5 then a else b
  }

  lemma MidwayRow(k: Key, a: Store, b: Store, objects: map<Key, IndexRow>, history: seq<Store>, span: Span, reconcile: bool)
    requires Switch(k, a, b) && Brought(map[], objects, history, span, true, reconcile) && span == Span(1, 5)
    requires Midway(history, a, b)
    ensures k in objects && objects[k] == StaleRow(k, a, b)
  {
    assert Treated(k, map[], objects, history, span, true, reconcile);
    forall t | 1 <= t < |history| ensures Has(history[t], k) { }
    var e: Entry :| e.key == k && ListedSince(e, history, 1) && TreatedEntry(e, map[], objects, history, span, reconcile);
    var f, p :| 1 <= f < 5 <= p < |history| && Reads(k, objects[k], history[f], history[p]);
  }

  /** A stale row over storage that holds the first version again is not read again. */
  lemma StaleStays(k: Key, a: Store, b: Store, before: map<Key, IndexRow>, after: map<Key, IndexRow>, history: seq<Store>, span: Span)
    requires Switch(k, a, b) && k in before && before[k] == StaleRow(k, a, b)
    requires Brought(before, after, history, span, true, false) && Still(history, span.from, a)
    ensures k in after && after[k] == StaleRow(k, a, b)
  {
    TreatedQuietly(k, before, after, history, span, false, a);
  }

  lemma CalmMidway(k: Key, a: Store, b: Store)
    requires Switch(k, a, b)
    ensures CalmFrom(a, ChangedMidway(a, b), false) && CalmFrom(a, [], false)
  {
  }

  /** A scan reads the object after it was overwritten. */
  method ReadMidway(k: Key, a: Store, b: Store, script: seq<Event>, interval: int, clock: int, wall: int) returns (sync: IndexSynchronizer)
    requires Switch(k, a, b) == true && script == ChangedMidway(a, b) && CalmFrom(a, script, false) == true
    ensures fresh(sync) && fresh(sync.fs) && fresh(sync.index) && sync.reconcileInterval == interval
    ensures sync.lastReconcile == if clock >= interval then clock else 0
    ensures sync.Valid() && !sync.fs.stopping && OnlyThese(sync.fs.history, a, b) == true
    ensures k in sync.index.objects && sync.index.objects[k] == StaleRow(k, a, b)
  {
    var fs := new Storage(a, script);
    var index := new Index();
    sync := new IndexSynchronizer(index, fs, interval);
    var outcome;
    ghost var complete, mid;
    ghost var due := false || clock - sync.lastReconcile >= sync.reconcileInterval;
    outcome, complete, mid := sync.SyncOnce(false, clock, wall, wall);
    MidwayHistory(a, b, fs.history, fs.events, fs.stopping);
    MidwayRow(k, a, b, index.objects, fs.history, Span(1, mid), due);
  }

  /** An incremental sync over the storage it was written back to keeps the row. */
  method SyncStale(sync: IndexSynchronizer, k: Key, ghost a: Store, ghost b: Store, clock: int, wall: int)
    requires Switch(k, a, b) == true && sync.Valid() && clock - sync.lastReconcile < sync.reconcileInterval
    requires sync.fs.Quiet() && sync.fs.now == a && OnlyThese(sync.fs.history, a, b) == true
    requires k in sync.index.objects && sync.index.objects[k] == StaleRow(k, a, b)
    modifies sync, sync.index, sync.fs
    ensures sync.Valid() && sync.lastReconcile == old(sync.lastReconcile)
    ensures sync.fs.Quiet() && sync.fs.now == a && OnlyThese(sync.fs.history, a, b) == true
    ensures k in sync.index.objects && sync.index.objects[k] == StaleRow(k, a, b)
  {
    CalmMidway(k, a, b);
    ghost var rows, history := sync.index.objects, sync.fs.history;
    var outcome;
    ghost var complete, mid;
    outcome, complete, mid := sync.SyncOnce(false, clock, wall, wall);
    StaleStays(k, a, b, rows, sync.index.objects, sync.fs.history, Span(|history|, mid));
    MoreOfThese(history, sync.fs.history, a, b);
  }

  lemma MoreOfThese(before: seq<Store>, after: seq<Store>, a: Store, b: Store)
    requires OnlyThese(before, a, b) && Extends(before, after) && Still(after, |before|, a)
    ensures OnlyThese(after, a, b)
  {
  }

  lemma OneMoreOfThese(history: seq<Store>, a: Store, b: Store)
    requires OnlyThese(history, a, b) == true
    ensures OnlyThese(history + [a], a, b)
  {
  }

  lemma StaleShowsNothing(k: Key, a: Store, b: Store, objects: map<Key, IndexRow>)
    requires Switch(k, a, b) && k in objects && objects[k] == StaleRow(k, a, b)
    ensures !KeptShow(objects, a, false) && !IsRebuild(objects, a)
  {
    assert !NeedsReading(Entry(k, a[k].fingerprint), objects, false) && !Reads(k, objects[k], a, a);
  }

  /** An object is overwritten between the listing and the reading of a scan, and written back
      before the next one. From then on storage is quiet and readable and its fingerprints
      tell contents apart, yet no number of incremental syncs brings its row up to date. */
  method StaleForEver(k: Key, a: Store, b: Store, interval: int, clock: int, clocks: seq<int>, wall: int) returns (sync: IndexSynchronizer)
    requires Switch(k, a, b) == true
    requires forall i :: 0 <= i < |clocks| ==> clocks[i] < interval && clocks[i] < clock + interval
    ensures sync.Valid() && ContentFingerprints(sync.fs.history) && sync.fs.Quiet() && sync.fs.now == a && Readable(a)
    ensures !KeptShow(sync.index.objects, a, false) && !IsRebuild(sync.index.objects, a)
  {
    sync := MakeStale(k, a, b, interval, clock, wall);
    SyncAgain(sync, k, a, b, clocks, wall);
    TheseAreContent(sync.fs.history, a, b);
    StaleShowsNothing(k, a, b, sync.index.objects);
  }

  /** The overwriting and the writing back. */
  method MakeStale(k: Key, a: Store, b: Store, interval: int, clock: int, wall: int) returns (sync: IndexSynchronizer)
    requires Switch(k, a, b) == true
    ensures fresh(sync) && fresh(sync.fs) && fresh(sync.index) && sync.Valid() && sync.reconcileInterval == interval
    ensures sync.lastReconcile == if clock >= interval then clock else 0
    ensures sync.fs.Quiet() && sync.fs.now == a && OnlyThese(sync.fs.history, a, b) == true
    ensures k in sync.index.objects && sync.index.objects[k] == StaleRow(k, a, b)
  {
    var script := ChangedMidway(a, b);
    CalmMidway(k, a, b);
    sync := ReadMidway(k, a, b, script, interval, clock, wall);
    ghost var history := sync.fs.history;
    OneMoreOfThese(history, a, b);
    sync.Meanwhile(a, []);
  }

  /** Any number of incremental syncs. */
  method SyncAgain(sync: IndexSynchronizer, k: Key, ghost a: Store, ghost b: Store, clocks: seq<int>, wall: int)
    requires Switch(k, a, b) == true && sync.Valid()
    requires forall i :: 0 <= i < |clocks| ==> clocks[i] - sync.lastReconcile < sync.reconcileInterval
    requires sync.fs.Quiet() && sync.fs.now == a && OnlyThese(sync.fs.history, a, b) == true
    requires k in sync.index.objects && sync.index.objects[k] == StaleRow(k, a, b)
    modifies sync, sync.index, sync.fs
    ensures sync.Valid() && sync.fs.Quiet() && sync.fs.now == a && OnlyThese(sync.fs.history, a, b) == true
    ensures k in sync.index.objects && sync.index.objects[k] == StaleRow(k, a, b)
  {
    for i := 0 to |clocks|
      invariant sync.Valid() && sync.lastReconcile == old(sync.lastReconcile)
      invariant sync.fs.Quiet() && sync.fs.now == a && OnlyThese(sync.fs.history, a, b) == true
      invariant k in sync.index.objects && sync.index.objects[k] == StaleRow(k, a, b)
    {
      SyncStale(sync, k, a, b, clocks[i], wall);
    }
  }

  /** There are such states. */
  lemma SomeSwitch(k: Key) returns (a: Store, b: Store)
    requires k.Tracked? && !k.kind.ErrorsKind?
    ensures Switch(k, a, b)
  {
    a, b := map[k := Object(Some("1"), Some(Manifest(None, 1)))], map[k := Object(Some("2"), Some(Manifest(None, 2)))];
    assert "1"[0] != "2"[0];
    forall i, j, c | 0 <= i < 2 && 0 <= j < 2 ensures SameContent(c, [a, b][i], [a, b][j]) { }
  }
}
