/** Crash-safe resume of an import: whatever was cut off before, the next run passes
    preflight, and a run that completes leaves the one possible end state. */
module ImportResume {
  import opened Wrappers
  import opened Collections
  import opened Control
  import opened Coverage
  import opened Projection
  import opened Archive
  import opened ImportSpec
  import opened ImportSafety

  /** The planned days have different markers. */
  ghost predicate OneMarker(plan: set<BundleDay>) {
    forall p, e :: p in plan && e in plan && p.MarkerOf() == e.MarkerOf() ==> p == e
  }

  /** Only data objects differ. */
  ghost predicate ControlSame(fs: Store, fs': Store) {
    forall k :: !IsData(k) ==> Same(fs, fs', k)
  }

  /** Some of a day's own data objects. */
  ghost predicate DataOf(b: Bundle, e: BundleDay, keys: seq<Key>) {
    forall k :: k in keys ==> k in e.objects && IsData(k) && Packed(b, k)
  }

  lemma {:induction false} PutAllKeeps(fs0: Store, b: Bundle, plan: set<BundleDay>, m: Machine, e: BundleDay,
                                       keys: seq<Key>, n: nat)
    requires Parsed(b, plan)
    requires Resumable(fs0, b, plan, m.fs) && e in plan && n <= |keys| && DataOf(b, e, keys)
    ensures Resumable(fs0, b, plan, PutAll(m, b, keys, n).fs) && ControlSame(m.fs, PutAll(m, b, keys, n).fs)
    ensures m.stopped ==> PutAll(m, b, keys, n) == m
  {
    if n > 0 {
      PutAllKeeps(fs0, b, plan, m, e, keys, n - 1);
      var before, k := PutAll(m, b, keys, n - 1), keys[n - 1];
      if !before.stopped && k !in before.fs && before.fuse > 0 {
        DataWrite(fs0, b, plan, before.fs, e, k);
      }
    }
  }

  /** The data and page objects of a day: when nothing stops it, all of them are there. */
  lemma ObjectsKeep(fs0: Store, b: Bundle, plan: set<BundleDay>, m: Machine, e: BundleDay)
    requires Parsed(b, plan)
    requires Resumable(fs0, b, plan, m.fs) && e in plan && SoundDay(b, e)
    ensures var next := PutObjects(m, b, e);
            && Resumable(fs0, b, plan, next.fs) && ControlSame(m.fs, next.fs)
            && (m.stopped ==> next == m)
            && (!next.stopped ==> ObjectsIn(next.fs, b, e))
  {
    KeysPacked(b, e);
    MetadataIsData(b, e);
    var files, metadata := Files(e.objects), Metadata(e, e.objects);
    PutAllKeeps(fs0, b, plan, m, e, files, |files|);
    var m1 := PutAll(m, b, files, |files|);
    var m2 := StopUnless(m1, Checked(m1.fs, b, files) && Verified(m1.fs, e, DayIn(b, e)));
    PutAllKeeps(fs0, b, plan, m2, e, metadata, |metadata|);
    var m3 := PutAll(m2, b, metadata, |metadata|);
    if !m2.stopped {
      CheckedObjects(m2.fs, m3.fs, b, e);
    }
  }

  /** Checked files stay, and with checked pages they are the day's data. */
  lemma CheckedObjects(fs: Store, fs': Store, b: Bundle, e: BundleDay)
    requires SoundDay(b, e) && Grows(fs, fs') && Checked(fs, b, Files(e.objects)) && Verified(fs, e, DayIn(b, e))
    ensures Checked(fs', b, Metadata(e, e.objects)) ==> ObjectsIn(fs', b, e)
  {
    VerifiedFrame(fs, fs', e, DayIn(b, e));
    FilesMeaning(e.objects);
    MetadataMeaning(e, e.objects);
  }

  lemma MetadataIsData(b: Bundle, e: BundleDay)
    requires SoundDay(b, e)
    ensures DataOf(b, e, Metadata(e, e.objects)) && DataOf(b, e, Files(e.objects))
  {
    KeysPacked(b, e);
    FilesMeaning(e.objects);
    MetadataMeaning(e, e.objects);
  }

  /** The run summary is brought up to the pending day. */
  lemma RunKeeps(fs0: Store, b: Bundle, plan: set<BundleDay>, m: Machine, e: BundleDay)
    requires Parsed(b, plan) && SoundDay(b, e)
    requires Resumable(fs0, b, plan, m.fs) && e in plan && e.MarkerOf() !in m.fs && !m.stopped
    ensures var next := PutRun(m, b, e);
            && Resumable(fs0, b, plan, next.fs)
            && (forall k :: k != e.RunOf() ==> Same(m.fs, next.fs, k))
            && (!next.stopped ==> PendingSummary(next.fs, b, e))
  {
    assert Packed(b, e.MarkerOf());
    PutRunResult(m, b, e);
    var days := DaysIn(m.fs, e.resource, e.run);
    var projected := Summary(RunIn(b, e), days + {DayIn(b, e)});
    if projected.Some? && ReadRun(m.fs, e.resource, e.run) != projected && m.fuse > 0 {
      SummaryWrite(fs0, b, plan, m.fs, e, projected.value);
      DaysInFrame(m.fs, e.RunOf(), Written(Run(projected.value)), e.resource, e.run);
    }
  }

  /** The run's summary is that of its committed days and this one. */
  ghost predicate PendingSummary(fs: Store, b: Bundle, e: BundleDay)
    requires WellKeyed(fs) && DayAt(b.members, e).Some? && RunAt(b.members, e).Some?
  {
    && e.RunOf() in fs
    && Summary(RunIn(b, e), DaysIn(fs, e.resource, e.run) + {DayIn(b, e)}) == Some(fs[e.RunOf()].content.run)
  }

  lemma PutRunResult(m: Machine, b: Bundle, e: BundleDay)
    requires SoundDay(b, e) && WellKeyed(m.fs) && e.MarkerOf() !in m.fs && !m.stopped
    ensures var projected := Summary(RunIn(b, e), DaysIn(m.fs, e.resource, e.run) + {DayIn(b, e)});
            && (projected.Some? ==> projected.value.resource == e.resource && projected.value.runId == e.run)
            && PutRun(m, b, e) == if projected.None? then Stop(m)
                                  else if ReadRun(m.fs, e.resource, e.run) == projected then m
                                  else Write(m, e.RunOf(), Written(Run(projected.value)))
  {
    var days := DaysIn(m.fs, e.resource, e.run);
    assert Packed(b, e.MarkerOf()) && Packed(b, e.RunOf());
    UnmarkedDate(m.fs, b, e, e);
    assert WithDay(days, DayIn(b, e)) == days + {DayIn(b, e)};
    ProjectedFits(RunIn(b, e), days + {DayIn(b, e)});
  }

  /** Only this day's marker may differ. */
  ghost predicate MarkersSame(fs: Store, fs': Store, e: BundleDay) {
    forall k: Key :: k.DayKey? && k != e.MarkerOf() ==> Same(fs, fs', k)
  }

  /** A day up to its commit. */
  lemma PrepareKeeps(fs0: Store, b: Bundle, plan: set<BundleDay>, m: Machine, e: BundleDay)
    requires Parsed(b, plan) && SoundDay(b, e)
    requires Resumable(fs0, b, plan, m.fs) && e in plan && e.MarkerOf() !in m.fs
    ensures var next := Prepare(m, b, e);
            && Resumable(fs0, b, plan, next.fs)
            && (forall k: Key :: k.DayKey? ==> Same(m.fs, next.fs, k))
            && (m.stopped ==> next.stopped)
            && (!next.stopped ==> ObjectsIn(next.fs, b, e) && PendingSummary(next.fs, b, e))
  {
    ObjectsKeep(fs0, b, plan, m, e);
    var m1 := PutObjects(m, b, e);
    if m1.stopped {
      forall k: Key | k.DayKey? ensures Same(m.fs, m1.fs, k) { assert !IsData(k); }
    } else {
      assert Same(m.fs, m1.fs, e.MarkerOf());
      RunKeeps(fs0, b, plan, m1, e);
      var m2 := PutRun(m1, b, e);
      forall k: Key | k.DayKey? ensures Same(m.fs, m2.fs, k) {
        assert Same(m.fs, m1.fs, k);
        assert Same(m1.fs, m2.fs, k);
      }
      ObjectsStay(m1.fs, m2.fs, b, e);
    }
  }

  lemma FinishResult(m: Machine, b: Bundle, e: BundleDay)
    requires SoundDay(b, e) && WellKeyed(m.fs)
    ensures var next := Finish(m, b, e);
            && next.fs == (if m.stopped || m.fuse == 0 then m.fs else m.fs[e.MarkerOf() := Written(Day(DayIn(b, e)))])
            && (!next.stopped ==> !m.stopped && e.MarkerOf() in next.fs)
            && MarkersSame(m.fs, next.fs, e)
  {
  }

  lemma FinishKeeps(fs0: Store, b: Bundle, plan: set<BundleDay>, m: Machine, e: BundleDay)
    requires Parsed(b, plan) && SoundDay(b, e) && OneMarker(plan)
    requires Resumable(fs0, b, plan, m.fs) && e in plan && e.MarkerOf() !in m.fs
    requires !m.stopped ==> ObjectsIn(m.fs, b, e) && PendingSummary(m.fs, b, e)
    ensures Resumable(fs0, b, plan, Finish(m, b, e).fs)
  {
    assert Packed(b, e.MarkerOf());
    FinishResult(m, b, e);
    if m.fuse > 0 && !m.stopped {
      MarkerWrite(fs0, b, plan, m.fs, e);
    }
  }

  /** One day of the import, cut off anywhere. */
  lemma DayKeeps(fs0: Store, b: Bundle, plan: set<BundleDay>, m: Machine, e: BundleDay)
    requires Parsed(b, plan) && SoundDay(b, e) && OneMarker(plan)
    requires Resumable(fs0, b, plan, m.fs) && e in plan && e.MarkerOf() !in m.fs
    ensures var next := ImportDay(m, b, e);
            && Resumable(fs0, b, plan, next.fs)
            && (!next.stopped ==> !m.stopped && e.MarkerOf() in next.fs)
            && MarkersSame(m.fs, next.fs, e)
  {
    PrepareKeeps(fs0, b, plan, m, e);
    var prepared := Prepare(m, b, e);
    assert Same(m.fs, prepared.fs, e.MarkerOf());
    FinishKeeps(fs0, b, plan, prepared, e);
    FinishResult(prepared, b, e);
    forall k: Key | k.DayKey? && k != e.MarkerOf() ensures Same(m.fs, ImportDay(m, b, e).fs, k) {
      assert Same(m.fs, prepared.fs, k) && Same(prepared.fs, ImportDay(m, b, e).fs, k);
    }
  }

  /* A whole import. */

  ghost predicate DistinctMarkers(days: seq<BundleDay>) {
    forall i, j :: 0 <= i < j < |days| ==> days[i].MarkerOf() != days[j].MarkerOf()
  }

  predicate AmongMarkers(days: seq<BundleDay>, k: Key) {
    exists i :: 0 <= i < |days| && days[i].MarkerOf() == k
  }

  /** An import of `days` begun at `m0`, before the `i`th day. */
  ghost predicate UnderWay(fs0: Store, b: Bundle, plan: set<BundleDay>, m0: Machine, m: Machine, days: seq<BundleDay>, i: nat)
    requires Parsed(b, plan) && i <= |days|
  {
    && Resumable(fs0, b, plan, m.fs)
    && (!m.stopped ==> !m0.stopped && forall j :: 0 <= j < i ==> days[j].MarkerOf() in m.fs)
    && (forall j :: i <= j < |days| ==> days[j].MarkerOf() !in m.fs)
    && (forall k: Key :: k.DayKey? && !AmongMarkers(days, k) ==> Same(m0.fs, m.fs, k))
  }

  lemma DayUnderWay(fs0: Store, b: Bundle, plan: set<BundleDay>, m0: Machine, m: Machine, days: seq<BundleDay>, i: nat)
    requires Parsed(b, plan) && OneMarker(plan) && DistinctMarkers(days)
    requires i < |days| && UnderWay(fs0, b, plan, m0, m, days, i) && days[i] in plan && SoundDay(b, days[i])
    ensures UnderWay(fs0, b, plan, m0, ImportDay(m, b, days[i]), days, i + 1)
  {
    var e := days[i];
    DayKeeps(fs0, b, plan, m, e);
    MarkersNext(m0, m, ImportDay(m, b, e), days, i);
  }

  lemma MarkersNext(m0: Machine, m: Machine, next: Machine, days: seq<BundleDay>, i: nat)
    requires i < |days| && DistinctMarkers(days) && MarkersSame(m.fs, next.fs, days[i])
    requires forall k: Key :: k.DayKey? && !AmongMarkers(days, k) ==> Same(m0.fs, m.fs, k)
    ensures forall k: Key :: k.DayKey? && !AmongMarkers(days, k) ==> Same(m0.fs, next.fs, k)
    ensures forall j :: 0 <= j < |days| && j != i ==> (days[j].MarkerOf() in next.fs <==> days[j].MarkerOf() in m.fs)
  {
  }

  lemma {:induction false} DaysKeep(fs0: Store, b: Bundle, plan: set<BundleDay>, m0: Machine, m: Machine,
                                    days: seq<BundleDay>, i: nat)
    requires Parsed(b, plan) && OneMarker(plan) && DistinctMarkers(days)
    requires i <= |days| && UnderWay(fs0, b, plan, m0, m, days, i) == true
    requires forall e :: e in days ==> e in plan && SoundDay(b, e)
    ensures UnderWay(fs0, b, plan, m0, ImportDays(m, b, days, i), days, |days|) == true
    decreases |days| - i
  {
    if i < |days| {
      assert days[i] in days;
      DayUnderWay(fs0, b, plan, m0, m, days, i);
      var next := ImportDay(m, b, days[i]);
      DaysKeep(fs0, b, plan, m0, next, days, i + 1);
    }
  }
}
