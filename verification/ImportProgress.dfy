/** An import that is given enough writes completes, also after any interrupted ones,
    unless the destination already held other bytes under an archive digest. */
module ImportProgress {
  import opened Wrappers
  import opened Control
  import opened Coverage
  import opened Projection
  import opened Archive
  import opened ImportSpec
  import opened ImportSafety
  import opened ImportResume
  import opened ImportTheorems
  import opened ImportConvergence

  /** Data objects of the bundle hold the archive's content. */
  ghost predicate DataTrue(fs: Store, b: Bundle) {
    forall k :: k in fs && IsData(k) && Packed(b, k) ==> fs[k] == b.members[k]
  }

  lemma PutCompletes(m: Machine, b: Bundle, k: Key)
    requires Packed(b, k) && IsData(k) && !m.stopped && m.fuse >= 1 && DataTrue(m.fs, b)
    ensures var next := PutMissing(m, b, k);
            !next.stopped && next.fuse >= m.fuse - 1 && DataTrue(next.fs, b) && k in next.fs
  {
  }

  lemma {:induction false} PutAllCompletes(m: Machine, b: Bundle, keys: seq<Key>, n: nat)
    requires n <= |keys| && (forall k :: k in keys ==> Packed(b, k) && IsData(k))
    requires !m.stopped && m.fuse >= n && DataTrue(m.fs, b)
    ensures var next := PutAll(m, b, keys, n);
            && !next.stopped && next.fuse >= m.fuse - n && DataTrue(next.fs, b)
            && (forall i :: 0 <= i < n ==> keys[i] in next.fs)
  {
    if n > 0 {
      PutAllCompletes(m, b, keys, n - 1);
      var before, k := PutAll(m, b, keys, n - 1), keys[n - 1];
      assert k in keys;
      PutCompletes(before, b, k);
      assert Grows(before.fs, PutMissing(before, b, k).fs);
    }
  }

  lemma {:induction false} RowsSame(fs: Store, members: Store, keys: seq<Key>)
    requires forall k :: k in keys && k.FileKey? ==> k in fs && k in members && fs[k] == members[k]
    ensures FileRows(fs, keys) == FileRows(members, keys)
  {
    if keys != [] { RowsSame(fs, members, keys[..|keys| - 1]); }
  }

  /** A day's files with the archive's content pass the check the archive passed. */
  lemma FilesVerified(fs: Store, b: Bundle, e: BundleDay)
    requires SoundDay(b, e) && DataTrue(fs, b) && forall k :: k in e.objects && k.FileKey? ==> k in fs
    ensures Verified(fs, e, DayIn(b, e))
  {
    KeysPacked(b, e);
    RowsSame(fs, b.members, e.objects);
  }

  /** The pages and files of a day. */
  lemma ObjectsComplete(m: Machine, b: Bundle, e: BundleDay)
    requires SoundDay(b, e) && !m.stopped && m.fuse >= |Files(e.objects)| + |Metadata(e, e.objects)| && DataTrue(m.fs, b)
    ensures var next := PutObjects(m, b, e);
            && !next.stopped && next.fuse >= m.fuse - |Files(e.objects)| - |Metadata(e, e.objects)|
            && DataTrue(next.fs, b) && (forall k :: k in e.objects && k.FileKey? ==> k in next.fs)
  {
    KeysPacked(b, e);
    FilesMeaning(e.objects);
    MetadataIsData(b, e);
    var files, metadata := Files(e.objects), Metadata(e, e.objects);
    PutAllCompletes(m, b, files, |files|);
    var m1 := PutAll(m, b, files, |files|);
    FilesVerified(m1.fs, b, e);
    assert Checked(m1.fs, b, files);
    PutAllCompletes(m1, b, metadata, |metadata|);
    assert Checked(PutAll(m1, b, metadata, |metadata|).fs, b, metadata);
  }

  function Cost(e: BundleDay): nat {
    |Files(e.objects)| + |Metadata(e, e.objects)| + 2
  }

  lemma DayCompletes(m: Machine, b: Bundle, e: BundleDay)
    requires SoundDay(b, e) && WellKeyed(m.fs) && !m.stopped && m.fuse >= Cost(e) && DataTrue(m.fs, b)
    requires Summary(RunIn(b, e), WithDay(DaysIn(PutObjects(m, b, e).fs, e.resource, e.run), DayIn(b, e))).Some?
    ensures var next := ImportDay(m, b, e); !next.stopped && next.fuse >= m.fuse - Cost(e) && DataTrue(next.fs, b)
  {
    ObjectsComplete(m, b, e);
    var put := PutObjects(m, b, e);
    var prepared := PutRun(put, b, e);
    assert !prepared.stopped && prepared.fuse >= put.fuse - 1;
    assert DataTrue(prepared.fs, b);
    var committed := Commit(prepared, b, e);
    assert !committed.stopped && DataTrue(committed.fs, b);
    FilesVerified(committed.fs, b, e);
  }

  /** Every pending day has a summary. */
  lemma SummaryExists(fs0: Store, b: Bundle, plan: set<BundleDay>, fs: Store, e: BundleDay)
    requires Setting(fs0, b, plan) && Parsed(b, plan) && Resumable(fs0, b, plan, fs) && e in plan && e.MarkerOf() !in fs
    ensures Summary(RunIn(b, e), WithDay(DaysIn(fs, e.resource, e.run), DayIn(b, e))).Some?
  {
    PendingDay(fs0, b, plan, fs, e, e);
    UnmarkedDate(fs, b, e, e);
    assert SoundDay(b, e) && Packed(b, e.MarkerOf());
    var days := DaysIn(fs, e.resource, e.run);
    assert WithDay(days, DayIn(b, e)) == days + {DayIn(b, e)};
    SummaryReaches(RunIn(b, e), days + {DayIn(b, e)}, b.lo, b.hi);
  }

  function CostFrom(days: seq<BundleDay>, i: nat): nat
    requires i <= |days|
    decreases |days| - i
  {
    if i == |days| then 0 else Cost(days[i]) + CostFrom(days, i + 1)
  }

  /** With the writes for one more day left, that day goes through. */
  lemma DayGoesThrough(fs0: Store, b: Bundle, plan: set<BundleDay>, m: Machine, e: BundleDay)
    requires Setting(fs0, b, plan) && Parsed(b, plan) && Resumable(fs0, b, plan, m.fs)
    requires e in plan && SoundDay(b, e) && e.MarkerOf() !in m.fs
    requires !m.stopped && m.fuse >= Cost(e) && DataTrue(m.fs, b)
    ensures var next := ImportDay(m, b, e); !next.stopped && next.fuse >= m.fuse - Cost(e) && DataTrue(next.fs, b)
  {
    ObjectsKeep(fs0, b, plan, m, e);
    assert Same(m.fs, PutObjects(m, b, e).fs, e.MarkerOf());
    SummaryExists(fs0, b, plan, PutObjects(m, b, e).fs, e);
    DayCompletes(m, b, e);
  }

  lemma {:induction false} DaysComplete(fs0: Store, b: Bundle, plan: set<BundleDay>, m0: Machine, m: Machine,
                                        days: seq<BundleDay>, i: nat)
    requires Setting(fs0, b, plan) && Parsed(b, plan) && OneMarker(plan) && DistinctMarkers(days)
    requires i <= |days| && UnderWay(fs0, b, plan, m0, m, days, i) && (forall e :: e in days ==> e in plan && SoundDay(b, e))
    requires !m.stopped && m.fuse >= CostFrom(days, i) && DataTrue(m.fs, b)
    ensures !ImportDays(m, b, days, i).stopped
    decreases |days| - i
  {
    if i < |days| {
      var e := days[i];
      assert e in days;
      DayUnderWay(fs0, b, plan, m0, m, days, i);
      DayGoesThrough(fs0, b, plan, m, e);
      var next := ImportDay(m, b, e);
      DaysComplete(fs0, b, plan, m0, next, days, i + 1);
    }
  }

  /** What a complete import of the whole bundle costs at most. */
  function Budget(b: Bundle): nat { CostFrom(b.days, 0) }

  lemma {:induction false} PlannedCost(fs: Store, b: Bundle, n: nat)
    requires WellKeyed(fs) && n <= |b.days|
    ensures CostFrom(Planned(fs, b, n), 0) + CostFrom(b.days, n) <= Budget(b)
  {
    if n > 0 {
      PlannedCost(fs, b, n - 1);
      OneMorePlanned(fs, b, n - 1, Planned(fs, b, n - 1), Planned(fs, b, n));
    }
  }

  lemma OneMorePlanned(fs: Store, b: Bundle, i: nat, before: seq<BundleDay>, after: seq<BundleDay>)
    requires WellKeyed(fs) && i < |b.days| && before == Planned(fs, b, i) && after == Planned(fs, b, i + 1)
    ensures CostFrom(after, 0) + CostFrom(b.days, i + 1) <= CostFrom(before, 0) + CostFrom(b.days, i)
  {
    PlannedNext(fs, b, i);
    MoreCost(before, after, b.days, i);
  }

  lemma MoreCost(before: seq<BundleDay>, after: seq<BundleDay>, days: seq<BundleDay>, i: nat)
    requires i < |days| && (after == before || after == before + [days[i]])
    ensures CostFrom(after, 0) + CostFrom(days, i + 1) <= CostFrom(before, 0) + CostFrom(days, i)
  {
    CostNext(days, i);
    CostAppend(before, days[i], 0);
  }

  lemma CostNext(days: seq<BundleDay>, i: nat)
    requires i < |days|
    ensures CostFrom(days, i) == Cost(days[i]) + CostFrom(days, i + 1)
  {
  }

  lemma {:induction false} CostAppend(days: seq<BundleDay>, e: BundleDay, i: nat)
    requires i <= |days|
    ensures CostFrom(days + [e], i) == CostFrom(days, i) + Cost(e)
    decreases |days| - i
  {
    if i < |days| { CostAppend(days, e, i + 1); }
  }

  lemma DataStaysTrue(fs0: Store, b: Bundle, plan: set<BundleDay>, fs: Store)
    requires DataTrue(fs0, b) && Untouched(fs0, plan, fs) && DataKept(fs0, b, plan, fs)
    ensures DataTrue(fs, b)
  {
    forall k | k in fs && IsData(k) && Packed(b, k) ensures fs[k] == b.members[k] {
      if Touched(plan, k) {
        var e :| e in plan && k in e.objects;
        if k in fs0 { assert Same(fs0, fs, k); }
      } else {
        assert Same(fs0, fs, k);
      }
    }
  }

  lemma CompletesFrom(fs0: Store, b: Bundle, plan: set<BundleDay>, fs: Store, fuse: nat)
    requires Setting(fs0, b, plan) && Parsed(b, plan) && Resumable(fs0, b, plan, fs) && Clean(fs, b)
    requires DataTrue(fs, b) && fuse >= Budget(b)
    ensures !Import(fs, b, fuse).stopped
  {
    BeginsUnderWay(fs0, b, plan, fs, fuse);
    PlannedCost(fs, b, |b.days|);
    var days, m := Planned(fs, b, |b.days|), Machine(fs, fuse, false);
    DaysComplete(fs0, b, plan, m, m, days, 0);
  }

  /** After any interrupted imports, one with enough writes completes. */
  lemma ImportCompletes(fs0: Store, b: Bundle, fuses: seq<nat>, fuse: nat)
    requires WellKeyed(fs0) && Valid(b) && NoneOf(fs0, b) && Sound(b)
    requires Clean(fs0, b) && DataTrue(fs0, b) && fuse >= Budget(b)
    ensures !Import(Crashes(fs0, b, fuses), b, fuse).stopped
  {
    var plan := Begin(fs0, b);
    CrashesKeep(fs0, b, plan, fs0, fuses);
    var fs := Crashes(fs0, b, fuses);
    CleanKept(fs0, b, plan, fs);
    DataStaysTrue(fs0, b, plan, fs);
    CompletesFrom(fs0, b, plan, fs, fuse);
  }
}
