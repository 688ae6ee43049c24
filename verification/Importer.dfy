/** `import_bundle` as the source runs it: preflight, then day by day, object by object.
    Every method is proved to do what `ImportSpec` says, up to the write a crash cuts off. */
module Importer {
  import opened Wrappers
  import opened Collections
  import opened Control
  import opened Coverage
  import opened Projection
  import opened Archive
  import opened ImportSpec
  import opened ImportSafety
  import opened ImportConvergence

  /** `ImportRun`: a destination run as preflight found it and as the import leaves it. */
  datatype ImportRun = ImportRun(source: RunManifest, current: Option<RunManifest>, days: map<int, DayManifest>)

  /** The run's header and markers, as the store has them. */
  ghost predicate Tracks(run: ImportRun, fs: Store, resource: string, runId: RunId)
    requires WellKeyed(fs)
  {
    && run.current == ReadRun(fs, resource, runId)
    && (forall date :: date in run.days ==> run.days[date].date == date && run.days[date] in DaysIn(fs, resource, runId))
    && (forall d :: d in DaysIn(fs, resource, runId) ==> d.date in run.days && run.days[d.date] == d)
  }

  lemma TracksSame(run: ImportRun, fs: Store, fs': Store, resource: string, runId: RunId)
    requires WellKeyed(fs) && WellKeyed(fs') && Tracks(run, fs, resource, runId)
    requires ReadRun(fs', resource, runId) == ReadRun(fs, resource, runId)
    requires DaysIn(fs', resource, runId) == DaysIn(fs, resource, runId)
    ensures Tracks(run, fs', resource, runId)
  {
  }

  lemma KeyOf<K, V>(m: map<K, V>, v: V) returns (k: K)
    requires v in m.Values
    ensures k in m && m[k] == v
  {
    k :| k in m && m[k] == v;
  }

  function Projected(run: ImportRun, day: DayManifest): map<int, DayManifest> {
    run.days[day.date := day]
  }

  lemma ProjectedDays(run: ImportRun, fs: Store, resource: string, runId: RunId, day: DayManifest)
    requires WellKeyed(fs) && Tracks(run, fs, resource, runId)
    ensures Projected(run, day).Values == WithDay(DaysIn(fs, resource, runId), day)
    ensures OnePerDate(Projected(run, day).Values)
  {
    var days := Projected(run, day);
    forall d ensures d in days.Values <==> d in WithDay(DaysIn(fs, resource, runId), day) {
      if d in days.Values {
        var date := KeyOf(days, d);
      }
      if d in WithDay(DaysIn(fs, resource, runId), day) {
        assert d.date in days && days[d.date] == d;
      }
    }
  }

  class Destination {
    const b: Bundle
    var fs: Store
    var fuse: nat

    ghost predicate Valid()
      reads this
    {
      WellKeyed(fs) && Sound(b)
    }

    /** The state as the specification has it. */
    ghost function Now(ok: bool): Machine
      reads this
    {
      Machine(fs, fuse, !ok)
    }

    constructor (b: Bundle, fs: Store, fuse: nat)
      requires WellKeyed(fs) && Sound(b)
      ensures Valid() && this.b == b && this.fs == fs && this.fuse == fuse
    {
      this.b, this.fs, this.fuse := b, fs, fuse;
    }

    /** One atomic object write; false when the process dies first. */
    method Put(k: Key, o: Object) returns (ok: bool)
      modifies this
      ensures Now(ok) == Write(old(Now(true)), k, o)
    {
      if fuse == 0 {
        return false;
      }
      fs, fuse := fs[k := o], fuse - 1;
      return true;
    }

    method PutMissing(k: Key) returns (ok: bool)
      requires Packed(b, k)
      modifies this
      ensures Now(ok) == ImportSpec.PutMissing(old(Now(true)), b, k)
    {
      if k in fs {
        return fs[k].digest == b.objects[k];
      }
      ok := Put(k, b.members[k]);
    }

    method PutAll(keys: seq<Key>) returns (ok: bool)
      requires forall k :: k in keys ==> Packed(b, k)
      modifies this
      ensures Now(ok) == ImportSpec.PutAll(old(Now(true)), b, keys, |keys|)
    {
      ok := true;
      for i := 0 to |keys|
        invariant ok && Now(true) == ImportSpec.PutAll(old(Now(true)), b, keys, i)
      {
        ok := PutMissing(keys[i]);
        if !ok {
          StaysStopped(old(Now(true)), keys, i + 1);
          return;
        }
      }
    }

    lemma {:induction false} StaysStopped(m: Machine, keys: seq<Key>, i: nat)
      requires i <= |keys| && (forall k :: k in keys ==> Packed(b, k)) && ImportSpec.PutAll(m, b, keys, i).stopped
      ensures ImportSpec.PutAll(m, b, keys, |keys|) == ImportSpec.PutAll(m, b, keys, i)
      decreases |keys| - i
    {
      if i < |keys| { StaysStopped(m, keys, i + 1); }
    }

    method CheckObjects(keys: seq<Key>) returns (ok: bool)
      ensures ok == Checked(fs, b, keys)
    {
      for i := 0 to |keys|
        invariant forall j :: 0 <= j < i ==> keys[j] in fs && keys[j] in b.objects && fs[keys[j]].digest == b.objects[keys[j]]
      {
        if keys[i] !in fs || keys[i] !in b.objects || fs[keys[i]].digest != b.objects[keys[i]] {
          assert keys[i] in keys;
          return false;
        }
      }
      return true;
    }

    /** The run summary, from the state kept since preflight. */
    method PutRun(e: BundleDay, run: ImportRun) returns (ok: bool, next: ImportRun)
      requires Valid() && SoundDay(b, e) && run.source == RunIn(b, e) && Tracks(run, fs, e.resource, e.run)
      modifies this
      ensures Now(ok) == ImportSpec.PutRun(old(Now(true)), b, e)
      ensures ok ==> next.source == run.source && next.current == ReadRun(fs, e.resource, e.run)
                     && next.days == Projected(run, DayIn(b, e))
    {
      var day := DayIn(b, e);
      var days := Projected(run, day);
      var listing := Enumerate(days.Values);
      ProjectedDays(run, fs, e.resource, e.run, day);
      SummaryOf(run.source, days.Values, listing);
      var projected := ProjectImportRun(run.source, listing);
      if projected.None? || ReadRun(fs, e.resource, e.run) != run.current {
        return false, run;
      }
      next := ImportRun(run.source, projected, days);
      if projected == run.current {
        return true, next;
      }
      ok := Put(e.RunOf(), Written(Run(projected.value)));
    }

    /** Files, then pages, each checked once they are all there. */
    method PutObjects(e: BundleDay) returns (ok: bool)
      requires Valid() && SoundDay(b, e)
      modifies this
      ensures Now(ok) == ImportSpec.PutObjects(old(Now(true)), b, e)
    {
      KeysPacked(b, e);
      var files, metadata := Files(e.objects), Metadata(e, e.objects);
      ok := PutAll(files);
      if ok {
        ok := CheckObjects(files);
      }
      if ok {
        ok := VerifyCommitted(fs, e, DayIn(b, e));
      }
      if !ok {
        StoppedAll(old(Now(true)), b, e);
        return;
      }
      ok := PutAll(metadata);
      if ok {
        ok := CheckObjects(metadata);
      }
    }

    static lemma StoppedAll(m: Machine, b: Bundle, e: BundleDay)
      requires SoundDay(b, e)
      ensures (KeysPacked(b, e);
               var files := Files(e.objects);
               var m1 := ImportSpec.PutAll(m, b, files, |files|);
               var m2 := StopUnless(m1, Checked(m1.fs, b, files) && Verified(m1.fs, e, DayIn(b, e)));
               m2.stopped ==> ImportSpec.PutObjects(m, b, e) == m2)
    {
      KeysPacked(b, e);
      var files, metadata := Files(e.objects), Metadata(e, e.objects);
      var m1 := ImportSpec.PutAll(m, b, files, |files|);
      var m2 := StopUnless(m1, Checked(m1.fs, b, files) && Verified(m1.fs, e, DayIn(b, e)));
      if m2.stopped { NothingMore(m2, b, metadata, |metadata|); }
    }

    static lemma {:induction false} NothingMore(m: Machine, b: Bundle, keys: seq<Key>, n: nat)
      requires n <= |keys| && (forall k :: k in keys ==> Packed(b, k)) && m.stopped
      ensures ImportSpec.PutAll(m, b, keys, n) == m
    {
      if n > 0 { NothingMore(m, b, keys, n - 1); }
    }

    /** `commit_day_manifest` and the checks after it. */
    method CommitDay(e: BundleDay) returns (ok: bool)
      requires Valid() && SoundDay(b, e)
      modifies this
      ensures Now(ok) == ImportSpec.Finish(old(Now(true)), b, e)
    {
      assert Packed(b, e.MarkerOf());
      ok := Put(e.MarkerOf(), Written(Day(DayIn(b, e))));
      if ok {
        ok := VerifyCommitted(fs, e, DayIn(b, e));
      }
    }

    /* Preflight. */

    /** One destination run against the summaries a crash may have left. */
    method PreflightRun(e: BundleDay) returns (ok: bool, run: ImportRun)
      requires Valid() && e in b.days
      ensures ok == RunCompatible(fs, b, e)
      ensures ok ==> run.source == RunIn(b, e) && Tracks(run, fs, e.resource, e.run)
    {
      assert SoundDay(b, e);
      var source, current := RunIn(b, e), ReadRun(fs, e.resource, e.run);
      run := ImportRun(source, current, map[]);
      var days := ListDays(fs, e.resource, e.run);
      ListsRunDays(fs, e.resource, e.run, days);
      var finished := AllSuccess(days);
      if !finished {
        return false, run;
      }
      var computed, candidates := Candidates(fs, b, e, days);
      if !computed || (current.Some? && current.value !in candidates) {
        return false, run;
      }
      return true, ImportRun(source, current, ByDate(days));
    }

    /** Does the destination hold other data for a planned day than the archive? */
    method DayConflicts(e: BundleDay) returns (conflict: bool)
      requires SoundDay(b, e)
      ensures conflict == (ExtraFile(fs, e) || Different(fs, b, e))
    {
      var extra := set k | k in fs && e.OwnsFile(k) && k !in e.objects;
      if extra != {} {
        assert exists k :: k in extra;
        return true;
      }
      for i := 0 to |e.objects|
        invariant forall j :: 0 <= j < i && e.objects[j] != e.RunOf() && e.objects[j] in fs ==>
                    fs[e.objects[j]].digest == b.objects[e.objects[j]]
      {
        var k := e.objects[i];
        assert k in e.objects;
        if k != e.RunOf() && k in fs && fs[k].digest != b.objects[k] {
          return true;
        }
      }
      assert forall k :: k in fs && e.OwnsFile(k) && k !in e.objects ==> k in extra;
      return false;
    }

    /** Is a day to be imported, and may it be? */
    method PlanDay(e: BundleDay, day: CoverageDay) returns (clean: bool, open: bool)
      requires Valid() && SoundDay(b, e) && day.date == e.date && Covers(fs, e.resource, b.lo, b.hi, day)
      ensures clean == DayClean(fs, b, e)
      ensures open == (!Effective(fs, b, e) && ActiveRuns(fs, e.resource, e.date) == {})
    {
      ReadDayOf(fs, b, e, day);
      if day.effective.Some? {
        return true, false;
      }
      if day.active != [] {
        return false, false;
      }
      var conflict := DayConflicts(e);
      return !conflict, true;
    }

    /** The days to import; `clean` is false when one is blocked or conflicts. */
    method PlanDays(coverage: map<string, seq<CoverageDay>>) returns (clean: bool, planned: seq<BundleDay>)
      requires Valid()
      requires forall e :: e in b.days ==> e.resource in coverage && YearCovered(fs, e.resource, b.lo, b.hi, coverage[e.resource])
      ensures planned == Planned(fs, b, |b.days|) && clean == DaysClean(fs, b, |b.days|)
    {
      clean, planned := true, [];
      for i := 0 to |b.days|
        invariant PlanIs(fs, b, i, planned, clean)
      {
        var e := b.days[i];
        assert e in b.days && SoundDay(b, e);
        var year := coverage[e.resource];
        assert YearCovered(fs, e.resource, b.lo, b.hi, year);
        var ok, open := PlanDay(e, year[e.date - b.lo]);
        PlanNext(fs, b, i, planned, clean, open, ok);
        if open {
          planned := planned + [e];
        }
        clean := clean && ok;
      }
    }

    /** The runs of the planned days, each looked at once. */
    method PlanRuns(planned: seq<BundleDay>) returns (ok: bool, runs: map<Key, ImportRun>)
      requires Valid() && forall e :: e in planned ==> e in b.days
      ensures ok <==> forall e :: e in planned ==> e in b.days && RunCompatible(fs, b, e)
      ensures ok ==> RunsReady(fs, b, planned, runs)
    {
      runs := map[];
      for i := 0 to |planned|
        invariant RunsKnown(fs, b, runs)
        invariant forall j :: 0 <= j < i ==> planned[j].RunOf() in runs
      {
        var e := planned[i];
        assert e in planned && e in b.days;
        if e.RunOf() !in runs {
          var run;
          ok, run := PreflightRun(e);
          if !ok {
            return;
          }
          CheckedRun(fs, b, e, run);
          runs := runs[e.RunOf() := run];
        }
      }
      forall e | e in planned ensures e.RunOf() in runs && RunCompatible(fs, b, e) {
        assert RunChecked(fs, b, e.RunOf(), runs[e.RunOf()]);
      }
      ok := true;
    }

    method Preflight() returns (clean: bool, planned: seq<BundleDay>, runs: map<Key, ImportRun>)
      requires Valid() && b.lo <= b.hi && forall e :: e in b.days ==> e.resource in b.resources
      ensures planned == Planned(fs, b, |b.days|) && clean == Clean(fs, b)
      ensures clean ==> RunsReady(fs, b, planned, runs)
    {
      var coverage := ScanCoverage(fs, b.resources, b.lo, b.hi);
      clean, planned := PlanDays(coverage);
      PlannedMeaning(fs, b, |b.days|);
      assert b.days[..|b.days|] == b.days;
      var ok;
      ok, runs := PlanRuns(planned);
      CleanMeaning(fs, b);
      clean := clean && ok;
    }

    /* The import. */

    /** One planned day, with the state of its run. */
    method ImportDay(e: BundleDay, run: ImportRun) returns (ok: bool, next: ImportRun)
      requires Valid() && SoundDay(b, e) && run.source == RunIn(b, e) && Tracks(run, fs, e.resource, e.run)
      modifies this
      ensures Valid() && Now(ok) == ImportSpec.ImportDay(old(Now(true)), b, e)
      ensures ok ==> next.source == run.source && Tracks(next, fs, e.resource, e.run)
      ensures OutsideSame(old(fs), fs, e)
    {
      ghost var before := Now(true);
      next := run;
      OutsideKept(before, b, e);
      ok := PutObjects(e);
      if !ok {
        StoppedDay(Now(false), b, e);
        return;
      }
      ControlKept(before, b, e);
      TracksSame(run, before.fs, fs, e.resource, e.run);
      ghost var put := Now(true);
      ok, next := PutRun(e, run);
      if !ok {
        StoppedDay(Now(false), b, e);
        return;
      }
      ghost var prepared := Now(true);
      ok := CommitDay(e);
      if ok {
        CommittedRun(put, prepared, b, e, run, next);
      }
    }

    /** The planned days in order. */
    method ImportPlanned(planned: seq<BundleDay>, states: map<Key, ImportRun>) returns (ok: bool)
      requires Valid() && (forall e :: e in planned ==> SoundDay(b, e)) && RunsTracked(fs, b, planned, states)
      modifies this
      ensures Valid() && Now(ok) == ImportDays(old(Now(true)), b, planned, 0)
    {
      ghost var m0 := Now(true);
      var runs := states;
      for i := 0 to |planned|
        invariant Valid() && ImportDays(Now(true), b, planned, i) == ImportDays(m0, b, planned, 0)
        invariant RunsTracked(fs, b, planned, runs)
      {
        var e := planned[i];
        assert e in planned;
        ghost var before := Now(true);
        var run;
        ok, run := ImportDay(e, runs[e.RunOf()]);
        ghost var after := Now(ok);
        assert ImportDays(before, b, planned, i) == ImportDays(after, b, planned, i + 1);
        if !ok {
          StoppedDays(after, b, planned, i + 1);
          return;
        }
        RunsTrackedNext(before.fs, fs, b, planned, runs, e, run);
        runs := runs[e.RunOf() := run];
      }
      ok := true;
    }

    /** The whole import: what it writes is what the specification writes. It returns
        normally only when it was not stopped and readers take the imported days, and from
        a destination without the bundle's runs exactly when it was not stopped; the header
        of each imported run is then right about the days that came in. */
    method ImportBundle() returns (ok: bool)
      requires WellKeyed(fs) && Archive.Valid(b) && Valid()
      modifies this
      ensures Valid()
      ensures var m := Import(old(fs), b, old(fuse)); fs == m.fs && fuse == m.fuse && (ok ==> !m.stopped)
      ensures NoneOf(old(fs), b) && !Import(old(fs), b, old(fuse)).stopped ==> ok
      ensures ok ==> forall e :: e in Planned(old(fs), b, |b.days|) ==> OwnEffective(fs, b, e)
      ensures ok && NoneOf(old(fs), b) ==> HeadersRight(old(fs), fs, b) == true
    {
      ghost var fs0, fuse0 := fs, fuse;
      ValidIsSound(b);
      ResourcesNamed(b);
      var clean, planned, runs := Preflight();
      if !clean {
        return false;
      }
      PlannedMeaning(fs, b, |b.days|);
      assert b.days[..|b.days|] == b.days;
      ReadyTracked(fs, b, planned, runs);
      ok := ImportPlanned(planned, runs);
      if ok {
        if NoneOf(fs0, b) {
          ImportedAlone(fs0, b, fuse0);
          ImportedOnce(fs0, b, fuse0);
        }
        ok := ConfirmCoverage(planned);
      }
    }

    /** `_confirm_coverage`: the effective attempts are the imported ones. */
    method ConfirmCoverage(planned: seq<BundleDay>) returns (ok: bool)
      requires Valid() && b.lo <= b.hi && forall e :: e in planned ==> SoundDay(b, e) && e.resource in b.resources
      ensures (forall e :: e in planned ==> AloneCommitted(fs, b, e)) ==> ok
      ensures ok ==> forall e :: e in planned ==> OwnEffective(fs, b, e)
    {
      var coverage := ScanCoverage(fs, b.resources, b.lo, b.hi);
      for i := 0 to |planned|
        invariant forall j :: 0 <= j < i ==> OwnEffective(fs, b, planned[j])
      {
        var e := planned[i];
        assert SoundDay(b, e);
        ok := Confirms(e, coverage[e.resource]);
        if !ok { return; }
      }
      return true;
    }

    /** The effective attempt of an imported day. */
    method Confirms(e: BundleDay, year: seq<CoverageDay>) returns (ok: bool)
      requires WellKeyed(fs) && b.lo <= e.date <= b.hi && YearCovered(fs, e.resource, b.lo, b.hi, year) == true
      ensures AloneCommitted(fs, b, e) ==> ok
      ensures ok ==> OwnEffective(fs, b, e)
    {
      EffectiveInYear(fs, b, e, year);
      var effective := year[e.date - b.lo].effective;
      ok := effective.Some? && effective.value.runId == e.run;
    }
  }

  /** An effective attempt of the day is the bundle's. */
  ghost predicate OwnEffective(fs: Store, b: Bundle, e: BundleDay)
    requires WellKeyed(fs)
  {
    exists d: DayManifest :: IsLatest(Committed(Attempts(fs, e.resource, b.lo, b.hi, e.date)), Some(d)) && d.runId == e.run
  }

  ghost predicate HeadersRight(fs0: Store, fs: Store, b: Bundle)
    requires WellKeyed(fs0) && WellKeyed(fs) && Sound(b)
  {
    forall e :: e in b.days && e in Planned(fs0, b, |b.days|) ==> HeaderRight(fs0, fs, b, e)
  }

  lemma ImportedOnce(fs0: Store, b: Bundle, fuse: nat)
    requires WellKeyed(fs0) && Archive.Valid(b) && NoneOf(fs0, b) && Sound(b) && !Import(fs0, b, fuse).stopped
    ensures HeadersRight(fs0, Import(fs0, b, fuse).fs, b)
  {
    ImportedHeaders(fs0, b, [], fuse);
  }

  lemma EffectiveInYear(fs: Store, b: Bundle, e: BundleDay, year: seq<CoverageDay>)
    requires WellKeyed(fs) && b.lo <= e.date <= b.hi && YearCovered(fs, e.resource, b.lo, b.hi, year) == true
    ensures e.date - b.lo < |year|
    ensures var day := year[e.date - b.lo];
            && (day.effective.Some? && day.effective.value.runId == e.run ==> OwnEffective(fs, b, e))
            && (AloneCommitted(fs, b, e) ==> day.effective.Some? && day.effective.value.runId == e.run)
  {
  }

  lemma ResourcesNamed(b: Bundle)
    requires DaysValid(b, b.days)
    ensures forall e :: e in b.days ==> e.resource in b.resources
  {
  }

  method AllSuccess(days: seq<DayManifest>) returns (ok: bool)
    ensures ok <==> forall d :: d in days ==> d.status == Success
  {
    for i := 0 to |days|
      invariant forall j :: 0 <= j < i ==> days[j].status == Success
    {
      if days[i].status != Success {
        assert days[i] in days;
        return false;
      }
    }
    return true;
  }

  /** The day markers of a run, by date. */
  function ByDate(days: seq<DayManifest>): (m: map<int, DayManifest>)
    requires DistinctDates(days)
    ensures forall d :: d in days ==> d.date in m && m[d.date] == d
    ensures forall date :: date in m ==> m[date].date == date && m[date] in days
  {
    map i | 0 <= i < |days| :: days[i].date := days[i]
  }

  lemma ListsRunDays(fs: Store, resource: string, run: RunId, days: seq<DayManifest>)
    requires WellKeyed(fs)
    requires forall d :: d in days <==> d.runId == run && HasDay(fs, resource, d)
    requires forall i, j :: 0 <= i < j < |days| ==> days[i].date != days[j].date
    ensures Lists(days, DaysIn(fs, resource, run)) && OnePerDate(DaysIn(fs, resource, run))
  {
  }

  /* The candidate summaries over the first `i` days of the bundle. */

  ghost function WithPending(fs: Store, b: Bundle, e: BundleDay, p: BundleDay): Option<RunManifest>
    requires WellKeyed(fs) && RunAt(b.members, e).Some? && DayAt(b.members, p).Some?
  {
    Summary(RunIn(b, e), DaysIn(fs, e.resource, e.run) + {DayIn(b, p)})
  }

  ghost predicate Computed(fs: Store, b: Bundle, e: BundleDay, i: nat)
    requires WellKeyed(fs) && Sound(b) && e in b.days && i <= |b.days|
  {
    forall j :: 0 <= j < i && Pending(fs, b, e, b.days[j]) ==> WithPending(fs, b, e, b.days[j]).Some?
  }

  ghost predicate Offered(fs: Store, b: Bundle, e: BundleDay, i: nat, s: RunManifest)
    requires WellKeyed(fs) && Sound(b) && e in b.days && i <= |b.days|
  {
    exists j :: 0 <= j < i && Pending(fs, b, e, b.days[j]) && WithPending(fs, b, e, b.days[j]) == Some(s)
  }

  lemma OfferedNext(fs: Store, b: Bundle, e: BundleDay, i: nat)
    requires WellKeyed(fs) && Sound(b) && e in b.days && i < |b.days|
    ensures b.days[i] in b.days
    ensures Computed(fs, b, e, i + 1) <==>
              Computed(fs, b, e, i) && (Pending(fs, b, e, b.days[i]) ==> WithPending(fs, b, e, b.days[i]).Some?)
    ensures forall s :: Offered(fs, b, e, i + 1, s) <==>
              Offered(fs, b, e, i, s) || (Pending(fs, b, e, b.days[i]) && WithPending(fs, b, e, b.days[i]) == Some(s))
  {
  }

  /** All days of the bundle offer what the specification names. */
  lemma OfferedAll(fs: Store, b: Bundle, e: BundleDay)
    requires WellKeyed(fs) && Sound(b) && e in b.days
    ensures Computed(fs, b, e, |b.days|) <==> forall p :: Pending(fs, b, e, p) ==> WithPending(fs, b, e, p).Some?
    ensures forall s :: Offered(fs, b, e, |b.days|, s) <==>
              exists p :: Pending(fs, b, e, p) && WithPending(fs, b, e, p) == Some(s)
  {
    forall p | Pending(fs, b, e, p) ensures exists j :: 0 <= j < |b.days| && b.days[j] == p { }
    forall j | 0 <= j < |b.days| ensures b.days[j] in b.days { }
  }

  /** A pending day's summary, as the source computes it. */
  lemma ListedWithPending(fs: Store, b: Bundle, e: BundleDay, p: BundleDay, days: seq<DayManifest>)
    requires WellKeyed(fs) && RunAt(b.members, e).Some? && SoundDay(b, p)
    requires Lists(days, DaysIn(fs, e.resource, e.run)) && DistinctDates(days)
    requires forall d :: d in days ==> d.date != p.date
    ensures ProjectImportRun(RunIn(b, e), days + [DayIn(b, p)]) == WithPending(fs, b, e, p)
  {
    var committed := DaysIn(fs, e.resource, e.run);
    assert Packed(b, p.MarkerOf());
    assert OnePerDate(committed + {DayIn(b, p)}) by {
      forall c, d | c in committed && d in committed && c.date == d.date ensures c == d { assert c in days && d in days; }
    }
    SummaryOf(RunIn(b, e), committed + {DayIn(b, p)}, days + [DayIn(b, p)]);
  }

  method HasDate(days: seq<DayManifest>, date: int) returns (found: bool)
    ensures found <==> exists d :: d in days && d.date == date
  {
    for i := 0 to |days|
      invariant forall j :: 0 <= j < i ==> days[j].date != date
    {
      if days[i].date == date {
        assert days[i] in days;
        return true;
      }
    }
    return false;
  }

  /** The summaries with each pending day of the run added to `base`. */
  method PendingCandidates(fs: Store, b: Bundle, e: BundleDay, days: seq<DayManifest>, base: seq<RunManifest>)
    returns (computed: bool, candidates: seq<RunManifest>)
    requires WellKeyed(fs) && Sound(b) && e in b.days
    requires Lists(days, DaysIn(fs, e.resource, e.run)) && DistinctDates(days)
    ensures computed == Computed(fs, b, e, |b.days|)
    ensures computed ==> forall s :: s in candidates <==> s in base || Offered(fs, b, e, |b.days|, s)
  {
    assert SoundDay(b, e);
    candidates := base;
    for i := 0 to |b.days|
      invariant Computed(fs, b, e, i)
      invariant forall s :: s in candidates <==> s in base || Offered(fs, b, e, i, s)
    {
      OfferedNext(fs, b, e, i);
      var p := b.days[i];
      var listed := HasDate(days, p.date);
      if p.RunOf() == e.RunOf() && !listed {
        assert Pending(fs, b, e, p) && SoundDay(b, p);
        ListedWithPending(fs, b, e, p, days);
        var projected := ProjectImportRun(RunIn(b, e), days + [DayIn(b, p)]);
        if projected.None? {
          return false, candidates;
        }
        candidates := candidates + [projected.value];
      }
    }
    computed := true;
  }

  /** The list `candidates` of a run; not computed when a projection raises. */
  method Candidates(fs: Store, b: Bundle, e: BundleDay, days: seq<DayManifest>)
    returns (computed: bool, candidates: seq<RunManifest>)
    requires WellKeyed(fs) && Sound(b) && e in b.days
    requires Lists(days, DaysIn(fs, e.resource, e.run)) && DistinctDates(days)
    ensures computed == Summarizable(fs, b, e)
    ensures computed ==> forall s :: s in candidates <==> Candidate(fs, b, e, s)
  {
    assert SoundDay(b, e);
    SummaryOf(RunIn(b, e), DaysIn(fs, e.resource, e.run), days);
    FirstOf(days);
    candidates := [];
    if days != [] {
      var projected := ProjectImportRun(RunIn(b, e), days);
      if projected.None? {
        return false, candidates;
      }
      candidates := [projected.value];
    }
    OfferedAll(fs, b, e);
    computed, candidates := PendingCandidates(fs, b, e, days, candidates);
  }

  lemma FirstOf<T>(items: seq<T>)
    ensures items == [] || items[0] in items
  {
  }

  ghost predicate YearCovered(fs: Store, resource: string, lo: int, hi: int, days: seq<CoverageDay>)
    requires WellKeyed(fs)
  {
    |days| == hi - lo + 1 && forall i :: 0 <= i < |days| ==> days[i].date == lo + i && Covers(fs, resource, lo, hi, days[i])
  }

  /** One `read_coverage` of the year per resource. */
  method ScanCoverage(fs: Store, resources: seq<string>, lo: int, hi: int) returns (coverage: map<string, seq<CoverageDay>>)
    requires WellKeyed(fs) && lo <= hi
    ensures forall r :: r in resources ==> r in coverage && YearCovered(fs, r, lo, hi, coverage[r])
  {
    coverage := map[];
    for i := 0 to |resources|
      invariant forall r :: r in coverage ==> YearCovered(fs, r, lo, hi, coverage[r])
      invariant forall j :: 0 <= j < i ==> resources[j] in coverage
    {
      var days := ReadCoverage(fs, resources[i], lo, hi);
      coverage := coverage[resources[i] := days.value];
    }
  }

  /** What the coverage of a day says about the plan. */
  lemma ReadDayOf(fs: Store, b: Bundle, e: BundleDay, day: CoverageDay)
    requires WellKeyed(fs) && day.date == e.date && Covers(fs, e.resource, b.lo, b.hi, day)
    ensures day.effective.Some? <==> Effective(fs, b, e)
    ensures day.active == [] <==> ActiveRuns(fs, e.resource, e.date) == {}
  {
    FirstOf(day.active);
  }

  /** Neither blocked nor, when planned, in conflict with the archive. */
  ghost predicate DayClean(fs: Store, b: Bundle, e: BundleDay)
    requires WellKeyed(fs)
  {
    && !Blocked(fs, b, e)
    && (!Effective(fs, b, e) && ActiveRuns(fs, e.resource, e.date) == {} ==> !ExtraFile(fs, e) && !Different(fs, b, e))
  }

  ghost predicate DaysClean(fs: Store, b: Bundle, n: nat)
    requires WellKeyed(fs) && n <= |b.days|
  {
    forall j :: 0 <= j < n ==> DayClean(fs, b, b.days[j])
  }

  /** The plan over the first `i` days. */
  ghost predicate PlanIs(fs: Store, b: Bundle, i: nat, planned: seq<BundleDay>, clean: bool)
    requires WellKeyed(fs) && i <= |b.days|
  {
    planned == Planned(fs, b, i) && clean == DaysClean(fs, b, i)
  }

  lemma PlanNext(fs: Store, b: Bundle, i: nat, planned: seq<BundleDay>, clean: bool, open: bool, ok: bool)
    requires WellKeyed(fs) && i < |b.days| && PlanIs(fs, b, i, planned, clean)
    requires ok == DayClean(fs, b, b.days[i])
    requires open == (!Effective(fs, b, b.days[i]) && ActiveRuns(fs, b.days[i].resource, b.days[i].date) == {})
    ensures PlanIs(fs, b, i + 1, if open then planned + [b.days[i]] else planned, clean && ok)
  {
  }

  /** Preflight passes when every day and every planned run does. */
  lemma CleanMeaning(fs: Store, b: Bundle)
    requires WellKeyed(fs) && Sound(b)
    ensures Clean(fs, b) <==> DaysClean(fs, b, |b.days|)
                              && forall e :: e in Planned(fs, b, |b.days|) ==> e in b.days && RunCompatible(fs, b, e)
  {
    PlannedMeaning(fs, b, |b.days|);
    assert b.days[..|b.days|] == b.days;
    AllDaysClean(fs, b);
  }

  lemma AllDaysClean(fs: Store, b: Bundle)
    requires WellKeyed(fs)
    ensures DaysClean(fs, b, |b.days|) <==> forall e :: e in b.days ==> DayClean(fs, b, e)
  {
  }

  /** The run passed its checks and is at hand, for each of its days. */
  ghost predicate RunChecked(fs: Store, b: Bundle, k: Key, run: ImportRun)
    requires WellKeyed(fs) && Sound(b)
  {
    forall p :: p in b.days && p.RunOf() == k ==>
      RunCompatible(fs, b, p) && run.source == RunIn(b, p) && Tracks(run, fs, p.resource, p.run)
  }

  ghost predicate RunsKnown(fs: Store, b: Bundle, runs: map<Key, ImportRun>)
    requires WellKeyed(fs) && Sound(b)
  {
    forall k :: k in runs ==> RunChecked(fs, b, k, runs[k])
  }

  ghost predicate RunsReady(fs: Store, b: Bundle, planned: seq<BundleDay>, runs: map<Key, ImportRun>)
    requires WellKeyed(fs) && Sound(b)
  {
    RunsKnown(fs, b, runs) && forall e :: e in planned ==> e.RunOf() in runs
  }

  /** The checks of a run are the same for each of its days. */
  lemma CheckedRun(fs: Store, b: Bundle, e: BundleDay, run: ImportRun)
    requires WellKeyed(fs) && Sound(b) && e in b.days && RunCompatible(fs, b, e)
    requires run.source == RunIn(b, e) && Tracks(run, fs, e.resource, e.run)
    ensures RunChecked(fs, b, e.RunOf(), run)
  {
    forall p | p in b.days && p.RunOf() == e.RunOf()
      ensures RunCompatible(fs, b, p) && run.source == RunIn(b, p) && Tracks(run, fs, p.resource, p.run)
    {
      CompatibleOfRun(fs, b, e, p);
    }
  }

  lemma CompatibleOfRun(fs: Store, b: Bundle, p: BundleDay, e: BundleDay)
    requires WellKeyed(fs) && Sound(b) && p in b.days && e in b.days && p.RunOf() == e.RunOf() && RunCompatible(fs, b, p)
    ensures RunCompatible(fs, b, e)
  {
    assert forall q :: Pending(fs, b, p, q) <==> Pending(fs, b, e, q);
  }

  /* What one day's import leaves of the other runs. */

  /** Headers and markers of other runs are as they were. */
  ghost predicate OutsideSame(fs: Store, fs': Store, e: BundleDay) {
    forall k: Key :: (k.RunKey? || k.DayKey?) && !(k.resource == e.resource && k.run == e.run) ==>
      (k in fs' <==> k in fs) && (k in fs && k in fs' ==> fs'[k] == fs[k])
  }

  ghost predicate ControlSame(fs: Store, fs': Store) {
    forall k: Key :: k.RunKey? || k.DayKey? ==> (k in fs' <==> k in fs) && (k in fs && k in fs' ==> fs'[k] == fs[k])
  }

  lemma {:induction false} PutAllControl(m: Machine, b: Bundle, keys: seq<Key>, n: nat)
    requires n <= |keys| && forall k :: k in keys ==> Packed(b, k) && !k.RunKey? && !k.DayKey?
    ensures ControlSame(m.fs, ImportSpec.PutAll(m, b, keys, n).fs)
  {
    if n > 0 { PutAllControl(m, b, keys, n - 1); }
  }

  lemma PutObjectsControl(m: Machine, b: Bundle, e: BundleDay)
    requires SoundDay(b, e)
    ensures ControlSame(m.fs, ImportSpec.PutObjects(m, b, e).fs)
  {
    KeysPacked(b, e);
    FilesMeaning(e.objects);
    MetadataMeaning(e, e.objects);
    var files, metadata := Files(e.objects), Metadata(e, e.objects);
    var m1 := ImportSpec.PutAll(m, b, files, |files|);
    var m2 := StopUnless(m1, Checked(m1.fs, b, files) && Verified(m1.fs, e, DayIn(b, e)));
    forall k | k in metadata ensures !k.RunKey? && !k.DayKey? { assert Shape(e, k); }
    PutAllControl(m, b, files, |files|);
    PutAllControl(m2, b, metadata, |metadata|);
  }

  lemma ControlKept(m: Machine, b: Bundle, e: BundleDay)
    requires SoundDay(b, e) && WellKeyed(m.fs)
    ensures var fs' := ImportSpec.PutObjects(m, b, e).fs;
            ReadRun(fs', e.resource, e.run) == ReadRun(m.fs, e.resource, e.run)
            && DaysIn(fs', e.resource, e.run) == DaysIn(m.fs, e.resource, e.run)
  {
    PutObjectsControl(m, b, e);
    var fs' := ImportSpec.PutObjects(m, b, e).fs;
    forall d ensures HasDay(fs', e.resource, d) <==> HasDay(m.fs, e.resource, d) {
      var k := DayKey(e.resource, d.runId, d.date);
      assert k in fs' <==> k in m.fs;
    }
  }

  lemma OutsideKept(m: Machine, b: Bundle, e: BundleDay)
    requires SoundDay(b, e) && WellKeyed(m.fs)
    ensures OutsideSame(m.fs, ImportSpec.ImportDay(m, b, e).fs, e)
  {
    PutObjectsControl(m, b, e);
    var put := ImportSpec.PutObjects(m, b, e);
    PutRunOnly(put, b, e);
    FinishOnly(ImportSpec.PutRun(put, b, e), b, e);
  }

  lemma PutRunOnly(m: Machine, b: Bundle, e: BundleDay)
    requires SoundDay(b, e) && WellKeyed(m.fs)
    ensures forall k :: k != e.RunOf() ==>
              (k in ImportSpec.PutRun(m, b, e).fs <==> k in m.fs) && (k in m.fs ==> ImportSpec.PutRun(m, b, e).fs[k] == m.fs[k])
  {
  }

  lemma FinishOnly(m: Machine, b: Bundle, e: BundleDay)
    requires SoundDay(b, e) && WellKeyed(m.fs)
    ensures forall k :: k != e.MarkerOf() ==>
              (k in Finish(m, b, e).fs <==> k in m.fs) && (k in m.fs ==> Finish(m, b, e).fs[k] == m.fs[k])
  {
  }

  lemma StoppedDay(m: Machine, b: Bundle, e: BundleDay)
    requires SoundDay(b, e) && WellKeyed(m.fs) && m.stopped
    ensures ImportSpec.PutRun(m, b, e) == m && ImportSpec.Finish(m, b, e) == m
  {
  }

  lemma StoppedImport(m: Machine, b: Bundle, e: BundleDay)
    requires SoundDay(b, e) && WellKeyed(m.fs) && m.stopped
    ensures ImportSpec.ImportDay(m, b, e) == m
  {
    StoppedObjects(m, b, e);
    StoppedDay(m, b, e);
  }

  lemma {:induction false} StoppedDays(m: Machine, b: Bundle, days: seq<BundleDay>, i: nat)
    requires WellKeyed(m.fs) && i <= |days| && (forall e :: e in days ==> SoundDay(b, e)) && m.stopped
    ensures ImportDays(m, b, days, i) == m
    decreases |days| - i
  {
    if i < |days| {
      var e := days[i];
      assert e in days;
      StoppedImport(m, b, e);
      assert ImportDays(m, b, days, i) == ImportDays(ImportSpec.ImportDay(m, b, e), b, days, i + 1);
      StoppedDays(m, b, days, i + 1);
    }
  }

  lemma StoppedObjects(m: Machine, b: Bundle, e: BundleDay)
    requires SoundDay(b, e) && m.stopped
    ensures ImportSpec.PutObjects(m, b, e) == m
  {
    KeysPacked(b, e);
    Destination.NothingMore(m, b, Files(e.objects), |Files(e.objects)|);
    Destination.NothingMore(m, b, Metadata(e, e.objects), |Metadata(e, e.objects)|);
  }

  /** Committing adds the day to those of its run. */
  lemma CommittedDays(put: Machine, prepared: Machine, b: Bundle, e: BundleDay)
    requires SoundDay(b, e) && WellKeyed(put.fs) && prepared == ImportSpec.PutRun(put, b, e)
    requires !Finish(prepared, b, e).stopped
    ensures DaysIn(Finish(prepared, b, e).fs, e.resource, e.run) == WithDay(DaysIn(put.fs, e.resource, e.run), DayIn(b, e))
    ensures ReadRun(Finish(prepared, b, e).fs, e.resource, e.run) == ReadRun(prepared.fs, e.resource, e.run)
  {
    assert Packed(b, e.MarkerOf());
    PutRunOnly(put, b, e);
    FinishOnly(prepared, b, e);
    var m := Finish(prepared, b, e);
    forall d ensures d in DaysIn(m.fs, e.resource, e.run) <==> d in WithDay(DaysIn(put.fs, e.resource, e.run), DayIn(b, e)) {
      var k := DayKey(e.resource, d.runId, d.date);
      assert k in prepared.fs <==> k in put.fs;
      assert k != e.MarkerOf() ==> (k in m.fs <==> k in prepared.fs);
    }
  }

  /** The run state is up to date once its pending day is committed. */
  lemma CommittedRun(put: Machine, prepared: Machine, b: Bundle, e: BundleDay, run: ImportRun, next: ImportRun)
    requires SoundDay(b, e) && WellKeyed(put.fs) && Tracks(run, put.fs, e.resource, e.run)
    requires !put.stopped && !prepared.stopped && prepared == ImportSpec.PutRun(put, b, e)
    requires next.current == ReadRun(prepared.fs, e.resource, e.run) && next.days == Projected(run, DayIn(b, e))
    ensures var m := Finish(prepared, b, e); !m.stopped ==> Tracks(next, m.fs, e.resource, e.run)
  {
    var m := Finish(prepared, b, e);
    if !m.stopped {
      CommittedDays(put, prepared, b, e);
      ProjectedDays(run, put.fs, e.resource, e.run, DayIn(b, e));
      forall date | date in next.days ensures next.days[date].date == date && next.days[date] in DaysIn(m.fs, e.resource, e.run) {
        assert next.days[date] in next.days.Values;
      }
      forall d | d in DaysIn(m.fs, e.resource, e.run) ensures d.date in next.days && next.days[d.date] == d {
        assert d in next.days.Values;
        var date := KeyOf(next.days, d);
      }
    }
  }

  lemma ReadyTracked(fs: Store, b: Bundle, planned: seq<BundleDay>, runs: map<Key, ImportRun>)
    requires WellKeyed(fs) && Sound(b) && RunsReady(fs, b, planned, runs) && forall e :: e in planned ==> e in b.days
    ensures RunsTracked(fs, b, planned, runs)
  {
    forall e | e in planned ensures RunChecked(fs, b, e.RunOf(), runs[e.RunOf()]) { assert e.RunOf() in runs; }
  }

  /** The states of the planned runs agree with the store. */
  ghost predicate RunsTracked(fs: Store, b: Bundle, planned: seq<BundleDay>, runs: map<Key, ImportRun>)
    requires WellKeyed(fs) && forall e :: e in planned ==> SoundDay(b, e)
  {
    forall e :: e in planned && SoundDay(b, e) ==>
      e.RunOf() in runs && runs[e.RunOf()].source == RunIn(b, e) && Tracks(runs[e.RunOf()], fs, e.resource, e.run)
  }

  lemma RunsTrackedNext(fs: Store, fs': Store, b: Bundle, planned: seq<BundleDay>, runs: map<Key, ImportRun>,
                        e: BundleDay, run: ImportRun)
    requires WellKeyed(fs) && WellKeyed(fs') && forall p :: p in planned ==> SoundDay(b, p)
    requires RunsTracked(fs, b, planned, runs) && e in planned && OutsideSame(fs, fs', e)
    requires run.source == RunIn(b, e) && Tracks(run, fs', e.resource, e.run)
    ensures RunsTracked(fs', b, planned, runs[e.RunOf() := run])
  {
    forall p | p in planned && p.RunOf() != e.RunOf() ensures Tracks(runs[p.RunOf()], fs', p.resource, p.run) {
      forall d ensures d in DaysIn(fs', p.resource, p.run) <==> d in DaysIn(fs, p.resource, p.run) {
        var k := DayKey(p.resource, d.runId, d.date);
        assert d.runId == p.run ==> (k in fs' <==> k in fs);
      }
      assert p.RunOf() in fs' <==> p.RunOf() in fs;
    }
  }
}
