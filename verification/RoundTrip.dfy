/** Exporting the committed days of a year and importing them into an empty store. */
module RoundTrip {
  import opened Wrappers
  import opened Control
  import opened Coverage
  import opened Projection
  import opened Archive
  import opened ImportSpec
  import opened ImportSafety
  import opened ImportResume
  import opened ImportTheorems
  import opened ImportConvergence
  import opened ImportProgress
  import Export

  const EMPTY_STORE: Store := map[]

  /** Nothing in an empty store stands in the way of an import. */
  lemma EmptyIsClean(b: Bundle)
    requires Archive.Valid(b) && Sound(b)
    ensures WellKeyed(EMPTY_STORE) && NoneOf(EMPTY_STORE, b) && Clean(EMPTY_STORE, b) && DataTrue(EMPTY_STORE, b)
  {
    var plan := Begin(EMPTY_STORE, b);
    forall e | e in b.days ensures !Blocked(EMPTY_STORE, b, e) && !ExtraFile(EMPTY_STORE, e) && !Different(EMPTY_STORE, b, e) {
      NothingThere(b, e);
    }
    PlannedSince(EMPTY_STORE, b, plan, EMPTY_STORE);
    forall e | e in b.days && e in Planned(EMPTY_STORE, b, |b.days|) ensures RunCompatible(EMPTY_STORE, b, e) {
      SummaryAccepted(EMPTY_STORE, b, plan, EMPTY_STORE, e);
    }
  }

  lemma NothingThere(b: Bundle, e: BundleDay)
    ensures WellKeyed(EMPTY_STORE)
    ensures Attempts(EMPTY_STORE, e.resource, b.lo, b.hi, e.date) == {} && ActiveRuns(EMPTY_STORE, e.resource, e.date) == {}
    ensures !Effective(EMPTY_STORE, b, e)
  {
  }

  /** A marker the import brought is one of the bundle's. */
  lemma BundleDayOf(fs0: Store, b: Bundle, plan: set<BundleDay>, fs: Store, r: string, d: DayManifest) returns (e: BundleDay)
    requires Setting(fs0, b, plan) && Parsed(b, plan) && Resumable(fs0, b, plan, fs)
    requires HasDay(fs, r, d) && DayKey(r, d.runId, d.date) !in fs0
    ensures e in b.days && e.resource == r && e.date == d.date && DayIn(b, e) == d
  {
    var k := DayKey(r, d.runId, d.date);
    assert !Same(fs0, fs, k);
    e :| e in plan && k in e.objects;
    assert SoundDay(b, e) && Shape(e, k);
    assert e.MarkerOf() in fs;
  }

  /** What the store holds after the import: the bundle's days and no other attempt. */
  lemma OnlyBundleDays(b: Bundle, fuse: nat, r: string, d: DayManifest)
    requires Archive.Valid(b) && Sound(b) && WellKeyed(EMPTY_STORE)
    requires HasDay(Import(EMPTY_STORE, b, fuse).fs, r, d)
    ensures Selected(b.days, r, d.date) && r in b.resources && b.lo <= d.date <= b.hi
  {
    EmptyIsClean(b);
    var plan := Begin(EMPTY_STORE, b);
    ImportKeeps(EMPTY_STORE, b, plan, EMPTY_STORE, fuse);
    var e := BundleDayOf(EMPTY_STORE, b, plan, Import(EMPTY_STORE, b, fuse).fs, r, d);
    DayListed(b, e);
  }

  lemma DayListed(b: Bundle, e: BundleDay)
    requires DaysValid(b, b.days) && e in b.days
    ensures Selected(b.days, e.resource, e.date) && e.resource in b.resources && b.lo <= e.date <= b.hi
  {
  }

  /** The attempt of an imported day is the bundle's. */
  lemma ImportedAttempts(b: Bundle, fuse: nat, e: BundleDay)
    requires Archive.Valid(b) && Sound(b) && WellKeyed(EMPTY_STORE) && e in b.days && fuse >= Budget(b)
    ensures Attempts(Import(EMPTY_STORE, b, fuse).fs, e.resource, b.lo, b.hi, e.date) == {DayIn(b, e)}
  {
    EmptyIsClean(b);
    ImportCompletes(EMPTY_STORE, b, [], fuse);
    var plan := Begin(EMPTY_STORE, b);
    ImportKeeps(EMPTY_STORE, b, plan, EMPTY_STORE, fuse);
    NothingThere(b, e);
    var fs := Import(EMPTY_STORE, b, fuse).fs;
    assert e in plan && e.MarkerOf() in fs;
    HeaderListed(EMPTY_STORE, b, plan, fs, e);
    assert SoundDay(b, e) && Packed(b, e.MarkerOf());
    assert DayIn(b, e) in Attempts(fs, e.resource, b.lo, b.hi, e.date);
    forall d | d in Attempts(fs, e.resource, b.lo, b.hi, e.date) ensures d == DayIn(b, e) {
      NewAttempt(EMPTY_STORE, b, plan, fs, e, d);
    }
  }

  /** The attempts of a date are again just the attempt that was effective, if any. */
  ghost predicate SameEffective(source: Store, fs: Store, lo: int, hi: int, r: string, date: int)
    requires WellKeyed(source) && WellKeyed(fs)
  {
    var before, after := Committed(Attempts(source, r, lo, hi, date)), Attempts(fs, r, lo, hi, date);
    && (after == {} <==> before == {})
    && (forall d :: d in after ==> after == {d} && IsLatest(before, Some(d)))
  }

  lemma PresentDate(source: Store, b: Bundle, fs: Store, e: BundleDay)
    requires WellKeyed(source) && WellKeyed(fs) && e in b.days && DayAt(b.members, e).Some?
    requires IsLatest(Committed(Attempts(source, e.resource, b.lo, b.hi, e.date)), DayAt(b.members, e))
    requires Attempts(fs, e.resource, b.lo, b.hi, e.date) == {DayIn(b, e)}
    ensures SameEffective(source, fs, b.lo, b.hi, e.resource, e.date)
  {
  }

  lemma MissingDate(source: Store, b: Bundle, fs: Store, r: string, date: int)
    requires WellKeyed(source) && WellKeyed(fs) && Committed(Attempts(source, r, b.lo, b.hi, date)) == {}
    requires forall d: DayManifest :: d.date == date ==> !HasDay(fs, r, d)
    ensures SameEffective(source, fs, b.lo, b.hi, r, date)
  {
  }

  /** Exporting a year and importing it into an empty store: every date of an exported
      resource has the effective attempt it had, with its run and record count, and
      there is no other attempt on any date of any resource. */
  lemma ExportThenImport(source: Store, b: Bundle, fuse: nat, r: string, date: int)
    requires WellKeyed(source) && Export.Exported(source, b) && fuse >= Budget(b) && Sound(b) && WellKeyed(EMPTY_STORE)
    ensures !Import(EMPTY_STORE, b, fuse).stopped
    ensures r in b.resources && b.lo <= date <= b.hi ==>
              SameEffective(source, Import(EMPTY_STORE, b, fuse).fs, b.lo, b.hi, r, date)
    ensures !(r in b.resources && b.lo <= date <= b.hi) ==>
              forall d: DayManifest :: d.date == date ==> !HasDay(Import(EMPTY_STORE, b, fuse).fs, r, d)
  {
    EmptyIsClean(b);
    ImportCompletes(EMPTY_STORE, b, [], fuse);
    forall d: DayManifest | HasDay(Import(EMPTY_STORE, b, fuse).fs, r, d)
      ensures Selected(b.days, r, d.date) && r in b.resources && b.lo <= d.date <= b.hi
    {
      OnlyBundleDays(b, fuse, r, d);
    }
    if i :| 0 <= i < |b.days| && b.days[i].resource == r && b.days[i].date == date {
      EntryComesBack(source, b, fuse, i);
    } else if r in b.resources && b.lo <= date <= b.hi {
      NoCommitThere(source, b, r, date);
      MissingDate(source, b, Import(EMPTY_STORE, b, fuse).fs, r, date);
    }
  }

  /** An exported date has its attempt again. */
  lemma EntryComesBack(source: Store, b: Bundle, fuse: nat, i: nat)
    requires WellKeyed(source) && Export.Exported(source, b) && fuse >= Budget(b) && Sound(b) && WellKeyed(EMPTY_STORE)
    requires i < |b.days| && WellKeyed(Import(EMPTY_STORE, b, fuse).fs)
    ensures SameEffective(source, Import(EMPTY_STORE, b, fuse).fs, b.lo, b.hi, b.days[i].resource, b.days[i].date)
    ensures b.days[i].resource in b.resources && b.lo <= b.days[i].date <= b.hi
  {
    assert b.days[i] in b.days;
    ImportedAttempts(b, fuse, b.days[i]);
    PresentDate(source, b, Import(EMPTY_STORE, b, fuse).fs, b.days[i]);
    DayListed(b, b.days[i]);
  }

  lemma NoCommitThere(source: Store, b: Bundle, r: string, date: int)
    requires WellKeyed(source) && Export.Exported(source, b) && r in b.resources && b.lo <= date <= b.hi
    requires !Selected(b.days, r, date)
    ensures Committed(Attempts(source, r, b.lo, b.hi, date)) == {}
  {
    assert Export.DatesKept(source, b);
  }
}
