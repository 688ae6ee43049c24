/** The guarantees of the importer over any number of runs, each cut off anywhere. */
module ImportTheorems {
  import opened Wrappers
  import opened Control
  import opened Coverage
  import opened Projection
  import opened Archive
  import opened ImportSpec
  import opened ImportSafety
  import opened ImportResume

  /* What later runs of the import see of the destination. */

  /** Headers and markers of runs outside the bundle stay as they were. */
  lemma ForeignSame(fs0: Store, b: Bundle, plan: set<BundleDay>, fs: Store, k: Key)
    requires Setting(fs0, b, plan) && Untouched(fs0, plan, fs) && (k.RunKey? || k.DayKey?)
    requires forall p :: p in plan ==> !(k.resource == p.resource && k.run == p.run)
    ensures Same(fs0, fs, k)
  {
    forall p | p in plan ensures k !in p.objects {
      assert SoundDay(b, p);
      assert k in p.objects ==> Shape(p, k);
    }
    assert !Touched(plan, k);
  }

  /** Every acceptable summary is of a finished run that reaches into the bundle's year. */
  lemma SummaryOkReaches(b: Bundle, plan: set<BundleDay>, fs: Store, e: BundleDay, s: RunManifest)
    requires WellKeyed(fs) && Parsed(b, plan) && RunAt(b.members, e).Some? && SummaryOk(b, plan, fs, e, s)
    requires RunDays(RunIn(b, e), DaysIn(fs, e.resource, e.run), b.lo, b.hi)
    requires forall p :: Unmarked(plan, fs, e, p) ==>
               RunDays(RunIn(b, e), DaysIn(fs, e.resource, e.run) + {DayIn(b, p)}, b.lo, b.hi)
    ensures s.status == RunSuccess && s.start <= b.hi && s.end >= b.lo
  {
    var source, days := RunIn(b, e), DaysIn(fs, e.resource, e.run);
    if days != {} && Summary(source, days) == Some(s) {
      SummaryReaches(source, days, b.lo, b.hi);
    } else {
      var p :| Unmarked(plan, fs, e, p) && Summary(source, days + {DayIn(b, p)}) == Some(s);
      SummaryReaches(source, days + {DayIn(b, p)}, b.lo, b.hi);
    }
  }

  /** The header of a planned run is finished and reaches into the bundle's year. */
  lemma HeaderListed(fs0: Store, b: Bundle, plan: set<BundleDay>, fs: Store, e: BundleDay)
    requires Setting(fs0, b, plan) && Parsed(b, plan) && Resumable(fs0, b, plan, fs) && e in plan && e.RunOf() in fs
    ensures ReadRun(fs, e.resource, e.run).value.status == RunSuccess && Listed(fs, e.resource, e.run, b.lo, b.hi)
  {
    CommittedDays(fs0, b, plan, fs, e);
    forall p | Unmarked(plan, fs, e, p)
      ensures RunDays(RunIn(b, e), DaysIn(fs, e.resource, e.run) + {DayIn(b, p)}, b.lo, b.hi)
    {
      PendingDay(fs0, b, plan, fs, e, p);
    }
    SummaryOkReaches(b, plan, fs, e, fs[e.RunOf()].content.run);
  }

  /** A pending day can be added to the committed days of its run. */
  lemma PendingDay(fs0: Store, b: Bundle, plan: set<BundleDay>, fs: Store, e: BundleDay, p: BundleDay)
    requires Setting(fs0, b, plan) && Parsed(b, plan) && Resumable(fs0, b, plan, fs) && e in plan
    requires p in b.days && p.RunOf() == e.RunOf() && p.MarkerOf() !in fs && DayAt(b.members, p).Some?
    ensures RunDays(RunIn(b, e), DaysIn(fs, e.resource, e.run) + {DayIn(b, p)}, b.lo, b.hi) && Pending(fs, b, e, p)
  {
    assert SoundDay(b, p) && Packed(b, p.MarkerOf());
    CommittedDays(fs0, b, plan, fs, e);
    UnmarkedDate(fs, b, e, p);
  }

  /** The effective days are those of before and those imported since. */
  lemma EffectiveSince(fs0: Store, b: Bundle, plan: set<BundleDay>, fs: Store, e: BundleDay)
    requires Setting(fs0, b, plan) && Parsed(b, plan) && Resumable(fs0, b, plan, fs) && e in b.days
    ensures Effective(fs, b, e) <==> Effective(fs0, b, e) || (e in plan && e.MarkerOf() in fs)
  {
    var before, after := Attempts(fs0, e.resource, b.lo, b.hi, e.date), Attempts(fs, e.resource, b.lo, b.hi, e.date);
    if Effective(fs0, b, e) {
      var d :| d in Committed(before);
      KeptAttempt(fs0, b, plan, fs, e, d);
      assert d in Committed(after);
    }
    if e in plan && e.MarkerOf() in fs {
      HeaderListed(fs0, b, plan, fs, e);
      assert SoundDay(b, e) && Packed(b, e.MarkerOf());
      assert DayIn(b, e) in Committed(after);
    }
    if Effective(fs, b, e) {
      var d :| d in Committed(after);
      NewAttempt(fs0, b, plan, fs, e, d);
      if !(e in plan && e.MarkerOf() in fs) { assert d in Committed(before); }
    }
  }

  lemma KeptAttempt(fs0: Store, b: Bundle, plan: set<BundleDay>, fs: Store, e: BundleDay, d: DayManifest)
    requires Setting(fs0, b, plan) && WellKeyed(fs) && Untouched(fs0, plan, fs) && e in b.days
    requires d in Attempts(fs0, e.resource, b.lo, b.hi, e.date)
    ensures d in Attempts(fs, e.resource, b.lo, b.hi, e.date)
  {
    assert DayKey(e.resource, d.runId, d.date) in fs0;
    ForeignSame(fs0, b, plan, fs, DayKey(e.resource, d.runId, d.date));
    ForeignSame(fs0, b, plan, fs, RunKey(e.resource, d.runId));
  }

  lemma NewAttempt(fs0: Store, b: Bundle, plan: set<BundleDay>, fs: Store, e: BundleDay, d: DayManifest)
    requires Setting(fs0, b, plan) && WellKeyed(fs) && Untouched(fs0, plan, fs) && e in b.days
    requires d in Attempts(fs, e.resource, b.lo, b.hi, e.date)
    ensures d in Attempts(fs0, e.resource, b.lo, b.hi, e.date) || (e in plan && e.MarkerOf() in fs && d.runId == e.run)
  {
    var k := DayKey(e.resource, d.runId, d.date);
    if Touched(plan, k) {
      var p :| p in plan && k in p.objects;
      assert SoundDay(b, p) && Shape(p, k);
      assert p == e;
    } else {
      assert Same(fs0, fs, k) && k in fs0;
      ForeignSame(fs0, b, plan, fs, RunKey(e.resource, d.runId));
    }
  }

  /** An import never makes a run look active or finished. */
  lemma ActiveSame(fs0: Store, b: Bundle, plan: set<BundleDay>, fs: Store, e: BundleDay)
    requires Setting(fs0, b, plan) && Parsed(b, plan) && Resumable(fs0, b, plan, fs) && e in b.days
    ensures ActiveRuns(fs, e.resource, e.date) == ActiveRuns(fs0, e.resource, e.date)
  {
    forall r ensures Reaches(fs, e.resource, r, e.date) <==> Reaches(fs0, e.resource, r, e.date) {
      if p :| p in plan && p.resource == e.resource && p.run == r {
        PlannedRunInactive(fs0, b, plan, fs, p, e.date);
      } else {
        ForeignSame(fs0, b, plan, fs, RunKey(e.resource, r));
        ForeignSame(fs0, b, plan, fs, DayKey(e.resource, r, e.date));
      }
    }
  }

  lemma PlannedRunInactive(fs0: Store, b: Bundle, plan: set<BundleDay>, fs: Store, p: BundleDay, date: int)
    requires Setting(fs0, b, plan) && Parsed(b, plan) && Resumable(fs0, b, plan, fs) && p in plan
    ensures !Reaches(fs, p.resource, p.run, date) && !Reaches(fs0, p.resource, p.run, date)
  {
    assert p.RunOf() !in fs0;
    if p.RunOf() in fs { HeaderListed(fs0, b, plan, fs, p); }
  }

  /* Preflight. */

  /** What is left to import. */
  lemma PlannedSince(fs0: Store, b: Bundle, plan: set<BundleDay>, fs: Store)
    requires Setting(fs0, b, plan) && Parsed(b, plan) && Resumable(fs0, b, plan, fs)
    ensures forall e :: e in Planned(fs, b, |b.days|) <==> e in plan && e.MarkerOf() !in fs
    ensures forall e :: e in b.days ==> (Blocked(fs, b, e) <==> Blocked(fs0, b, e))
  {
    PlannedMeaning(fs, b, |b.days|);
    assert b.days[..|b.days|] == b.days;
    forall e | e in b.days
      ensures !Effective(fs, b, e) && ActiveRuns(fs, e.resource, e.date) == {} <==> e in plan && e.MarkerOf() !in fs
      ensures Blocked(fs, b, e) <==> Blocked(fs0, b, e)
    {
      EffectiveSince(fs0, b, plan, fs, e);
      ActiveSame(fs0, b, plan, fs, e);
    }
  }

  lemma NoExtraFile(fs0: Store, b: Bundle, plan: set<BundleDay>, fs: Store, e: BundleDay)
    requires Setting(fs0, b, plan) && Untouched(fs0, plan, fs) && e in plan && !ExtraFile(fs0, e)
    ensures !ExtraFile(fs, e)
  {
    forall k | k in fs && e.OwnsFile(k) ensures k in e.objects {
      if Touched(plan, k) {
        var p :| p in plan && k in p.objects;
        assert SoundDay(b, p) && Shape(p, k);
        TablesDisjoint(p.resource, e.resource, k.table);
        assert p == e;
      } else {
        assert Same(fs0, fs, k);
      }
    }
  }

  lemma NoDifference(fs0: Store, b: Bundle, plan: set<BundleDay>, fs: Store, e: BundleDay)
    requires SoundDay(b, e) && DataKept(fs0, b, plan, fs) && e in plan && e.MarkerOf() !in fs && !Different(fs0, b, e)
    ensures !Different(fs, b, e)
  {
  }

  lemma PendingUnmarked(b: Bundle, fs: Store, e: BundleDay, p: BundleDay)
    requires WellKeyed(fs)
    ensures Pending(fs, b, e, p) ==> p.MarkerOf() !in fs
  {
  }

  lemma SummariesComputed(fs0: Store, b: Bundle, plan: set<BundleDay>, fs: Store, e: BundleDay)
    requires Setting(fs0, b, plan) && Parsed(b, plan) && Resumable(fs0, b, plan, fs) && e in plan
    ensures Summarizable(fs, b, e)
  {
    var source, days := RunIn(b, e), DaysIn(fs, e.resource, e.run);
    CommittedDays(fs0, b, plan, fs, e);
    if days != {} { SummaryReaches(source, days, b.lo, b.hi); }
    forall p | Pending(fs, b, e, p) ensures Summary(source, days + {DayIn(b, p)}).Some? {
      PendingUnmarked(b, fs, e, p);
      PendingDay(fs0, b, plan, fs, e, p);
      SummaryReaches(source, days + {DayIn(b, p)}, b.lo, b.hi);
    }
  }

  lemma SummaryIsCandidate(fs0: Store, b: Bundle, plan: set<BundleDay>, fs: Store, e: BundleDay, s: RunManifest)
    requires Setting(fs0, b, plan) && Parsed(b, plan) && Resumable(fs0, b, plan, fs) && e in plan
    requires SummaryOk(b, plan, fs, e, s)
    ensures Candidate(fs, b, e, s)
  {
    var source, days := RunIn(b, e), DaysIn(fs, e.resource, e.run);
    if !(days != {} && Summary(source, days) == Some(s)) {
      var p :| Unmarked(plan, fs, e, p) && Summary(source, days + {DayIn(b, p)}) == Some(s);
      PendingDay(fs0, b, plan, fs, e, p);
    }
  }

  /** Whatever a crash left of a run's summary, preflight accepts it. */
  lemma SummaryAccepted(fs0: Store, b: Bundle, plan: set<BundleDay>, fs: Store, e: BundleDay)
    requires Setting(fs0, b, plan) && Parsed(b, plan) && Resumable(fs0, b, plan, fs) && e in plan
    ensures RunCompatible(fs, b, e)
  {
    CommittedDays(fs0, b, plan, fs, e);
    SummariesComputed(fs0, b, plan, fs, e);
    if e.RunOf() in fs {
      SummaryIsCandidate(fs0, b, plan, fs, e, fs[e.RunOf()].content.run);
    }
  }

  /** Preflight never stops a rerun. */
  lemma CleanKept(fs0: Store, b: Bundle, plan: set<BundleDay>, fs: Store)
    requires Setting(fs0, b, plan) && Parsed(b, plan) && Resumable(fs0, b, plan, fs) && Clean(fs0, b)
    ensures Clean(fs, b)
  {
    StartsResumable(fs0, b, plan);
    PlannedSince(fs0, b, plan, fs0);
    PlannedSince(fs0, b, plan, fs);
    forall e | e in plan && e.MarkerOf() !in fs ensures !ExtraFile(fs, e) && !Different(fs, b, e) && RunCompatible(fs, b, e) {
      assert SoundDay(b, e);
      assert e.MarkerOf() !in fs0;
      NoExtraFile(fs0, b, plan, fs, e);
      NoDifference(fs0, b, plan, fs, e);
      SummaryAccepted(fs0, b, plan, fs, e);
    }
  }
}
