/** Any number of interrupted imports followed by a complete one end where a single
    uninterrupted import would have. */
module ImportConvergence {
  import opened Wrappers
  import opened Control
  import opened Coverage
  import opened Projection
  import opened Archive
  import opened ImportSpec
  import opened ImportSafety
  import opened ImportResume
  import opened ImportTheorems

  ghost predicate AllMarked(plan: set<BundleDay>, fs: Store) {
    forall e :: e in plan ==> e.MarkerOf() in fs
  }

  /** The planned days come in bundle order, so each comes once. */
  lemma {:induction false} PlannedDistinct(fs: Store, b: Bundle, n: nat)
    requires WellKeyed(fs) && n <= |b.days| && Distinct(b.days)
    ensures Distinct(Planned(fs, b, n)) && forall e :: e in Planned(fs, b, n) ==> e in b.days[..n]
  {
    if n > 0 {
      PlannedDistinct(fs, b, n - 1);
      assert b.days[..n] == b.days[..n - 1] + [b.days[n - 1]];
      assert b.days[n - 1] !in b.days[..n - 1];
    }
  }

  lemma PlannedMarkers(fs: Store, b: Bundle)
    requires WellKeyed(fs) && Disjoint(b)
    ensures DistinctMarkers(Planned(fs, b, |b.days|))
  {
    var days := Planned(fs, b, |b.days|);
    PlannedDistinct(fs, b, |b.days|);
    assert b.days[..|b.days|] == b.days;
    forall i, j | 0 <= i < j < |days| ensures days[i].MarkerOf() != days[j].MarkerOf() {
      assert days[i] in days && days[j] in days && days[i] != days[j];
    }
  }

  /** Where a run of the import starts. */
  lemma BeginsUnderWay(fs0: Store, b: Bundle, plan: set<BundleDay>, fs: Store, fuse: nat)
    requires Setting(fs0, b, plan) && Parsed(b, plan) && Resumable(fs0, b, plan, fs)
    ensures var days, m := Planned(fs, b, |b.days|), Machine(fs, fuse, false);
            && OneMarker(plan) && DistinctMarkers(days) && UnderWay(fs0, b, plan, m, m, days, 0)
            && (forall e :: e in days <==> e in plan && e.MarkerOf() !in fs)
            && (forall e :: e in days ==> e in plan && SoundDay(b, e))
  {
    PlannedSince(fs0, b, plan, fs);
    PlannedMarkers(fs, b);
    var days := Planned(fs, b, |b.days|);
    assert forall j :: 0 <= j < |days| ==> days[j] in days;
  }

  /** One more run of the import, cut off anywhere; when it is not, every day is in. */
  lemma ImportKeeps(fs0: Store, b: Bundle, plan: set<BundleDay>, fs: Store, fuse: nat)
    requires Setting(fs0, b, plan) && Parsed(b, plan) && Resumable(fs0, b, plan, fs) && Clean(fs0, b)
    ensures var m := Import(fs, b, fuse); Resumable(fs0, b, plan, m.fs) && (!m.stopped ==> AllMarked(plan, m.fs))
  {
    CleanKept(fs0, b, plan, fs);
    BeginsUnderWay(fs0, b, plan, fs, fuse);
    var days, m := Planned(fs, b, |b.days|), Machine(fs, fuse, false);
    DaysKeep(fs0, b, plan, m, m, days, 0);
    var next := Import(fs, b, fuse);
    if !next.stopped {
      forall e | e in plan ensures e.MarkerOf() in next.fs {
        if e.MarkerOf() in fs {
          forall j | 0 <= j < |days| ensures days[j].MarkerOf() != e.MarkerOf() { assert days[j] in days; }
          assert Same(fs, next.fs, e.MarkerOf());
        } else {
          assert e in days;
        }
      }
    }
  }

  /** The destination after several runs of the import. */
  ghost function Crashes(fs: Store, b: Bundle, fuses: seq<nat>): (after: Store)
    requires Sound(b) && WellKeyed(fs)
    ensures WellKeyed(after)
    decreases |fuses|
  {
    if fuses == [] then fs else Crashes(Import(fs, b, fuses[0]).fs, b, fuses[1..])
  }

  lemma {:induction false} CrashesKeep(fs0: Store, b: Bundle, plan: set<BundleDay>, fs: Store, fuses: seq<nat>)
    requires Setting(fs0, b, plan) && Parsed(b, plan) && Resumable(fs0, b, plan, fs) && Clean(fs0, b)
    ensures Resumable(fs0, b, plan, Crashes(fs, b, fuses))
    decreases |fuses|
  {
    if fuses != [] {
      ImportKeeps(fs0, b, plan, fs, fuses[0]);
      CrashesKeep(fs0, b, plan, Import(fs, b, fuses[0]).fs, fuses[1..]);
    }
  }

  /** A destination that preflight refuses is never written to. */
  lemma {:induction false} RefusedUntouched(fs: Store, b: Bundle, fuses: seq<nat>)
    requires Sound(b) && WellKeyed(fs) && !Clean(fs, b)
    ensures Crashes(fs, b, fuses) == fs
    decreases |fuses|
  {
    if fuses != [] { RefusedUntouched(fs, b, fuses[1..]); }
  }

  /* The end state. */

  lemma SameDays(fs0: Store, b: Bundle, plan: set<BundleDay>, f: Store, g: Store, e: BundleDay)
    requires Setting(fs0, b, plan) && Parsed(b, plan) && Resumable(fs0, b, plan, f) && Resumable(fs0, b, plan, g)
    requires AllMarked(plan, f) && AllMarked(plan, g) && e in plan
    ensures DaysIn(f, e.resource, e.run) <= DaysIn(g, e.resource, e.run)
  {
    forall d | d in DaysIn(f, e.resource, e.run) ensures d in DaysIn(g, e.resource, e.run) {
      MarkerOrigin(fs0, b, plan, f, e, d);
      var p :| p in plan && p.RunOf() == e.RunOf() && p.MarkerOf() in f && d == DayIn(b, p) && p.date == d.date;
      assert p.MarkerOf() in g;
    }
  }

  /** With no day pending, the summary is that of the committed days. */
  lemma CompleteHeader(b: Bundle, plan: set<BundleDay>, f: Store, e: BundleDay)
    requires WellKeyed(f) && Parsed(b, plan) && MarkersBacked(b, plan, f) && SummariesOk(b, plan, f) && AllMarked(plan, f) && e in plan
    ensures e.RunOf() in f && f[e.RunOf()].content.Run?
    ensures Summary(RunIn(b, e), DaysIn(f, e.resource, e.run)) == Some(f[e.RunOf()].content.run)
    ensures f[e.RunOf()] == Written(Run(f[e.RunOf()].content.run))
  {
  }

  lemma SameHeader(fs0: Store, b: Bundle, plan: set<BundleDay>, f: Store, g: Store, e: BundleDay)
    requires Setting(fs0, b, plan) && Parsed(b, plan) && Resumable(fs0, b, plan, f) && Resumable(fs0, b, plan, g)
    requires AllMarked(plan, f) && AllMarked(plan, g) && e in plan
    ensures e.RunOf() in f && e.RunOf() in g && f[e.RunOf()] == g[e.RunOf()]
  {
    SameDays(fs0, b, plan, f, g, e);
    SameDays(fs0, b, plan, g, f, e);
    assert DaysIn(f, e.resource, e.run) == DaysIn(g, e.resource, e.run);
    CompleteHeader(b, plan, f, e);
    CompleteHeader(b, plan, g, e);
  }

  lemma SameObject(fs0: Store, b: Bundle, plan: set<BundleDay>, f: Store, g: Store, e: BundleDay, k: Key)
    requires Setting(fs0, b, plan) && Parsed(b, plan) && Resumable(fs0, b, plan, f) && Resumable(fs0, b, plan, g)
    requires AllMarked(plan, f) && AllMarked(plan, g) && e in plan && k in e.objects
    ensures k in f && k in g && f[k] == g[k]
  {
    assert SoundDay(b, e) && Shape(e, k);
    assert e.MarkerOf() in f && e.MarkerOf() in g;
    if k == e.RunOf() {
      SameHeader(fs0, b, plan, f, g, e);
    } else if IsData(k) {
      assert ObjectsIn(f, b, e) && ObjectsIn(g, b, e);
      if k in fs0 { assert Same(fs0, f, k) && Same(fs0, g, k); }
    }
  }

  /** There is only one store in which every planned day is in. */
  lemma OneEnd(fs0: Store, b: Bundle, plan: set<BundleDay>, f: Store, g: Store)
    requires Setting(fs0, b, plan) && Parsed(b, plan) && Resumable(fs0, b, plan, f) && Resumable(fs0, b, plan, g)
    requires AllMarked(plan, f) && AllMarked(plan, g)
    ensures f == g
  {
    forall k ensures (k in f <==> k in g) && (k in f && k in g ==> f[k] == g[k]) {
      if Touched(plan, k) {
        var e :| e in plan && k in e.objects;
        SameObject(fs0, b, plan, f, g, e, k);
      } else {
        assert Same(fs0, f, k) && Same(fs0, g, k);
      }
    }
  }

  /* The guarantees. */

  ghost function PlanOf(fs0: Store, b: Bundle): (plan: set<BundleDay>)
    requires WellKeyed(fs0)
    ensures IsPlan(fs0, b, plan)
  {
    set e | e in b.days && !Effective(fs0, b, e) && ActiveRuns(fs0, e.resource, e.date) == {}
  }

  lemma Begin(fs0: Store, b: Bundle) returns (plan: set<BundleDay>)
    requires WellKeyed(fs0) && Valid(b) && NoneOf(fs0, b)
    ensures plan == PlanOf(fs0, b) && Setting(fs0, b, plan) && Parsed(b, plan) && Resumable(fs0, b, plan, fs0)
  {
    ValidIsSound(b);
    plan := PlanOf(fs0, b);
    Planned0(fs0, b, plan);
    StartsResumable(fs0, b, plan);
  }

  /** The header counts the committed days of its run, or these and one pending day. */
  ghost predicate CountsDays(fs: Store, b: Bundle, e: BundleDay, s: RunManifest)
    requires WellKeyed(fs) && Sound(b) && e in b.days
  {
    var source, days := RunIn(b, e), DaysIn(fs, e.resource, e.run);
    || (Summarized(source, days) && Summarizes(source, days, s))
    || exists p :: Pending(fs, b, e, p) && CountsAlso(source, days, DayIn(b, p), s)
  }

  ghost predicate CountsAlso(source: RunManifest, days: set<DayManifest>, day: DayManifest, s: RunManifest) {
    Summarized(source, days + {day}) && Summarizes(source, days + {day}, s)
  }

  lemma CandidateCounts(fs: Store, b: Bundle, e: BundleDay, s: RunManifest)
    requires WellKeyed(fs) && Sound(b) && e in b.days
    ensures Candidate(fs, b, e, s) <==> CountsDays(fs, b, e, s)
  {
    var source, days := RunIn(b, e), DaysIn(fs, e.resource, e.run);
    SummaryMeaning(source, days);
    forall p | Pending(fs, b, e, p)
      ensures Summary(source, days + {DayIn(b, p)}) == Some(s) <==> CountsAlso(source, days, DayIn(b, p), s)
    {
      SummaryMeaning(source, days + {DayIn(b, p)});
    }
  }

  /** The destination has no file of the day that the archive does not have, and no object
      that differs. */
  ghost predicate ObjectsFit(fs: Store, b: Bundle, e: BundleDay) {
    && (forall k :: k in fs && e.OwnsFile(k) ==> k in e.objects)
    && (forall k :: k in e.objects && k != e.RunOf() && k in fs && k in b.objects ==> fs[k].digest == b.objects[k])
  }

  /** It has only finished days of the run, which the archive's header can sum up with any
      of its own, and no header of the run but one that does. */
  ghost predicate RunFits(fs: Store, b: Bundle, e: BundleDay)
    requires WellKeyed(fs) && Sound(b) && e in b.days
  {
    var source, days := RunIn(b, e), DaysIn(fs, e.resource, e.run);
    && (forall d :: d in days ==> d.status == Success)
    && (days != {} ==> Summarized(source, days))
    && (forall p :: Pending(fs, b, e, p) ==> Summarized(source, days + {DayIn(b, p)}))
    && (e.RunOf() in fs ==> CountsDays(fs, b, e, fs[e.RunOf()].content.run))
  }

  ghost predicate Importable(fs: Store, b: Bundle, e: BundleDay)
    requires WellKeyed(fs) && Sound(b) && e in b.days
  {
    ObjectsFit(fs, b, e) && RunFits(fs, b, e)
  }

  /** Preflight refuses exactly when a day that readers do not have yet is being worked on,
      or cannot be taken; then nothing at all is written. */
  lemma PreflightExactly(fs: Store, b: Bundle, fuse: nat)
    requires WellKeyed(fs) && Sound(b)
    ensures (forall e :: e in b.days && Committed(Attempts(fs, e.resource, b.lo, b.hi, e.date)) == {} ==>
               ActiveRuns(fs, e.resource, e.date) == {} && Importable(fs, b, e))
            <==> Clean(fs, b)
    ensures !Clean(fs, b) ==> Import(fs, b, fuse) == Machine(fs, fuse, true)
  {
    PlannedMeaning(fs, b, |b.days|);
    assert b.days[..|b.days|] == b.days;
    forall e | e in b.days ensures Importable(fs, b, e) <==> !ExtraFile(fs, e) && !Different(fs, b, e) && RunCompatible(fs, b, e) {
      TakenExactly(fs, b, e);
    }
  }

  lemma TakenExactly(fs: Store, b: Bundle, e: BundleDay)
    requires WellKeyed(fs) && Sound(b) && e in b.days
    ensures Importable(fs, b, e) <==> !ExtraFile(fs, e) && !Different(fs, b, e) && RunCompatible(fs, b, e)
  {
    RunExactly(fs, b, e);
    assert ObjectsFit(fs, b, e) <==> !ExtraFile(fs, e) && !Different(fs, b, e);
  }

  lemma RunExactly(fs: Store, b: Bundle, e: BundleDay)
    requires WellKeyed(fs) && Sound(b) && e in b.days
    ensures RunFits(fs, b, e) <==> RunCompatible(fs, b, e)
  {
    SumsUp(fs, b, e);
    if e.RunOf() in fs { CandidateCounts(fs, b, e, fs[e.RunOf()].content.run); }
  }

  lemma SumsUp(fs: Store, b: Bundle, e: BundleDay)
    requires WellKeyed(fs) && Sound(b) && e in b.days
    ensures var source, days := RunIn(b, e), DaysIn(fs, e.resource, e.run);
            Summarizable(fs, b, e) <==>
              && (days != {} ==> Summarized(source, days))
              && forall p :: Pending(fs, b, e, p) ==> Summarized(source, days + {DayIn(b, p)})
  {
    var source, days := RunIn(b, e), DaysIn(fs, e.resource, e.run);
    SummaryMeaning(source, days);
    forall p | Pending(fs, b, e, p)
      ensures Summary(source, days + {DayIn(b, p)}).Some? <==> Summarized(source, days + {DayIn(b, p)})
    {
      SummaryMeaning(source, days + {DayIn(b, p)});
    }
  }

  /** However often the import was cut off, preflight accepts the destination again as
      long as it accepted it first, and every run of the bundle has no summary and no
      committed day, or a header that counts its committed days and at most one pending
      day. */
  lemma CrashSafeResume(fs0: Store, b: Bundle, fuses: seq<nat>, e: BundleDay)
    requires WellKeyed(fs0) && Valid(b) && NoneOf(fs0, b) && Sound(b) && e in b.days
    ensures var fs := Crashes(fs0, b, fuses);
            && (Clean(fs, b) <==> Clean(fs0, b))
            && (e.RunOf() !in fs ==> DaysIn(fs, e.resource, e.run) == {})
            && (e.RunOf() in fs ==> CountsDays(fs, b, e, fs[e.RunOf()].content.run))
  {
    var plan := Begin(fs0, b);
    var fs := Crashes(fs0, b, fuses);
    if Clean(fs0, b) {
      CrashesKeep(fs0, b, plan, fs0, fuses);
      CleanKept(fs0, b, plan, fs);
    } else {
      RefusedUntouched(fs0, b, fuses);
    }
    RunState(fs0, b, plan, fs, e);
    if e.RunOf() in fs { CandidateCounts(fs, b, e, fs[e.RunOf()].content.run); }
  }

  lemma RunState(fs0: Store, b: Bundle, plan: set<BundleDay>, fs: Store, e: BundleDay)
    requires Setting(fs0, b, plan) && Parsed(b, plan) && Resumable(fs0, b, plan, fs) && e in b.days
    ensures e.RunOf() !in fs ==> DaysIn(fs, e.resource, e.run) == {}
    ensures e.RunOf() in fs ==> Candidate(fs, b, e, fs[e.RunOf()].content.run)
  {
    if p :| p in plan && p.RunOf() == e.RunOf() {
      if e.RunOf() in fs {
        SummaryIsCandidate(fs0, b, plan, fs, p, fs[p.RunOf()].content.run);
        CandidateOfRun(fs, b, p, e, fs[p.RunOf()].content.run);
      }
    } else {
      ForeignSame(fs0, b, plan, fs, e.RunOf());
    }
    if d :| d in DaysIn(fs, e.resource, e.run) {
      MarkerOrigin(fs0, b, plan, fs, e, d);
    }
  }

  /** What a summary may say depends on the run only. */
  lemma CandidateOfRun(fs: Store, b: Bundle, p: BundleDay, e: BundleDay, s: RunManifest)
    requires WellKeyed(fs) && Sound(b) && p in b.days && e in b.days && p.RunOf() == e.RunOf() && Candidate(fs, b, p, s)
    ensures Candidate(fs, b, e, s)
  {
    var source, days := RunIn(b, p), DaysIn(fs, p.resource, p.run);
    if !(days != {} && Summary(source, days) == Some(s)) {
      var q :| Pending(fs, b, p, q) && Summary(source, days + {DayIn(b, q)}) == Some(s);
      assert Pending(fs, b, e, q);
    }
  }

  /** Interrupted imports and one complete import end where one complete import ends. */
  lemma Convergence(fs0: Store, b: Bundle, fuses: seq<nat>, fuse: nat, once: nat)
    requires WellKeyed(fs0) && Valid(b) && NoneOf(fs0, b) && Sound(b)
    requires !Import(Crashes(fs0, b, fuses), b, fuse).stopped && !Import(fs0, b, once).stopped
    ensures Import(Crashes(fs0, b, fuses), b, fuse).fs == Import(fs0, b, once).fs
  {
    var plan := Begin(fs0, b);
    CrashesKeep(fs0, b, plan, fs0, fuses);
    ImportKeeps(fs0, b, plan, Crashes(fs0, b, fuses), fuse);
    ImportKeeps(fs0, b, plan, fs0, once);
    OneEnd(fs0, b, plan, Import(Crashes(fs0, b, fuses), b, fuse).fs, Import(fs0, b, once).fs);
  }

  lemma FirstIn<T>(items: seq<T>)
    ensures items == [] || items[0] in items
  {
  }

  /** After a complete import another one writes nothing, whatever its budget. */
  lemma RerunWritesNothing(fs0: Store, b: Bundle, fuse: nat, again: nat)
    requires WellKeyed(fs0) && Valid(b) && NoneOf(fs0, b) && Sound(b) && !Import(fs0, b, fuse).stopped
    ensures var fs := Import(fs0, b, fuse).fs; Import(fs, b, again) == Machine(fs, again, false)
  {
    var plan := Begin(fs0, b);
    var fs := Import(fs0, b, fuse).fs;
    ImportKeeps(fs0, b, plan, fs0, fuse);
    CleanKept(fs0, b, plan, fs);
    PlannedSince(fs0, b, plan, fs);
    FirstIn(Planned(fs, b, |b.days|));
  }

  /** At every point of every run, a reader sees a bundle day as an attempt only when
      all its files and pages are there with the archive's digests. */
  lemma AtomicVisibility(fs0: Store, b: Bundle, fuses: seq<nat>, e: BundleDay, d: DayManifest)
    requires WellKeyed(fs0) && Valid(b) && NoneOf(fs0, b) && Sound(b) && e in b.days
    requires d in Attempts(Crashes(fs0, b, fuses), e.resource, b.lo, b.hi, e.date) && d.runId == e.run
    ensures d == DayIn(b, e) && ObjectsIn(Crashes(fs0, b, fuses), b, e)
  {
    var plan := Begin(fs0, b);
    var fs := Crashes(fs0, b, fuses);
    if Clean(fs0, b) {
      CrashesKeep(fs0, b, plan, fs0, fuses);
    } else {
      RefusedUntouched(fs0, b, fuses);
    }
    NewAttempt(fs0, b, plan, fs, e, d);
    assert d in Attempts(fs0, e.resource, b.lo, b.hi, e.date) ==> DayKey(e.resource, d.runId, d.date) in fs0;
  }

  /** The day has committed attempts, all of the bundle's run. */
  ghost predicate AloneCommitted(fs: Store, b: Bundle, e: BundleDay)
    requires WellKeyed(fs)
  {
    var attempts := Committed(Attempts(fs, e.resource, b.lo, b.hi, e.date));
    attempts != {} && forall d :: d in attempts ==> d.runId == e.run
  }

  lemma OwnAttempt(fs0: Store, b: Bundle, plan: set<BundleDay>, fs: Store, e: BundleDay, d: DayManifest)
    requires Setting(fs0, b, plan) && WellKeyed(fs) && Untouched(fs0, plan, fs) && e in b.days && !Effective(fs0, b, e)
    requires d in Committed(Attempts(fs, e.resource, b.lo, b.hi, e.date))
    ensures d.runId == e.run
  {
    var before := Attempts(fs0, e.resource, b.lo, b.hi, e.date);
    var committed := Committed(before);
    assert d in before ==> d in committed;
    NewAttempt(fs0, b, plan, fs, e, d);
  }

  lemma Alone(fs0: Store, b: Bundle, plan: set<BundleDay>, fs: Store, e: BundleDay)
    requires Setting(fs0, b, plan) && Parsed(b, plan) && Resumable(fs0, b, plan, fs) && e in plan && e.MarkerOf() in fs
    ensures AloneCommitted(fs, b, e)
  {
    EffectiveSince(fs0, b, plan, fs, e);
    forall d | d in Committed(Attempts(fs, e.resource, b.lo, b.hi, e.date)) ensures d.runId == e.run {
      OwnAttempt(fs0, b, plan, fs, e, d);
    }
  }

  /** After a complete import the planned days are committed by their own runs alone. */
  lemma ImportedAlone(fs0: Store, b: Bundle, fuse: nat)
    requires WellKeyed(fs0) && Valid(b) && NoneOf(fs0, b) && Sound(b) && !Import(fs0, b, fuse).stopped
    ensures forall e :: e in Planned(fs0, b, |b.days|) ==> AloneCommitted(Import(fs0, b, fuse).fs, b, e)
  {
    var plan := Begin(fs0, b);
    ImportKeeps(fs0, b, plan, fs0, fuse);
    PlannedSince(fs0, b, plan, fs0);
    forall e | e in Planned(fs0, b, |b.days|) ensures AloneCommitted(Import(fs0, b, fuse).fs, b, e) {
      Alone(fs0, b, plan, Import(fs0, b, fuse).fs, e);
    }
  }

  /** A day of the bundle's run that was to be imported. */
  ghost predicate ImportedAs(fs0: Store, b: Bundle, e: BundleDay, d: DayManifest)
    requires WellKeyed(fs0) && Sound(b)
  {
    exists p :: p in b.days && p in Planned(fs0, b, |b.days|) && p.RunOf() == e.RunOf() && d == DayIn(b, p)
  }

  /** The run of the day holds exactly the imported days, and its header says of them how
      many there are, that each succeeded, where they begin and end and when they ended;
      all else it says is what the archive's header says. */
  ghost predicate HeaderRight(fs0: Store, fs: Store, b: Bundle, e: BundleDay)
    requires WellKeyed(fs0) && WellKeyed(fs) && Sound(b) && e in b.days
  {
    var days := DaysIn(fs, e.resource, e.run);
    && DayIn(b, e) in days && (forall d :: d in days <==> ImportedAs(fs0, b, e, d))
    && e.RunOf() in fs && fs[e.RunOf()].content.Run?
    && Summarizes(RunIn(b, e), days, fs[e.RunOf()].content.run)
  }

  lemma HeaderOf(fs0: Store, b: Bundle, plan: set<BundleDay>, fs: Store, e: BundleDay)
    requires Setting(fs0, b, plan) && Parsed(b, plan) && Resumable(fs0, b, plan, fs) && AllMarked(plan, fs) && e in plan
    requires forall p :: p in Planned(fs0, b, |b.days|) <==> p in plan
    ensures HeaderRight(fs0, fs, b, e)
  {
    var days := DaysIn(fs, e.resource, e.run);
    CompleteHeader(b, plan, fs, e);
    SummaryMeaning(RunIn(b, e), days);
    forall p | p in plan && p.RunOf() == e.RunOf() ensures DayIn(b, p) in days {
      assert p.MarkerOf() in fs;
    }
    forall d | d in days ensures ImportedAs(fs0, b, e, d) { MarkerOrigin(fs0, b, plan, fs, e, d); }
  }

  /** After an import that ran to its end, however many were cut off before it, the header
      of every imported run is right about the days that came in. */
  lemma ImportedHeaders(fs0: Store, b: Bundle, fuses: seq<nat>, fuse: nat)
    requires WellKeyed(fs0) && Valid(b) && NoneOf(fs0, b) && Sound(b)
    requires !Import(Crashes(fs0, b, fuses), b, fuse).stopped
    ensures forall e :: e in b.days && e in Planned(fs0, b, |b.days|) ==>
              HeaderRight(fs0, Import(Crashes(fs0, b, fuses), b, fuse).fs, b, e)
  {
    var plan := Begin(fs0, b);
    if !Clean(fs0, b) { RefusedUntouched(fs0, b, fuses); }
    CrashesKeep(fs0, b, plan, fs0, fuses);
    ImportKeeps(fs0, b, plan, Crashes(fs0, b, fuses), fuse);
    PlannedSince(fs0, b, plan, fs0);
    forall e | e in b.days && e in Planned(fs0, b, |b.days|)
      ensures HeaderRight(fs0, Import(Crashes(fs0, b, fuses), b, fuse).fs, b, e)
    {
      HeaderOf(fs0, b, plan, Import(Crashes(fs0, b, fuses), b, fuse).fs, e);
    }
  }
}
