/** What a destination can look like while an archive is being imported into it, however
    often and wherever the import is cut off. */
module ImportSafety {
  import opened Wrappers
  import opened Control
  import opened Coverage
  import opened Projection
  import opened Archive
  import opened ImportSpec

  /** The destination holds no header and no marker of any run of the bundle. */
  ghost predicate NoneOf(fs: Store, b: Bundle) {
    forall k, e :: k in fs && (k.RunKey? || k.DayKey?) && e in b.days ==> !(k.resource == e.resource && k.run == e.run)
  }

  /** The days an uninterrupted import would bring. */
  ghost predicate IsPlan(fs0: Store, b: Bundle, plan: set<BundleDay>)
    requires WellKeyed(fs0)
  {
    forall e :: e in plan <==> e in b.days && !Effective(fs0, b, e) && ActiveRuns(fs0, e.resource, e.date) == {}
  }

  predicate Same(fs0: Store, fs: Store, k: Key) {
    (k in fs <==> k in fs0) && (k in fs0 && k in fs ==> fs[k] == fs0[k])
  }

  ghost predicate Touched(plan: set<BundleDay>, k: Key) {
    exists e :: e in plan && k in e.objects
  }

  predicate IsData(k: Key) { k.PageKey? || k.FileKey? }

  /** Every page and file of the day is there with the archive's digest, and the rows of
      its files are sound and as many as the day says. */
  ghost predicate ObjectsIn(fs: Store, b: Bundle, e: BundleDay) {
    && (forall k :: k in e.objects && IsData(k) ==> k in fs && k in b.objects && fs[k].digest == b.objects[k])
    && (DayAt(b.members, e).Some? ==> Verified(fs, e, DayIn(b, e)))
  }

  lemma ObjectsStay(fs: Store, fs': Store, b: Bundle, e: BundleDay)
    requires ObjectsIn(fs, b, e) && forall k :: k in e.objects && IsData(k) ==> Same(fs, fs', k)
    ensures ObjectsIn(fs', b, e)
  {
    if DayAt(b.members, e).Some? { VerifiedFrame(fs, fs', e, DayIn(b, e)); }
  }

  /** The manifests of the planned days can be read. */
  ghost predicate Parsed(b: Bundle, plan: set<BundleDay>) {
    forall e :: e in plan ==> DayAt(b.members, e).Some? && RunAt(b.members, e).Some?
  }

  /* The invariant, part by part. */

  /** Nothing but the planned days' objects is written. */
  ghost predicate Untouched(fs0: Store, plan: set<BundleDay>, fs: Store) {
    forall k :: !Touched(plan, k) ==> Same(fs0, fs, k)
  }

  /** Data objects are the destination's own or the archive's. */
  ghost predicate DataKept(fs0: Store, b: Bundle, plan: set<BundleDay>, fs: Store) {
    forall e, k :: e in plan && k in e.objects && IsData(k) ==>
      (k in fs0 ==> Same(fs0, fs, k)) && (k !in fs0 && k in fs ==> k in b.members && fs[k] == b.members[k])
  }

  /** A marker is there only with its day's data and its run's header. */
  ghost predicate MarkersBacked(b: Bundle, plan: set<BundleDay>, fs: Store)
    requires Parsed(b, plan)
  {
    forall e :: e in plan && e.MarkerOf() in fs ==>
      fs[e.MarkerOf()] == Written(Day(DayIn(b, e))) && ObjectsIn(fs, b, e) && e.RunOf() in fs
  }

  /** A planned day of the same run whose marker is still missing. */
  predicate Unmarked(plan: set<BundleDay>, fs: Store, e: BundleDay, p: BundleDay) {
    p in plan && p.RunOf() == e.RunOf() && p.MarkerOf() !in fs
  }

  /** The summary of the committed days of a run, or of these and one pending day. */
  ghost predicate SummaryOk(b: Bundle, plan: set<BundleDay>, fs: Store, e: BundleDay, s: RunManifest)
    requires WellKeyed(fs) && Parsed(b, plan)
    requires RunAt(b.members, e).Some?
  {
    var source, days := RunIn(b, e), DaysIn(fs, e.resource, e.run);
    || (days != {} && Summary(source, days) == Some(s))
    || exists p :: Unmarked(plan, fs, e, p) && Summary(source, days + {DayIn(b, p)}) == Some(s)
  }

  ghost predicate SummariesOk(b: Bundle, plan: set<BundleDay>, fs: Store)
    requires WellKeyed(fs) && Parsed(b, plan)
  {
    forall e :: e in plan && e.RunOf() in fs ==>
      fs[e.RunOf()] == Written(fs[e.RunOf()].content) && SummaryOk(b, plan, fs, e, fs[e.RunOf()].content.run)
  }

  ghost predicate Resumable(fs0: Store, b: Bundle, plan: set<BundleDay>, fs: Store)
    requires Parsed(b, plan)
  {
    && WellKeyed(fs) && Untouched(fs0, plan, fs) && DataKept(fs0, b, plan, fs)
    && MarkersBacked(b, plan, fs) && SummariesOk(b, plan, fs)
  }

  /** The setting of all that follows. */
  ghost predicate Setting(fs0: Store, b: Bundle, plan: set<BundleDay>) {
    WellKeyed(fs0) && Sound(b) && Disjoint(b) && NoneOf(fs0, b) && IsPlan(fs0, b, plan)
  }

  lemma Planned0(fs0: Store, b: Bundle, plan: set<BundleDay>)
    requires Setting(fs0, b, plan)
    ensures forall e :: e in plan ==> e in b.days && SoundDay(b, e)
    ensures Parsed(b, plan)
  {
  }

  /* What the invariant says about a run's markers. */

  /** The committed days of a planned run are planned days of the bundle. */
  lemma MarkerOrigin(fs0: Store, b: Bundle, plan: set<BundleDay>, fs: Store, e: BundleDay, d: DayManifest)
    requires Setting(fs0, b, plan) && WellKeyed(fs) && Untouched(fs0, plan, fs)
    requires Parsed(b, plan)
    requires MarkersBacked(b, plan, fs) && e in b.days && HasDay(fs, e.resource, d) && d.runId == e.run
    ensures exists p :: p in plan && p.RunOf() == e.RunOf() && p.MarkerOf() in fs && d == DayIn(b, p) && p.date == d.date
  {
    var k := DayKey(e.resource, d.runId, d.date);
    assert k in fs && k !in fs0;
    assert Touched(plan, k);
    var p :| p in plan && k in p.objects;
    assert SoundDay(b, p) && Shape(p, k);
  }

  /** A planned day without a marker shares its date with no committed day of its run. */
  lemma UnmarkedDate(fs: Store, b: Bundle, e: BundleDay, p: BundleDay)
    requires WellKeyed(fs) && p.RunOf() == e.RunOf() && p.MarkerOf() !in fs
    ensures forall d :: d in DaysIn(fs, e.resource, e.run) ==> d.date != p.date
  {
  }

  /** Committed days of a planned run are finished days of it, one per date. */
  lemma CommittedDays(fs0: Store, b: Bundle, plan: set<BundleDay>, fs: Store, e: BundleDay)
    requires Setting(fs0, b, plan) && WellKeyed(fs) && Untouched(fs0, plan, fs)
    requires Parsed(b, plan)
    requires MarkersBacked(b, plan, fs) && e in plan
    ensures RunDays(RunIn(b, e), DaysIn(fs, e.resource, e.run), b.lo, b.hi)
  {
    forall d | d in DaysIn(fs, e.resource, e.run) ensures DayOf(RunIn(b, e), d) && b.lo <= d.date <= b.hi {
      MarkerOrigin(fs0, b, plan, fs, e, d);
      var p :| p in plan && p.RunOf() == e.RunOf() && p.MarkerOf() in fs && d == DayIn(b, p) && p.date == d.date;
      assert SoundDay(b, p);
    }
  }

  lemma StartsResumable(fs0: Store, b: Bundle, plan: set<BundleDay>)
    requires Setting(fs0, b, plan)
    ensures Resumable(fs0, b, plan, fs0)
  {
    forall e | e in plan ensures e.MarkerOf() !in fs0 && e.RunOf() !in fs0 { assert e in b.days; }
  }

  /* Each write keeps the invariant. */

  lemma DaysInFrame(fs: Store, k: Key, o: Object, resource: string, run: RunId)
    requires WellKeyed(fs) && KeyFits(k, o.content)
    ensures WellKeyed(fs[k := o])
    ensures !(k.DayKey? && k.resource == resource && k.run == run) ==> DaysIn(fs[k := o], resource, run) == DaysIn(fs, resource, run)
  {
  }

  /** A write outside a run leaves what its summary may say. */
  lemma SummaryFrame(b: Bundle, plan: set<BundleDay>, fs: Store, e: BundleDay, k: Key, o: Object)
    requires WellKeyed(fs) && Parsed(b, plan)
    requires e in plan && e.RunOf() in fs && SummaryOk(b, plan, fs, e, fs[e.RunOf()].content.run)
    requires k != e.RunOf() && !(k.DayKey? && k.resource == e.resource && k.run == e.run) && KeyFits(k, o.content)
    ensures WellKeyed(fs[k := o]) && SummaryOk(b, plan, fs[k := o], e, fs[e.RunOf()].content.run)
  {
    DaysInFrame(fs, k, o, e.resource, e.run);
    var source, days, s := RunIn(b, e), DaysIn(fs, e.resource, e.run), fs[e.RunOf()].content.run;
    if !(days != {} && Summary(source, days) == Some(s)) {
      var p :| Unmarked(plan, fs, e, p) && Summary(source, days + {DayIn(b, p)}) == Some(s);
      assert Unmarked(plan, fs[k := o], e, p);
    }
  }

  lemma UntouchedWrite(fs0: Store, plan: set<BundleDay>, fs: Store, e: BundleDay, k: Key, o: Object)
    requires Untouched(fs0, plan, fs) && e in plan && k in e.objects
    ensures Untouched(fs0, plan, fs[k := o])
  {
  }

  lemma DataKeptWrite(fs0: Store, b: Bundle, plan: set<BundleDay>, fs: Store, k: Key, o: Object)
    requires DataKept(fs0, b, plan, fs) && (IsData(k) ==> k !in fs && k in b.members && o == b.members[k])
    ensures DataKept(fs0, b, plan, fs[k := o])
  {
  }

  lemma BackedWrite(b: Bundle, plan: set<BundleDay>, fs: Store, k: Key, o: Object)
    requires Parsed(b, plan)
    requires MarkersBacked(b, plan, fs) && (IsData(k) ==> k !in fs)
    requires forall p :: p in plan && p.MarkerOf() == k ==>
               o == Written(Day(DayIn(b, p))) && ObjectsIn(fs, b, p) && p.RunOf() in fs
    ensures MarkersBacked(b, plan, fs[k := o])
  {
    forall p | p in plan && ObjectsIn(fs, b, p) ensures ObjectsIn(fs[k := o], b, p) { ObjectsStay(fs, fs[k := o], b, p); }
  }

  lemma DataWrite(fs0: Store, b: Bundle, plan: set<BundleDay>, fs: Store, e: BundleDay, k: Key)
    requires Parsed(b, plan)
    requires Resumable(fs0, b, plan, fs) && e in plan && k in e.objects && IsData(k) && k !in fs
    requires k in b.members && KeyFits(k, b.members[k].content)
    ensures Resumable(fs0, b, plan, fs[k := b.members[k]])
  {
    UntouchedWrite(fs0, plan, fs, e, k, b.members[k]);
    DataKeptWrite(fs0, b, plan, fs, k, b.members[k]);
    BackedWrite(b, plan, fs, k, b.members[k]);
    SummariesKept(b, plan, fs, k, b.members[k]);
  }

  /** A data object changes no summary. */
  lemma SummariesKept(b: Bundle, plan: set<BundleDay>, fs: Store, k: Key, o: Object)
    requires WellKeyed(fs) && Parsed(b, plan)
    requires SummariesOk(b, plan, fs) && IsData(k) && KeyFits(k, o.content)
    ensures WellKeyed(fs[k := o]) && SummariesOk(b, plan, fs[k := o])
  {
    assert WellKeyed(fs[k := o]);
    forall p | p in plan && p.RunOf() in fs[k := o]
      ensures fs[k := o][p.RunOf()] == fs[p.RunOf()] && SummaryOk(b, plan, fs[k := o], p, fs[p.RunOf()].content.run) {
      SummaryFrame(b, plan, fs, p, k, o);
    }
  }

  lemma SummaryWrite(fs0: Store, b: Bundle, plan: set<BundleDay>, fs: Store, e: BundleDay, s: RunManifest)
    requires Parsed(b, plan)
    requires Resumable(fs0, b, plan, fs) && e in plan && e.MarkerOf() !in fs && e.RunOf() in e.objects
    requires Summary(RunIn(b, e), DaysIn(fs, e.resource, e.run) + {DayIn(b, e)}) == Some(s)
    requires s.resource == e.resource && s.runId == e.run
    ensures Resumable(fs0, b, plan, fs[e.RunOf() := Written(Run(s))])
  {
    var k, o := e.RunOf(), Written(Run(s));
    UntouchedWrite(fs0, plan, fs, e, k, o);
    DataKeptWrite(fs0, b, plan, fs, k, o);
    BackedWrite(b, plan, fs, k, o);
    DaysInFrame(fs, k, o, e.resource, e.run);
    var fs' := fs[k := o];
    forall p | p in plan && p.RunOf() in fs'
      ensures fs'[p.RunOf()] == Written(fs'[p.RunOf()].content) && SummaryOk(b, plan, fs', p, fs'[p.RunOf()].content.run)
    {
      if p.RunOf() == k {
        assert p.resource == e.resource && p.run == e.run;
        assert Unmarked(plan, fs', p, e);
      } else {
        SummaryFrame(b, plan, fs, p, k, o);
      }
    }
  }

  /** Committing the pending day makes it one of the committed days. */
  lemma MarkerAdds(fs: Store, b: Bundle, e: BundleDay)
    requires WellKeyed(fs) && DayAt(b.members, e).Some? && KeyFits(e.MarkerOf(), Day(DayIn(b, e))) && e.MarkerOf() !in fs
    ensures var fs' := fs[e.MarkerOf() := Written(Day(DayIn(b, e)))];
            WellKeyed(fs') && DaysIn(fs', e.resource, e.run) == DaysIn(fs, e.resource, e.run) + {DayIn(b, e)}
  {
  }

  lemma MarkerWrite(fs0: Store, b: Bundle, plan: set<BundleDay>, fs: Store, e: BundleDay)
    requires Parsed(b, plan)
    requires Resumable(fs0, b, plan, fs) && e in plan && e.MarkerOf() !in fs && ObjectsIn(fs, b, e) && e.RunOf() in fs
    requires KeyFits(e.MarkerOf(), Day(DayIn(b, e))) && e.MarkerOf() in e.objects
    requires forall p :: p in plan && p.MarkerOf() == e.MarkerOf() ==> p == e
    requires Summary(RunIn(b, e), DaysIn(fs, e.resource, e.run) + {DayIn(b, e)}) == Some(fs[e.RunOf()].content.run)
    ensures Resumable(fs0, b, plan, fs[e.MarkerOf() := Written(Day(DayIn(b, e)))])
  {
    var k, o := e.MarkerOf(), Written(Day(DayIn(b, e)));
    UntouchedWrite(fs0, plan, fs, e, k, o);
    DataKeptWrite(fs0, b, plan, fs, k, o);
    BackedWrite(b, plan, fs, k, o);
    MarkerSummaries(b, plan, fs, e);
  }

  lemma MarkerSummaries(b: Bundle, plan: set<BundleDay>, fs: Store, e: BundleDay)
    requires WellKeyed(fs) && Parsed(b, plan)
    requires SummariesOk(b, plan, fs) && e in plan && e.MarkerOf() !in fs && e.RunOf() in fs
    requires KeyFits(e.MarkerOf(), Day(DayIn(b, e)))
    requires Summary(RunIn(b, e), DaysIn(fs, e.resource, e.run) + {DayIn(b, e)}) == Some(fs[e.RunOf()].content.run)
    ensures var fs' := fs[e.MarkerOf() := Written(Day(DayIn(b, e)))]; WellKeyed(fs') && SummariesOk(b, plan, fs')
  {
    var k, o := e.MarkerOf(), Written(Day(DayIn(b, e)));
    var fs' := fs[k := o];
    MarkerAdds(fs, b, e);
    forall p | p in plan && p.RunOf() in fs' ensures SummaryOk(b, plan, fs', p, fs'[p.RunOf()].content.run) {
      if p.RunOf() == e.RunOf() {
        CommittedSummary(b, plan, fs, fs', e, p);
      } else {
        SummaryFrame(b, plan, fs, p, k, o);
      }
    }
  }

  /** The summary made with the pending day is that of the committed days now. */
  lemma CommittedSummary(b: Bundle, plan: set<BundleDay>, fs: Store, fs': Store, e: BundleDay, p: BundleDay)
    requires WellKeyed(fs) && WellKeyed(fs') && Parsed(b, plan) && e in plan && p in plan && p.RunOf() == e.RunOf()
    requires DaysIn(fs', e.resource, e.run) == DaysIn(fs, e.resource, e.run) + {DayIn(b, e)}
    requires e.RunOf() in fs && e.RunOf() in fs' && fs'[e.RunOf()] == fs[e.RunOf()]
    requires Summary(RunIn(b, e), DaysIn(fs, e.resource, e.run) + {DayIn(b, e)}) == Some(fs[e.RunOf()].content.run)
    ensures SummaryOk(b, plan, fs', p, fs'[p.RunOf()].content.run)
  {
    assert p.resource == e.resource && p.run == e.run && RunIn(b, p) == RunIn(b, e);
    assert DayIn(b, e) in DaysIn(fs', e.resource, e.run);
  }
}
