/** `import_bundle` as a sequence of atomic object writes, any of which may be the last
    before the process dies. */
module ImportSpec {
  import opened Wrappers
  import opened Control
  import opened Coverage
  import opened Projection
  import opened Archive

  /** The destination, the writes left before a crash, and whether the import has
      stopped: by that crash or by an error it raised. */
  datatype Machine = Machine(fs: Store, fuse: nat, stopped: bool)

  function Stop(m: Machine): Machine { m.(stopped := true) }

  function StopUnless(m: Machine, ok: bool): Machine { if ok then m else Stop(m) }

  function Write(m: Machine, k: Key, o: Object): Machine {
    if m.stopped then m else if m.fuse == 0 then Stop(m) else Machine(m.fs[k := o], m.fuse - 1, false)
  }

  /* Preflight. */

  ghost predicate Effective(fs: Store, b: Bundle, e: BundleDay)
    requires WellKeyed(fs)
  {
    Committed(Attempts(fs, e.resource, b.lo, b.hi, e.date)) != {}
  }

  ghost predicate Blocked(fs: Store, b: Bundle, e: BundleDay)
    requires WellKeyed(fs)
  {
    !Effective(fs, b, e) && ActiveRuns(fs, e.resource, e.date) != {}
  }

  /** The days to import, in bundle order. */
  ghost function Planned(fs: Store, b: Bundle, n: nat): seq<BundleDay>
    requires WellKeyed(fs) && n <= |b.days|
  {
    if n == 0 then []
    else
      var e := b.days[n - 1];
      Planned(fs, b, n - 1)
      + (if !Effective(fs, b, e) && ActiveRuns(fs, e.resource, e.date) == {} then [e] else [])
  }

  /** The day markers of a run. */
  function DaysIn(fs: Store, resource: string, run: RunId): (days: set<DayManifest>)
    requires WellKeyed(fs)
    ensures forall d :: d in days <==> d.runId == run && HasDay(fs, resource, d)
  {
    set k | k in fs && k.DayKey? && k.resource == resource && k.run == run :: fs[k].content.day
  }

  ghost predicate ExtraFile(fs: Store, e: BundleDay) {
    exists k :: k in fs && e.OwnsFile(k) && k !in e.objects
  }

  ghost predicate Different(fs: Store, b: Bundle, e: BundleDay) {
    exists k :: k in e.objects && k != e.RunOf() && k in fs && k in b.objects && fs[k].digest != b.objects[k]
  }

  /** A bundle day of the same run that the destination does not have. */
  ghost predicate Pending(fs: Store, b: Bundle, e: BundleDay, p: BundleDay)
    requires WellKeyed(fs)
  {
    p in b.days && p.RunOf() == e.RunOf() && forall d :: d in DaysIn(fs, e.resource, e.run) ==> d.date != p.date
  }

  /** The summaries preflight compares with can all be computed. */
  ghost predicate Summarizable(fs: Store, b: Bundle, e: BundleDay)
    requires WellKeyed(fs) && Sound(b) && e in b.days
  {
    var source, days := RunIn(b, e), DaysIn(fs, e.resource, e.run);
    && (days != {} ==> Summary(source, days).Some?)
    && (forall p :: Pending(fs, b, e, p) ==> Summary(source, days + {DayIn(b, p)}).Some?)
  }

  /** The summary of the committed days, or of these and one pending day. */
  ghost predicate Candidate(fs: Store, b: Bundle, e: BundleDay, s: RunManifest)
    requires WellKeyed(fs) && Sound(b) && e in b.days
  {
    var source, days := RunIn(b, e), DaysIn(fs, e.resource, e.run);
    || (days != {} && Summary(source, days) == Some(s))
    || exists p :: Pending(fs, b, e, p) && Summary(source, days + {DayIn(b, p)}) == Some(s)
  }

  /** The destination holds committed days of this run only, and no run summary but
      one of those. */
  ghost predicate RunCompatible(fs: Store, b: Bundle, e: BundleDay)
    requires WellKeyed(fs) && Sound(b) && e in b.days
  {
    var current := ReadRun(fs, e.resource, e.run);
    && (forall d :: d in DaysIn(fs, e.resource, e.run) ==> d.status == Success)
    && Summarizable(fs, b, e)
    && (current.Some? ==> Candidate(fs, b, e, current.value))
  }

  ghost predicate Clean(fs: Store, b: Bundle)
    requires WellKeyed(fs) && Sound(b)
  {
    && (forall e :: e in b.days ==> !Blocked(fs, b, e))
    && (forall e :: e in b.days && e in Planned(fs, b, |b.days|) ==>
          !ExtraFile(fs, e) && !Different(fs, b, e) && RunCompatible(fs, b, e))
  }

  /* The steps of one day. */

  /** The archive has this object, under its digest. */
  predicate Packed(b: Bundle, k: Key) {
    k in b.objects && k in b.members && b.members[k].digest == b.objects[k] && KeyFits(k, b.members[k].content)
  }

  /** Objects are added, none is changed. */
  ghost predicate Grows(fs: Store, fs': Store) {
    forall k :: k in fs ==> k in fs' && fs'[k] == fs[k]
  }

  function PutMissing(m: Machine, b: Bundle, k: Key): (next: Machine)
    requires Packed(b, k)
    ensures WellKeyed(m.fs) ==> WellKeyed(next.fs)
    ensures Grows(m.fs, next.fs)
  {
    if m.stopped then m
    else if k in m.fs then StopUnless(m, m.fs[k].digest == b.objects[k])
    else Write(m, k, b.members[k])
  }

  function PutAll(m: Machine, b: Bundle, keys: seq<Key>, n: nat): (next: Machine)
    requires n <= |keys| && forall k :: k in keys ==> Packed(b, k)
    ensures WellKeyed(m.fs) ==> WellKeyed(next.fs)
    ensures Grows(m.fs, next.fs)
  {
    if n == 0 then m else PutMissing(PutAll(m, b, keys, n - 1), b, keys[n - 1])
  }

  /** `_check_objects` */
  ghost predicate Checked(fs: Store, b: Bundle, keys: seq<Key>)
  {
    forall k :: k in keys ==> k in fs && k in b.objects && fs[k].digest == b.objects[k]
  }

  function Files(keys: seq<Key>): seq<Key> {
    if keys == [] then []
    else Files(keys[..|keys| - 1]) + (if keys[|keys| - 1].FileKey? then [keys[|keys| - 1]] else [])
  }

  /** The control objects of a day but its marker and its run header. */
  function Metadata(e: BundleDay, keys: seq<Key>): seq<Key> {
    if keys == [] then []
    else
      var k := keys[|keys| - 1];
      Metadata(e, keys[..|keys| - 1]) + (if !k.FileKey? && k != e.RunOf() && k != e.MarkerOf() then [k] else [])
  }

  lemma {:induction false} FilesMeaning(keys: seq<Key>)
    ensures forall k :: k in Files(keys) <==> k in keys && k.FileKey?
  {
    if keys != [] {
      FilesMeaning(keys[..|keys| - 1]);
      assert keys == keys[..|keys| - 1] + [keys[|keys| - 1]];
    }
  }

  lemma {:induction false} MetadataMeaning(e: BundleDay, keys: seq<Key>)
    ensures forall k :: k in Metadata(e, keys) <==> k in keys && !k.FileKey? && k != e.RunOf() && k != e.MarkerOf()
  {
    if keys != [] {
      MetadataMeaning(e, keys[..|keys| - 1]);
      assert keys == keys[..|keys| - 1] + [keys[|keys| - 1]];
    }
  }

  /** `{**days, day.source_date: day}` */
  function WithDay(days: set<DayManifest>, day: DayManifest): set<DayManifest> {
    (set d | d in days && d.date != day.date) + {day}
  }

  lemma ProjectedFits(source: RunManifest, days: set<DayManifest>)
    ensures Summary(source, days).Some? ==>
              Summary(source, days).value.resource == source.resource && Summary(source, days).value.runId == source.runId
  {
  }

  /** `_put_run`: bring the run summary up to the day about to be committed. */
  ghost function PutRun(m: Machine, b: Bundle, e: BundleDay): (next: Machine)
    requires SoundDay(b, e) && WellKeyed(m.fs)
    ensures WellKeyed(next.fs)
  {
    if m.stopped then m
    else
      var projected := Summary(RunIn(b, e), WithDay(DaysIn(m.fs, e.resource, e.run), DayIn(b, e)));
      ProjectedFits(RunIn(b, e), WithDay(DaysIn(m.fs, e.resource, e.run), DayIn(b, e)));
      assert Packed(b, e.RunOf());
      if projected.None? then Stop(m)
      else if ReadRun(m.fs, e.resource, e.run) == projected then m
      else Write(m, e.RunOf(), Written(Run(projected.value)))
  }

  /** `commit_day_manifest` */
  ghost function Commit(m: Machine, b: Bundle, e: BundleDay): (next: Machine)
    requires SoundDay(b, e)
    ensures WellKeyed(m.fs) ==> WellKeyed(next.fs)
  {
    assert Packed(b, e.MarkerOf());
    Write(m, e.MarkerOf(), Written(Day(DayIn(b, e))))
  }

  lemma KeysPacked(b: Bundle, e: BundleDay)
    requires SoundDay(b, e)
    ensures forall k :: k in e.objects ==> Packed(b, k)
    ensures forall k :: k in Files(e.objects) ==> Packed(b, k)
    ensures forall k :: k in Metadata(e, e.objects) ==> Packed(b, k)
  {
    FilesMeaning(e.objects);
    MetadataMeaning(e, e.objects);
  }

  /** The data and page objects of a day, up to where its marker could be written. */
  ghost function PutObjects(m: Machine, b: Bundle, e: BundleDay): (next: Machine)
    requires SoundDay(b, e)
    ensures WellKeyed(m.fs) ==> WellKeyed(next.fs)
  {
    KeysPacked(b, e);
    var files, metadata := Files(e.objects), Metadata(e, e.objects);
    var m1 := PutAll(m, b, files, |files|);
    var m2 := StopUnless(m1, Checked(m1.fs, b, files) && Verified(m1.fs, e, DayIn(b, e)));
    var m3 := PutAll(m2, b, metadata, |metadata|);
    StopUnless(m3, Checked(m3.fs, b, metadata))
  }

  /** A day up to its commit. */
  ghost function Prepare(m: Machine, b: Bundle, e: BundleDay): (next: Machine)
    requires SoundDay(b, e) && WellKeyed(m.fs)
    ensures WellKeyed(next.fs)
  {
    PutRun(PutObjects(m, b, e), b, e)
  }

  /** Its commit, and the check of the committed data. */
  ghost function Finish(m: Machine, b: Bundle, e: BundleDay): (next: Machine)
    requires SoundDay(b, e) && WellKeyed(m.fs)
    ensures WellKeyed(next.fs)
  {
    var committed := Commit(m, b, e);
    StopUnless(committed, Verified(committed.fs, e, DayIn(b, e)))
  }

  ghost function ImportDay(m: Machine, b: Bundle, e: BundleDay): (next: Machine)
    requires SoundDay(b, e) && WellKeyed(m.fs)
    ensures WellKeyed(next.fs)
  {
    Finish(Prepare(m, b, e), b, e)
  }

  /** The days from the `i`th on. */
  ghost function ImportDays(m: Machine, b: Bundle, days: seq<BundleDay>, i: nat): (next: Machine)
    requires WellKeyed(m.fs) && i <= |days| && forall e :: e in days ==> SoundDay(b, e)
    ensures WellKeyed(next.fs)
    decreases |days| - i
  {
    if i == |days| then m else ImportDays(ImportDay(m, b, days[i]), b, days, i + 1)
  }

  lemma {:induction false} PlannedMeaning(fs: Store, b: Bundle, n: nat)
    requires WellKeyed(fs) && n <= |b.days|
    ensures forall e :: e in Planned(fs, b, n) <==>
              e in b.days[..n] && !Effective(fs, b, e) && ActiveRuns(fs, e.resource, e.date) == {}
  {
    if n > 0 {
      PlannedMeaning(fs, b, n - 1);
      assert b.days[..n] == b.days[..n - 1] + [b.days[n - 1]];
    }
  }

  lemma PlannedNext(fs: Store, b: Bundle, i: nat)
    requires WellKeyed(fs) && i < |b.days|
    ensures var e := b.days[i];
            Planned(fs, b, i + 1) == if !Effective(fs, b, e) && ActiveRuns(fs, e.resource, e.date) == {}
                                     then Planned(fs, b, i) + [e] else Planned(fs, b, i)
  {
  }

  /** One run of `import_bundle` on a destination, dying after `fuse` writes. */
  ghost function Import(fs: Store, b: Bundle, fuse: nat): (m: Machine)
    requires Sound(b) && WellKeyed(fs)
    ensures WellKeyed(m.fs)
  {
    var planned := Planned(fs, b, |b.days|);
    PlannedMeaning(fs, b, |b.days|);
    assert b.days[..|b.days|] == b.days;
    if !Clean(fs, b) then Machine(fs, fuse, true) else ImportDays(Machine(fs, fuse, false), b, planned, 0)
  }
}
