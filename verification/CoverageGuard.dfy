/** `CoverageGuard`: a coverage read for one day that caches the headers of terminal
    runs, and why it sees what a fresh scan of the store would. */
module CoverageGuard {
  import opened Wrappers
  import opened Collections
  import opened Control
  import opened Coverage

  predicate IsControl(k: Key) { k.RunKey? || k.DayKey? || k.PageKey? }

  /** The runs that have any control object. */
  function RunDirs(fs: Store, resource: string): (runs: set<RunId>)
    ensures forall r :: r in runs <==> exists k :: k in fs && IsControl(k) && k.resource == resource && k.run == r
  {
    set k | k in fs && IsControl(k) && k.resource == resource :: k.run
  }

  predicate Terminal(header: RunManifest) { header.status != RunRunning }

  /** Between two reads the store may change in any way that keeps the header of a
      terminal run for as long as the run has objects. */
  ghost predicate TerminalKept(before: Store, after: Store, resource: string)
    requires WellKeyed(before) && WellKeyed(after)
  {
    forall r :: ReadRun(before, resource, r).Some? && Terminal(ReadRun(before, resource, r).value)
                && r in RunDirs(after, resource) ==>
      ReadRun(after, resource, r) == ReadRun(before, resource, r)
  }

  ghost predicate AllHeaded(fs: Store, resource: string)
    requires WellKeyed(fs)
  {
    forall r :: r in RunDirs(fs, resource) ==> ReadRun(fs, resource, r).Some?
  }

  /** Two reads of a store agree, whatever order they met its runs in. */
  lemma CoversAgree(fs: Store, resource: string, lo: int, hi: int, a: CoverageDay, b: CoverageDay)
    requires WellKeyed(fs) && a.date == b.date && Covers(fs, resource, lo, hi, a) && Covers(fs, resource, lo, hi, b)
    requires DistinctStarts(Attempts(fs, resource, lo, hi, a.date))
    ensures a.effective == b.effective && a.latest == b.latest && forall r :: r in a.active <==> r in b.active
  {
    var attempts := Attempts(fs, resource, lo, hi, a.date);
    LatestUnique(attempts, a.latest, b.latest);
    LatestUnique(Committed(attempts), a.effective, b.effective);
  }

  /** Attempts and active runs found among the runs looked at so far. */
  ghost predicate Scanned(fs: Store, resource: string, day: int, runs: seq<RunId>,
                          attempts: seq<DayManifest>, active: seq<RunId>)
    requires WellKeyed(fs)
  {
    && (forall d :: d in attempts <==> d in Attempts(fs, resource, day, day, day) && d.runId in runs)
    && (forall r :: r in active <==> r in ActiveRuns(fs, resource, day) && r in runs)
  }

  lemma ScannedNext(fs: Store, resource: string, day: int, runs: seq<RunId>, i: nat,
                    attempts: seq<DayManifest>, active: seq<RunId>, attempts': seq<DayManifest>, active': seq<RunId>)
    requires WellKeyed(fs) && i < |runs| && Scanned(fs, resource, day, runs[..i], attempts, active)
    requires var found := Listed(fs, resource, runs[i], day, day); var attempt := ReadDay(fs, resource, runs[i], day);
             && attempts' == attempts + (if found && attempt.Some? then [attempt.value] else [])
             && active' == active + (if Reaches(fs, resource, runs[i], day) then [runs[i]] else [])
    ensures Scanned(fs, resource, day, runs[..i + 1], attempts', active')
  {
  }

  class Guard {
    const resource: string
    var headers: map<RunId, RunManifest>

    /** The store as the last read found it. */
    ghost var seen: Store

    ghost predicate Valid()
      reads this
    {
      && WellKeyed(seen)
      && forall r :: r in headers && Terminal(headers[r]) ==> ReadRun(seen, resource, r) == Some(headers[r])
    }

    constructor (resource: string)
      ensures Valid() && this.resource == resource && headers == map[] && seen == map[]
    {
      this.resource := resource;
      headers, seen := map[], map[];
    }

    /** The header of a run: from the cache when terminal, else read again. */
    method Header(fs: Store, run: RunId) returns (header: Option<RunManifest>)
      requires WellKeyed(fs) && Valid() && seen == fs
      modifies `headers
      ensures Valid() && header == ReadRun(fs, resource, run)
    {
      if run in headers && Terminal(headers[run]) {
        return Some(headers[run]);
      }
      header := ReadRun(fs, resource, run);
      if header.Some? {
        headers := headers[run := header.value];
      }
    }

    /** Forget the runs that are gone. */
    method Forget(fs: Store)
      requires Valid() && WellKeyed(fs) && TerminalKept(seen, fs, resource)
      modifies this
      ensures Valid() && seen == fs
    {
      headers := map r | r in headers && r in RunDirs(fs, resource) :: headers[r];
      seen := fs;
    }

    /** What one run contributes to the day: its attempt, and whether it is active. */
    method Check(fs: Store, run: RunId, day: int) returns (known: bool, attempt: Option<DayManifest>, active: bool)
      requires Valid() && WellKeyed(fs) && seen == fs
      modifies `headers
      ensures Valid() && known == ReadRun(fs, resource, run).Some?
      ensures known ==> attempt == (if Listed(fs, resource, run, day, day) then ReadDay(fs, resource, run, day) else None)
      ensures known ==> active == Reaches(fs, resource, run, day)
    {
      var header := Header(fs, run);
      if header.None? {
        return false, None, false;
      }
      if !(header.value.start <= day <= header.value.end) {
        return true, None, false;
      }
      attempt := ReadDay(fs, resource, run, day);
      active := header.value.status == RunRunning && (attempt.None? || attempt.value.status == Running);
      return true, attempt, active;
    }

    /** It returns exactly when every run directory has a header, and then what a fresh
        scan of the day finds. */
    method Read(fs: Store, day: int) returns (found: Option<CoverageDay>)
      requires Valid() && WellKeyed(fs) && TerminalKept(seen, fs, resource)
      modifies this
      ensures Valid() && seen == fs
      ensures found.Some? <==> AllHeaded(fs, resource)
      ensures found.Some? ==> found.value.date == day && Covers(fs, resource, day, day, found.value)
    {
      Forget(fs);
      var runs := Enumerate(RunDirs(fs, resource));
      var attempts: seq<DayManifest>, active: seq<RunId> := [], [];
      for i := 0 to |runs|
        invariant Valid() && seen == fs
        invariant Scanned(fs, resource, day, runs[..i], attempts, active)
        invariant forall j :: 0 <= j < i ==> ReadRun(fs, resource, runs[j]).Some?
      {
        assert runs[i] in runs;
        var known, attempt, isActive := Check(fs, runs[i], day);
        if !known {
          return None;
        }
        ghost var attempts0, active0 := attempts, active;
        if attempt.Some? {
          attempts := attempts + [attempt.value];
        }
        if isActive {
          active := active + [runs[i]];
        }
        ScannedNext(fs, resource, day, runs, i, attempts0, active0, attempts, active);
      }
      assert runs[..|runs|] == runs;
      AllScanned(fs, resource, day, runs, attempts, active);
      LatestIsLatest(attempts);
      EffectiveMeaning(attempts);
      return Some(CoverageDay(day, EffectiveAttempt(attempts), Latest(attempts), active));
    }
  }

  lemma AllScanned(fs: Store, resource: string, day: int, runs: seq<RunId>,
                   attempts: seq<DayManifest>, active: seq<RunId>)
    requires WellKeyed(fs) && Scanned(fs, resource, day, runs, attempts, active)
    requires forall r :: r in RunDirs(fs, resource) ==> r in runs
    ensures Elements(attempts) == Attempts(fs, resource, day, day, day)
    ensures forall r :: r in active <==> r in ActiveRuns(fs, resource, day)
  {
  }
}
