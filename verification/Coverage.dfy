/** `read_coverage`: which attempt is effective for each day, which is the latest, and
    which runs may still get to it. */
module Coverage {
  import opened Wrappers
  import opened Collections
  import opened Control

  datatype CoverageDay = CoverageDay(date: int, effective: Option<DayManifest>, latest: Option<DayManifest>,
                                     active: seq<RunId>)
  {
    function Status(): string {
      if effective.Some? then "success"
      else if active != [] then "running"
      else if latest.None? then "no_attempt" else "failed"
    }
  }

  /* What the store says about a date, read over `lo..hi`. */

  /** The run has a header that reaches into the range. */
  predicate Listed(fs: Store, resource: string, run: RunId, lo: int, hi: int)
    requires WellKeyed(fs)
  {
    var header := ReadRun(fs, resource, run);
    header.Some? && header.value.end >= lo && header.value.start <= hi
  }

  predicate HasDay(fs: Store, resource: string, day: DayManifest)
    requires WellKeyed(fs)
  {
    ReadDay(fs, resource, day.runId, day.date) == Some(day)
  }

  function Attempts(fs: Store, resource: string, lo: int, hi: int, date: int): (days: set<DayManifest>)
    requires WellKeyed(fs)
    ensures forall d :: d in days <==> d.date == date && HasDay(fs, resource, d) && Listed(fs, resource, d.runId, lo, hi)
  {
    set k | k in fs && k.DayKey? && k.resource == resource && k.date == date && Listed(fs, resource, k.run, lo, hi)
      :: fs[k].content.day
  }

  /** A running run whose range holds the date and that has not finished it. */
  predicate Reaches(fs: Store, resource: string, run: RunId, date: int)
    requires WellKeyed(fs)
  {
    var header, day := ReadRun(fs, resource, run), ReadDay(fs, resource, run, date);
    && header.Some? && header.value.status == RunRunning && header.value.start <= date <= header.value.end
    && (day.Some? ==> day.value.status == Running)
  }

  function ActiveRuns(fs: Store, resource: string, date: int): (runs: set<RunId>)
    requires WellKeyed(fs)
    ensures forall r :: r in runs <==> Reaches(fs, resource, r, date)
  {
    set k | k in fs && k.RunKey? && k.resource == resource && Reaches(fs, resource, k.run, date) :: k.run
  }

  ghost predicate Covers(fs: Store, resource: string, lo: int, hi: int, c: CoverageDay)
    requires WellKeyed(fs)
  {
    var attempts := Attempts(fs, resource, lo, hi, c.date);
    && IsLatest(Committed(attempts), c.effective)
    && IsLatest(attempts, c.latest)
    && forall r :: r in c.active <==> r in ActiveRuns(fs, resource, c.date)
  }

  /** The states a reader shows, told from the store alone. */
  lemma StatusMeaning(fs: Store, resource: string, lo: int, hi: int, c: CoverageDay)
    requires WellKeyed(fs) && Covers(fs, resource, lo, hi, c)
    ensures var attempts := Attempts(fs, resource, lo, hi, c.date);
            && (c.Status() == "success" <==> Committed(attempts) != {})
            && (c.Status() == "running" <==> Committed(attempts) == {} && ActiveRuns(fs, resource, c.date) != {})
            && (c.Status() == "failed" <==> Committed(attempts) == {} && ActiveRuns(fs, resource, c.date) == {} && attempts != {})
  {
    if c.active != [] { assert c.active[0] in c.active && c.active[0] in ActiveRuns(fs, resource, c.date); }
    assert "success" != "running" && "no_attempt"[0] == 'n' && "failed"[0] == 'f' && "running"[0] == 'r' && "success"[0] == 's';
  }

  /* The scan. */

  function Get<T>(m: map<int, seq<T>>, k: int): seq<T> {
    if k in m then m[k] else []
  }

  method ListRuns(fs: Store, resource: string, lo: int, hi: int) returns (runs: seq<RunManifest>)
    requires WellKeyed(fs)
    ensures forall r :: r in runs <==> ReadRun(fs, resource, r.runId) == Some(r) && r.end >= lo && r.start <= hi
  {
    var keys := Enumerate(set k | k in fs && k.RunKey? && k.resource == resource);
    runs := [];
    for i := 0 to |keys|
      invariant forall r :: r in runs <==>
                  RunKey(resource, r.runId) in keys[..i] && ReadRun(fs, resource, r.runId) == Some(r)
                  && r.end >= lo && r.start <= hi
    {
      assert keys[i] in keys;
      var header := fs[keys[i]].content.run;
      if header.end >= lo && header.start <= hi {
        runs := runs + [header];
      }
    }
    assert keys[..|keys|] == keys;
  }

  method ListDays(fs: Store, resource: string, run: RunId) returns (days: seq<DayManifest>)
    requires WellKeyed(fs)
    ensures forall d :: d in days <==> d.runId == run && HasDay(fs, resource, d)
    ensures forall i, j :: 0 <= i < j < |days| ==> days[i].date != days[j].date
  {
    var keys := Enumerate(set k | k in fs && k.DayKey? && k.resource == resource && k.run == run);
    days := [];
    for i := 0 to |keys|
      invariant |days| == i && forall j :: 0 <= j < i ==> keys[j] in fs && fs[keys[j]].content == Day(days[j])
    {
      assert keys[i] in keys;
      days := days + [fs[keys[i]].content.day];
    }
    forall d ensures d in days <==> d.runId == run && HasDay(fs, resource, d) {
      if d in days {
        var j :| 0 <= j < |days| && days[j] == d;
        assert keys[j] in keys;
      }
      if d.runId == run && HasDay(fs, resource, d) {
        assert DayKey(resource, run, d.date) in keys;
        var j :| 0 <= j < |keys| && keys[j] == DayKey(resource, run, d.date);
        assert days[j] == d;
      }
    }
    forall i, j | 0 <= i < j < |days| ensures days[i].date != days[j].date {
      assert keys[i] in keys && keys[j] in keys && keys[i] != keys[j];
    }
  }

  /** `setdefault(date, []).append(item)` */
  function Filed<T>(byDate: map<int, seq<T>>, date: int, item: T): (filed: map<int, seq<T>>)
    ensures forall d :: Get(filed, d) == if d == date then Get(byDate, d) + [item] else Get(byDate, d)
  {
    byDate[date := Get(byDate, date) + [item]]
  }

  /** The attempts of one run, filed by date. */
  method FileDays(byDate: map<int, seq<DayManifest>>, days: seq<DayManifest>, lo: int, hi: int)
    returns (filed: map<int, seq<DayManifest>>)
    ensures forall date, d :: lo <= date <= hi ==>
              (d in Get(filed, date) <==> d in Get(byDate, date) || (d in days && d.date == date))
  {
    filed := byDate;
    for i := 0 to |days|
      invariant forall date, d :: lo <= date <= hi ==>
                  (d in Get(filed, date) <==> d in Get(byDate, date) || (d in days[..i] && d.date == date))
    {
      if lo <= days[i].date <= hi {
        filed := Filed(filed, days[i].date, days[i]);
      }
      assert days[..i + 1] == days[..i] + [days[i]];
    }
    assert days[..|days|] == days;
  }

  /** The dates a running run may still get to. */
  method FileActive(active: map<int, seq<RunId>>, run: RunManifest, completed: set<int>, lo: int, hi: int)
    returns (filed: map<int, seq<RunId>>)
    ensures forall date, r :: lo <= date <= hi ==>
              (r in Get(filed, date) <==>
               r in Get(active, date) || (r == run.runId && run.start <= date <= run.end && date !in completed))
  {
    filed := active;
    var cursor := if lo < run.start then run.start else lo;
    while cursor <= hi && cursor <= run.end
      invariant lo <= cursor && run.start <= cursor && (cursor == lo || cursor == run.start || cursor <= hi + 1)
      invariant forall date, r :: lo <= date <= hi ==>
                  (r in Get(filed, date) <==>
                   r in Get(active, date)
                   || (r == run.runId && run.start <= date <= run.end && date !in completed && date < cursor))
      decreases hi - cursor
    {
      if cursor !in completed {
        filed := Filed(filed, cursor, run.runId);
      }
      cursor := cursor + 1;
    }
  }

  ghost predicate DaysFiled(fs: Store, resource: string, lo: int, hi: int, runs: seq<RunManifest>,
                            byDate: map<int, seq<DayManifest>>)
    requires WellKeyed(fs)
  {
    forall date, d :: lo <= date <= hi ==>
      (d in Get(byDate, date) <==> d.date == date && HasDay(fs, resource, d) && RunAmong(runs, d.runId))
  }

  ghost predicate RunsFiled(fs: Store, resource: string, lo: int, hi: int, runs: seq<RunManifest>,
                            active: map<int, seq<RunId>>)
    requires WellKeyed(fs)
  {
    forall date, r :: lo <= date <= hi ==>
      (r in Get(active, date) <==> RunAmong(runs, r) && Reaches(fs, resource, r, date))
  }

  lemma DaysFiledNext(fs: Store, resource: string, lo: int, hi: int, runs: seq<RunManifest>, i: nat,
                      before: map<int, seq<DayManifest>>, days: seq<DayManifest>, after: map<int, seq<DayManifest>>)
    requires WellKeyed(fs) && i < |runs| && DaysFiled(fs, resource, lo, hi, runs[..i], before)
    requires forall d :: d in days <==> d.runId == runs[i].runId && HasDay(fs, resource, d)
    requires forall date, d :: lo <= date <= hi ==>
               (d in Get(after, date) <==> d in Get(before, date) || (d in days && d.date == date))
    ensures DaysFiled(fs, resource, lo, hi, runs[..i + 1], after)
  {
    RunAmongNext(runs, i);
  }

  lemma RunsFiledNext(fs: Store, resource: string, lo: int, hi: int, runs: seq<RunManifest>, i: nat,
                      before: map<int, seq<RunId>>, after: map<int, seq<RunId>>)
    requires WellKeyed(fs) && i < |runs| && RunsFiled(fs, resource, lo, hi, runs[..i], before)
    requires forall date, r :: lo <= date <= hi ==>
               (r in Get(after, date) <==> r in Get(before, date) || (r == runs[i].runId && Reaches(fs, resource, r, date)))
    ensures RunsFiled(fs, resource, lo, hi, runs[..i + 1], after)
  {
    RunAmongNext(runs, i);
  }

  method ReadCoverage(fs: Store, resource: string, lo: int, hi: int) returns (result: Option<seq<CoverageDay>>)
    requires WellKeyed(fs)
    ensures result.None? <==> lo > hi
    ensures result.Some? ==> |result.value| == hi - lo + 1
                             && forall i :: 0 <= i < |result.value| ==>
                                  result.value[i].date == lo + i && Covers(fs, resource, lo, hi, result.value[i])
  {
    if lo > hi {
      return None;
    }
    var byDate: map<int, seq<DayManifest>>, active: map<int, seq<RunId>> := map[], map[];
    var runs := ListRuns(fs, resource, lo, hi);
    for i := 0 to |runs|
      invariant DaysFiled(fs, resource, lo, hi, runs[..i], byDate)
      invariant RunsFiled(fs, resource, lo, hi, runs[..i], active)
    {
      var run := runs[i];
      ghost var byDate0, active0 := byDate, active;
      assert run in runs;
      var days := ListDays(fs, resource, run.runId);
      byDate := FileDays(byDate, days, lo, hi);
      DaysFiledNext(fs, resource, lo, hi, runs, i, byDate0, days, byDate);
      if run.status == RunRunning {
        var completed := set d | d in days && d.status != Running :: d.date;
        CompletedDates(fs, resource, run.runId, days, completed);
        active := FileActive(active, run, completed, lo, hi);
      }
      RunsFiledNext(fs, resource, lo, hi, runs, i, active0, active);
    }
    assert runs[..|runs|] == runs;
    forall r ensures RunAmong(runs, r) <==> Listed(fs, resource, r, lo, hi) { AmongListed(fs, resource, lo, hi, runs, r); }
    var days: seq<CoverageDay> := [];
    for date := lo to hi + 1
      invariant |days| == date - lo
      invariant forall i :: 0 <= i < |days| ==> days[i].date == lo + i && Covers(fs, resource, lo, hi, days[i])
    {
      var attempts := Get(byDate, date);
      LatestIsLatest(attempts);
      EffectiveMeaning(attempts);
      assert Elements(attempts) == Attempts(fs, resource, lo, hi, date);
      days := days + [CoverageDay(date, EffectiveAttempt(attempts), Latest(attempts), Get(active, date))];
    }
    return Some(days);
  }

  predicate RunAmong(runs: seq<RunManifest>, run: RunId) {
    exists i :: 0 <= i < |runs| && runs[i].runId == run
  }

  lemma RunAmongNext(runs: seq<RunManifest>, i: nat)
    requires i < |runs|
    ensures forall r :: RunAmong(runs[..i + 1], r) <==> RunAmong(runs[..i], r) || r == runs[i].runId
  {
  }

  lemma AmongListed(fs: Store, resource: string, lo: int, hi: int, runs: seq<RunManifest>, run: RunId)
    requires WellKeyed(fs)
    requires forall r :: r in runs <==> ReadRun(fs, resource, r.runId) == Some(r) && r.end >= lo && r.start <= hi
    ensures RunAmong(runs, run) <==> Listed(fs, resource, run, lo, hi)
  {
  }

  lemma CompletedDates(fs: Store, resource: string, run: RunId, days: seq<DayManifest>, completed: set<int>)
    requires WellKeyed(fs) && forall d :: d in days <==> d.runId == run && HasDay(fs, resource, d)
    requires completed == set d | d in days && d.status != Running :: d.date
    ensures forall date :: date in completed <==>
              ReadDay(fs, resource, run, date).Some? && ReadDay(fs, resource, run, date).value.status != Running
  {
  }
}
