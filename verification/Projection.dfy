/** `project_import_run`: the run summary an import writes for the days it has
    transferred. It does not depend on the order the days are listed in. */
module Projection {
  import opened Wrappers
  import opened Collections
  import opened Control

  predicate Completed(schemaVersion: int, success: bool, startedAt: int, completedAt: Option<int>) {
    schemaVersion == 1 && success && completedAt.Some? && completedAt.value >= startedAt
  }

  predicate CompletedDay(day: DayManifest) {
    Completed(day.schemaVersion, day.status == Success, day.startedAt, day.completedAt)
  }

  /** A finished day of this run. */
  predicate DayOf(source: RunManifest, day: DayManifest) {
    CompletedDay(day) && day.runId == source.runId && day.resource == source.resource && day.source == source.source
  }

  predicate DistinctDates(days: seq<DayManifest>) {
    forall i, j :: 0 <= i < j < |days| ==> days[i].date != days[j].date
  }

  function Dates(days: seq<DayManifest>): seq<int> {
    seq(|days|, i requires 0 <= i < |days| => days[i].date)
  }

  function Ends(days: seq<DayManifest>): seq<int>
    requires forall d :: d in days ==> d.completedAt.Some?
  {
    seq(|days|, i requires 0 <= i < |days| => days[i].completedAt.value)
  }

  function Min(xs: seq<int>): int
    requires xs != []
  {
    if |xs| == 1 || xs[|xs| - 1] < Min(xs[..|xs| - 1]) then xs[|xs| - 1] else Min(xs[..|xs| - 1])
  }

  function Max(xs: seq<int>): int
    requires xs != []
  {
    if |xs| == 1 || xs[|xs| - 1] > Max(xs[..|xs| - 1]) then xs[|xs| - 1] else Max(xs[..|xs| - 1])
  }

  lemma {:induction false} MinIsLeast(xs: seq<int>)
    requires xs != []
    ensures Min(xs) in xs && forall i :: 0 <= i < |xs| ==> Min(xs) <= xs[i]
  {
    if |xs| > 1 { MinIsLeast(xs[..|xs| - 1]); }
  }

  lemma {:induction false} MaxIsGreatest(xs: seq<int>)
    requires xs != []
    ensures Max(xs) in xs && forall i :: 0 <= i < |xs| ==> xs[i] <= Max(xs)
  {
    if |xs| > 1 { MaxIsGreatest(xs[..|xs| - 1]); }
  }

  /** The header of a finished run of this day alone. */
  predicate SingleDay(source: RunManifest, day: DayManifest) {
    && source.start == source.end == day.date
    && source.status == RunSuccess && source.completedAt.Some?
    && source.totalDates == source.successDates == 1 && source.failedDates == 0
  }

  /** The original manifest of a finished single-day run is kept as it is. */
  predicate KeepsOriginal(source: RunManifest, days: seq<DayManifest>) {
    |days| == 1 && SingleDay(source, days[0])
  }

  /** None when the source raises. */
  function ProjectImportRun(source: RunManifest, days: seq<DayManifest>): Option<RunManifest> {
    if !(forall d :: d in days ==> DayOf(source, d)) then None
    else if days == [] || !DistinctDates(days) then None
    else if KeepsOriginal(source, days) then Some(source)
    else Some(source.(start := Min(Dates(days)), end := Max(Dates(days)), status := RunSuccess,
                      totalDates := |days|, successDates := |days|, failedDates := 0,
                      completedAt := Some(Max(Ends(days)))))
  }

  /** A listing of some days, each once, with one day per date. */
  ghost predicate ListsDays(listing: seq<DayManifest>, days: set<DayManifest>) {
    Lists(listing, days) && DistinctDates(listing)
  }

  /** Two listings of the same days give the same summary. */
  lemma ProjectionOrderFree(source: RunManifest, days: set<DayManifest>, a: seq<DayManifest>, b: seq<DayManifest>)
    requires ListsDays(a, days) && ListsDays(b, days)
    ensures ProjectImportRun(source, a) == ProjectImportRun(source, b)
  {
    SameLength(a, b);
    if a != [] && forall d :: d in a ==> DayOf(source, d) {
      SameExtremes(a, b);
      assert |a| == 1 ==> a[0] == b[0] by { assert a[0] in b; }
    }
  }

  lemma SameExtremes(a: seq<DayManifest>, b: seq<DayManifest>)
    requires a != [] && b != [] && forall d :: d in a <==> d in b
    requires forall d :: d in a ==> d.completedAt.Some?
    ensures Min(Dates(a)) == Min(Dates(b)) && Max(Dates(a)) == Max(Dates(b)) && Max(Ends(a)) == Max(Ends(b))
  {
    Bounded(a, b);
    Bounded(b, a);
  }

  lemma Bounded(a: seq<DayManifest>, b: seq<DayManifest>)
    requires a != [] && b != [] && forall d :: d in a <==> d in b
    requires forall d :: d in a ==> d.completedAt.Some?
    ensures Min(Dates(a)) <= Min(Dates(b)) && Max(Dates(a)) >= Max(Dates(b)) && Max(Ends(a)) >= Max(Ends(b))
  {
    DateBounds(a);
    DateBounds(b);
    EndBound(a);
    EndBound(b);
  }

  lemma DateBounds(days: seq<DayManifest>)
    requires days != []
    ensures forall d :: d in days ==> Min(Dates(days)) <= d.date <= Max(Dates(days))
    ensures exists d :: d in days && d.date == Min(Dates(days))
    ensures exists d :: d in days && d.date == Max(Dates(days))
  {
    var dates := Dates(days);
    MinIsLeast(dates);
    MaxIsGreatest(dates);
    forall d | d in days ensures d.date in dates {
      var i :| 0 <= i < |days| && days[i] == d;
      assert dates[i] == d.date;
    }
    var i :| 0 <= i < |dates| && dates[i] == Min(dates);
    var j :| 0 <= j < |dates| && dates[j] == Max(dates);
    assert days[i] in days && days[j] in days;
  }

  lemma EndBound(days: seq<DayManifest>)
    requires days != [] && forall d :: d in days ==> d.completedAt.Some?
    ensures forall d :: d in days ==> d.completedAt.value <= Max(Ends(days))
    ensures exists d :: d in days && d.completedAt.value == Max(Ends(days))
  {
    var ends := Ends(days);
    MaxIsGreatest(ends);
    forall d | d in days ensures d.completedAt.value in ends {
      var i :| 0 <= i < |days| && days[i] == d;
      assert ends[i] == d.completedAt.value;
    }
    var i :| 0 <= i < |ends| && ends[i] == Max(ends);
    assert days[i] in days;
  }

  /* The summary of a set of days. */

  /** At most one day per date. */
  ghost predicate OnePerDate(days: set<DayManifest>) {
    forall c, d :: c in days && d in days && c.date == d.date ==> c == d
  }

  ghost function Summary(source: RunManifest, days: set<DayManifest>): Option<RunManifest> {
    ProjectImportRun(source, AnyListing(days))
  }

  lemma SummaryOf(source: RunManifest, days: set<DayManifest>, listing: seq<DayManifest>)
    requires Lists(listing, days) && OnePerDate(days)
    ensures ProjectImportRun(source, listing) == Summary(source, days)
  {
    ProjectionOrderFree(source, days, listing, AnyListing(days));
  }

  /** Finished days of one run, one per date. */
  ghost predicate Summarized(source: RunManifest, days: set<DayManifest>) {
    days != {} && OnePerDate(days) && forall d :: d in days ==> DayOf(source, d)
  }

  /** The header names the days' first and last dates. */
  ghost predicate Spans(s: RunManifest, days: set<DayManifest>) {
    && (forall d :: d in days ==> s.start <= d.date <= s.end)
    && (exists d :: d in days && d.date == s.start)
    && (exists d :: d in days && d.date == s.end)
  }

  /** The header ends with the last of the days to end. */
  ghost predicate EndsLast(s: RunManifest, days: set<DayManifest>) {
    && s.completedAt.Some?
    && (forall d :: d in days ==> d.completedAt.Some? && d.completedAt.value <= s.completedAt.value)
    && (exists d :: d in days && d.completedAt == s.completedAt)
  }

  /** Everything but what a summary says of the days. */
  predicate SameRun(s: RunManifest, source: RunManifest) {
    && s.schemaVersion == source.schemaVersion && s.runId == source.runId
    && s.source == source.source && s.resource == source.resource && s.startedAt == source.startedAt
  }

  /** The header of a finished run that counts and spans exactly these days. The time it
      ended is that of its last day; a run of one day alone keeps its own. */
  ghost predicate Summarizes(source: RunManifest, days: set<DayManifest>, s: RunManifest) {
    && s.status == RunSuccess && s.totalDates == s.successDates == |days| && s.failedDates == 0
    && Spans(s, days) && SameRun(s, source)
    && if |days| == 1 && forall d :: d in days ==> SingleDay(source, d) then s.completedAt == source.completedAt
       else EndsLast(s, days)
  }

  lemma OnlyOne(listing: seq<DayManifest>, days: set<DayManifest>, source: RunManifest)
    requires Lists(listing, days)
    ensures KeepsOriginal(source, listing) <==> |days| == 1 && forall d :: d in days ==> SingleDay(source, d)
  {
    ListingSize(listing, days);
    if |listing| == 1 {
      assert listing[0] in days;
      assert forall d :: d in days ==> d in listing && d == listing[0];
    }
  }

  lemma OnePerDateListed(listing: seq<DayManifest>, days: set<DayManifest>)
    requires Lists(listing, days)
    ensures DistinctDates(listing) <==> OnePerDate(days)
  {
    if OnePerDate(days) {
      forall i, j | 0 <= i < j < |listing| ensures listing[i].date != listing[j].date {
        assert listing[i] in days && listing[j] in days;
      }
    }
  }

  /** There is a summary exactly when the days are finished days of the run, one per
      date, and then it is the one header that counts and spans them. */
  lemma SummaryMeaning(source: RunManifest, days: set<DayManifest>)
    ensures Summary(source, days).Some? <==> Summarized(source, days)
    ensures Summarized(source, days) ==>
              forall s :: Summary(source, days) == Some(s) <==> Summarizes(source, days, s)
  {
    var listing := AnyListing(days);
    OnePerDateListed(listing, days);
    ListingSize(listing, days);
    if Summarized(source, days) {
      SummaryCounts(source, days, listing);
      forall s | Summarizes(source, days, s) ensures Summary(source, days) == Some(s) {
        OneSummary(source, days, s, Summary(source, days).value);
      }
    }
  }

  lemma SummaryCounts(source: RunManifest, days: set<DayManifest>, listing: seq<DayManifest>)
    requires Lists(listing, days) && Summarized(source, days)
    ensures ProjectImportRun(source, listing).Some? && Summarizes(source, days, ProjectImportRun(source, listing).value)
  {
    OnePerDateListed(listing, days);
    ListingSize(listing, days);
    OnlyOne(listing, days, source);
    DateBounds(listing);
    EndBound(listing);
    if KeepsOriginal(source, listing) {
      assert listing[0] in days;
      assert forall d :: d in days ==> d in listing && d == listing[0];
    }
  }

  lemma OneSummary(source: RunManifest, days: set<DayManifest>, s: RunManifest, t: RunManifest)
    requires Summarizes(source, days, s) && Summarizes(source, days, t)
    ensures s == t
  {
    assert s.start == t.start && s.end == t.end;
    assert s.completedAt == t.completedAt;
  }

  /** Finished days of one run within `lo..hi`, one per date. */
  ghost predicate RunDays(source: RunManifest, days: set<DayManifest>, lo: int, hi: int) {
    OnePerDate(days) && forall d :: d in days ==> DayOf(source, d) && lo <= d.date <= hi
  }

  /** The summary of such days is finished and reaches into that range. */
  lemma SummaryReaches(source: RunManifest, days: set<DayManifest>, lo: int, hi: int)
    requires days != {} && RunDays(source, days, lo, hi)
    ensures Summary(source, days).Some? && Summary(source, days).value.status == RunSuccess
    ensures Summary(source, days).value.start <= hi && Summary(source, days).value.end >= lo
  {
    SummaryMeaning(source, days);
  }
}
