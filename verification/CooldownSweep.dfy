/** The shared-cooldown figure of a benchmark phase: one pass over the cooldown
    intervals, sorted by start, measures their union clipped to the phase. */
module CooldownSweep {
  import opened Wrappers

  datatype Span = Span(start: real, stop: real) {
    predicate Has(t: real) { start <= t < stop }

    function Length(): real { stop - start }
  }

  predicate Covered(spans: seq<Span>, t: real) {
    exists i :: 0 <= i < |spans| && spans[i].Has(t)
  }

  /** Some cooldown is running at `t`, within the phase. */
  predicate Cooling(spans: seq<Span>, lo: real, hi: real, t: real) {
    lo <= t < hi && Covered(spans, t)
  }

  /* The measure of a finite union of intervals: the total length of disjoint
     pieces with the same points. */

  ghost predicate Ordered(pieces: seq<Span>) {
    && (forall i :: 0 <= i < |pieces| ==> pieces[i].start <= pieces[i].stop)
    && (forall i, j :: 0 <= i < j < |pieces| ==> pieces[i].stop <= pieces[j].start)
  }

  function Total(pieces: seq<Span>): real {
    if pieces == [] then 0.0 else pieces[0].Length() + Total(pieces[1..])
  }

  ghost predicate Decomposes(pieces: seq<Span>, spans: seq<Span>, lo: real, hi: real) {
    && Ordered(pieces)
    && forall t :: Covered(pieces, t) <==> Cooling(spans, lo, hi, t)
  }

  /** `m` is the measure of the time spent cooling down within the phase. */
  ghost predicate IsMeasure(spans: seq<Span>, lo: real, hi: real, m: real) {
    exists pieces :: Decomposes(pieces, spans, lo, hi) && Total(pieces) == m
  }

  ghost predicate SamePoints(p: seq<Span>, q: seq<Span>) {
    forall t :: Covered(p, t) <==> Covered(q, t)
  }

  /** However the union is cut into disjoint pieces, their total length is the same. */
  lemma MeasureUnique(spans: seq<Span>, lo: real, hi: real, m: real, n: real)
    requires IsMeasure(spans, lo, hi, m) && IsMeasure(spans, lo, hi, n)
    ensures m == n
  {
    var p :| Decomposes(p, spans, lo, hi) && Total(p) == m;
    var q :| Decomposes(q, spans, lo, hi) && Total(q) == n;
    SameTotal(p, q);
  }

  lemma {:induction false} SameTotal(p: seq<Span>, q: seq<Span>)
    requires Ordered(p) && Ordered(q) && SamePoints(p, q)
    ensures Total(p) == Total(q)
    decreases |p| + |q|
  {
    if p != [] && p[0].start == p[0].stop {
      DropEmpty(p);
      SameTotal(p[1..], q);
    } else if q != [] && q[0].start == q[0].stop {
      DropEmpty(q);
      SameTotal(p, q[1..]);
    } else if p == [] || q == [] {
      if p != [] { NotNothing(p); } else if q != [] { NotNothing(q); }
    } else {
      SameFirst(p, q);
      SameFirst(q, p);
      var m := if p[0].stop < q[0].stop then p[0].stop else q[0].stop;
      CutFirst(p, m);
      CutFirst(q, m);
      var p', q' := [Span(m, p[0].stop)] + p[1..], [Span(m, q[0].stop)] + q[1..];
      forall t ensures Covered(p', t) <==> Covered(q', t) { assert Covered(p, t) <==> Covered(q, t); }
      assert p'[1..] == p[1..] && q'[1..] == q[1..];
      if m == p[0].stop {
        DropEmpty(p');
        SameTotal(p[1..], q');
      } else {
        DropEmpty(q');
        SameTotal(p', q[1..]);
      }
    }
  }

  lemma NotNothing(p: seq<Span>)
    requires p != [] && p[0].start < p[0].stop
    ensures !SamePoints(p, []) && !SamePoints([], p)
  {
    assert p[0].Has(p[0].start);
    assert Covered(p, p[0].start) && !Covered([], p[0].start);
  }

  lemma DropEmpty(p: seq<Span>)
    requires Ordered(p) && p != [] && p[0].start == p[0].stop
    ensures Ordered(p[1..]) && SamePoints(p, p[1..]) && Total(p) == Total(p[1..])
  {
  }

  /** Ordered pieces begin at the least covered point. */
  lemma SameFirst(p: seq<Span>, q: seq<Span>)
    requires Ordered(p) && Ordered(q) && SamePoints(p, q) && p != [] && q != [] && p[0].start < p[0].stop
    ensures q[0].start <= p[0].start
  {
    assert p[0].Has(p[0].start);
    assert Covered(p, p[0].start);
    assert Covered(q, p[0].start);
    var i :| 0 <= i < |q| && q[i].Has(p[0].start);
  }

  /** Cutting off the part of the first piece before `m` leaves the points from `m` on. */
  lemma CutFirst(p: seq<Span>, m: real)
    requires Ordered(p) && p != [] && p[0].start <= m <= p[0].stop
    ensures var p' := [Span(m, p[0].stop)] + p[1..];
            && Ordered(p')
            && (forall t :: Covered(p', t) <==> Covered(p, t) && m <= t)
            && Total(p) == Total(p') + (m - p[0].start)
  {
    var p' := [Span(m, p[0].stop)] + p[1..];
    assert p'[1..] == p[1..];
    forall t ensures Covered(p', t) <==> Covered(p, t) && m <= t {
      if Covered(p', t) { var i :| 0 <= i < |p'| && p'[i].Has(t); assert p[i].Has(t); }
      if Covered(p, t) && m <= t { var i :| 0 <= i < |p| && p[i].Has(t); assert p'[i].Has(t); }
    }
  }

  lemma {:induction false} TotalAppend(p: seq<Span>, s: Span)
    ensures Total(p + [s]) == Total(p) + s.Length()
  {
    if p == [] {
      assert p + [s] == [s] && [s][1..] == [];
    } else {
      assert (p + [s])[1..] == p[1..] + [s];
      TotalAppend(p[1..], s);
    }
  }

  /* `sorted`: by start, then by stop. */

  predicate AtMost(a: Span, b: Span) { a.start < b.start || (a.start == b.start && a.stop <= b.stop) }

  ghost predicate IsSorted(spans: seq<Span>) {
    forall i, j :: 0 <= i < j < |spans| ==> AtMost(spans[i], spans[j])
  }

  function Insert(s: Span, spans: seq<Span>): seq<Span> {
    if spans == [] || AtMost(s, spans[0]) then [s] + spans else [spans[0]] + Insert(s, spans[1..])
  }

  function Sort(spans: seq<Span>): seq<Span> {
    if spans == [] then [] else Insert(spans[0], Sort(spans[1..]))
  }

  lemma {:induction false} InsertSorts(s: Span, spans: seq<Span>)
    requires IsSorted(spans)
    ensures IsSorted(Insert(s, spans)) && multiset(Insert(s, spans)) == multiset(spans) + multiset{s}
  {
    if spans != [] {
      assert spans == [spans[0]] + spans[1..];
      if !AtMost(s, spans[0]) {
        var rest := Insert(s, spans[1..]);
        InsertSorts(s, spans[1..]);
        forall x | x in rest ensures AtMost(spans[0], x) {
          assert x in multiset(rest);
          assert x == s || x in spans[1..];
        }
        assert forall j :: 0 <= j < |rest| ==> rest[j] in rest;
      }
    }
  }

  lemma {:induction false} SortSorts(spans: seq<Span>)
    ensures IsSorted(Sort(spans)) && multiset(Sort(spans)) == multiset(spans)
  {
    if spans != [] {
      SortSorts(spans[1..]);
      InsertSorts(spans[0], Sort(spans[1..]));
      assert spans == [spans[0]] + spans[1..];
    }
  }

  /** Reordering intervals leaves their union. */
  lemma SortKeepsPoints(spans: seq<Span>, t: real)
    ensures Covered(Sort(spans), t) <==> Covered(spans, t)
  {
    SortSorts(spans);
    var sorted := Sort(spans);
    forall s | s in spans ensures s in sorted { assert s in multiset(spans); }
    forall s | s in sorted ensures s in spans { assert s in multiset(sorted); }
    if Covered(spans, t) {
      var i :| 0 <= i < |spans| && spans[i].Has(t);
      assert spans[i] in sorted;
      var j :| 0 <= j < |sorted| && sorted[j] == spans[i];
    }
    if Covered(sorted, t) {
      var i :| 0 <= i < |sorted| && sorted[i].Has(t);
      assert sorted[i] in spans;
      var j :| 0 <= j < |spans| && spans[j] == sorted[i];
    }
  }

  function Min(a: real, b: real): real { if a < b then a else b }

  function Max(a: real, b: real): real { if a < b then b else a }

  /* What one turn of the sweep does to the pieces. */

  /** The pieces so far tile what the first `k` intervals cover, and everything
      from `reached` back to the start of any later interval is covered. */
  ghost predicate Swept(pieces: seq<Span>, sorted: seq<Span>, k: nat, lo: real, hi: real, reached: real)
    requires k <= |sorted|
  {
    && Decomposes(pieces, sorted[..k], lo, hi)
    && (forall i :: 0 <= i < |pieces| ==> pieces[i].stop <= reached)
    && lo <= reached
    && (forall i :: 0 <= i < k ==> Min(sorted[i].stop, hi) <= reached)
    && (reached == lo || exists j :: 0 <= j < k && reached == Min(sorted[j].stop, hi))
  }

  ghost function Extended(pieces: seq<Span>, s: Span, hi: real, reached: real): seq<Span> {
    var from, to := Max(s.start, reached), Min(s.stop, hi);
    if from < to then pieces + [Span(from, to)] else pieces
  }

  lemma SweepTurn(pieces: seq<Span>, sorted: seq<Span>, k: nat, lo: real, hi: real, reached: real)
    requires IsSorted(sorted) && k < |sorted| && Swept(pieces, sorted, k, lo, hi, reached)
    ensures Swept(Extended(pieces, sorted[k], hi, reached), sorted, k + 1, lo, hi, Max(reached, Min(sorted[k].stop, hi)))
    ensures Total(Extended(pieces, sorted[k], hi, reached))
            == Total(pieces) + Max(0.0, Min(sorted[k].stop, hi) - Max(sorted[k].start, reached))
  {
    var s, next := sorted[k], Extended(pieces, sorted[k], hi, reached);
    var from, to := Max(s.start, reached), Min(s.stop, hi);
    if from < to { TotalAppend(pieces, Span(from, to)); }
    forall t ensures Covered(next, t) <==> Cooling(sorted[..k + 1], lo, hi, t) {
      assert Covered(pieces, t) <==> Cooling(sorted[..k], lo, hi, t);
      CoveredNext(sorted, k, t);
      if from < to { CoveredAppend(pieces, Span(from, to), t); }
      if s.Has(t) && lo <= t < hi && t < reached {
        var j :| 0 <= j < k && reached == Min(sorted[j].stop, hi);
        assert sorted[..k][j].Has(t);
      }
    }
    if reached < to { assert sorted[k].stop == s.stop; }
  }

  lemma CoveredAppend(pieces: seq<Span>, s: Span, t: real)
    ensures Covered(pieces + [s], t) <==> Covered(pieces, t) || s.Has(t)
  {
    var all := pieces + [s];
    if Covered(pieces, t) { var i :| 0 <= i < |pieces| && pieces[i].Has(t); assert all[i].Has(t); }
    if s.Has(t) { assert all[|pieces|].Has(t); }
    if Covered(all, t) { var i :| 0 <= i < |all| && all[i].Has(t); if i < |pieces| { assert pieces[i].Has(t); } }
  }

  lemma CoveredNext(sorted: seq<Span>, k: nat, t: real)
    requires k < |sorted|
    ensures Covered(sorted[..k + 1], t) <==> Covered(sorted[..k], t) || sorted[k].Has(t)
  {
  }

  class Metrics {
    var started: real
    var finished: Option<real>
    var cooldowns: seq<Span>

    constructor (now: real)
      ensures started == now && finished == None && cooldowns == []
    {
      started, finished, cooldowns := now, None, [];
    }

    /** A `retry_wait` event seen at `now`. */
    method ObserveRetryWait(delay: real, now: real)
      modifies this
      ensures started == old(started) && finished == old(finished)
      ensures cooldowns == old(cooldowns) + [Span(now, now + delay)]
    {
      cooldowns := cooldowns + [Span(now, now + delay)];
    }

    method Finish(now: real)
      modifies this
      ensures started == old(started) && cooldowns == old(cooldowns) && finished == Some(now)
    {
      finished := Some(now);
    }

    /** `finished or now`: a recorded zero counts as missing. */
    function End(now: real): real
      reads this
    {
      if finished.Some? && finished.value != 0.0 then finished.value else now
    }

    /** The `cooldown_seconds` figure, before rounding: up to the recorded end of the phase,
        or to now when none, or a zero, is recorded. */
    method CooldownSeconds(now: real) returns (cooldown: real)
      ensures finished.Some? && finished.value != 0.0 ==> IsMeasure(cooldowns, started, finished.value, cooldown)
      ensures finished.None? || finished.value == 0.0 ==> IsMeasure(cooldowns, started, now, cooldown)
    {
      var end := End(now);
      var sorted := Sort(cooldowns);
      SortSorts(cooldowns);
      cooldown := 0.0;
      var previousEnd := started;
      ghost var pieces: seq<Span> := [];
      for k := 0 to |sorted|
        invariant Swept(pieces, sorted, k, started, end, previousEnd)
        invariant cooldown == Total(pieces)
      {
        SweepTurn(pieces, sorted, k, started, end, previousEnd);
        var stop := Min(sorted[k].stop, end);
        pieces := Extended(pieces, sorted[k], end, previousEnd);
        cooldown := cooldown + Max(0.0, stop - Max(sorted[k].start, previousEnd));
        previousEnd := Max(previousEnd, stop);
      }
      assert sorted[..|sorted|] == sorted;
      forall t ensures Covered(pieces, t) <==> Cooling(cooldowns, started, end, t) {
        SortKeepsPoints(cooldowns, t);
        assert Covered(pieces, t) <==> Cooling(sorted, started, end, t);
      }
    }
  }
}
