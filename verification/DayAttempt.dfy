/** The manifests one day attempt keeps: the day, its pages, and the day marker in the
    store, with an operation script for everything that can fail around them. */
module DayAttempt {
  import opened Wrappers
  import opened Collections
  import opened Control

  datatype Ident = Ident(run: RunId, resource: string, date: int, pageSize: nat)

  /** What an operation on the store, the source or the cancellation check meets. One
      that raises may have taken effect. */
  datatype Fault = Fine | Broken(landed: bool) | Interrupt(landed: bool)

  /** How an operation is left. */
  datatype Signal = Go | Error | Interrupted

  /* Page manifests. */

  predicate Announced(p: PageManifest, id: Ident, n: nat, now: int) {
    && p.schemaVersion == 1 && p.runId == id.run && p.date == id.date && p.number == n && p.pageSize == id.pageSize
    && p.startedAt <= now && p.errorCount == 0
  }

  predicate PageRunning(p: PageManifest, id: Ident, n: nat, now: int) {
    Announced(p, id, n, now) && p.status == Running && p.bronzeRecords == 0
  }

  predicate PageDone(p: PageManifest, id: Ident, n: nat, now: int) {
    Announced(p, id, n, now) && p.status == Success && p.completedAt.Some? && p.startedAt <= p.completedAt.value <= now
  }

  /** A page that did not make it: it says so, with its errors and when. */
  predicate PageFailed(p: PageManifest, id: Ident, n: nat, now: int) {
    && p.schemaVersion == 1 && p.runId == id.run && p.date == id.date && p.number == n && p.pageSize == id.pageSize
    && p.status == Failed && p.errorCount >= 1 && p.completedAt.Some? && p.startedAt <= p.completedAt.value <= now
  }

  /** The first `done` pages are finished, the others failed; one page may be left out. */
  ghost predicate Settled(pages: seq<PageManifest>, done: nat, torn: Option<nat>, id: Ident, now: int) {
    done <= |pages| && forall i :: 0 <= i < |pages| ==> SettledAt(pages, done, torn, id, now, i)
  }

  ghost predicate SettledAt(pages: seq<PageManifest>, done: nat, torn: Option<nat>, id: Ident, now: int, i: nat)
    requires i < |pages|
  {
    if i < done then PageDone(pages[i], id, i, now) else torn != Some(i) ==> PageFailed(pages[i], id, i, now)
  }

  /** Whatever was raised: the pages before the pending ones are finished, those after them
      failed, but for the page whose own write raised, which is as that write left it. */
  ghost predicate KeptPages(pages: seq<PageManifest>, pending: seq<PageManifest>, next: nat, done: nat, torn: Option<nat>, id: Ident,
                            now: int)
  {
    && |pending| <= next <= |pages| <= next + 1
    && var first := next - |pending|;
    && (done == first || (done + 1 == first && torn == Some(done)))
    && (forall i :: 0 <= i < |pages| ==> KeptAt(pages, first, next, torn, id, now, i))
    && (forall i :: 0 <= i < |pending| ==> WaitsAt(pending, first, id, now, i))
    && (torn.Some? ==> torn.value == done < first || torn.value == next)
    && (torn.Some? && torn.value < |pages| ==> pages[torn.value].status != Failed)
  }

  ghost predicate KeptAt(pages: seq<PageManifest>, first: nat, next: nat, torn: Option<nat>, id: Ident, now: int, i: nat)
    requires i < |pages|
  {
    torn != Some(i) ==>
      (i < first ==> PageDone(pages[i], id, i, now)) && (next <= i ==> PageFailed(pages[i], id, i, now))
  }

  ghost predicate WaitsAt(pending: seq<PageManifest>, first: nat, id: Ident, now: int, i: nat)
    requires i < |pending|
  {
    PageRunning(pending[i], id, first + i, now)
  }

  /** The first `done` pages are finished, the others are running. */
  ghost predicate Accounted(pages: seq<PageManifest>, done: nat, id: Ident, now: int) {
    && done <= |pages|
    && (forall i :: 0 <= i < done ==> PageDone(pages[i], id, i, now))
    && (forall i :: done <= i < |pages| ==> PageRunning(pages[i], id, i, now))
  }

  /** And those wait for their receipts. */
  ghost predicate Lined(pages: seq<PageManifest>, pending: seq<PageManifest>, next: nat, done: nat, id: Ident, now: int) {
    next == |pages| && Accounted(pages, done, id, now) && pending == pages[done..]
  }

  /** `write_page_manifest` */
  function Put(pages: seq<PageManifest>, p: PageManifest): seq<PageManifest>
    requires p.number <= |pages|
  {
    if p.number == |pages| then pages + [p] else pages[p.number := p]
  }

  /** Pages that wait for a receipt, in the order of their numbers. */
  ghost predicate Queue(pending: seq<PageManifest>, next: nat) {
    && |pending| <= next
    && forall i :: 0 <= i < |pending| ==> pending[i].number == next - |pending| + i
  }

  /* What a step does to the stored pages. */

  /** Those from `first` up to `last` are finished with the counts of their receipts. */
  ghost predicate ConfirmedTo(before: seq<PageManifest>, after: seq<PageManifest>, first: nat, last: nat, receipts: map<nat, nat>) {
    && |after| == |before|
    && forall i :: 0 <= i < |before| ==>
         if first <= i < last then
           i in receipts && after[i] == before[i].(status := Success, bronzeRecords := receipts[i], completedAt := after[i].completedAt)
         else after[i] == before[i]
  }

  /** Those from `first` up to `last` failed, and state what was confirmed of them. */
  ghost predicate DiscardedTo(before: seq<PageManifest>, after: seq<PageManifest>, first: nat, last: nat, confirmed: map<nat, nat>,
                              id: Ident, now: int)
  {
    && |after| == |before|
    && forall i :: 0 <= i < |before| ==>
         if first <= i < last then
           PageFailed(after[i], id, i, now) && after[i].bronzeRecords == CountOf(confirmed, i) && after[i].errorCount == 1
         else after[i] == before[i]
  }

  /** A page is finished only with the count of its receipt. */
  ghost predicate Vouching(before: seq<PageManifest>, after: seq<PageManifest>, receipts: map<nat, nat>) {
    forall i :: 0 <= i < |after| && after[i].status == Success ==>
      || (i < |before| && after[i] == before[i])
      || (i in receipts && after[i].bronzeRecords == receipts[i])
  }

  /* Value by value. */

  lemma AllKept(pages: seq<PageManifest>, pending: seq<PageManifest>, next: nat, done: nat, id: Ident, now: int)
    requires Lined(pages, pending, next, done, id, now)
    ensures KeptPages(pages, pending, next, done, None, id, now) && Queue(pending, next) && |pages| == next && done + |pending| == next
  {
  }

  lemma AnnounceStep(pages: seq<PageManifest>, pending: seq<PageManifest>, next: nat, done: nat, id: Ident, now: int, page: PageManifest)
    requires Lined(pages, pending, next, done, id, now) && PageRunning(page, id, next, now)
    ensures Lined(pages + [page], pending + [page], next + 1, done, id, now)
    ensures KeptPages(pages, pending, next, done, Some(next), id, now) && KeptPages(pages + [page], pending, next, done, Some(next), id, now)
    ensures Vouching(pages, pages + [page], map[])
  {
  }

  lemma ConfirmStep(pages: seq<PageManifest>, pending: seq<PageManifest>, next: nat, done: nat, id: Ident, now: int, later: int, count: nat,
                    p: PageManifest)
    requires Lined(pages, pending, next, done, id, now) && pending != [] && now <= later
    requires p == pending[0].(status := Success, bronzeRecords := count, completedAt := Some(later))
    ensures p.number == done < |pages| && Queue(pending[1..], next)
    ensures var after := Put(pages, p);
            && Lined(after, pending[1..], next, done + 1, id, later) == true
            && KeptPages(after, pending[1..], next, done, Some(done), id, later) == true
            && Vouching(pages, after, map[done := count]) == true
            && ConfirmedTo(pages, after, done, done + 1, map[done := count]) == true
    ensures KeptPages(pages, pending[1..], next, done, Some(done), id, later) && Vouching(pages, pages, map[done := count])
  {
  }

  lemma DiscardStep(pages: seq<PageManifest>, pending: seq<PageManifest>, next: nat, done: nat, torn: Option<nat>, id: Ident, now: int,
                    later: int, i: nat, p: PageManifest)
    requires KeptPages(pages, pending, next, done, torn, id, now) && i < |pending| && now <= later && p.status != Success
    ensures PageRunning(pending[i], id, next - |pending| + i, now)
    ensures var n := next - |pending| + i;
            && n < |pages| && KeptPages(pages, pending, next, done, torn, id, later)
            && KeptPages(pages[n := p], pending, next, done, torn, id, later)
  {
    assert WaitsAt(pending, next - |pending|, id, now, i);
    KeptLater(pages, pending, next, done, torn, id, now, later);
    var n, first := next - |pending| + i, next - |pending|;
    var after := pages[n := p];
    forall k | 0 <= k < |after| ensures KeptAt(after, first, next, torn, id, later, k) {
      assert KeptAt(pages, first, next, torn, id, later, k);
    }
  }

  lemma KeptLater(pages: seq<PageManifest>, pending: seq<PageManifest>, next: nat, done: nat, torn: Option<nat>, id: Ident, now: int,
                  later: int)
    requires KeptPages(pages, pending, next, done, torn, id, now) && now <= later
    ensures KeptPages(pages, pending, next, done, torn, id, later)
  {
    var first := next - |pending|;
    forall k | 0 <= k < |pages| ensures KeptAt(pages, first, next, torn, id, later, k) { assert KeptAt(pages, first, next, torn, id, now, k); }
    forall k | 0 <= k < |pending| ensures WaitsAt(pending, first, id, later, k) { assert WaitsAt(pending, first, id, now, k); }
  }

  lemma SettledPut(pages: seq<PageManifest>, done: nat, torn: Option<nat>, id: Ident, now: int, later: int, p: PageManifest)
    requires Settled(pages, done, torn, id, now) && now <= later && done <= p.number <= |pages| && PageFailed(p, id, p.number, later)
    ensures Settled(Put(pages, p), done, torn, id, later)
    ensures torn == Some(p.number) ==> Settled(Put(pages, p), done, None, id, later)
  {
    var after := Put(pages, p);
    forall k | 0 <= k < |after|
      ensures SettledAt(after, done, torn, id, later, k) && (torn == Some(p.number) ==> SettledAt(after, done, None, id, later, k))
    {
      if k < |pages| { assert SettledAt(pages, done, torn, id, now, k); }
    }
  }

  lemma SettledLater(pages: seq<PageManifest>, done: nat, torn: Option<nat>, id: Ident, now: int, later: int)
    requires now <= later
    ensures Settled(pages, done, torn, id, now) ==> Settled(pages, done, torn, id, later)
  {
    if Settled(pages, done, torn, id, now) {
      forall k | 0 <= k < |pages| ensures SettledAt(pages, done, torn, id, later, k) { assert SettledAt(pages, done, torn, id, now, k); }
    }
  }

  lemma StaysKept(pages: seq<PageManifest>, pending: seq<PageManifest>, next: nat, done: nat, torn: Option<nat>, id: Ident, now: int,
                  later: int)
    requires now <= later
    ensures KeptPages(pages, pending, next, done, torn, id, now) ==> KeptPages(pages, pending, next, done, torn, id, later)
    ensures Lined(pages, pending, next, done, id, now) ==> Lined(pages, pending, next, done, id, later)
  {
    if KeptPages(pages, pending, next, done, torn, id, now) { KeptLater(pages, pending, next, done, torn, id, now, later); }
  }

  /** A page that is not finished may be failed. */
  lemma KeptPut(pages: seq<PageManifest>, pending: seq<PageManifest>, next: nat, done: nat, torn: Option<nat>, id: Ident, now: int,
                later: int, p: PageManifest)
    requires KeptPages(pages, pending, next, done, torn, id, now) && now <= later && PageFailed(p, id, p.number, later)
    requires next - |pending| <= p.number <= next && p.number <= |pages| && torn == None
    ensures KeptPages(pages, pending, next, done, torn, id, later) && KeptPages(Put(pages, p), pending, next, done, torn, id, later)
  {
    KeptLater(pages, pending, next, done, torn, id, now, later);
    var after, first := Put(pages, p), next - |pending|;
    forall k | 0 <= k < |after| ensures KeptAt(after, first, next, torn, id, later, k) {
      if k < |pages| { assert KeptAt(pages, first, next, torn, id, later, k); }
    }
  }

  lemma DiscardedNext(before: seq<PageManifest>, pages: seq<PageManifest>, after: seq<PageManifest>, first: nat, n: nat,
                      confirmed: map<nat, nat>, id: Ident, now: int, later: int)
    requires DiscardedTo(before, pages, first, n, confirmed, id, now) && first <= n < |pages| && now <= later
    requires |after| == |pages| && after == pages[n := after[n]]
    requires PageFailed(after[n], id, n, later) && after[n].bronzeRecords == CountOf(confirmed, n) && after[n].errorCount == 1
    ensures DiscardedTo(before, after, first, n + 1, confirmed, id, later)
  {
  }

  lemma VouchingOn(pages0: seq<PageManifest>, pages1: seq<PageManifest>, pages2: seq<PageManifest>)
    requires Vouching(pages0, pages1, map[]) && Vouching(pages1, pages2, map[])
    ensures Vouching(pages0, pages2, map[])
  {
  }

  ghost predicate AttemptOf(day: DayManifest, id: Ident, now: int) {
    && day.schemaVersion == 1 && day.runId == id.run && day.source == DEFAULT_SOURCE && day.resource == id.resource
    && day.date == id.date && day.startedAt <= now
  }

  /** No commit was sent, and none is stored. */
  ghost predicate Uncommitted(marked: seq<Status>, marker: Option<DayManifest>) {
    && (forall i :: 0 <= i < |marked| ==> marked[i] != Success)
    && (marker.Some? ==> marker.value.status != Success)
  }

  class Attempt {
    const id: Ident

    /** What the world does, operation by operation; afterwards it behaves. */
    var faults: seq<Fault>
    var ticks: seq<nat>
    var now: int

    var day: DayManifest
    var pending: seq<PageManifest>
    var next: nat
    /** The page whose turn is not over. */
    var open: Option<PageManifest>

    /** The store. */
    var pages: seq<PageManifest>
    var marker: Option<DayManifest>

    /** Every day marker sent, in order. */
    ghost var marked: seq<Status>

    /** The page whose announcement or confirmation raised. */
    ghost var torn: Option<nat>

    /** Whatever was raised, wherever. */
    ghost predicate Safe()
      reads this`day, this`now, this`pending, this`next, this`open, this`pages, this`marker, this`marked, this`torn
    {
      && Queue(pending, next) && next <= |pages| && (open.Some? ==> open.value.number <= |pages|)
      && Uncommitted(marked, marker)
    }

    /** The open page is not finished. */
    ghost predicate OpenOk()
      reads this`day, this`now, this`pending, this`next, this`open, this`pages, this`marker, this`marked, this`torn
    {
      open.Some? ==> PageRunning(open.value, id, open.value.number, now) && day.completedPages <= open.value.number <= |pages|
    }

    /** The torn page, unless it is the open one, which an interruption fails. */
    ghost function TornApart(): Option<nat>
      reads this`torn, this`open
    {
      if open.Some? && torn == Some(open.value.number) then None else torn
    }

    ghost predicate Kept()
      reads this`day, this`now, this`pending, this`next, this`open, this`pages, this`marker, this`marked, this`torn
    {
      KeptPages(pages, pending, next, day.completedPages, torn, id, now) == true && OpenOk()
    }

    /** No operation is under way. */
    ghost predicate Standing()
      reads this`day, this`now, this`pending, this`next, this`open, this`pages, this`marker, this`marked, this`torn
    {
      && Safe() == true && AttemptOf(day, id, now) && torn == None
      && Lined(pages, pending, next, day.completedPages, id, now) == true
    }

    ghost predicate Valid()
      reads this`day, this`now, this`pending, this`next, this`open, this`pages, this`marker, this`marked, this`torn
    {
      Standing() && Kept()
    }


    constructor (id: Ident, faults: seq<Fault>, ticks: seq<nat>, now: int)
      ensures Valid() && this.id == id && this.faults == faults && pages == [] && marker == None && open == None
      ensures day.status == Running && day.expectedPages == None
      ensures day.completedPages == day.searchItems == day.errorCount == day.bronzeRecords == 0
    {
      this.id, this.faults, this.ticks, this.now := id, faults, ticks, now;
      day := DayManifest(1, id.run, DEFAULT_SOURCE, id.resource, id.date, Running, None, 0, 0, 0, 0, now, None);
      pending, next, open, pages, marker, marked, torn := [], 0, None, [], None, [], None;
    }

    /** One write, which may have taken effect even when it raises. */
    method Send() returns (signal: Signal, landed: bool)
      modifies `faults
      ensures signal == Go ==> landed
      ensures old(faults) == [] ==> signal == Go && faults == []
      ensures old(faults) != [] && old(faults)[0] == Broken(true) ==> signal == Error && landed && faults == old(faults)[1..]
    {
      if faults == [] {
        return Go, true;
      }
      var fault := faults[0];
      faults := faults[1..];
      match fault
      case Fine => return Go, true;
      case Broken(l) => return Error, l;
      case Interrupt(l) => return Interrupted, l;
    }

    /** Any other operation. */
    method Op() returns (signal: Signal)
      modifies `faults
      ensures old(faults) == [] ==> signal == Go && faults == []
      ensures Safe() == old(Safe()) && Kept() == old(Kept()) && Valid() == old(Valid())
    {
      var landed;
      signal, landed := Send();
    }

    /** The clock goes on. */
    method Tick()
      modifies `ticks, `now
      ensures now >= old(now)
    {
      if ticks != [] {
        now, ticks := now + ticks[0], ticks[1..];
      }
    }

    /** `_now()`: a clock that does not run backwards. */
    method Clock() returns (t: int)
      modifies `ticks, `now
      ensures t == now >= old(now)
      ensures (old(Safe()) ==> Safe() == true) && (old(Kept()) ==> Kept() == true) && (old(Valid()) ==> Valid() == true)
    {
      ghost var earlier := now;
      Tick();
      t := now;
      StaysKept(pages, pending, next, day.completedPages, torn, id, earlier, now);
    }

    method WritePageManifest(p: PageManifest) returns (signal: Signal)
      requires p.number <= |pages|
      modifies `faults, `pages
      ensures old(faults) == [] ==> signal == Go && faults == []
      ensures pages == Put(old(pages), p) || (signal != Go && pages == old(pages))
      ensures old(faults) != [] && old(faults)[0] == Broken(true) ==> signal == Error && pages == Put(old(pages), p) && faults == old(faults)[1..]
    {
      var landed;
      signal, landed := Send();
      if landed {
        pages := Put(pages, p);
      }
    }

    method WriteDayManifest(d: DayManifest) returns (signal: Signal)
      modifies `faults, `marker, `marked
      ensures old(faults) == [] ==> signal == Go && faults == []
      ensures marked == old(marked) + [d.status]
      ensures marker == Some(d) || (signal != Go && marker == old(marker))
      ensures old(Safe()) && d.status != Success ==> Safe()
      ensures old(Valid()) && d.status != Success ==> Valid()
      ensures old(Kept()) ==> Kept() == true
    {
      marked := marked + [d.status];
      var landed;
      signal, landed := Send();
      if landed {
        marker := Some(d);
      }
    }

    /** The manifest of the page to come, whose turn begins. */
    method OpenPage() returns (page: PageManifest)
      requires Valid()
      modifies `ticks, `now, `open
      ensures Valid() == true && now >= old(now) && PageRunning(page, id, |pages|, now) && page.searchItems == 0 && open == Some(page)
    {
      var t := Clock();
      page := PageManifest(1, id.run, id.date, next, id.pageSize, Running, 0, 0, 0, t, None);
      open := Some(page);
    }

    /** A page that is not finished is failed, with these errors and what was confirmed of it. */
    method WriteFailedPage(page: PageManifest, errors: nat, records: nat) returns (signal: Signal, sent: PageManifest)
      requires Safe() && Kept() && torn == None && PageRunning(page, id, page.number, now) && errors > 0
      requires next - |pending| <= page.number <= next == |pages|
      modifies `faults, `ticks, `now, `pages
      ensures old(faults) == [] ==> signal == Go && faults == []
      ensures Safe() == true && Kept() == true && now >= old(now) && Vouching(old(pages), pages, map[]) == true
      ensures sent.number == page.number && sent.errorCount == errors && sent.bronzeRecords == records && PageFailed(sent, id, page.number, now)
      ensures pages == old(pages) || pages == Put(old(pages), sent)
      ensures signal == Go ==> pages == Put(old(pages), sent)
      ensures signal == Go && old(Settled(pages, day.completedPages, None, id, now)) ==> Settled(pages, day.completedPages, None, id, now) == true
    {
      ghost var before, earlier := pages, now;
      var t := Clock();
      sent := page.(status := Failed, bronzeRecords := records, errorCount := errors, completedAt := Some(t));
      KeptPut(before, pending, next, day.completedPages, torn, id, earlier, t, sent);
      if Settled(before, day.completedPages, None, id, earlier) {
        SettledPut(before, day.completedPages, None, id, earlier, t, sent);
      }
      signal := WritePageManifest(sent);
    }

    /** What the day counts. */
    method SetCounts(errors: nat, records: nat)
      requires Safe() && Kept()
      modifies `day
      ensures Safe() == true && Kept() == true && day == old(day).(errorCount := errors, bronzeRecords := records)
    {
      day := day.(errorCount := errors, bronzeRecords := records);
    }

    /** The day is failed, here and in the store. */
    method FailDay() returns (signal: Signal)
      requires Safe() && Kept()
      modifies `faults, `ticks, `now, `day, `marker, `marked
      ensures old(faults) == [] ==> signal == Go && faults == []
      ensures Safe() == true && Kept() == true && now >= old(now)
      ensures day == old(day).(status := Failed, completedAt := day.completedAt) && day.completedAt.Some?
      ensures signal == Go ==> marker == Some(day)
      ensures old(Settled(pages, day.completedPages, None, id, now)) ==> Settled(pages, day.completedPages, None, id, now) == true
    {
      ghost var earlier := now;
      var sent;
      signal, sent := WriteFailedDay(day);
      day := sent;
      SettledLater(pages, day.completedPages, None, id, earlier, now);
    }

    /** The day is failed: its marker says so, with these errors. */
    method WriteFailedDay(failed: DayManifest) returns (signal: Signal, sent: DayManifest)
      requires Safe()
      modifies `faults, `ticks, `now, `marker, `marked
      ensures old(faults) == [] ==> signal == Go && faults == []
      ensures Safe() == true && (old(Kept()) ==> Kept() == true) && now >= old(now)
      ensures sent == failed.(status := Failed, completedAt := sent.completedAt) && sent.completedAt.Some?
      ensures signal == Go ==> marker == Some(sent)
    {
      var t := Clock();
      sent := failed.(status := Failed, completedAt := Some(t));
      signal := WriteDayManifest(sent);
    }

    /** A page the source has just yielded: stored, and waiting for its receipt. */
    method Announce(page: PageManifest) returns (signal: Signal)
      requires Valid() && PageRunning(page, id, |pages|, now)
      modifies `faults, `pages, `pending, `next, `open, `torn
      ensures old(faults) == [] ==> signal == Go && faults == []
      ensures Safe() == true && Kept() == true && open == Some(page) && Vouching(old(pages), pages, map[]) == true
      ensures signal == Go ==> Valid() && pages == old(pages) + [page]
      ensures old(faults) != [] && old(faults)[0] == Broken(true) ==>
                && signal == Error && pages == old(pages) + [page] && next == |old(pages)| && pending == old(pending)
                && torn == Some(|old(pages)|) && faults == old(faults)[1..]
    {
      AnnounceStep(pages, pending, next, day.completedPages, id, now, page);
      open, torn := Some(page), Some(page.number);
      signal := WritePageManifest(page);
      if signal == Go {
        pending, next, torn := pending + [page], page.number + 1, None;
        AllKept(pages, pending, next, day.completedPages, id, now);
      }
    }

    method CloseTurn()
      requires Valid()
      modifies `open
      ensures Valid() == true && Safe() == true && Kept() == true && open == None
    {
      open := None;
    }

    /** The day's totals after a page, and what is kept of it: its quality observations
        and its errors. */
    method AddTotals(items: nat, records: nat, errors: nat) returns (signal: Signal)
      requires Valid()
      modifies `faults, `day
      ensures Valid()
      ensures old(faults) == [] ==> signal == Go && faults == []
      ensures day == old(day).(searchItems := old(day).searchItems + items, bronzeRecords := old(day).bronzeRecords + records,
                               errorCount := old(day).errorCount + errors)
    {
      day := day.(searchItems := day.searchItems + items, bronzeRecords := day.bronzeRecords + records,
                  errorCount := day.errorCount + errors);
      signal := Op();
      if signal == Go && errors > 0 {
        signal := Op();
      }
    }

    /** One turn of `confirm_pages`. */
    method ConfirmOne(count: nat) returns (signal: Signal)
      requires Standing() && day.completedPages < |pages| && OpenOk()
      modifies `faults, `ticks, `now, `pages, `pending, `day, `torn
      ensures old(faults) == [] ==> signal == Go && faults == []
      ensures Safe() == true && now >= old(now)
      ensures Vouching(old(pages), pages, map[old(day).completedPages := count]) == true
      ensures signal != Go ==> Kept() == true && day == old(day)
      ensures signal == Go ==>
                && Standing() == true && day == old(day).(completedPages := old(day).completedPages + 1)
                && ConfirmedTo(old(pages), pages, old(day).completedPages, day.completedPages, map[old(day).completedPages := count]) == true
    {
      var confirmed := pending[0];
      ghost var waiting, began := pending, now;
      Tick();
      var t := now;
      var p := confirmed.(status := Success, bronzeRecords := count, completedAt := Some(t));
      ConfirmStep(pages, waiting, next, day.completedPages, id, began, t, count, p);
      pending, torn := pending[1..], Some(day.completedPages);
      signal := WritePageManifest(p);
      if signal == Go {
        day, torn := day.(completedPages := day.completedPages + 1), None;
      }
    }

    /** The turns of `confirm_pages`, in the order of the pages. */
    method ConfirmAll(receipts: map<nat, nat>, ghost upTo: nat) returns (signal: Signal)
      requires Valid() && day.completedPages <= upTo <= |pages| && (open.Some? ==> upTo <= open.value.number + 1)
      requires forall n :: n in receipts <==> day.completedPages <= n < upTo
      modifies `faults, `ticks, `now, `pages, `pending, `day, `torn
      ensures old(faults) == [] ==> signal == Go && faults == []
      ensures Vouching(old(pages), pages, receipts) == true && now >= old(now)
      ensures signal != Go ==> Safe() == true && Kept() == true
      ensures signal == Go ==>
                && Standing() == true && day == old(day).(completedPages := upTo)
                && ConfirmedTo(old(pages), pages, old(day).completedPages, upTo, receipts) == true
    {
      ghost var first := day.completedPages;
      var number := day.completedPages;
      while number in receipts
        invariant Standing() == true && first <= number <= upTo && now >= old(now) && (number < upTo ==> OpenOk())
        invariant day == old(day).(completedPages := number)
        invariant old(faults) == [] ==> faults == []
        invariant ConfirmedTo(old(pages), pages, first, number, receipts) == true && Vouching(old(pages), pages, receipts) == true
        decreases upTo - number
      {
        ghost var before := pages;
        signal := ConfirmOne(receipts[number]);
        VouchingNext(old(pages), before, pages, number, receipts);
        if signal != Go {
          return;
        }
        ConfirmedNext(old(pages), before, pages, first, number, receipts);
        number := number + 1;
      }
      signal := Go;
    }

    /** `confirm_pages`: the pages of the receipts are finished. With it a turn is over. */
    method Confirm(receipts: map<nat, nat>, persisted: nat, ghost upTo: nat) returns (signal: Signal)
      requires Valid() && day.completedPages <= upTo <= |pages| && (open.Some? ==> upTo <= open.value.number + 1)
      requires forall n :: n in receipts <==> day.completedPages <= n < upTo
      modifies `faults, `ticks, `now, `pages, `pending, `day, `torn, `open
      ensures old(faults) == [] ==> signal == Go && faults == []
      ensures Safe() == true && Kept() == true && Vouching(old(pages), pages, receipts) == true && now >= old(now)
      ensures signal == Go ==>
                && Valid() && open == None && day == old(day).(completedPages := upTo, bronzeRecords := persisted)
                && ConfirmedTo(old(pages), pages, old(day).completedPages, upTo, receipts) == true
    {
      signal := ConfirmAll(receipts, upTo);
      if signal == Go {
        day, open := day.(bronzeRecords := persisted), None;
        AllKept(pages, pending, next, day.completedPages, id, now);
      }
    }

    /** An interruption fails the page whose turn is not over. */
    method FailOpen() returns (signal: Signal)
      requires Safe() && OpenOk()
      modifies `faults, `ticks, `now, `pages
      ensures Safe() == true && (old(faults) == [] ==> signal == Go && faults == []) && now >= old(now)
      ensures Vouching(old(pages), pages, map[]) == true
      ensures signal == Go ==>
                if open.None? then pages == old(pages)
                else exists p :: PageFailed(p, id, open.value.number, now) && pages == Put(old(pages), p)
    {
      if open.None? {
        return Go;
      }
      var t := Clock();
      signal := WritePageManifest(open.value.(status := Failed, errorCount := 1, completedAt := Some(t)));
    }

    /** One page of `discard_pages`. */
    method DiscardOne(i: nat, confirmed: map<nat, nat>) returns (signal: Signal)
      requires Safe() && Kept() && i < |pending|
      modifies `faults, `ticks, `now, `pages
      ensures old(faults) == [] ==> signal == Go && faults == []
      ensures Safe() == true && Kept() == true && now >= old(now) && Vouching(old(pages), pages, map[]) == true
      ensures signal != Go ==> |pages| == |old(pages)|
      ensures signal == Go ==>
                && var n := next - |pending| + i;
                && n < |old(pages)| == |pages| && pages == old(pages)[n := pages[n]]
                && PageFailed(pages[n], id, n, now) && pages[n].bronzeRecords == CountOf(confirmed, n) && pages[n].errorCount == 1
    {
      ghost var before, began := pages, now;
      var number := pending[i].number;
      var t := Clock();
      var p := pending[i].(status := Failed, bronzeRecords := CountOf(confirmed, number), errorCount := 1, completedAt := Some(t));
      DiscardStep(before, pending, next, day.completedPages, torn, id, began, t, i, p);
      signal := WritePageManifest(p);
    }

    /** `discard_pages`, once the writer was told to stop. */
    method Discard(confirmed: map<nat, nat>) returns (signal: Signal)
      requires Safe() && Kept()
      modifies `faults, `ticks, `now, `pages
      ensures old(faults) == [] ==> signal == Go && faults == []
      ensures Safe() == true && Kept() == true && |pages| == |old(pages)| && now >= old(now) && Vouching(old(pages), pages, map[]) == true
      ensures signal == Go ==> DiscardedTo(old(pages), pages, next - |pending|, next, confirmed, id, now) == true
    {
      ghost var first := next - |pending|;
      for i := 0 to |pending|
        invariant Safe() == true && Kept() == true && first + i <= |pages| && now >= old(now) && (old(faults) == [] ==> faults == [])
        invariant DiscardedTo(old(pages), pages, first, first + i, confirmed, id, now) == true && Vouching(old(pages), pages, map[]) == true
      {
        ghost var before, began := pages, now;
        signal := DiscardOne(i, confirmed);
        if signal != Go {
          return;
        }
        VouchingOn(old(pages), before, pages);
        DiscardedNext(old(pages), before, pages, first, first + i, confirmed, id, began, now);
      }
      signal := Go;
    }
  }

  /** One more receipt. */
  lemma ConfirmedNext(pages0: seq<PageManifest>, pages1: seq<PageManifest>, pages2: seq<PageManifest>, first: nat, n: nat,
                      receipts: map<nat, nat>)
    requires first <= n < |pages0| && n in receipts
    requires ConfirmedTo(pages0, pages1, first, n, receipts) && ConfirmedTo(pages1, pages2, n, n + 1, map[n := receipts[n]])
    ensures ConfirmedTo(pages0, pages2, first, n + 1, receipts)
  {
  }

  lemma VouchingNext(pages0: seq<PageManifest>, pages1: seq<PageManifest>, pages2: seq<PageManifest>, n: nat, receipts: map<nat, nat>)
    requires Vouching(pages0, pages1, receipts) && n in receipts && Vouching(pages1, pages2, map[n := receipts[n]])
    ensures Vouching(pages0, pages2, receipts)
  {
  }

  /** The exception is real: an announcement that raised after it had landed is not among the
      pages a discard fails, so the page stays in the store as running. */
  method TornPageStays(id: Ident, now: int) returns (attempt: Attempt)
    ensures attempt.faults == [] && |attempt.pages| == 1 && attempt.pages[0].status == Running && attempt.torn == Some(0)
  {
    attempt := new Attempt(id, [Broken(true)], [], now);
    var page := attempt.OpenPage();
    var signal := attempt.Announce(page);
    signal := attempt.Discard(map[]);
  }
}
