/** `run_daily_resource`: one day from its first page to its commit, against any server,
    extractor, loader, store and cancellation. Whatever happens, a committed day is the
    whole search window, accepted in full, with manifests that add up. */
module DailyRunner {
  import opened Wrappers
  import opened Collections
  import opened Control
  import opened Archive
  import opened DayAttempt
  import Batches = BronzeBatches
  import Bronze = BronzeWriter
  import Search = Pagination

  /** What the extractor makes of a page: its tables and the errors it noted; or it raises. */
  datatype Extraction = Extracted(tables: Batches.Page, errors: nat) | Thrown(errors: nat)

  datatype PageOutcome = PageOutcome(bronzeRecords: nat, errors: nat)

  datatype Turn = Continue | Exhausted | Recorded

  datatype DailyOutcome = Refused | Succeeded | RecordedFailure | Crashed | CutShort | Uncertain

  /* What a page manifest states is what the writer confirmed of its page. */

  /** The first `done` pages were accepted in full and state their rows. */
  ghost predicate Tally(pages: seq<PageManifest>, done: nat, l: Bronze.Ledger) {
    && done <= |pages| && done <= |l.pages|
    && forall i :: 0 <= i < done ==> TallyAt(pages, l, i)
  }

  ghost predicate TallyAt(pages: seq<PageManifest>, l: Bronze.Ledger, i: nat)
    requires i < |pages| && i < |l.pages|
  {
    l.Whole(i) && pages[i].bronzeRecords == Batches.RowCount(l.pages[i])
  }

  ghost predicate AllStated(pages: seq<PageManifest>, confirmed: map<nat, nat>) {
    forall i :: 0 <= i < |pages| ==> pages[i].bronzeRecords == CountOf(confirmed, i)
  }

  lemma TallyGrows(pages: seq<PageManifest>, done: nat, l: Bronze.Ledger, more: Bronze.Ledger)
    requires Tally(pages, done, l) && Honest(pages, l) && more.Extends(l)
    ensures Tally(pages, done, more) && Honest(pages, more)
  {
    forall i | 0 <= i < |pages| ensures HonestAt(pages, more, i) { assert HonestAt(pages, l, i); }
    forall i | 0 <= i < done ensures TallyAt(pages, more, i) { assert TallyAt(pages, l, i); }
  }

  /** Every page stored as a success was accepted in full, and states its rows. */
  ghost predicate Honest(pages: seq<PageManifest>, l: Bronze.Ledger) {
    forall i :: 0 <= i < |pages| ==> HonestAt(pages, l, i)
  }

  ghost predicate HonestAt(pages: seq<PageManifest>, l: Bronze.Ledger, i: nat)
    requires i < |pages|
  {
    pages[i].status == Success ==> i < |l.pages| && l.Whole(i) && pages[i].bronzeRecords == Batches.RowCount(l.pages[i])
  }

  lemma HonestStill(before: seq<PageManifest>, after: seq<PageManifest>, receipts: map<nat, nat>, l: Bronze.Ledger)
    requires Honest(before, l) && Vouching(before, after, receipts) && l.Receipted(receipts)
    ensures Honest(after, l)
  {
    forall i | 0 <= i < |after| ensures HonestAt(after, l, i) {
      if i < |before| { assert HonestAt(before, l, i); }
    }
  }

  lemma HonestNone(before: seq<PageManifest>, after: seq<PageManifest>, l: Bronze.Ledger)
    requires Honest(before, l) && Vouching(before, after, map[])
    ensures Honest(after, l)
  {
    HonestStill(before, after, map[], l);
  }

  lemma TallyConfirmed(before: seq<PageManifest>, after: seq<PageManifest>, done: nat, upTo: nat, receipts: map<nat, nat>,
                       l: Bronze.Ledger)
    requires Tally(before, done, l) && done <= upTo <= |before| && l.Receipted(receipts)
    requires ConfirmedTo(before, after, done, upTo, receipts)
    ensures Tally(after, upTo, l) && SumItems(after) == SumItems(before)
  {
    SumItemsSame(before, after);
    if done < upTo { assert upTo - 1 in receipts by { assert after[upTo - 1].status == Success; } }
    forall i | 0 <= i < upTo ensures TallyAt(after, l, i) {
      if i < done { assert TallyAt(before, l, i); } else { assert i in receipts; }
    }
  }

  lemma {:induction false} SumItemsSame(before: seq<PageManifest>, after: seq<PageManifest>)
    requires |before| == |after| && forall i :: 0 <= i < |before| ==> before[i].searchItems == after[i].searchItems
    ensures SumItems(before) == SumItems(after)
  {
    if before != [] { SumItemsSame(before[..|before| - 1], after[..|after| - 1]); }
  }

  lemma SumItemsNext(pages: seq<PageManifest>, page: PageManifest)
    ensures SumItems(pages + [page]) == SumItems(pages) + page.searchItems
  {
  }

  /** Done pages state their rows, discarded ones what was confirmed of them. */
  lemma DiscardedStates(before: seq<PageManifest>, after: seq<PageManifest>, done: nat, l: Bronze.Ledger, confirmed: map<nat, nat>,
                        id: Ident, earlier: int, now: int)
    requires Tally(before, done, l) && l.Confirms(confirmed)
    requires DiscardedTo(before, after, done, |before|, confirmed, id, now) && Accounted(before, done, id, earlier) && earlier <= now
    ensures AllStated(after, confirmed) && Settled(after, done, None, id, now) && Tally(after, done, l)
  {
    forall i | 0 <= i < |after| ensures after[i].bronzeRecords == CountOf(confirmed, i) {
      if i < done {
        assert TallyAt(before, l, i);
        l.WholeConfirmed(i, confirmed);
      }
    }
    forall i | 0 <= i < |after| ensures SettledAt(after, done, None, id, now, i) { }
    forall i | 0 <= i < done ensures TallyAt(after, l, i) { assert TallyAt(before, l, i); }
  }

  /** Whatever was raised before, the pages that were pending failed; the page whose own write
      raised is as that write left it. */
  lemma DiscardedSettles(before: seq<PageManifest>, pending: seq<PageManifest>, next: nat, done: nat, torn: Option<nat>,
                         after: seq<PageManifest>, confirmed: map<nat, nat>, id: Ident, earlier: int, now: int)
    requires KeptPages(before, pending, next, done, torn, id, earlier) && earlier <= now
    requires DiscardedTo(before, after, next - |pending|, next, confirmed, id, now)
    ensures Settled(after, done, torn, id, now) && (torn.Some? && torn.value < |after| ==> after[torn.value].status != Failed)
  {
    forall i | 0 <= i < |after| ensures SettledAt(after, done, torn, id, now, i) {
      assert KeptAt(before, next - |pending|, next, torn, id, earlier, i);
    }
  }

  lemma TallyPut(pages: seq<PageManifest>, done: nat, l: Bronze.Ledger, p: PageManifest)
    requires Tally(pages, done, l) && done <= p.number <= |pages|
    ensures Tally(Put(pages, p), done, l)
  {
    var after := Put(pages, p);
    forall i | 0 <= i < done ensures TallyAt(after, l, i) { assert TallyAt(pages, l, i); }
  }

  /** Such pages add up to the records of the tables that were accepted. */
  lemma {:induction false} StatedAddUp(pages: seq<PageManifest>, l: Bronze.Ledger, confirmed: map<nat, nat>)
    requires AllStated(pages, confirmed) && l.Confirms(confirmed)
    ensures SumRecords(pages) == Batches.TotalIn(l.pages, l.delivered, if |pages| < |l.pages| then |pages| else |l.pages|)
  {
    if pages != [] { StatedAddUp(pages[..|pages| - 1], l, confirmed); }
  }

  /** A run header of this attempt. */
  predicate RunFits(run: RunManifest, id: Ident) {
    && run.schemaVersion == 1 && (run.completedAt.Some? ==> run.completedAt.value >= run.startedAt)
    && run.runId == id.run && run.source == DEFAULT_SOURCE && run.resource == id.resource && run.start <= id.date <= run.end
  }

  /** The day and page manifests pass every check an archive makes of them. */
  ghost predicate WellFormed(id: Ident, day: DayManifest, pages: seq<PageManifest>) {
    forall run :: RunFits(run, id) ==> DayMetadataValid(id.resource, id.date, id.run, run, day, pages, false)
  }

  lemma FinishedIsWellFormed(id: Ident, day: DayManifest, pages: seq<PageManifest>, now: int, completed: DayManifest)
    requires AttemptOf(day, id, now) && Accounted(pages, |pages|, id, now)
    requires day.errorCount == 0 && day.completedPages == |pages| && day.expectedPages == Some(|pages|)
    requires day.bronzeRecords == SumRecords(pages) && day.searchItems == SumItems(pages)
    requires exists t :: t >= now && completed == day.(status := Success, completedAt := Some(t))
    ensures WellFormed(id, completed, pages)
  {
  }

  /** The pages the writer was given are what the extractor made of them, in order. */
  ghost predicate FedFrom(script: seq<Extraction>, left: seq<Extraction>, loaded: seq<Batches.Page>) {
    && |loaded| <= |script| && left == script[|loaded|..]
    && forall i :: 0 <= i < |loaded| ==> script[i] == Extracted(loaded[i], 0)
  }

  lemma FedNext(script: seq<Extraction>, left: seq<Extraction>, loaded: seq<Batches.Page>, left': seq<Extraction>,
                loaded': seq<Batches.Page>)
    requires FedFrom(script, left, loaded) && |loaded'| == |loaded| + 1 && loaded <= loaded'
    requires left == [Extracted(loaded'[|loaded|], 0)] + left'
    ensures FedFrom(script, left', loaded')
  {
    assert left[0] == script[|loaded|] && left' == left[1..] == script[|loaded| + 1..];
  }

  /** A page of the window that was not handed over yet is still to be extracted. */
  lemma NextExtraction(script: seq<Extraction>, left: seq<Extraction>, loaded: seq<Batches.Page>, n: nat)
    requires FedFrom(script, left, loaded) && |loaded| < n <= |script|
    requires forall i :: 0 <= i < n ==> script[i].Extracted? && script[i].errors == 0
    ensures left != [] && left[0].Extracted? && left[0].errors == 0
  {
    assert left[0] == script[|loaded|];
  }

  /** The inner writer was given every row the extractor made, each once, in order. */
  lemma EveryRowHandedOver(l: Bronze.Ledger, table: string)
    requires l.InOrder() && l.delivered <= l.sent && forall i :: 0 <= i < |l.pages| ==> l.Whole(i)
    ensures Batches.Sent(l.calls, table) == Batches.BatchRows(l.pages, 0, |l.pages|, table)
  {
    AllKept(l, table, |l.pages|);
  }

  lemma {:induction false} AllKept(l: Bronze.Ledger, table: string, n: nat)
    requires n <= |l.pages| && l.delivered <= l.sent && forall i :: 0 <= i < n ==> l.Whole(i)
    ensures Batches.Kept(l.pages, table, l.sent, n) == Batches.BatchRows(l.pages, 0, n, table)
  {
    if n > 0 {
      AllKept(l, table, n - 1);
      assert l.Whole(n - 1);
      if !Batches.Listed(l.pages[n - 1], table) { Batches.UnlistedRows(l.pages[n - 1], table); }
    }
  }

  class Runner {
    const attempt: Attempt
    const writer: Bronze.BufferedWriter
    const pager: Search.Pager

    var extractions: seq<Extraction>
    /** What the extractor makes of the pages of the window, in order. */
    ghost const script: seq<Extraction>

    ghost predicate Fed()
      reads this, writer
    {
      FedFrom(script, extractions, writer.ledger.pages) == true
    }

    /** The window is consistent and the extractor makes something of each of its pages. */
    ghost predicate Behaved() {
      && pager.pageSize > 0 && Search.WindowConsistent(pager.server, pager.keyed, pager.pageSize)
      && var n := Search.PageCount(pager.Window(), pager.pageSize);
      && n <= |script| && forall i :: 0 <= i < n ==> script[i].Extracted? && script[i].errors == 0
    }

    /** And nothing else will fail. */
    ghost predicate Smooth()
      reads this, attempt`faults, writer`loads
    {
      Behaved() == true && attempt.faults == [] && writer.loads == []
    }

    /** There is a page to come. */
    ghost predicate PagesLeft(n: nat) {
      pager.Window() >= 0 && pager.pageSize > 0 && n < Search.PageCount(pager.Window(), pager.pageSize)
    }

    /** Whatever was raised, wherever. */
    ghost predicate Salvageable()
      reads attempt, writer
    {
      attempt.Safe() == true && attempt.Kept() == true && writer.Valid() == true && Honest(attempt.pages, writer.ledger) == true
    }

    /** The manifests and the writer agree on what is done. */
    ghost predicate Books()
      reads attempt, writer
    {
      && attempt.Valid() == true && writer.Valid() == true
      && Tally(attempt.pages, attempt.day.completedPages, writer.ledger) == true && Honest(attempt.pages, writer.ledger) == true
      && |writer.ledger.pages| <= |attempt.pages|
    }

    /** No page was lost, and no receipt waits. */
    ghost predicate Level()
      reads this, attempt, writer
    {
      && Fed() == true && |writer.ledger.pages| == |attempt.pages| && writer.ledger.incomplete == 0
      && writer.First() == attempt.day.completedPages && writer.receipts == map[]
      && attempt.day.bronzeRecords == writer.persisted
      && attempt.day.status == Running && attempt.day.errorCount == 0
    }

    /** The pages announced are those the source has yielded. */
    ghost predicate Crawled()
      reads attempt
    {
      CrawledSo(attempt.day.searchItems, attempt.day.expectedPages, |attempt.pages|, SumItems(attempt.pages)) == true
    }

    ghost predicate CrawledSo(items: nat, expected: Option<nat>, count: nat, announced: nat) {
      && items == announced == |Search.ItemsOf(pager.server, count)|
      && (if count == 0 then expected == None
          else pager.Window() >= 0 && pager.pageSize > 0 && expected == Some(Search.PageCount(pager.Window(), pager.pageSize)))
    }

    ghost predicate Paged()
      reads attempt, pager
    {
      && pager.Valid() && pager.pageSize == attempt.id.pageSize > 0 && pager.fetches == |attempt.pages|
      && (if attempt.pages == [] then pager.phase.Fresh? else pager.phase.Suspended?)
    }

    /** Between two turns. */
    ghost predicate Steady()
      reads this, attempt, writer, pager
    {
      Books() && Level() && Crawled() && Paged()
    }

    constructor (id: Ident, server: Search.Server, keyed: bool, maxBytes: int, maxRecords: int, loads: seq<Bronze.Load>,
                 extractions: seq<Extraction>, faults: seq<Fault>, ticks: seq<nat>, now: int)
      ensures fresh(attempt) && fresh(writer) && fresh(pager)
      ensures attempt.id == id && pager.server == server && pager.keyed == keyed && pager.pageSize == id.pageSize
      ensures attempt.pages == [] && attempt.marker == None && script == extractions
      ensures Salvageable() == true && (id.pageSize > 0 ==> Steady() == true)
    {
      attempt := new Attempt(id, faults, ticks, now);
      writer := new Bronze.BufferedWriter(maxBytes, maxRecords, loads);
      pager := new Search.Pager(server, id.pageSize, keyed);
      this.extractions, this.script := extractions, extractions;
    }

    /** `confirm_pages` */
    method Confirm(ghost upTo: nat) returns (signal: Signal)
      requires Books() && attempt.day.completedPages <= upTo <= |attempt.pages|
      requires attempt.open.Some? ==> upTo <= attempt.open.value.number + 1
      requires forall n :: n in writer.receipts <==> attempt.day.completedPages <= n < upTo
      modifies attempt`faults, attempt`ticks, attempt`now, attempt`pages, attempt`pending, attempt`day, attempt`torn, attempt`open
      modifies writer`receipts, writer`taken
      ensures old(attempt.faults) == [] ==> signal == Go && attempt.faults == []
      ensures Salvageable() == true && attempt.now >= old(attempt.now)
      ensures signal == Go ==>
                && Books() == true && writer.receipts == map[] && attempt.open == None
                && attempt.day == old(attempt.day).(completedPages := upTo, bronzeRecords := writer.persisted)
                && |attempt.pages| == |old(attempt.pages)| && SumItems(attempt.pages) == SumItems(old(attempt.pages))
    {
      ghost var before, done := attempt.pages, attempt.day.completedPages;
      var receipts := writer.TakeReceipts();
      signal := attempt.Confirm(receipts, writer.persisted, upTo);
      HonestStill(before, attempt.pages, receipts, writer.ledger);
      if signal == Go {
        TallyConfirmed(before, attempt.pages, done, upTo, receipts, writer.ledger);
      }
    }

    /** `discard_pages` */
    method Discard() returns (signal: Signal)
      requires Salvageable()
      modifies attempt`faults, attempt`ticks, attempt`now, attempt`pages, writer`pending, writer`size, writer`count
      ensures old(attempt.faults) == [] ==> signal == Go && attempt.faults == []
      ensures Salvageable() == true && |attempt.pages| == |old(attempt.pages)|
      ensures attempt.now >= old(attempt.now)
      ensures signal == Go && old(Books()) ==> Told(None) && AllStated(attempt.pages, writer.confirmed)
      ensures signal == Go && old(Books()) && attempt.day.completedPages < |attempt.pages| ==>
                attempt.pages[|attempt.pages| - 1].errorCount == 1
      ensures signal == Go ==> Settled(attempt.pages, attempt.day.completedPages, attempt.torn, attempt.id, attempt.now) == true
      ensures signal == Go && attempt.torn.Some? && attempt.torn.value < |attempt.pages| ==> attempt.pages[attempt.torn.value].status != Failed
    {
      ghost var before, done, earlier := attempt.pages, attempt.day.completedPages, attempt.now;
      writer.Abort();
      signal := attempt.Discard(writer.confirmed);
      HonestStill(before, attempt.pages, map[], writer.ledger);
      if signal == Go {
        DiscardedSettles(before, attempt.pending, attempt.next, done, attempt.torn, attempt.pages, writer.confirmed, attempt.id, earlier,
                         attempt.now);
        if old(Books()) {
          DiscardedStates(before, attempt.pages, done, writer.ledger, writer.confirmed, attempt.id, earlier, attempt.now);
        }
      }
    }

    /** The pages counted as done are finished and were accepted in full; the others failed,
        but for the torn one. */
    ghost predicate Told(torn: Option<nat>)
      reads attempt`pages, attempt`day, attempt`now, writer`ledger
    {
      && Settled(attempt.pages, attempt.day.completedPages, torn, attempt.id, attempt.now) == true
      && Tally(attempt.pages, attempt.day.completedPages, writer.ledger) == true
    }

    /** The day is failed, its pages stating what was confirmed of them; just those counted as
        done are finished, and the last one has the errors of the day. */
    ghost predicate FailureRecorded()
      reads attempt, writer
    {
      && attempt.marker == Some(attempt.day) && attempt.day.status == Failed && attempt.day.errorCount > 0
      && attempt.day.bronzeRecords == writer.persisted
      && SumRecords(attempt.pages) + writer.ledger.incomplete == attempt.day.bronzeRecords
      && Told(None) && attempt.pages != [] && attempt.pages[|attempt.pages| - 1].errorCount == attempt.day.errorCount
    }

    /** The page that met errors is failed. */
    method FailPage(page: PageManifest, errors: nat) returns (signal: Signal)
      requires Salvageable() && AllStated(attempt.pages, writer.confirmed) && Told(None)
      requires PageRunning(page, attempt.id, page.number, attempt.now) && errors > 0
      requires attempt.day.completedPages == attempt.next - |attempt.pending| <= page.number <= attempt.next == |attempt.pages| <= page.number + 1
      requires attempt.torn == None
      modifies attempt`faults, attempt`ticks, attempt`now, attempt`pages
      ensures old(attempt.faults) == [] ==> signal == Go && attempt.faults == []
      ensures Salvageable() == true && |attempt.pages| >= |old(attempt.pages)|
      ensures signal == Go ==> AllStated(attempt.pages, writer.confirmed) && Told(None)
      ensures signal == Go ==> attempt.pages != [] && attempt.pages[|attempt.pages| - 1].errorCount == errors
    {
      ghost var before := attempt.pages;
      var sent;
      signal, sent := attempt.WriteFailedPage(page, errors, CountOf(writer.confirmed, page.number));
      HonestNone(before, attempt.pages, writer.ledger);
      TallyPut(before, attempt.day.completedPages, writer.ledger, sent);
    }

    method FailDay(errors: nat) returns (signal: Signal)
      requires Salvageable() && AllStated(attempt.pages, writer.confirmed) && |writer.ledger.pages| <= |attempt.pages|
      requires errors > 0 && Told(None) && attempt.pages != [] && attempt.pages[|attempt.pages| - 1].errorCount == errors
      modifies attempt`faults, attempt`ticks, attempt`now, attempt`day, attempt`marker, attempt`marked
      ensures old(attempt.faults) == [] ==> signal == Go && attempt.faults == []
      ensures Salvageable() == true && (signal == Go ==> FailureRecorded() == true)
    {
      attempt.SetCounts(errors, writer.persisted);
      signal := attempt.FailDay();
      StatedAddUp(attempt.pages, writer.ledger, writer.confirmed);
    }

    /** The end of a turn that met errors. */
    method RecordFailure(page: PageManifest, errors: nat) returns (signal: Signal)
      requires Books() && attempt.day.completedPages <= page.number <= |attempt.pages| <= page.number + 1
      requires PageRunning(page, attempt.id, page.number, attempt.now)
      requires attempt.day.bronzeRecords == writer.persisted && attempt.day.errorCount == errors > 0
      modifies attempt, writer`pending, writer`size, writer`count
      ensures old(attempt.faults) == [] ==> signal == Go && attempt.faults == []
      ensures Salvageable() == true && (signal == Go ==> FailureRecorded() == true)
    {
      signal := Discard();
      if signal != Go { return; }
      signal := FailPage(page, errors);
      if signal != Go { return; }
      signal := FailDay(errors);
    }

    /** The day's totals after a page, what is kept of it, and the receipts. */
    method AddUp(outcome: PageOutcome, items: nat, ghost upTo: nat) returns (signal: Signal)
      requires Books() && attempt.day.completedPages <= upTo <= |attempt.pages|
      requires attempt.open.Some? ==> upTo <= attempt.open.value.number + 1
      requires forall n :: n in writer.receipts <==> attempt.day.completedPages <= n < upTo
      modifies attempt`faults, attempt`ticks, attempt`now, attempt`pages, attempt`pending, attempt`day, attempt`torn, attempt`open
      modifies writer`receipts, writer`taken
      ensures old(attempt.faults) == [] ==> signal == Go && attempt.faults == []
      ensures Salvageable() == true && attempt.now >= old(attempt.now)
      ensures signal == Go ==>
                && Books() == true && writer.receipts == map[] && attempt.open == None
                && attempt.day == old(attempt.day).(completedPages := upTo, bronzeRecords := writer.persisted,
                                                    searchItems := old(attempt.day).searchItems + items,
                                                    errorCount := old(attempt.day).errorCount + outcome.errors)
                && |attempt.pages| == |old(attempt.pages)| && SumItems(attempt.pages) == SumItems(old(attempt.pages))
    {
      signal := attempt.AddTotals(items, outcome.bronzeRecords, outcome.errors);
      if signal != Go { return; }
      signal := Confirm(upTo);
    }

    /** The rest of a turn, once its page was loaded or met errors. */
    method Conclude(page: PageManifest, outcome: PageOutcome, items: nat, ghost upTo: nat) returns (signal: Signal, recorded: bool)
      requires Books() && attempt.day.completedPages <= upTo <= |attempt.pages|
      requires forall n :: n in writer.receipts <==> attempt.day.completedPages <= n < upTo
      requires page.number <= |attempt.pages| <= page.number + 1 && PageRunning(page, attempt.id, page.number, attempt.now)
      requires (attempt.open.Some? ==> upTo <= attempt.open.value.number + 1) && (outcome.errors > 0 ==> upTo <= page.number)
      requires attempt.day.status == Running && attempt.day.errorCount == 0
      requires outcome.errors == 0 ==>
                 Fed() && |writer.ledger.pages| == |attempt.pages| && writer.ledger.incomplete == 0 && upTo == writer.First()
      modifies attempt, writer`receipts, writer`taken, writer`pending, writer`size, writer`count
      ensures old(attempt.faults) == [] ==> signal == Go && attempt.faults == []
      ensures Salvageable() == true && recorded == (outcome.errors > 0)
      ensures signal == Go && recorded ==> FailureRecorded() == true
      ensures signal == Go && !recorded ==>
                && Books() == true && Level() == true && attempt.day.searchItems == old(attempt.day).searchItems + items
                && attempt.day.expectedPages == old(attempt.day).expectedPages
                && |attempt.pages| == |old(attempt.pages)| && SumItems(attempt.pages) == SumItems(old(attempt.pages))
    {
      recorded := outcome.errors > 0;
      signal := AddUp(outcome, items, upTo);
      if signal != Go { return; }
      if recorded {
        signal := RecordFailure(page, outcome.errors);
        return;
      }
      signal := attempt.WriteDayManifest(attempt.day);
    }

    /** `run_page`: extract the records of a page and hand them to the writer. */
    method RunPage() returns (signal: Signal, outcome: PageOutcome, ghost upTo: nat)
      requires writer.Valid() && writer.receipts == map[]
      modifies attempt`faults, `extractions, writer
      ensures writer.Valid() && writer.ledger.Extends(old(writer.ledger))
      ensures |old(writer.ledger.pages)| <= |writer.ledger.pages| <= |old(writer.ledger.pages)| + 1
      ensures && old(attempt.faults) == [] && old(writer.loads) == []
              && old(extractions) != [] && old(extractions)[0].Extracted? && old(extractions)[0].errors == 0
              ==> signal == Go && outcome.errors == 0 && attempt.faults == [] && writer.loads == []
      ensures signal != Error && (outcome.errors > 0 ==> upTo <= |old(writer.ledger.pages)|)
      ensures old(writer.First()) <= upTo <= |writer.ledger.pages|
      ensures forall n :: n in writer.receipts <==> old(writer.First()) <= n < upTo
      ensures signal == Go && outcome.errors == 0 ==>
                && |writer.ledger.pages| == |old(writer.ledger.pages)| + 1 && upTo == writer.First()
                && old(extractions) == [Extracted(writer.ledger.pages[|old(writer.ledger.pages)|], 0)] + extractions
                && writer.ledger.incomplete == old(writer.ledger.incomplete)
    {
      upTo := writer.First();
      signal := attempt.Op();
      outcome := PageOutcome(0, 1);
      if signal == Interrupted { return; }
      if signal == Error || extractions == [] {
        return Go, outcome, upTo;
      }
      var extraction := extractions[0];
      extractions := extractions[1..];
      if extraction.Thrown? {
        return Go, PageOutcome(0, extraction.errors + 1), upTo;
      }
      if extraction.errors > 0 {
        return Go, PageOutcome(0, extraction.errors), upTo;
      }
      var written;
      written, upTo := writer.WritePage(extraction.tables);
      return Go, PageOutcome(written.persisted, if written.Returned? then 0 else 1), upTo;
    }

    lemma BooksBrought(ledger: Bronze.Ledger)
      requires attempt.Valid() && writer.Valid() && Tally(attempt.pages, attempt.day.completedPages, ledger) && Honest(attempt.pages, ledger)
      requires writer.ledger.Extends(ledger)
      ensures Salvageable() && (|writer.ledger.pages| <= |attempt.pages| ==> Books())
    {
      TallyGrows(attempt.pages, attempt.day.completedPages, ledger, writer.ledger);
    }

    /** `run_page`, with the books brought along. */
    method HandOver() returns (signal: Signal, outcome: PageOutcome, ghost upTo: nat)
      requires Books() && Waiting()
      modifies attempt`faults, `extractions, writer
      ensures old(Smooth()) && PagesLeft(|old(writer.ledger.pages)|) ==> signal == Go && outcome.errors == 0 && Smooth()
      ensures signal != Go ==> Salvageable() == true
      ensures signal == Go ==>
                && Books() == true && attempt.day.completedPages <= upTo <= |attempt.pages|
                && (outcome.errors > 0 ==> upTo < |attempt.pages|)
                && forall n :: n in writer.receipts <==> attempt.day.completedPages <= n < upTo
      ensures signal == Go && outcome.errors == 0 ==>
                && Fed() == true && |writer.ledger.pages| == |attempt.pages| && writer.ledger.incomplete == 0 && upTo == writer.First()
    {
      ghost var ledger, left := writer.ledger, extractions;
      if Behaved() && PagesLeft(|ledger.pages|) {
        NextExtraction(script, left, ledger.pages, Search.PageCount(pager.Window(), pager.pageSize));
      }
      signal, outcome, upTo := RunPage();
      BooksBrought(ledger);
      if signal == Go && outcome.errors == 0 { FedNext(script, left, ledger.pages, extractions, writer.ledger.pages); }
    }

    /** The writer has everything but the last page announced. */
    ghost predicate Waiting()
      reads this, attempt, writer
    {
      && Fed() == true && |writer.ledger.pages| + 1 == |attempt.pages| && writer.ledger.incomplete == 0
      && writer.First() == attempt.day.completedPages && writer.receipts == map[]
      && attempt.day.status == Running && attempt.day.errorCount == 0
    }

    /** A page the source yielded is announced. */
    method Accept(page: PageManifest, expected: nat) returns (signal: Signal)
      requires Books() && Level() && PageRunning(page, attempt.id, |attempt.pages|, attempt.now)
      modifies attempt
      ensures old(attempt.faults) == [] ==> signal == Go && attempt.faults == []
      ensures Salvageable() == true
      ensures signal == Go ==>
                && Books() == true && Waiting() == true && attempt.pages == old(attempt.pages) + [page] && attempt.open == Some(page)
                && attempt.day == old(attempt.day).(expectedPages := Some(expected))
    {
      ghost var before := attempt.pages;
      attempt.day := attempt.day.(expectedPages := Some(expected));
      signal := attempt.Announce(page);
      HonestStill(before, attempt.pages, map[], writer.ledger);
      TallyPut(before, attempt.day.completedPages, writer.ledger, page);
    }

    /** A page the source yielded is announced and handed over. */
    method Offer(page: PageManifest, expected: nat) returns (signal: Signal, outcome: PageOutcome, ghost upTo: nat)
      requires Books() && Level() && PageRunning(page, attempt.id, |attempt.pages|, attempt.now)
      modifies attempt, writer, `extractions
      ensures old(Smooth()) && PagesLeft(|old(attempt.pages)|) ==> signal == Go && outcome.errors == 0 && Smooth()
      ensures signal != Go ==> Salvageable() == true
      ensures signal == Go ==>
                && Books() == true && attempt.day.completedPages <= upTo <= |attempt.pages| && attempt.pages == old(attempt.pages) + [page]
                && (outcome.errors > 0 ==> upTo <= page.number) && attempt.open == Some(page)
                && PageRunning(page, attempt.id, page.number, attempt.now)
                && attempt.day == old(attempt.day).(expectedPages := Some(expected))
                && forall n :: n in writer.receipts <==> attempt.day.completedPages <= n < upTo
      ensures signal == Go && outcome.errors == 0 ==>
                Fed() && |writer.ledger.pages| == |attempt.pages| && writer.ledger.incomplete == 0 && upTo == writer.First()
    {
      outcome, upTo := PageOutcome(0, 0), 0;
      signal := Accept(page, expected);
      if signal == Go {
        signal, outcome, upTo := HandOver();
      }
    }

    /** A page the source yielded, from its announcement to the end of its turn. */
    method LoadPage(page: PageManifest, expected: nat) returns (signal: Signal, recorded: bool)
      requires Books() && Level() && Crawled() && PageRunning(page, attempt.id, |attempt.pages|, attempt.now)
      requires SumItems(attempt.pages) + page.searchItems == |Search.ItemsOf(pager.server, |attempt.pages| + 1)|
      requires pager.Window() >= 0 && pager.pageSize > 0 && expected == Search.PageCount(pager.Window(), pager.pageSize)
      modifies attempt, writer, `extractions
      ensures old(Smooth()) && PagesLeft(|old(attempt.pages)|) ==> signal == Go && !recorded && Smooth()
      ensures Salvageable() == true
      ensures signal == Go && recorded ==> FailureRecorded() == true
      ensures signal == Go && !recorded ==> Books() == true && Level() == true && Crawled() == true && |attempt.pages| == |old(attempt.pages)| + 1
    {
      recorded := false;
      SumItemsNext(attempt.pages, page);
      var outcome;
      ghost var upTo;
      signal, outcome, upTo := Offer(page, expected);
      if signal == Go {
        signal, recorded := Conclude(page, outcome, page.searchItems, upTo);
      }
    }

    lemma ConsistentSoFar(n: nat)
      requires Behaved() && PagesLeft(n)
      ensures Search.Consistent(pager.server, pager.keyed, pager.Window(), pager.pageSize, n + 1)
    {
      Search.PrefixConsistent(pager.server, pager.keyed, pager.Window(), pager.pageSize, n + 1,
                              Search.PageCount(pager.Window(), pager.pageSize));
    }

    /** Ask for the next page of the window. */
    method Fetch() returns (signal: Signal, fetched: Search.Outcome)
      requires Paged()
      modifies attempt`faults, pager
      ensures old(Smooth()) ==> signal == Go && !fetched.Failed? && Smooth()
      ensures fetched.Yielded? ==> PagesLeft(|attempt.pages|)
      ensures signal == Go && fetched.Yielded? ==>
                && pager.Valid() && pager.phase.Suspended? && pager.fetches == |attempt.pages| + 1
                && fetched == Search.Yielded(|attempt.pages|, Search.Answer(pager.server, |attempt.pages|))
      ensures signal == Go && fetched.Stopped? ==> WindowDone() == true
      ensures signal != Error
    {
      if Behaved() && PagesLeft(|attempt.pages|) { ConsistentSoFar(|attempt.pages|); }
      signal := attempt.Op();
      fetched := Search.Failed;
      if signal == Go {
        fetched := pager.Next();
      } else if signal == Error {
        signal := Go;
      }
    }

    /** The source has yielded the whole window. */
    ghost predicate WindowDone()
      reads attempt, pager
    {
      && pager.pageSize == attempt.id.pageSize > 0 && pager.Window() >= 0
      && |attempt.pages| == Search.PageCount(pager.Window(), pager.pageSize)
      && Search.Tracks(pager.server, pager.keyed, pager.Window(), pager.pageSize, |attempt.pages|, pager.seen)
    }

    /** The head of a turn: the cancellation check, and the manifest of the next page. */
    method Open() returns (signal: Signal, page: PageManifest)
      requires Books() && Level() && Crawled()
      modifies attempt`faults, attempt`ticks, attempt`now, attempt`open
      ensures old(attempt.faults) == [] ==> signal == Go && attempt.faults == []
      ensures Books() == true && Level() == true && Crawled() == true && PageRunning(page, attempt.id, |attempt.pages|, attempt.now)
      ensures page.searchItems == 0
    {
      signal := attempt.Op();
      page := attempt.OpenPage();
    }

    /** A page the generator yielded fits the window. */
    lemma YieldedFits()
      requires pager.Valid() && pager.phase.Suspended? && pager.fetches == |attempt.pages| + 1
      ensures var response := Search.Answer(pager.server, |attempt.pages|);
              && pager.pageSize > 0 && pager.Window() >= 0 && response.Page? && response.content.Some?
              && response.totalElements == pager.Window()
              && |Search.ItemsOf(pager.server, |attempt.pages| + 1)|
                 == |Search.ItemsOf(pager.server, |attempt.pages|)| + |response.content.value|
    {
    }

    /** The first half of a turn. */
    method Begin() returns (signal: Signal, page: PageManifest, fetched: Search.Outcome)
      requires Steady()
      modifies attempt`faults, attempt`ticks, attempt`now, attempt`open, pager
      ensures old(Smooth()) ==> signal == Go && !fetched.Failed? && Smooth()
      ensures fetched.Yielded? ==> PagesLeft(|attempt.pages|)
      ensures Books() == true && Level() == true && Crawled() == true && PageRunning(page, attempt.id, |attempt.pages|, attempt.now)
      ensures signal == Go && fetched.Yielded? ==>
                && pager.Valid() && pager.phase.Suspended? && pager.fetches == |attempt.pages| + 1
                && fetched == Search.Yielded(|attempt.pages|, Search.Answer(pager.server, |attempt.pages|))
      ensures signal == Go && fetched.Stopped? ==> WindowDone() == true
    {
      fetched := Search.Failed;
      signal, page := Open();
      if signal == Go {
        signal, fetched := Fetch();
      }
    }

    /** A turn that was yielded a page. */
    method TakePage(page: PageManifest, number: nat, response: Search.Fetched) returns (signal: Signal, turn: Turn)
      requires Books() && Level() && Crawled() && PageRunning(page, attempt.id, |attempt.pages|, attempt.now)
      requires pager.Valid() && pager.phase.Suspended? && pager.fetches == |attempt.pages| + 1
      requires pager.pageSize == attempt.id.pageSize
      requires number == |attempt.pages| && response == Search.Answer(pager.server, number)
      modifies attempt, writer, `extractions
      ensures old(Smooth()) && PagesLeft(|old(attempt.pages)|) ==> signal == Go && turn.Continue? && Smooth()
      ensures Salvageable() == true && !turn.Exhausted?
      ensures signal == Go && turn.Continue? ==> Steady() == true
      ensures signal == Go && turn.Recorded? ==> FailureRecorded() == true
    {
      YieldedFits();
      var recorded;
      signal, recorded := LoadPage(page.(number := number, searchItems := |response.content.value|),
                                   Search.PageCount(response.totalElements, attempt.id.pageSize));
      turn := if recorded then Recorded else Continue;
    }

    /** A turn whose search failed. */
    method TakeFailure(page: PageManifest) returns (signal: Signal)
      requires Books() && Level() && PageRunning(page, attempt.id, |attempt.pages|, attempt.now)
      modifies attempt, writer`receipts, writer`taken, writer`pending, writer`size, writer`count
      ensures Salvageable() == true && (signal == Go ==> FailureRecorded() == true)
    {
      var recorded;
      signal, recorded := Conclude(page, PageOutcome(0, 1), 0, attempt.day.completedPages);
    }

    /** One turn of the loop. */
    method Turn() returns (signal: Signal, turn: Turn)
      requires Steady()
      modifies attempt, writer, pager, `extractions
      ensures old(Smooth()) ==> signal == Go && !turn.Recorded? && Smooth()
      ensures Salvageable() == true
      ensures signal == Go && turn.Continue? ==> Steady() == true && pager.phase.Suspended? && pager.fetches == old(pager.fetches) + 1
      ensures signal == Go && turn.Exhausted? ==> Books() == true && Level() == true && Crawled() == true && WindowDone() == true && attempt.open == None
      ensures signal == Go && turn.Recorded? ==> FailureRecorded() == true
    {
      var page, fetched;
      signal, page, fetched := Begin();
      turn := Continue;
      if signal != Go { return; }
      match fetched
      case Stopped =>
        attempt.CloseTurn();
        turn := Exhausted;
      case Failed =>
        signal := TakeFailure(page);
        turn := Recorded;
      case Yielded(number, response) =>
        signal, turn := TakePage(page, number, response);
    }

    /** The last flush failed: everything pending is failed, and the day. */
    method RecordLoadFailure() returns (signal: Signal)
      requires Books() && attempt.day.completedPages < |attempt.pages|
      modifies attempt, writer`pending, writer`size, writer`count
      ensures Salvageable() == true && (signal == Go ==> FailureRecorded() == true)
    {
      signal := Discard();
      if signal != Go { return; }
      signal := attempt.Op();
      if signal != Go { return; }
      signal := FailDay(1);
    }

    /** Hand over what is left. */
    method FlushRest() returns (recorded: bool)
      requires Books() && Level()
      modifies writer
      ensures Books() == true && writer.First() == |attempt.pages| == |writer.ledger.pages| && writer.ledger.pages == old(writer.ledger.pages)
      ensures old(writer.loads) == [] ==> !recorded && writer.loads == []
      ensures recorded ==> attempt.day.completedPages < |attempt.pages|
      ensures !recorded ==> writer.ledger.incomplete == 0
                            && forall n :: n in writer.receipts <==> attempt.day.completedPages <= n < |attempt.pages|
    {
      ghost var ledger := writer.ledger;
      writer.LimitsKept();
      var flushed := writer.Flush();
      TallyGrows(attempt.pages, attempt.day.completedPages, ledger, writer.ledger);
      recorded := flushed.WriteError?;
    }

    /** Flush what is left. */
    method LoadRest() returns (signal: Signal, recorded: bool)
      requires Books() && Level() && Crawled() && attempt.open == None
      modifies attempt, writer
      ensures old(Smooth()) ==> signal == Go && !recorded && Smooth()
      ensures Salvageable() == true
      ensures signal == Go && recorded ==> FailureRecorded() == true
      ensures signal == Go && !recorded ==> Books() == true && Level() == true && Crawled() == true && attempt.day.completedPages == |attempt.pages|
                                            && |attempt.pages| == |old(attempt.pages)|
    {
      recorded := FlushRest();
      if recorded {
        signal := RecordLoadFailure();
      } else {
        signal := Confirm(|attempt.pages|);
      }
    }

    /** Every page of the window is there, accepted in full, and the day says so. */
    ghost predicate Complete()
      reads this, attempt, writer
    {
      && Books() == true && Level() == true && Crawled() == true && attempt.day.completedPages == |attempt.pages| > 0
      && attempt.id.pageSize == pager.pageSize > 0
      && Search.WindowConsistent(pager.server, pager.keyed, pager.pageSize)
      && |attempt.pages| == Search.PageCount(Search.WindowOf(Search.Answer(pager.server, 0)), pager.pageSize)
      && |Search.ItemsOf(pager.server, |attempt.pages|)| == Search.WindowOf(Search.Answer(pager.server, 0))
    }

    lemma WholeWindow()
      requires WindowDone() && Crawled()
      ensures attempt.id.pageSize == pager.pageSize > 0 && Search.WindowConsistent(pager.server, pager.keyed, pager.pageSize) == true
      ensures |attempt.pages| == Search.PageCount(Search.WindowOf(Search.Answer(pager.server, 0)), pager.pageSize) > 0
      ensures |Search.ItemsOf(pager.server, |attempt.pages|)| == Search.WindowOf(Search.Answer(pager.server, 0))
    {
      Search.NormalEnd(pager.server, pager.keyed, pager.pageSize, pager.seen);
    }

    /** After the last page: flush, confirm, and compare the pages with those expected. */
    method Finish() returns (signal: Signal, recorded: bool)
      requires Books() && Level() && Crawled() && WindowDone() == true && attempt.open == None
      modifies attempt, writer
      ensures old(Smooth()) ==> signal == Go && !recorded && Smooth()
      ensures Salvageable() == true
      ensures signal == Go && recorded ==> FailureRecorded() == true
      ensures signal == Go && !recorded ==> Complete() == true
    {
      recorded := false;
      WholeWindow();
      signal := attempt.Op();
      if signal != Go { return; }
      signal, recorded := LoadRest();
      if signal != Go || recorded { return; }
      signal := ComparePages();
    }

    /** The pages done are those expected. */
    method ComparePages() returns (signal: Signal)
      requires Books() && Level() && Crawled() && attempt.day.completedPages == |attempt.pages| > 0
      requires attempt.id.pageSize == pager.pageSize > 0 && Search.WindowConsistent(pager.server, pager.keyed, pager.pageSize) == true
      requires |attempt.pages| == Search.PageCount(Search.WindowOf(Search.Answer(pager.server, 0)), pager.pageSize)
      requires |Search.ItemsOf(pager.server, |attempt.pages|)| == Search.WindowOf(Search.Answer(pager.server, 0))
      modifies attempt`faults
      ensures old(Smooth()) ==> signal == Go && Smooth()
      ensures Salvageable() == true && (signal == Go ==> Complete() == true)
    {
      signal := attempt.Op();
      if attempt.day.expectedPages != Some(attempt.day.completedPages) {
        signal := Error;
      }
    }

    /** The stored day is failed, with errors, and counts what became persistent. Every page is
        finished and accepted in full, or failed, but for one whose own write had raised. */
    ghost predicate LeftFailed(errors: nat, torn: Option<nat>)
      reads attempt, writer
    {
      && attempt.marker.Some? && attempt.marker.value.status == Failed && attempt.marker.value.errorCount == errors
      && attempt.marker.value.bronzeRecords == writer.persisted && attempt.marker.value.completedAt.Some?
      && attempt.marker.value.completedPages == attempt.day.completedPages
      && Settled(attempt.pages, attempt.day.completedPages, torn, attempt.id, attempt.now) == true
      && (torn.Some? && torn.value < |attempt.pages| ==> attempt.pages[torn.value].status != Failed)
    }

    /** The last write of a handler. */
    method LeaveFailed(errors: nat, ghost torn: Option<nat>)
      requires attempt.Safe() && Honest(attempt.pages, writer.ledger) == true && attempt.day.bronzeRecords == writer.persisted
      modifies attempt`faults, attempt`ticks, attempt`now, attempt`marker, attempt`marked
      ensures attempt.Safe() == true
      ensures old(attempt.faults) == [] && old(Parted(torn)) ==> LeftFailed(errors, torn) == true
    {
      ghost var earlier := attempt.now;
      var signal, sent := attempt.WriteFailedDay(attempt.day.(errorCount := errors));
      SettledLater(attempt.pages, attempt.day.completedPages, torn, attempt.id, earlier, attempt.now);
    }

    /** An error nobody foresaw: the day is failed as far as the store allows. */
    method Crash()
      requires Salvageable()
      modifies attempt, writer`pending, writer`size, writer`count
      ensures attempt.Safe() && Honest(attempt.pages, writer.ledger) == true
      ensures old(attempt.faults) == [] ==>
                LeftFailed(if old(attempt.day).errorCount > 1 then old(attempt.day).errorCount else 1, old(attempt.torn))
    {
      attempt.SetCounts(attempt.day.errorCount, writer.persisted);
      var signal := Discard();
      if signal != Interrupted {
        LeaveFailed(if attempt.day.errorCount > 1 then attempt.day.errorCount else 1, attempt.torn);
      }
    }

    /** An interruption: the open page is failed too. */
    method CutOff()
      requires Salvageable()
      modifies attempt, writer`pending, writer`size, writer`count
      ensures attempt.Safe() && Honest(attempt.pages, writer.ledger) == true
      ensures old(attempt.faults) == [] ==> LeftFailed(old(attempt.day).errorCount + 1, old(attempt.TornApart()))
      ensures old(attempt.faults) == [] && attempt.open.Some? ==>
                attempt.open.value.number < |attempt.pages| && attempt.pages[attempt.open.value.number].status == Failed
    {
      attempt.SetCounts(attempt.day.errorCount, writer.persisted);
      var signal := Discard();
      if signal == Interrupted { return; }
      signal := attempt.Op();
      if signal == Interrupted { return; }
      signal := FailOpen();
      if signal == Interrupted { return; }
      LeaveFailed(attempt.day.errorCount + 1, attempt.TornApart());
    }

    /** The open page is failed, whatever became of its own writes. */
    method FailOpen() returns (signal: Signal)
      requires attempt.Safe() == true && attempt.OpenOk() && Honest(attempt.pages, writer.ledger) == true
      modifies attempt`faults, attempt`ticks, attempt`now, attempt`pages
      ensures attempt.Safe() == true && Honest(attempt.pages, writer.ledger) == true
      ensures old(attempt.faults) == [] ==> signal == Go && attempt.faults == []
      ensures signal == Go && old(Parted(attempt.torn)) ==> Parted(attempt.TornApart())
      ensures signal == Go && attempt.open.Some? ==>
                attempt.open.value.number < |attempt.pages| && attempt.pages[attempt.open.value.number].status == Failed
    {
      ghost var before, earlier := attempt.pages, attempt.now;
      signal := attempt.FailOpen();
      HonestNone(before, attempt.pages, writer.ledger);
      if signal == Go && old(Parted(attempt.torn)) {
        SettledLater(before, attempt.day.completedPages, attempt.torn, attempt.id, earlier, attempt.now);
        if attempt.open.Some? {
          ghost var p :| PageFailed(p, attempt.id, attempt.open.value.number, attempt.now) && attempt.pages == Put(before, p);
          SettledPut(before, attempt.day.completedPages, attempt.torn, attempt.id, attempt.now, attempt.now, p);
        }
      }
    }

    /** Every page but the torn one is finished or failed. */
    ghost predicate Parted(torn: Option<nat>)
      reads attempt`pages, attempt`day, attempt`now
    {
      && Settled(attempt.pages, attempt.day.completedPages, torn, attempt.id, attempt.now) == true
      && (torn.Some? && torn.value < |attempt.pages| ==> attempt.pages[torn.value].status != Failed)
    }

    /** A committed day is the whole window, each page accepted in full, and the manifests say so. */
    ghost predicate Vouched(day: DayManifest)
      reads this, attempt, writer
    {
      && WellFormed(attempt.id, day, attempt.pages) && pager.pageSize == attempt.id.pageSize > 0
      && writer.Valid() && Fed() == true && |writer.ledger.pages| == |attempt.pages| && Tally(attempt.pages, |attempt.pages|, writer.ledger)
      && Search.WindowConsistent(pager.server, pager.keyed, pager.pageSize)
      && var total := Search.WindowOf(Search.Answer(pager.server, 0));
      && day.searchItems == total && |attempt.pages| == Search.PageCount(total, pager.pageSize)
    }

    /** Whatever commit is in the store is vouched for. */
    ghost predicate CommitVouched()
      reads this, attempt, writer
    {
      attempt.marker.Some? && attempt.marker.value.status == Success ==> Vouched(attempt.marker.value)
    }

    lemma CompleteVouched(completed: DayManifest)
      requires Complete()
      requires exists t :: t >= attempt.now && completed == attempt.day.(status := Success, completedAt := Some(t))
      ensures Vouched(completed)
    {
      StatedTally(attempt.pages, writer.ledger, writer.confirmed);
      StatedAddUp(attempt.pages, writer.ledger, writer.confirmed);
      FinishedIsWellFormed(attempt.id, attempt.day, attempt.pages, attempt.now, completed);
    }

    /** `commit_day_manifest`, after the handlers: a failed write is read back. */
    method Commit() returns (outcome: DailyOutcome)
      requires Complete()
      modifies attempt`faults, attempt`ticks, attempt`now, attempt`marker, attempt`marked
      ensures old(attempt.faults) == [] ==> outcome.Succeeded?
      ensures outcome.Succeeded? || outcome.Uncertain?
      ensures outcome.Succeeded? ==> attempt.marker.Some? && attempt.marker.value.status == Success
      ensures attempt.marked == old(attempt.marked) + [Success] && CommitVouched()
    {
      var t := attempt.Clock();
      var completed := attempt.day.(status := Success, completedAt := Some(t));
      CompleteVouched(completed);
      var signal := attempt.WriteDayManifest(completed);
      if signal == Go { return Succeeded; }
      if signal == Interrupted { return Uncertain; }
      signal := attempt.Op();
      outcome := if signal == Go && attempt.marker == Some(completed) then Succeeded else Uncertain;
    }

    /** Turn after turn, as long as there are pages and nothing fails. */
    method Crawl() returns (signal: Signal, turn: Turn)
      requires Steady()
      modifies attempt, writer, pager, `extractions
      ensures old(Smooth()) ==> signal == Go && turn.Exhausted? && Smooth()
      ensures Salvageable() == true && (signal == Go ==> !turn.Continue?)
      ensures signal == Go && turn.Exhausted? ==> Books() == true && Level() == true && Crawled() == true && WindowDone() == true && attempt.open == None
      ensures signal == Go && turn.Recorded? ==> FailureRecorded() == true
    {
      signal, turn := Go, Continue;
      while signal == Go && turn == Continue
        invariant Salvageable() == true
        invariant old(Smooth()) ==> signal == Go && !turn.Recorded? && Smooth()
        invariant signal == Go && turn.Continue? ==> Steady() == true
        invariant signal == Go && turn.Exhausted? ==> Books() == true && Level() == true && Crawled() == true && WindowDone() == true && attempt.open == None
        invariant signal == Go && turn.Recorded? ==> FailureRecorded() == true
        decreases signal == Go && turn.Continue?, Search.Budget(Search.Answer(pager.server, 0), attempt.id.pageSize) - pager.fetches
      {
        signal, turn := Turn();
      }
    }

    /** The body of the `try` block. */
    method Work() returns (signal: Signal, recorded: bool)
      requires Steady()
      modifies attempt, writer, pager, `extractions
      ensures old(Smooth()) ==> signal == Go && !recorded && attempt.faults == []
      ensures Salvageable() == true
      ensures signal == Go && recorded ==> FailureRecorded() == true
      ensures signal == Go && !recorded ==> Complete() == true
    {
      var turn;
      signal, turn := Crawl();
      recorded := turn.Recorded?;
      if signal == Go && turn == Exhausted {
        signal, recorded := Finish();
      }
    }

    /** The whole attempt. Only a complete day is ever committed, and the commit is the
        last marker sent. */
    method Run() returns (outcome: DailyOutcome)
      requires attempt.pages == [] && Salvageable() && pager.pageSize == attempt.id.pageSize
      requires attempt.id.pageSize > 0 ==> Steady()
      modifies attempt, writer, pager, `extractions
      ensures old(Smooth()) ==> outcome.Succeeded?
      ensures CommitVouched() && Honest(attempt.pages, writer.ledger) == true
      ensures forall i :: 0 <= i < |attempt.marked| - 1 ==> attempt.marked[i] != Success
      ensures outcome.Succeeded? ==> attempt.marker.Some? && attempt.marker.value.status == Success
      ensures outcome.RecordedFailure? ==> FailureRecorded() == true
      ensures !outcome.Succeeded? && !outcome.Uncertain? ==> Uncommitted(attempt.marked, attempt.marker)
      ensures outcome.Refused? <==> attempt.id.pageSize == 0
    {
      if attempt.id.pageSize == 0 {
        return Refused;
      }
      var signal := attempt.WriteDayManifest(attempt.day);
      if signal != Go {
        return if signal == Error then Crashed else CutShort;
      }
      var recorded;
      signal, recorded := Work();
      match signal
      case Go =>
        if recorded {
          return RecordedFailure;
        }
        outcome := Commit();
      case Error =>
        Crash();
        return Crashed;
      case Interrupted =>
        CutOff();
        return CutShort;
    }
  }

  /** All pages done: each states what the writer confirmed of it. */
  lemma StatedTally(pages: seq<PageManifest>, l: Bronze.Ledger, confirmed: map<nat, nat>)
    requires Tally(pages, |pages|, l) && l.Confirms(confirmed)
    ensures AllStated(pages, confirmed)
  {
    forall i | 0 <= i < |pages| ensures pages[i].bronzeRecords == CountOf(confirmed, i) {
      assert TallyAt(pages, l, i);
      l.WholeConfirmed(i, confirmed);
    }
  }
}
