/** `BufferedBronzeWriter`: pages are buffered across tables and loaded in batches;
    a receipt is given only for a page whose tables were all accepted. */
module BronzeWriter {
  import opened BronzeBatches
  import opened Collections

  /** What the inner writer does with one call: accept some number of rows, or raise. */
  datatype Load = Accepted(count: nat) | Raised

  /** The outcome of a call: both carry how many records it made persistent. */
  datatype Outcome = Returned(persisted: nat) | WriteError(persisted: nat)

  datatype Pending = Pending(number: nat, tables: Page)

  /** A batch the limits allow: one page of any size, or several within both limits. */
  predicate WithinLimits(pages: seq<Page>, first: nat, maxBytes: int, maxRecords: int)
    requires first <= |pages|
  {
    |pages| - first <= 1 || (BatchBytes(pages, first, |pages|) <= maxBytes && BatchCount(pages, first, |pages|) <= maxRecords)
  }

  /** What happened so far: the numbered pages, the inner calls made, the tables handed
      over (`sent`) and accepted in full (`delivered`), and the records of calls that
      accepted another number than they were given. */
  datatype Ledger = Ledger(pages: seq<Page>, calls: seq<TableRows>, sent: set<Mark>, delivered: set<Mark>,
                           incomplete: nat)
  {
    /** Per table, the inner writer was given whole pages, each once, in page order. */
    ghost predicate InOrder() {
      forall t :: Sent(calls, t) == Kept(pages, t, sent, |pages|)
    }

    /** Every page is confirmed for the rows of its accepted tables. */
    ghost predicate Confirms(confirmed: map<nat, nat>) {
      && (forall n :: 0 <= n < |pages| ==> CountOf(confirmed, n) == CountIn(pages[n], n, delivered))
      && (forall n :: n in confirmed ==> n < |pages|)
    }

    ghost predicate Books(confirmed: map<nat, nat>, persisted: nat) {
      && InOrder()
      && Confirms(confirmed)
      && persisted == TotalIn(pages, delivered, |pages|) + incomplete
      && delivered <= sent
      && (forall m :: m in sent ==> m.page < |pages|)
    }

    /** Page `n` was accepted in full. */
    ghost predicate Whole(n: nat)
      requires n < |pages|
    {
      forall t :: Listed(pages[n], t) ==> Mark(n, t) in delivered
    }

    /** Receipts are for pages accepted in full, and state their row count. */
    ghost predicate Receipted(receipts: map<nat, nat>) {
      forall n :: n in receipts ==> n < |pages| && Whole(n) && receipts[n] == RowCount(pages[n])
    }

    /** These pages were accepted in full. */
    ghost predicate AllWhole(numbers: set<nat>) {
      forall n :: n in numbers ==> n < |pages| && Whole(n)
    }

    /** Nothing of the pages from `first` on was handed over. */
    ghost predicate Unsent(first: int) {
      forall m :: m in sent ==> m.page < first
    }

    /** Nothing numbered or accepted before is undone. */
    ghost predicate Extends(before: Ledger) {
      before.pages <= pages && before.delivered <= delivered
    }

    /** Of the pages below `first` nothing more was handed over. */
    ghost predicate Spares(before: Ledger, first: int) {
      forall m :: m in sent && m.page < first ==> m in before.sent
    }

    function Numbered(page: Page): Ledger {
      this.(pages := pages + [page])
    }

    function Handed(first: nat, entry: TableRows): Ledger {
      this.(calls := calls + [entry], sent := Marked(sent, first, |pages|, entry.table))
    }

    function Delivered(first: nat, table: string): Ledger {
      this.(delivered := Marked(delivered, first, |pages|, table))
    }

    function Short(n: nat): Ledger {
      this.(incomplete := incomplete + n)
    }

    /** A page nothing was done for yet changes none of the books. */
    lemma NumberedKeeps(page: Page, confirmed: map<nat, nat>, persisted: nat)
      requires Books(confirmed, persisted)
      ensures Numbered(page).Books(confirmed, persisted)
    {
      var more := pages + [page];
      assert more[..|pages|] == pages;
      forall t ensures Sent(calls, t) == Kept(more, t, sent, |more|) {
        KeptMorePages(pages, more, t, sent, |pages|);
      }
      CountInNone(page, |pages|, delivered);
      TotalInMorePages(pages, more, delivered, |pages|);
    }

    lemma HandedKeeps(first: nat, entry: TableRows, confirmed: map<nat, nat>, persisted: nat)
      requires Books(confirmed, persisted) && first <= |pages| && entry.rows == BatchRows(pages, first, |pages|, entry.table)
      requires forall k: nat :: first <= k < |pages| ==> Mark(k, entry.table) !in sent
      ensures Handed(first, entry).Books(confirmed, persisted)
    {
      CallKeepsOrder(pages, calls, sent, first, entry);
    }

    lemma DeliveredKeeps(first: nat, table: string, confirmed: map<nat, nat>, persisted: nat, confirmed': map<nat, nat>)
      requires Books(confirmed, persisted) && first <= |pages|
      requires forall k: nat :: first <= k < |pages| ==> Mark(k, table) in sent && Mark(k, table) !in delivered
      requires Delivered(first, table).Confirms(confirmed')
      ensures Delivered(first, table).Books(confirmed', persisted + |BatchRows(pages, first, |pages|, table)|)
    {
      TotalInAdds(pages, delivered, first, |pages|, table, |pages|);
    }

    lemma DeliveredReceipts(first: nat, table: string, receipts: map<nat, nat>, taken: set<nat>)
      requires Receipted(receipts) && AllWhole(taken)
      ensures Delivered(first, table).Receipted(receipts) && Delivered(first, table).AllWhole(taken)
    {
    }

    /** A page accepted in full is confirmed for all its rows. */
    lemma WholeConfirmed(n: nat, confirmed: map<nat, nat>)
      requires Confirms(confirmed) && n < |pages| && Whole(n)
      ensures CountOf(confirmed, n) == RowCount(pages[n])
    {
      CountInAll(pages[n], n, delivered);
    }

    /** A batch whose tables were all accepted holds whole pages. */
    lemma WholePages(pending: seq<Pending>, grouped: seq<TableRows>)
      requires Buffered(pending, pages) && forall t :: Listed(grouped, t) <==> ListedIn(Queued(pending), t)
      requires Loaded(|pages| - |pending|, grouped)
      ensures forall n :: |pages| - |pending| <= n < |pages| ==> Whole(n)
    {
      var first := |pages| - |pending|;
      forall n, t | first <= n < |pages| && Listed(pages[n], t) ensures Mark(n, t) in delivered {
        assert pending[n - first].tables == pages[n];
        assert Listed(Queued(pending)[n - first], t);
        assert Listed(grouped, t);
      }
    }

    /** All of these tables were accepted for the pages from `first` on. */
    ghost predicate Loaded(first: nat, grouped: seq<TableRows>) {
      forall g, k: nat :: 0 <= g < |grouped| && first <= k < |pages| ==> Mark(k, grouped[g].table) in delivered
    }

    /** Of the pages from `first` on, nothing but these tables was handed over. */
    ghost predicate OnlySent(first: nat, grouped: seq<TableRows>) {
      forall m :: m in sent && m.page >= first ==> Listed(grouped, m.table)
    }

    lemma LoadedNext(first: nat, grouped: seq<TableRows>, g: nat)
      requires g < |grouped| && Loaded(first, grouped[..g]) && OnlySent(first, grouped[..g])
      ensures var l := Handed(first, grouped[g]).Delivered(first, grouped[g].table);
              l.Loaded(first, grouped[..g + 1]) && l.OnlySent(first, grouped[..g + 1])
    {
    }
  }

  /** The pending pages are the last ones numbered. */
  ghost predicate Buffered(pending: seq<Pending>, pages: seq<Page>) {
    && |pending| <= |pages|
    && (forall i :: 0 <= i < |pending| ==> pending[i] == Pending(|pages| - |pending| + i, pages[|pages| - |pending| + i]))
  }

  ghost predicate Measured(pages: seq<Page>, first: nat, size: nat, count: nat)
    requires first <= |pages|
  {
    size == BatchBytes(pages, first, |pages|) && count == BatchCount(pages, first, |pages|)
  }

  /** Each page has at most one receipt, and none while it is pending. */
  ghost predicate Settled(receipts: map<nat, nat>, taken: set<nat>, first: int) {
    && (forall n :: n in receipts ==> n < first && n !in taken)
    && (forall n :: n in taken ==> n < first)
  }

  /** The receipts added are for the pages from `first` up to `last`. */
  ghost predicate GivenTo(before: map<nat, nat>, after: map<nat, nat>, first: int, last: int) {
    forall n :: n in after <==> n in before || first <= n < last
  }

  /** Confirming the rows of one table for each pending page. */
  lemma ConfirmedNext(l: Ledger, first: nat, table: string, before: map<nat, nat>, after: map<nat, nat>)
    requires first <= |l.pages| && l.Confirms(before)
    requires forall k: nat :: first <= k < |l.pages| ==> Mark(k, table) !in l.delivered
    requires forall n :: n in after ==> n < |l.pages|
    requires forall n :: 0 <= n < first ==> CountOf(after, n) == CountOf(before, n)
    requires forall n :: first <= n < |l.pages| ==>
               CountOf(after, n) == CountOf(before, n) + |RowsOf(l.pages[n], table)|
    ensures l.Delivered(first, table).Confirms(after)
  {
    var delivered := Marked(l.delivered, first, |l.pages|, table);
    forall n | 0 <= n < |l.pages| ensures CountOf(after, n) == CountIn(l.pages[n], n, delivered) {
      if n < first {
        CountInFrame(l.pages[n], n, l.delivered, delivered);
      } else {
        CountInAdds(l.pages[n], n, l.delivered, delivered, table);
      }
    }
  }

  /** Add the rows of an accepted table to what the pending pages have confirmed. */
  method Confirm(pending: seq<Pending>, confirmed: map<nat, nat>, table: string, ghost l: Ledger)
    returns (confirmed': map<nat, nat>)
    requires Buffered(pending, l.pages) && l.Confirms(confirmed)
    requires forall k: nat :: |l.pages| - |pending| <= k < |l.pages| ==> Mark(k, table) !in l.delivered
    ensures l.Delivered(|l.pages| - |pending|, table).Confirms(confirmed')
  {
    ghost var first := |l.pages| - |pending|;
    confirmed' := confirmed;
    for i := 0 to |pending|
      invariant forall n :: n in confirmed' ==> n < |l.pages|
      invariant forall n :: 0 <= n < first || first + i <= n < |l.pages| ==>
                  CountOf(confirmed', n) == CountOf(confirmed, n)
      invariant forall n :: first <= n < first + i ==>
                  CountOf(confirmed', n) == CountOf(confirmed, n) + |RowsOf(l.pages[n], table)|
    {
      var Pending(number, page) := pending[i];
      confirmed' := confirmed'[number := CountOf(confirmed', number) + |RowsOf(page, table)|];
    }
    ConfirmedNext(l, first, table, confirmed, confirmed');
  }

  /** Receipts for a batch whose tables were all accepted. */
  method Acknowledge(pending: seq<Pending>, confirmed: map<nat, nat>, receipts: map<nat, nat>, ghost l: Ledger)
    returns (receipts': map<nat, nat>)
    requires Buffered(pending, l.pages) && l.Confirms(confirmed) && l.Receipted(receipts)
    requires forall n :: |l.pages| - |pending| <= n < |l.pages| ==> l.Whole(n)
    ensures l.Receipted(receipts')
    ensures forall n :: n in receipts' <==> n in receipts || |l.pages| - |pending| <= n < |l.pages|
  {
    ghost var first := |l.pages| - |pending|;
    receipts' := receipts;
    for i := 0 to |pending|
      invariant l.Receipted(receipts')
      invariant forall n :: n in receipts' <==> n in receipts || first <= n < first + i
    {
      var Pending(number, page) := pending[i];
      assert l.Whole(first + i);
      WholeCount(page, number, l.delivered);
      receipts' := receipts'[number := CountOf(confirmed, number)];
    }
  }

  lemma WholeCount(page: Page, n: nat, delivered: set<Mark>)
    requires forall t :: Listed(page, t) ==> Mark(n, t) in delivered
    ensures CountIn(page, n, delivered) == RowCount(page)
  {
  }

  function Queued(pending: seq<Pending>): (queued: seq<Page>)
    ensures |queued| == |pending| && forall i :: 0 <= i < |pending| ==> queued[i] == pending[i].tables
  {
    seq(|pending|, i requires 0 <= i < |pending| => pending[i].tables)
  }

  lemma {:induction false} QueuedBatch(pending: seq<Pending>, pages: seq<Page>, n: nat, table: string)
    requires Buffered(pending, pages) && n <= |pending|
    ensures var first := |pages| - |pending|;
            BatchRows(Queued(pending), 0, n, table) == BatchRows(pages, first, first + n, table)
  {
    if n > 0 {
      QueuedBatch(pending, pages, n - 1, table);
      assert pending[n - 1].tables == Queued(pending)[n - 1];
    }
  }

  /** Numbering one more page puts it last in the batch. */
  lemma NextPending(pending: seq<Pending>, l: Ledger, page: Page, receipts: map<nat, nat>, taken: set<nat>)
    requires Buffered(pending, l.pages) && l.Receipted(receipts) && l.AllWhole(taken)
    ensures Buffered(pending + [Pending(|l.pages|, page)], l.Numbered(page).pages)
    ensures l.Numbered(page).Receipted(receipts) && l.Numbered(page).AllWhole(taken)
  {
    forall n | n in receipts || n in taken ensures l.Numbered(page).Whole(n) { assert l.Whole(n); }
  }

  /** And adds its size and rows to it. */
  lemma NextMeasured(pages: seq<Page>, page: Page, first: nat)
    requires first <= |pages|
    ensures BatchBytes(pages + [page], first, |pages| + 1) == BatchBytes(pages, first, |pages|) + PageBytes(page)
    ensures BatchCount(pages + [page], first, |pages| + 1) == BatchCount(pages, first, |pages|) + RowCount(page)
  {
    BatchFrame(pages, pages + [page], first, |pages|);
  }

  class BufferedWriter {
    const maxBytes: int
    const maxRecords: int

    /** What the inner writer will do, call by call; afterwards it accepts what it is given. */
    var loads: seq<Load>

    var pending: seq<Pending>
    var size: nat
    var count: nat
    var sequence: nat
    var persisted: nat
    var receipts: map<nat, nat>
    var confirmed: map<nat, nat>

    ghost var ledger: Ledger
    ghost var taken: set<nat>

    /** The number of the first pending page. */
    ghost function First(): int
      reads this
    {
      |ledger.pages| - |pending|
    }

    /** The rows of the pending pages for one table. */
    ghost function BatchOf(table: string): seq<BronzeRecord>
      reads this
      requires |pending| <= |ledger.pages|
    {
      BatchRows(ledger.pages, First(), |ledger.pages|, table)
    }

    ghost predicate Consistent()
      reads this
    {
      && sequence == |ledger.pages| && Buffered(pending, ledger.pages)
      && ledger.Books(confirmed, persisted)
      && ledger.Receipted(receipts) && ledger.AllWhole(taken)
      && Settled(receipts, taken, First())
    }

    /** Between calls. */
    ghost predicate Valid()
      reads this
    {
      && Consistent() && ledger.Unsent(First()) && Measured(ledger.pages, First(), size, count)
      && (pending != [] ==> size < maxBytes && count < maxRecords)
    }

    constructor (maxBytes: int, maxRecords: int, loads: seq<Load>)
      ensures Valid() && ledger == Ledger([], [], {}, {}, 0) && persisted == 0
      ensures receipts == map[] && taken == {} && pending == []
      ensures this.maxBytes == maxBytes && this.maxRecords == maxRecords && this.loads == loads
    {
      this.maxBytes, this.maxRecords, this.loads := maxBytes, maxRecords, loads;
      pending, size, count, sequence, persisted := [], 0, 0, 0, 0;
      receipts, confirmed := map[], map[];
      ledger, taken := Ledger([], [], {}, {}, 0), {};
    }

    /** One call of the inner writer with `given` rows. */
    method Load(given: nat) returns (result: Load)
      modifies this`loads
      ensures old(loads) == [] ==> result == Accepted(given) && loads == []
    {
      if loads == [] {
        return Accepted(given);
      }
      result := loads[0];
      loads := loads[1..];
    }

    /** The rows of one table are about to be handed over. */
    ghost method HandOver(entry: TableRows)
      requires Consistent() && entry.rows == BatchOf(entry.table)
      requires forall k: nat :: First() <= k < |ledger.pages| ==> Mark(k, entry.table) !in ledger.sent
      modifies `ledger
      ensures Consistent() && ledger == old(ledger).Handed(First(), entry)
    {
      ledger.HandedKeeps(First(), entry, confirmed, persisted);
      ledger := ledger.Handed(First(), entry);
    }

    /** A call that accepted another number of rows than it was given. */
    method CountShort(accepted: nat)
      requires Consistent()
      modifies `persisted, `ledger
      ensures Consistent() && ledger == old(ledger).Short(accepted) && persisted == old(persisted) + accepted
    {
      persisted := persisted + accepted;
      ledger := ledger.Short(accepted);
    }

    /** A call that accepted the rows of a table in full. */
    method CountFull(entry: TableRows)
      requires Consistent() && entry.rows == BatchOf(entry.table)
      requires forall k: nat :: First() <= k < |ledger.pages| ==>
                 Mark(k, entry.table) in ledger.sent && Mark(k, entry.table) !in ledger.delivered
      modifies `persisted, `confirmed, `ledger
      ensures Consistent() && ledger == old(ledger).Delivered(First(), entry.table)
      ensures persisted == old(persisted) + |entry.rows|
    {
      var next := Confirm(pending, confirmed, entry.table, ledger);
      ledger.DeliveredKeeps(First(), entry.table, confirmed, persisted, next);
      ledger.DeliveredReceipts(First(), entry.table, receipts, taken);
      confirmed, persisted, ledger := next, persisted + |entry.rows|, ledger.Delivered(First(), entry.table);
    }

    /** One turn of `flush`: hand the rows of one table over. */
    method LoadTable(entry: TableRows) returns (ok: bool)
      requires Consistent() && entry.rows == BatchOf(entry.table)
      requires forall k: nat :: First() <= k < |ledger.pages| ==> Mark(k, entry.table) !in ledger.sent
      modifies `loads, `persisted, `confirmed, `ledger
      ensures Consistent() && persisted >= old(persisted) && ledger.pages == old(ledger.pages)
      ensures ledger.Extends(old(ledger)) && ledger.Spares(old(ledger), old(First()))
      ensures old(loads) == [] ==> ok && loads == []
      ensures ok ==> ledger == old(ledger).Handed(First(), entry).Delivered(First(), entry.table)
    {
      HandOver(entry);
      var result := Load(|entry.rows|);
      if result.Raised? {
        return false;
      }
      if result.count != |entry.rows| {
        CountShort(result.count);
        return false;
      }
      CountFull(entry);
      return true;
    }

    method Clear()
      requires sequence == |ledger.pages| && ledger.Books(confirmed, persisted)
      requires ledger.Receipted(receipts) && ledger.AllWhole(taken)
      requires Settled(receipts, taken, sequence)
      modifies `pending, `size, `count
      ensures Valid() && pending == []
    {
      pending, size, count := [], 0, 0;
    }

    /** Load the pending pages, table by table. */
    method Flush() returns (outcome: Outcome)
      requires Consistent() && ledger.Unsent(First())
      requires WithinLimits(ledger.pages, First(), maxBytes, maxRecords)
      modifies `loads, `persisted, `confirmed, `ledger, `receipts, `pending, `size, `count
      ensures Valid() && pending == [] && ledger.pages == old(ledger.pages) && ledger.Extends(old(ledger))
      ensures ledger.Spares(old(ledger), old(First()))
      ensures old(loads) == [] ==> outcome.Returned? && loads == []
      ensures persisted == old(persisted) + outcome.persisted
      ensures GivenTo(old(receipts), receipts, old(First()), if outcome.Returned? then First() else old(First()))
      ensures outcome.Returned? ==> ledger.incomplete == old(ledger.incomplete)
      ensures outcome.WriteError? ==> old(pending) != []
    {
      var before := persisted;
      var ok := LoadBatch();
      if ok {
        receipts := Acknowledge(pending, confirmed, receipts, ledger);
      }
      Clear();
      outcome := if ok then Returned(persisted - before) else WriteError(persisted - before);
    }

    /** Hand the pending pages over, grouped by table. */
    method LoadBatch() returns (ok: bool)
      requires Consistent() && ledger.Unsent(First())
      modifies `loads, `persisted, `confirmed, `ledger
      ensures Consistent() && persisted >= old(persisted)
      ensures ledger.pages == old(ledger.pages) && ledger.Extends(old(ledger)) && ledger.Spares(old(ledger), old(First()))
      ensures old(loads) == [] ==> ok && loads == []
      ensures ok ==> (forall n :: First() <= n < |ledger.pages| ==> ledger.Whole(n)) && ledger.incomplete == old(ledger.incomplete)
      ensures pending == [] ==> ok
    {
      var grouped := Group(Queued(pending));
      forall g | 0 <= g < |grouped| ensures grouped[g].rows == BatchOf(grouped[g].table) {
        QueuedBatch(pending, ledger.pages, |pending|, grouped[g].table);
      }
      ok := LoadTables(grouped);
      if ok { ledger.WholePages(pending, grouped); }
    }

    /** Hand the grouped tables over one after the other, up to the first that fails. */
    method LoadTables(grouped: seq<TableRows>) returns (ok: bool)
      requires Consistent() && ledger.Unsent(First()) && DistinctTables(grouped)
      requires forall g :: 0 <= g < |grouped| ==> grouped[g].rows == BatchOf(grouped[g].table)
      modifies `loads, `persisted, `confirmed, `ledger
      ensures Consistent() && persisted >= old(persisted) && ledger.pages == old(ledger.pages)
      ensures ledger.Extends(old(ledger)) && ledger.Spares(old(ledger), old(First()))
      ensures old(loads) == [] ==> ok && loads == []
      ensures ok ==> ledger.Loaded(First(), grouped) && ledger.incomplete == old(ledger.incomplete)
      ensures grouped == [] ==> ok
    {
      ghost var pages, first := ledger.pages, First();
      for g := 0 to |grouped|
        invariant Consistent() && persisted >= old(persisted)
        invariant ledger.pages == pages && ledger.incomplete == old(ledger.incomplete) && ledger.Extends(old(ledger))
        invariant ledger.Spares(old(ledger), first)
        invariant old(loads) == [] ==> loads == []
        invariant ledger.OnlySent(first, grouped[..g]) && ledger.Loaded(first, grouped[..g])
      {
        ledger.LoadedNext(first, grouped, g);
        NotListedBefore(grouped, g);
        ok := LoadTable(grouped[g]);
        if !ok { return; }
      }
      assert grouped[..|grouped|] == grouped;
      ok := true;
    }

    static lemma NotListedBefore(grouped: seq<TableRows>, g: nat)
      requires DistinctTables(grouped) && g < |grouped|
      ensures !Listed(grouped[..g], grouped[g].table)
    {
    }

    /** Number a page and put it last in the buffer. */
    method Append(tables: Page, pageSize: nat, pageCount: nat)
      requires Valid() && pageSize == PageBytes(tables) && pageCount == RowCount(tables)
      modifies `sequence, `pending, `size, `count, `ledger
      ensures ledger == old(ledger).Numbered(tables) && |pending| == |old(pending)| + 1
      ensures Consistent() && ledger.Unsent(First()) && Measured(ledger.pages, First(), size, count)
      ensures size == old(size) + pageSize && count == old(count) + pageCount
    {
      ledger.NumberedKeeps(tables, confirmed, persisted);
      NextPending(pending, ledger, tables, receipts, taken);
      NextMeasured(ledger.pages, tables, First());
      ledger, pending, sequence := ledger.Numbered(tables), pending + [Pending(sequence, tables)], sequence + 1;
      size, count := size + pageSize, count + pageCount;
    }

    /** The receipts it adds are for the pages from the first pending one up to `upTo`. */
    method WritePage(tables: Page) returns (outcome: Outcome, ghost upTo: nat)
      requires Valid()
      modifies `loads, `persisted, `confirmed, `ledger, `receipts, `pending, `size, `count, `sequence
      ensures Valid() && ledger.Extends(old(ledger)) && ledger.Spares(old(ledger), old(First()))
      ensures old(loads) == [] ==> outcome.Returned? && loads == []
      ensures persisted == old(persisted) + outcome.persisted
      ensures ledger.pages == old(ledger.pages) + [tables] || (outcome.WriteError? && ledger.pages == old(ledger.pages))
      ensures GivenTo(old(receipts), receipts, old(First()), upTo)
      ensures old(First()) <= upTo <= First()
      ensures outcome.Returned? ==> |ledger.pages| == |old(ledger.pages)| + 1 && ledger.incomplete == old(ledger.incomplete)
                                    && upTo == First()
      ensures outcome.WriteError? ==> pending == [] && upTo <= |old(ledger.pages)|
    {
      var before := persisted;
      var pageSize, pageCount := PageBytes(tables), RowCount(tables);
      outcome := MakeRoom(pageSize, pageCount);
      upTo := First();
      if outcome.WriteError? {
        return WriteError(persisted - before), old(First());
      }
      Append(tables, pageSize, pageCount);
      outcome := FlushFull();
      if outcome.WriteError? {
        return WriteError(persisted - before), upTo;
      }
      return Returned(persisted - before), First();
    }

    /** Flush a buffer the next page does not fit into. */
    method MakeRoom(pageSize: nat, pageCount: nat) returns (outcome: Outcome)
      requires Valid()
      modifies `loads, `persisted, `confirmed, `ledger, `receipts, `pending, `size, `count
      ensures Valid() && ledger.pages == old(ledger.pages) && First() >= old(First()) && ledger.Extends(old(ledger))
      ensures ledger.Spares(old(ledger), old(First()))
      ensures pending == [] || (size + pageSize <= maxBytes && count + pageCount <= maxRecords)
      ensures old(loads) == [] ==> outcome.Returned? && loads == []
      ensures persisted == old(persisted) + outcome.persisted
      ensures GivenTo(old(receipts), receipts, old(First()), if outcome.Returned? then First() else old(First()))
      ensures outcome.Returned? ==> ledger.incomplete == old(ledger.incomplete)
      ensures outcome.WriteError? ==> pending == []
    {
      if pending != [] && (size + pageSize > maxBytes || count + pageCount > maxRecords) {
        LimitsKept();
        outcome := Flush();
      } else {
        outcome := Returned(0);
      }
    }

    /** Flush a buffer that reached a limit. */
    method FlushFull() returns (outcome: Outcome)
      requires Consistent() && ledger.Unsent(First()) && Measured(ledger.pages, First(), size, count)
      requires WithinLimits(ledger.pages, First(), maxBytes, maxRecords)
      modifies `loads, `persisted, `confirmed, `ledger, `receipts, `pending, `size, `count
      ensures Valid() && ledger.pages == old(ledger.pages) && First() >= old(First()) && ledger.Extends(old(ledger))
      ensures ledger.Spares(old(ledger), old(First()))
      ensures old(loads) == [] ==> outcome.Returned? && loads == []
      ensures persisted == old(persisted) + outcome.persisted
      ensures GivenTo(old(receipts), receipts, old(First()), if outcome.Returned? then First() else old(First()))
      ensures outcome.Returned? ==> ledger.incomplete == old(ledger.incomplete)
      ensures outcome.WriteError? ==> pending == []
    {
      if size >= maxBytes || count >= maxRecords {
        outcome := Flush();
      } else {
        outcome := Returned(0);
      }
    }

    lemma LimitsKept()
      requires Valid()
      ensures WithinLimits(ledger.pages, First(), maxBytes, maxRecords)
    {
    }

    method TakeReceipts() returns (given: map<nat, nat>)
      requires Valid()
      modifies `receipts, `taken
      ensures Valid() && receipts == map[] && given == old(receipts)
      ensures ledger.Receipted(given) && given.Keys !! old(taken) && taken == old(taken) + given.Keys
    {
      given := receipts;
      receipts := map[];
      taken := taken + given.Keys;
    }

    /** Drop what is pending: nothing of those pages was handed over, and since no page below
        the first pending one ever is, nothing of them will be. */
    method Abort()
      requires Valid()
      modifies `pending, `size, `count
      ensures Valid() && pending == [] && First() == |ledger.pages|
      ensures ledger == old(ledger) && ledger.Unsent(old(First()))
      ensures loads == old(loads) && persisted == old(persisted) && receipts == old(receipts) && taken == old(taken)
    {
      Clear();
    }
  }
}
