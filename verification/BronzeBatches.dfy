/** Pages of Bronze rows and batches of pages: what a batch holds per table, what was
    handed to the inner writer, and what of it was accepted. */
module BronzeBatches {
  /** A record, with the length of its serialized form. */
  datatype BronzeRecord = BronzeRecord(id: int, bytes: nat)

  datatype TableRows = TableRows(table: string, rows: seq<BronzeRecord>)

  /** The tables of one page, in the order the extractor produced them. */
  type Page = seq<TableRows>

  /** `tables.get(table, [])` */
  function RowsOf(page: Page, table: string): seq<BronzeRecord> {
    if page == [] then []
    else RowsOf(page[..|page| - 1], table) + (if page[|page| - 1].table == table then page[|page| - 1].rows else [])
  }

  function RowCount(page: Page): nat {
    if page == [] then 0 else RowCount(page[..|page| - 1]) + |page[|page| - 1].rows|
  }

  function RowBytes(rows: seq<BronzeRecord>): nat {
    if rows == [] then 0 else RowBytes(rows[..|rows| - 1]) + rows[|rows| - 1].bytes
  }

  function PageBytes(page: Page): nat {
    if page == [] then 0 else PageBytes(page[..|page| - 1]) + RowBytes(page[|page| - 1].rows)
  }

  /* A batch: the pages from `m` up to `n`. */

  /** The rows of a batch for one table, in page order. */
  function BatchRows(pages: seq<Page>, m: nat, n: nat, table: string): seq<BronzeRecord>
    requires m <= n <= |pages|
  {
    if n == m then [] else BatchRows(pages, m, n - 1, table) + RowsOf(pages[n - 1], table)
  }

  function BatchCount(pages: seq<Page>, m: nat, n: nat): nat
    requires m <= n <= |pages|
  {
    if n == m then 0 else BatchCount(pages, m, n - 1) + RowCount(pages[n - 1])
  }

  function BatchBytes(pages: seq<Page>, m: nat, n: nat): nat
    requires m <= n <= |pages|
  {
    if n == m then 0 else BatchBytes(pages, m, n - 1) + PageBytes(pages[n - 1])
  }

  /** More pages leave a batch as it is. */
  lemma {:induction false} BatchFrame(pages: seq<Page>, more: seq<Page>, m: nat, n: nat)
    requires m <= n <= |pages| <= |more| && pages == more[..|pages|]
    ensures BatchCount(more, m, n) == BatchCount(pages, m, n)
    ensures BatchBytes(more, m, n) == BatchBytes(pages, m, n)
  {
    if m < n { BatchFrame(pages, more, m, n - 1); }
  }

  /** A page number and a table. */
  datatype Mark = Mark(page: nat, table: string)

  /* What was handed to the inner writer. `sent` and `delivered` are sets of (page
     number, table): handed over, and accepted in full. */

  /** Everything the inner writer was given for a table, over all calls. */
  function Sent(calls: seq<TableRows>, table: string): seq<BronzeRecord> {
    if calls == [] then []
    else Sent(calls[..|calls| - 1], table) + (if calls[|calls| - 1].table == table then calls[|calls| - 1].rows else [])
  }

  /** The rows for a table of those of the first `n` pages that were handed over:
      each page whole, once, in page order. */
  function Kept(pages: seq<Page>, table: string, sent: set<Mark>, n: nat): seq<BronzeRecord>
    requires n <= |pages|
  {
    if n == 0 then []
    else Kept(pages, table, sent, n - 1) + (if Mark(n - 1, table) in sent then RowsOf(pages[n - 1], table) else [])
  }

  /** How many rows of page `number` are in accepted tables. */
  function CountIn(page: Page, number: nat, delivered: set<Mark>): nat {
    if page == [] then 0
    else CountIn(page[..|page| - 1], number, delivered)
         + (if Mark(number, page[|page| - 1].table) in delivered then |page[|page| - 1].rows| else 0)
  }

  lemma {:induction false} KeptFrame(pages: seq<Page>, table: string, sent: set<Mark>, sent': set<Mark>, n: nat)
    requires n <= |pages| && forall k: nat :: k < n ==> (Mark(k, table) in sent <==> Mark(k, table) in sent')
    ensures Kept(pages, table, sent, n) == Kept(pages, table, sent', n)
  {
    if n > 0 { KeptFrame(pages, table, sent, sent', n - 1); }
  }

  lemma {:induction false} KeptMorePages(pages: seq<Page>, more: seq<Page>, table: string, sent: set<Mark>, n: nat)
    requires n <= |pages| <= |more| && pages == more[..|pages|]
    ensures Kept(pages, table, sent, n) == Kept(more, table, sent, n)
  {
    if n > 0 { KeptMorePages(pages, more, table, sent, n - 1); }
  }

  /** Pages that were not handed over add nothing. */
  lemma {:induction false} KeptUnsent(pages: seq<Page>, table: string, sent: set<Mark>, m: nat, n: nat)
    requires m <= n <= |pages| && forall k: nat :: m <= k < n ==> Mark(k, table) !in sent
    ensures Kept(pages, table, sent, n) == Kept(pages, table, sent, m)
  {
    if m < n { KeptUnsent(pages, table, sent, m, n - 1); }
  }

  /** A batch that was handed over adds its rows in order. */
  lemma {:induction false} KeptBatch(pages: seq<Page>, table: string, sent: set<Mark>, m: nat, n: nat)
    requires m <= n <= |pages| && forall k: nat :: m <= k < n ==> Mark(k, table) in sent
    ensures Kept(pages, table, sent, n) == Kept(pages, table, sent, m) + BatchRows(pages, m, n, table)
  {
    if m < n { KeptBatch(pages, table, sent, m, n - 1); }
  }

  lemma {:induction false} CountInFrame(page: Page, number: nat, delivered: set<Mark>, delivered': set<Mark>)
    requires forall t :: Mark(number, t) in delivered <==> Mark(number, t) in delivered'
    ensures CountIn(page, number, delivered) == CountIn(page, number, delivered')
  {
    if page != [] { CountInFrame(page[..|page| - 1], number, delivered, delivered'); }
  }

  /** Accepting one more table adds its rows. */
  lemma {:induction false} CountInAdds(page: Page, number: nat, delivered: set<Mark>, delivered': set<Mark>, table: string)
    requires Mark(number, table) !in delivered
    requires forall t :: Mark(number, t) in delivered' <==> Mark(number, t) in delivered || t == table
    ensures CountIn(page, number, delivered') == CountIn(page, number, delivered) + |RowsOf(page, table)|
  {
    if page != [] { CountInAdds(page[..|page| - 1], number, delivered, delivered', table); }
  }

  lemma {:induction false} CountInAll(page: Page, number: nat, delivered: set<Mark>)
    requires forall e :: 0 <= e < |page| ==> Mark(number, page[e].table) in delivered
    ensures CountIn(page, number, delivered) == RowCount(page)
  {
    if page != [] { CountInAll(page[..|page| - 1], number, delivered); }
  }

  lemma {:induction false} CountInNone(page: Page, number: nat, delivered: set<Mark>)
    requires forall t :: Mark(number, t) !in delivered
    ensures CountIn(page, number, delivered) == 0
  {
    if page != [] { CountInNone(page[..|page| - 1], number, delivered); }
  }

  /** The rows in accepted tables of the first `n` pages. */
  function TotalIn(pages: seq<Page>, delivered: set<Mark>, n: nat): nat
    requires n <= |pages|
  {
    if n == 0 then 0 else TotalIn(pages, delivered, n - 1) + CountIn(pages[n - 1], n - 1, delivered)
  }

  lemma {:induction false} TotalInMorePages(pages: seq<Page>, more: seq<Page>, delivered: set<Mark>, n: nat)
    requires n <= |pages| <= |more| && pages == more[..|pages|]
    ensures TotalIn(pages, delivered, n) == TotalIn(more, delivered, n)
  {
    if n > 0 { TotalInMorePages(pages, more, delivered, n - 1); }
  }

  /** Marking the pages from `first` on for a table. */
  function Marked(marks: set<Mark>, first: nat, last: nat, table: string): (marked: set<Mark>)
    ensures forall m :: m in marked <==> m in marks || (first <= m.page < last && m.table == table)
  {
    if last <= first then marks else Marked(marks, first, last - 1, table) + {Mark(last - 1, table)}
  }

  /** Accepting a table of a batch adds the rows the batch has for it. */
  lemma {:induction false} TotalInAdds(pages: seq<Page>, delivered: set<Mark>, first: nat, last: nat, table: string, n: nat)
    requires first <= last && last <= |pages| && n <= |pages|
    requires forall k: nat :: first <= k < last ==> Mark(k, table) !in delivered
    ensures TotalIn(pages, Marked(delivered, first, last, table), n)
            == TotalIn(pages, delivered, n)
               + (if n <= first then 0 else |BatchRows(pages, first, if n < last then n else last, table)|)
  {
    if n > 0 {
      var delivered' := Marked(delivered, first, last, table);
      TotalInAdds(pages, delivered, first, last, table, n - 1);
      if first <= n - 1 < last {
        CountInAdds(pages[n - 1], n - 1, delivered, delivered', table);
      } else {
        CountInFrame(pages[n - 1], n - 1, delivered, delivered');
      }
    }
  }

  /** Handing over one table of a batch keeps the order per table. */
  lemma CallKeepsOrder(pages: seq<Page>, calls: seq<TableRows>, sent: set<Mark>, first: nat, call: TableRows)
    requires first <= |pages| && call.rows == BatchRows(pages, first, |pages|, call.table)
    requires forall t :: Sent(calls, t) == Kept(pages, t, sent, |pages|)
    requires forall k: nat :: first <= k < |pages| ==> Mark(k, call.table) !in sent
    ensures forall t :: Sent(calls + [call], t) == Kept(pages, t, Marked(sent, first, |pages|, call.table), |pages|)
  {
    var sent' := Marked(sent, first, |pages|, call.table);
    forall t ensures Sent(calls + [call], t) == Kept(pages, t, sent', |pages|) {
      assert (calls + [call])[..|calls|] == calls;
      if t == call.table {
        KeptUnsent(pages, t, sent, first, |pages|);
        KeptFrame(pages, t, sent, sent', first);
        KeptBatch(pages, t, sent', first, |pages|);
      } else {
        KeptFrame(pages, t, sent, sent', |pages|);
      }
    }
  }

  /* Grouping a batch by table. */

  predicate Listed(grouped: seq<TableRows>, table: string) {
    exists g :: 0 <= g < |grouped| && grouped[g].table == table
  }

  predicate DistinctTables(grouped: seq<TableRows>) {
    forall g, h :: 0 <= g < h < |grouped| ==> grouped[g].table != grouped[h].table
  }

  /** `extended` is `grouped` with the rows of `page` added table by table. */
  ghost predicate Adds(grouped: seq<TableRows>, page: Page, extended: seq<TableRows>) {
    forall t :: && RowsOf(extended, t) == RowsOf(grouped, t) + RowsOf(page, t)
                && (Listed(extended, t) <==> Listed(grouped, t) || Listed(page, t))
  }

  /** `grouped[table].extend(rows)`: tables stay in the order of their first page. */
  method Extend(grouped: seq<TableRows>, entry: TableRows) returns (extended: seq<TableRows>)
    requires DistinctTables(grouped)
    ensures DistinctTables(extended) && Adds(grouped, [entry], extended)
  {
    var g := 0;
    while g < |grouped| && grouped[g].table != entry.table
      invariant 0 <= g <= |grouped|
      invariant forall h :: 0 <= h < g ==> grouped[h].table != entry.table
    {
      g := g + 1;
    }
    if g < |grouped| {
      extended := grouped[g := TableRows(entry.table, grouped[g].rows + entry.rows)];
      assert forall h :: 0 <= h < |grouped| ==> extended[h].table == grouped[h].table;
      forall t ensures RowsOf(extended, t) == RowsOf(grouped, t) + RowsOf([entry], t)
                       && (Listed(extended, t) <==> Listed(grouped, t) || Listed([entry], t)) {
        ReplacedEntry(grouped, extended, g, entry, t);
      }
    } else {
      extended := grouped + [entry];
      forall t ensures RowsOf(extended, t) == RowsOf(grouped, t) + RowsOf([entry], t)
                       && (Listed(extended, t) <==> Listed(grouped, t) || Listed([entry], t)) {
        NextEntry(extended, |grouped|, t);
        SingleEntry(entry, t);
        assert extended[..|extended|] == extended && extended[..|grouped|] == grouped;
      }
    }
  }

  lemma ReplacedEntry(grouped: seq<TableRows>, extended: seq<TableRows>, g: nat, entry: TableRows, t: string)
    requires DistinctTables(grouped) && DistinctTables(extended) && |extended| == |grouped| && g < |grouped|
    requires grouped[g].table == entry.table && extended == grouped[g := TableRows(entry.table, grouped[g].rows + entry.rows)]
    ensures RowsOf(extended, t) == RowsOf(grouped, t) + RowsOf([entry], t)
    ensures Listed(extended, t) <==> Listed(grouped, t) || Listed([entry], t)
  {
    SingleEntry(entry, t);
    if t == entry.table {
      ListedRows(grouped, g);
      ListedRows(extended, g);
    } else {
      ReplacedOther(grouped, extended, g, t);
    }
  }

  lemma SingleEntry(entry: TableRows, t: string)
    ensures RowsOf([entry], t) == if entry.table == t then entry.rows else []
    ensures Listed([entry], t) <==> entry.table == t
  {
  }

  lemma {:induction false} ReplacedOther(grouped: seq<TableRows>, extended: seq<TableRows>, g: nat, t: string)
    requires |extended| == |grouped| && g < |grouped| && grouped[g].table == extended[g].table != t
    requires extended == grouped[g := extended[g]]
    ensures RowsOf(extended, t) == RowsOf(grouped, t)
    ensures Listed(extended, t) <==> Listed(grouped, t)
  {
    if Listed(grouped, t) {
      var h :| 0 <= h < |grouped| && grouped[h].table == t;
      assert extended[h].table == t;
    }
    if Listed(extended, t) {
      var h :| 0 <= h < |extended| && extended[h].table == t;
      assert grouped[h].table == t;
    }
    var n := |grouped| - 1;
    if g < n {
      ReplacedOther(grouped[..n], extended[..n], g, t);
    } else {
      assert extended[..n] == grouped[..n];
    }
  }

  lemma {:induction false} ListedRows(grouped: seq<TableRows>, g: nat)
    requires DistinctTables(grouped) && g < |grouped|
    ensures RowsOf(grouped, grouped[g].table) == grouped[g].rows
  {
    var init := grouped[..|grouped| - 1];
    if g == |grouped| - 1 {
      UnlistedRows(init, grouped[g].table);
    } else {
      ListedRows(init, g);
    }
  }

  lemma {:induction false} UnlistedRows(grouped: seq<TableRows>, table: string)
    requires forall g :: 0 <= g < |grouped| ==> grouped[g].table != table
    ensures RowsOf(grouped, table) == []
  {
    if grouped != [] { UnlistedRows(grouped[..|grouped| - 1], table); }
  }

  /** `grouped` extended with the tables of one page. */
  method AddPage(grouped: seq<TableRows>, page: Page) returns (extended: seq<TableRows>)
    requires DistinctTables(grouped)
    ensures DistinctTables(extended) && Adds(grouped, page, extended)
  {
    extended := grouped;
    for e := 0 to |page|
      invariant DistinctTables(extended) && Adds(grouped, page[..e], extended)
    {
      ghost var before := extended;
      extended := Extend(extended, page[e]);
      AddsNext(grouped, before, page, e, extended);
    }
    assert page[..|page|] == page;
  }

  lemma AddsNext(grouped: seq<TableRows>, before: seq<TableRows>, page: Page, e: nat, extended: seq<TableRows>)
    requires e < |page| && Adds(grouped, page[..e], before) && Adds(before, [page[e]], extended)
    ensures Adds(grouped, page[..e + 1], extended)
  {
    forall t ensures RowsOf(extended, t) == RowsOf(grouped, t) + RowsOf(page[..e + 1], t)
                     && (Listed(extended, t) <==> Listed(grouped, t) || Listed(page[..e + 1], t)) {
      NextEntry(page, e, t);
      SingleEntry(page[e], t);
      var last := RowsOf([page[e]], t);
      assert RowsOf(before, t) == RowsOf(grouped, t) + RowsOf(page[..e], t);
      assert RowsOf(extended, t) == RowsOf(before, t) + last;
      Regroup(RowsOf(grouped, t), RowsOf(page[..e], t), last);
    }
  }

  lemma Regroup<T>(a: seq<T>, b: seq<T>, c: seq<T>)
    ensures (a + b) + c == a + (b + c)
  {
  }

  lemma NextEntry(page: Page, e: nat, t: string)
    requires e < |page|
    ensures RowsOf(page[..e + 1], t) == RowsOf(page[..e], t) + (if page[e].table == t then page[e].rows else [])
    ensures Listed(page[..e + 1], t) <==> Listed(page[..e], t) || page[e].table == t
  {
    var longer := page[..e + 1];
    assert longer[..e] == page[..e];
    if Listed(page[..e], t) {
      var g :| 0 <= g < e && page[..e][g].table == t;
      assert longer[g].table == t;
    }
    if Listed(longer, t) && page[e].table != t {
      var g :| 0 <= g <= e && longer[g].table == t;
      assert page[..e][g].table == t;
    }
    assert longer[e] == page[e];
  }

  predicate ListedIn(pages: seq<Page>, table: string) {
    exists p :: 0 <= p < |pages| && Listed(pages[p], table)
  }

  /** The batch as one list of rows per table, in page order. */
  method Group(pages: seq<Page>) returns (grouped: seq<TableRows>)
    ensures DistinctTables(grouped)
    ensures forall g :: 0 <= g < |grouped| ==> grouped[g].rows == BatchRows(pages, 0, |pages|, grouped[g].table)
    ensures forall t :: Listed(grouped, t) <==> ListedIn(pages, t)
    ensures pages == [] ==> grouped == []
  {
    grouped := [];
    for p := 0 to |pages|
      invariant DistinctTables(grouped) && (p == 0 ==> grouped == [])
      invariant forall t :: RowsOf(grouped, t) == BatchRows(pages, 0, p, t)
      invariant forall t :: Listed(grouped, t) <==> ListedIn(pages[..p], t)
    {
      grouped := AddPage(grouped, pages[p]);
      forall t ensures ListedIn(pages[..p + 1], t) <==> ListedIn(pages[..p], t) || Listed(pages[p], t) {
        ListedInNext(pages, p, t);
      }
    }
    assert pages[..|pages|] == pages;
    forall g | 0 <= g < |grouped| ensures grouped[g].rows == BatchRows(pages, 0, |pages|, grouped[g].table) { ListedRows(grouped, g); }
  }

  lemma ListedInNext(pages: seq<Page>, p: nat, t: string)
    requires p < |pages|
    ensures ListedIn(pages[..p + 1], t) <==> ListedIn(pages[..p], t) || Listed(pages[p], t)
  {
  }

}
