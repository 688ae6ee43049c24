/** `iter_search_pages`: a generator over the pages of one search window that
    trusts nothing the server says about the window without checking it. */
module Pagination {
  import opened Wrappers

  const MAX_SEARCH_ITEMS := 10000

  /** A field of the page envelope: missing or null, not convertible, or a number. */
  datatype Field = Absent | Malformed | Number(n: int)

  /** A search item and what `search_key` makes of it. */
  datatype Item = Item(key: Option<int>, body: int)

  /** What one call of the source brings: an exception, or an envelope. */
  datatype Fetched =
    | Raised
    | Page(content: Option<seq<Item>>, totalElements: int,
           numbers: seq<Field>, sizes: seq<Field>, totalPages: seq<Field>)

  /** Any server: what it answers when page `i` is asked for. A run asks for each
      page once, so a finite list of answers stands for every server. */
  type Server = seq<Fetched>

  function Answer(server: Server, i: nat): Fetched {
    if i < |server| then server[i] else Raised
  }

  datatype Parsed = Invalid | Value(value: Option<int>)

  /** `_optional_int`: the first of several fields that is present. */
  function OptionalInt(fields: seq<Field>): Parsed {
    if fields == [] then Value(None)
    else match fields[0]
      case Absent => OptionalInt(fields[1..])
      case Malformed => Invalid
      case Number(n) => Value(Some(n))
  }

  /** The field is left out or says `n`. */
  predicate Agrees(fields: seq<Field>, n: int) {
    var parsed := OptionalInt(fields);
    parsed.Value? && (parsed.value.Some? ==> parsed.value.value == n)
  }

  /** The pages of a window, at least one. */
  function PageCount(total: nat, size: nat): (pages: nat)
    requires size > 0
    ensures pages >= 1
  {
    if total <= size then 1 else 1 + PageCount(total - size, size)
  }

  /** `max(1, ceil(total / size))` */
  lemma {:induction false} PageCountIsCeiling(total: nat, size: nat)
    requires size > 0
    ensures PageCount(total, size) == if total == 0 then 1 else (total + size - 1) / size
  {
    if total > size {
      PageCountIsCeiling(total - size, size);
      assert (total + size - 1) / size == (total - size + size - 1) / size + 1 by {
        DivideStep(total - 1, size);
      }
    } else if total > 0 {
      DivideStep(total - 1, size);
      assert (total - 1) / size == 0;
    }
  }

  lemma DivideStep(n: nat, size: nat)
    requires size > 0
    ensures (n + size) / size == n / size + 1
  {
    var q, r := n / size, n % size;
    assert n + size == (q + 1) * size + r;
    QuotientUnique(n + size, size, q + 1, r);
  }

  lemma QuotientUnique(n: nat, size: nat, q: nat, r: nat)
    requires size > 0 && n == q * size + r && r < size
    ensures n / size == q
  {
    var q', r' := n / size, n % size;
    assert (q - q') * size == r' - r;
    if q' < q {
      AtLeastOnce(q - q', size);
    } else if q' > q {
      AtLeastOnce(q' - q, size);
    }
  }

  lemma AtLeastOnce(times: nat, size: nat)
    requires times >= 1
    ensures times * size >= size
  {
  }

  /** How many of `total` items belong on page `number`. */
  function ItemsOn(total: nat, size: nat, number: nat): nat {
    var remaining := if total - number * size > 0 then total - number * size else 0;
    if size < remaining then size else remaining
  }

  /** The envelope of page `number` agrees with a window of `total` items. */
  predicate Fits(r: Fetched, total: int, size: nat, number: nat)
    requires size > 0
  {
    && r.Page? && r.content.Some? && r.totalElements == total && 0 <= total < MAX_SEARCH_ITEMS
    && Agrees(r.numbers, number)
    && Agrees(r.sizes, size)
    && (Agrees(r.totalPages, PageCount(total, size)) || (total == 0 && Agrees(r.totalPages, 0)))
    && |r.content.value| == ItemsOn(total, size, number)
  }

  /** The first of several fields that is there at all. */
  ghost predicate FirstPresent(fields: seq<Field>, i: int) {
    0 <= i < |fields| && !fields[i].Absent? && forall j :: 0 <= j < i ==> fields[j].Absent?
  }

  /** The envelope says nothing of this, or the first it says is `n`. */
  ghost predicate SaysOnly(fields: seq<Field>, n: int) {
    forall i :: FirstPresent(fields, i) ==> fields[i] == Number(n)
  }

  lemma {:induction false} AgreesMeaning(fields: seq<Field>, n: int)
    ensures Agrees(fields, n) <==> SaysOnly(fields, n)
  {
    if fields != [] {
      var rest := fields[1..];
      AgreesMeaning(rest, n);
      if fields[0].Absent? {
        assert forall i :: FirstPresent(fields, i) <==> FirstPresent(rest, i - 1);
        assert forall i :: FirstPresent(rest, i) <==> FirstPresent(fields, i + 1);
      } else {
        assert FirstPresent(fields, 0);
        assert forall i :: FirstPresent(fields, i) ==> i == 0;
      }
    }
  }

  /** What is checked of an envelope: the total of the window, within its bound; nothing said
      against the number, the size and the count of the pages; and exactly the items of the
      window that fall on this page. An empty window may also claim no page. */
  lemma FitsMeaning(r: Fetched, total: int, size: nat, number: nat)
    requires size > 0
    ensures Fits(r, total, size, number) <==>
              && r.Page? && r.content.Some? && r.totalElements == total && 0 <= total < 10000
              && SaysOnly(r.numbers, number) && SaysOnly(r.sizes, size)
              && (SaysOnly(r.totalPages, if total == 0 then 1 else (total + size - 1) / size)
                  || (total == 0 && SaysOnly(r.totalPages, 0)))
              && |r.content.value| == (if total <= number * size then 0
                                       else if total < number * size + size then total - number * size else size)
  {
    if r.Page? && 0 <= total {
      PageCountIsCeiling(total, size);
      AgreesMeaning(r.numbers, number);
      AgreesMeaning(r.sizes, size);
      AgreesMeaning(r.totalPages, PageCount(total, size));
      AgreesMeaning(r.totalPages, 0);
    }
  }

  /* Search identities. */

  /** The identities seen after these items, or None when one of them repeats. */
  function AddKeys(items: seq<Item>, seen: set<int>): Option<set<int>> {
    if items == [] then Some(seen)
    else
      var before := AddKeys(items[..|items| - 1], seen);
      var k := items[|items| - 1].key;
      if before.None? || k.None? then before
      else if k.value in before.value then None
      else Some(before.value + {k.value})
  }

  /** No two items share an identity; items without one are not compared. */
  ghost predicate NoRepeats(items: seq<Item>) {
    forall i, j :: 0 <= i < j < |items| && items[i].key.Some? ==> items[i].key != items[j].key
  }

  ghost predicate Occurs(items: seq<Item>, k: int) {
    exists i :: 0 <= i < |items| && items[i].key == Some(k)
  }

  lemma {:induction false} AddKeysMeaning(items: seq<Item>)
    ensures AddKeys(items, {}).Some? <==> NoRepeats(items)
    ensures AddKeys(items, {}).Some? ==> forall k :: k in AddKeys(items, {}).value <==> Occurs(items, k)
  {
    if items != [] {
      var n := |items| - 1;
      var init := items[..n];
      var before := AddKeys(init, {});
      AddKeysMeaning(init);
      assert forall i :: 0 <= i < n ==> init[i] == items[i];
      if before.Some? {
        if items[n].key.Some? {
          var k := items[n].key.value;
          assert k in before.value <==> Occurs(init, k);
        }
        forall k ensures Occurs(items, k) <==> Occurs(init, k) || items[n].key == Some(k) {
          if Occurs(init, k) {
            var i :| 0 <= i < |init| && init[i].key == Some(k);
            assert items[i].key == Some(k);
          }
        }
      }
    }
  }

  lemma {:induction false} AddKeysSplit(a: seq<Item>, b: seq<Item>, seen: set<int>)
    ensures AddKeys(a + b, seen)
            == if AddKeys(a, seen).None? then None else AddKeys(b, AddKeys(a, seen).value)
    decreases |b|
  {
    if b == [] {
      assert a + b == a;
    } else {
      var n := |b| - 1;
      assert (a + b)[..|a + b| - 1] == a + b[..n] && (a + b)[|a + b| - 1] == b[n];
      AddKeysSplit(a, b[..n], seen);
    }
  }

  /* The window as a whole. */

  /** The items of the first `n` pages the server would return. */
  ghost function ItemsOf(server: Server, n: nat): seq<Item> {
    if n == 0 then []
    else
      var r := Answer(server, n - 1);
      ItemsOf(server, n - 1) + (if r.Page? && r.content.Some? then r.content.value else [])
  }

  /** The first `n` pages fit a window of `total` items and repeat no identity. */
  ghost predicate Consistent(server: Server, keyed: bool,
                                            total: int, size: nat, n: nat)
    requires size > 0
  {
    && (forall i: nat :: i < n ==> Fits(Answer(server, i), total, size, i))
    && (keyed ==> NoRepeats(ItemsOf(server, n)))
  }

  /** The generator's knowledge after `n` pages. */
  ghost predicate Tracks(server: Server, keyed: bool,
                                    total: int, size: nat, n: nat, seen: set<int>)
    requires size > 0
  {
    && (forall i: nat :: i < n ==> Fits(Answer(server, i), total, size, i))
    && (keyed ==> AddKeys(ItemsOf(server, n), {}) == Some(seen))
  }

  predicate Accepts(r: Fetched, keyed: bool,
                                   total: int, size: nat, n: nat, seen: set<int>)
    requires size > 0
  {
    Fits(r, total, size, n) && (keyed ==> AddKeys(r.content.value, seen).Some?)
  }

  /** Accepting one more page is what keeps the pages so far consistent. */
  lemma TracksNext(server: Server, keyed: bool,
                              total: int, size: nat, n: nat, seen: set<int>)
    requires size > 0 && Tracks(server, keyed, total, size, n, seen)
    ensures Consistent(server, keyed, total, size, n + 1) <==> Accepts(Answer(server, n), keyed, total, size, n, seen)
    ensures Accepts(Answer(server, n), keyed, total, size, n, seen) ==>
              Tracks(server, keyed, total, size, n + 1,
                     if keyed then AddKeys(Answer(server, n).content.value, seen).value else seen)
  {
    if Fits(Answer(server, n), total, size, n) && keyed {
      AddKeysSplit(ItemsOf(server, n), Answer(server, n).content.value, {});
      AddKeysMeaning(ItemsOf(server, n + 1));
    }
  }

  lemma TracksAfter(server: Server, keyed: bool,
                               total: int, size: nat, n: nat, seen: set<int>, seen': set<int>)
    requires size > 0 && Tracks(server, keyed, total, size, n, seen) == true
    requires Accepts(Answer(server, n), keyed, total, size, n, seen) == true
    requires keyed ==> AddKeys(Answer(server, n).content.value, seen) == Some(seen')
    ensures Tracks(server, keyed, total, size, n + 1, seen')
  {
    TracksNext(server, keyed, total, size, n, seen);
  }

  lemma {:induction false} ItemsAddUp(server: Server, total: nat, size: nat, n: nat)
    requires size > 0 && forall i: nat :: i < n ==> Fits(Answer(server, i), total, size, i)
    ensures |ItemsOf(server, n)| == if n * size < total then n * size else total
  {
    if n > 0 {
      ItemsAddUp(server, total, size, n - 1);
      assert Fits(Answer(server, n - 1), total, size, n - 1);
      assert n * size == (n - 1) * size + size;
    }
  }

  /** All the pages of a consistent window hold exactly its items. */
  lemma WindowIsComplete(server: Server, total: nat, size: nat)
    requires size > 0 && forall i: nat :: i < PageCount(total, size) ==> Fits(Answer(server, i), total, size, i)
    ensures |ItemsOf(server, PageCount(total, size))| == total
  {
    var n := PageCount(total, size);
    ItemsAddUp(server, total, size, n);
    PagesCover(total, size);
  }

  lemma {:induction false} PagesCover(total: nat, size: nat)
    requires size > 0
    ensures PageCount(total, size) * size >= total
  {
    if total > size { PagesCover(total - size, size); }
  }

  datatype Outcome = Yielded(number: nat, page: Fetched) | Stopped | Failed

  datatype Phase = Fresh | Suspended | Finished

  class Pager {
    const server: Server
    const pageSize: int
    const keyed: bool
    var phase: Phase
    var pageNumber: nat
    var expectedTotal: Option<int>
    var seen: set<int>
    ghost var fetches: nat

    /** Suspended after page `pageNumber`: everything up to it fits the window. */
    ghost predicate Valid()
      reads this
    {
      && (phase.Fresh? ==> pageNumber == 0 && expectedTotal.None? && seen == {} && fetches == 0)
      && (phase.Suspended? ==>
            && pageSize > 0 && expectedTotal.Some? && Window() == expectedTotal.value >= 0
            && pageNumber < PageCount(Window(), pageSize)
            && fetches == pageNumber + 1
            && Tracks(server, keyed, Window(), pageSize, fetches, seen) == true)
    }

    /** The first reported total. */
    function Window(): int {
      WindowOf(Answer(server, 0))
    }

    constructor (server: Server, pageSize: int, keyed: bool)
      ensures Valid() && phase == Fresh
      ensures this.server == server && this.pageSize == pageSize && this.keyed == keyed
    {
      this.server, this.pageSize, this.keyed := server, pageSize, keyed;
      phase, pageNumber, expectedTotal, seen, fetches := Fresh, 0, None, {}, 0;
    }

    /** Add the identities of a page; false when one repeats. */
    method SeePage(content: seq<Item>) returns (ok: bool)
      modifies this`seen
      ensures ok == AddKeys(content, old(seen)).Some?
      ensures ok ==> seen == AddKeys(content, old(seen)).value
    {
      for i := 0 to |content|
        invariant AddKeys(content[..i], old(seen)) == Some(seen)
      {
        assert content[..i + 1][..i] == content[..i];
        var k := content[i].key;
        if k.Some? {
          if k.value in seen {
            RepeatStays(content, i + 1, old(seen));
            return false;
          }
          seen := seen + {k.value};
        }
      }
      assert content[..|content|] == content;
      return true;
    }

    static lemma {:induction false} RepeatStays(items: seq<Item>, n: nat, from: set<int>)
      requires n <= |items| && AddKeys(items[..n], from).None?
      ensures AddKeys(items, from).None?
    {
      AddKeysSplit(items[..n], items[n..], from);
      assert items[..n] + items[n..] == items;
    }

    /** Fetch and check page `number`; on success the generator yields it. */
    method FetchPage(number: nat) returns (outcome: Outcome)
      requires pageSize > 0 && Tracks(server, keyed, Window(), pageSize, number, seen)
      requires if number == 0 then expectedTotal.None? else expectedTotal == Some(Window())
      modifies this`expectedTotal, this`seen, this`fetches
      ensures fetches == old(fetches) + 1
      ensures outcome == if Accepts(Answer(server, number), keyed, Window(), pageSize, number, old(seen))
                         then Yielded(number, Answer(server, number)) else Failed
      ensures outcome.Yielded? ==> expectedTotal == Some(Window())
      ensures outcome.Yielded? && keyed ==>
                AddKeys(Answer(server, number).content.value, old(seen)) == Some(seen)
      ensures outcome.Yielded? && !keyed ==> seen == old(seen)
    {
      var r := Answer(server, number);
      fetches := fetches + 1;
      if r.Raised? || r.content.None? || r.totalElements < 0 || r.totalElements >= MAX_SEARCH_ITEMS {
        return Failed;
      }
      if expectedTotal.None? {
        expectedTotal := Some(r.totalElements);
      } else if r.totalElements != expectedTotal.value {
        return Failed;
      }
      if !Agrees(r.numbers, number) || !Agrees(r.sizes, pageSize) {
        return Failed;
      }
      var valid := Agrees(r.totalPages, PageCount(r.totalElements, pageSize));
      if r.totalElements == 0 {
        valid := Agrees(r.totalPages, 0) || Agrees(r.totalPages, 1);
      }
      if !valid {
        return Failed;
      }
      if |r.content.value| != ItemsOn(r.totalElements, pageSize, number) {
        return Failed;
      }
      if keyed {
        var ok := SeePage(r.content.value);
        if !ok {
          return Failed;
        }
      }
      return Yielded(number, r);
    }

    /** The fetching half of a turn, once there is a page to ask for. */
    method Turn(number: nat) returns (outcome: Outcome)
      requires pageSize > 0 && fetches == number && Tracks(server, keyed, Window(), pageSize, number, seen)
      requires if number == 0 then expectedTotal.None? else expectedTotal == Some(Window())
      requires number > 0 ==> Window() >= 0 && number < PageCount(Window(), pageSize)
      modifies this
      ensures Valid() && fetches == number + 1
      ensures outcome.Yielded? ==> phase.Suspended? && outcome == Yielded(number, Answer(server, number))
      ensures !outcome.Yielded? ==> outcome == Failed && phase.Finished?
                                    && !Consistent(server, keyed, Window(), pageSize, number + 1)
    {
      ghost var before := seen;
      pageNumber := number;
      outcome := FetchPage(number);
      if outcome.Yielded? {
        phase := Suspended;
        TracksAfter(server, keyed, Window(), pageSize, number, before, seen);
      } else {
        phase := Finished;
        TracksNext(server, keyed, Window(), pageSize, number, before);
      }
    }

    /** Resume the generator. */
    method Next() returns (outcome: Outcome)
      requires Valid() && !phase.Finished? && pageSize > 0
      modifies this
      ensures Valid()
      ensures outcome.Yielded? ==> phase.Suspended? && fetches == old(fetches) + 1
                                   && outcome == Yielded(old(fetches), Answer(server, old(fetches)))
      ensures outcome.Failed? ==> phase.Finished?
                                  && !Consistent(server, keyed, Window(), pageSize, old(fetches) + 1)
                                  && (old(phase).Suspended? ==> old(fetches) < PageCount(Window(), pageSize))
      ensures outcome.Stopped? ==> phase.Finished? && Window() >= 0
                                   && old(fetches) == fetches == PageCount(Window(), pageSize)
                                   && Tracks(server, keyed, Window(), pageSize, fetches, seen) == true
    {
      if phase.Suspended? && pageNumber + 1 >= PageCount(expectedTotal.value, pageSize) {
        phase := Finished;
        return Stopped;
      }
      outcome := Turn(if phase.Fresh? then 0 else pageNumber + 1);
    }
  }

  /** The total the first page reports. */
  function WindowOf(first: Fetched): int {
    if first.Page? then first.totalElements else 0
  }

  /** Every page of the window is what it should be. */
  ghost predicate WindowConsistent(server: Server, keyed: bool, size: nat)
    requires size > 0
  {
    var total := WindowOf(Answer(server, 0));
    total >= 0 && Consistent(server, keyed, total, size, PageCount(total, size))
  }

  lemma NormalEnd(server: Server, keyed: bool, size: nat, seen: set<int>)
    requires size > 0 && WindowOf(Answer(server, 0)) >= 0
    requires Tracks(server, keyed, WindowOf(Answer(server, 0)), size, PageCount(WindowOf(Answer(server, 0)), size), seen) == true
    ensures WindowConsistent(server, keyed, size)
    ensures WindowOf(Answer(server, 0)) < MAX_SEARCH_ITEMS
    ensures |ItemsOf(server, PageCount(WindowOf(Answer(server, 0)), size))| == WindowOf(Answer(server, 0))
  {
    var total := WindowOf(Answer(server, 0));
    WindowIsComplete(server, total, size);
    assert Fits(Answer(server, 0), total, size, 0);
    if keyed { AddKeysMeaning(ItemsOf(server, PageCount(total, size))); }
  }

  /** A crawl that stops before the end of the window met an inconsistent page. */
  lemma FailedEnd(server: Server, keyed: bool, size: nat, n: nat)
    requires size > 0 && !Consistent(server, keyed, WindowOf(Answer(server, 0)), size, n)
    requires WindowOf(Answer(server, 0)) >= 0 ==> n <= PageCount(WindowOf(Answer(server, 0)), size)
    ensures !WindowConsistent(server, keyed, size)
  {
    var total := WindowOf(Answer(server, 0));
    if total >= 0 {
      PrefixConsistent(server, keyed, total, size, n, PageCount(total, size));
    }
  }

  /** The pages the window has, as far as its first page tells. */
  function Budget(first: Fetched, size: nat): nat
    requires size > 0
  {
    if WindowOf(first) >= 0 then PageCount(WindowOf(first), size) else 1
  }

  /** Drive a generator to its end. It ends normally exactly when every page of the
      window is consistent; it then has yielded pages 0, 1, ... in order, holding
      all the items of the window and no identity twice. Otherwise it has yielded the
      pages before the first one that is not consistent with them. In no case does it
      fetch more pages than the window has. */
  method Drain(server: Server, pageSize: int, keyed: bool)
    returns (pages: seq<Fetched>, fetched: nat, normal: bool)
    ensures pageSize <= 0 ==> !normal && fetched == 0
    ensures pageSize > 0 ==> fetched <= Budget(Answer(server, 0), pageSize)
    ensures normal <==> pageSize > 0 && WindowConsistent(server, keyed, pageSize)
    ensures normal ==> 0 <= WindowOf(Answer(server, 0)) < MAX_SEARCH_ITEMS
                       && |pages| == fetched == PageCount(WindowOf(Answer(server, 0)), pageSize)
                       && |ItemsOf(server, fetched)| == WindowOf(Answer(server, 0))
    ensures forall i :: 0 <= i < |pages| ==> pages[i] == Answer(server, i)
    ensures pageSize > 0 && !normal ==>
              && fetched == |pages| + 1 && Consistent(server, keyed, WindowOf(Answer(server, 0)), pageSize, |pages|)
              && !Consistent(server, keyed, WindowOf(Answer(server, 0)), pageSize, fetched)
  {
    pages := [];
    if pageSize <= 0 {
      return pages, 0, false;
    }
    var pager := new Pager(server, pageSize, keyed);
    while true
      invariant pager.Valid() == true && fresh(pager)
      invariant pager.server == server && pager.pageSize == pageSize && pager.keyed == keyed
      invariant |pages| == pager.fetches
      invariant pager.phase.Suspended? || (pager.phase.Fresh? && pages == [])
      invariant forall i :: 0 <= i < |pages| ==> pages[i] == Answer(server, i)
      decreases Budget(Answer(server, 0), pageSize) - |pages|
    {
      if pages == [] {
        NothingYet(server, keyed, WindowOf(Answer(server, 0)), pageSize);
      } else {
        TracksConsistent(server, keyed, WindowOf(Answer(server, 0)), pageSize, |pages|, pager.seen);
      }
      var outcome := pager.Next();
      match outcome
      case Yielded(_, page) =>
        pages := pages + [page];
      case Stopped =>
        NormalEnd(server, keyed, pageSize, pager.seen);
        return pages, |pages|, true;
      case Failed =>
        FailedEnd(server, keyed, pageSize, |pages| + 1);
        return pages, |pages| + 1, false;
    }
  }

  lemma NothingYet(server: Server, keyed: bool, total: int, size: nat)
    requires size > 0
    ensures Consistent(server, keyed, total, size, 0)
  {
  }

  lemma TracksConsistent(server: Server, keyed: bool, total: int, size: nat, n: nat, seen: set<int>)
    requires size > 0 && Tracks(server, keyed, total, size, n, seen) == true
    ensures Consistent(server, keyed, total, size, n)
  {
    if keyed { AddKeysMeaning(ItemsOf(server, n)); }
  }

  /** What holds of all pages holds of the first few. */
  lemma PrefixConsistent(server: Server, keyed: bool,
                                    total: nat, size: nat, m: nat, n: nat)
    requires size > 0 && m <= n
    ensures Consistent(server, keyed, total, size, n) ==> Consistent(server, keyed, total, size, m)
  {
    ItemsPrefix(server, m, n);
  }

  lemma {:induction false} ItemsPrefix(server: Server, m: nat, n: nat)
    requires m <= n
    ensures ItemsOf(server, m) <= ItemsOf(server, n)
  {
    if m < n { ItemsPrefix(server, m, n - 1); }
  }
}
