/** Listing the elements of a finite set, in some order. */
module Collections {
  ghost predicate Lists<T(!new)>(items: seq<T>, elements: set<T>) {
    && (forall x :: x in items <==> x in elements)
    && (forall i, j :: 0 <= i < j < |items| ==> items[i] != items[j])
  }

  method Enumerate<T(==, !new)>(elements: set<T>) returns (items: seq<T>)
    ensures Lists(items, elements) && |items| == |elements|
  {
    items := [];
    var rest := elements;
    while rest != {}
      invariant rest <= elements && Lists(items, elements - rest) && |items| + |rest| == |elements|
      decreases rest
    {
      var x :| x in rest;
      items := items + [x];
      rest := rest - {x};
    }
    assert elements - rest == elements;
  }

  /** Some order to list the elements of a set in, fixed for each set. */
  ghost function AnyListing<T(!new)>(items: set<T>): (listing: seq<T>)
    ensures Lists(listing, items)
  {
    if items == {} then []
    else
      var x :| x in items;
      AnyListing(items - {x}) + [x]
  }

  /** The weights of these elements together. */
  function Sum<T>(weights: map<T, nat>, items: seq<T>): nat {
    if items == [] then 0
    else
      var x := items[|items| - 1];
      Sum(weights, items[..|items| - 1]) + (if x in weights then weights[x] else 0)
  }

  lemma {:induction false} SumWithout<T>(weights: map<T, nat>, items: seq<T>, i: nat)
    requires i < |items|
    ensures Sum(weights, items)
            == Sum(weights, items[..i] + items[i + 1..]) + (if items[i] in weights then weights[items[i]] else 0)
  {
    var n := |items| - 1;
    if i < n {
      var rest, init := items[..i] + items[i + 1..], items[..n];
      SumWithout(weights, init, i);
      assert rest[..|rest| - 1] == init[..i] + init[i + 1..] && rest[|rest| - 1] == items[n];
    } else {
      assert items[..i] + items[i + 1..] == items[..n];
    }
  }

  /** In whatever order they are listed. */
  lemma {:induction false} SumOrderFree<T(!new)>(weights: map<T, nat>, elements: set<T>, a: seq<T>, b: seq<T>)
    requires Lists(a, elements) && Lists(b, elements)
    ensures Sum(weights, a) == Sum(weights, b)
    decreases |a|
  {
    if a == [] {
      ListingSize(a, elements);
      ListingSize(b, elements);
    } else {
      var x := a[|a| - 1];
      assert x in b;
      var i :| 0 <= i < |b| && b[i] == x;
      WithoutLists(a, elements, |a| - 1);
      WithoutLists(b, elements, i);
      SumWithout(weights, b, i);
      assert a[..|a| - 1] + a[|a|..] == a[..|a| - 1];
      SumOrderFree(weights, elements - {x}, a[..|a| - 1], b[..i] + b[i + 1..]);
    }
  }

  lemma WithoutLists<T(!new)>(items: seq<T>, elements: set<T>, i: nat)
    requires Lists(items, elements) && i < |items|
    ensures Lists(items[..i] + items[i + 1..], elements - {items[i]})
  {
    var rest := items[..i] + items[i + 1..];
    forall x ensures x in rest <==> x in elements && x != items[i] {
      if x in elements && x != items[i] {
        var j :| 0 <= j < |items| && items[j] == x;
        assert rest[if j < i then j else j - 1] == x;
      }
    }
  }

  lemma {:induction false} SumOfOnes<T>(weights: map<T, nat>, items: seq<T>)
    requires forall x :: x in items ==> x in weights && weights[x] == 1
    ensures Sum(weights, items) == |items|
  {
    if items != [] { SumOfOnes(weights, items[..|items| - 1]); }
  }

  /** `defaultdict(int)` */
  function CountOf(counts: map<nat, nat>, n: nat): nat {
    if n in counts then counts[n] else 0
  }

  lemma {:induction false} SameLength<T(!new)>(a: seq<T>, b: seq<T>)
    requires forall i, j :: 0 <= i < j < |a| ==> a[i] != a[j]
    requires forall i, j :: 0 <= i < j < |b| ==> b[i] != b[j]
    requires forall x :: x in a <==> x in b
    ensures |a| == |b|
  {
    NoDuplicates(a);
    NoDuplicates(b);
    assert (set x | x in a) == (set x | x in b);
  }

  lemma {:induction false} NoDuplicates<T(!new)>(a: seq<T>)
    requires forall i, j :: 0 <= i < j < |a| ==> a[i] != a[j]
    ensures |set x | x in a| == |a|
  {
    if a == [] {
      assert (set x | x in a) == {};
    } else {
      var init, last := a[..|a| - 1], a[|a| - 1];
      NoDuplicates(init);
      assert (set x | x in a) == (set x | x in init) + {last};
    }
  }

  lemma ListingSize<T(!new)>(listing: seq<T>, items: set<T>)
    requires Lists(listing, items)
    ensures |listing| == |items|
  {
    NoDuplicates(listing);
    assert (set x | x in listing) == items;
  }
}
