/** The wholesaler's inventory view (src/components/wholesaler/WholesalerInventory.tsx):
    a search and category filter, a sort by one of four keys, the stock cards,
    the category list and the per-product stock status. `localeCompare` is
    modelled by the code-point order `Text.Compare`. */
module WholesalerInventory {

  import opened Types
  import Text
  import Seqs

  // ---------------------------------------------------------------------------
  // The filter.

  /** The name or the sku contains the term, ignoring ASCII case. */
  predicate SearchHit(term: string, p: Product)
  {
    Text.Contains(Text.Lower(p.name), Text.Lower(term)) || Text.Contains(Text.Lower(p.sku), Text.Lower(term))
  }

  function Searched(term: string): Product -> bool
  {
    (p: Product) => SearchHit(term, p)
  }

  function InCategory(category: string): Product -> bool
  {
    (p: Product) => category == "" || p.category == category
  }

  /** The search filter, then the category filter; an empty category means any. */
  function Filtered(products: seq<Product>, term: string, category: string): (r: seq<Product>)
    ensures |r| <= |products|
    ensures forall i :: 0 <= i < |r| ==>
      r[i] in products && SearchHit(term, r[i]) && (category == "" || r[i].category == category)
    ensures forall i :: 0 <= i < |products| && SearchHit(term, products[i]) && (category == "" || products[i].category == category) ==>
      products[i] in r
  {
    var hits := Seqs.Filter(products, Searched(term));
    assert forall i :: 0 <= i < |products| && SearchHit(term, products[i]) ==> products[i] in hits;
    Seqs.Filter(hits, InCategory(category))
  }

  /** Both tests of the view: the term hits the name or sku, and the category
      matches unless it is empty. */
  predicate Matches(term: string, category: string, p: Product)
  {
    SearchHit(term, p) && (category == "" || p.category == category)
  }

  /** The two chained filters are one filter by both tests, so the kept
      products stay in their list order. */
  lemma FilteredIsOneFilter(products: seq<Product>, term: string, category: string)
    ensures Filtered(products, term, category) == Seqs.Filter(products, (p: Product) => Matches(term, category, p))
  {
    Seqs.FilterFilter(products, Searched(term), InCategory(category), (p: Product) => Matches(term, category, p));
  }

  /** An empty search and no category show every product, in order. */
  lemma EmptyFilterShowsAll(products: seq<Product>)
    ensures Filtered(products, "", "") == products
  {
    assert Text.Lower("") == "";
    Seqs.FilterKeepsAll(products, Searched(""));
    Seqs.FilterKeepsAll(products, InCategory(""));
  }

  // ---------------------------------------------------------------------------
  // The sort.

  /** `a` sorts strictly before `b`: the comparator for `key` is negative. Any
      other key compares everything as equal. */
  predicate Precedes(key: string, a: Product, b: Product)
  {
    if key == "name" then Text.Compare(a.name, b.name) < 0
    else if key == "stock" then b.stock - a.stock < 0
    else if key == "category" then Text.Compare(a.category, b.category) < 0
    else if key == "price" then b.price - a.price < 0.0
    else false
  }

  lemma CompareStrict(a: string, b: string, c: string)
    requires Text.Compare(a, b) < 0 && Text.Compare(b, c) < 0
    ensures Text.Compare(a, c) < 0
  {
    Text.CompareTransitive(a, b, c);
    if a == c {
      Text.CompareSwap(a, b);
    }
  }

  /** Every comparator is a strict order. */
  lemma PrecedesTransitive(key: string, a: Product, b: Product, c: Product)
    ensures Precedes(key, a, b) && Precedes(key, b, c) ==> Precedes(key, a, c)
    ensures !Precedes(key, a, a)
  {
    if key == "name" && Precedes(key, a, b) && Precedes(key, b, c) {
      CompareStrict(a.name, b.name, c.name);
    } else if key == "category" && Precedes(key, a, b) && Precedes(key, b, c) {
      CompareStrict(a.category, b.category, c.category);
    }
  }

  /** No later element sorts strictly before an earlier one. */
  ghost predicate Ordered(key: string, s: seq<Product>)
  {
    forall i, j :: 0 <= i < j < |s| ==> !Precedes(key, s[j], s[i])
  }

  /** Puts `x` before the first element it strictly precedes, so it lands after
      every element it ties with. */
  function Insert(key: string, x: Product, s: seq<Product>): (r: seq<Product>)
    ensures multiset(r) == multiset(s) + multiset{x}
  {
    if s == [] then [x]
    else if Precedes(key, x, s[0]) then [x] + s
    else
      assert s == [s[0]] + s[1..];
      [s[0]] + Insert(key, x, s[1..])
  }

  /** A stable insertion sort: each element is inserted, in list order, after
      the ones already placed that it does not strictly precede. */
  function SortBy(key: string, s: seq<Product>): (r: seq<Product>)
    ensures multiset(r) == multiset(s)
  {
    if s == [] then []
    else
      assert s == s[..|s| - 1] + [s[|s| - 1]];
      Insert(key, s[|s| - 1], SortBy(key, s[..|s| - 1]))
  }

  lemma {:induction false} InsertOrdered(key: string, x: Product, s: seq<Product>)
    requires Ordered(key, s)
    ensures Ordered(key, Insert(key, x, s))
    decreases |s|
  {
    if s == [] {
    } else if Precedes(key, x, s[0]) {
      FrontOrdered(key, x, s);
    } else {
      InsertOrdered(key, x, s[1..]);
      BehindOrdered(key, x, s[0], s[1..], Insert(key, x, s[1..]));
    }
  }

  /** `x` placed in front of an ordered list it precedes the head of. */
  lemma FrontOrdered(key: string, x: Product, s: seq<Product>)
    requires Ordered(key, s) && s != [] && Precedes(key, x, s[0])
    ensures Ordered(key, [x] + s)
  {
    var r := [x] + s;
    forall i, j | 0 <= i < j < |r|
      ensures !Precedes(key, r[j], r[i])
    {
      if i == 0 {
        assert r[j] == s[j - 1];
        PrecedesTransitive(key, r[j], x, s[0]);
      } else {
        assert r[i] == s[i - 1] && r[j] == s[j - 1];
      }
    }
  }

  /** A head that neither `x` nor any later element precedes stays in front
      of the ordered insertion into the tail. */
  lemma BehindOrdered(key: string, x: Product, head: Product, tail: seq<Product>, rest: seq<Product>)
    requires Ordered(key, [head] + tail) && Ordered(key, rest) && !Precedes(key, x, head)
    requires multiset(rest) == multiset(tail) + multiset{x}
    ensures Ordered(key, [head] + rest)
  {
    var r := [head] + rest;
    forall i, j | 0 <= i < j < |r|
      ensures !Precedes(key, r[j], r[i])
    {
      if i == 0 {
        assert r[0] == head && r[j] == rest[j - 1];
        assert r[j] in multiset(rest);
        if r[j] != x {
          assert r[j] in multiset(tail);
          var k :| 0 <= k < |tail| && tail[k] == r[j];
          assert ([head] + tail)[0] == head && ([head] + tail)[k + 1] == r[j];
        }
      } else {
        assert r[i] == rest[i - 1] && r[j] == rest[j - 1];
      }
    }
  }

  /** Sorting is a permutation into key order. */
  lemma {:induction false} SortByOrdered(key: string, s: seq<Product>)
    ensures Ordered(key, SortBy(key, s)) && multiset(SortBy(key, s)) == multiset(s)
  {
    if s != [] {
      SortByOrdered(key, s[..|s| - 1]);
      InsertOrdered(key, s[|s| - 1], SortBy(key, s[..|s| - 1]));
    }
  }

  /** Neither sorts strictly before the other: the comparator returns 0. */
  predicate Tied(key: string, a: Product, b: Product)
  {
    !Precedes(key, a, b) && !Precedes(key, b, a)
  }

  function TiedWith(key: string, c: Product): Product -> bool
  {
    (p: Product) => Tied(key, p, c)
  }

  /** Whatever sorts at or after `y0` is not tied with anything that sorts
      strictly before `y0`. */
  lemma NotTiedPast(key: string, x: Product, y0: Product, y: Product, c: Product)
    requires Precedes(key, x, y0) && !Precedes(key, y, y0) && Tied(key, x, c)
    ensures !Tied(key, y, c)
  {
    if key == "name" {
      Text.CompareSwap(x.name, c.name);
      Text.CompareSwap(y.name, y0.name);
      Text.CompareTransitive(x.name, y0.name, y.name);
    } else if key == "category" {
      Text.CompareSwap(x.category, c.category);
      Text.CompareSwap(y.category, y0.category);
      Text.CompareTransitive(x.category, y0.category, y.category);
    }
  }

  /** An element tied with `c` that sorts before the head of an ordered list
      has no tie with `c` left in that list. */
  lemma NoneTied(key: string, x: Product, t: seq<Product>, c: Product)
    requires Ordered(key, t) && t != [] && Precedes(key, x, t[0]) && Tied(key, x, c)
    ensures Seqs.Filter(t, TiedWith(key, c)) == []
  {
    forall i | 0 <= i < |t|
      ensures !Tied(key, t[i], c)
    {
      PrecedesTransitive(key, t[i], t[i], t[i]);
      NotTiedPast(key, x, t[0], t[i], c);
    }
    Seqs.FilterKeepsNone(t, TiedWith(key, c));
  }

  lemma OrderedTail(key: string, t: seq<Product>)
    requires Ordered(key, t) && t != []
    ensures Ordered(key, t[1..])
  {
    forall i, j | 0 <= i < j < |t| - 1
      ensures !Precedes(key, t[1..][j], t[1..][i])
    {
      assert t[1..][i] == t[i + 1] && t[1..][j] == t[j + 1];
    }
  }

  /** Inserting into an ordered list puts `x` after every element it ties with. */
  lemma {:induction false} InsertTies(key: string, x: Product, t: seq<Product>, c: Product)
    requires Ordered(key, t)
    ensures Seqs.Filter(Insert(key, x, t), TiedWith(key, c))
         == Seqs.Filter(t, TiedWith(key, c)) + Seqs.Filter([x], TiedWith(key, c))
    decreases |t|
  {
    if t == [] {
    } else if Precedes(key, x, t[0]) {
      InsertTiesFront(key, x, t, c);
    } else {
      OrderedTail(key, t);
      InsertTies(key, x, t[1..], c);
      InsertTiesBehind(key, x, t, c);
    }
  }

  lemma InsertTiesFront(key: string, x: Product, t: seq<Product>, c: Product)
    requires Ordered(key, t) && t != [] && Precedes(key, x, t[0])
    ensures Seqs.Filter(Insert(key, x, t), TiedWith(key, c))
         == Seqs.Filter(t, TiedWith(key, c)) + Seqs.Filter([x], TiedWith(key, c))
  {
    assert Insert(key, x, t) == [x] + t;
    Seqs.FilterAppend([x], t, TiedWith(key, c));
    if Tied(key, x, c) {
      NoneTied(key, x, t, c);
    }
  }

  lemma InsertTiesBehind(key: string, x: Product, t: seq<Product>, c: Product)
    requires t != [] && !Precedes(key, x, t[0])
    requires Seqs.Filter(Insert(key, x, t[1..]), TiedWith(key, c))
          == Seqs.Filter(t[1..], TiedWith(key, c)) + Seqs.Filter([x], TiedWith(key, c))
    ensures Seqs.Filter(Insert(key, x, t), TiedWith(key, c))
         == Seqs.Filter(t, TiedWith(key, c)) + Seqs.Filter([x], TiedWith(key, c))
  {
    assert Insert(key, x, t) == [t[0]] + Insert(key, x, t[1..]);
    assert t == [t[0]] + t[1..];
    Seqs.FilterConsBoth(t[0], Insert(key, x, t[1..]), t[1..], Seqs.Filter([x], TiedWith(key, c)), TiedWith(key, c));
  }

  /** The sort is stable: the products tied with any `c` come out in their
      input order, as `Array.prototype.sort` keeps them. */
  lemma {:induction false} SortByStable(key: string, s: seq<Product>, c: Product)
    ensures Seqs.Filter(SortBy(key, s), TiedWith(key, c)) == Seqs.Filter(s, TiedWith(key, c))
  {
    if s != [] {
      var init, x := s[..|s| - 1], s[|s| - 1];
      assert s == init + [x];
      SortByStable(key, init, c);
      SortByOrdered(key, init);
      InsertTies(key, x, SortBy(key, init), c);
      Seqs.FilterAppend(init, [x], TiedWith(key, c));
    }
  }

  /** What key order means for each key. */
  lemma OrderedMeans(key: string, s: seq<Product>, i: int, j: int)
    requires Ordered(key, s) && 0 <= i < j < |s|
    ensures key == "stock" ==> s[i].stock >= s[j].stock
    ensures key == "price" ==> s[i].price >= s[j].price
    ensures key == "name" ==> Text.Compare(s[i].name, s[j].name) <= 0
    ensures key == "category" ==> Text.Compare(s[i].category, s[j].category) <= 0
  {
    assert !Precedes(key, s[j], s[i]);
    Text.CompareSwap(s[i].name, s[j].name);
    Text.CompareSwap(s[i].category, s[j].category);
  }

  function IsKey(key: string): bool
  {
    key == "name" || key == "stock" || key == "category" || key == "price"
  }

  /** An unknown key's comparator is always 0, and the sort is stable, so the
      order is left as it was. */
  lemma {:induction false} UnknownKeyKeepsOrder(key: string, s: seq<Product>)
    requires !IsKey(key)
    ensures SortBy(key, s) == s
  {
    if s != [] {
      var init, x := s[..|s| - 1], s[|s| - 1];
      assert s == init + [x];
      UnknownKeyKeepsOrder(key, init);
      UnknownKeyStep(key, init, x);
    }
  }

  lemma UnknownKeyStep(key: string, init: seq<Product>, x: Product)
    requires !IsKey(key) && SortBy(key, init) == init
    ensures SortBy(key, init + [x]) == init + [x]
  {
    assert (init + [x])[..|init + [x]| - 1] == init;
    InsertAtEnd(key, x, init);
  }

  lemma {:induction false} InsertAtEnd(key: string, x: Product, s: seq<Product>)
    requires !IsKey(key)
    ensures Insert(key, x, s) == s + [x]
  {
    if s != [] {
      InsertAtEnd(key, x, s[1..]);
      assert [s[0]] + (s[1..] + [x]) == s + [x];
    }
  }

  /** `filteredProducts`: the filtered products in the chosen order. */
  function Shown(products: seq<Product>, term: string, category: string, key: string): (r: seq<Product>)
    ensures multiset(r) == multiset(Filtered(products, term, category))
    ensures Ordered(key, r)
    ensures !IsKey(key) ==> r == Filtered(products, term, category)
  {
    var kept := Filtered(products, term, category);
    SortByOrdered(key, kept);
    assert !IsKey(key) ==> SortBy(key, kept) == kept by {
      if !IsKey(key) {
        UnknownKeyKeepsOrder(key, kept);
      }
    }
    SortBy(key, kept)
  }

  // ---------------------------------------------------------------------------
  // The cards.

  function LowStock(products: seq<Product>): (r: seq<Product>)
    ensures forall i :: 0 <= i < |r| ==> r[i] in products && r[i].stock <= r[i].minStock
    ensures forall i :: 0 <= i < |products| && products[i].stock <= products[i].minStock ==> products[i] in r
  {
    Seqs.Filter(products, (p: Product) => IsLowStock(p))
  }

  function Stock(p: Product): int { p.stock }

  function StockValue(p: Product): real { p.stock as real * p.price }

  function TotalStock(products: seq<Product>): int { Seqs.SumInt(products, Stock) }

  function TotalValue(products: seq<Product>): real { Seqs.Sum(products, StockValue) }

  /** A new product adds its own stock and its value to the cards. */
  lemma TotalsAppend(products: seq<Product>, p: Product)
    ensures TotalStock(products + [p]) == TotalStock(products) + p.stock
    ensures TotalValue(products + [p]) == TotalValue(products) + p.stock as real * p.price
  {
    Seqs.SumIntAppend(products, [p], Stock);
    Seqs.SumAppend(products, [p], StockValue);
    assert [p][1..] == [];
  }

  /** With no negative stock or price, the total value is not negative. */
  lemma TotalValueNonNegative(products: seq<Product>)
    requires forall i :: 0 <= i < |products| ==> products[i].stock >= 0 && products[i].price >= 0.0
    ensures TotalValue(products) >= 0.0
  {
    Seqs.SumNonNegative(products, StockValue);
  }

  // ---------------------------------------------------------------------------
  // The category list.

  /** `[...new Set(values)]`: each value once, in order of first appearance. */
  function Distinct(values: seq<string>): (r: seq<string>)
    ensures forall i, j :: 0 <= i < j < |r| ==> r[i] != r[j]
    ensures forall v :: v in r <==> v in values
  {
    if values == [] then []
    else
      var front := Distinct(values[..|values| - 1]);
      assert values == values[..|values| - 1] + [values[|values| - 1]];
      if values[|values| - 1] in front then front else front + [values[|values| - 1]]
  }

  function Categories(products: seq<Product>): (r: seq<string>)
    ensures forall i, j :: 0 <= i < j < |r| ==> r[i] != r[j]
    ensures forall i :: 0 <= i < |products| ==> products[i].category in r
    ensures forall c :: c in r ==> exists i :: 0 <= i < |products| && products[i].category == c
  {
    var all := Seqs.Map(products, (p: Product) => p.category);
    assert forall c :: c in all ==> exists i :: 0 <= i < |products| && products[i].category == c;
    Distinct(all)
  }

  // ---------------------------------------------------------------------------
  // The stock status column.

  datatype StockStatus = LowStockStatus | Warning | InStock

  function Status(p: Product): (r: StockStatus)
    ensures r == LowStockStatus <==> p.stock <= p.minStock
    ensures r == Warning <==> p.minStock < p.stock <= p.minStock * 2
    ensures r == InStock <==> p.stock > p.minStock && p.stock > p.minStock * 2
  {
    if p.stock <= p.minStock then LowStockStatus
    else if p.stock <= p.minStock * 2 then Warning
    else InStock
  }

  /** The row's Reorder button. */
  predicate ShowsReorder(p: Product)
  {
    p.stock <= p.minStock
  }

  /** Reorder is shown exactly on the rows whose status is Low Stock, which are
      exactly the products in the low stock card. */
  lemma ReorderIffLow(products: seq<Product>, i: int)
    requires 0 <= i < |products|
    ensures ShowsReorder(products[i]) <==> Status(products[i]) == LowStockStatus
    ensures ShowsReorder(products[i]) <==> products[i] in LowStock(products)
  {
    var r := LowStock(products);
    if products[i] in r {
      var k :| 0 <= k < |r| && r[k] == products[i];
    }
  }
}
