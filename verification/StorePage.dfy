/**
 * The store page (components/StorePage.tsx): the filter choices offered for
 * the current products, the filtered list, the visible prefix that grows as
 * the user scrolls, and the resets applied when the filter changes.
 */
module StorePage {
  import opened Types
  import opened Seqs

  const ITEMS_PER_LOAD: nat := 6
  const SUBSEQUENT_LOAD: nat := 3

  /**
   * JavaScript's default string order, which `Array.prototype.sort` uses:
   * code unit by code unit, a proper prefix first. (Dafny's `<` on strings
   * means "proper prefix".)
   */
  predicate LexLess(a: string, b: string)
  {
    if a == [] then b != []
    else if b == [] then false
    else if a[0] != b[0] then a[0] < b[0]
    else LexLess(a[1..], b[1..])
  }

  /** The product types in the order `sort()` puts their names. */
  const TYPE_ORDER: seq<ProductType> := [CustomBuild, Laptop, PrebuiltPC]

  predicate HasType(products: seq<Product>, t: ProductType)
  {
    exists i :: 0 <= i < |products| && products[i].productType == t
  }

  /** The test "some product has type `t`". */
  function Present(products: seq<Product>): ProductType -> bool
  {
    t => HasType(products, t)
  }

  /** The sorted distinct product types of `products`. */
  function SortedTypes(products: seq<Product>): seq<ProductType>
  {
    Filter(TYPE_ORDER, Present(products))
  }

  /** The filter choice for each type, in order. */
  function AsFilters(types: seq<ProductType>): (r: seq<FilterType>)
    ensures |r| == |types|
    ensures forall i :: 0 <= i < |types| ==> r[i] == OfType(types[i])
  {
    seq(|types|, i requires 0 <= i < |types| => OfType(types[i]))
  }

  lemma AsFiltersMembers(types: seq<ProductType>)
    ensures All !in AsFilters(types)
    ensures forall t :: OfType(t) in AsFilters(types) <==> t in types
  {
    var r := AsFilters(types);
    forall t
      ensures OfType(t) in r ==> t in types
    {
      if OfType(t) in r {
        var k :| 0 <= k < |r| && r[k] == OfType(t);
        assert types[k] == t;
      }
    }
    forall t
      ensures t in types ==> OfType(t) in r
    {
      if t in types {
        var k :| 0 <= k < |types| && types[k] == t;
        assert r[k] == OfType(t);
      }
    }
  }

  /** `availableFilters`: "All" alone for no products, otherwise "All" and the sorted distinct types. */
  function AvailableFilters(products: seq<Product>): (r: seq<FilterType>)
    ensures |r| >= 1 && r[0] == All
  {
    if |products| == 0 then [All] else [All] + AsFilters(SortedTypes(products))
  }

  /** The names of the offered types are in strictly ascending `sort()` order. */
  predicate StrictlySorted(types: seq<ProductType>)
  {
    forall i, j :: 0 <= i < j < |types| ==> LexLess(TypeName(types[i]), TypeName(types[j]))
  }

  lemma TypeOrderSorted()
    ensures StrictlySorted(TYPE_ORDER)
  {
    assert LexLess(TypeName(CustomBuild), TypeName(Laptop));
    assert LexLess(TypeName(CustomBuild), TypeName(PrebuiltPC));
    assert LexLess(TypeName(Laptop), TypeName(PrebuiltPC));
  }

  /**
   * Every product type present is offered as a filter choice, and no other
   * type is; "All" is always the first choice.
   */
  lemma AvailableFiltersMembers(products: seq<Product>)
    ensures AvailableFilters(products)[0] == All
    ensures forall t :: OfType(t) in AvailableFilters(products) <==> HasType(products, t)
  {
    var r := AvailableFilters(products);
    if |products| > 0 {
      var types := SortedTypes(products);
      FilterMembers(TYPE_ORDER, Present(products));
      AsFiltersMembers(types);
      forall t
        ensures OfType(t) in r <==> HasType(products, t)
      {
        assert t in TYPE_ORDER by {
          assert t == CustomBuild || t == Laptop || t == PrebuiltPC;
        }
        assert OfType(t) in r <==> OfType(t) in AsFilters(types);
      }
    }
  }

  /**
   * After "All", the choices are type filters only, each type once, in
   * ascending name order.
   */
  lemma AvailableFiltersOrder(products: seq<Product>)
    ensures All !in AvailableFilters(products)[1..]
    ensures forall i, j :: 1 <= i < j < |AvailableFilters(products)| ==>
      NameBefore(AvailableFilters(products)[i], AvailableFilters(products)[j])
  {
    var r := AvailableFilters(products);
    if |products| > 0 {
      var types := SortedTypes(products);
      assert r[1..] == AsFilters(types);
      AsFiltersMembers(types);
      SortedTypesSorted(products);
      forall i, j | 1 <= i < j < |r|
        ensures NameBefore(r[i], r[j])
      {
        assert r[i] == OfType(types[i - 1]) && r[j] == OfType(types[j - 1]);
        assert LexLess(TypeName(types[i - 1]), TypeName(types[j - 1]));
      }
    }
  }

  /** Two type filters whose names are in strictly ascending `sort()` order. */
  predicate NameBefore(f: FilterType, g: FilterType)
  {
    f.OfType? && g.OfType? && LexLess(TypeName(f.productType), TypeName(g.productType))
  }

  lemma SortedTypesSorted(products: seq<Product>)
    ensures StrictlySorted(SortedTypes(products))
  {
    SortedTypesPick(products);
    PickSorted(HasType(products, CustomBuild), HasType(products, Laptop), HasType(products, PrebuiltPC));
  }

  /** The types of `TYPE_ORDER` whose flags are set, in that order. */
  function Pick(custom: bool, laptop: bool, prebuilt: bool): seq<ProductType>
  {
    (if custom then [CustomBuild] else []) + (if laptop then [Laptop] else []) + (if prebuilt then [PrebuiltPC] else [])
  }

  lemma SortedTypesPick(products: seq<Product>)
    ensures SortedTypes(products) ==
      Pick(HasType(products, CustomBuild), HasType(products, Laptop), HasType(products, PrebuiltPC))
  {
    assert TYPE_ORDER[1..] == [Laptop, PrebuiltPC];
    assert TYPE_ORDER[1..][1..] == [PrebuiltPC];
  }

  lemma PickSorted(custom: bool, laptop: bool, prebuilt: bool)
    ensures StrictlySorted(Pick(custom, laptop, prebuilt))
  {
    TypeOrderSorted();
  }

  /** The test `product.type === activeFilter` for a type filter. */
  function TypeIs(t: ProductType): Product -> bool
  {
    (p: Product) => p.productType == t
  }

  /** `filteredProducts`. */
  function Filtered(products: seq<Product>, filter: FilterType): seq<Product>
  {
    if filter == All then products else Filter(products, TypeIs(filter.productType))
  }

  /**
   * The filtered products are the products of the selected type, in their
   * original order; "All" keeps every product.
   */
  lemma FilteredSpec(products: seq<Product>, filter: FilterType)
    ensures IsSubsequence(Filtered(products, filter), products)
    ensures filter == All ==> Filtered(products, filter) == products
    ensures filter != All ==>
      forall p :: p in Filtered(products, filter) <==> p in products && p.productType == filter.productType
    ensures filter != All ==>
      forall p :: multiset(Filtered(products, filter))[p] ==
        if p.productType == filter.productType then multiset(products)[p] else 0
  {
    if filter != All {
      FilterIsSubsequence(products, TypeIs(filter.productType));
      FilterMembers(products, TypeIs(filter.productType));
      FilterCount(products, TypeIs(filter.productType));
    } else {
      SubsequenceReflexive(products);
    }
  }

  lemma {:induction false} SubsequenceReflexive<T>(s: seq<T>)
    ensures IsSubsequence(s, s)
  {
    if s != [] {
      SubsequenceReflexive(s[1..]);
    }
  }

  /** `visibleProducts`: the first `visibleCount` filtered products. */
  function Visible(products: seq<Product>, filter: FilterType, visibleCount: nat): (r: seq<Product>)
    ensures r <= Filtered(products, filter)
    ensures |r| == if visibleCount < |Filtered(products, filter)| then visibleCount else |Filtered(products, filter)|
  {
    Take(Filtered(products, filter), visibleCount)
  }

  /** `hasMore`: some filtered products are not yet visible. */
  predicate HasMore(products: seq<Product>, filter: FilterType, visibleCount: nat)
  {
    visibleCount < |Filtered(products, filter)|
  }

  lemma HasMoreMeansHidden(products: seq<Product>, filter: FilterType, visibleCount: nat)
    ensures HasMore(products, filter, visibleCount) <==>
      Visible(products, filter, visibleCount) != Filtered(products, filter)
  {
  }

  /** One load: three more, capped at the filtered count. */
  function LoadStep(visibleCount: nat, total: nat): nat
  {
    if visibleCount + SUBSEQUENT_LOAD < total then visibleCount + SUBSEQUENT_LOAD else total
  }

  /** While more remain, a load shows at least one more and never more than there are. */
  lemma LoadStepProgress(visibleCount: nat, total: nat)
    requires visibleCount < total
    ensures visibleCount < LoadStep(visibleCount, total) <= total
    ensures LoadStep(visibleCount, total) - visibleCount <= SUBSEQUENT_LOAD
  {
  }

  /** The count after `k` loads triggered while more remained. */
  function AfterLoads(visibleCount: nat, total: nat, k: nat): nat
    decreases k
  {
    if k == 0 || visibleCount >= total then visibleCount
    else AfterLoads(LoadStep(visibleCount, total), total, k - 1)
  }

  /** Enough loads show every filtered product, and then no more loads happen. */
  lemma {:induction false} LoadsExhaust(visibleCount: nat, total: nat, k: nat)
    requires visibleCount + SUBSEQUENT_LOAD * k >= total
    ensures AfterLoads(visibleCount, total, k) >= total
    ensures visibleCount <= total ==> AfterLoads(visibleCount, total, k) == total
    decreases k
  {
    if k > 0 && visibleCount < total {
      LoadsExhaust(LoadStep(visibleCount, total), total, k - 1);
    }
  }

  /** The filter kept after a change: itself when offered, otherwise "All". */
  function Settle(products: seq<Product>, filter: FilterType): (r: FilterType)
    ensures r in AvailableFilters(products)
    ensures filter in AvailableFilters(products) ==> r == filter
    ensures filter !in AvailableFilters(products) ==> r == All
  {
    if filter in AvailableFilters(products) then filter else All
  }

  /**
   * The page's state once its effects have settled: the products it was
   * given, the active filter and the number of filtered products shown.
   */
  class StoreView {
    var products: seq<Product>
    var activeFilter: FilterType
    var visibleCount: nat

    /** The active filter is always on offer, and at least a first page is always shown. */
    ghost predicate Valid()
      reads this
    {
      activeFilter in AvailableFilters(products) && visibleCount >= ITEMS_PER_LOAD
    }

    constructor(products: seq<Product>)
      ensures Valid()
      ensures this.products == products && activeFilter == All && visibleCount == ITEMS_PER_LOAD
    {
      this.products := products;
      activeFilter := All;
      visibleCount := ITEMS_PER_LOAD;
    }

    /** The products shown. */
    function Shown(): (r: seq<Product>)
      reads this
      ensures |r| <= |products|
    {
      FilteredSpec(products, activeFilter);
      SubsequenceLength(Filtered(products, activeFilter), products);
      Visible(products, activeFilter, visibleCount)
    }

    /**
     * The user picks a filter: an unknown one falls back to "All", and a
     * change of filter shows the first page again.
     */
    method SelectFilter(filter: FilterType)
      requires Valid()
      modifies this`activeFilter, this`visibleCount
      ensures Valid()
      ensures activeFilter == Settle(products, filter)
      ensures visibleCount == if filter != old(activeFilter) then ITEMS_PER_LOAD else old(visibleCount)
    {
      if filter != activeFilter {
        visibleCount := ITEMS_PER_LOAD;
      }
      activeFilter := Settle(products, filter);
    }

    /**
     * New products arrive: a filter no longer offered becomes "All", and then
     * the first page is shown again; otherwise the count is kept.
     */
    method SetProducts(newProducts: seq<Product>)
      requires Valid()
      modifies this
      ensures Valid()
      ensures products == newProducts
      ensures activeFilter == Settle(newProducts, old(activeFilter))
      ensures visibleCount == if activeFilter != old(activeFilter) then ITEMS_PER_LOAD else old(visibleCount)
    {
      products := newProducts;
      var settled := Settle(newProducts, activeFilter);
      if settled != activeFilter {
        activeFilter := settled;
        visibleCount := ITEMS_PER_LOAD;
      }
    }

    /** The sentinel scrolled into view: load more when more remain. */
    method LoadMore()
      requires Valid()
      modifies this`visibleCount
      ensures Valid()
      ensures old(HasMore(products, activeFilter, visibleCount)) ==>
        visibleCount == LoadStep(old(visibleCount), |Filtered(products, activeFilter)|)
        && old(visibleCount) < visibleCount
      ensures !old(HasMore(products, activeFilter, visibleCount)) ==> visibleCount == old(visibleCount)
    {
      var total := |Filtered(products, activeFilter)|;
      if visibleCount < total {
        LoadStepProgress(visibleCount, total);
        visibleCount := LoadStep(visibleCount, total);
      }
    }
  }

  lemma {:induction false} SubsequenceLength<T>(a: seq<T>, b: seq<T>)
    requires IsSubsequence(a, b)
    ensures |a| <= |b|
  {
    if a != [] && b != [] {
      if a[0] == b[0] {
        SubsequenceLength(a[1..], b[1..]);
      } else {
        SubsequenceLength(a, b[1..]);
      }
    }
  }
}
