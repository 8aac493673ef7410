/**
 * The application shell (App.tsx): the product list, the page shown, the
 * selected product, the loading and error state of the first fetch, the
 * merge of the wizard's recommendations into the list, and the choice of
 * what to render.
 */
module App {
  import opened Types
  import opened Seqs

  const LOAD_FAILED_MESSAGE := "Could not load products. Please try again later."
  const FETCH_ERROR_MESSAGE := "An error occurred while fetching products. Please check your API key and try again."

  /** The test `!recommendedIds.has(p.title)`. */
  function TitleNotIn(titles: set<string>): Product -> bool
  {
    (p: Product) => p.title !in titles
  }

  /** A product tagged "Recommended for You". */
  function Tagged(p: Product): Product
  {
    p.(tag := Some(RecommendedForYou))
  }

  /**
   * `handleWizardComplete`'s new list: the recommendations, tagged, followed
   * by the old products whose titles are not among the recommendations.
   */
  function MergeRecommended(recommended: seq<Product>, products: seq<Product>): (r: seq<Product>)
    ensures |recommended| <= |r| <= |recommended| + |products|
  {
    var titles := set p | p in recommended :: p.title;
    seq(|recommended|, i requires 0 <= i < |recommended| => Tagged(recommended[i]))
      + Filter(products, TitleNotIn(titles))
  }

  /**
   * The merged list starts with every recommendation, in order, tagged and
   * otherwise unchanged; after them come exactly the old products whose title
   * no recommendation has, in their old order.
   */
  lemma MergeRecommendedSpec(recommended: seq<Product>, products: seq<Product>)
    ensures var r := MergeRecommended(recommended, products);
      && (forall i :: 0 <= i < |recommended| ==>
            r[i].tag == Some(RecommendedForYou) && r[i].(tag := recommended[i].tag) == recommended[i])
      && (forall p :: p in r[|recommended|..] <==> p in products && p.title !in Titles(recommended))
      && (forall p :: multiset(r[|recommended|..])[p] == if p.title in Titles(recommended) then 0 else multiset(products)[p])
      && IsSubsequence(r[|recommended|..], products)
  {
    var titles := set p | p in recommended :: p.title;
    var r := MergeRecommended(recommended, products);
    var rest := Filter(products, TitleNotIn(titles));
    assert r[|recommended|..] == rest;
    FilterMembers(products, TitleNotIn(titles));
    FilterCount(products, TitleNotIn(titles));
    FilterIsSubsequence(products, TitleNotIn(titles));
    forall t
      ensures t in titles <==> t in Titles(recommended)
    {
      if t in titles {
        var p :| p in recommended && p.title == t;
        var i :| 0 <= i < |recommended| && recommended[i] == p;
        assert Titles(recommended)[i] == t;
      }
      if t in Titles(recommended) {
        var i :| 0 <= i < |recommended| && Titles(recommended)[i] == t;
        assert recommended[i] in recommended;
      }
    }
  }

  /** A recommendation replaces the old product of the same title: no title occurs in both parts. */
  lemma MergeRemovesSameTitle(recommended: seq<Product>, products: seq<Product>, i: nat, j: nat)
    requires i < |recommended| <= j < |MergeRecommended(recommended, products)|
    ensures MergeRecommended(recommended, products)[j].title != MergeRecommended(recommended, products)[i].title
  {
    var r := MergeRecommended(recommended, products);
    MergeRecommendedSpec(recommended, products);
    assert r[j] in r[|recommended|..];
    assert Titles(recommended)[i] == r[i].title;
  }

  /** What the main area renders. */
  datatype View =
    | ErrorScreen(message: string)
    | StoreScreen(skeleton: bool)
    | UsedPartsScreen
    | DetailScreen(product: Product)

  /** `error` is truthy. */
  predicate HasError(error: Option<string>)
  {
    error.Some? && error.value != ""
  }

  /** `renderContent`. */
  function ViewFor(page: Page, products: seq<Product>, selected: Option<Product>,
                   isLoading: bool, error: Option<string>): View
  {
    if HasError(error) && |products| == 0 then ErrorScreen(error.value)
    else
      var store := StoreScreen(isLoading && |products| == 0);
      match page
      case Store => store
      case UsedParts => UsedPartsScreen
      case Detail => if selected.Some? then DetailScreen(selected.value) else store
  }

  /**
   * The error screen appears only with no products; the skeleton only while
   * loading with no products; the detail page only for a selected product on
   * the detail page; a detail page with no selection falls back to the store.
   */
  lemma ViewForSpec(page: Page, products: seq<Product>, selected: Option<Product>,
                    isLoading: bool, error: Option<string>)
    ensures var v := ViewFor(page, products, selected, isLoading, error);
      && (v.ErrorScreen? <==> HasError(error) && |products| == 0)
      && (v.StoreScreen? && v.skeleton ==> isLoading && |products| == 0 && !HasError(error))
      && (v.StoreScreen? ==> (v.skeleton <==> isLoading && |products| == 0))
      && (v.DetailScreen? <==> page == Detail && selected.Some? && !v.ErrorScreen?)
      && (v.DetailScreen? ==> v.product == selected.value)
      && (!v.ErrorScreen? && (page == Store || (page == Detail && selected.None?)) ==> v.StoreScreen?)
      && (|products| > 0 ==> !v.ErrorScreen? && !(v.StoreScreen? && v.skeleton))
  {
  }

  /** The shell's state. */
  class AppState {
    var page: Page
    var products: seq<Product>
    var selected: Option<Product>
    var isLoading: bool
    var error: Option<string>
    var isWizardOpen: bool
    var isIntroComplete: bool

    constructor()
      ensures page == Store && products == [] && selected == None
      ensures isLoading && error == None && !isWizardOpen && !isIntroComplete
    {
      page := Store;
      products := [];
      selected := None;
      isLoading := true;
      error := None;
      isWizardOpen := false;
      isIntroComplete := false;
    }

    /** What is rendered now. */
    function Current(): View
      reads this
    {
      ViewFor(page, products, selected, isLoading, error)
    }

    /** `fetchInitialProducts` up to its `await` (after the intro, or on "Try Again"). */
    method BeginFetch()
      modifies this`isLoading, this`error
      ensures isLoading && error == None
    {
      isLoading := true;
      error := None;
    }

    /** The intro timer fires: the intro is over and the first fetch begins. */
    method CompleteIntro()
      modifies this`isIntroComplete, this`isLoading, this`error
      ensures isIntroComplete && isLoading && error == None
    {
      isIntroComplete := true;
      BeginFetch();
    }

    /**
     * `fetchInitialProducts` after its `await`: a batch replaces the list, a
     * reply without one or a thrown error sets the matching message and keeps
     * the list; loading ends in every case.
     */
    method FinishFetch(reply: Reply)
      modifies this`products, this`isLoading, this`error
      ensures !isLoading
      ensures reply.Batch? ==> products == reply.recommendations && error == old(error)
      ensures reply.NoBatch? ==> products == old(products) && error == Some(LOAD_FAILED_MESSAGE)
      ensures reply.Failed? ==> products == old(products) && error == Some(FETCH_ERROR_MESSAGE)
    {
      if reply.Batch? {
        products := reply.recommendations;
      } else if reply.NoBatch? {
        error := Some(LOAD_FAILED_MESSAGE);
      } else {
        error := Some(FETCH_ERROR_MESSAGE);
      }
      isLoading := false;
    }

    /** `handleNavigate`: going to the store clears the selection. */
    method Navigate(newPage: Page)
      modifies this`page, this`selected
      ensures page == newPage
      ensures selected == if newPage == Store then None else old(selected)
    {
      if newPage == Store {
        selected := None;
      }
      page := newPage;
    }

    /** `handleWizardComplete`: merge the recommendations, close the wizard, show the store. */
    method WizardComplete(recommended: seq<Product>)
      modifies this`products, this`isWizardOpen, this`page
      ensures products == MergeRecommended(recommended, old(products))
      ensures !isWizardOpen && page == Store
    {
      products := MergeRecommended(recommended, products);
      isWizardOpen := false;
      page := Store;
    }

    /** `handleViewDetails`. */
    method ViewDetails(product: Product)
      modifies this`selected, this`page
      ensures selected == Some(product) && page == Detail
      ensures |products| > 0 || !HasError(error) ==> Current() == DetailScreen(product)
    {
      selected := Some(product);
      page := Detail;
      if |products| > 0 || !HasError(error) {
        ViewDetailsShowsProduct(products, product, isLoading, error);
      }
    }

    /** `handleBackToStore`. */
    method BackToStore()
      modifies this`selected, this`page
      ensures selected == None && page == Store
    {
      selected := None;
      page := Store;
    }

    /** The store's "Get a Recommendation" button. */
    method OpenWizard()
      modifies this`isWizardOpen
      ensures isWizardOpen
    {
      isWizardOpen := true;
    }

    /** The wizard's `onClose`. */
    method CloseWizard()
      modifies this`isWizardOpen
      ensures !isWizardOpen
    {
      isWizardOpen := false;
    }
  }

  /** Viewing details shows that product, unless the list is empty after an error. */
  lemma ViewDetailsShowsProduct(products: seq<Product>, product: Product, isLoading: bool, error: Option<string>)
    requires |products| > 0 || !HasError(error)
    ensures ViewFor(Detail, products, Some(product), isLoading, error) == DetailScreen(product)
  {
  }
}
