/**
 * The product page controller: the category it shows, when it dispatches a
 * page-1 fetch, the "load more" guard, and what it renders for each status.
 */
module ProductPage {
  import opened Wrappers
  import opened JsArray
  import opened Types
  import opened ProductsSlice

  /** `remaining`: how many matching products the server still holds back. */
  function Remaining(count: int, products: seq<Product>): (r: int)
    ensures r == 0 <==> |products| == count
  {
    count - |products|
  }

  /** `curCategory`: the first category whose slug is the route parameter. */
  function CurCategory(categories: seq<Category>, category_ascii: Option<string>): (r: Option<Category>)
    ensures category_ascii.None? ==> r.None?
    ensures category_ascii.Some? ==>
      (r.None? <==> forall i :: 0 <= i < |categories| ==> categories[i].category_ascii != category_ascii.value)
    ensures r.Some? ==> r.value.category_ascii == category_ascii.value
    ensures r.Some? ==> exists i :: 0 <= i < |categories| && categories[i] == r.value &&
                                    forall j :: 0 <= j < i ==> categories[j].category_ascii != category_ascii.value
  {
    if category_ascii.None? then None
    else Find(categories, (c: Category) => c.category_ascii == category_ascii.value)
  }

  /**
   * `handleGetMore`: nothing without a (non-zero) category id; otherwise the
   * next page with the current sort and filters.
   */
  function HandleGetMore(category_id: Option<int>, page: int, sort: SortType, filters: FilterType): Option<Param> {
    if category_id.None? || category_id.value == 0 then None
    else Some(Param(filters, category_id, page + 1, sort, false))
  }

  /** The "load more" block: its greyed-out look and its button's state. */
  datatype LoadMore = LoadMore(disabled: bool, buttonDisabled: bool)

  /** What the page renders: "Category not found", or the listing's parts. */
  datatype PageView =
    | CategoryNotFound
    | Listing(skeletons: bool, noProduct: bool, productList: bool, loadMore: Option<LoadMore>)

  /** The status-based render conditions of the listing. */
  function Render(curCategory: Option<Category>, status: Status, products: seq<Product>, count: int): (v: PageView)
    ensures v.CategoryNotFound? <==> curCategory.None? || curCategory.value.id == 0
    ensures v.Listing? ==> (v.skeletons <==> status == Loading || status == MoreLoading)
    ensures v.Listing? ==> (v.noProduct <==> status != Loading && (|products| == 0 || status == Error))
    ensures v.Listing? ==> !(v.noProduct && v.productList)
    ensures v.Listing? && status != Loading ==> v.noProduct || v.productList
    ensures v.Listing? ==> (v.loadMore.Some? <==> status != Loading && |products| > 0)
    ensures v.Listing? && v.loadMore.Some? ==>
      (v.loadMore.value.disabled <==> Remaining(count, products) == 0) &&
      (v.loadMore.value.buttonDisabled <==> status == MoreLoading)
  {
    if curCategory.None? || curCategory.value.id == 0 then CategoryNotFound
    else
      var notLoading := status != Loading;
      Listing(
        status == Loading || status == MoreLoading,
        notLoading && (|products| == 0 || status == Error),
        notLoading && !(|products| == 0 || status == Error),
        if notLoading && |products| > 0
        then Some(LoadMore(Remaining(count, products) == 0, status == MoreLoading))
        else None)
  }

  /** A failed fetch over a non-empty list shows "no product" and still offers "load more". */
  lemma ErrorShowsNoProductAndLoadMore(cat: Category, products: seq<Product>, count: int)
    requires cat.id != 0 && |products| > 0
    ensures Render(Some(cat), Error, products, count).noProduct
    ensures Render(Some(cat), Error, products, count).loadMore.Some?
  {
  }

  /**
   * The effect's refs. React runs the cleanup registered by the previous run
   * before the next run; a run that returns early registers none.
   */
  class ProductPageState {
    var firstTimeRender: bool
    var prevCat: string
    /** The slug the registered cleanup will record, if a cleanup is registered. */
    var pendingCleanup: Option<string>

    constructor ()
      ensures firstTimeRender && prevCat == "" && pendingCleanup == None
    {
      firstTimeRender := true;
      prevCat := "";
      pendingCleanup := None;
    }

    /** The registered cleanup, if any: the page is no longer on its first render and remembers the outgoing slug. */
    method Cleanup()
      modifies this
      ensures firstTimeRender == (old(firstTimeRender) && old(pendingCleanup).None?)
      ensures prevCat == if old(pendingCleanup).Some? then old(pendingCleanup).value else old(prevCat)
      ensures pendingCleanup == None
    {
      if pendingCleanup.Some? {
        firstTimeRender := false;
        prevCat := pendingCleanup.value;
        pendingCleanup := None;
      }
    }

    /**
     * One run of the fetch effect, after the previous cleanup: nothing without
     * a route slug or a matching category; otherwise a page-1 fetch with the
     * current filters and sort on the first run or when the slug differs from
     * the one the previous cleanup recorded.
     */
    method RunEffect(category_ascii: Option<string>, categories: seq<Category>, filters: FilterType, sort: SortType)
      returns (request: Option<Param>)
      modifies this
      ensures firstTimeRender == (old(firstTimeRender) && old(pendingCleanup).None?)
      ensures prevCat == if old(pendingCleanup).Some? then old(pendingCleanup).value else old(prevCat)
      ensures category_ascii.None? || category_ascii.value == "" || CurCategory(categories, category_ascii).None? ==>
        request.None? && pendingCleanup.None?
      ensures category_ascii.Some? && category_ascii.value != "" && CurCategory(categories, category_ascii).Some? ==>
        && pendingCleanup == category_ascii
        && request == if firstTimeRender || prevCat != category_ascii.value
                      then Some(Param(filters, Some(CurCategory(categories, category_ascii).value.id), 1, sort, false))
                      else None
    {
      Cleanup();
      var curCategory := CurCategory(categories, category_ascii);
      if category_ascii.None? || category_ascii.value == "" || curCategory.None? {
        return None;
      }
      request := None;
      if firstTimeRender || prevCat != category_ascii.value {
        request := Some(Param(filters, Some(curCategory.value.id), 1, sort, false));
      }
      pendingCleanup := category_ascii;
    }
  }

  /**
   * Switching categories refetches from page 1: after showing "phones", a
   * route change to "laptops" dispatches a page-1 fetch for the laptops
   * category with the filters in force, and a re-run for the same slug
   * (the category list reloading) dispatches nothing.
   */
  method SwitchCategory(phones: Category, laptops: Category, filters: FilterType, sort: SortType)
    returns (first: Option<Param>, switched: Option<Param>, rerun: Option<Param>)
    requires phones.category_ascii == "phones" && laptops.category_ascii == "laptops"
    ensures first == Some(Param(filters, Some(phones.id), 1, sort, false))
    ensures switched == Some(Param(filters, Some(laptops.id), 1, sort, false))
    ensures rerun == None
  {
    var page := new ProductPageState();
    var categories := [phones, laptops];
    assert CurCategory(categories, Some("phones")) == Some(phones);
    assert phones.category_ascii != "laptops" by { assert phones.category_ascii[0] != "laptops"[0]; }
    var found := CurCategory(categories, Some("laptops"));
    assert found.Some? by { assert categories[1].category_ascii == "laptops"; }
    assert found.value != phones;
    assert found == Some(laptops);
    first := page.RunEffect(Some("phones"), categories, filters, sort);
    switched := page.RunEffect(Some("laptops"), categories, filters, sort);
    rerun := page.RunEffect(Some("laptops"), categories, filters, sort);
  }

  /**
   * "Load more" round trip: the request `handleGetMore` builds comes back in
   * the payload, so the page number moves up by one, the category id is kept
   * and the new products are appended.
   */
  method LoadMoreAdvancesPage(store: ProductsStore, sort: SortType, filters: FilterType, response: ProductState)
    requires store.category_id.Some? && store.category_id.value != 0
    modifies store
    ensures store.page == old(store.page) + 1
    ensures store.category_id == old(store.category_id)
    ensures store.products == old(store.products) + response.products
    ensures store.status == Successful
  {
    var request := HandleGetMore(store.category_id, store.page, sort, filters);
    store.GetMorePending();
    store.GetMoreFulfilled(Some(Resolved(request.value, response)));
  }
}
