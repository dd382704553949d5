/**
 * The product-list slice of the Redux store: its state, the variant merge,
 * and one method per reducer case. The async thunks are represented by their
 * results: a fulfilled case receives the payload the thunk resolved with.
 */
module ProductsSlice {
  import opened Wrappers
  import opened JsArray
  import opened Types

  datatype Status = Idle | Loading | MoreLoading | Successful | Error

  /** The body of a product-list response. */
  datatype ProductState = ProductState(
    products: seq<Product>,
    count: int,
    pageSize: int,
    variants_data: seq<Variant>)

  /** The filter and sort selections of the filters slice, passed through to the request as they are. */
  datatype FilterType = FilterType(brands: seq<Brand>)
  type SortType = string

  /** The thunks' argument. */
  datatype Param = Param(
    filters: FilterType,
    category_id: Option<int>,
    page: int,
    sort: SortType,
    admin: bool)

  /**
   * What both thunks resolve with: the response together with the request's
   * `category_id`, `page` and `admin` flag (filters and sort are not read back).
   */
  datatype Payload = Payload(
    productState: ProductState,
    category_id: Option<int>,
    page: int,
    admin: bool)

  /** The payload a thunk resolves with, `{ productState: response, ...param, admin }`, for a given response. */
  function Resolved(param: Param, response: ProductState): Payload {
    Payload(response, param.category_id, param.page, param.admin)
  }

  /** The filter test of the merge: a non-default variant of the named product. */
  predicate IsExtraVariantOf(v: Variant, name: string) {
    !v.storage.default && v.product_name_ascii == name
  }

  /** `variants_data.filter(v => !v.default && v.product_name_ascii === name)` */
  function MatchingVariants(variants_data: seq<Variant>, name: string): seq<Variant> {
    Filter(variants_data, v => IsExtraVariantOf(v, name))
  }

  /** The variant records seen through their `ProductStorage` part. */
  function StoragesOf(vs: seq<Variant>): (r: seq<ProductStorage>)
    ensures |r| == |vs| && forall i :: 0 <= i < |vs| ==> r[i] == vs[i].storage
  {
    seq(|vs|, i requires 0 <= i < |vs| => vs[i].storage)
  }

  /** What the merge loop makes of one product. */
  function MergedProduct(p: Product, variants_data: seq<Variant>): Product {
    var filtered := MatchingVariants(variants_data, p.product_name_ascii);
    if |filtered| > 0 then p.(storages_data := Some(StoragesOf(filtered))) else p
  }

  /** The merged list, product by product. */
  function Merged(products: seq<Product>, variants_data: seq<Variant>): (r: seq<Product>)
    ensures |r| == |products|
  {
    seq(|products|, i requires 0 <= i < |products| => MergedProduct(products[i], variants_data))
  }

  /**
   * `mergeVariantToProduct`: copies the list and overwrites, index by index,
   * each product that has non-default variants in the overlay.
   */
  method MergeVariantToProduct(products: seq<Product>, variants_data: seq<Variant>) returns (newProducts: seq<Product>)
    ensures |newProducts| == |products|
    ensures forall i :: 0 <= i < |products| ==> newProducts[i] == MergedProduct(products[i], variants_data)
  {
    newProducts := products;
    for i := 0 to |products|
      invariant |newProducts| == |products|
      invariant forall j :: 0 <= j < i ==> newProducts[j] == MergedProduct(products[j], variants_data)
      invariant forall j :: i <= j < |products| ==> newProducts[j] == products[j]
    {
      var p := products[i];
      var filtered := MatchingVariants(variants_data, p.product_name_ascii);
      if |filtered| > 0 {
        newProducts := newProducts[i := p.(storages_data := Some(StoragesOf(filtered)))];
      }
    }
  }

  /** A product with no non-default variant of its own name in the overlay comes out unchanged. */
  lemma MergedProductUnmatched(p: Product, variants_data: seq<Variant>)
    requires forall i :: 0 <= i < |variants_data| ==> !IsExtraVariantOf(variants_data[i], p.product_name_ascii)
    ensures MergedProduct(p, variants_data) == p
  {
    FilterDropsAll(variants_data, v => IsExtraVariantOf(v, p.product_name_ascii));
  }

  /**
   * A matched product gets as `storages_data` exactly the non-default variants
   * carrying its name, in overlay order; every other field is kept.
   */
  lemma MergedProductMatched(p: Product, variants_data: seq<Variant>, k: nat)
    requires k < |variants_data| && IsExtraVariantOf(variants_data[k], p.product_name_ascii)
    ensures MergedProduct(p, variants_data).storages_data == Some(StoragesOf(MatchingVariants(variants_data, p.product_name_ascii)))
    ensures MergedProduct(p, variants_data).(storages_data := p.storages_data) == p
    ensures variants_data[k] in MatchingVariants(variants_data, p.product_name_ascii)
  {
    assert variants_data[k] in MatchingVariants(variants_data, p.product_name_ascii);
  }

  /** The overlay of a concatenation is the concatenation of the overlays: the merge keeps overlay order. */
  lemma MatchingVariantsAppend(a: seq<Variant>, b: seq<Variant>, name: string)
    ensures MatchingVariants(a + b, name) == MatchingVariants(a, name) + MatchingVariants(b, name)
  {
    FilterAppend(a, b, v => IsExtraVariantOf(v, name));
  }

  /** A product rewritten by the merge carries only non-default storages. */
  lemma MergedStoragesNotDefault(p: Product, variants_data: seq<Variant>)
    requires |MatchingVariants(variants_data, p.product_name_ascii)| > 0
    ensures MergedProduct(p, variants_data).storages_data.Some?
    ensures |MergedProduct(p, variants_data).storages_data.value| > 0
    ensures forall s :: s in MergedProduct(p, variants_data).storages_data.value ==> !s.default
  {
    var filtered := MatchingVariants(variants_data, p.product_name_ascii);
    forall s | s in MergedProduct(p, variants_data).storages_data.value ensures !s.default {
      var i :| 0 <= i < |filtered| && StoragesOf(filtered)[i] == s;
      assert IsExtraVariantOf(filtered[i], p.product_name_ascii);
    }
  }

  /** The Redux state of the slice. */
  class ProductsStore {
    var status: Status
    var products: seq<Product>
    var count: int
    var pageSize: int
    var variants_data: seq<Variant>
    var category_id: Option<int>
    var page: int

    /** `initialState` */
    constructor ()
      ensures status == Idle && products == [] && count == 0 && pageSize == 0
      ensures variants_data == [] && category_id == None && page == 1
    {
      status := Idle;
      products := [];
      count := 0;
      pageSize := 0;
      variants_data := [];
      category_id := None;
      page := 1;
    }

    /** `storingProducts`: appends the given products; nothing else changes. */
    method StoringProducts(payload: seq<Product>)
      modifies this`products
      ensures products == old(products) + payload
    {
      products := products + payload;
    }

    /** `setProducts`: replaces the products; nothing else changes. */
    method SetProducts(payload: seq<Product>)
      modifies this`products
      ensures products == payload
    {
      products := payload;
    }

    /** `fetchProducts.pending` */
    method FetchPending()
      modifies this`status
      ensures status == Loading
    {
      status := Loading;
    }

    /**
     * `fetchProducts.fulfilled`: a fresh page replaces the list, merged with
     * the variant overlay unless the listing is an admin one or the overlay is empty.
     */
    method FetchFulfilled(payload: Option<Payload>)
      modifies this`status, this`page, this`category_id, this`count, this`products
      ensures payload.None? ==> unchanged(this)
      ensures payload.Some? ==>
        var pl := payload.value;
        && status == Successful
        && page == (if pl.page == 0 then 1 else pl.page)
        && category_id == (if pl.category_id.Some? && pl.category_id.value != 0 then pl.category_id else old(category_id))
        && count == pl.productState.count
        && products == (if !pl.admin && |pl.productState.variants_data| > 0
                        then Merged(pl.productState.products, pl.productState.variants_data)
                        else pl.productState.products)
    {
      if payload.None? { return; }
      var pl := payload.value;
      var productState := pl.productState;
      status := Successful;
      page := if pl.page != 0 then pl.page else 1;
      category_id := if pl.category_id.Some? && pl.category_id.value != 0 then pl.category_id else category_id;
      count := productState.count;
      if !pl.admin {
        if |productState.variants_data| > 0 {
          var mergedProducts := MergeVariantToProduct(productState.products, productState.variants_data);
          products := mergedProducts;
          return;
        }
      }
      products := productState.products;
    }

    /** `fetchProducts.rejected`: only the status moves. */
    method FetchRejected()
      modifies this`status
      ensures status == Error
    {
      status := Error;
    }

    /** `getMoreProducts.pending` */
    method GetMorePending()
      modifies this`status
      ensures status == MoreLoading
    {
      status := MoreLoading;
    }

    /**
     * `getMoreProducts.fulfilled`: the next page is appended as it came, with no
     * variant merge, and `category_id` falls back to 0 rather than to the old value.
     */
    method GetMoreFulfilled(payload: Option<Payload>)
      modifies this`status, this`page, this`category_id, this`count, this`products
      ensures payload.None? ==> unchanged(this)
      ensures payload.Some? ==>
        var pl := payload.value;
        && count == pl.productState.count
        && products == old(products) + pl.productState.products
        && status == Successful
        && page == pl.page
        && category_id == Some(if pl.category_id.Some? && pl.category_id.value != 0 then pl.category_id.value else 0)
    {
      if payload.None? { return; }
      var pl := payload.value;
      count := pl.productState.count;
      products := products + pl.productState.products;
      status := Successful;
      page := pl.page;
      category_id := Some(if pl.category_id.Some? && pl.category_id.value != 0 then pl.category_id.value else 0);
    }

    /** `getMoreProducts.rejected`: only the status moves. */
    method GetMoreRejected()
      modifies this`status
      ensures status == Error
    {
      status := Error;
    }
  }
}
