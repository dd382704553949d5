/**
 * The product card: which storage starts out active, the link the card points
 * to, and which price line it renders.
 */
module ProductItem {
  import opened Wrappers
  import opened JsArray
  import opened Types
  import opened ProductsSlice

  /** `findActiveVar`: the first storage marked `default`, or undefined. */
  function FindActiveVar(storages: Option<seq<ProductStorage>>): (r: Option<ProductStorage>)
    ensures storages.None? ==> r.None?
    ensures storages.Some? ==> (r.None? <==> forall i :: 0 <= i < |storages.value| ==> !storages.value[i].default)
    ensures r.Some? ==> r.value.default
    ensures r.Some? ==> exists i :: 0 <= i < |storages.value| && storages.value[i] == r.value &&
                                    forall j :: 0 <= j < i ==> !storages.value[j].default
  {
    if storages.None? then None else Find(storages.value, (v: ProductStorage) => v.default)
  }

  /** The query part of the link: the active storage's slug, or nothing. */
  function Query(activeVar: Option<ProductStorage>): string {
    if activeVar.Some? then activeVar.value.storage_ascii else ""
  }

  /**
   * The link target, `/<category>/<product>?<storage>`. It takes the card apart
   * again: when the two slugs contain neither `/` nor `?`, parsing the link
   * gives back the category slug, the product slug and the active storage's slug.
   */
  function Link(data: Product, activeVar: Option<ProductStorage>): (r: string)
    ensures '/' !in data.category_name_ascii && '?' !in data.category_name_ascii &&
            '/' !in data.product_name_ascii && '?' !in data.product_name_ascii ==>
              ParseLink(r) == Some((data.category_name_ascii, data.product_name_ascii, Query(activeVar)))
  {
    var r := "/" + data.category_name_ascii + "/" + data.product_name_ascii + "?" + Query(activeVar);
    if '/' !in data.category_name_ascii && '?' !in data.category_name_ascii &&
       '/' !in data.product_name_ascii && '?' !in data.product_name_ascii
    then
      ParseLinkParts(data.category_name_ascii, data.product_name_ascii, Query(activeVar));
      r
    else r
  }

  /** Splits a link of the form `/<a>/<b>?<c>` at the first `/` after the leading one and the first `?`. */
  function ParseLink(link: string): Option<(string, string, string)> {
    if |link| == 0 || link[0] != '/' then None
    else
      var rest := link[1..];
      var slash := IndexOf(rest, '/');
      if slash < 0 then None
      else
        var tail := rest[slash + 1..];
        var question := IndexOf(tail, '?');
        if question < 0 then None
        else Some((rest[..slash], tail[..question], tail[question + 1..]))
  }

  /** The first occurrence of `c` in `a + [c] + b` is right after `a` when `a` does not contain `c`. */
  lemma IndexOfAfterPrefix(a: string, c: char, b: string)
    requires c !in a
    ensures IndexOf(a + [c] + b, c) == |a|
  {
    var s := a + [c] + b;
    assert s[|a|] == c;
    assert s[..|a|] == a;
  }

  /** Parsing inverts building: the three parts come back when the first two hold neither separator. */
  lemma ParseLinkParts(c: string, n: string, q: string)
    requires '/' !in c && '?' !in c && '/' !in n && '?' !in n
    ensures ParseLink("/" + c + "/" + n + "?" + q) == Some((c, n, q))
  {
    var link := "/" + c + "/" + n + "?" + q;
    var rest := link[1..];
    assert rest == c + ['/'] + (n + "?" + q);
    IndexOfAfterPrefix(c, '/', n + "?" + q);
    var tail := rest[|c| + 1..];
    assert rest[..|c|] == c;
    assert tail == n + ['?'] + q;
    IndexOfAfterPrefix(n, '?', q);
    assert tail[..|n|] == n;
    assert tail[|n| + 1..] == q;
  }

  /** What the price line shows; `activeVar!.base_price` on an undefined `activeVar` throws. */
  datatype PriceLine = Contact | Price(amount: int) | RenderError

  /** The price line: "Contact" without storages, otherwise the active storage's price. */
  function PriceShown(data: Product, activeVar: Option<ProductStorage>): PriceLine {
    if data.storages_data.None? then Contact
    else if activeVar.None? then RenderError
    else Price(activeVar.value.base_price)
  }

  /**
   * The price line a card renders before any click: the render fails exactly
   * when the product has storages and none of them is marked default;
   * otherwise a shown price is that of the first default storage.
   */
  lemma InitialPriceLine(data: Product)
    ensures PriceShown(data, FindActiveVar(data.storages_data)) == RenderError <==>
              data.storages_data.Some? &&
              forall i :: 0 <= i < |data.storages_data.value| ==> !data.storages_data.value[i].default
    ensures PriceShown(data, FindActiveVar(data.storages_data)).Price? ==>
              var s, amount := data.storages_data.value, PriceShown(data, FindActiveVar(data.storages_data)).amount;
              exists i :: 0 <= i < |s| && s[i].default && s[i].base_price == amount &&
                          forall j :: 0 <= j < i ==> !s[j].default
  {
  }

  /** A card whose storages include a default one first shows that default storage's price. */
  lemma FirstPriceIsDefault(data: Product)
    requires data.storages_data.Some?
    requires exists i :: 0 <= i < |data.storages_data.value| && data.storages_data.value[i].default
    ensures PriceShown(data, FindActiveVar(data.storages_data)).Price?
    ensures FindActiveVar(data.storages_data).value.default
  {
  }

  /**
   * A product rewritten by the variant merge has no default storage left, so
   * its card starts with no active storage, links with an empty query, and
   * renders the price line through an undefined `activeVar`.
   */
  lemma MergedProductHasNoActiveVar(p: Product, variants_data: seq<Variant>)
    requires |MatchingVariants(variants_data, p.product_name_ascii)| > 0
    ensures FindActiveVar(MergedProduct(p, variants_data).storages_data) == None
    ensures Query(FindActiveVar(MergedProduct(p, variants_data).storages_data)) == ""
    ensures PriceShown(MergedProduct(p, variants_data), FindActiveVar(MergedProduct(p, variants_data).storages_data)) == RenderError
  {
    MergedStoragesNotDefault(p, variants_data);
    var s := MergedProduct(p, variants_data).storages_data.value;
    assert forall i :: 0 <= i < |s| ==> !s[i].default by {
      forall i | 0 <= i < |s| ensures !s[i].default { assert s[i] in s; }
    }
  }

  /**
   * Over a whole fetched page: a card whose product has non-default variants in
   * the overlay has no active storage; every other card shows the product as fetched.
   */
  lemma MergedListActiveVars(products: seq<Product>, variants_data: seq<Variant>, i: nat)
    requires i < |products|
    ensures |MatchingVariants(variants_data, products[i].product_name_ascii)| > 0 ==>
              FindActiveVar(Merged(products, variants_data)[i].storages_data) == None
    ensures |MatchingVariants(variants_data, products[i].product_name_ascii)| == 0 ==>
              Merged(products, variants_data)[i] == products[i]
  {
    if |MatchingVariants(variants_data, products[i].product_name_ascii)| > 0 {
      MergedProductHasNoActiveVar(products[i], variants_data);
    }
  }

  /** The card's one piece of state: the active storage, replaced wholesale on a click. */
  class ProductCard {
    const data: Product
    var activeVar: Option<ProductStorage>

    constructor (data: Product)
      ensures this.data == data && activeVar == FindActiveVar(data.storages_data)
    {
      this.data := data;
      activeVar := FindActiveVar(data.storages_data);
    }

    /** A click on a storage makes it the active one. */
    method SelectVariant(v: ProductStorage)
      modifies this`activeVar
      ensures activeVar == Some(v)
    {
      activeVar := Some(v);
    }
  }
}
