/**
 * The reference-data guard of `useAppConfig`: when the two effects ask for
 * categories or brands, and how the answers update the app context and the
 * hook's status. A request is represented by its answer.
 */
module AppConfig {
  import opened Wrappers
  import opened Types

  datatype ConfigStatus = Loading | Success | Error

  /** How a request ended: it threw, or it answered with `res.data`. */
  datatype Response<T> = Failed | Answered(data: T)

  class AppConfigState {
    /** The app context's categories and brands-by-category. */
    var categories: seq<Category>
    var brands: map<string, seq<Brand>>
    /** The hook's own state. */
    var status: ConfigStatus
    var ranUseEffect: bool

    /** A fresh mount over the context as it stands. */
    constructor (categories: seq<Category>, brands: map<string, seq<Brand>>)
      ensures this.categories == categories && this.brands == brands
      ensures status == Success && !ranUseEffect
    {
      this.categories := categories;
      this.brands := brands;
      status := Success;
      ranUseEffect := false;
    }

    /**
     * The mount effect: categories are requested only when the context holds
     * none and this mount has not asked yet; `getCategories` then shows `loading`.
     */
    method CategoriesEffect() returns (requested: bool)
      modifies this`ranUseEffect, this`status
      ensures requested <==> |categories| == 0 && !old(ranUseEffect)
      ensures ranUseEffect == (old(ranUseEffect) || requested)
      ensures status == if requested then Loading else old(status)
    {
      if |categories| > 0 {
        return false;
      }
      if !ranUseEffect {
        ranUseEffect := true;
        status := Loading;
        return true;
      }
      return false;
    }

    /** `getCategories` once answered: the data (or `[]`) and `success`, or `error`. */
    method GetCategoriesDone(response: Response<Option<seq<Category>>>)
      modifies this`categories, this`status
      ensures response.Answered? ==> categories == response.data.GetOr([]) && status == Success
      ensures response.Failed? ==> categories == old(categories) && status == Error
    {
      if response.Answered? {
        categories := response.data.GetOr([]);
        status := Success;
      } else {
        status := Error;
      }
    }

    /**
     * The category effect: brands are requested only when the brands map lacks
     * the category's key. `getBrands` throws before asking when the category
     * has no id or no slug; the catch only logs, so the status stays as it was.
     */
    method BrandsEffect(curCategory: Option<Category>) returns (requested: bool)
      modifies this`status
      ensures requested <==>
        curCategory.Some? && curCategory.value.category_ascii !in brands &&
        curCategory.value.id != 0 && curCategory.value.category_ascii != ""
      ensures status == if requested then Loading else old(status)
    {
      if curCategory.None? {
        return false;
      }
      var cat := curCategory.value;
      if cat.category_ascii in brands {
        return false;
      }
      if cat.id == 0 || cat.category_ascii == "" {
        return false;
      }
      status := Loading;
      return true;
    }

    /**
     * `getBrands` once answered: only the category's key of the brands map is
     * set. A failed request is only logged, so the status stays `loading`.
     */
    method GetBrandsDone(cat: Category, response: Response<seq<Brand>>)
      modifies this`brands, this`status
      ensures response.Answered? ==> brands == old(brands)[cat.category_ascii := response.data] && status == Success
      ensures response.Failed? ==> brands == old(brands) && status == old(status)
    {
      if response.Answered? {
        brands := brands[cat.category_ascii := response.data];
        status := Success;
      }
    }
  }

  /** A second run of the mount effect within one mount never asks again. */
  method CategoriesAskedOnce(categories: seq<Category>, brands: map<string, seq<Brand>>) returns (first: bool, second: bool)
    ensures first <==> |categories| == 0
    ensures !second
  {
    var config := new AppConfigState(categories, brands);
    first := config.CategoriesEffect();
    second := config.CategoriesEffect();
  }

  /** A brand request that fails leaves the hook reporting `loading` for good. */
  method BrandFailureStaysLoading(cat: Category) returns (status: ConfigStatus)
    requires cat.id != 0 && cat.category_ascii != ""
    ensures status == Loading
  {
    var config := new AppConfigState([], map[]);
    var requested := config.BrandsEffect(Some(cat));
    config.GetBrandsDone(cat, Failed);
    status := config.status;
  }

  /** A successful brand load leaves every other category's brands as they were. */
  method BrandLoadKeepsOtherKeys(brands: map<string, seq<Brand>>, cat: Category, data: seq<Brand>, other: string)
    returns (after: map<string, seq<Brand>>)
    requires other != cat.category_ascii
    ensures cat.category_ascii in after && after[cat.category_ascii] == data
    ensures other in after <==> other in brands
    ensures other in brands ==> after[other] == brands[other]
  {
    var config := new AppConfigState([], brands);
    var requested := config.BrandsEffect(Some(cat));
    config.GetBrandsDone(cat, Answered(data));
    after := config.brands;
  }
}
