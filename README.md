# React-Shop-TS storefront: a Dafny model of its list and state logic

This project models the deterministic core of a React storefront and admin front end:

- the product-list slice of the Redux store, with its status machine (`idle`, `loading`, `more-loading`, `successful`, `error`) and the merge of variant overlay records into a fetched page;
- the product page that drives the slice;
- the product card's default-variant lookup and link;
- the brand-filter checkbox toggle;
- the slider image editor and the diff it computes for submit;
- the image gallery's size label and local list updates;
- the reference-data guard of `useAppConfig`.

Every server exchange is represented by its outcome, which is passed in as a parameter: a thunk's resolved payload, an upload's returned image, a failed request.

Modules follow the source files:

| module | file | source |
|---|---|---|
| `Wrappers` | wrappers.dfy | `T \| undefined` as `Option<T>` |
| `JsArray` | js_array.dfy | `find`, `filter`, `indexOf` as functions with their contracts |
| `Types` | types.dfy | the entities of `@/types` that the core reads |
| `ProductsSlice` | products_slice.dfy | src/store/productsSlice.ts |
| `ProductItem` | product_item.dfy | src/components/ProductItem/index.tsx |
| `Checkbox` | checkbox.dfy | src/components/Filter/child/Checkbox.tsx |
| `SliderGroup`, `SliderChange` | slider_group.dfy | src/components/ProductConfig/child/SliderGroup.tsx |
| `Gallery` | gallery.dfy | src/components/Gallery/index.tsx |
| `AppConfig` | app_config.dfy | src/hooks/useAppConfig.ts |
| `ProductPage` | product_page.dfy | src/pages/Product/index.tsx |

The model keeps the source's form:

- **In-place state becomes a class.** The store is `ProductsStore`, and each reducer case is a method whose `modifies` clause names exactly the fields the reducer assigns. React component state and refs are classes in the same way.
- **Loops stay methods with invariants.** `mergeVariantToProduct` and the two walks of `trackingSliderImages` are proved equal to specification functions. `formatSize` is proved against the arithmetic it computes: `mb·1024 + rest = size` with `0 < rest ≤ 1024`.
- **Pure helpers stay functions.** `find`, `filter`, `findActiveVar`, `curCategory` and the render conditions are functions.

Slider images are a class. `useState(initSlider.images)` makes the local list share its objects with the server's list, and that sharing matters (see Findings).

The card finds no default storage on a merged product. The variant merge keeps only non-default variants. `findActiveVar` therefore returns `undefined` for every product the merge rewrote. Its price line then reads `base_price` through an undefined `activeVar` (`ProductItem.MergedProductHasNoActiveVar`). This is stated as a proved fact and not as a finding, because the source does not show which side was meant to change.

Where the code and its design description differ, the model follows the code:

- `getMoreProducts.fulfilled` also overwrites `count`.
- The brand guard asks again only for a missing key, not for an empty list. The source's `!brands[key]` also fires for a key holding a falsy value; the model's map holds only brand lists, so it has no such value.
- A failed brand request leaves the hook at `loading`.
- Toggling a brand twice restores the selection only when the brand was absent. A selected brand comes back at the end (`Checkbox.ToggleTwicePresent`). A selection holding duplicates loses them: `[1, 1]` toggled twice with `1` becomes `[]` (`Checkbox.ToggleTwiceDuplicate`).

## Model

| member | source | states |
|---|---|---|
| `ProductsSlice.ProductsStore.constructor` | src/store/productsSlice.ts:22-32 | initial state: `idle`, no products, count 0, pageSize 0, no variants, page 1, no category_id |
| `ProductsSlice.MergeVariantToProduct` | src/store/productsSlice.ts:99-118 | returns a list of the same length whose i-th product is the merge of the i-th input product |
| `ProductsSlice.MergedProductUnmatched` | src/store/productsSlice.ts:103-115 | a product with no non-default variant of its name comes out unchanged |
| `ProductsSlice.MergedProductMatched` | src/store/productsSlice.ts:107-113 | a matched product's storages become exactly the filtered variants; all other fields are kept; every qualifying variant is included |
| `ProductsSlice.MatchingVariantsAppend` | src/store/productsSlice.ts:107-109 | the filtered variants keep overlay order (the filter distributes over concatenation) |
| `ProductsSlice.MergedStoragesNotDefault` | src/store/productsSlice.ts:107-112 | a product with at least one matching non-default variant in the overlay gets a non-empty storage list with no default storage |
| `ProductsSlice.ProductsStore.StoringProducts` | src/store/productsSlice.ts:128-131 | appends the payload; no other field changes |
| `ProductsSlice.ProductsStore.SetProducts` | src/store/productsSlice.ts:132-135 | replaces the products; no other field changes |
| `ProductsSlice.ProductsStore.FetchPending` | src/store/productsSlice.ts:140-142 | status becomes `loading`, nothing else changes |
| `ProductsSlice.ProductsStore.FetchFulfilled` | src/store/productsSlice.ts:143-165 | null payload changes nothing; otherwise `successful`, page or 1, category_id kept when the payload's is 0 or missing, count from the response, products replaced by the merged list only for a non-admin payload with variants |
| `ProductsSlice.ProductsStore.FetchRejected` | src/store/productsSlice.ts:166-170 | status becomes `error`; products, count, page and category_id untouched |
| `ProductsSlice.ProductsStore.GetMorePending` | src/store/productsSlice.ts:173-175 | status becomes `more-loading` |
| `ProductsSlice.ProductsStore.GetMoreFulfilled` | src/store/productsSlice.ts:176-187 | null payload changes nothing; otherwise old products followed by the page unmerged, `successful`, the payload page, category_id or 0, count from the response |
| `ProductsSlice.ProductsStore.GetMoreRejected` | src/store/productsSlice.ts:188-190 | status becomes `error`, nothing else changes |
| `ProductItem.FindActiveVar` | src/components/ProductItem/index.tsx:16-19 | undefined without storages; otherwise the first storage marked default, undefined exactly when none is |
| `ProductItem.ProductCard.constructor` | src/components/ProductItem/index.tsx:22 | the card keeps its product and starts with `findActiveVar` of its storages as the active storage |
| `ProductItem.Link` | src/components/ProductItem/index.tsx:36 | when neither slug holds `/` or `?`, parsing the link gives back the category slug, the product slug and the active storage slug (empty without one) |
| `ProductItem.InitialPriceLine` | src/components/ProductItem/index.tsx:50-84 | before any click, the card's price line fails to render exactly when the product has storages and none is marked default; a price it shows is the base price of the first default storage |
| `ProductItem.FirstPriceIsDefault` | src/components/ProductItem/index.tsx:50-84 | with a default storage the card starts on it and shows a price |
| `ProductItem.MergedProductHasNoActiveVar` | src/components/ProductItem/index.tsx:16-19 | a product with at least one matching non-default variant in the overlay has, once merged, no active storage, an empty link query, and a price line that dereferences undefined |
| `ProductItem.MergedListActiveVars` | src/components/ProductItem/index.tsx:22 | on a merged page, a card whose product has matching non-default variants starts with no active storage; every other card shows its product exactly as fetched |
| `ProductItem.ProductCard.SelectVariant` | src/components/ProductItem/index.tsx:57 | a click makes that storage the active one |
| `Checkbox.HandleToggle` | src/components/Filter/child/Checkbox.tsx:20-32 | an undefined value empties the selection; an absent value is appended; a present one is removed at its first index; on a duplicate-free selection the result is duplicate-free and membership flips |
| `Checkbox.ToggleTwiceRestores` | src/components/Filter/child/Checkbox.tsx:25-28 | toggling an absent value twice restores the selection exactly |
| `Checkbox.ToggleTwicePresent` | src/components/Filter/child/Checkbox.tsx:25-28 | toggling a brand selected once, twice, leaves the other brands in order followed by it; on a duplicate-free selection the result has the same brands, stays duplicate-free, and ends with it |
| `Checkbox.ToggleTwiceDuplicate` | src/components/Filter/child/Checkbox.tsx:25-28 | a selection holding a brand twice is not restored: `[b, b]` toggled twice with `b` is empty |
| `SliderGroup.SliderGroupState.constructor` | src/components/ProductConfig/child/SliderGroup.tsx:29-33 | the local list starts as the server's list of image objects; no modal, no error, slot 0, "add" |
| `SliderGroup.SliderGroupState.HandleOpenModal` | src/components/ProductConfig/child/SliderGroup.tsx:39-43 | records the action and the slot `i \|\| 0`, opens the gallery |
| `SliderGroup.SliderGroupState.CheckDuplicate` | src/components/ProductConfig/child/SliderGroup.tsx:44-46 | true exactly when some local image has the URL |
| `SliderGroup.SliderGroupState.HandleAddSliderImageAsWritten` | src/components/ProductConfig/child/SliderGroup.tsx:48-63 | duplicate: toast, nothing changes; add: appends `{url, 0, 0}` and clears the error; change: writes the URL into the shared object, so the server's list sees it too; missing slot: throws, nothing changes |
| `SliderGroup.SliderGroupState.HandleAddSliderImage` | src/components/ProductConfig/child/SliderGroup.tsx:48-63 | same cases with the change written as a copy: only the slot's URL changes, the server's list is untouched, and local URLs stay pairwise distinct |
| `SliderGroup.SliderGroupState.HandleRemoveSliderImage` | src/components/ProductConfig/child/SliderGroup.tsx:65-68 | every image with the URL goes; the others stay in order; URLs that were pairwise distinct stay so |
| `SliderGroup.FilterKeepsUrlsDistinct` | src/components/ProductConfig/child/SliderGroup.tsx:65-68 | removing images by any test keeps pairwise distinct URLs distinct |
| `SliderGroup.SliderGroupState.TrackingSliderImages` | src/components/ProductConfig/child/SliderGroup.tsx:70-89 | returns the new images and the removed ids as the two specification filters of the current lists |
| `SliderGroup.CollectNewImages` | src/components/ProductConfig/child/SliderGroup.tsx:71-77 | the local images whose URL the server list lacks, in order, or all of them when that list is empty |
| `SliderGroup.CollectRemovedIds` | src/components/ProductConfig/child/SliderGroup.tsx:79-86 | the ids of server images whose URL the local list lacks, in order |
| `SliderGroup.TrackingMembership` | src/components/ProductConfig/child/SliderGroup.tsx:70-89 | for any server list, empty or not: an image is new iff it is local and its URL is missing from the server list; a server image is removed iff its URL is missing locally |
| `SliderGroup.TrackingSameUrls` | src/components/ProductConfig/child/SliderGroup.tsx:70-89 | equal URL sets give an empty diff both ways |
| `SliderGroup.SliderGroupState.Validate` | src/components/ProductConfig/child/SliderGroup.tsx:91-96 | invalid exactly when the list is empty, and then the error flag is raised |
| `SliderChange.ChangeLostAsWritten` | src/components/ProductConfig/child/SliderGroup.tsx:58-61 | as written, changing a stored image yields an empty diff |
| `SliderChange.ChangeTrackedCorrected` | src/components/ProductConfig/child/SliderGroup.tsx:70-89 | for any stored image and any new URL, with a copying change the diff reports the image under the new URL as new and its id for removal; choosing the URL it already has is a duplicate and leaves the diff empty |
| `SliderChange.OneChangeDiff` | src/components/ProductConfig/child/SliderGroup.tsx:70-89 | one image whose URL differs from its server copy's gives exactly that image as new and exactly its id as removed |
| `Gallery.FormatSize` | src/components/Gallery/index.tsx:31-42 | below 1024: the size in Kb; otherwise mb·1024 + rest = size with 0 < rest ≤ 1024, rest = 1024 exactly for multiples of 1024 |
| `Gallery.FormatSize1024` | src/components/Gallery/index.tsx:36 | 1024 is shown as 0 Mb and 1024 |
| `Gallery.WithoutPathSpec` | src/components/Gallery/index.tsx:88 | no image with the deleted path remains, every other stays, order kept |
| `Gallery.GalleryState.constructor` | src/components/Gallery/index.tsx:21-25 | no images, no active image, status `loading`, `apiLoading` false |
| `Gallery.GalleryState.SetActive` | src/components/Gallery/index.tsx:159 | a click on an image makes it the active one |
| `Gallery.GalleryState.GetImagesDone` | src/components/Gallery/index.tsx:101-112 | images and `success` from the response, or `error` |
| `Gallery.GalleryState.HandleChoose` | src/components/Gallery/index.tsx:44-50 | nothing without an active image; otherwise its URL is handed on and the modal closes |
| `Gallery.GalleryState.HandleUploadImages` | src/components/Gallery/index.tsx:52-77 | a returned image is put first, otherwise the list is unchanged; `apiLoading` ends false |
| `Gallery.GalleryState.HandleDeleteImage` | src/components/Gallery/index.tsx:79-99 | no-op without an active image or path; after a delete the images with that path are filtered out; `apiLoading` ends false on every path |
| `AppConfig.AppConfigState.constructor` | src/hooks/useAppConfig.ts:14-17 | status starts `success`, the once-per-mount flag unset |
| `AppConfig.AppConfigState.CategoriesEffect` | src/hooks/useAppConfig.ts:52-58 | categories requested iff none are held and this mount has not asked; the flag is then set and status is `loading` |
| `AppConfig.AppConfigState.GetCategoriesDone` | src/hooks/useAppConfig.ts:38-50 | success sets the data or `[]` and `success`; failure sets `error` |
| `AppConfig.AppConfigState.BrandsEffect` | src/hooks/useAppConfig.ts:60-65 | the effect's guards (`curCategory === undefined`, `!brands[key]`) and the id/slug check at the start of `getBrands` (src/hooks/useAppConfig.ts:22-25): brands requested iff a category is given, its key is missing, and it has an id and a slug; status then `loading`, otherwise unchanged |
| `AppConfig.AppConfigState.GetBrandsDone` | src/hooks/useAppConfig.ts:26-35 | success sets only the category's key and `success`; failure changes nothing |
| `AppConfig.CategoriesAskedOnce` | src/hooks/useAppConfig.ts:52-58 | a second run of the mount effect never asks again |
| `AppConfig.BrandFailureStaysLoading` | src/hooks/useAppConfig.ts:25-35 | a failed brand request leaves status `loading` |
| `AppConfig.BrandLoadKeepsOtherKeys` | src/hooks/useAppConfig.ts:29 | a brand load sets the category's key and leaves every other key as it was |
| `ProductPage.Remaining` | src/pages/Product/index.tsx:40 | remaining is zero exactly when the list holds `count` products |
| `ProductPage.CurCategory` | src/pages/Product/index.tsx:42-45 | the first category whose slug is the route parameter, none without a parameter or a match |
| `ProductPage.Render` | src/pages/Product/index.tsx:87-116 | "category not found" without a category id; skeletons while loading; "no product" and the list are exclusive; load-more only when not loading with products, disabled at remaining 0, button disabled while loading more |
| `ProductPage.ErrorShowsNoProductAndLoadMore` | src/pages/Product/index.tsx:106-116 | an error over a non-empty list shows "no product" together with load-more |
| `ProductPage.ProductPageState.constructor` | src/pages/Product/index.tsx:35-36 | the first-render ref starts true and the previous-slug ref empty, with no cleanup registered |
| `ProductPage.ProductPageState.Cleanup` | src/pages/Product/index.tsx:79-82 | a registered cleanup ends the first render and records the outgoing slug |
| `ProductPage.ProductPageState.RunEffect` | src/pages/Product/index.tsx:72-83 | nothing without a slug or a matching category; otherwise a page-1 fetch on the first run or when the slug differs from the recorded one, and a cleanup is registered |
| `ProductPage.SwitchCategory` | src/pages/Product/index.tsx:72-83 | switching from "phones" to "laptops" refetches page 1 for laptops with the filters in force; a re-run on the same slug does not |
| `ProductPage.LoadMoreAdvancesPage` | src/pages/Product/index.tsx:48-51 | load more with a non-zero category id (its request built as in `handleGetMore`, its payload echoing the request as in src/store/productsSlice.ts:96, handled as in src/store/productsSlice.ts:176-187) moves the page up by one, keeps the category id, appends the new products and ends `successful` |

## Left out

- The thunk bodies and every HTTP request, with their `AbortController`s and development-mode sleeps. A request is its answer, passed to the method that handles it.
- Overlapping requests and the order in which their answers arrive. The model runs handlers one at a time. The source has no guard against a stale answer, and the model neither shows the race nor adds a guard.
- `SliderGroup.submit`: it is all requests, and its removal branch is empty.
- `Types.Variant`: the merged storages are the variant records themselves, which also carry `product_name_ascii`. The model keeps only their `ProductStorage` part.
- `Checkbox.HandleToggle`: `indexOf` compares brand objects by reference. The model compares by the element type's equality.
- `ProductsSlice.ProductsStore.FetchFulfilled`: the model does not show `count || 0` falling back for a missing or `NaN` count. Counts, pages and ids are integers here, so zero is the only falsy number.
- `ProductsSlice.ProductsStore.GetMoreFulfilled`: the same holds for its `count || 0` (src/store/productsSlice.ts:181).
- `Gallery.FormatSize`: the model does not build the string. It returns the numbers and the unit, and sizes are integers.
- `ProductPage.Remaining`: the model does not show that `useMemo` leaves `count` out of its dependencies. The value is recomputed from the current count and products.
- Rendering, styling, toasts as widgets, `moneyFormat` and routing. A toast is an outcome value.
- Brand and Banner pages, the header's token decoding, and the count label. These are not part of this model.

## Findings

| source | as written | input that shows it | evidently intended | confidence | as-written member | corrected member |
|---|---|---|---|---|---|---|
| src/components/ProductConfig/child/SliderGroup.tsx:58-61 | "change" assigns `image_url` on an image object that is shared with `initSlider.images`, so the server list changes too and `trackingSliderImages` sees no difference | a stored slider with one image "a.png" (id 7), changed to "b.png" | the diff reports "b.png" as new and id 7 for removal, with the server list untouched | medium, not executed | `SliderChange.ChangeLostAsWritten` | `SliderGroup.SliderGroupState.HandleAddSliderImage` |
