/**
 * The slider image editor. The local list starts out as the very array of
 * image objects the server gave (`useState(initSlider.images)`), so the two
 * lists share objects; images are a class here so that this sharing is part
 * of the model. Gallery choices, the error flag and the diff computed at
 * submit time are modelled; the requests of `submit` are not.
 */
module SliderGroup {
  import opened Wrappers
  import opened JsArray

  /** A slider image object. */
  class SliderImage {
    var image_url: string
    var slider_id: int
    var id: int

    constructor (image_url: string, slider_id: int, id: int)
      ensures this.image_url == image_url && this.slider_id == slider_id && this.id == id
    {
      this.image_url := image_url;
      this.slider_id := slider_id;
      this.id := id;
    }

    /** The image's fields as a value. */
    function View(): ImageView
      reads this
    {
      ImageView(image_url, slider_id, id)
    }
  }

  /** What one image object holds at a given moment. */
  datatype ImageView = ImageView(image_url: string, slider_id: int, id: int)

  /** The fields of a list of image objects, as values. */
  function Views(s: seq<SliderImage>): (r: seq<ImageView>)
    reads s
    ensures |r| == |s| && forall i :: 0 <= i < |s| ==> r[i] == s[i].View()
  {
    seq(|s|, i requires 0 <= i < |s| reads s => s[i].View())
  }

  function Urls(vs: seq<ImageView>): (r: seq<string>)
    ensures |r| == |vs| && forall i :: 0 <= i < |vs| ==> r[i] == vs[i].image_url
  {
    seq(|vs|, i requires 0 <= i < |vs| => vs[i].image_url)
  }

  function Ids(vs: seq<ImageView>): (r: seq<int>)
    ensures |r| == |vs| && forall i :: 0 <= i < |vs| ==> r[i] == vs[i].id
  {
    seq(|vs|, i requires 0 <= i < |vs| => vs[i].id)
  }

  /** The filter test "this image's URL is not among `urls`". */
  function UrlAbsent(urls: seq<string>): ImageView -> bool {
    (v: ImageView) => v.image_url !in urls
  }

  /** The find test "this image's URL is `url`". */
  function UrlIs(url: string): ImageView -> bool {
    (v: ImageView) => v.image_url == url
  }

  /** `find` by URL misses exactly when the URL is not in the list. */
  lemma FindUrl(vs: seq<ImageView>, url: string)
    ensures Find(vs, UrlIs(url)).None? <==> url !in Urls(vs)
  {
    if url in Urls(vs) {
      var i :| 0 <= i < |vs| && Urls(vs)[i] == url;
      assert UrlIs(url)(vs[i]);
    }
  }

  /** The filter test "this image's URL is not `url`". */
  function UrlIsNot(url: string): ImageView -> bool {
    (v: ImageView) => v.image_url != url
  }

  /** The images to create: all local ones when the server list is empty, else those whose URL the server list lacks. */
  function NewImages(local: seq<ImageView>, init: seq<ImageView>): seq<ImageView> {
    if |init| == 0 then local else Filter(local, UrlAbsent(Urls(init)))
  }

  /** The server ids to delete: those of server images whose URL the local list lacks. */
  function RemovedIds(local: seq<ImageView>, init: seq<ImageView>): seq<int> {
    Ids(Filter(init, UrlAbsent(Urls(local))))
  }

  /**
   * The diff in both directions: an image is reported new exactly when its URL
   * is missing from a non-empty server list, and a server id is reported for
   * removal exactly when that image's URL is missing locally.
   */
  lemma TrackingMembership(local: seq<ImageView>, init: seq<ImageView>, v: ImageView)
    ensures v in NewImages(local, init) <==> v in local && v.image_url !in Urls(init)
    ensures v in Filter(init, UrlAbsent(Urls(local))) <==> v in init && v.image_url !in Urls(local)
  {
    if v in local && v.image_url !in Urls(init) {
      var i :| 0 <= i < |local| && local[i] == v;
      assert local[i] in Filter(local, UrlAbsent(Urls(init)));
    }
    if v in init && v.image_url !in Urls(local) {
      var i :| 0 <= i < |init| && init[i] == v;
      assert init[i] in Filter(init, UrlAbsent(Urls(local)));
    }
    if v in NewImages(local, init) {
      var i :| 0 <= i < |NewImages(local, init)| && NewImages(local, init)[i] == v;
    }
    if v in Filter(init, UrlAbsent(Urls(local))) {
      var r := Filter(init, UrlAbsent(Urls(local)));
      var i :| 0 <= i < |r| && r[i] == v;
    }
  }

  /** When the two lists hold the same set of URLs there is nothing to create and nothing to delete. */
  lemma TrackingSameUrls(local: seq<ImageView>, init: seq<ImageView>)
    requires forall u :: u in Urls(local) <==> u in Urls(init)
    ensures NewImages(local, init) == [] && RemovedIds(local, init) == []
  {
    FilterDropsAll(init, UrlAbsent(Urls(local)));
    FilterDropsAll(local, UrlAbsent(Urls(init)));
    assert forall i :: 0 <= i < |local| ==> Urls(local)[i] in Urls(local);
    assert forall i :: 0 <= i < |init| ==> Urls(init)[i] in Urls(init);
  }

  /** Appending a value that is not already there keeps a list duplicate-free. */
  lemma DistinctAppend<T>(s: seq<T>, x: T)
    requires Distinct(s) && x !in s
    ensures Distinct(s + [x])
  {
    var r := s + [x];
    forall i, j | 0 <= i < j < |r| ensures r[i] != r[j] {
      if j == |s| { assert r[i] == s[i]; }
    }
  }

  /** The views of a prefix are the prefix of the views. */
  lemma ViewsPrefix(s: seq<SliderImage>, i: nat)
    requires i <= |s|
    ensures Views(s[..i]) == Views(s)[..i]
  {
  }

  /** The views of one more image are the old views followed by its view. */
  lemma ViewsSnoc(s: seq<SliderImage>, x: SliderImage)
    ensures Views(s + [x]) == Views(s) + [x.View()]
  {
  }

  /** Removing images never brings two of the same URL together: distinct URLs stay distinct under any filter. */
  lemma {:induction false} FilterKeepsUrlsDistinct(vs: seq<ImageView>, p: ImageView -> bool)
    requires Distinct(Urls(vs))
    ensures Distinct(Urls(Filter(vs, p)))
  {
    assert Distinct(vs) by {
      forall i, j | 0 <= i < j < |vs| ensures vs[i] != vs[j] {
        assert Urls(vs)[i] != Urls(vs)[j];
      }
    }
    FilterDistinct(vs, p);
    var r := Filter(vs, p);
    forall i, j | 0 <= i < j < |r| ensures Urls(r)[i] != Urls(r)[j] {
      var a :| 0 <= a < |vs| && vs[a] == r[i];
      var b :| 0 <= b < |vs| && vs[b] == r[j];
      assert a != b;
      assert Urls(vs)[a] != Urls(vs)[b];
    }
  }

  /** Overwriting one slot with a value that is not already there keeps a list duplicate-free. */
  lemma DistinctUpdate<T>(s: seq<T>, k: nat, x: T)
    requires Distinct(s) && k < |s| && x !in s
    ensures Distinct(s[k := x])
  {
    var r := s[k := x];
    forall i, j | 0 <= i < j < |r| ensures r[i] != r[j] {
      if i != k && j != k { assert r[i] == s[i] && r[j] == s[j]; }
      else if i == k { assert r[j] == s[j]; }
      else { assert r[i] == s[i]; }
    }
  }

  /** Which gallery action the modal was opened for. */
  datatype GalleryType = Add | Change

  /** How a gallery choice was handled: rejected with the "Image duplicate" toast, added, changed, or thrown on a missing slot. */
  datatype AddOutcome = DuplicateToast | Added | Changed | MissingSlot

  class SliderGroupState {
    /** `initSlider.images`, the images the server already holds. */
    const initImages: seq<SliderImage>
    var sliderImages: seq<SliderImage>
    var isOpenModal: bool
    var error: bool
    var curIndex: int
    var openGalleryType: GalleryType

    constructor (initImages: seq<SliderImage>)
      ensures this.initImages == initImages && sliderImages == initImages
      ensures !isOpenModal && !error && curIndex == 0 && openGalleryType == Add
    {
      this.initImages := initImages;
      sliderImages := initImages;
      isOpenModal := false;
      error := false;
      curIndex := 0;
      openGalleryType := Add;
    }

    /** `handleOpenModal`: records the action and the slot (`i || 0`) and opens the gallery. */
    method HandleOpenModal(kind: GalleryType, i: Option<int>)
      modifies this`openGalleryType, this`curIndex, this`isOpenModal
      ensures openGalleryType == kind && curIndex == i.GetOr(0) && isOpenModal
    {
      openGalleryType := kind;
      curIndex := if i.Some? then i.value else 0;
      isOpenModal := true;
    }

    /** `checkDuplicate`: some local image already has this URL. */
    function CheckDuplicate(image_url: string): (dup: bool)
      reads this, sliderImages
      ensures dup <==> image_url in Urls(Views(sliderImages))
    {
      FindUrl(Views(sliderImages), image_url);
      Find(Views(sliderImages), UrlIs(image_url)).Some?
    }

    /**
     * `handleAddSliderImage` as the source writes it: the "change" branch
     * assigns `image_url` on the image object itself. When that object also
     * sits in `initSlider.images`, the server-side list changes with it.
     */
    method HandleAddSliderImageAsWritten(imageUrl: string) returns (outcome: AddOutcome)
      modifies this`sliderImages, this`error
      modifies if 0 <= curIndex < |sliderImages| then {sliderImages[curIndex]} else {}
      ensures old(CheckDuplicate(imageUrl)) ==>
        && outcome == DuplicateToast && sliderImages == old(sliderImages) && error == old(error)
        && (0 <= curIndex < |sliderImages| ==> unchanged(sliderImages[curIndex]))
      ensures !old(CheckDuplicate(imageUrl)) && openGalleryType == Add ==>
        && outcome == Added && !error && Views(sliderImages) == old(Views(sliderImages)) + [ImageView(imageUrl, 0, 0)]
        && (0 <= curIndex < old(|sliderImages|) ==> unchanged(old(sliderImages)[curIndex]))
      ensures !old(CheckDuplicate(imageUrl)) && openGalleryType == Change && 0 <= curIndex < old(|sliderImages|) ==>
        var target := old(sliderImages)[curIndex];
        && outcome == Changed && sliderImages == old(sliderImages) && error == old(error)
        && target.image_url == imageUrl && target.slider_id == old(target.slider_id) && target.id == old(target.id)
        && forall k :: 0 <= k < |initImages| ==>
             initImages[k].image_url == if initImages[k] == target then imageUrl else old(initImages[k].image_url)
      ensures !old(CheckDuplicate(imageUrl)) && openGalleryType == Change && !(0 <= curIndex < old(|sliderImages|)) ==>
        outcome == MissingSlot && sliderImages == old(sliderImages) && error == old(error)
    {
      if CheckDuplicate(imageUrl) {
        return DuplicateToast;
      }
      match openGalleryType
      case Add =>
        var added := new SliderImage(imageUrl, 0, 0);
        sliderImages := sliderImages + [added];
        error := false;
        outcome := Added;
      case Change =>
        if !(0 <= curIndex < |sliderImages|) {
          return MissingSlot;
        }
        var newImages := sliderImages;
        newImages[curIndex].image_url := imageUrl;
        sliderImages := newImages;
        outcome := Changed;
    }

    /**
     * `handleAddSliderImage` with the change written as a copy,
     * `{ ...newImages[curIndex], image_url }`: the server-side list is never
     * touched, and the local URLs stay pairwise distinct.
     */
    method HandleAddSliderImage(imageUrl: string) returns (outcome: AddOutcome)
      modifies this`sliderImages, this`error
      ensures Views(initImages) == old(Views(initImages))
      ensures Distinct(old(Urls(Views(sliderImages)))) ==> Distinct(Urls(Views(sliderImages)))
      ensures old(CheckDuplicate(imageUrl)) ==>
        outcome == DuplicateToast && sliderImages == old(sliderImages) && error == old(error)
      ensures !old(CheckDuplicate(imageUrl)) && openGalleryType == Add ==>
        outcome == Added && !error && Views(sliderImages) == old(Views(sliderImages)) + [ImageView(imageUrl, 0, 0)]
      ensures !old(CheckDuplicate(imageUrl)) && openGalleryType == Change && 0 <= curIndex < old(|sliderImages|) ==>
        var was := old(Views(sliderImages))[curIndex];
        && outcome == Changed && error == old(error)
        && Views(sliderImages) == old(Views(sliderImages))[curIndex := was.(image_url := imageUrl)]
      ensures !old(CheckDuplicate(imageUrl)) && openGalleryType == Change && !(0 <= curIndex < old(|sliderImages|)) ==>
        outcome == MissingSlot && sliderImages == old(sliderImages) && error == old(error)
    {
      if CheckDuplicate(imageUrl) {
        return DuplicateToast;
      }
      ghost var urls := Urls(Views(sliderImages));
      match openGalleryType
      case Add =>
        var added := new SliderImage(imageUrl, 0, 0);
        sliderImages := sliderImages + [added];
        error := false;
        outcome := Added;
        assert Urls(Views(sliderImages)) == urls + [imageUrl];
        if Distinct(urls) { DistinctAppend(urls, imageUrl); }
      case Change =>
        if !(0 <= curIndex < |sliderImages|) {
          return MissingSlot;
        }
        var was := sliderImages[curIndex];
        var copy := new SliderImage(imageUrl, was.slider_id, was.id);
        sliderImages := sliderImages[curIndex := copy];
        outcome := Changed;
        assert Urls(Views(sliderImages)) == urls[curIndex := imageUrl];
        if Distinct(urls) { DistinctUpdate(urls, curIndex, imageUrl); }
    }

    /** `handleRemoveSliderImage`: every image with this URL goes, the others keep their order. */
    method HandleRemoveSliderImage(imageUrl: string)
      modifies this`sliderImages
      ensures Views(sliderImages) == Filter(old(Views(sliderImages)), UrlIsNot(imageUrl))
      ensures forall i :: 0 <= i < |sliderImages| ==> sliderImages[i] in old(sliderImages)
      ensures Distinct(Urls(old(Views(sliderImages)))) ==> Distinct(Urls(Views(sliderImages)))
    {
      var images := sliderImages;
      var newImages: seq<SliderImage> := [];
      for i := 0 to |images|
        invariant Views(newImages) == Filter(Views(images[..i]), UrlIsNot(imageUrl))
        invariant forall j :: 0 <= j < |newImages| ==> newImages[j] in images
      {
        var item := images[i];
        ViewsPrefix(images, i);
        ViewsPrefix(images, i + 1);
        FilterSnoc(Views(images), i, UrlIsNot(imageUrl));
        if item.image_url != imageUrl {
          ViewsSnoc(newImages, item);
          newImages := newImages + [item];
        }
      }
      assert images[..|images|] == images;
      sliderImages := newImages;
      ghost var kept := Views(sliderImages);
      assert kept == Filter(old(Views(sliderImages)), UrlIsNot(imageUrl));
      if Distinct(Urls(old(Views(sliderImages)))) {
        FilterKeepsUrlsDistinct(old(Views(sliderImages)), UrlIsNot(imageUrl));
        assert Distinct(Urls(kept));
      }
    }

    /** `validate`: reports an invalid (empty) list and raises the error flag for it. */
    method Validate() returns (invalid: bool)
      modifies this`error
      ensures invalid <==> |sliderImages| == 0
      ensures error == (invalid || old(error))
    {
      if |sliderImages| == 0 {
        error := true;
        return true;
      }
      return false;
    }

    /**
     * `trackingSliderImages`: the images to create and the server ids to
     * delete, from what the two lists hold now.
     */
    method TrackingSliderImages() returns (newSliderImages: seq<ImageView>, removeSliderImages: seq<int>)
      ensures newSliderImages == NewImages(Views(sliderImages), Views(initImages))
      ensures removeSliderImages == RemovedIds(Views(sliderImages), Views(initImages))
    {
      var local := Views(sliderImages);
      var init := Views(initImages);
      newSliderImages := CollectNewImages(local, init);
      removeSliderImages := CollectRemovedIds(local, init);
    }
  }

  /** The first walk of `trackingSliderImages`: local images whose URL `find` misses in the server list. */
  method CollectNewImages(local: seq<ImageView>, init: seq<ImageView>) returns (newSliderImages: seq<ImageView>)
    ensures newSliderImages == NewImages(local, init)
  {
    newSliderImages := [];
    if |init| == 0 {
      newSliderImages := local;
    } else {
      for i := 0 to |local|
        invariant newSliderImages == Filter(local[..i], UrlAbsent(Urls(init)))
      {
        var exist := Find(init, UrlIs(local[i].image_url));
        FindUrl(init, local[i].image_url);
        FilterSnoc(local, i, UrlAbsent(Urls(init)));
        if exist.None? {
          newSliderImages := newSliderImages + [local[i]];
        }
      }
      assert local[..|local|] == local;
    }
  }

  /** The second walk of `trackingSliderImages`: ids of server images whose URL `find` misses locally. */
  method CollectRemovedIds(local: seq<ImageView>, init: seq<ImageView>) returns (removeSliderImages: seq<int>)
    ensures removeSliderImages == RemovedIds(local, init)
  {
    removeSliderImages := [];
    ghost var removed: seq<ImageView> := [];
    if |init| > 0 {
      for i := 0 to |init|
        invariant removed == Filter(init[..i], UrlAbsent(Urls(local)))
        invariant removeSliderImages == Ids(removed)
      {
        var exist := Find(local, UrlIs(init[i].image_url));
        FindUrl(local, init[i].image_url);
        FilterSnoc(init, i, UrlAbsent(Urls(local)));
        if exist.None? {
          removed := removed + [init[i]];
          removeSliderImages := removeSliderImages + [init[i].id];
        }
      }
      assert init[..|init|] == init;
    }
  }
}

/**
 * What becomes of "change" on a slider the server already holds. The slider
 * has one stored image, "a.png" with id 7; the user swaps it for "b.png".
 */
module SliderChange {
  import opened Wrappers
  import opened JsArray
  import opened SliderGroup

  /**
   * As written, the new URL is assigned on the object shared with
   * `initSlider.images`, so both lists read "b.png" and the diff is empty:
   * "b.png" is never created and id 7 is never removed.
   */
  method ChangeLostAsWritten() returns (newSliderImages: seq<ImageView>, removeSliderImages: seq<int>)
    ensures newSliderImages == [] && removeSliderImages == []
  {
    var stored := new SliderImage("a.png", 1, 7);
    var group := new SliderGroupState([stored]);
    group.HandleOpenModal(Change, Some(0));
    assert Urls(Views(group.sliderImages)) == ["a.png"];
    var outcome := group.HandleAddSliderImageAsWritten("b.png");
    assert Views(group.sliderImages) == [ImageView("b.png", 1, 7)] == Views(group.initImages);
    TrackingSameUrls(Views(group.sliderImages), Views(group.initImages));
    newSliderImages, removeSliderImages := group.TrackingSliderImages();
  }

  /**
   * One stored image whose URL changed, against the server's copy: the diff
   * creates the image under its new URL and deletes the stored id.
   */
  lemma OneChangeDiff(was: string, now: string, slider_id: int, id: int)
    requires was != now
    ensures NewImages([ImageView(now, slider_id, id)], [ImageView(was, slider_id, id)]) == [ImageView(now, slider_id, id)]
    ensures RemovedIds([ImageView(now, slider_id, id)], [ImageView(was, slider_id, id)]) == [id]
  {
    var local, init := [ImageView(now, slider_id, id)], [ImageView(was, slider_id, id)];
    assert Urls(init) == [was] && Urls(local) == [now];
    assert Filter(local, UrlAbsent(Urls(init))) == [local[0]] + Filter([], UrlAbsent(Urls(init)));
    assert Filter(init, UrlAbsent(Urls(local))) == [init[0]] + Filter([], UrlAbsent(Urls(local)));
  }

  /**
   * With the change written as a copy, changing a stored image's URL makes
   * the diff report the image under its new URL as new and its id for
   * removal (for "a.png" to "b.png" with id 7: "b.png" and 7). Choosing the
   * URL it already has is refused as a duplicate, and the diff stays empty.
   */
  method ChangeTrackedCorrected(was: string, now: string, slider_id: int, id: int)
    returns (newSliderImages: seq<ImageView>, removeSliderImages: seq<int>)
    ensures was != now ==> newSliderImages == [ImageView(now, slider_id, id)] && removeSliderImages == [id]
    ensures was == now ==> newSliderImages == [] && removeSliderImages == []
  {
    var stored := new SliderImage(was, slider_id, id);
    var group := new SliderGroupState([stored]);
    group.HandleOpenModal(Change, Some(0));
    ghost var before := Views(group.sliderImages);
    assert before == [ImageView(was, slider_id, id)] && Urls(before) == [was];
    var outcome := group.HandleAddSliderImage(now);
    // The two walks of `trackingSliderImages`, on the lists as the submit sees them.
    var local, init := Views(group.sliderImages), Views(group.initImages);
    assert init == before;
    if was != now {
      assert local == [ImageView(now, slider_id, id)];
      OneChangeDiff(was, now, slider_id, id);
    } else {
      assert local == before;
      TrackingSameUrls(local, init);
    }
    newSliderImages := CollectNewImages(local, init);
    removeSliderImages := CollectRemovedIds(local, init);
  }
}
