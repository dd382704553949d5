/**
 * The image gallery: the size label, choosing an image, and the local image
 * list after an upload or a delete has answered. Requests are represented by
 * their outcome.
 */
module Gallery {
  import opened Wrappers
  import opened JsArray
  import opened Types

  /** What `formatSize` shows: `<size>Kb`, or `<mb>,<rest>Mb`. */
  datatype SizeLabel = InKb(size: int) | InMb(mb: int, rest: int)

  /**
   * `formatSize`: below 1024 the size is shown as is; otherwise 1024 is taken
   * off while what is left exceeds 1024, counting the steps. The remainder
   * therefore lands in (0, 1024], so an exact multiple shows a full 1024.
   */
  method FormatSize(size: int) returns (shown: SizeLabel)
    ensures size < 1024 ==> shown == InKb(size)
    ensures size >= 1024 ==> shown.InMb? && shown.mb * 1024 + shown.rest == size && 0 < shown.rest <= 1024
    ensures size >= 1024 ==> (shown.rest == 1024 <==> size % 1024 == 0)
  {
    if size < 1024 {
      return InKb(size);
    }
    var mb := 0;
    var rest := size;
    while rest > 1024
      invariant mb * 1024 + rest == size
      invariant 0 < rest
      decreases rest
    {
      rest := rest - 1024;
      mb := mb + 1;
    }
    return InMb(mb, rest);
  }

  /** Exactly 1024 is shown as "0,1024Mb": the loop only runs while the size exceeds 1024. */
  method FormatSize1024() returns (shown: SizeLabel)
    ensures shown == InMb(0, 1024)
  {
    shown := FormatSize(1024);
  }

  /** The list left after deleting: `images.filter(image => image.image_file_path !== path)`. */
  function WithoutPath(images: seq<ImageType>, path: string): seq<ImageType> {
    Filter(images, (img: ImageType) => img.image_file_path != path)
  }

  /** After a delete no image with the deleted path remains, every other image stays, and the order is kept. */
  lemma WithoutPathSpec(images: seq<ImageType>, path: string, more: seq<ImageType>)
    ensures forall i :: 0 <= i < |WithoutPath(images, path)| ==> WithoutPath(images, path)[i].image_file_path != path
    ensures forall i :: 0 <= i < |images| && images[i].image_file_path != path ==> images[i] in WithoutPath(images, path)
    ensures WithoutPath(images + more, path) == WithoutPath(images, path) + WithoutPath(more, path)
  {
    FilterAppend(images, more, (img: ImageType) => img.image_file_path != path);
  }

  datatype LoadStatus = Loading | Success | Error

  /** How the upload request ended: it threw, or it answered with `res.data.image` (possibly missing). */
  datatype UploadResult = UploadFailed | Uploaded(image: Option<ImageType>)

  /** How the delete request ended. */
  datatype DeleteResult = DeleteFailed | Deleted

  class GalleryState {
    var images: seq<ImageType>
    var active: Option<ImageType>
    var status: LoadStatus
    var apiLoading: bool
    /** The parent's modal flag, reached through `setIsOpenModal`. */
    var modalOpen: bool

    constructor (modalOpen: bool)
      ensures images == [] && active == None && status == Loading && !apiLoading && this.modalOpen == modalOpen
    {
      images := [];
      active := None;
      status := Loading;
      apiLoading := false;
      this.modalOpen := modalOpen;
    }

    /** A click on a thumbnail makes it the active image. */
    method SetActive(item: ImageType)
      modifies this`active
      ensures active == Some(item)
    {
      active := Some(item);
    }

    /** `getImages` once answered: the list comes from the response, or the status becomes `error`. */
    method GetImagesDone(response: Option<seq<ImageType>>)
      modifies this`images, this`status
      ensures response.Some? ==> images == response.value && status == Success
      ensures response.None? ==> images == old(images) && status == Error
    {
      if response.Some? {
        images := response.value;
        status := Success;
      } else {
        status := Error;
      }
    }

    /**
     * `handleChoose`: without an active image nothing happens; otherwise its
     * URL is handed to `setImageUrl` (returned here) and the modal is closed.
     */
    method HandleChoose() returns (imageUrl: Option<string>)
      modifies this`modalOpen
      ensures active.None? ==> imageUrl == None && modalOpen == old(modalOpen)
      ensures active.Some? ==> imageUrl == Some(active.value.image_url) && !modalOpen
    {
      if active.None? {
        return None;
      }
      imageUrl := Some(active.value.image_url);
      modalOpen := false;
    }

    /**
     * `handleUploadImages` once the request has ended: a returned image is put
     * in front of the list; `finally` clears `apiLoading` whatever happened.
     */
    method HandleUploadImages(result: UploadResult)
      modifies this`images, this`apiLoading
      ensures !apiLoading
      ensures images == if result.Uploaded? && result.image.Some? then [result.image.value] + old(images) else old(images)
    {
      apiLoading := true;
      if result.Uploaded? && result.image.Some? {
        images := [result.image.value] + images;
      }
      apiLoading := false;
    }

    /**
     * `handleDeleteImage`: without an active image or a file path it returns
     * at once; after a successful delete every image with the active image's
     * path is dropped. The early return is inside `try`, so `finally` clears
     * `apiLoading` on every path.
     */
    method HandleDeleteImage(result: DeleteResult)
      modifies this`images, this`apiLoading
      ensures !apiLoading
      ensures active.None? || active.value.image_file_path == "" || result.DeleteFailed? ==> images == old(images)
      ensures active.Some? && active.value.image_file_path != "" && result.Deleted? ==>
        images == WithoutPath(old(images), active.value.image_file_path)
    {
      if active.None? || active.value.image_file_path == "" {
        apiLoading := false;
        return;
      }
      apiLoading := true;
      if result.Deleted? {
        images := WithoutPath(images, active.value.image_file_path);
      }
      apiLoading := false;
    }
  }
}
