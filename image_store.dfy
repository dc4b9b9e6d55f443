/**
 * The in-memory image store: the image being worked on and the list of edited
 * images, newest first. Each action replaces the two fields with values
 * computed from the old ones.
 */
module Store {
  import opened JsText
  import opened ImageTypes
  import opened KeyedLists

  /** `currentImage` keeps `updates` spread over it when its id matches, and is otherwise untouched. */
  function UpdatedCurrent(current: Option<EditedImage>, id: string, updates: EditedImagePatch): (r: Option<EditedImage>)
    ensures current.None? ==> r.None?
    ensures current.Some? && current.value.id != id ==> r == current
    ensures current.Some? && current.value.id == id ==> r == Some(ApplyEditedPatch(current.value, updates))
  {
    if current.Some? && current.value.id == id then Some(ApplyEditedPatch(current.value, updates)) else current
  }

  /** `currentImage` is cleared when its id is the one removed. */
  function RemovedCurrent(current: Option<EditedImage>, id: string): (r: Option<EditedImage>)
    ensures r.None? <==> current.None? || current.value.id == id
    ensures r.Some? ==> r == current
  {
    if current.Some? && current.value.id == id then None else current
  }

  class ImageStore {
    var currentImage: Option<EditedImage>
    var editedImages: seq<EditedImage>

    constructor ()
      ensures currentImage == None && editedImages == []
    {
      currentImage := None;
      editedImages := [];
    }

    method SetCurrentImage(image: Option<EditedImage>)
      modifies this
      ensures currentImage == image
      ensures editedImages == old(editedImages)
    {
      currentImage := image;
    }

    /** The new image goes first; the old list follows unchanged. */
    method AddEditedImage(image: EditedImage)
      modifies this
      ensures editedImages == [image] + old(editedImages)
      ensures editedImages[0] == image && editedImages[1..] == old(editedImages)
      ensures currentImage == old(currentImage)
    {
      editedImages := [image] + editedImages;
    }

    /** Every entry under `id` goes; the rest keep their order. */
    method RemoveEditedImage(id: string)
      modifies this
      ensures editedImages == Without(old(editedImages), EditedId, id)
      ensures forall k :: 0 <= k < |editedImages| ==> editedImages[k].id != id
      ensures currentImage == RemovedCurrent(old(currentImage), id)
    {
      editedImages := Without(editedImages, EditedId, id);
      currentImage := RemovedCurrent(currentImage, id);
    }

    /** Entries under `id`, and the current image if it is under `id`, get `updates` spread over them. */
    method UpdateImage(id: string, updates: EditedImagePatch)
      modifies this
      ensures editedImages == UpdateWhere(old(editedImages), EditedId, id, img => ApplyEditedPatch(img, updates))
      ensures |editedImages| == |old(editedImages)|
      ensures currentImage == UpdatedCurrent(old(currentImage), id, updates)
    {
      editedImages := UpdateWhere(editedImages, EditedId, id, img => ApplyEditedPatch(img, updates));
      currentImage := UpdatedCurrent(currentImage, id, updates);
    }
  }

  /** Removing an image's id right after adding it gives the same list as removing it from the old one. */
  lemma RemoveAfterAdd(image: EditedImage, images: seq<EditedImage>)
    ensures Without([image] + images, EditedId, image.id) == Without(images, EditedId, image.id)
  {
    WithoutAppend([image], images, EditedId, image.id);
  }
}
