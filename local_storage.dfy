/**
 * The saved-images list in browser storage. The storage slot holds either
 * nothing, a list of records, or text that does not parse; every operation
 * reads the list, computes a new one and writes it back. A failed write
 * (the storage quota) is caught and leaves the slot as it was. Object URLs
 * released with `URL.revokeObjectURL` are recorded in `revoked`, in order.
 */
module LocalStorage {
  import opened JsText
  import opened ImageTypes
  import opened KeyedLists

  /** What the storage slot holds. */
  datatype Slot = Absent | Holds(records: seq<StoredImageData>) | Unreadable

  /** The URLs among `urls` that start with `blob:`, in order. */
  function BlobUrls(urls: seq<string>): seq<string> {
    if urls == [] then []
    else
      var last := urls[|urls| - 1];
      BlobUrls(urls[..|urls| - 1]) + (if StartsWith(last, "blob:") then [last] else [])
  }

  /** Exactly the `blob:` URLs of the input survive. */
  lemma {:induction false} BlobUrlsExact(urls: seq<string>)
    ensures |BlobUrls(urls)| <= |urls|
    ensures forall k :: 0 <= k < |BlobUrls(urls)| ==> StartsWith(BlobUrls(urls)[k], "blob:") && BlobUrls(urls)[k] in urls
    ensures forall u :: u in urls && StartsWith(u, "blob:") ==> u in BlobUrls(urls)
  {
    if urls != [] {
      var init := urls[..|urls| - 1];
      BlobUrlsExact(init);
      assert urls == init + [urls[|urls| - 1]];
    }
  }

  lemma {:induction false} BlobUrlsAppend(a: seq<string>, b: seq<string>)
    ensures BlobUrls(a + b) == BlobUrls(a) + BlobUrls(b)
  {
    if b == [] {
      assert a + b == a;
    } else {
      var b' := b[..|b| - 1];
      assert (a + b)[..|a + b| - 1] == a + b';
      BlobUrlsAppend(a, b');
    }
  }

  /** A record's original URL, its edited URL if any, and its list of edited URLs. */
  function RecordUrls(rec: StoredImageData): seq<string> {
    [rec.originalUrl] + (if rec.editedUrl.Some? then [rec.editedUrl.value] else []) + rec.editedUrls
  }

  /** The URLs released when a record is dropped. */
  function RecordBlobs(rec: StoredImageData): seq<string> {
    BlobUrls(RecordUrls(rec))
  }

  /** The URLs released when all of `recs` are dropped, record by record. */
  function AllBlobs(recs: seq<StoredImageData>): seq<string> {
    if recs == [] then [] else AllBlobs(recs[..|recs| - 1]) + RecordBlobs(recs[|recs| - 1])
  }

  /** `getAllEditedImages`: the stored list, or `[]` when there is none or it cannot be read. */
  function Records(slot: Slot): (r: seq<StoredImageData>)
    ensures slot.Holds? ==> r == slot.records
    ensures !slot.Holds? ==> r == []
  {
    if slot.Holds? then slot.records else []
  }

  class ImageStorage {
    var slot: Slot
    var revoked: seq<string>

    constructor (initial: Slot)
      ensures slot == initial && revoked == []
    {
      slot := initial;
      revoked := [];
    }

    method GetAllEditedImages() returns (images: seq<StoredImageData>)
      ensures slot.Holds? ==> images == slot.records
      ensures !slot.Holds? ==> images == []
    {
      match slot
      case Holds(rs) => images := rs;
      case _ => images := [];
    }

    /**
     * The new record goes first, with any older record under the same id
     * filtered out of the rest.
     */
    method SaveEditedImage(image: EditedImage, writeFails: bool)
      modifies this
      ensures writeFails ==> slot == old(slot)
      ensures !writeFails ==> slot == Holds([ToStored(image)] + Without(Records(old(slot)), StoredId, image.id))
      ensures revoked == old(revoked)
    {
      var stored := GetAllEditedImages();
      var imageData := ToStored(image);
      var updated := [imageData] + Without(stored, StoredId, image.id);
      if !writeFails {
        slot := Holds(updated);
      }
    }

    /** Release `url` when it is a `blob:` URL. */
    method RevokeIfBlob(url: string)
      modifies this
      ensures revoked == old(revoked) + BlobUrls([url])
      ensures slot == old(slot)
    {
      if StartsWith(url, "blob:") {
        revoked := revoked + [url];
      }
    }

    /** The blob-URL clean-up for one record, in the source's order. */
    method RevokeRecord(rec: StoredImageData)
      modifies this
      ensures revoked == old(revoked) + RecordBlobs(rec)
      ensures slot == old(slot)
    {
      RevokeIfBlob(rec.originalUrl);
      var edited := if rec.editedUrl.Some? then [rec.editedUrl.value] else [];
      if rec.editedUrl.Some? {
        RevokeIfBlob(rec.editedUrl.value);
      }
      RevokeEach(rec.editedUrls);
      BlobUrlsAppend([rec.originalUrl], edited);
      BlobUrlsAppend([rec.originalUrl] + edited, rec.editedUrls);
    }

    /** `urls.forEach(url => { if (url?.startsWith('blob:')) URL.revokeObjectURL(url) })`. */
    method RevokeEach(urls: seq<string>)
      modifies this
      ensures revoked == old(revoked) + BlobUrls(urls)
      ensures slot == old(slot)
    {
      var i := 0;
      while i < |urls|
        invariant 0 <= i <= |urls|
        invariant revoked == old(revoked) + BlobUrls(urls[..i])
        invariant slot == old(slot)
      {
        RevokeIfBlob(urls[i]);
        assert urls[..i + 1][..i] == urls[..i];
        i := i + 1;
      }
      assert urls[..i] == urls;
    }

    /**
     * Every record under `id` is filtered out; then the first such record's
     * blob URLs are released. A failed write skips the release.
     */
    method RemoveEditedImage(id: string, writeFails: bool)
      modifies this
      ensures writeFails ==> slot == old(slot) && revoked == old(revoked)
      ensures !writeFails ==> slot == Holds(Without(Records(old(slot)), StoredId, id))
      ensures !writeFails ==>
                revoked == old(revoked) +
                  (match Find(Records(old(slot)), StoredId, id)
                   case Some(rec) => RecordBlobs(rec)
                   case None => [])
    {
      var stored := GetAllEditedImages();
      var filtered := Without(stored, StoredId, id);
      if writeFails {
        return;
      }
      slot := Holds(filtered);
      var imageToRemove := Find(stored, StoredId, id);
      if imageToRemove.Some? {
        RevokeRecord(imageToRemove.value);
      }
    }

    /** Records under `id` get `updates` spread over them; length and order are kept. */
    method UpdateEditedImage(id: string, updates: StoredPatch, writeFails: bool)
      modifies this
      ensures writeFails ==> slot == old(slot)
      ensures !writeFails ==>
                slot == Holds(UpdateWhere(Records(old(slot)), StoredId, id, rec => ApplyStoredPatch(rec, updates)))
      ensures revoked == old(revoked)
    {
      var stored := GetAllEditedImages();
      var updated := UpdateWhere(stored, StoredId, id, rec => ApplyStoredPatch(rec, updates));
      if !writeFails {
        slot := Holds(updated);
      }
    }

    /** Release every record's blob URLs, then empty the slot. */
    method ClearAllImages()
      modifies this
      ensures slot == Absent
      ensures revoked == old(revoked) + AllBlobs(Records(old(slot)))
    {
      var stored := GetAllEditedImages();
      var i := 0;
      while i < |stored|
        invariant 0 <= i <= |stored|
        invariant revoked == old(revoked) + AllBlobs(stored[..i])
      {
        RevokeRecord(stored[i]);
        assert stored[..i + 1][..i] == stored[..i];
        i := i + 1;
      }
      assert stored[..i] == stored;
      slot := Absent;
    }
  }

  /** After a save the saved id is at the front and appears exactly once. */
  lemma SaveKeepsOneCopy(image: EditedImage, previous: seq<StoredImageData>)
    ensures var r := [ToStored(image)] + Without(previous, StoredId, image.id);
            r[0].id == image.id && CountKey(r, StoredId, image.id) == 1
  {
    PrependUnique(ToStored(image), previous, StoredId);
  }

  /** Only `blob:` URLs are ever released, and each one belongs to the record. */
  lemma OnlyBlobsReleased(rec: StoredImageData)
    ensures forall k :: 0 <= k < |RecordBlobs(rec)| ==>
              StartsWith(RecordBlobs(rec)[k], "blob:") && RecordBlobs(rec)[k] in RecordUrls(rec)
  {
    BlobUrlsExact(RecordUrls(rec));
  }
}
