/**
 * The image records the client keeps: `EditedImage` in the in-memory store,
 * `StoredImageData` in browser storage, and the partial updates applied to
 * them with object spread.
 */
module ImageTypes {
  import opened JsText

  /** An uploaded `File`: its name, size in bytes, MIME type and base64 payload. */
  datatype File = File(name: string, size: nat, mimeType: string, base64: string)

  /** `data:<mime>;base64,<payload>`, the embeddable form the routes send to a vendor. */
  function DataUrl(f: File): string {
    "data:" + f.mimeType + ";base64," + f.base64
  }

  /** A `Date`; only its ISO rendering is used. */
  datatype Instant = Instant(iso: string)

  /**
   * `EditedImage`. `editedUrls` is declared as a list but the save path
   * guards it with `|| []`, so it is kept optional here.
   */
  datatype EditedImage = EditedImage(
    id: string,
    originalFile: File,
    originalUrl: string,
    editedUrl: Option<string>,
    editedUrls: Option<seq<string>>,
    prompt: string,
    createdAt: Instant,
    isProcessing: bool,
    description: Option<string>,
    requestId: Option<string>)

  function EditedId(img: EditedImage): string {
    img.id
  }

  /** `StoredImageData`, the record kept in browser storage. */
  datatype StoredImageData = StoredImageData(
    id: string,
    originalUrl: string,
    editedUrl: Option<string>,
    editedUrls: seq<string>,
    prompt: string,
    createdAt: string,
    fileName: string,
    fileSize: nat,
    isProcessing: bool,
    description: Option<string>,
    requestId: Option<string>)

  function StoredId(rec: StoredImageData): string {
    rec.id
  }

  /** A property present in a partial update overrides; an absent one keeps the old value. */
  function Pick<T>(update: Option<T>, current: T): T {
    if update.Some? then update.value else current
  }

  /** `Partial<EditedImage>`: `Some` marks a property the update object carries. */
  datatype EditedImagePatch = EditedImagePatch(
    id: Option<string>,
    originalFile: Option<File>,
    originalUrl: Option<string>,
    editedUrl: Option<Option<string>>,
    editedUrls: Option<Option<seq<string>>>,
    prompt: Option<string>,
    createdAt: Option<Instant>,
    isProcessing: Option<bool>,
    description: Option<Option<string>>,
    requestId: Option<Option<string>>)

  /** `{ ...img, ...updates }`: `{}` changes nothing, and the id stays unless the update names one. */
  function ApplyEditedPatch(img: EditedImage, p: EditedImagePatch): (r: EditedImage)
    ensures p == NoEditedChange ==> r == img
    ensures p.id.None? ==> r.id == img.id
  {
    EditedImage(
      Pick(p.id, img.id), Pick(p.originalFile, img.originalFile), Pick(p.originalUrl, img.originalUrl),
      Pick(p.editedUrl, img.editedUrl), Pick(p.editedUrls, img.editedUrls), Pick(p.prompt, img.prompt),
      Pick(p.createdAt, img.createdAt), Pick(p.isProcessing, img.isProcessing),
      Pick(p.description, img.description), Pick(p.requestId, img.requestId))
  }

  /** `{}` as an update. */
  const NoEditedChange := EditedImagePatch(None, None, None, None, None, None, None, None, None, None)

  /** Spreading the same update twice is spreading it once; spreading `{}` changes nothing. */
  lemma EditedPatchLaws(img: EditedImage, p: EditedImagePatch)
    ensures ApplyEditedPatch(ApplyEditedPatch(img, p), p) == ApplyEditedPatch(img, p)
    ensures ApplyEditedPatch(img, NoEditedChange) == img
  {
  }

  /** In `{ ...earlier, ...later }` a property the later object carries wins. */
  function Over<T>(later: Option<T>, earlier: Option<T>): Option<T> {
    if later.Some? then later else earlier
  }

  /** `{ ...p, ...q }` for two partial updates. */
  function ThenEdited(p: EditedImagePatch, q: EditedImagePatch): EditedImagePatch {
    EditedImagePatch(
      Over(q.id, p.id), Over(q.originalFile, p.originalFile), Over(q.originalUrl, p.originalUrl),
      Over(q.editedUrl, p.editedUrl), Over(q.editedUrls, p.editedUrls), Over(q.prompt, p.prompt),
      Over(q.createdAt, p.createdAt), Over(q.isProcessing, p.isProcessing),
      Over(q.description, p.description), Over(q.requestId, p.requestId))
  }

  /** Two successive updates are one update with both spread in order. */
  lemma EditedPatchesCompose(img: EditedImage, p: EditedImagePatch, q: EditedImagePatch)
    ensures ApplyEditedPatch(ApplyEditedPatch(img, p), q) == ApplyEditedPatch(img, ThenEdited(p, q))
  {
  }

  /** `Partial<StoredImageData>`. */
  datatype StoredPatch = StoredPatch(
    id: Option<string>,
    originalUrl: Option<string>,
    editedUrl: Option<Option<string>>,
    editedUrls: Option<seq<string>>,
    prompt: Option<string>,
    createdAt: Option<string>,
    fileName: Option<string>,
    fileSize: Option<nat>,
    isProcessing: Option<bool>,
    description: Option<Option<string>>,
    requestId: Option<Option<string>>)

  /** `{ ...rec, ...updates }`: `{}` changes nothing, and the id stays unless the update names one. */
  function ApplyStoredPatch(rec: StoredImageData, p: StoredPatch): (r: StoredImageData)
    ensures p == NoStoredChange ==> r == rec
    ensures p.id.None? ==> r.id == rec.id
  {
    StoredImageData(
      Pick(p.id, rec.id), Pick(p.originalUrl, rec.originalUrl), Pick(p.editedUrl, rec.editedUrl),
      Pick(p.editedUrls, rec.editedUrls), Pick(p.prompt, rec.prompt), Pick(p.createdAt, rec.createdAt),
      Pick(p.fileName, rec.fileName), Pick(p.fileSize, rec.fileSize), Pick(p.isProcessing, rec.isProcessing),
      Pick(p.description, rec.description), Pick(p.requestId, rec.requestId))
  }

  /** `{}` as an update of a stored record. */
  const NoStoredChange := StoredPatch(None, None, None, None, None, None, None, None, None, None, None)

  /** `{ ...p, ...q }` for two partial updates of a stored record. */
  function ThenStored(p: StoredPatch, q: StoredPatch): StoredPatch {
    StoredPatch(
      Over(q.id, p.id), Over(q.originalUrl, p.originalUrl), Over(q.editedUrl, p.editedUrl),
      Over(q.editedUrls, p.editedUrls), Over(q.prompt, p.prompt), Over(q.createdAt, p.createdAt),
      Over(q.fileName, p.fileName), Over(q.fileSize, p.fileSize), Over(q.isProcessing, p.isProcessing),
      Over(q.description, p.description), Over(q.requestId, p.requestId))
  }

  /** A stored record takes the same update twice as once, and two updates as their spread in order. */
  lemma StoredPatchLaws(rec: StoredImageData, p: StoredPatch, q: StoredPatch)
    ensures ApplyStoredPatch(ApplyStoredPatch(rec, p), p) == ApplyStoredPatch(rec, p)
    ensures ApplyStoredPatch(ApplyStoredPatch(rec, p), q) == ApplyStoredPatch(rec, ThenStored(p, q))
  {
  }

  /**
   * The record `saveEditedImage` writes: the file's name and size replace the
   * `File` object, the date becomes its ISO string, and a missing
   * `editedUrls` becomes `[]`.
   */
  function ToStored(img: EditedImage): (r: StoredImageData)
    ensures r.id == img.id && r.prompt == img.prompt
    ensures r.fileName == img.originalFile.name && r.fileSize == img.originalFile.size
    ensures r.originalUrl == img.originalUrl && r.editedUrl == img.editedUrl
    ensures img.editedUrls.None? ==> r.editedUrls == []
    ensures img.editedUrls.Some? ==> r.editedUrls == img.editedUrls.value
    ensures r.createdAt == img.createdAt.iso
  {
    StoredImageData(
      img.id, img.originalUrl, img.editedUrl,
      if img.editedUrls.Some? then img.editedUrls.value else [],
      img.prompt, img.createdAt.iso, img.originalFile.name, img.originalFile.size,
      img.isProcessing, img.description, img.requestId)
  }
}
