/**
 * The multi-image upload area. The list it is given is never changed in
 * place: every action hands a new list to the parent. Object URLs and random
 * ids are supplied from outside, one pair per file that is added.
 */
module ManyDropzone {
  import opened JsText
  import opened ImageTypes
  import opened KeyedLists

  /** `{file, url, id}` for one selected image. */
  datatype ImageData = ImageData(file: File, url: string, id: string)

  function ImageId(img: ImageData): string {
    img.id
  }

  /** A freshly created object URL and random id for one added file. */
  datatype Minted = Minted(url: string, id: string)

  /** What an action hands back: the new list, and the object URLs it releases. */
  datatype DropResult = DropResult(images: seq<ImageData>, revoked: seq<string>)

  function Min(a: int, b: int): int {
    if a <= b then a else b
  }

  /** `xs.slice(0, end)`: a negative `end` counts back from the end of the list. */
  function SliceTo<T>(xs: seq<T>, end: int): (r: seq<T>)
    ensures |r| <= |xs| && r == xs[..|r|]
    ensures end >= 0 ==> |r| == Min(|xs|, end)
    ensures end < 0 ==> |r| == if |xs| + end >= 0 then |xs| + end else 0
  {
    if end >= 0 then Take(xs, end)
    else if |xs| + end >= 0 then xs[..|xs| + end]
    else []
  }

  /**
   * `onDrop`: the accepted files up to `maxImages - currentImages.length`,
   * in their order, appended after the current images; each gets the next
   * minted URL and id.
   */
  function OnDrop(current: seq<ImageData>, accepted: seq<File>, maxImages: nat, minted: seq<Minted>): (r: seq<ImageData>)
    requires |minted| >= |accepted|
    ensures |current| <= |r| <= |current| + |accepted|
    ensures r[..|current|] == current
    ensures forall k :: |current| <= k < |r| ==>
              r[k] == ImageData(accepted[k - |current|], minted[k - |current|].url, minted[k - |current|].id)
    ensures |current| <= maxImages ==> |r| == |current| + Min(|accepted|, maxImages - |current|)
    ensures |current| <= maxImages ==> |r| <= maxImages
    ensures |current| > maxImages ==>
              |r| == |current| + (if |accepted| + maxImages - |current| >= 0 then |accepted| + maxImages - |current| else 0)
  {
    var filesToAdd := SliceTo(accepted, maxImages - |current|);
    current + seq(|filesToAdd|, i requires 0 <= i < |filesToAdd| => ImageData(filesToAdd[i], minted[i].url, minted[i].id))
  }

  /** A full area takes nothing more, whatever is dropped on it. */
  lemma FullAreaIgnoresDrop(current: seq<ImageData>, accepted: seq<File>, maxImages: nat, minted: seq<Minted>)
    requires |current| == maxImages
    requires |minted| >= |accepted|
    ensures OnDrop(current, accepted, maxImages, minted) == current
  {
    var r := OnDrop(current, accepted, maxImages, minted);
    assert r == r[..|current|];
  }

  /** Dropping nothing hands back the current list. */
  lemma EmptyDropKeepsList(current: seq<ImageData>, maxImages: nat, minted: seq<Minted>)
    ensures OnDrop(current, [], maxImages, minted) == current
  {
    var r := OnDrop(current, [], maxImages, minted);
    assert r == r[..|current|];
  }

  /**
   * `removeImage`: every entry under the id goes, the rest keep their order;
   * the first matching entry's URL is released, and nothing when none matches.
   */
  function RemoveImage(current: seq<ImageData>, id: string): (r: DropResult)
    ensures forall k :: 0 <= k < |r.images| ==> r.images[k].id != id
    ensures r.images == Without(current, ImageId, id)
    ensures |r.revoked| <= 1
    ensures r.revoked == [] <==> forall k :: 0 <= k < |current| ==> current[k].id != id
    ensures FindIndex(current, ImageId, id).Some? ==> r.revoked == [current[FindIndex(current, ImageId, id).value].url]
  {
    var found := FindIndex(current, ImageId, id);
    DropResult(Without(current, ImageId, id), if found.Some? then [current[found.value].url] else [])
  }

  /** Removing an id nobody has hands back the same list and releases nothing. */
  lemma RemoveMissingId(current: seq<ImageData>, id: string)
    requires forall k :: 0 <= k < |current| ==> current[k].id != id
    ensures RemoveImage(current, id) == DropResult(current, [])
  {
    WithoutAbsent(current, ImageId, id);
  }

  /** "Clear all images": every URL is released and the empty list handed back. */
  function ClearAll(current: seq<ImageData>): (r: DropResult)
    ensures r.images == []
    ensures |r.revoked| == |current|
    ensures forall k :: 0 <= k < |current| ==> r.revoked[k] == current[k].url
  {
    DropResult([], seq(|current|, k requires 0 <= k < |current| => current[k].url))
  }

  /**
   * The drop target ignores input once the list is full: it is disabled
   * exactly when dropping a single file would add nothing, whatever the file.
   */
  predicate Disabled(current: seq<ImageData>, maxImages: nat): (r: bool)
    ensures r <==> forall f: File, m: Minted :: OnDrop(current, [f], maxImages, [m]) == current
  {
    SingleFileDrops(current, maxImages);
    |current| >= maxImages
  }

  /** One file is added unless the list already holds `maxImages` images or more. */
  lemma SingleFileDrop(current: seq<ImageData>, f: File, maxImages: nat, m: Minted)
    ensures OnDrop(current, [f], maxImages, [m]) == current <==> |current| >= maxImages
  {
    var r := OnDrop(current, [f], maxImages, [m]);
    if |current| >= maxImages {
      assert r == r[..|current|];
    } else {
      assert |r| == |current| + 1;
    }
  }

  lemma SingleFileDrops(current: seq<ImageData>, maxImages: nat)
    ensures (forall f: File, m: Minted :: OnDrop(current, [f], maxImages, [m]) == current) <==> |current| >= maxImages
  {
    forall f: File, m: Minted
      ensures OnDrop(current, [f], maxImages, [m]) == current <==> |current| >= maxImages
    {
      SingleFileDrop(current, f, maxImages, m);
    }
    SingleFileDrop(current, File("", 0, "", ""), maxImages, Minted("", ""));
  }

  /** Within the limit, the area is disabled exactly when a drop of files would add none of them. */
  lemma DisabledIffDropAddsNothing(current: seq<ImageData>, accepted: seq<File>, maxImages: nat, minted: seq<Minted>)
    requires |current| <= maxImages && |accepted| > 0 && |minted| >= |accepted|
    ensures Disabled(current, maxImages) <==> OnDrop(current, accepted, maxImages, minted) == current
  {
    var r := OnDrop(current, accepted, maxImages, minted);
    if Disabled(current, maxImages) {
      assert r == r[..|current|];
    }
  }

  /** What the area shows: the empty upload prompt, or the grid with or without the "add more" tile. */
  datatype View = UploadPrompt | Grid(addTile: bool, remaining: int)

  function ViewOf(current: seq<ImageData>, maxImages: nat): (v: View)
    ensures v.UploadPrompt? <==> current == []
    ensures v.Grid? ==> (v.addTile <==> !Disabled(current, maxImages))
    ensures v.Grid? && v.addTile ==> v.remaining > 0 && |current| + v.remaining == maxImages
  {
    if |current| > 0 then Grid(|current| < maxImages, maxImages - |current|) else UploadPrompt
  }
}
