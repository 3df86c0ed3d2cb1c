/**
 * The door image list: appends are dropped once three images are held, removal is by
 * position, and the upload control and counter reflect the current length.
 */
module ImageUploader {
  import opened Text

  /** The cap on images per door. */
  const MaxImages := 3

  /** One completed file read: append the image while fewer than three are held. */
  function AddImage(images: seq<string>, image: string): (r: seq<string>)
    ensures |images| < MaxImages ==> r == images + [image]
    ensures |images| >= MaxImages ==> r == images
  {
    if |images| < MaxImages then images + [image] else images
  }

  /** The cap is preserved by every append. */
  lemma AddImageKeepsCap(images: seq<string>, image: string)
    requires |images| <= MaxImages
    ensures |AddImage(images, image)| <= MaxImages
    ensures AddImage(images, image)[..|images|] == images
  {
  }

  /** `images.filter((_, i) => i !== index)`: position `index` removed, the rest in order. */
  function RemoveImage(images: seq<string>, index: int): (r: seq<string>)
    ensures 0 <= index < |images| ==> r == images[..index] + images[index + 1..]
    ensures !(0 <= index < |images|) ==> r == images
    decreases |images|
  {
    if images == [] then []
    else
      var rest := RemoveImage(images[1..], index - 1);
      assert 0 < index < |images| ==>
        images[..index] + images[index + 1..] == [images[0]] + (images[1..][..index - 1] + images[1..][index..]);
      (if index == 0 then [] else [images[0]]) + rest
  }

  /** The "Add Photo" control is rendered exactly when a completed read would be appended. */
  function UploadOffered(images: seq<string>): (offered: bool)
    ensures offered <==> forall image :: AddImage(images, image) == images + [image]
    ensures !offered ==> forall image :: AddImage(images, image) == images
  {
    // At the cap, appending "" leaves the list one element shorter than `images + [""]`.
    assert |images| >= MaxImages ==> |AddImage(images, "")| != |images + [""]|;
    |images| < MaxImages
  }

  /** The "n/3" counter: its number reads back as the image count. */
  function CounterText(images: seq<string>): (r: string)
    ensures |r| >= 3 && r[|r| - 2..] == "/3"
    ensures IsDigitString(r[..|r| - 2]) && ParseDecimal(r[..|r| - 2]) == |images|
    ensures r[0] == '0' ==> |images| == 0
    ensures |images| == 0 ==> r == "0/3"
  {
    var count := NatToString(|images|);
    ParseNatToString(|images|);
    assert (count + "/3")[..|count|] == count;
    count + "/3"
  }

  /**
   * `handleFileChange` with several files, as written: every read callback appends to the
   * `images` captured when the files were chosen, and each call replaces the list, so the
   * list ends as the last completed read made it. `loaded` holds the decoded images in
   * the order their reads complete.
   */
  function FileChangeAsWritten(images: seq<string>, loaded: seq<string>): (r: seq<string>)
    ensures |r| <= |images| + 1
    ensures |r| >= |images| && r[..|images|] == images
  {
    if loaded == [] then images else AddImage(images, loaded[|loaded| - 1])
  }

  /** Choosing two files for an empty list keeps only the second: the first image is lost. */
  lemma FileChangeAsWrittenLosesImages()
    ensures FileChangeAsWritten([], ["a", "b"]) == ["b"]
    ensures "a" !in FileChangeAsWritten([], ["a", "b"])
  {
  }

  /** `handleFileChange` as intended: the reads are appended one after another, up to the cap. */
  function FileChangeAppendAll(images: seq<string>, loaded: seq<string>): (r: seq<string>)
    ensures |r| >= |images| && r[..|images|] == images
    ensures |images| <= MaxImages ==> |r| <= MaxImages
    decreases |loaded|
  {
    if loaded == [] then images else FileChangeAppendAll(AddImage(images, loaded[0]), loaded[1..])
  }

  /** The intended behaviour keeps the old images and appends as many new ones as fit, in order. */
  lemma {:induction false} FileChangeAppendAllFills(images: seq<string>, loaded: seq<string>)
    requires |images| <= MaxImages
    ensures FileChangeAppendAll(images, loaded) == images + loaded[..Min(|loaded|, MaxImages - |images|)]
    ensures |FileChangeAppendAll(images, loaded)| <= MaxImages
    decreases |loaded|
  {
    if loaded != [] {
      var next := AddImage(images, loaded[0]);
      FileChangeAppendAllFills(next, loaded[1..]);
      if |images| < MaxImages {
        assert loaded[..Min(|loaded|, MaxImages - |images|)]
          == [loaded[0]] + loaded[1..][..Min(|loaded| - 1, MaxImages - |next|)];
      } else {
        assert loaded[1..][..0] == [] && loaded[..0] == [];
      }
    }
  }
}
