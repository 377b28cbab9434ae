/** The product image picker: a list of at most five images, each either a
    path already stored on the server or a newly chosen file, with a preview
    per image. */
module ImageUpload {
  import opened Js

  /** A stored image is its path on the server; a new one is the chosen file. */
  datatype Image = Stored(path: string) | Upload(file: File)

  const MaxImages: nat := 5
  const MaxSizeMb: nat := 5

  /** The largest accepted file, in bytes. */
  function MaxBytes(): nat
  {
    MaxSizeMb * 1024 * 1024
  }

  /** The value the image stands for in a form payload. */
  function AsValue(img: Image): JsValue
  {
    match img
    case Stored(p) => Str(p)
    case Upload(f) => FileVal(f)
  }

  /** `triggerUpload`: the file picker opens only below the limit; the "+" tile
      is shown under the same condition. */
  function PickerOpens(images: seq<Image>): (r: bool)
    ensures r <==> |images| < MaxImages
  {
    !(|images| >= MaxImages)
  }

  /** `handleChange` followed by its updater: no file or a file above the size
      limit leaves the list as it is; a full list stays as it is; otherwise the
      file goes at the end. */
  function ImageAdded(images: seq<Image>, chosen: Option<File>): (r: seq<Image>)
    ensures chosen == None ==> r == images
    ensures chosen != None && chosen.value.size > MaxBytes() ==> r == images
    ensures |images| >= MaxImages ==> r == images
    ensures chosen != None && chosen.value.size <= MaxBytes() && |images| < MaxImages ==>
              r == images + [Upload(chosen.value)]
  {
    if chosen.None? then images
    else if chosen.value.size > MaxBytes() then images
    else if |images| >= MaxImages then images
    else images + [Upload(chosen.value)]
  }

  /** `removeImage(index)`: `filter((_, i) => i !== index)`. */
  function ImageRemoved(images: seq<Image>, index: int): seq<Image>
  {
    WithoutIndex(images, index)
  }

  /** Removing the image just added gives back the list as it was. */
  lemma AddThenRemove(images: seq<Image>, f: File)
    requires f.size <= MaxBytes() && |images| < MaxImages
    ensures ImageRemoved(ImageAdded(images, Some(f)), |images|) == images
  {
    PushThenRemove(images, Upload(f));
  }

  /** What the user can do to the list. */
  datatype Action = Add(chosen: Option<File>) | Remove(index: int)

  function Applied(images: seq<Image>, actions: seq<Action>): seq<Image>
    decreases |actions|
  {
    if actions == [] then images
    else
      var next := match actions[0]
        case Add(c) => ImageAdded(images, c)
        case Remove(i) => ImageRemoved(images, i);
      Applied(next, actions[1..])
  }

  /** A list that starts within the limit stays within it, whatever the user does. */
  lemma {:induction false} NeverAboveLimit(images: seq<Image>, actions: seq<Action>)
    requires |images| <= MaxImages
    ensures |Applied(images, actions)| <= MaxImages
    decreases |actions|
  {
    if actions != [] {
      var next := match actions[0]
        case Add(c) => ImageAdded(images, c)
        case Remove(i) => ImageRemoved(images, i);
      NeverAboveLimit(next, actions[1..]);
    }
  }

  /** The preview of one image: the storage URL of a stored path, an object URL for a file. */
  function PreviewOf(img: Image, storage: string, objectUrl: File -> string): string
  {
    match img
    case Stored(p) => storage + "/" + p
    case Upload(f) => objectUrl(f)
  }

  function Previews(images: seq<Image>, storage: string, objectUrl: File -> string): (r: seq<string>)
    ensures |r| == |images|
    ensures forall i :: 0 <= i < |images| ==> r[i] == PreviewOf(images[i], storage, objectUrl)
  {
    seq(|images|, i requires 0 <= i < |images| => PreviewOf(images[i], storage, objectUrl))
  }

  /** The object URLs created for the new files, in list order: those the cleanup revokes. */
  function ObjectUrls(images: seq<Image>, objectUrl: File -> string): seq<string>
    decreases |images|
  {
    if images == [] then []
    else
      var last := images[|images| - 1];
      ObjectUrls(images[..|images| - 1], objectUrl) + (if last.Upload? then [objectUrl(last.file)] else [])
  }

  /** Every revoked URL is the preview of one of the new files. */
  lemma {:induction false} RevokedArePreviews(images: seq<Image>, storage: string, objectUrl: File -> string)
    ensures forall u :: u in ObjectUrls(images, objectUrl) ==>
      exists i :: 0 <= i < |images| && images[i].Upload? && Previews(images, storage, objectUrl)[i] == u
    decreases |images|
  {
    if images != [] {
      var n := |images| - 1;
      RevokedArePreviews(images[..n], storage, objectUrl);
      forall u | u in ObjectUrls(images, objectUrl)
        ensures exists i :: 0 <= i < |images| && images[i].Upload? && Previews(images, storage, objectUrl)[i] == u
      {
        if u in ObjectUrls(images[..n], objectUrl) {
          var i :| 0 <= i < n && images[..n][i].Upload? && Previews(images[..n], storage, objectUrl)[i] == u;
          assert images[i] == images[..n][i];
        } else {
          assert images[n].Upload? && u == objectUrl(images[n].file);
          assert Previews(images, storage, objectUrl)[n] == u;
        }
      }
    }
  }

  /** The preview effect: one preview per image, and the object URLs created along the way. */
  method BuildPreviews(images: seq<Image>, storage: string, objectUrl: File -> string)
    returns (previews: seq<string>, objectUrls: seq<string>)
    ensures previews == Previews(images, storage, objectUrl)
    ensures objectUrls == ObjectUrls(images, objectUrl)
  {
    previews := [];
    objectUrls := [];
    var i := 0;
    while i < |images|
      invariant 0 <= i <= |images|
      invariant previews == Previews(images[..i], storage, objectUrl)
      invariant objectUrls == ObjectUrls(images[..i], objectUrl)
    {
      var img := images[i];
      assert images[..i + 1][..i] == images[..i];
      if img.Stored? {
        previews := previews + [storage + "/" + img.path];
      } else {
        var url := objectUrl(img.file);
        objectUrls := objectUrls + [url];
        previews := previews + [url];
      }
      i := i + 1;
    }
    assert images[..i] == images;
  }
}
