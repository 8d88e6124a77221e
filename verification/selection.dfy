/** The selection page (`client/src/pages/selection.tsx`): file picking, the
    upload response handler, removing an image, and its two buttons. */
module SelectionPage {
  import opened Base
  import opened AppTypes
  import App
  import JsArray
  import Routes

  /** `handleFileSelect`: the files to upload, or `None` when the picker gave
      `null` or an empty list (then nothing is sent). */
  function HandleFileSelect(files: Option<seq<Routes.MulterFile>>): (r: Option<seq<Routes.MulterFile>>)
    ensures r.Some? <==> files.Some? && |files.value| > 0
    ensures r.Some? ==> r.value == files.value
  {
    if files.Some? && |files.value| > 0 then files else None
  }

  /** The characters `Buffer.toString('base64')` can produce. */
  predicate IsBase64Char(c: char) {
    ('A' <= c <= 'Z') || ('a' <= c <= 'z') || ('0' <= c <= '9') || c == '+' || c == '/' || c == '='
  }

  /** The preview URL built for an uploaded image: a `data:` URL. */
  function PreviewUrl(mimetype: string, imageData: string): string {
    "data:" + mimetype + ";base64," + imageData
  }

  /** Splits a base64 `data:` URL back into its media type and payload, at the
      last `;` (a base64 payload holds none). */
  function ParseDataUrl(url: string): Option<(string, string)> {
    if |url| < 5 || url[..5] != "data:" then None
    else
      var rest := url[5..];
      match JsArray.LastIndexOf(rest, ';')
      case None => None
      case Some(k) =>
        if k + 8 <= |rest| && rest[k..k + 8] == ";base64," then Some((rest[..k], rest[k + 8..])) else None
  }

  /** A preview URL gives back the media type and payload it was built from,
      whatever the media type contains, as long as the payload is base64. */
  lemma PreviewUrlRoundTrip(mimetype: string, imageData: string)
    requires forall i :: 0 <= i < |imageData| ==> IsBase64Char(imageData[i])
    ensures ParseDataUrl(PreviewUrl(mimetype, imageData)) == Some((mimetype, imageData))
  {
    var url := PreviewUrl(mimetype, imageData);
    assert url == "data:" + (mimetype + ";base64," + imageData);
    var rest := url[5..];
    assert rest == mimetype + ";base64," + imageData;
    var k := |mimetype|;
    assert rest[k..k + 8] == ";base64,";
    forall j | k < j < |rest|
      ensures rest[j] != ';'
    {
      if j < k + 8 {
        assert rest[j] == ";base64,"[j - k];
      } else {
        assert rest[j] == imageData[j - k - 8];
      }
    }
    JsArray.LastIndexOfIs(rest, ';', k);
    assert rest[..k] == mimetype;
    assert rest[k + 8..] == imageData;
  }

  /** One upload-response record as the client stores it: `{...file, previewUrl}`. */
  function ToUploadedImage(f: Routes.UploadedFile): UploadedImage {
    UploadedImage(f.id, f.imageData, f.mimetype, f.originalname, Some(PreviewUrl(f.mimetype, f.imageData)))
  }

  function ToUploadedImages(files: seq<Routes.UploadedFile>): (r: seq<UploadedImage>)
    ensures |r| == |files|
    ensures forall k :: 0 <= k < |files| ==> r[k] == ToUploadedImage(files[k])
  {
    seq(|files|, k requires 0 <= k < |files| => ToUploadedImage(files[k]))
  }

  /** The upload's `onSuccess`: the new images are appended after the old
      ones, each with its `data:` preview URL; nothing else changes. */
  function OnUploadSuccess(s: AppState, files: seq<Routes.UploadedFile>): (r: AppState)
    ensures |r.uploadedImages| == |s.uploadedImages| + |files|
    ensures r.uploadedImages[..|s.uploadedImages|] == s.uploadedImages
    ensures forall k :: 0 <= k < |files| ==>
              var img := r.uploadedImages[|s.uploadedImages| + k];
              && img.id == files[k].id && img.imageData == files[k].imageData
              && img.mimetype == files[k].mimetype && img.originalname == files[k].originalname
              && img.previewUrl == Some("data:" + files[k].mimetype + ";base64," + files[k].imageData)
    ensures r == s.(uploadedImages := r.uploadedImages)
  {
    App.UpdateAppState(s, NoUpdate.(uploadedImages := Some(s.uploadedImages + ToUploadedImages(files))))
  }

  /** Converting a concatenated batch converts each part. */
  lemma ToUploadedImagesConcat(a: seq<Routes.UploadedFile>, b: seq<Routes.UploadedFile>)
    ensures ToUploadedImages(a + b) == ToUploadedImages(a) + ToUploadedImages(b)
  {
    var ta, tb, tab := ToUploadedImages(a), ToUploadedImages(b), ToUploadedImages(a + b);
    forall k | 0 <= k < |tab|
      ensures tab[k] == (ta + tb)[k]
    {
      if k < |a| {
        assert (a + b)[k] == a[k];
      } else {
        assert (a + b)[k] == b[k - |a|];
      }
    }
  }

  /** Two upload batches in a row leave the same state as one batch holding both. */
  lemma UploadBatchesCompose(s: AppState, a: seq<Routes.UploadedFile>, b: seq<Routes.UploadedFile>)
    ensures OnUploadSuccess(OnUploadSuccess(s, a), b) == OnUploadSuccess(s, a + b)
  {
    ToUploadedImagesConcat(a, b);
    assert s.uploadedImages + ToUploadedImages(a) + ToUploadedImages(b)
        == s.uploadedImages + ToUploadedImages(a + b);
  }

  /** The images that survive removing `id`. */
  function IdIsNot(id: string): UploadedImage -> bool {
    (img: UploadedImage) => img.id != id
  }

  /** `removeImage(id)`: every image with that id is gone, every other image
      stays, and nothing else changes. */
  function RemoveImage(s: AppState, id: string): (r: AppState)
    ensures forall k :: 0 <= k < |r.uploadedImages| ==> r.uploadedImages[k].id != id
    ensures forall k :: 0 <= k < |r.uploadedImages| ==> r.uploadedImages[k] in s.uploadedImages
    ensures forall k :: 0 <= k < |s.uploadedImages| && s.uploadedImages[k].id != id ==>
              s.uploadedImages[k] in r.uploadedImages
    ensures |r.uploadedImages| <= |s.uploadedImages|
    ensures r == s.(uploadedImages := r.uploadedImages)
  {
    App.UpdateAppState(s, NoUpdate.(uploadedImages := Some(JsArray.Filter(s.uploadedImages, IdIsNot(id)))))
  }

  /** Removal keeps the survivors in their original order: it acts on each
      part of the list separately. */
  lemma RemoveImageKeepsOrder(s: AppState, id: string, a: seq<UploadedImage>, b: seq<UploadedImage>)
    requires s.uploadedImages == a + b
    ensures RemoveImage(s, id).uploadedImages
            == RemoveImage(s.(uploadedImages := a), id).uploadedImages
               + RemoveImage(s.(uploadedImages := b), id).uploadedImages
  {
    JsArray.FilterConcat(a, b, IdIsNot(id));
  }

  /** Removing an id no image has changes nothing. */
  lemma RemoveAbsentImage(s: AppState, id: string)
    requires forall k :: 0 <= k < |s.uploadedImages| ==> s.uploadedImages[k].id != id
    ensures RemoveImage(s, id) == s
  {
    JsArray.FilterAllPass(s.uploadedImages, IdIsNot(id));
  }

  lemma RemoveImageIdempotent(s: AppState, id: string)
    ensures RemoveImage(RemoveImage(s, id), id) == RemoveImage(s, id)
  {
    RemoveAbsentImage(RemoveImage(s, id), id);
  }

  /** `handleContinue`: moves on to classification only when there is at
      least one image; otherwise the state is untouched. */
  function HandleContinue(s: AppState): (r: AppState)
    ensures |s.uploadedImages| == 0 ==> r == s
    ensures |s.uploadedImages| > 0 ==> r.currentScreen == Classifying && r.error == None
    ensures App.SameData(r, s)
  {
    if |s.uploadedImages| > 0 then App.NavigateToScreen(s, Classifying) else s
  }

  /** The back arrow: to the home screen, keeping every list. */
  function Back(s: AppState): (r: AppState)
    ensures r.currentScreen == Home && r.error == None && App.SameData(r, s)
  {
    App.NavigateToScreen(s, Home)
  }
}
