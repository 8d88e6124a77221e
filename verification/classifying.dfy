/** The classifying page (`client/src/pages/classifying.tsx`): builds the
    classification request from the uploaded images and, on the reply, joins
    each classified item to its image's preview URL by id. */
module ClassifyingPage {
  import opened Base
  import opened AppTypes
  import App
  import JsArray
  import Schema

  /** The request sent on entering the page, or `None` when there is nothing
      to classify (then no request is made). */
  function BuildRequest(s: AppState): (r: Option<Schema.ClassificationRequest>)
    ensures r.None? <==> |s.uploadedImages| == 0
    ensures r.Some? ==> |r.value.images| == |s.uploadedImages|
    ensures r.Some? ==> forall k :: 0 <= k < |s.uploadedImages| ==>
              r.value.images[k].id == s.uploadedImages[k].id
              && r.value.images[k].imageData == s.uploadedImages[k].imageData
  {
    if |s.uploadedImages| > 0 then
      Some(Schema.ClassificationRequest(
        seq(|s.uploadedImages|, k requires 0 <= k < |s.uploadedImages| =>
          Schema.ImageRef(s.uploadedImages[k].id, s.uploadedImages[k].imageData))))
    else None
  }

  /** Whatever was uploaded, the request satisfies the server's request schema. */
  lemma RequestPassesSchema(s: AppState)
    requires |s.uploadedImages| > 0
    ensures Schema.ParseClassificationRequest(Schema.ClassificationRequestToJson(BuildRequest(s).value))
            == BuildRequest(s)
  {
    Schema.ClassificationRequestRoundTrip(BuildRequest(s).value);
  }

  function HasImageId(id: string): UploadedImage -> bool {
    (img: UploadedImage) => img.id == id
  }

  /** `uploadedImages.find(img => img.id === id)?.previewUrl || ''`. */
  function PreviewFor(images: seq<UploadedImage>, id: string): (url: string)
    ensures (forall k :: 0 <= k < |images| ==> images[k].id != id) ==> url == ""
    ensures url != "" ==> exists k :: 0 <= k < |images| && images[k].id == id
                                      && images[k].previewUrl == Some(url)
                                      && forall j :: 0 <= j < k ==> images[j].id != id
  {
    match JsArray.Find(images, HasImageId(id))
    case None => ""
    case Some(img) => img.previewUrl.GetOr("")
  }

  /** The preview of the first image carrying the id is the one chosen. */
  lemma PreviewForFirstMatch(images: seq<UploadedImage>, id: string, k: nat)
    requires k < |images| && images[k].id == id
    requires forall j :: 0 <= j < k ==> images[j].id != id
    ensures PreviewFor(images, id) == images[k].previewUrl.GetOr("")
  {
    JsArray.FindIsFirstMatch(images, HasImageId(id), k);
  }

  /** One reply item as stored on the client: `{...item, imageUrl}`. */
  function ToClassifiedItem(c: Schema.Classification, images: seq<UploadedImage>): ClassifiedItem {
    ClassifiedItem(c.id, c.predictedCategory, c.confidenceScore, Some(PreviewFor(images, c.id)))
  }

  function JoinPreviews(items: seq<Schema.Classification>, images: seq<UploadedImage>): (r: seq<ClassifiedItem>)
    ensures |r| == |items|
    ensures forall k :: 0 <= k < |items| ==> r[k] == ToClassifiedItem(items[k], images)
  {
    seq(|items|, k requires 0 <= k < |items| => ToClassifiedItem(items[k], images))
  }

  /** `onSuccess`: the reply's items, in the reply's order, each with its id,
      category and confidence kept and its image URL looked up by id; then
      the confirmation screen with the error cleared. The uploaded images and
      the recommendations are untouched. */
  function OnSuccess(s: AppState, response: Schema.ClassificationResponse): (r: AppState)
    ensures |r.classifiedItems| == |response.classifiedItems|
    ensures forall k :: 0 <= k < |response.classifiedItems| ==>
              && r.classifiedItems[k].id == response.classifiedItems[k].id
              && r.classifiedItems[k].predictedCategory == response.classifiedItems[k].predictedCategory
              && r.classifiedItems[k].confidenceScore == response.classifiedItems[k].confidenceScore
              && r.classifiedItems[k].imageUrl == Some(PreviewFor(s.uploadedImages, response.classifiedItems[k].id))
    ensures r.currentScreen == Confirmation && r.error == None
    ensures r.uploadedImages == s.uploadedImages && r.outfitRecommendations == s.outfitRecommendations
    ensures r.isLoading == s.isLoading
  {
    var classified := JoinPreviews(response.classifiedItems, s.uploadedImages);
    App.NavigateToScreen(App.UpdateAppState(s, NoUpdate.(classifiedItems := Some(classified))), Confirmation)
  }

  /** When the provider answers with the uploaded ids in upload order and the
      ids are distinct, every classified item shows its own image's preview. */
  lemma OnSuccessJoinsByPosition(s: AppState, response: Schema.ClassificationResponse)
    requires |response.classifiedItems| == |s.uploadedImages|
    requires forall k :: 0 <= k < |s.uploadedImages| ==> response.classifiedItems[k].id == s.uploadedImages[k].id
    requires forall i, j :: 0 <= i < j < |s.uploadedImages| ==> s.uploadedImages[i].id != s.uploadedImages[j].id
    ensures forall k :: 0 <= k < |s.uploadedImages| ==>
              OnSuccess(s, response).classifiedItems[k].imageUrl
              == Some(s.uploadedImages[k].previewUrl.GetOr(""))
  {
    forall k | 0 <= k < |s.uploadedImages|
      ensures PreviewFor(s.uploadedImages, response.classifiedItems[k].id) == s.uploadedImages[k].previewUrl.GetOr("")
    {
      PreviewForFirstMatch(s.uploadedImages, s.uploadedImages[k].id, k);
    }
  }

  /** `onError`: the error text is shown; screen and lists stay as they were. */
  function OnError(s: AppState, e: MutationError): (r: AppState)
    ensures r.error == Some(ErrorText(e, "Failed to classify items"))
    ensures r.currentScreen == s.currentScreen && App.SameData(r, s)
  {
    App.UpdateAppState(s, NoUpdate.(error := Some(Some(ErrorText(e, "Failed to classify items")))))
  }
}
