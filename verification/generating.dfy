/** The generating page (`client/src/pages/generating.tsx`): builds the
    outfit-generation request from the confirmed items and stores the reply. */
module GeneratingPage {
  import opened Base
  import opened AppTypes
  import App
  import Schema
  import ClassifyingPage
  import ConfirmationPage

  /** The preferences the client always sends. */
  const DefaultPreferences: Schema.Preferences := Schema.Preferences(Some("Casual"), Some("Everyday"))

  /** One confirmed item as sent: a missing image URL becomes the empty
      string, and the category is sent as is (the client does not check it). */
  function ToItemRef(item: ClassifiedItem): Schema.ItemRef {
    Schema.ItemRef(item.id, item.predictedCategory, item.imageUrl.GetOr(""))
  }

  /** The request sent on entering the page, or `None` when there are no
      classified items (then no request is made). */
  function BuildRequest(s: AppState): (r: Option<Schema.OutfitGenerationRequest>)
    ensures r.None? <==> |s.classifiedItems| == 0
    ensures r.Some? ==> |r.value.items| == |s.classifiedItems|
    ensures r.Some? ==> forall k :: 0 <= k < |s.classifiedItems| ==>
              && r.value.items[k].id == s.classifiedItems[k].id
              && r.value.items[k].category == s.classifiedItems[k].predictedCategory
              && r.value.items[k].imageUrl == (if s.classifiedItems[k].imageUrl.Some?
                                               then s.classifiedItems[k].imageUrl.value else "")
    ensures r.Some? ==> r.value.userPreferences == Some(Schema.Preferences(Some("Casual"), Some("Everyday")))
  {
    var items := s.classifiedItems;
    if |items| > 0 then
      Some(Schema.OutfitGenerationRequest(
        seq(|items|, k requires 0 <= k < |items| => ToItemRef(items[k])),
        Some(DefaultPreferences)))
    else None
  }

  /** The server accepts the request exactly when every category is in the
      enumeration; the client itself never checks this. */
  lemma RequestPassesSchemaIff(s: AppState)
    requires |s.classifiedItems| > 0
    ensures Schema.ParseGenerationRequest(Schema.GenerationRequestToJson(BuildRequest(s).value)).Some?
            <==> ConfirmationPage.CategoriesValid(s.classifiedItems)
  {
    var req := BuildRequest(s).value;
    Schema.GenerationRequestRoundTrip(req);
    assert Schema.ValidGenerationRequest(req) <==> ConfirmationPage.CategoriesValid(s.classifiedItems) by {
      assert forall k :: 0 <= k < |req.items| ==> req.items[k].category == s.classifiedItems[k].predictedCategory;
    }
  }

  /** A sequence of category overrides made from the confirmation menu. */
  function ApplyOverrides(s: AppState, overrides: seq<(string, string)>): AppState
    decreases |overrides|
  {
    if |overrides| == 0 then s
    else ApplyOverrides(ConfirmationPage.UpdateItemCategory(s, overrides[0].0, overrides[0].1), overrides[1..])
  }

  lemma {:induction false} OverridesKeepCategoriesValid(s: AppState, overrides: seq<(string, string)>)
    requires ConfirmationPage.CategoriesValid(s.classifiedItems)
    requires forall k :: 0 <= k < |overrides| ==> overrides[k].1 in ConfirmationPage.Categories
    ensures ConfirmationPage.CategoriesValid(ApplyOverrides(s, overrides).classifiedItems)
    ensures |ApplyOverrides(s, overrides).classifiedItems| == |s.classifiedItems|
    decreases |overrides|
  {
    if |overrides| > 0 {
      var next := ConfirmationPage.UpdateItemCategory(s, overrides[0].0, overrides[0].1);
      ConfirmationPage.UpdateKeepsCategoriesValid(s, overrides[0].0, overrides[0].1);
      OverridesKeepCategoriesValid(next, overrides[1..]);
    }
  }

  /** A classification reply that satisfies its schema, followed by any
      overrides picked from the menu, yields a generation request the server
      accepts. */
  lemma ValidReplyGivesValidRequest(
    s: AppState, reply: Schema.ClassificationResponse, overrides: seq<(string, string)>)
    requires Schema.ValidClassificationResponse(reply) && |reply.classifiedItems| > 0
    requires forall k :: 0 <= k < |overrides| ==> overrides[k].1 in ConfirmationPage.Categories
    ensures var confirmed := ApplyOverrides(ClassifyingPage.OnSuccess(s, reply), overrides);
            BuildRequest(confirmed).Some?
            && Schema.ParseGenerationRequest(Schema.GenerationRequestToJson(BuildRequest(confirmed).value))
               == BuildRequest(confirmed)
  {
    var classified := ClassifyingPage.OnSuccess(s, reply);
    assert ConfirmationPage.CategoriesValid(classified.classifiedItems);
    OverridesKeepCategoriesValid(classified, overrides);
    var confirmed := ApplyOverrides(classified, overrides);
    RequestPassesSchemaIff(confirmed);
    Schema.GenerationRequestRoundTrip(BuildRequest(confirmed).value);
  }

  /** `onSuccess`: the reply's recommendations are stored verbatim, whatever
      their number, and the results screen is shown with the error cleared. */
  function OnSuccess(s: AppState, response: Schema.OutfitGenerationResponse): (r: AppState)
    ensures r.outfitRecommendations == response.recommendations
    ensures r.currentScreen == Results && r.error == None
    ensures r.uploadedImages == s.uploadedImages && r.classifiedItems == s.classifiedItems
    ensures r.isLoading == s.isLoading
  {
    App.NavigateToScreen(
      App.UpdateAppState(s, NoUpdate.(outfitRecommendations := Some(response.recommendations))),
      Results)
  }

  /** `onError`: the error text is shown and there is no navigation. */
  function OnError(s: AppState, e: MutationError): (r: AppState)
    ensures r.error == Some(ErrorText(e, "Failed to generate outfits"))
    ensures r.currentScreen == s.currentScreen && App.SameData(r, s)
  {
    App.UpdateAppState(s, NoUpdate.(error := Some(Some(ErrorText(e, "Failed to generate outfits")))))
  }
}
