/** The whole client as one transition function: every event a mounted page
    can emit, dispatched to that page's handler. The pages emit only a fixed
    set of screen changes, although `navigateToScreen` itself would accept any. */
module Flow {
  import opened Base
  import opened AppTypes
  import App
  import Routes
  import Schema
  import SelectionPage
  import ClassifyingPage
  import ConfirmationPage
  import GeneratingPage
  import ResultsPage

  datatype Event =
    | GetStarted                                                   // home page button
    | UploadSucceeded(files: seq<Routes.UploadedFile>)             // selection page
    | RemoveImage(id: string)
    | SelectionBack
    | Continue
    | ClassifySucceeded(reply: Schema.ClassificationResponse)      // classifying page
    | ClassifyFailed(error: MutationError)
    | OverrideCategory(itemId: string, category: string)           // confirmation page
    | ConfirmationBack
    | ConfirmAndGenerate
    | GenerateSucceeded(outfits: Schema.OutfitGenerationResponse)  // generating page
    | GenerateFailed(error: MutationError)
    | ResultsBack                                                  // results page
    | AddMoreItems
    | StartOver

  /** The screen whose page emits the event. */
  function Source(e: Event): AppScreen {
    match e
    case GetStarted => Home
    case UploadSucceeded(_) => Selection
    case RemoveImage(_) => Selection
    case SelectionBack => Selection
    case Continue => Selection
    case ClassifySucceeded(_) => Classifying
    case ClassifyFailed(_) => Classifying
    case OverrideCategory(_, _) => Confirmation
    case ConfirmationBack => Confirmation
    case ConfirmAndGenerate => Confirmation
    case GenerateSucceeded(_) => Generating
    case GenerateFailed(_) => Generating
    case ResultsBack => Results
    case AddMoreItems => Results
    case StartOver => Results
  }

  /** Whether the event can happen in state `s`: its page is on screen, and a
      request's outcome only arrives when the request was sent. */
  predicate CanOccur(s: AppState, e: Event) {
    && s.currentScreen == Source(e)
    && ((e.ClassifySucceeded? || e.ClassifyFailed?) ==> |s.uploadedImages| > 0)
    && ((e.GenerateSucceeded? || e.GenerateFailed?) ==> |s.classifiedItems| > 0)
  }

  /** The state after the event; an event that cannot happen changes nothing. */
  function Step(s: AppState, e: Event): AppState {
    if CanOccur(s, e) then Handle(s, e) else s
  }

  /** The handler of the page that emits the event. */
  function Handle(s: AppState, e: Event): AppState {
    match e
      case GetStarted => App.NavigateToScreen(s, Selection)
      case UploadSucceeded(files) => SelectionPage.OnUploadSuccess(s, files)
      case RemoveImage(id) => SelectionPage.RemoveImage(s, id)
      case SelectionBack => SelectionPage.Back(s)
      case Continue => SelectionPage.HandleContinue(s)
      case ClassifySucceeded(reply) => ClassifyingPage.OnSuccess(s, reply)
      case ClassifyFailed(err) => ClassifyingPage.OnError(s, err)
      case OverrideCategory(id, category) => ConfirmationPage.UpdateItemCategory(s, id, category)
      case ConfirmationBack => ConfirmationPage.Back(s)
      case ConfirmAndGenerate => ConfirmationPage.Confirm(s)
      case GenerateSucceeded(outfits) => GeneratingPage.OnSuccess(s, outfits)
      case GenerateFailed(err) => GeneratingPage.OnError(s, err)
      case ResultsBack => ResultsPage.Back(s)
      case AddMoreItems => ResultsPage.AddMoreItems(s)
      case StartOver => ResultsPage.StartOver(s)
  }

  function Run(s: AppState, events: seq<Event>): AppState
    decreases |events|
  {
    if |events| == 0 then s else Run(Step(s, events[0]), events[1..])
  }

  /** The screen changes the pages can make. */
  predicate UiEdge(from: AppScreen, to: AppScreen) {
    match from
    case Home => to == Selection
    case Selection => to == Home || to == Classifying
    case Classifying => to == Confirmation
    case Confirmation => to == Selection || to == Generating
    case Generating => to == Results
    case Results => to == Confirmation || to == Selection || to == Home
  }

  /** Every step either stays on its screen or follows one of the UI's edges. */
  lemma StepFollowsUiEdges(s: AppState, e: Event)
    ensures Step(s, e).currentScreen == s.currentScreen || UiEdge(s.currentScreen, Step(s, e).currentScreen)
  {
  }

  /** ... and so does every step of a run. */
  lemma RunFollowsUiEdges(s: AppState, events: seq<Event>)
    ensures forall k :: 0 <= k < |events| ==>
              var before := Run(s, events[..k]).currentScreen;
              var after := Run(s, events[..k + 1]).currentScreen;
              before == after || UiEdge(before, after)
  {
    forall k | 0 <= k < |events|
      ensures var before := Run(s, events[..k]).currentScreen;
              var after := Run(s, events[..k + 1]).currentScreen;
              before == after || UiEdge(before, after)
    {
      assert events[..k + 1] == events[..k] + [events[k]];
      RunSnoc(s, events[..k], events[k]);
      StepFollowsUiEdges(Run(s, events[..k]), events[k]);
    }
  }

  /** Running one more event is one more step. */
  lemma {:induction false} RunSnoc(s: AppState, events: seq<Event>, e: Event)
    ensures Run(s, events + [e]) == Step(Run(s, events), e)
    decreases |events|
  {
    if |events| == 0 {
      assert events + [e] == [e];
      assert [e][1..] == [];
    } else {
      assert (events + [e])[0] == events[0];
      assert (events + [e])[1..] == events[1..] + [e];
      RunSnoc(Step(s, events[0]), events[1..], e);
    }
  }

  /** `navigateToScreen` alone is not bound by the UI's edges: it jumps from
      the home screen straight to the results screen. */
  lemma NavigateIsUnguarded()
    ensures !UiEdge(Home, Results)
    ensures App.NavigateToScreen(App.InitialState(), Results).currentScreen == Results
  {
  }

  /** The whole flow: get started, upload a non-empty batch, continue,
      receive a classification, override one category, generate, receive
      outfits. The results screen then shows the provider's recommendations
      verbatim, next to the uploaded batch. */
  lemma HappyPath(
    files: seq<Routes.UploadedFile>, reply: Schema.ClassificationResponse,
    itemId: string, category: string, outfits: Schema.OutfitGenerationResponse)
    requires |files| > 0 && |reply.classifiedItems| > 0
    ensures var r := Run(App.InitialState(),
                         [GetStarted, UploadSucceeded(files), Continue, ClassifySucceeded(reply),
                          OverrideCategory(itemId, category), ConfirmAndGenerate, GenerateSucceeded(outfits)]);
            && r.currentScreen == Results
            && r.error == None
            && r.outfitRecommendations == outfits.recommendations
            && r.uploadedImages == SelectionPage.ToUploadedImages(files)
            && |r.classifiedItems| == |reply.classifiedItems|
            && forall k :: 0 <= k < |reply.classifiedItems| ==>
                 var item := reply.classifiedItems[k];
                 && r.classifiedItems[k].id == item.id
                 && r.classifiedItems[k].confidenceScore == item.confidenceScore
                 && r.classifiedItems[k].predictedCategory
                    == (if item.id == itemId then category else item.predictedCategory)
                 && r.classifiedItems[k].imageUrl == Some(ClassifyingPage.PreviewFor(r.uploadedImages, item.id))
  {
    var es := [GetStarted, UploadSucceeded(files), Continue, ClassifySucceeded(reply),
               OverrideCategory(itemId, category), ConfirmAndGenerate, GenerateSucceeded(outfits)];
    var s0 := App.InitialState();
    var s1 := SelectionScreenReached(s0);
    var s2 := UploadStep(s1, files);
    var s3 := ContinueStep(s2);
    var s4 := ClassifiedStep(s3, reply);
    var s5 := OverrideStep(s4, itemId, category);
    var s6 := ConfirmStep(s5);
    var s7 := GeneratedStep(s6, outfits);
    RunUnfold(s0, es);
    RunUnfold(s1, es[1..]);
    RunUnfold(s2, es[2..]);
    RunUnfold(s3, es[3..]);
    RunUnfold(s4, es[4..]);
    RunUnfold(s5, es[5..]);
    RunUnfold(s6, es[6..]);
    assert es[7..] == [];
  }

  lemma RunUnfold(s: AppState, events: seq<Event>)
    requires |events| > 0
    ensures Run(s, events) == Run(Step(s, events[0]), events[1..])
  {
  }

  lemma SelectionScreenReached(s: AppState) returns (r: AppState)
    requires s.currentScreen == Home
    ensures r == Step(s, GetStarted) && r.currentScreen == Selection && r.uploadedImages == s.uploadedImages
  {
    r := Step(s, GetStarted);
  }

  lemma UploadStep(s: AppState, files: seq<Routes.UploadedFile>) returns (r: AppState)
    requires s.currentScreen == Selection
    ensures r == Step(s, UploadSucceeded(files)) && r.currentScreen == Selection
    ensures r.uploadedImages == s.uploadedImages + SelectionPage.ToUploadedImages(files)
  {
    r := Step(s, UploadSucceeded(files));
  }

  lemma ContinueStep(s: AppState) returns (r: AppState)
    requires s.currentScreen == Selection && |s.uploadedImages| > 0
    ensures r == Step(s, Continue) && r.currentScreen == Classifying && r.uploadedImages == s.uploadedImages
  {
    r := Step(s, Continue);
  }

  lemma ClassifiedStep(s: AppState, reply: Schema.ClassificationResponse) returns (r: AppState)
    requires s.currentScreen == Classifying && |s.uploadedImages| > 0
    ensures r == Step(s, ClassifySucceeded(reply)) && r.currentScreen == Confirmation
    ensures r.uploadedImages == s.uploadedImages && |r.classifiedItems| == |reply.classifiedItems|
    ensures forall k :: 0 <= k < |reply.classifiedItems| ==>
              && r.classifiedItems[k].id == reply.classifiedItems[k].id
              && r.classifiedItems[k].confidenceScore == reply.classifiedItems[k].confidenceScore
              && r.classifiedItems[k].predictedCategory == reply.classifiedItems[k].predictedCategory
              && r.classifiedItems[k].imageUrl == Some(ClassifyingPage.PreviewFor(s.uploadedImages, reply.classifiedItems[k].id))
  {
    r := Step(s, ClassifySucceeded(reply));
  }

  lemma OverrideStep(s: AppState, itemId: string, category: string) returns (r: AppState)
    requires s.currentScreen == Confirmation
    ensures r == Step(s, OverrideCategory(itemId, category)) && r.currentScreen == Confirmation
    ensures r.uploadedImages == s.uploadedImages && |r.classifiedItems| == |s.classifiedItems|
    ensures forall k :: 0 <= k < |s.classifiedItems| ==>
              r.classifiedItems[k]
              == if s.classifiedItems[k].id == itemId
                 then s.classifiedItems[k].(predictedCategory := category)
                 else s.classifiedItems[k]
  {
    r := Step(s, OverrideCategory(itemId, category));
  }

  lemma ConfirmStep(s: AppState) returns (r: AppState)
    requires s.currentScreen == Confirmation
    ensures r == Step(s, ConfirmAndGenerate) && r.currentScreen == Generating && App.SameData(r, s)
  {
    r := Step(s, ConfirmAndGenerate);
  }

  lemma GeneratedStep(s: AppState, outfits: Schema.OutfitGenerationResponse) returns (r: AppState)
    requires s.currentScreen == Generating && |s.classifiedItems| > 0
    ensures r == Step(s, GenerateSucceeded(outfits)) && r.currentScreen == Results && r.error == None
    ensures r.outfitRecommendations == outfits.recommendations
    ensures r.uploadedImages == s.uploadedImages && r.classifiedItems == s.classifiedItems
  {
    r := Step(s, GenerateSucceeded(outfits));
  }
}
