/** The screen state machine of `client/src/App.tsx`: one `AppState` value,
    changed only by `navigateToScreen` and `updateAppState`, and a render
    dispatch that picks one page per screen. */
module App {
  import opened Base
  import opened AppTypes

  /** The state every session starts in. */
  function InitialState(): (s: AppState)
    ensures s.currentScreen == Home
    ensures s.uploadedImages == [] && s.classifiedItems == [] && s.outfitRecommendations == []
    ensures !s.isLoading && s.error == None
  {
    AppState(Home, [], [], [], false, None)
  }

  /** The lists and the loading flag: everything but the screen and the error. */
  predicate SameData(a: AppState, b: AppState) {
    && a.uploadedImages == b.uploadedImages
    && a.classifiedItems == b.classifiedItems
    && a.outfitRecommendations == b.outfitRecommendations
    && a.isLoading == b.isLoading
  }

  /** `updateAppState(updates)`: `{...prev, ...updates}`. */
  function UpdateAppState(s: AppState, u: PartialAppState): (r: AppState)
    ensures u.currentScreen.Some? ==> r.currentScreen == u.currentScreen.value
    ensures u.currentScreen.None? ==> r.currentScreen == s.currentScreen
    ensures u.uploadedImages.Some? ==> r.uploadedImages == u.uploadedImages.value
    ensures u.uploadedImages.None? ==> r.uploadedImages == s.uploadedImages
    ensures u.classifiedItems.Some? ==> r.classifiedItems == u.classifiedItems.value
    ensures u.classifiedItems.None? ==> r.classifiedItems == s.classifiedItems
    ensures u.outfitRecommendations.Some? ==> r.outfitRecommendations == u.outfitRecommendations.value
    ensures u.outfitRecommendations.None? ==> r.outfitRecommendations == s.outfitRecommendations
    ensures u.isLoading.Some? ==> r.isLoading == u.isLoading.value
    ensures u.isLoading.None? ==> r.isLoading == s.isLoading
    ensures u.error.Some? ==> r.error == u.error.value
    ensures u.error.None? ==> r.error == s.error
  {
    AppState(
      u.currentScreen.GetOr(s.currentScreen),
      u.uploadedImages.GetOr(s.uploadedImages),
      u.classifiedItems.GetOr(s.classifiedItems),
      u.outfitRecommendations.GetOr(s.outfitRecommendations),
      u.isLoading.GetOr(s.isLoading),
      u.error.GetOr(s.error))
  }

  /** The object spread `{...u, ...v}` of two partial updates. */
  function Merge(u: PartialAppState, v: PartialAppState): PartialAppState {
    PartialAppState(
      if v.currentScreen.Some? then v.currentScreen else u.currentScreen,
      if v.uploadedImages.Some? then v.uploadedImages else u.uploadedImages,
      if v.classifiedItems.Some? then v.classifiedItems else u.classifiedItems,
      if v.outfitRecommendations.Some? then v.outfitRecommendations else u.outfitRecommendations,
      if v.isLoading.Some? then v.isLoading else u.isLoading,
      if v.error.Some? then v.error else u.error)
  }

  /** Two updates in a row are the one update that merges them, later fields winning. */
  lemma UpdateTwiceIsMerge(s: AppState, u: PartialAppState, v: PartialAppState)
    ensures UpdateAppState(UpdateAppState(s, u), v) == UpdateAppState(s, Merge(u, v))
  {
  }

  /** Applying the same partial update twice is applying it once. */
  lemma UpdateIdempotent(s: AppState, u: PartialAppState)
    ensures UpdateAppState(UpdateAppState(s, u), u) == UpdateAppState(s, u)
  {
    UpdateTwiceIsMerge(s, u, u);
  }

  /** The empty update changes nothing. */
  lemma UpdateNothing(s: AppState)
    ensures UpdateAppState(s, NoUpdate) == s
  {
  }

  /** `navigateToScreen(screen)`: `{...prev, currentScreen: screen, error: null}`.
      There is no guard: the origin screen plays no part. */
  function NavigateToScreen(s: AppState, screen: AppScreen): (r: AppState)
    ensures r.currentScreen == screen && r.error == None
    ensures SameData(r, s)
  {
    s.(currentScreen := screen, error := None)
  }

  /** Navigation is the partial update that sets the screen and clears the error. */
  lemma NavigateIsUpdate(s: AppState, screen: AppScreen)
    ensures NavigateToScreen(s, screen)
            == UpdateAppState(s, NoUpdate.(currentScreen := Some(screen), error := Some(None)))
  {
  }

  lemma NavigateIdempotent(s: AppState, screen: AppScreen)
    ensures NavigateToScreen(NavigateToScreen(s, screen), screen) == NavigateToScreen(s, screen)
  {
  }

  /** Any screen is reachable from any screen in one step, and where the step
      starts from does not affect where it ends. */
  lemma NavigateIgnoresOrigin(s: AppState, from: AppScreen, to: AppScreen)
    ensures NavigateToScreen(s.(currentScreen := from), to) == NavigateToScreen(s, to)
    ensures NavigateToScreen(s.(currentScreen := from), to).currentScreen == to
  {
  }

  /** The page component each screen renders. */
  datatype Page = HomePage | SelectionPage | ClassifyingPage | ConfirmationPage | GeneratingPage | ResultsPage

  /** The screen a page belongs to. */
  function ScreenOf(p: Page): AppScreen {
    match p
    case HomePage => Home
    case SelectionPage => Selection
    case ClassifyingPage => Classifying
    case ConfirmationPage => Confirmation
    case GeneratingPage => Generating
    case ResultsPage => Results
  }

  /** `renderCurrentScreen`: a total function of the current screen, each
      screen with its own page. (The source's `default` branch cannot be taken:
      the screen type has exactly the six cases.) */
  function RenderCurrentScreen(s: AppState): (p: Page)
    ensures ScreenOf(p) == s.currentScreen
  {
    match s.currentScreen
    case Home => HomePage
    case Selection => SelectionPage
    case Classifying => ClassifyingPage
    case Confirmation => ConfirmationPage
    case Generating => GeneratingPage
    case Results => ResultsPage
  }

  /** Rendering depends on the screen only, and distinct screens render
      distinct pages. */
  lemma RenderIsBijective(a: AppState, b: AppState)
    ensures RenderCurrentScreen(a) == RenderCurrentScreen(b) <==> a.currentScreen == b.currentScreen
  {
  }
}
