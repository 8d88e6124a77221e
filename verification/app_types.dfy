/** The client's data model (`client/src/lib/types.ts`). */
module AppTypes {
  import opened Base
  import Schema

  /** The six screens of the flow. */
  datatype AppScreen = Home | Selection | Classifying | Confirmation | Generating | Results

  datatype UploadedImage = UploadedImage(
    id: string, imageData: string, mimetype: string, originalname: string,
    previewUrl: Option<string>)

  /** `predictedCategory` is a plain string on the client: nothing here
      restricts it to the schema's enumeration. */
  datatype ClassifiedItem = ClassifiedItem(
    id: string, predictedCategory: string, confidenceScore: real,
    imageUrl: Option<string>)

  /** The client stores the generation response's recommendations as they come. */
  type OutfitRecommendation = Schema.Recommendation

  /** The single source of truth of the client. */
  datatype AppState = AppState(
    currentScreen: AppScreen,
    uploadedImages: seq<UploadedImage>,
    classifiedItems: seq<ClassifiedItem>,
    outfitRecommendations: seq<OutfitRecommendation>,
    isLoading: bool,
    error: Option<string>)

  /** `Partial<AppState>`: every field may be absent. `error` may be present
      with the value `null`, hence the nested option. */
  datatype PartialAppState = PartialAppState(
    currentScreen: Option<AppScreen>,
    uploadedImages: Option<seq<UploadedImage>>,
    classifiedItems: Option<seq<ClassifiedItem>>,
    outfitRecommendations: Option<seq<OutfitRecommendation>>,
    isLoading: Option<bool>,
    error: Option<Option<string>>)

  /** The empty partial update `{}`. */
  const NoUpdate: PartialAppState := PartialAppState(None, None, None, None, None, None)

  /** What a rejected request hands to `onError`: an `Error` object, or some
      other thrown value. */
  datatype MutationError = ErrorInstance(message: string) | NonErrorValue

  /** `error instanceof Error ? error.message : fallback`. */
  function ErrorText(e: MutationError, fallback: string): (r: string)
    ensures e.ErrorInstance? ==> r == e.message
    ensures e.NonErrorValue? ==> r == fallback
  {
    match e
    case ErrorInstance(m) => m
    case NonErrorValue => fallback
  }
}
