# Outfit suggester: a Dafny model of the orchestration layer

The application lets a user upload photos of clothing, has an AI service
classify each item into one of eight categories, lets the user correct the
categories, and then has an AI service propose outfits. The AI calls are opaque.
What remains is the code around them, and this project models that code:

- **the client state machine** (`client/src/App.tsx`, the five page
  components): one immutable `AppState` value that changes only through
  `navigateToScreen` and `updateAppState`. Each page handler is a pure function
  from a state (and, where there is one, the server's reply) to a state. The
  `Flow` module puts all handlers together into one transition function over
  the events the mounted page can emit.
- **the in-memory store** (`server/storage.ts`): three maps, each with its own
  auto-incrementing counter, and create/get operations only.
- **the upload route** (`server/routes.ts`): the image-type filter, the
  limits of 10 files and 10 MiB per file, and the `temp_<now>_<index>` ids.
  The two AI-backed routes validate the request and pass the reply through.
- **the request/response schemas** (`shared/schema.ts`): each Zod schema is a
  parser from a JSON value to a typed record. An encoder goes the other way,
  and a round-trip lemma states exactly which records the schema accepts.

Files: `base.dfy` (Option/Result), `js_array.dfy` (the JavaScript semantics of
`find`, `filter`, `filter(Boolean)`, out-of-range indexing and `lastIndexOf`),
`decimal.dfy` (how `${n}` renders a non-negative integer), `json.dfy`,
`schema.dfy`, `storage.dfy`, `routes.dfy`, `app_types.dfy`, `app.dfy`,
`selection.dfy`, `classifying.dfy`, `confirmation.dfy`, `generating.dfy`,
`results.dfy`, `flow.dfy`, `provider_reply.dfy` (the classification reply as
the AI providers shape it; see Findings).

Parameters stand in for what the model cannot see:

- `Date.now()` is a `clock: nat -> nat`, read once per file as the source's `map` does.
- The Buffer-to-base64 conversion is an `encode` function.
- Each AI provider is a function from the validated request to `Ok(reply)` or `Err(message)`.

## Behaviour worth noting

- The upload size limit (`server/routes.ts:17`, commented "10MB limit") is
  multer's `limits.fileSize`, so it applies to each file: 10 MiB per file, and
  up to ten such files in one request.
- The 400 response is sent only when `req.files` is not an array. With
  `upload.array`, multer sets `req.files` to an array for every multipart
  request, so this happens only when the request is not multipart at all. A
  multipart request with no `images` field or an empty one gets a 200 response
  with an empty `files` list (`Routes.UploadImages`). This relies on multer's
  own code, which is not part of this model.
- Rejections by multer (wrong type, an 11th file, too large) are raised before the
  handler runs. Their HTTP status comes from error middleware that is not part of
  this model, so `Rejected` carries no status code.
- The server never applies `classificationResponseSchema` or
  `outfitGenerationResponseSchema`. The provider's reply reaches the client
  unchecked (`Routes.ClassifyPassesUnvalidatedReply`). The categories and
  confidence ranges are guaranteed only when the reply happens to satisfy the
  schema (`Schema.ClassificationResponseRoundTrip`,
  `GeneratingPage.ValidReplyGivesValidRequest`).
- "Start Over" on the results screen only navigates home. The images, items and
  recommendations are kept, so there is no full reset (`ResultsPage.StartOver`).

## Model

| member | source | states |
|---|---|---|
| App.InitialState | client/src/App.tsx:16-23 | a session starts on the home screen with all three lists empty, not loading, and no error |
| App.UpdateAppState | client/src/App.tsx:29-31 | each field present in the partial update is set to the update's value; each absent field keeps its previous value |
| App.UpdateTwiceIsMerge | client/src/App.tsx:29-31 | two updates in a row equal one update with the spread `{...u, ...v}`, where later fields win |
| App.UpdateIdempotent | client/src/App.tsx:30 | applying the same partial update twice equals applying it once |
| App.UpdateNothing | client/src/App.tsx:30 | the empty update `{}` leaves the state unchanged |
| App.NavigateToScreen | client/src/App.tsx:25-27 | the result is on the requested screen with no error; the lists and the loading flag are unchanged |
| App.NavigateIsUpdate | client/src/App.tsx:25-31 | navigation is the partial update that sets the screen and sets the error to null |
| App.NavigateIdempotent | client/src/App.tsx:26 | navigating to a screen twice equals navigating once |
| App.NavigateIgnoresOrigin | client/src/App.tsx:25-27 | there is no guard: from any screen, navigation reaches the target, and the result does not depend on the starting screen |
| App.RenderCurrentScreen | client/src/App.tsx:33-52 | rendering is total, and the rendered page belongs to the current screen |
| App.RenderIsBijective | client/src/App.tsx:36-51 | two states render the same page exactly when they are on the same screen: each of the six screens has its own page |
| SelectionPage.HandleFileSelect | client/src/pages/selection.tsx:52-56 | an upload is sent exactly when the file list is non-null and non-empty, and it sends that list |
| SelectionPage.PreviewUrlRoundTrip | client/src/pages/selection.tsx:31 | the `data:` preview URL can be split back into the media type and the base64 payload it was built from |
| SelectionPage.OnUploadSuccess | client/src/pages/selection.tsx:28-37 | the old images stay as a prefix; the length is old + new; each new image copies the record's fields and gets `data:<mimetype>;base64,<data>` as its preview; nothing else changes |
| SelectionPage.UploadBatchesCompose | client/src/pages/selection.tsx:34-36 | two successful uploads in a row leave the same state as one upload of both batches |
| SelectionPage.RemoveImage | client/src/pages/selection.tsx:69-73 | afterwards no image has the id; every other image remains; no image is invented; only the image list changes |
| SelectionPage.RemoveImageKeepsOrder | client/src/pages/selection.tsx:71 | removal distributes over concatenation, so the survivors keep their original order |
| SelectionPage.RemoveAbsentImage | client/src/pages/selection.tsx:71 | removing an id that no image has leaves the state unchanged |
| SelectionPage.RemoveImageIdempotent | client/src/pages/selection.tsx:69-73 | removing the same id twice equals removing it once |
| SelectionPage.HandleContinue | client/src/pages/selection.tsx:75-79 | with no images the state is unchanged; otherwise the screen becomes `classifying` with no error and the data is kept |
| SelectionPage.Back | client/src/pages/selection.tsx:86 | the back arrow goes to `home` and keeps the data |
| ClassifyingPage.BuildRequest | client/src/pages/classifying.tsx:35-46 | no request is made when there are no images; otherwise the request has the same length and order as the images, with each id and imageData copied |
| ClassifyingPage.RequestPassesSchema | client/src/pages/classifying.tsx:37-42 | the built request always satisfies the server's classification request schema |
| ClassifyingPage.PreviewFor | client/src/pages/classifying.tsx:22 | the URL is `''` when no image has the id; a non-empty URL is the preview of the first image with that id |
| ClassifyingPage.PreviewForFirstMatch | client/src/pages/classifying.tsx:22 | when the first image with the id is at position k, the URL is that image's preview, or `''` if it has none |
| ClassifyingPage.OnSuccess | client/src/pages/classifying.tsx:19-27 | the classified items follow the reply's length and order and keep id, category and confidence; each imageUrl is looked up by id; the screen becomes `confirmation` with no error; the images and recommendations are unchanged |
| ClassifyingPage.OnSuccessJoinsByPosition | client/src/pages/classifying.tsx:20-23 | if the reply repeats the distinct uploaded ids in order, each item shows the preview of its own image |
| ClassifyingPage.OnError | client/src/pages/classifying.tsx:28-32 | the error becomes the error's message, or the fixed fallback text; the screen and the data are unchanged |
| ConfirmationPage.CategoriesAreSchemaEnum | client/src/pages/confirmation.tsx:11 | the override menu offers exactly the schemas' eight-value enumeration |
| ConfirmationPage.UpdateItemCategory | client/src/pages/confirmation.tsx:14-19 | each item with the id gets the new category and keeps its other fields; other items, the length and order, and the rest of the state are unchanged |
| ConfirmationPage.UpdateItemCategoryIdempotent | client/src/pages/confirmation.tsx:14-19 | applying the same override twice equals applying it once |
| ConfirmationPage.UpdateItemCategoryLastWins | client/src/pages/confirmation.tsx:14-19 | of two overrides of the same id, the later one wins |
| ConfirmationPage.UpdateItemCategoryCommutes | client/src/pages/confirmation.tsx:14-19 | overrides of different ids commute |
| ConfirmationPage.UpdateKeepsCategoriesValid | client/src/pages/confirmation.tsx:11-19 | an override chosen from the menu keeps every item's category inside the schema enumeration |
| ConfirmationPage.TierMonotone | client/src/pages/confirmation.tsx:21-25 | the tiers (high at 0.8 or more, medium at 0.6 or more, else low) are monotone in confidence |
| ConfirmationPage.ConfidenceColor | client/src/pages/confirmation.tsx:21-25 | the colour's thresholds give exactly the tier partition: green for high, yellow for medium, red for low |
| ConfirmationPage.ConfidenceIcon | client/src/pages/confirmation.tsx:27-31 | the icon's thresholds give the same tier partition |
| ConfirmationPage.BorderColor | client/src/pages/confirmation.tsx:33-37 | the border's thresholds give the same tier partition |
| ConfirmationPage.StylesAgree | client/src/pages/confirmation.tsx:21-37 | two confidences get the same colour iff they get the same icon, iff they get the same border, iff they are in the same tier |
| ConfirmationPage.Back | client/src/pages/confirmation.tsx:44 | the back arrow goes to `selection` and keeps the data |
| ConfirmationPage.Confirm | client/src/pages/confirmation.tsx:116 | the confirm button goes to `generating` and keeps the data |
| GeneratingPage.BuildRequest | client/src/pages/generating.tsx:30-46 | no request is made when there are no items; otherwise the request has the same length and order as the items, copies each id and category, sends a missing imageUrl as `''`, and always has style "Casual" and occasion "Everyday" |
| GeneratingPage.RequestPassesSchemaIff | client/src/pages/generating.tsx:33-37 | the server accepts the request iff every item's category is in the enumeration, which the client does not check |
| GeneratingPage.OverridesKeepCategoriesValid | client/src/pages/confirmation.tsx:14-19 | any sequence of menu overrides keeps the categories valid and the item count unchanged |
| GeneratingPage.ValidReplyGivesValidRequest | client/src/pages/generating.tsx:32-42 | a schema-valid classification reply followed by any menu overrides yields a generation request that the server accepts |
| GeneratingPage.OnSuccess | client/src/pages/generating.tsx:19-22 | the recommendations are stored verbatim, with no check on their count; the screen becomes `results` with no error; the other lists are unchanged |
| GeneratingPage.OnError | client/src/pages/generating.tsx:23-27 | the error text is set and there is no navigation |
| ResultsPage.GetOutfitItems | client/src/pages/results.tsx:11-15 | every returned item is a classified item whose id is among the requested ids; the output is never longer than the id list |
| ResultsPage.GetOutfitItemsConcat | client/src/pages/results.tsx:12-14 | resolution works id by id, so the output follows the order of the ids |
| ResultsPage.GetOutfitItemsSingle | client/src/pages/results.tsx:12-14 | an id with no classified item is dropped; an id that matches resolves to the first classified item with that id |
| ResultsPage.GetOutfitItemsAllFound | client/src/pages/results.tsx:11-15 | when every id matches an item, nothing is dropped and the k-th output carries the k-th id |
| ResultsPage.GradientClass | client/src/pages/results.tsx:17-24 | indices 0 to 2 get their own gradient; any other index gets the first gradient |
| ResultsPage.GridColumns | client/src/pages/results.tsx:82-85 | 2 columns for at most 2 items, 3 for exactly 3, and 4 otherwise, i.e. the item count clamped to [2, 4] |
| ResultsPage.GridColumnsMonotone | client/src/pages/results.tsx:82-85 | more items never give fewer columns |
| ResultsPage.Back | client/src/pages/results.tsx:31 | the back arrow goes to `confirmation` and keeps the data |
| ResultsPage.AddMoreItems | client/src/pages/results.tsx:129 | "Add More Items" goes to `selection` and keeps the data |
| ResultsPage.StartOver | client/src/pages/results.tsx:136 | "Start Over" only goes to `home`; the images, items and recommendations are all kept |
| Flow.StepFollowsUiEdges | client/src/App.tsx:36-51 | any event of the mounted page either stays on the screen or follows one of the ten screen edges the pages contain |
| Flow.RunFollowsUiEdges | client/src/App.tsx:36-51 | in any run of events, every single step either keeps the screen or follows one of those edges |
| Flow.NavigateIsUnguarded | client/src/App.tsx:25-27 | `navigateToScreen` also takes steps outside the UI's edges, such as from home straight to results |
| Flow.HappyPath | client/src/pages/generating.tsx:19-22 | get started, upload, continue, classify, override, confirm and generate end on `results` with no error, showing the provider's recommendations verbatim and exactly the uploaded images; each classified item keeps the reply's id and confidence and the image preview joined by id, and its category is the reply's unless the override named its id |
| Storage.Empty | server/storage.ts:21-28 | a fresh store has three empty maps, all counters at 1, and satisfies the store invariant |
| Storage.Lookup | server/storage.ts:30-32 | `get*` finds a record exactly when its id is stored and returns that record; an unknown id gives nothing |
| Storage.GetUserByUsername | server/storage.ts:34-38 | returns the user with the matching username and the smallest id, which is the earliest inserted; returns nothing iff no user has that name |
| Storage.CreateUser | server/storage.ts:40-45 | the id is the current counter; only the user counter advances, by one; the record can be found under its id; no other id, map or counter changes; the id is fresh and larger than every stored id |
| Storage.CreateClothingItem | server/storage.ts:47-57 | same as CreateUser for items; a confidence of 0 or null is stored as null, and so is an empty or null original category |
| Storage.CreateOutfit | server/storage.ts:63-73 | same as CreateUser for outfits; itemIds and reasoningTags are stored with the same contents |
| Storage.ReachableIsValid | server/storage.ts:40-73 | every store reached by creates from a valid store is valid: each map holds exactly the ids 1 to counter-1, each under its own id |
| Storage.ReplayCounters | server/storage.ts:40-73 | counters never decrease, and each create advances exactly one counter by one |
| Storage.UserIdsIncrease | server/storage.ts:41 | two user creates in a row get consecutive, strictly increasing ids |
| Routes.CheckFile | server/routes.ts:14-29 | a file at stream position i passes iff i < 10, its mimetype starts with `image/`, and it has at most 10 MiB; a failing file gets the error of the first failing test, in the order count, then type, then size |
| Routes.CheckFiles | server/routes.ts:14-29 | a request passes multer iff it has at most 10 files, each an image of at most 10 MiB; one bad file rejects the whole request |
| Routes.UploadImages | server/routes.ts:29-50 | 400 exactly when there is no files array; rejected exactly when the limits fail; otherwise there is one record per file, in order, with the file's mimetype, name and encoded bytes; the k-th id is `temp_<clock(k)>_<k>`, and the ids are pairwise distinct |
| Routes.TempIdsDistinct | server/routes.ts:36 | `temp_<now>_<index>` ids built from different indices differ, whatever the two clock readings are |
| Routes.TempIdsPairwiseDistinct | server/routes.ts:35-40 | the ids in one upload response are pairwise distinct, even when the clock moves during the mapping |
| Routes.ClassifyItems | server/routes.ts:53-65 | success iff the body passes the request schema and the provider succeeds; the provider's reply is returned unchanged; every failure is a 500 with "Failed to classify items" |
| Routes.GenerateOutfits | server/routes.ts:68-80 | success iff the body passes the request schema and the provider succeeds, so every accepted request has enumeration categories; every failure is a 500 with "Failed to generate outfits" |
| Routes.ClassifyPassesUnvalidatedReply | server/routes.ts:53-58 | a reply with a category outside the enumeration and a confidence of 2 is passed through as a success |
| Decimal.ParseNatToString | server/routes.ts:36 | the decimal rendering of a timestamp or index reads back as the same number |
| Decimal.NatToStringInjective | server/routes.ts:36 | distinct numbers render to distinct strings |
| Schema.ParseAll | shared/schema.ts:48 | `z.array` accepts iff every element parses, and the parsed list keeps the length and order |
| Schema.OptionalString | shared/schema.ts:69-70 | `z.string().optional()` accepts an absent key or a string, and rejects anything else, including null; an accepted string is returned unchanged |
| Schema.ParseClassificationRequest | shared/schema.ts:47-52 | accepted exactly when `images` is an array whose every element parses as an (id, imageData) string pair, and the result keeps those pairs in order; the exact set of accepted records is stated by Schema.ClassificationRequestRoundTrip |
| Schema.ClassificationRequestRoundTrip | shared/schema.ts:47-52 | every list of (id, imageData) string pairs is a valid request and parses back to itself |
| Schema.ParseClassification | shared/schema.ts:55-59 | accepted exactly when the value is an object with a string `id`, a `predictedCategory` string from the eight-value enumeration and a numeric `confidenceScore` c with 0 <= c <= 1, whatever other keys it has; the result takes those three values from the JSON |
| Schema.ParseClassificationIgnoresUnknownKeys | shared/schema.ts:55-59 | adding a key the schema does not name changes neither acceptance nor the parsed item |
| Schema.ParseClassificationResponse | shared/schema.ts:54-60 | accepted exactly when `classifiedItems` is an array whose every element parses; the result is those items in order, each with an enumeration category and a confidence in [0, 1] |
| Schema.ClassificationResponseRoundTrip | shared/schema.ts:54-60 | a typed response is accepted, and parses back to itself, iff every item has an enumeration category and a confidence in [0, 1] |
| Schema.ParseItemRef | shared/schema.ts:63-67 | accepted exactly when the value is an object with string `id` and `imageUrl` and a `category` string from the enumeration, whatever other keys it has; the result takes those values from the JSON |
| Schema.ParseItemRefIgnoresUnknownKeys | shared/schema.ts:63-67 | adding a key the schema does not name changes neither acceptance nor the parsed item |
| Schema.ParsePreferences | shared/schema.ts:68-71 | the preferences may be absent; if present they must be an object whose `style` and `occasion` are each absent or a string, and the parsed values are exactly those |
| Schema.ParseGenerationRequest | shared/schema.ts:62-72 | accepted exactly when the items and the preferences both parse; the result holds those items in order, every category in the enumeration, and those preferences |
| Schema.PreferencesRoundTrip | shared/schema.ts:68-71 | preferences with or without style and occasion parse back to themselves |
| Schema.GenerationRequestRoundTrip | shared/schema.ts:62-72 | a typed request is accepted, and parses back to itself, iff every category is in the enumeration; the preferences and both their fields are optional |
| Schema.ParseRecommendation | shared/schema.ts:75-79 | accepted exactly when `itemIds` and `reasoningTags` are arrays of strings and `description` is a string; the result holds those arrays in order and that description |
| Schema.ParseGenerationResponse | shared/schema.ts:74-80 | accepted exactly when `recommendations` is an array whose every element parses, and the result keeps those recommendations in order; the exact set of accepted records is stated by Schema.GenerationResponseRoundTrip |
| Schema.GenerationResponseRoundTrip | shared/schema.ts:74-80 | every typed response is accepted: no bound on the number of recommendations or tags, and no tie between itemIds and the request |
| ProviderReply.AsWrittenReplyFailsSchema | server/services/gemini.ts:48-77 | the reply the providers shape, with items keyed `itemId`, passes the response schema iff it is empty |
| ProviderReply.AsWrittenReplyHasNoIds | client/src/pages/classifying.tsx:20-22 | every item of such a reply reads `item.id` as undefined |
| ProviderReply.AsWrittenOverrideRewritesAll | client/src/pages/confirmation.tsx:14-19 | with such a reply, where each client item's `id` is undefined (ProviderReply.AsWrittenReplyHasNoIds), overriding the category of any one item rewrites the category of every item |
| ProviderReply.AsWrittenGenerationRejected | client/src/pages/generating.tsx:30-42 | with a non-empty such reply, the generation request the client sends has items without `id`, and the server's request schema rejects it |
| ProviderReply.CorrectedReplyParses | server/services/gemini.ts:48-77 | keyed `id`, the reply passes the response schema iff every item has an enumeration category and a confidence in [0, 1], and each parsed item carries the id of the image it classifies |

## Findings

| source | as written | input that shows it | evidently intended | confidence | as-written member | corrected member |
|---|---|---|---|---|---|---|
| server/services/gemini.ts:56-63 | both providers ask for classified items keyed `itemId` (`openai.ts:20` too), the route forwards the reply unvalidated (`routes.ts:57`), and the client reads `item.id` (`classifying.tsx:22`, `confirmation.tsx:16`, `generating.tsx:34`) | any non-empty reply, e.g. one item `{itemId: "temp_1_0", predictedCategory: "Top", confidenceScore: 0.9}`: one override recategorises every item, and the generation request fails the schema (a 500) | the reply is keyed `id`, as `classificationResponseSchema` (`shared/schema.ts:56`) requires | high (not executed) | ProviderReply.AsWrittenReplyFailsSchema | ProviderReply.CorrectedReplyParses |

The corrected reply parses to the typed `Schema.ClassificationResponse` that
`ClassifyingPage.OnSuccess` and `Flow` consume. The rest of the model therefore
works with the corrected reply. `ProviderReply.AsWrittenOverrideRewritesAll` and
`ProviderReply.AsWrittenGenerationRejected` carry the as-written reply through to
its effect on the confirmation and generating pages.

## Left out

- The AI providers (`server/services/gemini.ts`, `server/services/openai.ts`) are
  left out: the SDK calls, the prompt text, and parsing of the model's output text
  (including the `|| []` defaulting). Each provider is a function parameter of the
  route. In the client handlers and in `Flow`, the reply is the typed
  `Schema.ClassificationResponse`, whose items carry a string `id`. The providers
  in fact key their items `itemId`. `ProviderReply` models that reply and its
  effect on the client; see Findings.
- The home page's markup is left out. Its one button is the `GetStarted` event of
  `Flow`.
- JSX rendering, toasts, progress bars and the `isPending` flag are left out. The
  upload's `onError` only shows a toast and does not change the state, so it has
  no member.
- The React Query lifecycle and async ordering are left out. `Flow.CanOccur`
  delivers a request's outcome only while its page is mounted and only when the
  request was sent. The late-response race (a reply arriving after the user
  navigated away) is concurrency and is not modelled. `Flow.CanOccur` also does
  not track whether a request is still pending. Its traces therefore include
  outcomes the source cannot produce: a success after a failure on the same
  mount, or a second outcome of one request. In the source, each of the
  classifying and generating pages sends one request when it mounts. Every
  property `Flow` proves holds for all traces, so it holds for the smaller set
  too.
- The handlers in the source read `uploadedImages` from the render-time closure,
  while the setters use the previous state. In a sequential model the two are the
  same value.
- Express and multer plumbing is left out. Multer is modelled only as configured:
  files are checked in stream order, and for each file the count comes first, then
  the type, then the size. Files under a field other than `images`, the upload
  route's 500 catch, and console logging are left out.
- `Date.now()` and base64 encoding are parameters (`clock`, `encode`).
- Routes.ClassifyItems: for a schema failure, `details` is `None`. The message text
  of Zod's error is not modelled.
- Routes.GenerateOutfits: same as Routes.ClassifyItems for the `details` of a schema
  failure.
- Storage.GetUserByUsername: it requires the store invariant `Valid`. JavaScript
  iterates a `Map` in insertion order, and only on reachable stores is that the
  ascending-id order. Every reachable store satisfies `Valid`, by
  `Storage.Empty` and `Storage.ReachableIsValid`.
- JavaScript numbers are not modelled exactly. Confidence is a Dafny `real`, so
  NaN and infinities are left out. Ids and timestamps are unbounded naturals, so
  the 2^53 limit is left out. Only `0` is modelled as a falsy integer confidence.
- The Drizzle `pgTable` declarations (`shared/schema.ts:5-44`) are ORM metadata
  and are left out. The record shapes they define are the datatypes of `Storage`.
- The `Math.round(confidence * 100)` percentage display is floating-point
  rounding and is left out.
