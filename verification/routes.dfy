/** The HTTP routes of `server/routes.ts`: the multer upload limits and image
    filter, the upload endpoint's temporary-id mapping, and the two endpoints
    that validate a request body before handing it to the AI provider.
    `Date.now()` is the `clock` parameter (read once per file, as the source's
    `map` does) and the Buffer-to-base64 conversion is the `encode` parameter. */
module Routes {
  import opened Base
  import Json
  import Schema
  import Decimal

  /** `limits.fileSize`: 10 MiB per file. */
  const MaxFileSize: nat := 10 * 1024 * 1024

  /** `upload.array('images', 10)`: at most 10 files per request. */
  const MaxFiles: nat := 10

  /** A file as multer hands it over: content type, client-side name, bytes. */
  datatype MulterFile = MulterFile(mimetype: string, originalname: string, buffer: seq<bv8>)

  /** `file.mimetype.startsWith('image/')`. */
  predicate IsImageMime(mimetype: string) {
    |mimetype| >= 6 && mimetype[..6] == "image/"
  }

  /** Why multer aborted the request before the handler ran. */
  datatype MulterError =
    | TooManyFiles       // LIMIT_UNEXPECTED_FILE: an 11th file in the `images` field
    | NotAnImage         // the file filter's 'Only image files are allowed'
    | FileTooLarge       // LIMIT_FILE_SIZE

  /** The verdict on the file at position `index` of the stream. */
  function CheckFile(f: MulterFile, index: nat): (r: Option<MulterError>)
    ensures r.None? <==> index < MaxFiles && IsImageMime(f.mimetype) && |f.buffer| <= MaxFileSize
    ensures index >= MaxFiles ==> r == Some(TooManyFiles)
    ensures index < MaxFiles && !IsImageMime(f.mimetype) ==> r == Some(NotAnImage)
    ensures index < MaxFiles && IsImageMime(f.mimetype) && |f.buffer| > MaxFileSize ==> r == Some(FileTooLarge)
  {
    if index >= MaxFiles then Some(TooManyFiles)
    else if !IsImageMime(f.mimetype) then Some(NotAnImage)
    else if |f.buffer| > MaxFileSize then Some(FileTooLarge)
    else None
  }

  /** The first error met when the files stream in from position `from` on;
      one bad file aborts the whole request. */
  function CheckFilesFrom(files: seq<MulterFile>, from: nat): (r: Option<MulterError>)
    requires from <= |files|
    ensures r.None? <==> forall k :: from <= k < |files| ==> CheckFile(files[k], k).None?
    ensures r.Some? ==> exists k :: from <= k < |files| && CheckFile(files[k], k) == r
                          && forall j :: from <= j < k ==> CheckFile(files[j], j).None?
    decreases |files| - from
  {
    if from == |files| then None
    else match CheckFile(files[from], from)
      case Some(e) => Some(e)
      case None => CheckFilesFrom(files, from + 1)
  }

  /** The upload limits: accepted exactly when there are at most 10 files, each
      an image of at most 10 MiB. */
  function CheckFiles(files: seq<MulterFile>): (r: Option<MulterError>)
    ensures r.None? <==> |files| <= MaxFiles
                         && forall k :: 0 <= k < |files| ==>
                              IsImageMime(files[k].mimetype) && |files[k].buffer| <= MaxFileSize
  {
    assert |files| > MaxFiles ==> CheckFile(files[MaxFiles], MaxFiles).Some?;
    CheckFilesFrom(files, 0)
  }

  /** One record of the upload response. */
  datatype UploadedFile = UploadedFile(id: string, imageData: string, mimetype: string, originalname: string)

  /** `temp_${Date.now()}_${index}`. */
  function TempId(now: nat, index: nat): string {
    "temp_" + Decimal.NatToString(now) + "_" + Decimal.NatToString(index)
  }

  datatype UploadOutcome =
    | Uploaded(message: string, files: seq<UploadedFile>)
    | Rejected(reason: MulterError)
    | BadRequest(status: nat, error: string)

  /** `POST /api/upload-images`. `files` is `req.files`, as multer's `array`
      middleware leaves it: `None` only when the request was not multipart at
      all, and an array (possibly empty) for every multipart request. An empty
      array is not rejected. */
  function UploadImages(files: Option<seq<MulterFile>>, clock: nat -> nat, encode: seq<bv8> -> string)
    : (r: UploadOutcome)
    ensures files.None? <==> r.BadRequest?
    ensures r.BadRequest? ==> r.status == 400
    ensures r.Rejected? <==> files.Some? && CheckFiles(files.value).Some?
    ensures r.Uploaded? ==> |r.files| == |files.value| <= MaxFiles
    ensures r.Uploaded? ==> forall k :: 0 <= k < |r.files| ==>
              && IsImageMime(r.files[k].mimetype)
              && r.files[k].mimetype == files.value[k].mimetype
              && r.files[k].originalname == files.value[k].originalname
              && r.files[k].imageData == encode(files.value[k].buffer)
    ensures r.Uploaded? ==> forall k :: 0 <= k < |r.files| ==> r.files[k].id == TempId(clock(k), k)
    ensures r.Uploaded? ==> forall i, j :: 0 <= i < j < |r.files| ==> r.files[i].id != r.files[j].id
  {
    match files
    case None => BadRequest(400, "No images provided")
    case Some(fs) =>
      match CheckFiles(fs)
      case Some(e) => Rejected(e)
      case None =>
        var out := seq(|fs|, k requires 0 <= k < |fs| =>
                     UploadedFile(TempId(clock(k), k), encode(fs[k].buffer), fs[k].mimetype, fs[k].originalname));
        TempIdsPairwiseDistinct(clock, |fs|);
        Uploaded("Images uploaded successfully", out)
  }

  /** A string split at a separator that occurs in neither left part splits
      back uniquely. */
  lemma SplitAtSeparator(a1: string, b1: string, a2: string, b2: string, sep: char)
    requires sep !in a1 && sep !in a2
    requires a1 + [sep] + b1 == a2 + [sep] + b2
    ensures a1 == a2 && b1 == b2
  {
    var s := a1 + [sep] + b1;
    assert s[|a1|] == sep && s[|a2|] == sep;
    assert a1 == s[..|a1|] == a2;
    assert b1 == s[|a1| + 1..] == b2;
  }

  /** Ids built from different indices differ, whatever the clock reads. */
  lemma TempIdsDistinct(now1: nat, i: nat, now2: nat, j: nat)
    requires i != j
    ensures TempId(now1, i) != TempId(now2, j)
  {
    var t1 := Decimal.NatToString(now1);
    var t2 := Decimal.NatToString(now2);
    var x1 := Decimal.NatToString(i);
    var x2 := Decimal.NatToString(j);
    if TempId(now1, i) == TempId(now2, j) {
      assert "temp_" + t1 + "_" + x1 == "temp_" + (t1 + "_" + x1);
      assert "temp_" + t2 + "_" + x2 == "temp_" + (t2 + "_" + x2);
      assert t1 + "_" + x1 == (TempId(now1, i))[5..];
      assert t2 + "_" + x2 == (TempId(now2, j))[5..];
      assert '_' !in t1 by { assert Decimal.AllDigits(t1); }
      assert '_' !in t2 by { assert Decimal.AllDigits(t2); }
      SplitAtSeparator(t1, x1, t2, x2, '_');
      Decimal.NatToStringInjective(i, j);
    }
  }

  /** The ids of one upload response are pairwise distinct. */
  lemma TempIdsPairwiseDistinct(clock: nat -> nat, n: nat)
    ensures forall i, j :: 0 <= i < j < n ==> TempId(clock(i), i) != TempId(clock(j), j)
  {
    forall i, j | 0 <= i < j < n
      ensures TempId(clock(i), i) != TempId(clock(j), j)
    {
      TempIdsDistinct(clock(i), i, clock(j), j);
    }
  }

  /** Response of the two AI-backed endpoints. */
  datatype ApiResponse<T> =
    | Success(body: T)
    | ServerError(status: nat, error: string, details: Option<string>)

  /** `POST /api/classify-items`: the body must satisfy the classification
      request schema; then the provider's reply is passed through as is. A
      schema failure or a provider failure is a 500 with a fixed message;
      the provider's own message becomes the details. */
  function ClassifyItems(body: Json.Value, provider: Schema.ClassificationRequest -> Result<Schema.ClassificationResponse>)
    : (r: ApiResponse<Schema.ClassificationResponse>)
    ensures r.Success? <==> Schema.ParseClassificationRequest(body).Some?
                            && provider(Schema.ParseClassificationRequest(body).value).Ok?
    ensures r.Success? ==> r.body == provider(Schema.ParseClassificationRequest(body).value).value
    ensures r.ServerError? ==> r.status == 500 && r.error == "Failed to classify items"
  {
    match Schema.ParseClassificationRequest(body)
    case None => ServerError(500, "Failed to classify items", None)
    case Some(request) =>
      match provider(request)
      case Ok(response) => Success(response)
      case Err(message) => ServerError(500, "Failed to classify items", Some(message))
  }

  /** `POST /api/generate-outfits`, with the same shape as `ClassifyItems`. */
  function GenerateOutfits(body: Json.Value, provider: Schema.OutfitGenerationRequest -> Result<Schema.OutfitGenerationResponse>)
    : (r: ApiResponse<Schema.OutfitGenerationResponse>)
    ensures r.Success? <==> Schema.ParseGenerationRequest(body).Some?
                            && provider(Schema.ParseGenerationRequest(body).value).Ok?
    ensures r.Success? ==> r.body == provider(Schema.ParseGenerationRequest(body).value).value
    ensures r.Success? ==> Schema.ValidGenerationRequest(Schema.ParseGenerationRequest(body).value)
    ensures r.ServerError? ==> r.status == 500 && r.error == "Failed to generate outfits"
  {
    match Schema.ParseGenerationRequest(body)
    case None => ServerError(500, "Failed to generate outfits", None)
    case Some(request) =>
      match provider(request)
      case Ok(response) => Success(response)
      case Err(message) => ServerError(500, "Failed to generate outfits", Some(message))
  }

  /** The classification endpoint never checks the provider's reply against
      the response schema: a reply with a category outside the enumeration
      reaches the client unchanged. */
  lemma ClassifyPassesUnvalidatedReply()
    ensures var bad := Schema.ClassificationResponse([Schema.Classification("temp_1_0", "Hat", 2.0)]);
            var body := Schema.ClassificationRequestToJson(Schema.ClassificationRequest([]));
            && !Schema.ValidClassificationResponse(bad)
            && ClassifyItems(body, _ => Ok(bad)) == Success(bad)
  {
    var bad := Schema.ClassificationResponse([Schema.Classification("temp_1_0", "Hat", 2.0)]);
    var body := Schema.ClassificationRequestToJson(Schema.ClassificationRequest([]));
    Schema.ClassificationRequestRoundTrip(Schema.ClassificationRequest([]));
    assert !Schema.ValidClassification(bad.classifiedItems[0]);
  }
}
