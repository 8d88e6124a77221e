/** The API schemas of `shared/schema.ts`. Each Zod schema is a parser from a
    JSON value to a typed record: it fails when a required key is missing or
    has the wrong type, drops keys it does not know, and accepts a missing key
    for an `.optional()` one (but not `null`). Encoders turn the typed records
    back into JSON, and the round-trip lemmas pin down exactly which records
    each schema accepts. */
module Schema {
  import opened Base
  import opened Json

  /** The category enumeration shared by both request/response schemas. */
  const Categories: seq<string> :=
    ["Top", "Pants", "Skirt", "Dress", "Outerwear", "Shoes", "Accessory", "Other"]

  predicate IsCategory(s: string) {
    s in Categories
  }

  // ---------------------------------------------------------------------
  // Typed shapes
  // ---------------------------------------------------------------------

  datatype ImageRef = ImageRef(id: string, imageData: string)
  datatype ClassificationRequest = ClassificationRequest(images: seq<ImageRef>)

  datatype Classification = Classification(id: string, predictedCategory: string, confidenceScore: real)
  datatype ClassificationResponse = ClassificationResponse(classifiedItems: seq<Classification>)

  datatype ItemRef = ItemRef(id: string, category: string, imageUrl: string)
  datatype Preferences = Preferences(style: Option<string>, occasion: Option<string>)
  datatype OutfitGenerationRequest =
    OutfitGenerationRequest(items: seq<ItemRef>, userPreferences: Option<Preferences>)

  datatype Recommendation = Recommendation(itemIds: seq<string>, reasoningTags: seq<string>, description: string)
  datatype OutfitGenerationResponse = OutfitGenerationResponse(recommendations: seq<Recommendation>)

  /** What the response schema demands of one classified item. */
  predicate ValidClassification(c: Classification) {
    IsCategory(c.predictedCategory) && 0.0 <= c.confidenceScore <= 1.0
  }

  predicate ValidClassificationResponse(r: ClassificationResponse) {
    forall k :: 0 <= k < |r.classifiedItems| ==> ValidClassification(r.classifiedItems[k])
  }

  predicate ValidGenerationRequest(r: OutfitGenerationRequest) {
    forall k :: 0 <= k < |r.items| ==> IsCategory(r.items[k].category)
  }

  // ---------------------------------------------------------------------
  // Zod primitives
  // ---------------------------------------------------------------------

  /** The value under `key`, when `v` is an object that has it. */
  function Field(v: Value, key: string): Option<Value> {
    if v.Obj? && key in v.fields then Some(v.fields[key]) else None
  }

  /** `key: z.string()`. */
  function RequiredString(v: Value, key: string): (r: Option<string>)
    ensures r.Some? <==> v.Obj? && key in v.fields && v.fields[key].Str?
    ensures r.Some? ==> r.value == v.fields[key].s
  {
    match Field(v, key)
    case Some(Str(s)) => Some(s)
    case _ => None
  }

  /** `key: z.string().optional()`: `Some(None)` when the key is absent,
      `Some(Some(s))` for a string, `None` (rejection) for anything else. */
  function OptionalString(v: Value, key: string): (r: Option<Option<string>>)
    requires v.Obj?
    ensures r.None? <==> key in v.fields && !v.fields[key].Str?
    ensures r == Some(None) <==> key !in v.fields
    ensures key in v.fields && v.fields[key].Str? ==> r == Some(Some(v.fields[key].s))
  {
    match Field(v, key)
    case None => Some(None)
    case Some(Str(s)) => Some(Some(s))
    case Some(_) => None
  }

  /** `z.array(element)`: every element must parse; the result keeps order. */
  function ParseAll<T>(es: seq<Value>, parse: Value -> Option<T>): (r: Option<seq<T>>)
    ensures r.Some? <==> forall k :: 0 <= k < |es| ==> parse(es[k]).Some?
    ensures r.Some? ==> |r.value| == |es|
    ensures r.Some? ==> forall k :: 0 <= k < |es| ==> parse(es[k]) == Some(r.value[k])
  {
    if |es| == 0 then Some([])
    else
      var head := parse(es[0]);
      var tail := ParseAll(es[1..], parse);
      assert forall k :: 1 <= k < |es| ==> es[k] == es[1..][k - 1];
      if head.Some? && tail.Some? then Some([head.value] + tail.value) else None
  }

  /** `key: z.array(element)`. */
  function RequiredArray<T>(v: Value, key: string, parse: Value -> Option<T>): (r: Option<seq<T>>)
    ensures r.Some? ==> v.Obj? && key in v.fields && v.fields[key].Arr?
    ensures r.Some? ==> r == ParseAll(v.fields[key].elems, parse)
  {
    match Field(v, key)
    case Some(Arr(es)) => ParseAll(es, parse)
    case _ => None
  }

  /** The JSON array of the encoded elements, in order. */
  function EncodeAll<T>(xs: seq<T>, encode: T -> Value): (r: seq<Value>)
    ensures |r| == |xs|
    ensures forall k :: 0 <= k < |xs| ==> r[k] == encode(xs[k])
  {
    seq(|xs|, k requires 0 <= k < |xs| => encode(xs[k]))
  }

  /** An array of encoded elements parses back exactly when every element does. */
  lemma ParseAllEncodeAll<T>(xs: seq<T>, encode: T -> Value, parse: Value -> Option<T>)
    requires forall k :: 0 <= k < |xs| ==> parse(encode(xs[k])) == Some(xs[k])
    ensures ParseAll(EncodeAll(xs, encode), parse) == Some(xs)
  {
    var r := ParseAll(EncodeAll(xs, encode), parse);
    assert r.Some?;
    assert r.value == xs;
  }

  /** One element that fails to parse rejects the whole array. */
  lemma ParseAllRejects<T>(xs: seq<T>, encode: T -> Value, parse: Value -> Option<T>, bad: nat)
    requires bad < |xs| && parse(encode(xs[bad])).None?
    ensures ParseAll(EncodeAll(xs, encode), parse).None?
  {
    assert EncodeAll(xs, encode)[bad] == encode(xs[bad]);
  }

  // ---------------------------------------------------------------------
  // classificationRequestSchema
  // ---------------------------------------------------------------------

  function ParseImageRef(v: Value): (r: Option<ImageRef>)
    ensures r.Some? <==> RequiredString(v, "id").Some? && RequiredString(v, "imageData").Some?
    ensures r.Some? ==> r.value.id == v.fields["id"].s && r.value.imageData == v.fields["imageData"].s
  {
    var id := RequiredString(v, "id");
    var data := RequiredString(v, "imageData");
    if id.Some? && data.Some? then Some(ImageRef(id.value, data.value)) else None
  }

  function ImageRefToJson(x: ImageRef): Value {
    Obj(map["id" := Str(x.id), "imageData" := Str(x.imageData)])
  }

  function ParseClassificationRequest(v: Value): (r: Option<ClassificationRequest>)
    ensures r.Some? <==> RequiredArray(v, "images", ParseImageRef).Some?
    ensures r.Some? ==> Some(r.value.images) == RequiredArray(v, "images", ParseImageRef)
  {
    match RequiredArray(v, "images", ParseImageRef)
    case Some(images) => Some(ClassificationRequest(images))
    case None => None
  }

  function ClassificationRequestToJson(r: ClassificationRequest): Value {
    Obj(map["images" := Arr(EncodeAll(r.images, ImageRefToJson))])
  }

  /** Every list of (id, imageData) string pairs is a valid classification request. */
  lemma ClassificationRequestRoundTrip(r: ClassificationRequest)
    ensures ParseClassificationRequest(ClassificationRequestToJson(r)) == Some(r)
  {
    forall k | 0 <= k < |r.images|
      ensures ParseImageRef(ImageRefToJson(r.images[k])) == Some(r.images[k])
    {
    }
    ParseAllEncodeAll(r.images, ImageRefToJson, ParseImageRef);
  }

  // ---------------------------------------------------------------------
  // classificationResponseSchema
  // ---------------------------------------------------------------------

  function ParseClassification(v: Value): (r: Option<Classification>)
    ensures r.Some? <==> (&& v.Obj?
                          && "id" in v.fields && v.fields["id"].Str?
                          && "predictedCategory" in v.fields && v.fields["predictedCategory"].Str?
                          && IsCategory(v.fields["predictedCategory"].s)
                          && "confidenceScore" in v.fields && v.fields["confidenceScore"].Num?
                          && 0.0 <= v.fields["confidenceScore"].n <= 1.0)
    ensures r.Some? ==> ValidClassification(r.value)
    ensures r.Some? ==> v.Obj? && "id" in v.fields && "predictedCategory" in v.fields && "confidenceScore" in v.fields
    ensures r.Some? ==> (Str(r.value.id) == v.fields["id"]
                         && Str(r.value.predictedCategory) == v.fields["predictedCategory"]
                         && Num(r.value.confidenceScore) == v.fields["confidenceScore"])
  {
    var id := RequiredString(v, "id");
    var category := RequiredString(v, "predictedCategory");
    var score := Field(v, "confidenceScore");
    if id.Some? && category.Some? && IsCategory(category.value)
       && score.Some? && score.value.Num? && 0.0 <= score.value.n <= 1.0
    then Some(Classification(id.value, category.value, score.value.n))
    else None
  }

  /** An extra key never changes whether a classified item is accepted, nor
      what it parses to. */
  lemma ParseClassificationIgnoresUnknownKeys(v: Value, key: string, x: Value)
    requires v.Obj? && key != "id" && key != "predictedCategory" && key != "confidenceScore"
    ensures ParseClassification(Obj(v.fields[key := x])) == ParseClassification(v)
  {
  }

  function ClassificationToJson(c: Classification): Value {
    Obj(map["id" := Str(c.id),
            "predictedCategory" := Str(c.predictedCategory),
            "confidenceScore" := Num(c.confidenceScore)])
  }

  function ParseClassificationResponse(v: Value): (r: Option<ClassificationResponse>)
    ensures r.Some? ==> ValidClassificationResponse(r.value)
    ensures r.Some? <==> RequiredArray(v, "classifiedItems", ParseClassification).Some?
    ensures r.Some? ==> Some(r.value.classifiedItems) == RequiredArray(v, "classifiedItems", ParseClassification)
  {
    match RequiredArray(v, "classifiedItems", ParseClassification)
    case Some(items) =>
      assert forall k :: 0 <= k < |items| ==> ParseClassification(v.fields["classifiedItems"].elems[k]) == Some(items[k]);
      Some(ClassificationResponse(items))
    case None => None
  }

  function ClassificationResponseToJson(r: ClassificationResponse): Value {
    Obj(map["classifiedItems" := Arr(EncodeAll(r.classifiedItems, ClassificationToJson))])
  }

  /** The response schema accepts a typed response exactly when every item has
      a category from the enumeration and a confidence in [0, 1]. */
  lemma ClassificationResponseRoundTrip(r: ClassificationResponse)
    ensures ParseClassificationResponse(ClassificationResponseToJson(r))
            == if ValidClassificationResponse(r) then Some(r) else None
  {
    var xs := r.classifiedItems;
    forall k | 0 <= k < |xs|
      ensures ParseClassification(ClassificationToJson(xs[k]))
              == if ValidClassification(xs[k]) then Some(xs[k]) else None
    {
    }
    if ValidClassificationResponse(r) {
      ParseAllEncodeAll(xs, ClassificationToJson, ParseClassification);
    } else {
      var bad :| 0 <= bad < |xs| && !ValidClassification(xs[bad]);
      ParseAllRejects(xs, ClassificationToJson, ParseClassification, bad);
    }
  }

  // ---------------------------------------------------------------------
  // outfitGenerationRequestSchema
  // ---------------------------------------------------------------------

  function ParseItemRef(v: Value): (r: Option<ItemRef>)
    ensures r.Some? <==> (&& v.Obj?
                          && "id" in v.fields && v.fields["id"].Str?
                          && "category" in v.fields && v.fields["category"].Str?
                          && IsCategory(v.fields["category"].s)
                          && "imageUrl" in v.fields && v.fields["imageUrl"].Str?)
    ensures r.Some? ==> IsCategory(r.value.category)
    ensures r.Some? ==> v.Obj? && "id" in v.fields && "category" in v.fields && "imageUrl" in v.fields
    ensures r.Some? ==> (Str(r.value.id) == v.fields["id"]
                         && Str(r.value.category) == v.fields["category"]
                         && Str(r.value.imageUrl) == v.fields["imageUrl"])
  {
    var id := RequiredString(v, "id");
    var category := RequiredString(v, "category");
    var url := RequiredString(v, "imageUrl");
    if id.Some? && category.Some? && IsCategory(category.value) && url.Some?
    then Some(ItemRef(id.value, category.value, url.value))
    else None
  }

  /** `z.object` strips keys it does not know: an extra key never changes
      whether a request item is accepted, nor what it parses to. */
  lemma ParseItemRefIgnoresUnknownKeys(v: Value, key: string, x: Value)
    requires v.Obj? && key != "id" && key != "category" && key != "imageUrl"
    ensures ParseItemRef(Obj(v.fields[key := x])) == ParseItemRef(v)
  {
  }

  function ItemRefToJson(x: ItemRef): Value {
    Obj(map["id" := Str(x.id), "category" := Str(x.category), "imageUrl" := Str(x.imageUrl)])
  }

  /** `userPreferences: z.object({style?, occasion?}).optional()`: `Some(None)`
      when absent, `None` when present but malformed. */
  function ParsePreferences(v: Value): (r: Option<Option<Preferences>>)
    requires v.Obj?
    ensures r == Some(None) <==> "userPreferences" !in v.fields
    ensures "userPreferences" in v.fields && !v.fields["userPreferences"].Obj? ==> r.None?
    ensures "userPreferences" in v.fields && v.fields["userPreferences"].Obj? ==>
              (r.Some? <==> OptionalString(v.fields["userPreferences"], "style").Some?
                            && OptionalString(v.fields["userPreferences"], "occasion").Some?)
    ensures r.Some? && r.value.Some? ==>
              (v.fields["userPreferences"].Obj?
               && Some(r.value.value.style) == OptionalString(v.fields["userPreferences"], "style")
               && Some(r.value.value.occasion) == OptionalString(v.fields["userPreferences"], "occasion"))
  {
    match Field(v, "userPreferences")
    case None => Some(None)
    case Some(p) =>
      if !p.Obj? then None
      else
        var style := OptionalString(p, "style");
        var occasion := OptionalString(p, "occasion");
        if style.Some? && occasion.Some? then Some(Some(Preferences(style.value, occasion.value))) else None
  }

  function OptionalStringField(key: string, x: Option<string>): map<string, Value> {
    match x
    case Some(s) => map[key := Str(s)]
    case None => map[]
  }

  function PreferencesToJson(p: Preferences): Value {
    Obj(OptionalStringField("style", p.style) + OptionalStringField("occasion", p.occasion))
  }

  function ParseGenerationRequest(v: Value): (r: Option<OutfitGenerationRequest>)
    ensures r.Some? ==> ValidGenerationRequest(r.value)
    ensures r.Some? <==> RequiredArray(v, "items", ParseItemRef).Some? && ParsePreferences(v).Some?
    ensures r.Some? ==> Some(r.value.items) == RequiredArray(v, "items", ParseItemRef)
    ensures r.Some? ==> v.Obj? && Some(r.value.userPreferences) == ParsePreferences(v)
  {
    match RequiredArray(v, "items", ParseItemRef)
    case None => None
    case Some(items) =>
      assert forall k :: 0 <= k < |items| ==> ParseItemRef(v.fields["items"].elems[k]) == Some(items[k]);
      match ParsePreferences(v)
      case None => None
      case Some(prefs) => Some(OutfitGenerationRequest(items, prefs))
  }

  function GenerationRequestToJson(r: OutfitGenerationRequest): Value {
    var items := map["items" := Arr(EncodeAll(r.items, ItemRefToJson))];
    match r.userPreferences
    case None => Obj(items)
    case Some(p) => Obj(items["userPreferences" := PreferencesToJson(p)])
  }

  lemma PreferencesRoundTrip(p: Preferences)
    ensures ParsePreferences(Obj(map["userPreferences" := PreferencesToJson(p)])) == Some(Some(p))
  {
    var o := PreferencesToJson(p);
    assert "style" in o.fields <==> p.style.Some?;
    assert "occasion" in o.fields <==> p.occasion.Some?;
  }

  /** The generation request schema accepts a typed request exactly when every
      item's category is in the enumeration; preferences and both of their
      fields may be absent. */
  lemma GenerationRequestRoundTrip(r: OutfitGenerationRequest)
    ensures ParseGenerationRequest(GenerationRequestToJson(r))
            == if ValidGenerationRequest(r) then Some(r) else None
  {
    var xs := r.items;
    var v := GenerationRequestToJson(r);
    forall k | 0 <= k < |xs|
      ensures ParseItemRef(ItemRefToJson(xs[k])) == if IsCategory(xs[k].category) then Some(xs[k]) else None
    {
    }
    if r.userPreferences.Some? {
      PreferencesRoundTrip(r.userPreferences.value);
      assert Field(v, "userPreferences") == Some(PreferencesToJson(r.userPreferences.value));
    }
    assert ParsePreferences(v) == Some(r.userPreferences);
    if ValidGenerationRequest(r) {
      ParseAllEncodeAll(xs, ItemRefToJson, ParseItemRef);
    } else {
      var bad :| 0 <= bad < |xs| && !IsCategory(xs[bad].category);
      ParseAllRejects(xs, ItemRefToJson, ParseItemRef, bad);
    }
  }

  // ---------------------------------------------------------------------
  // outfitGenerationResponseSchema
  // ---------------------------------------------------------------------

  function ParseStringValue(v: Value): (r: Option<string>)
    ensures r.Some? <==> v.Str?
    ensures r.Some? ==> v == Str(r.value)
  {
    if v.Str? then Some(v.s) else None
  }

  function ParseRecommendation(v: Value): (r: Option<Recommendation>)
    ensures r.Some? <==> (&& RequiredArray(v, "itemIds", ParseStringValue).Some?
                          && RequiredArray(v, "reasoningTags", ParseStringValue).Some?
                          && RequiredString(v, "description").Some?)
    ensures r.Some? ==> v.Obj? && "description" in v.fields && Str(r.value.description) == v.fields["description"]
    ensures r.Some? ==> RequiredArray(v, "itemIds", ParseStringValue) == Some(r.value.itemIds)
    ensures r.Some? ==> RequiredArray(v, "reasoningTags", ParseStringValue) == Some(r.value.reasoningTags)
  {
    var ids := RequiredArray(v, "itemIds", ParseStringValue);
    var tags := RequiredArray(v, "reasoningTags", ParseStringValue);
    var description := RequiredString(v, "description");
    if ids.Some? && tags.Some? && description.Some?
    then Some(Recommendation(ids.value, tags.value, description.value))
    else None
  }

  function StrValue(s: string): Value {
    Str(s)
  }

  function RecommendationToJson(x: Recommendation): Value {
    Obj(map["itemIds" := Arr(EncodeAll(x.itemIds, StrValue)),
            "reasoningTags" := Arr(EncodeAll(x.reasoningTags, StrValue)),
            "description" := Str(x.description)])
  }

  function ParseGenerationResponse(v: Value): (r: Option<OutfitGenerationResponse>)
    ensures r.Some? <==> RequiredArray(v, "recommendations", ParseRecommendation).Some?
    ensures r.Some? ==> Some(r.value.recommendations) == RequiredArray(v, "recommendations", ParseRecommendation)
  {
    match RequiredArray(v, "recommendations", ParseRecommendation)
    case Some(recs) => Some(OutfitGenerationResponse(recs))
    case None => None
  }

  function GenerationResponseToJson(r: OutfitGenerationResponse): Value {
    Obj(map["recommendations" := Arr(EncodeAll(r.recommendations, RecommendationToJson))])
  }

  lemma StringsRoundTrip(xs: seq<string>)
    ensures ParseAll(EncodeAll(xs, StrValue), ParseStringValue) == Some(xs)
  {
    ParseAllEncodeAll(xs, StrValue, ParseStringValue);
  }

  /** The outfit response schema accepts EVERY typed response: it bounds
      neither the number of recommendations nor the number of tags, and it
      never looks at the request, so nothing ties `itemIds` to the items sent. */
  lemma GenerationResponseRoundTrip(r: OutfitGenerationResponse)
    ensures ParseGenerationResponse(GenerationResponseToJson(r)) == Some(r)
  {
    var xs := r.recommendations;
    forall k | 0 <= k < |xs|
      ensures ParseRecommendation(RecommendationToJson(xs[k])) == Some(xs[k])
    {
      StringsRoundTrip(xs[k].itemIds);
      StringsRoundTrip(xs[k].reasoningTags);
    }
    ParseAllEncodeAll(xs, RecommendationToJson, ParseRecommendation);
  }
}
