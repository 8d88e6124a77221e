/** The classification reply as the AI providers shape it. Both providers ask
    the model for one object per image keyed `itemId`, while the response
    schema and every client handler read the key `id`. The server forwards the
    reply without validating it, so on the client `item.id` is `undefined`.

    The as-written half models that reply and what the client then does with
    it. The corrected half keys the reply by `id`, which is the typed
    `Schema.ClassificationResponse` the rest of the model works with. */
module ProviderReply {
  import opened Base
  import opened Json
  import Schema

  /** One classified image in the shape the providers request. */
  datatype ProviderItem = ProviderItem(itemId: string, predictedCategory: string, confidenceScore: real)

  // ---------------------------------------------------------------------
  // As written: keyed `itemId`
  // ---------------------------------------------------------------------

  function ItemJsonAsWritten(p: ProviderItem): Value {
    Obj(map["itemId" := Str(p.itemId),
            "predictedCategory" := Str(p.predictedCategory),
            "confidenceScore" := Num(p.confidenceScore)])
  }

  function ReplyAsWritten(items: seq<ProviderItem>): Value {
    Obj(map["classifiedItems" := Arr(Schema.EncodeAll(items, ItemJsonAsWritten))])
  }

  /** JavaScript's `item.id`: the string under `id`, or `undefined`. */
  function ReadId(v: Value): (r: Option<string>)
    ensures r.Some? <==> v.Obj? && "id" in v.fields && v.fields["id"].Str?
    ensures r.Some? ==> Str(r.value) == v.fields["id"]
  {
    match Schema.Field(v, "id")
    case Some(Str(s)) => Some(s)
    case _ => None
  }

  /** No item of the reply carries an `id` the client can read. */
  lemma AsWrittenReplyHasNoIds(items: seq<ProviderItem>)
    ensures forall k :: 0 <= k < |items| ==>
              ReadId(ReplyAsWritten(items).fields["classifiedItems"].elems[k]).None?
  {
  }

  /** The reply the providers produce satisfies the response schema only when
      it is empty: any item lacks the required `id`. */
  lemma AsWrittenReplyFailsSchema(items: seq<ProviderItem>)
    ensures Schema.ParseClassificationResponse(ReplyAsWritten(items)).Some? <==> |items| == 0
  {
    var es := Schema.EncodeAll(items, ItemJsonAsWritten);
    if |items| > 0 {
      assert es[0] == ItemJsonAsWritten(items[0]);
      assert "id" !in es[0].fields;
      assert Schema.ParseClassification(es[0]).None?;
      assert Schema.ParseAll(es, Schema.ParseClassification).None?;
    } else {
      assert es == [];
    }
  }

  /** A classified item as the client holds it once `id` may be `undefined`. */
  datatype LooseItem = LooseItem(id: Option<string>, predictedCategory: string, confidenceScore: real)

  /** The client's items after the classifying page spreads each reply object. */
  function ClientView(items: seq<ProviderItem>): seq<LooseItem> {
    var es := ReplyAsWritten(items).fields["classifiedItems"].elems;
    seq(|items|, k requires 0 <= k < |items| =>
      LooseItem(ReadId(es[k]), items[k].predictedCategory, items[k].confidenceScore))
  }

  /** `updateItemCategory(item.id, value)` under JavaScript's `===`, for which
      `undefined === undefined` holds. This is `ConfirmationPage.UpdateItemCategory`
      restated over `LooseItem`. The typed `ClassifiedItem` carries a string `id`,
      so it cannot represent an item whose `id` is missing. */
  function LooseUpdateCategory(items: seq<LooseItem>, id: Option<string>, category: string): seq<LooseItem> {
    seq(|items|, k requires 0 <= k < |items| =>
      if items[k].id == id then items[k].(predictedCategory := category) else items[k])
  }

  /** Overriding the category of any one item rewrites the category of every item. */
  lemma AsWrittenOverrideRewritesAll(items: seq<ProviderItem>, k: nat, category: string)
    requires k < |items|
    ensures var view := ClientView(items);
            var after := LooseUpdateCategory(view, view[k].id, category);
            forall j :: 0 <= j < |after| ==> after[j].predictedCategory == category
  {
    AsWrittenReplyHasNoIds(items);
  }

  /** The item JSON the generating page sends: `JSON.stringify` drops a key
      whose value is `undefined`, and the image URL falls back to `''`. */
  function LooseItemRefJson(item: LooseItem): Value {
    var rest := map["category" := Str(item.predictedCategory), "imageUrl" := Str("")];
    match item.id
    case Some(id) => Obj(rest["id" := Str(id)])
    case None => Obj(rest)
  }

  function LooseRequestJson(items: seq<LooseItem>, prefs: Schema.Preferences): Value {
    Obj(map["items" := Arr(Schema.EncodeAll(items, LooseItemRefJson)),
            "userPreferences" := Schema.PreferencesToJson(prefs)])
  }

  /** After a non-empty as-written reply, the generation request fails the
      server's schema, whatever the preferences are. */
  lemma AsWrittenGenerationRejected(items: seq<ProviderItem>, prefs: Schema.Preferences)
    requires |items| > 0
    ensures Schema.ParseGenerationRequest(LooseRequestJson(ClientView(items), prefs)).None?
  {
    AsWrittenReplyHasNoIds(items);
    var view := ClientView(items);
    var es := Schema.EncodeAll(view, LooseItemRefJson);
    assert view[0].id.None?;
    assert es[0] == LooseItemRefJson(view[0]);
    assert "id" !in es[0].fields;
    assert Schema.ParseItemRef(es[0]).None?;
    assert Schema.ParseAll(es, Schema.ParseItemRef).None?;
  }

  // ---------------------------------------------------------------------
  // Corrected: keyed `id`
  // ---------------------------------------------------------------------

  function ToClassification(p: ProviderItem): Schema.Classification {
    Schema.Classification(p.itemId, p.predictedCategory, p.confidenceScore)
  }

  function ItemJsonCorrected(p: ProviderItem): Value {
    Obj(map["id" := Str(p.itemId),
            "predictedCategory" := Str(p.predictedCategory),
            "confidenceScore" := Num(p.confidenceScore)])
  }

  function ReplyCorrected(items: seq<ProviderItem>): Value {
    Obj(map["classifiedItems" := Arr(Schema.EncodeAll(items, ItemJsonCorrected))])
  }

  /** Keyed by `id`, the reply passes the response schema exactly when every
      item has an enumeration category and a confidence in [0, 1], and each
      parsed item then carries the id of the image it classifies. */
  lemma CorrectedReplyParses(items: seq<ProviderItem>)
    ensures var r := Schema.ParseClassificationResponse(ReplyCorrected(items));
            && (r.Some? <==> forall k :: 0 <= k < |items| ==> Schema.ValidClassification(ToClassification(items[k])))
            && (r.Some? ==> |r.value.classifiedItems| == |items|
                            && forall k :: 0 <= k < |items| ==> r.value.classifiedItems[k] == ToClassification(items[k]))
  {
    var typed := Schema.ClassificationResponse(seq(|items|, k requires 0 <= k < |items| => ToClassification(items[k])));
    var es := Schema.EncodeAll(items, ItemJsonCorrected);
    assert Schema.EncodeAll(typed.classifiedItems, Schema.ClassificationToJson) == es by {
      forall k | 0 <= k < |items|
        ensures Schema.ClassificationToJson(typed.classifiedItems[k]) == es[k]
      {
      }
    }
    Schema.ClassificationResponseRoundTrip(typed);
  }
}
