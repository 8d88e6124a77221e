/** The confirmation page (`client/src/pages/confirmation.tsx`): the user's
    category override and the three confidence styles. */
module ConfirmationPage {
  import opened Base
  import opened AppTypes
  import App
  import Schema

  /** The categories offered in the override menu. */
  const Categories: seq<string> :=
    ["Top", "Pants", "Skirt", "Dress", "Outerwear", "Shoes", "Accessory", "Other"]

  /** The menu offers exactly the schema's enumeration, so an override always
      picks a category the server accepts. */
  lemma CategoriesAreSchemaEnum()
    ensures Categories == Schema.Categories
    ensures forall c :: c in Categories <==> Schema.IsCategory(c)
  {
  }

  function SetCategory(item: ClassifiedItem, id: string, category: string): ClassifiedItem {
    if item.id == id then item.(predictedCategory := category) else item
  }

  /** `updateItemCategory(id, category)`: every item carrying the id gets the
      new category and keeps everything else; other items, the list's length
      and order, and the rest of the state are unchanged. */
  function UpdateItemCategory(s: AppState, id: string, category: string): (r: AppState)
    ensures |r.classifiedItems| == |s.classifiedItems|
    ensures forall k :: 0 <= k < |s.classifiedItems| && s.classifiedItems[k].id == id ==>
              r.classifiedItems[k] == s.classifiedItems[k].(predictedCategory := category)
    ensures forall k :: 0 <= k < |s.classifiedItems| && s.classifiedItems[k].id != id ==>
              r.classifiedItems[k] == s.classifiedItems[k]
    ensures r == s.(classifiedItems := r.classifiedItems)
  {
    var items := s.classifiedItems;
    var updated := seq(|items|, k requires 0 <= k < |items| => SetCategory(items[k], id, category));
    App.UpdateAppState(s, NoUpdate.(classifiedItems := Some(updated)))
  }

  lemma UpdateItemCategoryIdempotent(s: AppState, id: string, category: string)
    ensures UpdateItemCategory(UpdateItemCategory(s, id, category), id, category)
            == UpdateItemCategory(s, id, category)
  {
    var r1 := UpdateItemCategory(s, id, category);
    var r2 := UpdateItemCategory(r1, id, category);
    assert r2.classifiedItems == r1.classifiedItems;
  }

  /** Two overrides of the same item: the later one wins. */
  lemma UpdateItemCategoryLastWins(s: AppState, id: string, c1: string, c2: string)
    ensures UpdateItemCategory(UpdateItemCategory(s, id, c1), id, c2) == UpdateItemCategory(s, id, c2)
  {
    var r1 := UpdateItemCategory(UpdateItemCategory(s, id, c1), id, c2);
    var r2 := UpdateItemCategory(s, id, c2);
    assert r1.classifiedItems == r2.classifiedItems;
  }

  /** Overrides of different items do not interfere. */
  lemma UpdateItemCategoryCommutes(s: AppState, id1: string, c1: string, id2: string, c2: string)
    requires id1 != id2
    ensures UpdateItemCategory(UpdateItemCategory(s, id1, c1), id2, c2)
            == UpdateItemCategory(UpdateItemCategory(s, id2, c2), id1, c1)
  {
    var r1 := UpdateItemCategory(UpdateItemCategory(s, id1, c1), id2, c2);
    var r2 := UpdateItemCategory(UpdateItemCategory(s, id2, c2), id1, c1);
    assert r1.classifiedItems == r2.classifiedItems;
  }

  /** Every item's category is in the schema's enumeration. */
  predicate CategoriesValid(items: seq<ClassifiedItem>) {
    forall k :: 0 <= k < |items| ==> Schema.IsCategory(items[k].predictedCategory)
  }

  /** An override picked from the menu keeps every category valid. */
  lemma UpdateKeepsCategoriesValid(s: AppState, id: string, category: string)
    requires CategoriesValid(s.classifiedItems) && category in Categories
    ensures CategoriesValid(UpdateItemCategory(s, id, category).classifiedItems)
  {
  }

  /** The three confidence tiers. */
  datatype Tier = High | Medium | Low

  /** The tier partition shared by the three style functions. */
  function ConfidenceTier(confidence: real): Tier {
    if confidence >= 0.8 then High else if confidence >= 0.6 then Medium else Low
  }

  function TierRank(t: Tier): nat {
    match t
    case Low => 0
    case Medium => 1
    case High => 2
  }

  /** A higher confidence never lands in a lower tier. */
  lemma TierMonotone(a: real, b: real)
    requires a <= b
    ensures TierRank(ConfidenceTier(a)) <= TierRank(ConfidenceTier(b))
  {
  }

  function TierColor(t: Tier): string {
    match t
    case High => "text-green-600"
    case Medium => "text-yellow-600"
    case Low => "text-red-600"
  }

  function TierIcon(t: Tier): string {
    match t
    case High => "✓"
    case Medium => "⚠️"
    case Low => "❌"
  }

  function TierBorder(t: Tier): string {
    match t
    case High => "border-gray-200"
    case Medium => "border-yellow-200"
    case Low => "border-red-200"
  }

  /** `getConfidenceColor`: its thresholds draw the tier partition. */
  function ConfidenceColor(confidence: real): (r: string)
    ensures r == TierColor(ConfidenceTier(confidence))
  {
    if confidence >= 0.8 then "text-green-600"
    else if confidence >= 0.6 then "text-yellow-600"
    else "text-red-600"
  }

  /** `getConfidenceIcon`: the same partition. */
  function ConfidenceIcon(confidence: real): (r: string)
    ensures r == TierIcon(ConfidenceTier(confidence))
  {
    if confidence >= 0.8 then "✓"
    else if confidence >= 0.6 then "⚠️"
    else "❌"
  }

  /** `getBorderColor`: the same partition. */
  function BorderColor(confidence: real): (r: string)
    ensures r == TierBorder(ConfidenceTier(confidence))
  {
    if confidence >= 0.8 then "border-gray-200"
    else if confidence >= 0.6 then "border-yellow-200"
    else "border-red-200"
  }

  /** Colour, icon and border never disagree: each one alone determines the
      tier, so two confidences get the same colour iff they get the same icon
      iff they get the same border. */
  lemma StylesAgree(a: real, b: real)
    ensures ConfidenceColor(a) == ConfidenceColor(b) <==> ConfidenceTier(a) == ConfidenceTier(b)
    ensures ConfidenceIcon(a) == ConfidenceIcon(b) <==> ConfidenceTier(a) == ConfidenceTier(b)
    ensures BorderColor(a) == BorderColor(b) <==> ConfidenceTier(a) == ConfidenceTier(b)
  {
  }

  /** The back arrow: to the selection screen. */
  function Back(s: AppState): (r: AppState)
    ensures r.currentScreen == Selection && r.error == None && App.SameData(r, s)
  {
    App.NavigateToScreen(s, Selection)
  }

  /** "Confirm & Generate Outfits": to the generating screen. */
  function Confirm(s: AppState): (r: AppState)
    ensures r.currentScreen == Generating && r.error == None && App.SameData(r, s)
  {
    App.NavigateToScreen(s, Generating)
  }
}
