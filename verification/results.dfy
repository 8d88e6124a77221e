/** The results page (`client/src/pages/results.tsx`): resolving an outfit's
    item ids back to classified items, the card gradient and grid width, and
    its three navigation buttons. */
module ResultsPage {
  import opened Base
  import opened AppTypes
  import App
  import JsArray

  function HasItemId(id: string): ClassifiedItem -> bool {
    (item: ClassifiedItem) => item.id == id
  }

  /** `itemIds.map(id => classifiedItems.find(item => item.id === id))`. */
  function LookupEach(items: seq<ClassifiedItem>, ids: seq<string>): (r: seq<Option<ClassifiedItem>>)
    ensures |r| == |ids|
    ensures forall k :: 0 <= k < |ids| ==> r[k] == JsArray.Find(items, HasItemId(ids[k]))
  {
    seq(|ids|, k requires 0 <= k < |ids| => JsArray.Find(items, HasItemId(ids[k])))
  }

  /** `getOutfitItems(itemIds)`: the classified items the ids refer to, in the
      order of the ids; an id with no classified item is silently dropped. */
  function GetOutfitItems(items: seq<ClassifiedItem>, ids: seq<string>): (r: seq<ClassifiedItem>)
    ensures |r| <= |ids|
    ensures forall k :: 0 <= k < |r| ==> r[k] in items && r[k].id in ids
  {
    var found := LookupEach(items, ids);
    var r := JsArray.Compact(found);
    assert forall k :: 0 <= k < |r| ==> r[k] in items && r[k].id in ids by {
      forall k | 0 <= k < |r|
        ensures r[k] in items && r[k].id in ids
      {
        var j :| 0 <= j < |found| && found[j] == Some(r[k]);
        assert JsArray.Find(items, HasItemId(ids[j])) == Some(r[k]);
      }
    }
    r
  }

  /** Resolution works id by id: the result for a concatenation of id lists is
      the concatenation of the results, so the output follows the ids' order. */
  lemma GetOutfitItemsConcat(items: seq<ClassifiedItem>, a: seq<string>, b: seq<string>)
    ensures GetOutfitItems(items, a + b) == GetOutfitItems(items, a) + GetOutfitItems(items, b)
  {
    assert LookupEach(items, a + b) == LookupEach(items, a) + LookupEach(items, b);
    JsArray.CompactConcat(LookupEach(items, a), LookupEach(items, b));
  }

  /** A single id resolves to the first classified item carrying it, or to nothing. */
  lemma GetOutfitItemsSingle(items: seq<ClassifiedItem>, id: string)
    ensures (forall k :: 0 <= k < |items| ==> items[k].id != id) ==> GetOutfitItems(items, [id]) == []
    ensures forall k :: 0 <= k < |items| && items[k].id == id && (forall j :: 0 <= j < k ==> items[j].id != id)
              ==> GetOutfitItems(items, [id]) == [items[k]]
  {
    var found := LookupEach(items, [id]);
    assert JsArray.Compact(found) == (if found[0].Some? then [found[0].value] else []) + JsArray.Compact(found[1..]);
    assert found[1..] == [];
    forall k | 0 <= k < |items| && items[k].id == id && (forall j :: 0 <= j < k ==> items[j].id != id)
      ensures GetOutfitItems(items, [id]) == [items[k]]
    {
      JsArray.FindIsFirstMatch(items, HasItemId(id), k);
    }
  }

  /** When every id has a classified item, nothing is dropped and the k-th
      result carries the k-th id. */
  lemma GetOutfitItemsAllFound(items: seq<ClassifiedItem>, ids: seq<string>)
    requires forall k :: 0 <= k < |ids| ==> exists j :: 0 <= j < |items| && items[j].id == ids[k]
    ensures |GetOutfitItems(items, ids)| == |ids|
    ensures forall k :: 0 <= k < |ids| ==> GetOutfitItems(items, ids)[k].id == ids[k]
  {
    var found := LookupEach(items, ids);
    forall k | 0 <= k < |ids|
      ensures found[k].Some?
    {
      var j :| 0 <= j < |items| && items[j].id == ids[k];
      assert HasItemId(ids[k])(items[j]);
    }
    JsArray.CompactAllPresent(found);
  }

  /** The three card backgrounds. */
  const Gradients: seq<string> :=
    ["from-gray-50 to-gray-100", "from-blue-50 to-indigo-50", "from-purple-50 to-pink-50"]

  /** `getGradientClass(index)`: `gradients[index] || gradients[0]`. */
  function GradientClass(index: int): (r: string)
    ensures r in Gradients
    ensures 0 <= index < |Gradients| ==> r == Gradients[index]
    ensures !(0 <= index < |Gradients|) ==> r == Gradients[0]
  {
    match JsArray.At(Gradients, index)
    case Some(g) => if g != "" then g else Gradients[0]
    case None => Gradients[0]
  }

  /** The number of grid columns for an outfit showing `count` items. */
  function GridColumns(count: nat): (r: nat)
    ensures 2 <= r <= 4
    ensures r == if count < 2 then 2 else if count > 4 then 4 else count
  {
    if count <= 2 then 2 else if count == 3 then 3 else 4
  }

  /** More items never mean fewer columns. */
  lemma GridColumnsMonotone(a: nat, b: nat)
    requires a <= b
    ensures GridColumns(a) <= GridColumns(b)
  {
  }

  /** The back arrow: to the confirmation screen. */
  function Back(s: AppState): (r: AppState)
    ensures r.currentScreen == Confirmation && r.error == None && App.SameData(r, s)
  {
    App.NavigateToScreen(s, Confirmation)
  }

  /** "Add More Items": to the selection screen. */
  function AddMoreItems(s: AppState): (r: AppState)
    ensures r.currentScreen == Selection && r.error == None && App.SameData(r, s)
  {
    App.NavigateToScreen(s, Selection)
  }

  /** "Start Over": only navigates home; the uploaded images, classified items
      and recommendations are all kept, despite the button's name. */
  function StartOver(s: AppState): (r: AppState)
    ensures r.currentScreen == Home && r.error == None
    ensures r.uploadedImages == s.uploadedImages
    ensures r.classifiedItems == s.classifiedItems
    ensures r.outfitRecommendations == s.outfitRecommendations
    ensures r.isLoading == s.isLoading
  {
    App.NavigateToScreen(s, Home)
  }
}
