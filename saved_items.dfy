/**
 * The buyer's saved items (src/pages/buyer-dashboard/SavedItems.tsx): for now
 * the first three products of the catalogue, each marked saved and dated by a
 * random choice of days; the buyer can remove them one id at a time.
 */
module SavedItems {
  import opened Wrappers
  import opened JsStrings
  import opened Seqs
  import opened Browser
  import opened Api
  import opened Marketplace

  /** How many catalogue products the page shows as saved. */
  const ShownCount := 3

  /** The day counts a saved date is drawn from. */
  const SavedDays: seq<int> := [1, 2, 3, 7, 14]

  /** `Math.floor(Math.random() * days.length)`: an index into `SavedDays`, drawn by the caller. */
  type DayIndex = i: int | 0 <= i < 5

  /** "1 day ago" for one day, "n days ago" for any other count. */
  function SavedDateLabel(n: int): (s: string)
    ensures n == 1 ==> s == "1 day ago"
  {
    IntToString(n) + (if n == 1 then " day" else " days") + " ago"
  }

  /** The count at the front of a label reads back as the count, and the noun is singular only for one. */
  lemma SavedDateLabelReadsBack(n: nat)
    ensures var digits := NatToString(n);
            var s := SavedDateLabel(n);
            |digits| <= |s| && s[..|digits|] == digits && DigitsValue(digits) == n
            && s[|digits|..] == (if n == 1 then " day ago" else " days ago")
  {
    NatToStringRoundTrip(n);
    var digits := NatToString(n);
    var s := SavedDateLabel(n);
    assert s == digits + (if n == 1 then " day ago" else " days ago");
  }

  lemma SavedDayLabels()
    ensures SavedDateLabel(1) == "1 day ago" && SavedDateLabel(2) == "2 days ago" && SavedDateLabel(3) == "3 days ago"
    ensures SavedDateLabel(7) == "7 days ago" && SavedDateLabel(14) == "14 days ago"
  {
    assert NatToString(14) == NatToString(1) + [DigitChar(4)];
  }

  /** `getRandomSavedDate` for a given draw: always one of five labels. */
  function RandomSavedDate(pick: DayIndex): (s: string)
    ensures s in ["1 day ago", "2 days ago", "3 days ago", "7 days ago", "14 days ago"]
  {
    SavedDayLabels();
    SavedDateLabel(SavedDays[pick])
  }

  /**
   * The saved list `fetchSavedProducts` builds: the first three products (all
   * of them when there are fewer), in order, each saved and dated by its draw.
   */
  function SavedSelection(products: seq<Product>, picks: seq<DayIndex>): (r: seq<Product>)
    requires |picks| >= ShownCount
    ensures |r| == if |products| < ShownCount then |products| else ShownCount
    ensures forall k :: 0 <= k < |r| ==> r[k].isSaved && r[k].savedDate == Some(RandomSavedDate(picks[k]))
    ensures forall k :: 0 <= k < |r| ==> r[k] == products[k].(isSaved := true, savedDate := Some(RandomSavedDate(picks[k])))
  {
    var first := Take(products, ShownCount);
    seq(|first|, k requires 0 <= k < |first| => first[k].(isSaved := true, savedDate := Some(RandomSavedDate(picks[k]))))
  }

  /** The test `handleRemove` filters with. */
  function OtherId(id: string): Product -> bool {
    (p: Product) => p.id != id
  }

  /**
   * `handleRemove(productId)`: every product with the id is dropped, every
   * other one is kept, in order; an absent id leaves the list as it was.
   */
  function RemoveById(products: seq<Product>, id: string): (r: seq<Product>)
    ensures IsSubsequence(r, products)
    ensures forall k :: 0 <= k < |r| ==> r[k].id != id
    ensures forall k :: 0 <= k < |products| && products[k].id != id ==> products[k] in r
    ensures (forall k :: 0 <= k < |products| ==> products[k].id != id) ==> r == products
  {
    var r := Filter(OtherId(id), products);
    if forall k :: 0 <= k < |products| ==> products[k].id != id then
      FilterKeepsAll(OtherId(id), products);
      r
    else
      r
  }

  /** Removing an id a second time changes nothing. */
  lemma RemoveByIdIdempotent(products: seq<Product>, id: string)
    ensures RemoveById(RemoveById(products, id), id) == RemoveById(products, id)
  {
  }

  /** The list shrinks by exactly the number of products carrying the id. */
  lemma RemoveByIdCount(products: seq<Product>, id: string)
    ensures |RemoveById(products, id)| + |Filter((p: Product) => p.id == id, products)| == |products|
  {
    FilterComplement(OtherId(id), (p: Product) => p.id == id, products);
  }

  /** `"Saved " + (savedDate || "recently")`. */
  function SavedCaption(p: Product): (s: string)
    ensures p.savedDate.None? || p.savedDate.value == "" ==> s == "Saved recently"
    ensures p.savedDate.Some? && p.savedDate.value != "" ==> s == "Saved " + p.savedDate.value
  {
    "Saved " + (if p.savedDate.Some? && p.savedDate.value != "" then p.savedDate.value else "recently")
  }

  class SavedItemsPage {
    /** The browser window the API client reads the token from, and signs out of on a 401. */
    const window: Window
    var savedProducts: seq<Product>
    var loading: bool

    constructor(window: Window)
      ensures this.window == window
      ensures savedProducts == [] && loading
    {
      this.window := window;
      savedProducts := [];
      loading := true;
    }

    /**
     * `fetchSavedProducts`: the selection of the reply's list (empty when
     * missing) replaces the saved list; a failed call keeps it. `picks` are
     * the page's random draws, one per selected product.
     */
    method FetchSavedProducts(reply: Reply<Option<seq<Product>>>, picks: seq<DayIndex>)
      requires |picks| >= ShownCount
      modifies this, window
      ensures window.Snapshot() == AfterReply(old(window.Snapshot()), reply)
      ensures reply.Success? ==> savedProducts == SavedSelection(OrEmpty(reply.data), picks)
      ensures reply.Failure? ==> savedProducts == old(savedProducts)
      ensures !loading
    {
      loading := true;
      var response, _ := Send(window, ProductsList, reply);
      if response.Success? {
        var products := OrEmpty(response.data);
        savedProducts := SavedSelection(products, picks);
      }
      loading := false;
    }

    method HandleRemove(productId: string)
      modifies this
      ensures savedProducts == RemoveById(old(savedProducts), productId)
      ensures loading == old(loading)
    {
      savedProducts := Filter(OtherId(productId), savedProducts);
    }
  }
}
