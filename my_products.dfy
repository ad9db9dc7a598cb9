/**
 * The manufacturer's product list (src/pages/manufacturer/MyProducts.tsx):
 * the fetched list, the status badge with its label and colour, the count
 * line, and the delete button, which asks for confirmation and then only
 * reloads the list.
 */
module MyProducts {
  import opened Wrappers
  import opened JsStrings
  import opened Browser
  import opened Api
  import opened Marketplace

  /** A product as this page lists it; only the status matters to the logic here. */
  datatype ListedProduct = ListedProduct(id: string, title: string, category: string, status: string)

  datatype Badge = Badge(variant: string, className: string)

  const KnownProductStatuses := ["available", "out-of-stock", "discontinued"]

  const DefaultBadge := Badge("default", "bg-primary text-primary-foreground")

  /** The badge for a status: fixed ones for the three known statuses, the default one for any other. */
  function StatusBadge(status: string): (b: Badge)
    ensures status == "available" ==> b == Badge("default", "bg-green-500 text-white")
    ensures status == "out-of-stock" ==> b == Badge("secondary", "bg-red-500 text-white")
    ensures status == "discontinued" ==> b == Badge("secondary", "bg-gray-500 text-white")
    ensures b == DefaultBadge <==> status !in KnownProductStatuses
  {
    match status
    case "available" => Badge("default", "bg-green-500 text-white")
    case "out-of-stock" => Badge("secondary", "bg-red-500 text-white")
    case "discontinued" => Badge("secondary", "bg-gray-500 text-white")
    case _ => DefaultBadge
  }

  /**
   * The badge text: the first character upper-cased, then the rest with only
   * its first '-' turned into a space; every later '-' stays.
   */
  function StatusLabel(status: string): (text: string)
    ensures |text| == |status|
    ensures status != "" ==> text[0] == UpperChar(status[0])
    ensures status != "" && '-' !in status[1..] ==> text[1..] == status[1..]
    ensures status != "" && '-' in status[1..] ==> text[1 + IndexOf(status[1..], '-')] == ' '
    ensures forall k :: 1 <= k < |status| && k != 1 + IndexOf(status[1..], '-') ==> text[k] == status[k]
  {
    if status == "" then "" else [UpperChar(status[0])] + ReplaceFirst(status[1..], '-', ' ')
  }

  /**
   * A status whose first word (after its first character) has no hyphen gets
   * a space for the hyphen that follows the word, and keeps every later one:
   * "out" + "-" + "of-stock" is shown as "Out" + " " + "of-stock".
   */
  lemma {:induction false} LabelReplacesOnlyFirstHyphen(word: string, rest: string)
    requires word != "" && '-' !in word[1..]
    ensures StatusLabel(word + "-" + rest) == [UpperChar(word[0])] + word[1..] + " " + rest
  {
    var status := word + "-" + rest;
    assert status[0] == word[0];
    assert status[1..] == word[1..] + ['-'] + rest;
    ReplaceFirstAfterFreePrefix(word[1..], '-', ' ', rest);
    assert StatusLabel(status) == [UpperChar(word[0])] + (word[1..] + [' '] + rest);
  }

  /** The count line: "product" is singular only when exactly one product is listed. */
  function CountText(n: nat): (s: string)
    ensures n == 1 ==> s == "1 product listed"
    ensures |NatToString(n)| <= |s| && s[..|NatToString(n)|] == NatToString(n)
    ensures s[|NatToString(n)|..] == if n == 1 then " product listed" else " products listed"
  {
    var noun := if n != 1 then " products" else " product";
    IntToString(n) + noun + " listed"
  }

  class MyProductsPage {
    /** The browser window the API client reads the token from, and signs out of on a 401. */
    const window: Window
    var products: seq<ListedProduct>
    var loading: bool

    constructor(window: Window)
      ensures this.window == window
      ensures products == [] && loading
    {
      this.window := window;
      products := [];
      loading := true;
    }

    /** `fetchProducts`: the reply's list, empty when missing; a failed call keeps the old list. */
    method FetchProducts(reply: Reply<Option<seq<ListedProduct>>>)
      modifies this, window
      ensures window.Snapshot() == AfterReply(old(window.Snapshot()), reply)
      ensures reply.Success? ==> products == OrEmpty(reply.data)
      ensures reply.Failure? ==> products == old(products)
      ensures !loading
    {
      loading := true;
      var response, _ := Send(window, ProductsMine, reply);
      if response.Success? {
        products := OrEmpty(response.data);
      }
      loading := false;
    }

    /**
     * `handleDelete`: a declined confirmation does nothing; an accepted one
     * sends no delete request and only reloads the list with `refetch`.
     */
    method HandleDelete(productId: string, confirmed: bool, refetch: Reply<Option<seq<ListedProduct>>>)
      modifies this, window
      ensures !confirmed ==> window.Snapshot() == old(window.Snapshot())
      ensures confirmed ==> window.Snapshot() == AfterReply(old(window.Snapshot()), refetch)
      ensures !confirmed ==> products == old(products) && loading == old(loading)
      ensures confirmed && refetch.Success? ==> products == OrEmpty(refetch.data) && !loading
      ensures confirmed && refetch.Failure? ==> products == old(products) && !loading
    {
      if !confirmed {
        return;
      }
      FetchProducts(refetch);
    }
  }
}
