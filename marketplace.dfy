/**
 * The marketplace records the dashboard pages load from the backend, and the
 * address shortening both buyer pages apply to a manufacturer's address.
 */
module Marketplace {
  import opened Wrappers
  import opened JsStrings

  /** A manufacturer as embedded in a product; its address is optional. */
  datatype Company = Company(id: string, companyName: string, address: Option<string>)

  /**
   * A product listing. `isSaved` and `savedDate` exist only in the front end:
   * the search page marks products saved, the saved-items page dates them.
   */
  datatype Product = Product(
    id: string,
    title: string,
    description: string,
    category: string,
    status: string,
    manufacturer: Company,
    isSaved: bool,
    savedDate: Option<string>)

  /** An inquiry as the inquiry lists return it: both parties, the product, and its state. */
  datatype Inquiry = Inquiry(
    id: string,
    productTitle: string,
    buyerName: string,
    manufacturerName: string,
    status: string,
    priority: string,
    budget: Option<real>,
    createdAt: string)

  /** `list || []`: a list missing from the reply is taken as empty. */
  function OrEmpty<T>(list: Option<seq<T>>): (r: seq<T>)
    ensures list.None? ==> r == []
    ensures list.Some? ==> r == list.value
  {
    list.GetOr([])
  }

  const NoLocation := "Location not specified"

  /**
   * `getLocationFromAddress`: a missing or empty address has no location; an
   * address without a comma is shown as it is; otherwise the last two
   * comma-separated parts, trimmed, are shown as "region, country"
   * (`LocationOfParts` states that case for every address).
   */
  function LocationFromAddress(address: Option<string>): (r: string)
    ensures address.None? || address.value == "" ==> r == NoLocation
    ensures address.Some? && address.value != "" && ',' !in address.value ==> r == address.value
  {
    match address
    case None => NoLocation
    case Some(a) =>
      if a == "" then NoLocation
      else
        var parts := Split(a, ',');
        if |parts| > 1 then Trim(parts[|parts| - 2]) + ", " + Trim(parts[|parts| - 1]) else a
  }

  /** An address made of comma-free parts, at least two, shows its last two parts trimmed. */
  lemma LocationOfParts(parts: seq<string>)
    requires |parts| >= 2
    requires forall k :: 0 <= k < |parts| ==> ',' !in parts[k]
    ensures LocationFromAddress(Some(Join(parts, ','))) == Trim(parts[|parts| - 2]) + ", " + Trim(parts[|parts| - 1])
  {
    SplitJoin(parts, ',');
    JoinHoldsSeparator(parts, ',');
    var a := Join(parts, ',');
    assert a != "" && Split(a, ',') == parts;
  }

  /** Every address is some sequence of comma-free parts joined by commas, so the lemma above covers them all. */
  lemma AddressIsJoinedParts(a: string)
    ensures var parts := Split(a, ',');
            Join(parts, ',') == a && (|parts| >= 2 <==> ',' in a)
  {
  }
}
