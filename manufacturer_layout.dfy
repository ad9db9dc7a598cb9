/**
 * The manufacturer area's frame (src/components/ManufacturerLayout.tsx): the
 * page title chosen from the current path by an ordered chain of substring
 * checks.
 */
module ManufacturerLayout {
  import opened JsStrings

  const Titles := ["Dashboard", "My Products", "Add Product", "Inquiries", "Settings"]

  /**
   * `getPageTitle`: the first keyword the path contains decides, in the order
   * dashboard, products, add-product, inquiries, settings; a path with none of
   * them is titled 'Dashboard'.
   */
  function PageTitle(path: string): (t: string)
    ensures t in Titles
    ensures Contains(path, "dashboard") ==> t == "Dashboard"
    ensures !Contains(path, "dashboard") && Contains(path, "products") ==> t == "My Products"
    ensures t == "Add Product" <==> !Contains(path, "dashboard") && !Contains(path, "products") && Contains(path, "add-product")
    ensures t == "Inquiries" <==> !Contains(path, "dashboard") && !Contains(path, "products") && !Contains(path, "add-product") && Contains(path, "inquiries")
    ensures t == "Settings" <==> !Contains(path, "dashboard") && !Contains(path, "products") && !Contains(path, "add-product") && !Contains(path, "inquiries") && Contains(path, "settings")
  {
    if Contains(path, "dashboard") then "Dashboard"
    else if Contains(path, "products") then "My Products"
    else if Contains(path, "add-product") then "Add Product"
    else if Contains(path, "inquiries") then "Inquiries"
    else if Contains(path, "settings") then "Settings"
    else "Dashboard"
  }

  /** A path with none of the five keywords falls back to 'Dashboard'. */
  lemma NoKeywordIsDashboard(path: string)
    requires !Contains(path, "dashboard") && !Contains(path, "products") && !Contains(path, "add-product")
    requires !Contains(path, "inquiries") && !Contains(path, "settings")
    ensures PageTitle(path) == "Dashboard"
  {
  }

  /**
   * A path that holds "add-product" but no 'h' and no 's' (so neither
   * "dashboard" nor "products") is titled 'Add Product'.
   */
  lemma AddProductTitle(path: string)
    requires Contains(path, "add-product") && 'h' !in path && 's' !in path
    ensures PageTitle(path) == "Add Product"
  {
    MissingCharNotContained(path, "dashboard", 'h');
    MissingCharNotContained(path, "products", 's');
  }

  /** A path ending in "add-product" whose start has no 'h' and no 's' is titled 'Add Product'. */
  lemma AddProductUnder(prefix: string)
    requires 'h' !in prefix && 's' !in prefix
    ensures PageTitle(prefix + "add-product") == "Add Product"
  {
    var path := prefix + "add-product";
    assert path[|prefix|..|prefix| + 11] == "add-product";
    assert OccursAt(path, "add-product", |prefix|);
    ContainsIffOccurs(path, "add-product");
    AddProductTitle(path);
  }

  /** The add-product page itself: "/manufacturer/add-product" is not a "products" path. */
  lemma AddProductPageTitle()
    ensures PageTitle("/manufacturer/add-product") == "Add Product"
  {
    assert "/manufacturer/add-product" == "/manufacturer/" + "add-product";
    AddProductUnder("/manufacturer/");
  }
}
