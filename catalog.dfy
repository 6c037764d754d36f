/** The product catalog: categories of named products, loaded once and never
    changed. Prices are in minor units (pence), so the two-decimal quantising
    the shop applies to whole-penny amounts changes nothing. */
module Catalog {

  datatype Product = Product(price: nat, emoji: string)

  /** One category: its title and its products by name. A flat catalog is
      a single category titled "All". */
  datatype Category = Category(title: string, items: map<string, Product>)

  type Catalog = seq<Category>

  /** The name is listed in some category. */
  predicate Listed(catalog: Catalog, name: string) {
    exists i :: 0 <= i < |catalog| && name in catalog[i].items
  }

  /** ALL_PRODUCTS: every category's products in one map; where a name is
      listed in several categories, the last category's entry wins. */
  function AllProducts(catalog: Catalog): (all: map<string, Product>)
    ensures forall name :: name in all <==> Listed(catalog, name)
  {
    if catalog == [] then map[]
    else
      var all := AllProducts(catalog[..|catalog| - 1]) + catalog[|catalog| - 1].items;
      assert forall name :: Listed(catalog, name) <==>
        Listed(catalog[..|catalog| - 1], name) || name in catalog[|catalog| - 1].items
      by {
        forall name | Listed(catalog, name)
          ensures Listed(catalog[..|catalog| - 1], name) || name in catalog[|catalog| - 1].items
        {
          var i :| 0 <= i < |catalog| && name in catalog[i].items;
          if i < |catalog| - 1 { assert catalog[..|catalog| - 1][i] == catalog[i]; }
        }
      }
      all
  }

  /** No product name is listed in two categories. */
  predicate DisjointCategories(catalog: Catalog) {
    forall i, j :: 0 <= i < j < |catalog| ==> catalog[i].items.Keys !! catalog[j].items.Keys
  }

  /** Dropping the last category keeps the categories disjoint. */
  lemma {:induction false} DisjointPrefix(catalog: Catalog)
    requires DisjointCategories(catalog) && catalog != []
    ensures DisjointCategories(catalog[..|catalog| - 1])
  {
    var init := catalog[..|catalog| - 1];
    forall a, b | 0 <= a < b < |init| ensures init[a].items.Keys !! init[b].items.Keys {
      assert init[a] == catalog[a] && init[b] == catalog[b];
    }
  }

  /** With disjoint categories, ALL_PRODUCTS holds each product exactly as
      its own category lists it. */
  lemma {:induction false} AllProductsOfDisjoint(catalog: Catalog, i: nat, name: string)
    requires DisjointCategories(catalog)
    requires i < |catalog| && name in catalog[i].items
    ensures name in AllProducts(catalog) && AllProducts(catalog)[name] == catalog[i].items[name]
  {
    var n := |catalog| - 1;
    if i < n {
      var init := catalog[..n];
      assert init[i] == catalog[i];
      DisjointPrefix(catalog);
      AllProductsOfDisjoint(init, i, name);
      assert catalog[i].items.Keys !! catalog[n].items.Keys;
    }
  }

  /** list_all_products: the outer loop over the categories. */
  method ListAllProducts(catalog: Catalog) returns (all: map<string, Product>)
    ensures all == AllProducts(catalog)
  {
    all := map[];
    var i := 0;
    while i < |catalog|
      invariant 0 <= i <= |catalog|
      invariant all == AllProducts(catalog[..i])
    {
      all := MergeItems(all, catalog[i].items);
      assert catalog[..i + 1][..i] == catalog[..i];
      i := i + 1;
    }
    assert catalog[..i] == catalog;
  }

  /** list_all_products' inner loop: the category's items written into the
      merged map one by one, overwriting earlier entries. */
  method MergeItems(before: map<string, Product>, items: map<string, Product>)
    returns (all: map<string, Product>)
    ensures all == before + items
  {
    all := before;
    var todo := items.Keys;
    while todo != {}
      invariant todo <= items.Keys
      invariant forall name :: name in all <==> name in before || name in items.Keys - todo
      invariant forall name :: name in all ==>
        all[name] == if name in items.Keys - todo then items[name] else before[name]
      decreases todo
    {
      var name :| name in todo;
      all := all[name := items[name]];
      todo := todo - {name};
    }
  }
}
