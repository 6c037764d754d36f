/** Pricing a cart: the subtotal / delivery / total that checkout and the
    order record use (calc_totals), and the per-line pricing of the cart view
    (build_cart_text). All amounts are in pence. */
module Totals {
  import opened Wrappers
  import opened Text
  import opened Catalog
  import opened Carts

  /** The three figures calc_totals returns, in pence. */
  datatype Amounts = Amounts(subtotal: int, delivery: int, total: int)

  /** Price × quantity of one line, or 0 when the product is not in `prices`. */
  function LineAmount(prices: map<string, Product>, l: Line): nat {
    if l.name in prices then prices[l.name].price * l.qty else 0
  }

  /** Sum of the line amounts, first line first. */
  function CartSubtotal(prices: map<string, Product>, c: Cart): int {
    if c == [] then 0 else LineAmount(prices, c[0]) + CartSubtotal(prices, c[1..])
  }

  /** calc_totals' generator: for each category in turn, every cart line whose
      product that category lists. */
  function CatalogSubtotal(catalog: Catalog, c: Cart): int {
    if catalog == [] then 0
    else CatalogSubtotal(catalog[..|catalog| - 1], c) + CartSubtotal(catalog[|catalog| - 1].items, c)
  }

  /** The delivery rule: free from the threshold up, the flat fee below it;
      the total is subtotal plus delivery. */
  function Priced(subtotal: int, fee: nat, threshold: int): (t: Amounts)
    ensures t.subtotal == subtotal
    ensures t.total == t.subtotal + t.delivery
    ensures t.delivery == (if subtotal >= threshold then 0 else fee)
  {
    var delivery := if subtotal >= threshold then 0 else fee;
    Amounts(subtotal, delivery, subtotal + delivery)
  }

  /** calc_totals. */
  function CalcTotals(catalog: Catalog, c: Cart, fee: nat, threshold: int): (t: Amounts)
    ensures t.subtotal == CatalogSubtotal(catalog, c)
    ensures t.total == t.subtotal + t.delivery
    ensures t.delivery == (if t.subtotal >= threshold then 0 else fee)
  {
    Priced(CatalogSubtotal(catalog, c), fee, threshold)
  }

  /** The lines the cart view and the order record show: those whose product
      is still in the catalog, in cart order. */
  function KnownLines(prices: map<string, Product>, c: Cart): (r: Cart)
    ensures |r| <= |c|
    ensures forall i :: 0 <= i < |r| ==> r[i].name in prices
    ensures forall l :: l in r <==> l in c && l.name in prices
  {
    if c == [] then []
    else if c[0].name in prices then [c[0]] + KnownLines(prices, c[1..])
    else KnownLines(prices, c[1..])
  }

  /** Nothing is dropped from a cart whose products are all still listed. */
  lemma {:induction false} KnownLinesAllKnown(prices: map<string, Product>, c: Cart)
    requires forall i :: 0 <= i < |c| ==> c[i].name in prices
    ensures KnownLines(prices, c) == c
  {
    if c != [] {
      KnownLinesAllKnown(prices, c[1..]);
    }
  }

  /** Total number of items on the given lines. */
  function ItemCount(lines: Cart): nat {
    if lines == [] then 0 else ItemCount(lines[..|lines| - 1]) + lines[|lines| - 1].qty
  }

  lemma {:induction false} CartSubtotalConcat(prices: map<string, Product>, a: Cart, b: Cart)
    ensures CartSubtotal(prices, a + b) == CartSubtotal(prices, a) + CartSubtotal(prices, b)
  {
    if a == [] {
      assert a + b == b;
    } else {
      assert (a + b)[1..] == a[1..] + b;
      CartSubtotalConcat(prices, a[1..], b);
    }
  }

  lemma {:induction false} CartSubtotalNoPrices(c: Cart)
    ensures CartSubtotal(map[], c) == 0
  {
    if c != [] {
      CartSubtotalNoPrices(c[1..]);
    }
  }

  /** Lines whose product is not in `items` but is in the larger map `all`
      may be dropped: pricing with `items` never sees them. */
  lemma {:induction false} KnownLinesPriceTheSame(items: map<string, Product>, all: map<string, Product>, c: Cart)
    requires items.Keys <= all.Keys
    ensures CartSubtotal(items, KnownLines(all, c)) == CartSubtotal(items, c)
  {
    if c != [] {
      KnownLinesPriceTheSame(items, all, c[1..]);
    }
  }

  /** Stale products (no longer in any category) contribute nothing to the
      checkout subtotal: it equals the subtotal of the lines the cart view
      shows. */
  lemma {:induction false} StaleLinesAddNothing(catalog: Catalog, c: Cart)
    ensures CatalogSubtotal(catalog, KnownLines(AllProducts(catalog), c)) == CatalogSubtotal(catalog, c)
  {
    if catalog != [] {
      var n := |catalog| - 1;
      var all := AllProducts(catalog);
      var known := KnownLines(all, c);
      var initAll := AllProducts(catalog[..n]);
      assert catalog[n].items.Keys <= all.Keys;
      KnownLinesPriceTheSame(catalog[n].items, all, c);
      // the initial categories see the same sum whether stale lines are
      // filtered by their own merged map or by the whole catalog's
      assert initAll.Keys <= all.Keys;
      StaleLinesAddNothingPrefix(catalog[..n], all, c);
    }
  }

  lemma {:induction false} StaleLinesAddNothingPrefix(catalog: Catalog, all: map<string, Product>, c: Cart)
    requires AllProducts(catalog).Keys <= all.Keys
    ensures CatalogSubtotal(catalog, KnownLines(all, c)) == CatalogSubtotal(catalog, c)
  {
    if catalog != [] {
      var n := |catalog| - 1;
      assert catalog[n].items.Keys <= AllProducts(catalog).Keys;
      KnownLinesPriceTheSame(catalog[n].items, all, c);
      assert AllProducts(catalog[..n]).Keys <= AllProducts(catalog).Keys;
      StaleLinesAddNothingPrefix(catalog[..n], all, c);
    }
  }

  lemma {:induction false} CartSubtotalDisjointUnion(a: map<string, Product>, b: map<string, Product>, c: Cart)
    requires a.Keys !! b.Keys
    ensures CartSubtotal(a + b, c) == CartSubtotal(a, c) + CartSubtotal(b, c)
  {
    if c != [] {
      CartSubtotalDisjointUnion(a, b, c[1..]);
    }
  }

  /** When no product name is listed in two categories, the checkout
      subtotal (which walks the categories) equals the cart view's subtotal
      (which prices each line once from ALL_PRODUCTS). */
  lemma {:induction false} CheckoutAgreesWithCartView(catalog: Catalog, c: Cart)
    requires DisjointCategories(catalog)
    ensures CatalogSubtotal(catalog, c) == CartSubtotal(AllProducts(catalog), c)
  {
    if catalog == [] {
      CartSubtotalNoPrices(c);
    } else {
      var n := |catalog| - 1;
      var init := catalog[..n];
      DisjointPrefix(catalog);
      CheckoutAgreesWithCartView(init, c);
      assert AllProducts(init).Keys !! catalog[n].items.Keys by {
        forall name | name in AllProducts(init) ensures name !in catalog[n].items {
          var i :| 0 <= i < |init| && name in init[i].items;
          assert init[i] == catalog[i];
        }
      }
      CartSubtotalDisjointUnion(AllProducts(init), catalog[n].items, c);
    }
  }

  /** A product listed in two categories is charged twice at checkout but
      shown once in the cart view. */
  lemma {:induction false} DuplicateNameChargedTwice()
    ensures var sticker := Product(300, "");
            var catalog := [Category("Animals", map["Cat" := sticker]),
                            Category("Pets", map["Cat" := sticker])];
            var c := [Line("Cat", 1)];
            CatalogSubtotal(catalog, c) == 600 && CartSubtotal(AllProducts(catalog), c) == 300
  {
    var sticker := Product(300, "");
    var catalog := [Category("Animals", map["Cat" := sticker]),
                    Category("Pets", map["Cat" := sticker])];
    var c := [Line("Cat", 1)];
    var one := map["Cat" := sticker];
    assert c[1..] == [];
    assert CartSubtotal(one, c) == 300;
    assert catalog[..1] == [catalog[0]];
    assert catalog[..1][..0] == [];
    assert CatalogSubtotal(catalog[..1], c) == 300;
    assert AllProducts(catalog[..1]) == one;
    assert AllProducts(catalog) == one;
  }

  /** Setting one product's quantity changes the subtotal by the difference
      of its two line amounts, wherever its line sits. */
  lemma {:induction false} PutChangesSubtotalByLine(prices: map<string, Product>, c: Cart, name: string, q: nat)
    requires UniqueNames(c)
    ensures CartSubtotal(prices, Put(c, name, q)) + LineAmount(prices, Line(name, Quantity(c, name)))
         == CartSubtotal(prices, c) + LineAmount(prices, Line(name, q))
  {
    var r := Put(c, name, q);
    if Contains(c, name) {
      var k := IndexOf(c, name);
      assert c == c[..k] + [c[k]] + c[k + 1..];
      CartSubtotalConcat(prices, c[..k] + [c[k]], c[k + 1..]);
      CartSubtotalConcat(prices, c[..k], [c[k]]);
      CartSubtotalConcat(prices, c[..k] + [Line(name, q)], c[k + 1..]);
      CartSubtotalConcat(prices, c[..k], [Line(name, q)]);
    } else {
      CartSubtotalConcat(prices, c, [Line(name, q)]);
    }
  }

  /** Adding one unit of a priced product raises the cart view's subtotal
      by exactly that product's price. */
  lemma {:induction false} AddRaisesCartSubtotal(prices: map<string, Product>, c: Cart, name: string)
    requires UniqueNames(c) && name in prices
    ensures CartSubtotal(prices, AddItem(c, name)) == CartSubtotal(prices, c) + prices[name].price
  {
    AddItemIsPut(c, name);
    PutOneMore(prices, c, name, Quantity(c, name), AddItem(c, name));
  }

  lemma {:induction false} PutOneMore(prices: map<string, Product>, c: Cart, name: string, q: nat, r: Cart)
    requires UniqueNames(c) && name in prices
    requires q == Quantity(c, name) && r == Put(c, name, q + 1)
    ensures CartSubtotal(prices, r) == CartSubtotal(prices, c) + prices[name].price
  {
    PutChangesSubtotalByLine(prices, c, name, q + 1);
    LineAmountStep(prices, name, q);
  }

  /** Adding one unit of a catalog product (cb_add) raises the checkout
      subtotal by exactly that product's price, when names are unique across
      categories. */
  lemma {:induction false} AddRaisesSubtotalByPrice(catalog: Catalog, c: Cart, name: string)
    requires DisjointCategories(catalog) && UniqueNames(c)
    requires name in AllProducts(catalog)
    ensures CatalogSubtotal(catalog, AddItem(c, name))
         == CatalogSubtotal(catalog, c) + AllProducts(catalog)[name].price
  {
    AddRaisesCartSubtotal(AllProducts(catalog), c, name);
    CheckoutAgreesWithCartView(catalog, c);
    CheckoutAgreesWithCartView(catalog, AddItem(c, name));
  }

  /** One more unit on a priced line costs one more price. */
  lemma {:induction false} LineAmountStep(prices: map<string, Product>, name: string, q: nat)
    requires name in prices
    ensures LineAmount(prices, Line(name, q + 1)) == LineAmount(prices, Line(name, q)) + prices[name].price
  {
    var p := prices[name].price;
    assert p * (q + 1) == p * q + p;
  }

  /** The worked example: two stickers at 3.00 with a 2.50 fee and a 10.00
      threshold cost 6.00 + 2.50 = 8.50; at four stickers delivery is free
      and the total is 12.00. */
  lemma {:induction false} TotalsExample()
    ensures var catalog := [Category("All", map["Sticker A" := Product(300, "")])];
            CalcTotals(catalog, [Line("Sticker A", 2)], 250, 1000) == Amounts(600, 250, 850)
            && CalcTotals(catalog, [Line("Sticker A", 4)], 250, 1000) == Amounts(1200, 0, 1200)
  {
    var catalog := [Category("All", map["Sticker A" := Product(300, "")])];
    assert catalog[..0] == [];
  }

  /** Summary figures of the cart view. */
  datatype CartSummary = CartSummary(lines: Cart, items: nat, totals: Amounts)

  /** What the cart view shows: nothing to check out for an empty cart;
      otherwise the known lines, the item count over them and their pricing.
      A cart of only stale products is not empty. */
  function SummaryOf(products: map<string, Product>, c: Cart, fee: nat, threshold: int): Option<CartSummary> {
    if c == [] then None
    else
      var lines := KnownLines(products, c);
      Some(CartSummary(lines, ItemCount(lines), Priced(CartSubtotal(products, c), fee, threshold)))
  }

  /** With names unique across categories, the totals the cart view shows
      are the totals checkout charges. */
  lemma {:induction false} ViewAgreesWithCheckout(catalog: Catalog, c: Cart, fee: nat, threshold: int)
    requires DisjointCategories(catalog) && c != []
    ensures var view := SummaryOf(AllProducts(catalog), c, fee, threshold);
            view.Some? && view.value.totals == CalcTotals(catalog, c, fee, threshold)
  {
    CheckoutAgreesWithCartView(catalog, c);
  }

  /** build_cart_text without the text: one pass over the cart lines,
      skipping stale products and accumulating the subtotal and the item
      count. */
  method BuildCartText(products: map<string, Product>, c: Cart, fee: nat, threshold: int)
    returns (summary: Option<CartSummary>)
    ensures summary == SummaryOf(products, c, fee, threshold)
  {
    if c == [] {
      return None;
    }
    var lines: Cart := [];
    var subtotal := 0;
    var items: nat := 0;
    var i := 0;
    while i < |c|
      invariant 0 <= i <= |c|
      invariant lines == KnownLines(products, c[..i])
      invariant items == ItemCount(lines)
      invariant subtotal == CartSubtotal(products, c[..i])
    {
      var l := c[i];
      ScanStep(products, c, i, lines, items, subtotal);
      if l.name in products {
        var amount := products[l.name].price * l.qty;
        lines := lines + [l];
        subtotal := subtotal + amount;
        items := items + l.qty;
      }
      i := i + 1;
    }
    assert c[..i] == c;
    var delivery := if subtotal >= threshold then 0 else fee;
    summary := Some(CartSummary(lines, items, Amounts(subtotal, delivery, subtotal + delivery)));
  }

  /** One step of build_cart_text's scan: a priced line is appended to the
      shown lines and adds its quantity and its amount; a stale line changes
      nothing. Either way the figures are those of the next longer prefix. */
  lemma {:induction false} ScanStep(products: map<string, Product>, c: Cart, i: nat,
                                    lines: Cart, items: nat, subtotal: int)
    requires i < |c|
    requires lines == KnownLines(products, c[..i]) && items == ItemCount(lines)
    requires subtotal == CartSubtotal(products, c[..i])
    ensures c[i].name in products ==>
              lines + [c[i]] == KnownLines(products, c[..i + 1])
              && items + c[i].qty == ItemCount(lines + [c[i]])
              && subtotal + products[c[i].name].price * c[i].qty == CartSubtotal(products, c[..i + 1])
    ensures c[i].name !in products ==>
              lines == KnownLines(products, c[..i + 1])
              && subtotal == CartSubtotal(products, c[..i + 1])
  {
    CartStep(products, c, i);
    ItemCountAppend(lines, c[i]);
  }

  /** Extending the scanned prefix by one line extends the known lines and
      the subtotal by that line's share. */
  lemma {:induction false} CartStep(products: map<string, Product>, c: Cart, i: nat)
    requires i < |c|
    ensures KnownLines(products, c[..i + 1])
         == KnownLines(products, c[..i]) + (if c[i].name in products then [c[i]] else [])
    ensures CartSubtotal(products, c[..i + 1]) == CartSubtotal(products, c[..i]) + LineAmount(products, c[i])
  {
    assert c[..i + 1] == c[..i] + [c[i]];
    assert [c[i]][1..] == [];
    KnownLinesConcat(products, c[..i], [c[i]]);
    CartSubtotalConcat(products, c[..i], [c[i]]);
  }

  lemma {:induction false} KnownLinesConcat(prices: map<string, Product>, a: Cart, b: Cart)
    ensures KnownLines(prices, a + b) == KnownLines(prices, a) + KnownLines(prices, b)
  {
    if a == [] {
      assert a + b == b;
    } else {
      assert (a + b)[1..] == a[1..] + b;
      KnownLinesConcat(prices, a[1..], b);
    }
  }

  lemma {:induction false} ItemCountAppend(lines: Cart, l: Line)
    ensures ItemCount(lines + [l]) == ItemCount(lines) + l.qty
  {
    assert (lines + [l])[..|lines|] == lines;
  }

  /** money(): the amount with two decimals, `f"{amount:.2f}"`. */
  function AmountText(pence: nat): string {
    NatToString(pence / 100) + "." + Pad2(pence % 100)
  }

  /** The two-decimal text reads back as the amount: whole units before the
      point, exactly two digits of pence after it. */
  lemma {:induction false} AmountTextRoundTrip(pence: nat)
    ensures var s := AmountText(pence);
            |s| >= 4 && s[|s| - 3] == '.' && AllDigits(s[..|s| - 3]) && AllDigits(s[|s| - 2..])
            && StringToNat(s[..|s| - 3]) * 100 + StringToNat(s[|s| - 2..]) == pence
  {
    var s := AmountText(pence);
    var whole := NatToString(pence / 100);
    assert s[..|s| - 3] == whole;
    assert s[|s| - 2..] == Pad2(pence % 100);
    NatToStringRoundTrip(pence / 100);
    Pad2RoundTrip(pence % 100);
  }
}
