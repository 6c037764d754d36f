/** One user's cart: product name to quantity, kept as a sequence of lines in
    insertion order (the order a Python dict keeps, which is the order the
    cart is displayed in). */
module Carts {

  datatype Line = Line(name: string, qty: nat)

  type Cart = seq<Line>

  datatype QtyAction = Incr | Decr | Rm

  predicate Contains(c: Cart, name: string) {
    exists i :: 0 <= i < |c| && c[i].name == name
  }

  predicate UniqueNames(c: Cart) {
    forall i, j :: 0 <= i < j < |c| ==> c[i].name != c[j].name
  }

  /** The cart invariant: one line per product and no line below 1. */
  predicate ValidCart(c: Cart) {
    UniqueNames(c) && forall i :: 0 <= i < |c| ==> c[i].qty >= 1
  }

  /** Position of the product's line. */
  function IndexOf(c: Cart, name: string): (k: nat)
    requires Contains(c, name)
    ensures k < |c| && c[k].name == name
    ensures forall j :: 0 <= j < k ==> c[j].name != name
  {
    if c[0].name == name then 0
    else
      assert Contains(c[1..], name) by {
        var i :| 0 <= i < |c| && c[i].name == name;
        assert c[1..][i - 1] == c[i];
      }
      1 + IndexOf(c[1..], name)
  }

  /** cart.get(name, 0). */
  function Quantity(c: Cart, name: string): (q: nat)
    ensures !Contains(c, name) ==> q == 0
    ensures Contains(c, name) ==> q == c[IndexOf(c, name)].qty
  {
    if c == [] then 0
    else if c[0].name == name then c[0].qty
    else
      assert Contains(c, name) ==> Contains(c[1..], name) by {
        if Contains(c, name) {
          var i :| 0 <= i < |c| && c[i].name == name;
          assert c[1..][i - 1] == c[i];
        }
      }
      Quantity(c[1..], name)
  }

  /** In a valid cart a product has a positive quantity exactly when it has
      a line. */
  lemma {:induction false} QuantityPositive(c: Cart, name: string)
    requires ValidCart(c)
    ensures Quantity(c, name) >= 1 <==> Contains(c, name)
  {
  }

  /** `cart[name] = q`: an existing line keeps its place and only its
      quantity changes; a new product goes to the end. */
  function Put(c: Cart, name: string, q: nat): (r: Cart)
    requires UniqueNames(c)
    ensures UniqueNames(r)
    ensures Contains(c, name) ==>
      var k := IndexOf(c, name); r == c[..k] + [Line(name, q)] + c[k + 1..]
    ensures !Contains(c, name) ==> r == c + [Line(name, q)]
    ensures Quantity(r, name) == q
    ensures forall other :: other != name ==> Quantity(r, other) == Quantity(c, other)
    ensures ValidCart(c) && q >= 1 ==> ValidCart(r)
  {
    if Contains(c, name) then
      var k := IndexOf(c, name);
      var r := c[..k] + [Line(name, q)] + c[k + 1..];
      ReplaceKeepsNames(c, name, q, k, r);
      PutQuantities(c, name, q, k, r);
      r
    else
      var r := c + [Line(name, q)];
      AppendKeepsNames(c, Line(name, q));
      AppendQuantities(c, Line(name, q));
      r
  }

  /** Replacing the line at k by one with the same name keeps every name in
      place and every other line as it was. */
  lemma {:induction false} ReplaceKeepsNames(c: Cart, name: string, q: nat, k: nat, r: Cart)
    requires UniqueNames(c) && k < |c| && c[k].name == name
    requires r == c[..k] + [Line(name, q)] + c[k + 1..]
    ensures UniqueNames(r)
    ensures ValidCart(c) && q >= 1 ==> ValidCart(r)
  {
    assert forall i :: 0 <= i < |r| ==> r[i] == if i == k then Line(name, q) else c[i];
  }

  /** Appending a line for a new product keeps the names unique. */
  lemma {:induction false} AppendKeepsNames(c: Cart, l: Line)
    requires UniqueNames(c) && !Contains(c, l.name)
    ensures UniqueNames(c + [l])
    ensures ValidCart(c) && l.qty >= 1 ==> ValidCart(c + [l])
  {
    assert forall i :: 0 <= i < |c| ==> (c + [l])[i] == c[i];
  }

  /** Quantities after replacing the line at k. */
  lemma {:induction false} PutQuantities(c: Cart, name: string, q: nat, k: nat, r: Cart)
    requires UniqueNames(c) && k < |c| && c[k].name == name
    requires r == c[..k] + [Line(name, q)] + c[k + 1..]
    ensures Quantity(r, name) == q
    ensures forall other :: other != name ==> Quantity(r, other) == Quantity(c, other)
  {
    if k > 0 {
      assert c[0] == r[0];
      PutQuantities(c[1..], name, q, k - 1, r[1..]) by {
        assert r[1..] == c[1..][..k - 1] + [Line(name, q)] + c[1..][k..];
      }
    } else {
      assert r[1..] == c[1..];
    }
  }

  /** Quantities after appending a line for a product not yet in the cart. */
  lemma {:induction false} AppendQuantities(c: Cart, l: Line)
    requires !Contains(c, l.name)
    ensures Quantity(c + [l], l.name) == l.qty
    ensures forall other :: other != l.name ==> Quantity(c + [l], other) == Quantity(c, other)
  {
    if c != [] {
      assert (c + [l])[1..] == c[1..] + [l];
      AppendQuantities(c[1..], l);
    }
  }

  /** `cart.pop(name, None)`: the product's line is cut out and the other
      lines keep their order. */
  function Drop(c: Cart, name: string): (r: Cart)
    requires UniqueNames(c)
    ensures UniqueNames(r)
    ensures !Contains(r, name)
    ensures Contains(c, name) ==>
      var k := IndexOf(c, name); r == c[..k] + c[k + 1..]
    ensures !Contains(c, name) ==> r == c
    ensures forall other :: other != name ==> Quantity(r, other) == Quantity(c, other)
    ensures ValidCart(c) ==> ValidCart(r)
  {
    if Contains(c, name) then
      var k := IndexOf(c, name);
      var r := c[..k] + c[k + 1..];
      assert forall i :: 0 <= i < |r| ==> r[i] == if i < k then c[i] else c[i + 1];
      DropQuantities(c, name, k, r);
      r
    else
      c
  }

  lemma {:induction false} DropQuantities(c: Cart, name: string, k: nat, r: Cart)
    requires UniqueNames(c) && k < |c| && c[k].name == name
    requires r == c[..k] + c[k + 1..]
    ensures forall other :: other != name ==> Quantity(r, other) == Quantity(c, other)
  {
    if k > 0 {
      assert c[0] == r[0];
      DropQuantities(c[1..], name, k - 1, r[1..]) by {
        assert r[1..] == c[1..][..k - 1] + c[1..][k..];
      }
    } else {
      assert r == c[1..];
    }
  }

  /** cb_add: `cart[item] = cart.get(item, 0) + 1`. */
  function AddItem(c: Cart, name: string): (r: Cart)
    requires UniqueNames(c)
    ensures Quantity(r, name) == Quantity(c, name) + 1
    ensures forall other :: other != name ==> Quantity(r, other) == Quantity(c, other)
    ensures ValidCart(c) ==> ValidCart(r)
    ensures Contains(r, name)
  {
    Put(c, name, Quantity(c, name) + 1)
  }

  lemma {:induction false} AddItemIsPut(c: Cart, name: string)
    requires UniqueNames(c)
    ensures AddItem(c, name) == Put(c, name, Quantity(c, name) + 1)
  {
  }

  /** cb_qty on one cart: nothing happens for an empty cart or a product
      without a line; otherwise incr adds 1, decr lowers by 1 but not below 1,
      rm deletes the line. */
  function Adjust(c: Cart, action: QtyAction, name: string): (r: Cart)
    requires UniqueNames(c)
    ensures !Contains(c, name) ==> r == c
    ensures Contains(c, name) ==> Quantity(r, name) == match action
      case Incr => Quantity(c, name) + 1
      case Decr => if Quantity(c, name) <= 1 then 1 else Quantity(c, name) - 1
      case Rm => 0
    ensures forall other :: other != name ==> Quantity(r, other) == Quantity(c, other)
    ensures ValidCart(c) ==> ValidCart(r)
    ensures UniqueNames(r)
  {
    if c == [] || !Contains(c, name) then c
    else
      match action
      case Incr => AddItem(c, name)
      case Decr => Put(c, name, if Quantity(c, name) <= 1 then 1 else Quantity(c, name) - 1)
      case Rm => Drop(c, name)
  }

  /** A button press on the cart: add from the menu, or +/-/remove. */
  datatype CartOp = AddOp(name: string) | AdjustOp(action: QtyAction, name: string)

  /** One press; adding a product the catalog does not have changes nothing. */
  function Apply(c: Cart, available: set<string>, op: CartOp): (r: Cart)
    requires UniqueNames(c)
    ensures UniqueNames(r)
  {
    match op
    case AddOp(name) => if name in available then AddItem(c, name) else c
    case AdjustOp(action, name) => Adjust(c, action, name)
  }

  /** Presses applied one after another. */
  function Run(c: Cart, available: set<string>, ops: seq<CartOp>): (r: Cart)
    requires UniqueNames(c)
    ensures UniqueNames(r)
    decreases ops
  {
    if ops == [] then c else Run(Apply(c, available, ops[0]), available, ops[1..])
  }

  /** Whatever sequence of presses arrives, a valid cart stays valid: every
      product with a line has quantity at least 1 and no product has two
      lines. */
  lemma {:induction false} RunKeepsCartValid(c: Cart, available: set<string>, ops: seq<CartOp>)
    requires ValidCart(c)
    ensures ValidCart(Run(c, available, ops))
    decreases ops
  {
    if ops != [] {
      RunKeepsCartValid(Apply(c, available, ops[0]), available, ops[1..]);
    }
  }

  /** After a removal the product is gone and stays gone until it is added
      again: +/- on it are no-ops. */
  lemma {:induction false} RemovedStaysRemoved(c: Cart, name: string, action: QtyAction)
    requires UniqueNames(c)
    ensures !Contains(Adjust(Adjust(c, Rm, name), action, name), name)
  {
  }
}
