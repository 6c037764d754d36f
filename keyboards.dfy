/** The inline buttons the shop shows and how a pressed button's callback
    data reaches its handler. Handlers are tried in the order they are
    registered and the first whose test accepts the data runs. */
module Keyboards {
  import opened Wrappers
  import opened Text
  import opened Carts

  /** What a button asks for; the parameterised ones carry the category
      or product name after the `|`. */
  datatype Callback =
    | BackStep
    | BackToEditAddress
    | Categories
    | OpenCategory(category: string)
    | AddProduct(product: string)
    | OpenCart
    | ClearCart
    | ContinueOrder
    | BeginCheckout
    | ChangeQty(action: QtyAction, product: string)
    | ConfirmDetails

  /** The callback_data string a button is built with. */
  function Encode(cb: Callback): string {
    match cb
    case BackStep => "back_step"
    case BackToEditAddress => "back_to_edit_address"
    case Categories => "categories"
    case OpenCategory(cat) => "cat|" + cat
    case AddProduct(name) => "add|" + name
    case OpenCart => "open_cart"
    case ClearCart => "clear_cart"
    case ContinueOrder => "continue_order"
    case BeginCheckout => "begin_checkout"
    case ChangeQty(Incr, name) => "incr|" + name
    case ChangeQty(Decr, name) => "decr|" + name
    case ChangeQty(Rm, name) => "rm|" + name
    case ConfirmDetails => "confirm_details"
  }

  /** The handler the data reaches, trying the handlers' tests in
      registration order; `split("|", 1)` keeps everything after the first
      bar, bars included. None: no handler accepts the data. */
  function Route(data: string): Option<Callback> {
    if data == "back_step" then Some(BackStep)
    else if data == "back_to_edit_address" then Some(BackToEditAddress)
    else if data == "categories" then Some(Categories)
    else if StartsWith(data, "cat|") then Some(OpenCategory(data[4..]))
    else if StartsWith(data, "add|") then Some(AddProduct(data[4..]))
    else if data == "open_cart" then Some(OpenCart)
    else if data == "clear_cart" then Some(ClearCart)
    else if data == "continue_order" then Some(ContinueOrder)
    else if data == "begin_checkout" then Some(BeginCheckout)
    else if StartsWith(data, "incr|") then Some(ChangeQty(Incr, data[5..]))
    else if StartsWith(data, "decr|") then Some(ChangeQty(Decr, data[5..]))
    else if StartsWith(data, "rm|") then Some(ChangeQty(Rm, data[3..]))
    else if data == "confirm_details" then Some(ConfirmDetails)
    else None
  }

  /** Every button reaches the handler it was built for, whatever its
      name (even one holding a bar): no earlier handler's test catches it. */
  lemma {:induction false} RouteEncode(cb: Callback)
    ensures Route(Encode(cb)) == Some(cb)
  {
    match cb
    case OpenCategory(cat) => RouteOpenCategory(cat);
    case AddProduct(name) => RouteAddProduct(name);
    case ChangeQty(action, name) => RouteChangeQty(action, name);
    case _ => RouteFixed(cb);
  }

  /** A string that differs from `prefix` at position i (or is too short
      to reach it) does not start with it. */
  lemma {:induction false} DiffersAt(d: string, prefix: string, i: nat)
    requires i < |prefix| && (i >= |d| || d[i] != prefix[i])
    ensures !StartsWith(d, prefix)
  {
    if |prefix| <= |d| {
      assert d[..|prefix|][i] == d[i];
    }
  }

  lemma {:induction false} RouteOpenCategory(cat: string)
    ensures Route(Encode(OpenCategory(cat))) == Some(OpenCategory(cat))
  {
    var d := Encode(OpenCategory(cat));
    assert d[..4] == "cat|" && d[4..] == cat && d[3] == '|';
  }

  lemma {:induction false} RouteAddProduct(name: string)
    ensures Route(Encode(AddProduct(name))) == Some(AddProduct(name))
  {
    var d := Encode(AddProduct(name));
    assert d[..4] == "add|" && d[4..] == name && d[3] == '|';
    DiffersAt(d, "cat|", 0);
  }

  lemma {:induction false} RouteChangeQty(action: QtyAction, name: string)
    ensures Route(Encode(ChangeQty(action, name))) == Some(ChangeQty(action, name))
  {
    var d := Encode(ChangeQty(action, name));
    DiffersAt(d, "cat|", 0);
    DiffersAt(d, "add|", 0);
    match action
    case Incr =>
      assert d[..5] == "incr|" && d[5..] == name;
      BarNotFixed(d, 4);
    case Decr =>
      assert d[..5] == "decr|" && d[5..] == name;
      BarNotFixed(d, 4);
      DiffersAt(d, "incr|", 0);
    case Rm =>
      assert d[..3] == "rm|" && d[3..] == name;
      BarNotFixed(d, 2);
      DiffersAt(d, "incr|", 0);
      DiffersAt(d, "decr|", 0);
  }

  /** Data with a bar is none of the parameterless buttons' data. */
  lemma {:induction false} BarNotFixed(d: string, i: nat)
    requires i < |d| && d[i] == '|'
    ensures d != "back_step" && d != "back_to_edit_address" && d != "categories"
    ensures d != "open_cart" && d != "clear_cart" && d != "continue_order"
    ensures d != "begin_checkout" && d != "confirm_details"
  {
  }

  /** The buttons without a parameter: their data holds no bar, so no
      prefix test catches them. */
  lemma {:induction false} RouteFixed(cb: Callback)
    requires !cb.OpenCategory? && !cb.AddProduct? && !cb.ChangeQty?
    ensures Route(Encode(cb)) == Some(cb)
  {
    var d := Encode(cb);
    assert |d| >= 9 && d[2] != '|' && d[3] != '|' && d[4] != '|';
    DiffersAt(d, "cat|", 3);
    DiffersAt(d, "add|", 3);
    DiffersAt(d, "incr|", 4);
    DiffersAt(d, "decr|", 4);
    DiffersAt(d, "rm|", 2);
    match cb
    case BackStep =>
    case BackToEditAddress =>
    case Categories =>
    case OpenCart =>
      assert d != "back_step" by { assert d[0] != "back_step"[0]; }
    case ClearCart =>
      assert d != "categories" by { assert d[1] != "categories"[1]; }
    case ContinueOrder =>
    case BeginCheckout =>
      assert d != "continue_order" by { assert d[0] != "continue_order"[0]; }
    case ConfirmDetails =>
  }

  /** Conversely, data a handler accepts is exactly the data of the button
      it stands for: routing loses nothing. */
  lemma {:induction false} EncodeRoute(data: string)
    requires Route(data).Some?
    ensures Encode(Route(data).value) == data
  {
    if data in ["back_step", "back_to_edit_address", "categories"] {
    } else if StartsWith(data, "cat|") {
      assert data == data[..4] + data[4..];
    } else if StartsWith(data, "add|") {
      assert data == data[..4] + data[4..];
    } else if data in ["open_cart", "clear_cart", "continue_order", "begin_checkout"] {
    } else if StartsWith(data, "incr|") || StartsWith(data, "decr|") {
      assert data == data[..5] + data[5..];
    } else if StartsWith(data, "rm|") {
      assert data == data[..3] + data[3..];
    }
  }

  /** kb_cart: checkout, continue and clear for a cart with lines; only
      continue for an empty one. */
  function KbCart(hasItems: bool): (buttons: seq<Callback>)
    ensures ContinueOrder in buttons
    ensures BeginCheckout in buttons <==> hasItems
    ensures ClearCart in buttons <==> hasItems
  {
    if hasItems then [BeginCheckout, ContinueOrder, ClearCart] else [ContinueOrder]
  }

  /** kb_back: a single button that leads to the back-step handler. */
  function KbBack(): (buttons: seq<Callback>)
    ensures |buttons| == 1 && Route(Encode(buttons[0])) == Some(BackStep)
  {
    [BackStep]
  }

  /** kb_confirm_address: Confirm, which leads to the confirm handler, then
      Back, which leads to the edit-address handler. */
  function KbConfirmAddress(): (buttons: seq<Callback>)
    ensures |buttons| == 2
    ensures Route(Encode(buttons[0])) == Some(ConfirmDetails)
    ensures Route(Encode(buttons[1])) == Some(BackToEditAddress)
  {
    RouteFixed(ConfirmDetails);
    [ConfirmDetails, BackToEditAddress]
  }
}
