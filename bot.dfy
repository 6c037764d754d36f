/** The shop's per-user session engine: the dictionaries the handlers keep
    (carts, checkout forms, last activity, the live message handles, the
    order counters) as the fields of one object, and each handler as a
    method on it. Telegram is an oracle: a handler that may edit a stored
    message is told whether the edit succeeds (`editOk`), and one that
    sends a message is told the new message's id (`sentId`). The clock
    (`now`, in microseconds) and the day stamp (`today`) are parameters. */
module Bot {
  import opened Wrappers
  import opened Text
  import opened Catalog
  import opened Carts
  import opened Totals
  import opened Keyboards
  import opened Validation
  import opened Form
  import opened Sessions
  import opened OrderIds

  /** (chat_id, message_id) of a message the bot can edit later. */
  datatype Handle = Handle(chat: int, message: int)

  /** What a cart refresh shows: the summary figures and the buttons. */
  datatype CartView = CartView(summary: Option<CartSummary>, buttons: seq<Callback>)

  datatype AddReply = AddSessionExpired | ItemUnavailable | Added(view: CartView)

  datatype QtyReply = CartEmpty | NotInCart | Updated(view: CartView)

  datatype BackReply = NoCheckout | AlreadyFirst | MovedTo(target: Handle, buttons: seq<Callback>)

  datatype TextReply =
    | TextSessionExpired
    | Ignored
    | Rejected(field: string, buttons: seq<Callback>)
    | Accepted(buttons: seq<Callback>)
    | Silent
    | Hint

  datatype Address = Address(name: string, house: string, street: string, city: string, postcode: string)

  /** The order record: identifier, the lines still in the catalog, the
      address and the checkout totals. */
  datatype Order = Order(id: string, lines: Cart, address: Address, totals: Amounts)

  /** NothingToConfirm: no form or an empty cart. IncompleteForm: the form
      lacks an answer, so reading the address fails after the identifier
      has been minted. */
  datatype ConfirmReply = NothingToConfirm | IncompleteForm(id: string) | Placed(order: Order)

  /** Every stored cart keeps the cart invariant. */
  predicate CartsValid(carts: map<int, Cart>) {
    forall u :: u in carts ==> ValidCart(carts[u])
  }

  /** Every stored form is well formed. */
  predicate FormsValid(states: map<int, FormState>) {
    forall u :: u in states ==> WellFormed(states[u])
  }

  /** Storing a valid cart keeps every cart valid. */
  lemma {:induction false} StoreCart(carts: map<int, Cart>, uid: int, c: Cart)
    requires CartsValid(carts) && ValidCart(c)
    ensures CartsValid(carts[uid := c])
  {
  }

  /** Storing a well-formed form keeps every form well formed. */
  lemma {:induction false} StoreForm(states: map<int, FormState>, uid: int, f: FormState)
    requires FormsValid(states) && WellFormed(f)
    ensures FormsValid(states[uid := f])
  {
  }

  /** The address a complete form holds: each part is the answer saved
      under the field of that name. */
  function AddressOf(f: FormState): (a: Address)
    requires Complete(f)
    ensures a.name == f.data["name"] && a.house == f.data["house"] && a.street == f.data["street"]
    ensures a.city == f.data["city"] && a.postcode == f.data["postcode"]
  {
    Address(f.data[Fields[0]], f.data[Fields[1]], f.data[Fields[2]], f.data[Fields[3]], f.data[Fields[4]])
  }

  /** The cart handle after a refresh: kept when the stored message was
      edited, otherwise the newly sent message's. Only this user's entry
      can change. */
  function Reconciled(handles: map<int, Handle>, uid: int, chatId: int, editOk: bool, sentId: int): (r: map<int, Handle>)
    ensures r.Keys == handles.Keys + {uid}
    ensures r[uid] == (if uid in handles && editOk then handles[uid] else Handle(chatId, sentId))
    ensures forall k :: k in handles && k != uid ==> r[k] == handles[k]
  {
    if uid in handles && editOk then handles else handles[uid := Handle(chatId, sentId)]
  }

  class ShopBot {
    const catalog: Catalog
    /** ALL_PRODUCTS, merged once at start. */
    const products: map<string, Product>
    const deliveryFee: nat
    const freeDeliveryThreshold: int

    var carts: map<int, Cart>
    var states: map<int, FormState>
    var lastActivity: map<int, int>
    var cartMsg: map<int, Handle>
    var deliveryMsg: map<int, Handle>
    var menuMsgs: map<int, seq<Handle>>
    var counters: map<string, nat>

    /** Every stored cart keeps quantities of at least 1 and one line per
        product; every form is at a step from 0 to 5 with answers only for
        the five fields. */
    ghost predicate Valid()
      reads this`carts, this`states
    {
      && products == AllProducts(catalog)
      && CartsValid(carts)
      && FormsValid(states)
    }

    /** Start-up: the catalog merged, no sessions, the day counters as
        loaded. */
    constructor (catalog: Catalog, deliveryFee: nat, freeDeliveryThreshold: int, counters: map<string, nat>)
      ensures Valid()
      ensures this.catalog == catalog && this.counters == counters
      ensures this.deliveryFee == deliveryFee && this.freeDeliveryThreshold == freeDeliveryThreshold
      ensures carts == map[] && states == map[] && lastActivity == map[]
      ensures cartMsg == map[] && deliveryMsg == map[] && menuMsgs == map[]
    {
      this.catalog := catalog;
      var all := ListAllProducts(catalog);
      products := all;
      this.deliveryFee := deliveryFee;
      this.freeDeliveryThreshold := freeDeliveryThreshold;
      carts := map[];
      states := map[];
      lastActivity := map[];
      cartMsg := map[];
      deliveryMsg := map[];
      menuMsgs := map[];
      this.counters := counters;
    }

    /** bump: the user's activity is now. */
    method Bump(uid: int, now: int)
      modifies this`lastActivity
      ensures lastActivity == old(lastActivity)[uid := now]
    {
      lastActivity := lastActivity[uid := now];
    }

    /** ensure_session: an expired session loses its form and cart and the
        handler stops; the activity record itself is left as it was. */
    method EnsureSession(uid: int, now: int) returns (live: bool)
      requires Valid()
      modifies this`carts, this`states
      ensures Valid()
      ensures live == !Expired(lastActivity, uid, now)
      ensures live ==> carts == old(carts) && states == old(states)
      ensures !live ==> carts == old(carts) - {uid} && states == old(states) - {uid}
    {
      if Expired(lastActivity, uid, now) {
        states := states - {uid};
        carts := carts - {uid};
        return false;
      }
      return true;
    }

    /** refresh_cart: build the view of the user's cart and show it, by
        editing the stored cart message when there is one and the edit
        succeeds, otherwise by sending a new message whose handle replaces
        the stored one. */
    method RefreshCart(uid: int, chatId: int, editOk: bool, sentId: int) returns (view: CartView, shown: Handle)
      modifies this`cartMsg
      ensures var c := Get(carts, uid, []);
              view == CartView(SummaryOf(products, c, deliveryFee, freeDeliveryThreshold), KbCart(c != []))
      ensures cartMsg == Reconciled(old(cartMsg), uid, chatId, editOk, sentId)
      ensures shown == cartMsg[uid]
    {
      var summary := BuildCartText(products, Get(carts, uid, []), deliveryFee, freeDeliveryThreshold);
      view := CartView(summary, KbCart(summary.Some?));
      if uid in cartMsg && editOk {
        shown := cartMsg[uid];
        return;
      }
      shown := Handle(chatId, sentId);
      cartMsg := cartMsg[uid := shown];
    }

    /** The part of cb_add after the session check and the bump: a product
        the catalog does not have is refused; otherwise the cart gets one
        more unit of it and is shown again. */
    method AddToCart(uid: int, chatId: int, item: string, editOk: bool, sentId: int) returns (reply: AddReply)
      requires Valid()
      modifies this`carts, this`cartMsg
      ensures Valid()
      ensures item !in products ==> reply == ItemUnavailable && carts == old(carts) && cartMsg == old(cartMsg)
      ensures item in products ==>
        && carts == old(carts)[uid := AddItem(Get(old(carts), uid, []), item)]
        && reply == Added(CartView(SummaryOf(products, carts[uid], deliveryFee, freeDeliveryThreshold), KbCart(true)))
        && cartMsg == Reconciled(old(cartMsg), uid, chatId, editOk, sentId)
    {
      if item !in products {
        return ItemUnavailable;
      }
      var c := Get(carts, uid, []);
      assert ValidCart(c);
      var added := AddItem(c, item);
      assert added != [];
      StoreCart(carts, uid, added);
      carts := carts[uid := added];
      assert Valid();
      var view, shown := RefreshCart(uid, chatId, editOk, sentId);
      assert view == CartView(SummaryOf(products, added, deliveryFee, freeDeliveryThreshold), KbCart(true));
      return Added(view);
    }

    /** cb_add: session check, then activity, then the catalog check, then
        one more unit of the product and a cart refresh. */
    method CbAdd(uid: int, chatId: int, item: string, now: int, editOk: bool, sentId: int)
      returns (reply: AddReply)
      requires Valid()
      modifies this`carts, this`states, this`lastActivity, this`cartMsg
      ensures Valid()
      ensures Expired(old(lastActivity), uid, now) ==>
        && reply == AddSessionExpired
        && carts == old(carts) - {uid} && states == old(states) - {uid}
        && lastActivity == old(lastActivity) && cartMsg == old(cartMsg)
      ensures !Expired(old(lastActivity), uid, now) ==>
        && lastActivity == old(lastActivity)[uid := now] && states == old(states)
        && (item !in products ==> reply == ItemUnavailable && carts == old(carts) && cartMsg == old(cartMsg))
        && (item in products ==>
              && carts == old(carts)[uid := AddItem(Get(old(carts), uid, []), item)]
              && reply == Added(CartView(SummaryOf(products, carts[uid], deliveryFee, freeDeliveryThreshold), KbCart(true)))
              && cartMsg == Reconciled(old(cartMsg), uid, chatId, editOk, sentId))
    {
      var live := EnsureSession(uid, now);
      if !live {
        return AddSessionExpired;
      }
      Bump(uid, now);
      reply := AddToCart(uid, chatId, item, editOk, sentId);
    }

    /** cb_qty: nothing for an empty cart or a product without a line;
        otherwise +1, -1 (not below 1) or removal, and a cart refresh. */
    method CbQty(uid: int, chatId: int, action: QtyAction, name: string, editOk: bool, sentId: int)
      returns (reply: QtyReply)
      requires Valid()
      modifies this`carts, this`cartMsg
      ensures Valid()
      ensures var c := Get(old(carts), uid, []);
              c == [] ==> reply == CartEmpty && carts == old(carts) && cartMsg == old(cartMsg)
      ensures var c := Get(old(carts), uid, []);
              c != [] && !Contains(c, name) ==> reply == NotInCart && carts == old(carts) && cartMsg == old(cartMsg)
      ensures var c := Get(old(carts), uid, []);
              c != [] && Contains(c, name) ==>
                && carts == old(carts)[uid := Adjust(c, action, name)]
                && reply == Updated(CartView(SummaryOf(products, carts[uid], deliveryFee, freeDeliveryThreshold),
                                             KbCart(carts[uid] != [])))
                && cartMsg == Reconciled(old(cartMsg), uid, chatId, editOk, sentId)
    {
      var c := Get(carts, uid, []);
      if c == [] {
        return CartEmpty;
      }
      if !Contains(c, name) {
        return NotInCart;
      }
      carts := carts[uid := Adjust(c, action, name)];
      var view, shown := RefreshCart(uid, chatId, editOk, sentId);
      return Updated(view);
    }

    /** cb_clear: the cart becomes empty (the entry stays) and is shown. */
    method CbClear(uid: int, chatId: int, editOk: bool, sentId: int) returns (view: CartView)
      requires Valid()
      modifies this`carts, this`cartMsg
      ensures Valid()
      ensures carts == old(carts)[uid := []]
      ensures view == CartView(None, [ContinueOrder])
      ensures cartMsg == Reconciled(old(cartMsg), uid, chatId, editOk, sentId)
    {
      carts := carts[uid := []];
      var shown;
      view, shown := RefreshCart(uid, chatId, editOk, sentId);
    }

    /** cmd_restart: the cart and the form are dropped; handles and the
        activity record stay. */
    method CmdRestart(uid: int)
      requires Valid()
      modifies this`carts, this`states
      ensures Valid()
      ensures carts == old(carts) - {uid} && states == old(states) - {uid}
    {
      carts := carts - {uid};
      states := states - {uid};
    }

    /** begin_checkout: with an empty cart nothing happens; otherwise a
        fresh form replaces any earlier one, activity is bumped and the
        form message just sent becomes the delivery handle. */
    method StartCheckout(uid: int, chatId: int, now: int, sentId: int) returns (started: bool)
      requires Valid()
      modifies this`states, this`lastActivity, this`deliveryMsg
      ensures Valid()
      ensures started <==> Get(carts, uid, []) != []
      ensures !started ==> states == old(states) && lastActivity == old(lastActivity) && deliveryMsg == old(deliveryMsg)
      ensures started ==>
        && states == old(states)[uid := Begin()]
        && lastActivity == old(lastActivity)[uid := now]
        && deliveryMsg == old(deliveryMsg)[uid := Handle(chatId, sentId)]
    {
      if Get(carts, uid, []) == [] {
        return false;
      }
      states := states[uid := Begin()];
      Bump(uid, now);
      deliveryMsg := deliveryMsg[uid := Handle(chatId, sentId)];
      return true;
    }

    /** cb_back_step: one step back with answers kept, shown on the
        delivery message (or, without one, the pressed message) with Back
        from the second prompt on. */
    method CbBackStep(uid: int, chatId: int, messageId: int) returns (reply: BackReply)
      requires Valid()
      modifies this`states
      ensures Valid()
      ensures uid !in old(states) ==> reply == NoCheckout && states == old(states)
      ensures uid in old(states) && old(states)[uid].step == 0 ==> reply == AlreadyFirst && states == old(states)
      ensures uid in old(states) && old(states)[uid].step > 0 ==>
        && states == old(states)[uid := Back(old(states)[uid])]
        && reply == MovedTo(Get(deliveryMsg, uid, Handle(chatId, messageId)), FormKeyboard(states[uid].step))
    {
      if uid !in states {
        return NoCheckout;
      }
      var f := states[uid];
      if f.step == 0 {
        return AlreadyFirst;
      }
      states := states[uid := Back(f)];
      return MovedTo(Get(deliveryMsg, uid, Handle(chatId, messageId)), FormKeyboard(f.step - 1));
    }

    /** cb_back_to_edit: back to the last prompt, answers kept. */
    method CbBackToEdit(uid: int, chatId: int, messageId: int) returns (reply: BackReply)
      requires Valid()
      modifies this`states
      ensures Valid()
      ensures uid !in old(states) ==> reply == NoCheckout && states == old(states)
      ensures uid in old(states) ==>
        && states == old(states)[uid := EditAddress(old(states)[uid])]
        && reply == MovedTo(Get(deliveryMsg, uid, Handle(chatId, messageId)), [BackStep])
    {
      if uid !in states {
        return NoCheckout;
      }
      states := states[uid := EditAddress(states[uid])];
      return MovedTo(Get(deliveryMsg, uid, Handle(chatId, messageId)), FormKeyboard(|Fields| - 1));
    }

    /** on_text's form step for a user whose session is live: nothing once
        the step has reached 5, otherwise the current field's rule decides
        between a rejection (nothing changes) and saving the stripped text,
        moving on and bumping activity. */
    method FillForm(uid: int, text: string, now: int) returns (reply: TextReply)
      requires Valid() && uid in states
      modifies this`states, this`lastActivity
      ensures Valid()
      ensures var f := old(states)[uid];
        && (f.step >= |Fields| ==> reply == Ignored && states == old(states) && lastActivity == old(lastActivity))
        && (f.step < |Fields| && !ValidateField(Fields[f.step], text) ==>
              reply == Rejected(Fields[f.step], FormKeyboard(f.step))
              && states == old(states) && lastActivity == old(lastActivity))
        && (f.step < |Fields| && ValidateField(Fields[f.step], text) ==>
              && states == old(states)[uid := Answer(f, Strip(text))]
              && reply == Accepted(FormKeyboard(f.step + 1))
              && lastActivity == old(lastActivity)[uid := now])
    {
      var f := states[uid];
      if f.step >= |Fields| {
        return Ignored;
      }
      var field := Fields[f.step];
      var val := Strip(text);
      ValidateIgnoresSurroundingSpace(field, text);
      if !ValidateField(field, val) {
        return Rejected(field, FormKeyboard(f.step));
      }
      AnswerKeepsInvariants(f, val);
      var g := Answer(f, val);
      StoreForm(states, uid, g);
      states := states[uid := g];
      assert Valid();
      Bump(uid, now);
      return Accepted(FormKeyboard(f.step + 1));
    }

    /** on_text. During checkout the session is checked first and the text
        goes to the form; outside checkout a command is left alone and any
        other text gets a hint. */
    method OnText(uid: int, text: string, now: int) returns (reply: TextReply)
      requires Valid()
      modifies this`carts, this`states, this`lastActivity
      ensures Valid()
      ensures uid !in old(states) ==>
        && reply == (if StartsWith(text, "/") then Silent else Hint)
        && carts == old(carts) && states == old(states) && lastActivity == old(lastActivity)
      ensures uid in old(states) && Expired(old(lastActivity), uid, now) ==>
        && reply == TextSessionExpired
        && carts == old(carts) - {uid} && states == old(states) - {uid}
        && lastActivity == old(lastActivity)
      ensures uid in old(states) && !Expired(old(lastActivity), uid, now) ==>
        var f := old(states)[uid];
        && carts == old(carts)
        && (f.step >= |Fields| ==> reply == Ignored && states == old(states) && lastActivity == old(lastActivity))
        && (f.step < |Fields| && !ValidateField(Fields[f.step], text) ==>
              reply == Rejected(Fields[f.step], FormKeyboard(f.step))
              && states == old(states) && lastActivity == old(lastActivity))
        && (f.step < |Fields| && ValidateField(Fields[f.step], text) ==>
              && states == old(states)[uid := Answer(f, Strip(text))]
              && reply == Accepted(FormKeyboard(f.step + 1))
              && lastActivity == old(lastActivity)[uid := now])
    {
      if uid !in states {
        return if StartsWith(text, "/") then Silent else Hint;
      }
      var live := EnsureSession(uid, now);
      if !live {
        return TextSessionExpired;
      }
      reply := FillForm(uid, text, now);
    }

    /** new_order_id: today's counter goes up by one (from 0 when absent)
        and the identifier carries the new number. */
    method NewOrderId(today: string) returns (id: string)
      modifies this`counters
      ensures counters == old(counters)[today := NextNumber(old(counters), today)]
      ensures id == FormatOrderId(today, NextNumber(old(counters), today))
    {
      var n := Get(counters, today, 0) + 1;
      counters := counters[today := n];
      id := FormatOrderId(today, n);
    }

    /** cb_confirm: needs a form and a non-empty cart, nothing more. The
        totals are computed and an identifier minted; a form without all
        five answers then fails with the counter already advanced. A
        complete form is placed as an order and the form, the delivery
        handle and the cart are cleared, whatever happens to payment. */
    method CbConfirm(uid: int, today: string) returns (reply: ConfirmReply)
      requires Valid()
      modifies this`states, this`deliveryMsg, this`carts, this`counters
      ensures Valid()
      ensures uid !in old(states) || Get(old(carts), uid, []) == [] ==>
        && reply == NothingToConfirm
        && states == old(states) && deliveryMsg == old(deliveryMsg)
        && carts == old(carts) && counters == old(counters)
      ensures uid in old(states) && Get(old(carts), uid, []) != [] ==>
        var id := FormatOrderId(today, NextNumber(old(counters), today));
        && counters == old(counters)[today := NextNumber(old(counters), today)]
        && (!Complete(old(states)[uid]) ==>
              reply == IncompleteForm(id)
              && states == old(states) && deliveryMsg == old(deliveryMsg) && carts == old(carts))
        && (Complete(old(states)[uid]) ==>
              && reply == Placed(Order(id, KnownLines(products, old(carts)[uid]), AddressOf(old(states)[uid]),
                                       CalcTotals(catalog, old(carts)[uid], deliveryFee, freeDeliveryThreshold)))
              && states == old(states) - {uid} && deliveryMsg == old(deliveryMsg) - {uid}
              && carts == old(carts) - {uid})
    {
      if uid !in states || Get(carts, uid, []) == [] {
        return NothingToConfirm;
      }
      var cart := carts[uid];
      var totals := CalcTotals(catalog, cart, deliveryFee, freeDeliveryThreshold);
      var f := states[uid];
      var id := NewOrderId(today);
      if !Complete(f) {
        return IncompleteForm(id);
      }
      var order := Order(id, KnownLines(products, cart), AddressOf(f), totals);
      states := states - {uid};
      carts := carts - {uid};
      assert Valid();
      deliveryMsg := deliveryMsg - {uid};
      return Placed(order);
    }

    /** remember_menu: one more menu handle for the user. */
    method RememberMenu(uid: int, h: Handle)
      modifies this`menuMsgs
      ensures menuMsgs == old(menuMsgs)[uid := Get(old(menuMsgs), uid, []) + [h]]
    {
      menuMsgs := menuMsgs[uid := Get(menuMsgs, uid, []) + [h]];
    }

    /** mark_old_menu: every remembered menu is edited to "outdated", in
        order (a failed edit is skipped), and the list is emptied. */
    method MarkOldMenu(uid: int) returns (edited: seq<Handle>)
      modifies this`menuMsgs
      ensures edited == Get(old(menuMsgs), uid, [])
      ensures menuMsgs == old(menuMsgs)[uid := []]
    {
      var entries := Get(menuMsgs, uid, []);
      edited := [];
      var i := 0;
      while i < |entries|
        invariant 0 <= i <= |entries|
        invariant edited == entries[..i]
      {
        edited := edited + [entries[i]];
        i := i + 1;
      }
      menuMsgs := menuMsgs[uid := []];
    }

    /** cmd_order: activity is bumped, the old menus are marked outdated
        and the new menu becomes the only one remembered. */
    method CmdOrder(uid: int, chatId: int, now: int, sentId: int) returns (outdated: seq<Handle>)
      modifies this`lastActivity, this`menuMsgs
      ensures lastActivity == old(lastActivity)[uid := now]
      ensures outdated == Get(old(menuMsgs), uid, [])
      ensures menuMsgs == old(menuMsgs)[uid := [Handle(chatId, sentId)]]
    {
      Bump(uid, now);
      outdated := MarkOldMenu(uid);
      RememberMenu(uid, Handle(chatId, sentId));
      assert [] + [Handle(chatId, sentId)] == [Handle(chatId, sentId)];
    }
  }
}
