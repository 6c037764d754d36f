# Sticker shop checkout engine

A model of the per-user session engine of a Telegram sticker shop bot
(`bot.py`). The bot keeps a set of dictionaries indexed by user id:

- the cart (product name to quantity);
- the delivery-details form (a step counter over five fields and the
  answers given so far);
- the time of the last activity;
- the chat messages it edits in place (the cart message, the form message,
  the category menus);
- per-day order counters.

Every button press or text message runs one handler that reads and updates
those dictionaries.

The model has two layers.

- **Pure modules.** These hold the values and the rules:
  - `Text`: ASCII strip, upper-case and decimal formatting;
  - `Catalog`: categories and the merged product list;
  - `Carts`: a cart as a sequence of lines with unique names, kept in
    insertion order like a Python dict;
  - `Totals`: `calc_totals` and `build_cart_text` in pence;
  - `Keyboards`: callback tokens and handler dispatch;
  - `Validation`: `validate_field`, with the two regular expressions written
    as character-class predicates and a postcode parser;
  - `Form`: the form's transitions;
  - `Sessions`: expiry;
  - `OrderIds`: order-identifier minting.
- **Module `Bot`.** Its class `ShopBot` has one field per dictionary and
  one method per handler. Each method states its new state in terms of the
  pure functions. Its invariant `Valid()` says that every stored cart has
  no quantity below 1 and one line per product, and every form is at a
  step from 0 to 5 with answers only for the five fields.

Telegram is an oracle. A handler that may edit a stored message is told
whether the edit succeeds (`editOk`). One that sends a message is told the
new message's id (`sentId`). The clock is an integer count of microseconds
(`now`) and the day stamp is a string (`today`); both are parameters.

Money is in pence. Prices are whole pence, so the source's half-up
quantising to two decimals is the identity and is not written out.

The model reproduces these behaviours of the code as written:

- "edit address" puts the form back at the last prompt (step 4), not the
  first;
- confirming needs only a form and a non-empty cart, not a finished form.
  A form that lacks an answer fails when the address is read. This happens
  after the order identifier has been minted, so the counter has already
  moved (`IncompleteForm`);
- the session guard runs only in `cb_add` and in `on_text`'s form branch,
  not on quantity changes, back, edit or confirm;
- checkout prices a product listed in two categories twice, while the cart
  view prices it once (`Totals.DuplicateNameChargedTwice`). With names
  unique across categories the two agree (`Totals.ViewAgreesWithCheckout`).

## Model

| member | source | states |
|---|---|---|
| Text.StripIdempotent | bot.py:308-309 | stripping a stripped value changes nothing |
| Text.NatToStringRoundTrip | bot.py:150 | the decimal text of a number reads back as that number |
| Text.Pad2RoundTrip | bot.py:150 | the `02d` text of a number reads back as that number |
| Text.Pad2TwoDigits | bot.py:150 | below 100 the `02d` text is exactly the tens digit and the units digit |
| Catalog.AllProducts | bot.py:183-190 | a name is in the merged product map exactly when some category lists it |
| Catalog.AllProductsOfDisjoint | bot.py:183-190 | with names unique across categories, the merged map gives each product its category's entry |
| Catalog.DisjointPrefix | bot.py:183-190 | dropping the last category keeps names unique across categories |
| Catalog.ListAllProducts | bot.py:183-190 | the nested loop builds exactly the merged product map |
| Catalog.MergeItems | bot.py:186-187 | the inner loop adds one category's items over the map built so far, later entries winning |
| Carts.Quantity | bot.py:536 | `cart.get(name, 0)`: 0 without a line, otherwise the quantity on the product's line |
| Carts.QuantityPositive | bot.py:535-536 | in a valid cart a product has quantity at least 1 exactly when it has a line |
| Carts.Put | bot.py:536 | setting a quantity keeps an existing line in place and otherwise appends one; only that product's quantity changes |
| Carts.Drop | bot.py:589 | removal cuts the product's line out, keeps the order of the others and changes no other quantity |
| Carts.AddItem | bot.py:536 | add raises the product's quantity by exactly 1 (from 0 when absent), leaves every other product's quantity alone and keeps the cart valid |
| Carts.Adjust | bot.py:576-589 | on a product with a line: incr adds 1, decr lowers by 1 but not below 1, rm deletes it; without a line nothing changes; other quantities untouched; the cart stays valid |
| Carts.RunKeepsCartValid | bot.py:525-591 | any sequence of add / incr / decr / rm presses keeps every quantity at least 1 and one line per product |
| Carts.RemovedStaysRemoved | bot.py:576-589 | after rm the product has no line, and incr or decr on it do not bring it back |
| Totals.LineAmount | bot.py:175-176 | definition: a line costs price × quantity of its product in the given price list, 0 when the product is not in it |
| Totals.CartSubtotal | bot.py:175-177 | definition: the sum of the line amounts over the cart, first line first |
| Totals.CatalogSubtotal | bot.py:175-177 | definition: the generator over categories, each category pricing the cart lines it lists; a line listed in two categories is priced twice (`Totals.DuplicateNameChargedTwice`) |
| Totals.Priced | bot.py:178-180 | delivery is 0 when the subtotal reaches the threshold and the fee below it; the total is subtotal plus delivery |
| Totals.CalcTotals | bot.py:174-181 | the subtotal is the per-category generator sum; delivery follows the delivery rule and total = subtotal + delivery |
| Totals.TotalsExample | bot.py:174-181 | two 3.00 stickers with a 2.50 fee and a 10.00 threshold cost 8.50; four cost 12.00 with free delivery |
| Totals.CartSubtotalNoPrices | bot.py:176-177 | against no prices, every cart costs 0 |
| Totals.CartSubtotalConcat | bot.py:176-177 | the subtotal of two runs of lines is the sum of their subtotals |
| Totals.CartSubtotalDisjointUnion | bot.py:176-177 | pricing against two disjoint price lists together is the sum of pricing against each |
| Totals.StaleLinesAddNothing | bot.py:176-177 | lines whose product is no longer in the catalog contribute nothing to the checkout subtotal |
| Totals.StaleLinesAddNothingPrefix | bot.py:176-177 | keeping only lines whose product is in a wider product list leaves the checkout subtotal unchanged |
| Totals.KnownLinesPriceTheSame | bot.py:259-262 | dropping the lines whose product is absent from the product list does not change a subtotal priced against part of that list |
| Totals.CheckoutAgreesWithCartView | bot.py:174-190 | with names unique across categories, the per-category checkout subtotal equals the subtotal over the merged product list |
| Totals.DuplicateNameChargedTwice | bot.py:176-177 | a product listed in two categories is charged twice at checkout (6.00) but priced once over the merged list (3.00) |
| Totals.PutChangesSubtotalByLine | bot.py:536 | setting one product's quantity changes the subtotal by the difference between its old and new line amounts |
| Totals.LineAmountStep | bot.py:260-262 | one more unit of a listed product adds its price to the line amount |
| Totals.PutOneMore | bot.py:536 | setting a listed product's quantity one higher raises the subtotal by its price |
| Totals.AddRaisesCartSubtotal | bot.py:535-536 | adding a listed product raises the cart view's subtotal by its price |
| Totals.AddRaisesSubtotalByPrice | bot.py:174-181 | with names unique across categories, adding a listed product raises the checkout subtotal by exactly its price |
| Totals.KnownLines | bot.py:259-260 | a line is shown exactly when it is a cart line whose product is listed; no more lines than the cart has |
| Totals.KnownLinesAllKnown | bot.py:259-260 | when every product of the cart is listed, every line is shown, in cart order |
| Totals.KnownLinesConcat | bot.py:258-260 | filtering two runs of lines is filtering each |
| Totals.ItemCountAppend | bot.py:265 | one more shown line adds its quantity to the item count |
| Totals.CartStep | bot.py:258-265 | one more scanned cart line extends the shown lines and the subtotal by that line's share |
| Totals.SummaryOf | bot.py:251-276 | definition of the cart view: nothing for an empty cart; otherwise the listed lines, their item count and the delivery rule over their subtotal; its agreement with checkout is `Totals.ViewAgreesWithCheckout` |
| Totals.ScanStep | bot.py:259-265 | one loop step of the cart view: a listed line is appended and adds its quantity and its amount; a stale line changes nothing; either way the figures are those of the next longer prefix |
| Totals.BuildCartText | bot.py:251-276 | the cart-view loop yields no summary for an empty cart; otherwise the lines still listed, their item count and their subtotal, delivery and total |
| Totals.ViewAgreesWithCheckout | bot.py:251-276 | with names unique across categories, a non-empty cart's view shows the totals checkout charges |
| Totals.AmountText | bot.py:171-172 | definition: `money` without the currency symbol, the amount in pence written as whole units, a point and two digits |
| Totals.AmountTextRoundTrip | bot.py:171-172 | the two-decimal money text has whole units, a point and exactly two digits, and reads back as the amount |
| Keyboards.Encode | bot.py:364-622 | definition: the callback data each button carries (`cat|`, `add|`, `incr|`, `decr|`, `rm|` followed by the name, or a fixed token) |
| Keyboards.Route | bot.py:364-622 | definition: which handler's filter accepts a callback datum, tried in the order the handlers are registered; inverted by `Keyboards.RouteEncode` and `Keyboards.EncodeRoute` |
| Keyboards.RouteEncode | bot.py:364-622 | every button's callback data reaches the handler for that button |
| Keyboards.RouteOpenCategory | bot.py:517-518 | `cat|<name>` reaches the category handler with the whole name |
| Keyboards.RouteAddProduct | bot.py:525-533 | `add|<name>` reaches cb_add with the whole name, bars included |
| Keyboards.RouteChangeQty | bot.py:572-578 | `incr|`, `decr|` and `rm|` data reach cb_qty with the action and the whole name |
| Keyboards.RouteFixed | bot.py:364-622 | each fixed token reaches its own handler |
| Keyboards.DiffersAt | bot.py:517-572 | data that differs from a prefix at one position does not start with it |
| Keyboards.BarNotFixed | bot.py:364-622 | data containing a bar is none of the fixed tokens |
| Keyboards.EncodeRoute | bot.py:364-622 | data accepted by some handler is exactly the encoding of the button it is routed as |
| Keyboards.KbCart | bot.py:214-224 | continue is always offered; checkout and clear exactly when the cart has items |
| Keyboards.KbBack | bot.py:236-239 | kb_back is one button, and its data reaches the back-step handler |
| Keyboards.KbConfirmAddress | bot.py:241-245 | kb_confirm_address is two buttons: Confirm, whose data reaches the confirm handler, then Back, whose data reaches the edit-address handler |
| Validation.NameLike | bot.py:310-311 | definition: at least three characters and a space |
| Validation.HouseLike | bot.py:312-313 | definition: one to twelve characters, each a letter, digit, whitespace or '-' |
| Validation.StreetLike | bot.py:314-315 | definition: at least three characters and a letter |
| Validation.CityLike | bot.py:316-317 | definition: at least two characters and a letter |
| Validation.PostcodeLike | bot.py:318-319 | definition: the upper-cased text parses as a postcode; the parser's language is the pattern's (`Validation.ParsePostcode`, `Validation.ParsePostcodeComplete`) |
| Validation.FieldRule | bot.py:309-320 | definition: the rule of each of the five fields, and acceptance for any other field name |
| Validation.ValidateField | bot.py:306-320 | definition: the field's rule applied to the stripped value |
| Validation.HasLetterMeansSome | bot.py:314-317 | the letter test holds exactly when some character is a letter |
| Validation.AllHouseCharsMeansEach | bot.py:312-313 | the house character test holds exactly when every character is a letter, digit, whitespace or '-' |
| Validation.ParseOutward | bot.py:318-319 | a parsed outward code has one or two capitals, a digit and an optional digit or capital, and renders back as its input |
| Validation.ParsePostcode | bot.py:318-319 | a parsed postcode is well formed and renders back as the text it was parsed from |
| Validation.ParsePostcodeComplete | bot.py:318-319 | every string of the postcode pattern's shape parses, to the postcode it renders |
| Validation.PostcodeOfRender | bot.py:318-319 | text whose upper-casing is a rendered well-formed postcode passes the postcode rule |
| Validation.UpperOfNoLower | bot.py:318-319 | upper-casing text with no lower-case letters leaves it as it is |
| Validation.OutwardHasNoSpace | bot.py:318-319 | the outward code of the postcode pattern holds no whitespace |
| Validation.PostcodeShape | bot.py:318-319 | an accepted postcode has at least five characters, ends in digit-letter-letter and has whitespace only just before the inward code |
| Validation.PostcodeCaseInsensitive | bot.py:318-319 | the postcode rule gives the same verdict on the text and its upper-casing |
| Validation.PostcodeAcceptedWithSpace | bot.py:318-319 | "SW1A 1AA" is accepted |
| Validation.PostcodeAcceptedLowerCase | bot.py:318-319 | "m1 1ae" is accepted |
| Validation.PostcodeAcceptedWithoutSpace | bot.py:318-319 | "DN551PT" is accepted |
| Validation.PostcodeRejectedDoubleSpace | bot.py:318-319 | "SW1A  1AA" is refused |
| Validation.PostcodeRejectedDigits | bot.py:318-319 | "12345" is refused |
| Validation.ValidateIgnoresSurroundingSpace | bot.py:308-309 | the verdict is the same on the raw text and on its stripped form |
| Validation.FieldRules | bot.py:308-319 | each of the five fields is judged by its own rule on the stripped text |
| Validation.AcceptedNameHasTwoWords | bot.py:310-311 | an accepted name has a space strictly inside it |
| Validation.NameExamples | bot.py:310-311 | "Jo" is refused and "Jo Smith" accepted |
| Validation.HouseAccepted | bot.py:312-313 | "12B" is accepted |
| Validation.HouseBlankRefused | bot.py:312-313 | blank house text is refused |
| Validation.HouseRefusesForeignChar | bot.py:312-313 | a house text with a character outside letters, digits, whitespace and '-' is refused |
| Validation.HouseSlashRefused | bot.py:312-313 | "Flat 1/2" is refused |
| Validation.StreetWithoutLetterRefused | bot.py:314-315 | "123" is refused as a street |
| Validation.StreetWithLetterAccepted | bot.py:314-315 | "1 A" is accepted as a street |
| Validation.CityAccepted | bot.py:316-317 | "Ely" is accepted as a city |
| Validation.OtherFieldAcceptsAnything | bot.py:320 | a field name outside the five accepts any text |
| Form.FieldsDistinct | bot.py:296 | the five field names are distinct |
| Form.ReceiveOutcome | bot.py:393-416 | text is ignored once the step has reached 5 (the last prompt passed); otherwise the form changes exactly when the text passes the current field's rule, and then by saving the stripped text and advancing one step |
| Form.ReceiveKeepsInvariants | bot.py:393-416 | a text submission keeps the step within 0..5, answers only for the five fields and an answer for every passed field |
| Form.AnswerKeepsInvariants | bot.py:413-415 | saving an answer keeps the form invariants |
| Form.Begin | bot.py:353 | definition: the fresh form, at the first prompt with no answers |
| Form.Answer | bot.py:413-415 | definition: the value saved under the current field and the step advanced by one |
| Form.Receive | bot.py:393-416 | definition: text ignored once the step has reached 5 (the last prompt passed); otherwise the stripped text saved when it passes the current field's rule; its outcome is stated by `Form.ReceiveOutcome` |
| Form.Back | bot.py:372-373 | back lowers the step by one when above 0, stays at 0, and keeps every answer |
| Form.EditAddress | bot.py:454 | edit address goes to step 4 and keeps every answer |
| Form.FormKeyboard | bot.py:401-431 | Back is offered from the second prompt on and not at the first; Confirm exactly once the step reaches 5, which a complete form reaches but a form sent back by edit address may reach with answers missing |
| Form.FormKeyboardCases | bot.py:401-431 | the form message has no keyboard at the first prompt, kb_back at the second to fifth and kb_confirm_address once the step reaches 5 (the last prompt passed) |
| Form.BackOfferedWhenItMoves | bot.py:372-377 | while collecting, Back is offered exactly when pressing it changes the form |
| Form.AnswerAllFills | bot.py:413-415 | saving answers one after another stores each under its field and advances the step by their number |
| Form.AnswerAllKeeps | bot.py:413-415 | saving answers for later fields keeps the answer of an earlier field |
| Form.StripAllTail | bot.py:398 | stripping a list is stripping its head and then its tail |
| Form.AllAcceptedTail | bot.py:400 | texts accepted from a step on are the first text accepted there and the rest accepted from the next step |
| Form.AcceptedTextsAreSaved | bot.py:393-416 | a run of accepted texts leaves exactly their stripped forms saved, one field each, in order |
| Form.FiveValidAnswersComplete | bot.py:389-437 | five accepted texts from a fresh form reach the Confirm step with every field holding its stripped text |
| Form.EditAddressSkipsAnswers | bot.py:445-463 | edit address right after a fresh start, followed by one valid postcode, reaches the Confirm step without the first four answers |
| Sessions.Expired | bot.py:155-158 | definition: a user with an activity record whose last activity lies strictly more than an hour before now |
| Sessions.ExpiryIsPermanent | bot.py:155-158 | once expired, a session stays expired as the clock moves on |
| Sessions.BumpRenews | bot.py:152-158 | after a bump the user is expired exactly when more than an hour has passed since it; other users are unaffected |
| Sessions.ExpiryBoundary | bot.py:155-158 | exactly one hour of idleness is not expiry, one tick more is; no record never expires |
| OrderIds.DayStamp | bot.py:145 | the `%y%m%d` stamp is six digits |
| OrderIds.DayStampRoundTrip | bot.py:145 | the stamp reads back as the year modulo 100, the month and the day, two digits each |
| OrderIds.NextNumber | bot.py:146 | the day's first number is 1, each later one is one more than the day's counter, so every number is at least 1 |
| OrderIds.FormatOrderId | bot.py:150 | definition: `ORD-`, the day stamp, `-` and the number with at least two digits; read back by `OrderIds.ParseFormatted` |
| OrderIds.ParseFormatted | bot.py:150 | an identifier reads back as its day and number |
| OrderIds.FormatOrderIdInjective | bot.py:150 | identifiers of same-length days are equal only for the same day and number |
| OrderIds.FirstOrderOfTheDay | bot.py:144-150 | the first identifier on 16 October 2026 is ORD-261016-01 |
| OrderIds.NumbersIncrease | bot.py:144-150 | numbers of one day strictly increase and never exceed that day's counter |
| OrderIds.MintedIdsDistinct | bot.py:144-150 | identifiers minted one after another are pairwise distinct |
| Bot.AddressOf | bot.py:641 | each part of the order's address is the form answer saved under the field of that name |
| Bot.Reconciled | bot.py:281-290 | the user's cart handle is kept when one is stored and the edit succeeds, and is otherwise the newly sent message's; no other user's handle changes and no handle is removed |
| Bot.ShopBot.constructor | bot.py:109-119 | start-up: the merged product map, no sessions, the loaded counters |
| Bot.ShopBot.Bump | bot.py:152-153 | only the user's activity time changes, to now |
| Bot.ShopBot.EnsureSession | bot.py:160-166 | live exactly when not expired; when expired the user's cart and form are gone and the activity record is kept; otherwise nothing changes |
| Bot.ShopBot.RefreshCart | bot.py:278-290 | the view is the cart's summary with its buttons; a stored handle survives a successful edit, otherwise the new message's handle replaces it |
| Bot.ShopBot.AddToCart | bot.py:532-539 | an unlisted product changes nothing; a listed one adds one unit to the user's cart and refreshes the cart message |
| Bot.ShopBot.CbAdd | bot.py:525-539 | an expired session loses cart and form and nothing is added; otherwise activity is bumped, then the product is added when listed |
| Bot.ShopBot.CbQty | bot.py:572-591 | an empty cart or a product without a line changes nothing; otherwise the cart becomes the adjusted cart and is refreshed |
| Bot.ShopBot.CbClear | bot.py:553-558 | the cart becomes empty (the entry stays) and only Continue is offered |
| Bot.ShopBot.CmdRestart | bot.py:481-486 | the user's cart and form are dropped; nothing else changes |
| Bot.ShopBot.StartCheckout | bot.py:347-362 | with an empty cart nothing changes; otherwise a fresh form replaces any earlier one, activity is bumped and the form message becomes the delivery handle |
| Bot.ShopBot.CbBackStep | bot.py:364-381 | no form: no change; step 0: no change; otherwise one step back with answers kept, shown on the delivery message with Back from the second prompt on |
| Bot.ShopBot.CbBackToEdit | bot.py:445-463 | no form: no change; otherwise step 4 with answers kept and Back offered |
| Bot.ShopBot.FillForm | bot.py:391-437 | once the step has reached 5 text is ignored; invalid text changes nothing and re-offers the same prompt; valid text saves its stripped form, advances one step and bumps activity |
| Bot.ShopBot.OnText | bot.py:383-443 | during checkout the session is checked and the text goes to the form; outside checkout a command is left alone and other text gets a hint, with no change |
| Bot.ShopBot.NewOrderId | bot.py:144-150 | only today's counter changes, by one from 0 when absent, and the identifier carries the new number |
| Bot.ShopBot.CbConfirm | bot.py:621-681 | without a form or with an empty cart nothing changes; otherwise an identifier is minted; an incomplete form fails there; a complete one yields the order (listed lines, address, checkout totals) and clears form, delivery handle and cart |
| Bot.ShopBot.RememberMenu | bot.py:498-499 | exactly one handle is appended to the user's menu list |
| Bot.ShopBot.MarkOldMenu | bot.py:501-508 | every remembered menu is edited, in order, and the list is left empty |
| Bot.ShopBot.CmdOrder | bot.py:488-496 | activity is bumped, the old menus are marked outdated and the new menu becomes the only one remembered |

## Left out

- Message text, Markdown and emoji are not modelled. This covers the cart
  text, the form prompts, `render_current_delivery` and the replies. Only
  which handle is edited, which buttons are offered and which figures are
  shown are modelled.
- Telegram calls (`send_message`, `edit_message_text`,
  `answer_callback_query`) are an oracle: an edit-ok flag and a fresh
  message id. `cb_back_step` edits without a fallback, so a failed edit
  there would raise after the state change. The model keeps the state
  change and leaves out the exception.
- Bot.ShopBot.MarkOldMenu: a failed edit is skipped, as in the source, so
  every remembered handle counts as processed whatever the edit outcome.
- Bot.ShopBot.CbConfirm: writing the `orders.csv` row, `notify_admins` and
  the Stripe payment session are not modelled. They are file I/O, best-effort
  messaging and a foreign library call. Only their place between minting
  and the final reset is kept, and the reset happens whatever the payment
  outcome. The buyer's username is not part of the order record.
- Bot.ShopBot.NewOrderId: the day stamp `today` is a parameter and is not required to come from
  `OrderIds.DayStamp`. `OrderIds.MintedIdsDistinct` therefore assumes that every stamp has six
  characters, which a DayStamp result always has.
- Bot.ShopBot.NewOrderId: persisting `order_counter.json` is not modelled
  (file I/O). Calls are sequential; the source has no lock.
- Reading the token, the Stripe key and `config.json` is not modelled. The
  catalog, the delivery fee and the threshold are constructor parameters.
- `datetime.now()` is not modelled: the clock and the day stamp are
  parameters.
- Sessions: `total_seconds()` is a float in the source. The model compares
  whole microseconds, which is the resolution of the timestamps compared.
- Decimal arithmetic and half-up quantising are not modelled: prices are
  whole pence, so quantising changes nothing.
- Character classes cover ASCII only. The model uses ASCII `isalpha`,
  `\s`, `strip` and `upper`, with no other Unicode letters, spaces or case
  mappings.
- The order in which handlers are registered is not modelled. The catch-all
  text handler (`on_text`, bot.py:383) is registered before the command
  handlers, so as written it receives `/restart`, `/order` and `/cart`:
  - during checkout, such a command is taken as form input;
  - otherwise it is ignored.

  `CmdRestart` and `CmdOrder` model the command handlers' own bodies.
- `cb_cart_actions`' "continue_order" branch calls `cmd_order` on the
  button's message, whose sender is the bot itself. It would therefore
  bump and reset the menus of the bot's own user id. This handler,
  `cb_open_cart`, `cmd_cart`, `cb_categories` and `cb_cat` only show a
  message or delegate to modelled operations (`RefreshCart`,
  `StartCheckout`, `CmdOrder`), so they are not modelled separately.
- `kb_categories`, `kb_products` and `kb_plus_minus` are not modelled.
  They only list the catalog's categories or products, or a product's
  +/-/remove tokens, as buttons. Those tokens' routing is covered by
  `Keyboards.RouteEncode`.
- The maintenance flag is not modelled: it is set but never read. Admin
  commands that read the order CSV, the start and help replies, the
  middleware, logging and webhook or polling start-up are not modelled
  either.
- Concurrency is not modelled; events are processed one at a time.
