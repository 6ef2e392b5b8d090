# Pricing widget: a Dafny model

The widget is a browser page where a customer picks a product (A, B, or the composite C), a
subscription duration (1, 3, 6 or 12 months), a number of users (1 to 5) and optional
add-ons, and sees the total price. It can also show a full price list. This project models the
part of `script.js` with business logic:

- the static pricing catalog;
- the price computation `calculatePrice`;
- the selection state and the event handlers that change it;
- the rows of the full price list.

All money is in integer cents ($9.00 is 900, $2.50 is 250, the add-on rate of $0.50 is 50).
The page shows a cents value as dollars with two decimals.

Files:

- `wrappers.dfy`: `Option`, for "not chosen yet" (JavaScript `null`) and an unparsable number (NaN).
- `catalog.dfy`: the pricing table. It also gives the one-user and additional-user prices, with C derived as A + B.
- `engine.dfy`: the `Selection` record, the pure `Total` (that is, `calculatePrice`), and the laws it obeys. These laws are: the zero total, the one-user price, the flat extra-user cost, linear add-on cost, C as A + B, agreement with a user-by-user reference definition, and monotonicity in users and in add-ons.
- `pricelist.dfy`: the price-list rows. A method with nested loops builds them, and the rows are proved to agree with the engine.
- `widget.dfy`: the class `PricingWidget`. Its fields are the four state variables plus the number box, the slider and the displayed price. Its methods are the handlers. `Valid()` is the invariant every handler keeps: a supported duration, a count in [1,5], number box and slider in step with the count, only add-ons the product offers, and the display showing the current total. It ends with three client sessions that replay worked examples.

Behaviour of the code that the model keeps:

- Choosing a duration re-renders the add-ons and so clears them (script.js:317).
- Choosing a product does not reset the user count (script.js:302-310).
- C is priced with the single user count for both of its parts (script.js:175-177), and C never charges add-ons (script.js:182).
- `calculatePrice` returns only the total, not a breakdown.
- B's add-on list at script.js:63-64 opens `addOns: [` twice, which does not parse. The model uses the two entries at script.js:65-66.
- The comments at script.js:58-59 say $3.00 and $8.00 for B's additional users. The model uses the values written there: $2.50 and $10.00.

## Model

| member | source | states |
|---|---|---|
| `Catalog.Pricing` | script.js:26-74 | A and B have base and additional-user tables covering exactly the durations 1, 3, 6, 12 and a non-empty add-on list; C has no tables and no add-ons |
| `Catalog.OfferedIds` | script.js:95-118 | no checkbox ids while no product is chosen; otherwise every add-on of the product has its id offered, and there are no more ids than add-ons |
| `Catalog.OfferedIdsAreExact` | script.js:101-118 | an id is offered for a product if and only if one of that product's add-ons carries it |
| `Catalog.BasePrice` | script.js:157-171 | the one-user price for a supported duration is positive |
| `Catalog.AdditionalUserPrice` | script.js:164-170 | the flat price per additional user for a supported duration is positive |
| `Catalog.CompositePricesAreSums` | script.js:158-166 | C's base and additional-user prices are A's plus B's at the same duration |
| `Engine.AdditionalUsersCost` | script.js:173-178 | nothing for at most one user; at least the additional-user price once there is a second user |
| `Engine.AddOnsCost` | script.js:180-185 | the add-on charge is non-negative and zero exactly when no add-on is chosen or the product is C |
| `Engine.Total` | script.js:148-191 | the total is non-negative, zero if and only if product or duration is unset or the count is below 1, and otherwise at least the one-user price |
| `Engine.SingleUserPaysBasePrice` | script.js:168-187 | one user with no add-ons pays exactly the catalog's one-user price (for C, A's plus B's) |
| `Engine.OneMoreUser` | script.js:173-185 | one more user adds the flat additional-user price plus that user's add-on surcharge, whatever the count |
| `Engine.ExtraUserIsFlat` | script.js:174-178 | without add-ons, total(N) - total(N-1) is the additional-user price for every N > 1 |
| `Engine.TotalIsRunningTotal` | script.js:154-187 | the total equals the user-by-user reference sum (first user the base price, each further user the flat price, every user the add-on surcharge) |
| `Engine.AddOnsAreLinear` | script.js:181-185 | on A or B, k add-ons add exactly k x 50 cents x users x months to the total without add-ons |
| `Engine.CompositeIsSumOfParts` | script.js:158-185 | C's total for any add-on set is A's total plus B's total at the same duration and count, both without add-ons |
| `Engine.MoreUsersNeverCheaper` | script.js:173-185 | raising the user count never lowers the total |
| `Engine.MoreAddOnsNeverCheaper` | script.js:180-185 | adding add-ons to the selection never lowers the total |
| `Engine.Examples` | script.js:148-191 | A, 1 month: $9.00 for one user, $15.00 for three, $9.50 with one add-on; C, 1 month: $17.00; no product: $0.00 |
| `Pricelist.RowFor` | script.js:227-247 | a row's one-user price is the engine's total for one user without add-ons, its additional-user cost is the engine's difference between two users and one, and its add-ons are the product's |
| `Pricelist.FullPricelist` | script.js:225-259 | twelve rows, durations outermost and products A, B, C innermost, row i being the row of product i mod 3 at duration i div 3 |
| `Widget.ClampNumberInput` | script.js:322-331 | the settled count is in [1,5]; it equals the entered value exactly when that value is a number in [1,5]; NaN or below 1 gives 1, above 5 gives 5 |
| `Widget.ClampIsIdempotent` | script.js:322-331 | entering the settled value again settles on the same value |
| `Widget.PricingWidget.constructor` | script.js:17-21 | nothing chosen, no add-ons, the initial count, $0.00 shown, invariant established |
| `Widget.PricingWidget.CalculatePrice` | script.js:148-191 | returns and displays the engine's total for the current selection; nothing else changes |
| `Widget.PricingWidget.RenderAddOns` | script.js:90-107 | clears every selected add-on, displays the new total, returns the chosen product's add-ons (none without a product) |
| `Widget.PricingWidget.ChooseProduct` | script.js:302-310 | the product is set and the add-ons emptied; duration and count unchanged; invariant kept |
| `Widget.PricingWidget.ChooseDuration` | script.js:312-320 | the duration is set and the add-ons emptied; product and count unchanged; invariant kept |
| `Widget.PricingWidget.ToggleAddOn` | script.js:134-143 | checking adds only that id, unchecking removes only that id; other state unchanged; invariant kept |
| `Widget.PricingWidget.NumberInput` | script.js:322-334 | the count becomes the clamped entry, and the number box and slider show it; invariant kept |
| `Widget.PricingWidget.SliderInput` | script.js:336-341 | the count becomes the slider's value and the number box follows; invariant kept |
| `Widget.PricingWidget.Decrement` | script.js:343-351 | the count drops by exactly 1 when above 1; at 1 nothing changes; the count stays in [1,5] |
| `Widget.PricingWidget.Increment` | script.js:353-361 | the count rises by exactly 1 when below 5; at 5 nothing changes; the count stays in [1,5] |
| `Widget.PricingWidget.SelectDefaults` | script.js:376-381 | an unset product becomes A and an unset duration becomes 1 month, clearing add-ons; when both are already set the add-ons (and so the shown price) are kept; the count is kept |

## Left out

- Page elements: DOM lookups, CSS selection classes (`updateSelection`), creating checkboxes and labels, the modal and its close handlers. These are presentation only.
- Display text: the HTML of the price list, the `$x.xx` formatting by `toFixed(2)`, the "N User(s)" label, the add-on label text and the "no add-ons" messages.
- `addOnNamesMap`: the renaming of add-ons in the price list is cosmetic. The rows carry the catalog's own add-on entries.
- Floating point: all amounts are exact integer cents. Every catalog amount is a multiple of 50 cents, so no rounding is involved.
- `parseInt`: parsing the number box's text is not modelled. `NumberInput` receives the parsed value, with `None` for NaN. The number box is represented by the number it holds.
- Event-listener wiring: each handler is a method. The "Calculate" button runs `CalculatePrice`.
- Catalog.BasePrice: requires a supported duration. With any other duration the source looks up `undefined` and computes NaN. Durations come only from the page's duration buttons, which are not part of this model.
- Engine.Total: requires a supported duration when one is set, for the reason given for `Catalog.BasePrice`.
- Product values other than A, B and C cannot be expressed. In the source they would come from a button that does not exist.
- Widget.PricingWidget.SliderInput: requires a value in [1,5]. The source relies on the slider's `min`/`max` attributes in the page markup, which is not part of this model.
- Widget.PricingWidget.constructor: requires an initial count in [1,5] and starts the number box and the slider at that count. Both come from the page markup, which is not part of this model.
- Widget.PricingWidget.ToggleAddOn: requires the id to be offered by the chosen product. In the source, a checkbox exists only for those add-ons, and the old checkboxes are removed whenever the add-ons are re-rendered.
- Widget.PricingWidget.SelectDefaults: assumes the first product button is A and the first duration button is 1 month, as the page's markup orders them.
