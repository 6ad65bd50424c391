# FoodHub storefront — a verified Dafny model

FoodHub is a browser storefront for a restaurant. A customer browses a catalog, puts dishes in a
cart and checks out with a delivery form. Checking out records the order in the browser's
`localStorage` and opens a WhatsApp chat with the restaurant's administrator, carrying a numbered
confirmation message. An admin page lists the orders newest first and can mark dishes out of
stock.

This project models the logic behind those pages:

- the cart engine (`CartManager`, a class over a list of cart lines that mirrors every change
  to the store);
- the persistence layer (`StorageManager`, a class over a map from the storage keys to stored
  values, where a value that does not parse reads as an empty list);
- the checkout handlers of `AppState`: phone normalisation for `wa.me` links, the order-id
  format, the order snapshot, the confirmation message, the link choice and the add-to-cart
  gating;
- the menu page's filter/search/sort pipeline, including the in-place sort of the catalog
  array itself;
- the home, admin, cart and checkout views as data;
- form validation, the modal quantity input and the star count.

Modules, one per file:

| file | module | models |
|---|---|---|
| wrappers.dfy | Wrappers | `Option` |
| seqs.dfy | Seqs | `Array.prototype.filter`, `indexOf`/`splice`, `reverse`, joined `+=` pieces |
| text.dfy | Text | `\s`, `\d`, `trim`, `includes`, ASCII `toLowerCase`, decimal rendering |
| model.dfy | Model | the catalog item, cart line and order records of `js/data.js`, `DELIVERY_FEE` |
| order_ids.dfy | OrderIds | the `ORD-<ms>-<4 digits>` identifier and its parser |
| storage.dfy | Storage | `js/storage.js` |
| cart.dfy | Cart | `js/cart.js` |
| ui.dfy | Ui | `js/ui.js` |
| menu_view.dfy | MenuView | `renderMenu` in `js/pages.js` |
| pages.dfy | Pages | `renderHome`, `renderAdmin`, `renderCart`, `renderCheckout` |
| app.dfy | App | `js/app.js` |

The clock (`Date.now()`, `new Date().toISOString()`) and `Math.random()` are parameters:

- `ts`, the millisecond timestamp;
- `now`, the ISO date string;
- `draw` < 9000, the value of `Math.floor(Math.random() * 9000)`.

The confirmation dialog of `deleteOrder` is a boolean parameter, and the modal's number input
is a `Reading`: either `NaN` or the integer `parseInt` produced.

## Model

| member | source | states |
|---|---|---|
| Cart.FindLine | js/cart.js:21 | the index of the first line with the id, or none exactly when no line has it |
| Cart.AddLine | js/cart.js:19-34 | an id already present gains `quantity` on that line only, with no new line; otherwise one new line is appended at the end |
| Cart.RemoveLines | js/cart.js:36-39 | no line with the id remains, every other line is kept and nothing new appears; an absent id leaves the list as it was |
| Cart.RemoveLinesOrder | js/cart.js:36-39 | the kept lines are the cart read at strictly increasing positions that cover every line whose id differs: order and multiplicity are kept |
| Cart.SetQuantity | js/cart.js:41-51 | same length and items; the line with the id gets the new quantity and the others keep theirs; an absent id changes nothing |
| Cart.AddLinePreserves | js/cart.js:19-34 | adding a quantity ≥ 1 keeps ids pairwise distinct and quantities ≥ 1 |
| Cart.RemoveLinesPreserves | js/cart.js:36-39 | removing keeps the cart invariant |
| Cart.SetQuantityPreserves | js/cart.js:47 | setting a quantity ≥ 1 keeps the cart invariant |
| Cart.UpdatePreserves | js/cart.js:41-51 | `updateQuantity` with any quantity keeps the cart invariant (≤ 0 removes the line) |
| Cart.TotalsAfterReplace | js/cart.js:61-67 | replacing one line changes count and subtotal by exactly that line's difference |
| Cart.TotalsAfterAppend | js/cart.js:61-67 | appending a line adds its quantity to the count and price × quantity to the subtotal |
| Cart.TotalsAfterAdd | js/cart.js:19-34 | `addItem` raises the count by `quantity` and the subtotal by `quantity` × the price of the line that receives it |
| Cart.CountAfterSetQuantity | js/cart.js:41-51 | setting a line's quantity changes the count by the difference |
| Cart.CountZeroIffEmpty | js/cart.js:61-63 | with quantities ≥ 1 the count is at least the number of lines, and it is 0 iff the cart is empty |
| Cart.TotalAtLeastFee | js/cart.js:65-73 | with non-negative prices the subtotal is ≥ 0 and the total ≥ `DELIVERY_FEE` |
| Cart.TotalsExample | js/cart.js:65-73 | lines 2500×2 and 800×1 give subtotal 5800 and total 6300 |
| Cart.CartManager.constructor | js/cart.js:6-7 | the cart starts empty over the given store |
| Cart.CartManager.Init | js/cart.js:10-12 | the cart becomes what the store holds, and the two agree |
| Cart.CartManager.AddItem | js/cart.js:19-34 | returns true; the cart becomes `AddLine` of the old cart and is written back; cart and store agree |
| Cart.CartManager.RemoveItem | js/cart.js:36-39 | the cart becomes `RemoveLines` of the old cart and is written back even when the id was absent |
| Cart.CartManager.UpdateQuantity | js/cart.js:41-51 | absent id: cart and store unchanged; otherwise remove (≤ 0) or set the quantity, then write back |
| Cart.CartManager.Items | js/cart.js:53-59 | `getCart`/`getCartItems`: while cart and store agree, the lines are what the store holds |
| Cart.CartManager.GetSubtotal | js/cart.js:65-67 | the subtotal of an empty cart is 0, and with non-negative prices and positive quantities it is never negative |
| Cart.CartManager.GetCartCount | js/cart.js:61-63 | the count of a well-formed cart is at least its number of lines |
| Cart.CartManager.GetTotal | js/cart.js:69-73 | total − subtotal is `DELIVERY_FEE` |
| Cart.CartManager.IsEmpty | js/cart.js:75-77 | true iff there are no lines, and for a well-formed cart iff the count is 0 |
| Cart.CartManager.Clear | js/cart.js:79-82 | the cart is empty, the stored key is removed, and the store then reads back `[]` |
| Storage.Stamped | js/storage.js:50-56 | only id, date and status change; a given id or status is kept, otherwise the id parses back to the timestamp and suffix and the status is "Completed"; the date is the stamp |
| Storage.FindOrder | js/storage.js:67 | the first index whose order id matches, or none when none does |
| Storage.WithoutOrder | js/storage.js:64-75 | with no match the list is unchanged; otherwise exactly the order at the first matching index is cut out and the rest keep their order |
| Storage.DeleteRemovesFirstMatch | js/storage.js:64-75 | the order removed is the first one with the id (no earlier order has it); orders with other ids keep their order; exactly one matching order is gone |
| Storage.Toggled | js/storage.js:111-126 | an absent id is appended; otherwise the element at its first occurrence (`indexOf`) is cut out and the others keep their order |
| Storage.ToggleMembership | js/storage.js:111-126 | on a duplicate-free list, toggling flips the id's membership, leaves every other id alone and keeps the list duplicate-free |
| Storage.ToggleTwiceAbsent | js/storage.js:111-126 | toggling an absent id twice restores the list exactly |
| Storage.ToggleTwiceRestores | js/storage.js:111-126 | toggling twice restores the id's membership |
| Storage.ToggleTwiceWithDuplicate | js/storage.js:114-117 | with a duplicated id, toggling twice does not restore membership, since only the first occurrence goes |
| Storage.StorageManager.constructor | js/storage.js:6-10 | the store starts as the given contents |
| Storage.StorageManager.GetCart | js/storage.js:14-22 | a missing key or unparseable value reads as `[]` |
| Storage.StorageManager.SaveCart | js/storage.js:24-30 | only the cart key changes, and `getCart` then returns the saved list |
| Storage.StorageManager.ClearCart | js/storage.js:32-34 | the cart key is removed and `getCart` then returns `[]` |
| Storage.StorageManager.GetOrders | js/storage.js:37-45 | a missing key or unparseable value reads as `[]` |
| Storage.StorageManager.SaveOrder | js/storage.js:47-61 | the history is the old history plus exactly the stamped order at the end; only the orders key changes |
| Storage.StorageManager.DeleteOrder | js/storage.js:64-75 | the history loses its first match; with no match nothing is written |
| Storage.StorageManager.GetAdminWhatsAppNumber | js/storage.js:78-86 | a number iff the key holds non-empty text, and then exactly that text; none for a missing key or an empty string |
| Storage.StorageManager.SetAdminWhatsAppNumber | js/storage.js:88-98 | none removes the key and a value is stored as text; the getter then returns it, or none when it is empty |
| Storage.StorageManager.GetUnavailableItems | js/storage.js:101-109 | a missing key or unparseable value reads as `[]` |
| Storage.StorageManager.ToggleItemAvailability | js/storage.js:111-126 | the stored list becomes `Toggled` of the old one; only that key changes |
| Storage.StorageManager.IsItemUnavailable | js/storage.js:128-130 | true iff the id is in the stored unavailable list |
| OrderIds.RandomSuffix | js/app.js:112 | the suffix lies in 1000..9999 and has four digits |
| OrderIds.FormatOrderId | js/app.js:113 | the id starts with "ORD-" |
| OrderIds.ParseFormatted | js/app.js:110-114 | parsing an id gives back the timestamp and the suffix |
| OrderIds.FormattedParsed | js/app.js:110-114 | an id that parses is exactly the id formatted from its two numbers, so the parser pins the spelling (no zero-padded variant parses) |
| OrderIds.FormatInjective | js/app.js:110-114 | distinct (timestamp, suffix) pairs give distinct ids |
| Text.CanonicalRoundTrip | js/app.js:113 | digit text without a leading zero is exactly how `${n}` renders the number it denotes |
| Text.TrimEmptyIffBlank | js/ui.js:181 | `s.trim()` is empty iff every character of `s` is whitespace |
| Text.TrimKeepsDigits | js/app.js:86 | trimming keeps every digit |
| App.NormalizedPhone | js/app.js:84-107 | `normalizePhoneForWa` on the digits of the input; the result is empty iff the input has no digit |
| App.NormalizedPhoneDigits | js/app.js:84-107 | the result has only decimal digits, and is empty exactly when the input has none (including the empty input) |
| App.NormalizedPhoneCases | js/app.js:94-104 | on the digits d of the input: a leading 0 of seven or more digits becomes "234"; two to six digits with a leading 0 get "234" twice ("0123" gives "234234123"); "0" gives "2340"; nine or more digits not starting with 0 pass unchanged; fewer get "234" in front |
| App.NormalizedPhoneFixed | js/app.js:100-106 | a digit string of length ≥ 9 not starting with 0 is returned unchanged |
| App.AdminNumberNormalised | js/app.js:75-78 | the administrator's number is already normal, and "09157286254" normalises to it |
| App.DropSeparators | js/app.js:88 | removing spaces, parentheses and dashes keeps the digits |
| App.DigitsAfterPlus | js/app.js:90 | removing a leading '+' keeps the digits |
| App.NormalizePhoneForWa | js/app.js:84-107 | the step-by-step rewrite returns exactly `NormalizedPhone` of the input |
| App.GenerateRandomOrderId | js/app.js:110-114 | "ORD-" then the timestamp and a suffix in 1000..9999, which parse back |
| App.CheckoutValidIff | js/pages.js:203-221 | the checkout form passes iff name, address and city are non-blank and the phone is a non-blank valid phone; the notes are never checked |
| App.SnapshotTotals | js/app.js:317-322 | the order lines are the cart's lines in order (id, quantity) and add up to the cart subtotal |
| App.PlacedOrderFacts | js/app.js:311-331 | the recorded order carries the form's details, the cart's lines, subtotal and total, fee 500, status "Confirmed", the stamped date and an id that parses to the clock and draw |
| App.ItemLines | js/app.js:426-428 | one message line per order line |
| App.ItemLineNumbered | js/app.js:427 | the line for position i starts with the decimal numeral of i + 1 |
| App.HeadingShape | js/app.js:419-425 | six heading pieces, none of them the special-instructions line |
| App.ClosingShape | js/app.js:430-441 | the special-instructions line sits after the totals iff there are notes |
| App.MessageLayout | js/app.js:418-444 | piece 6 + i is the numbered line of item i for every item in order, and the special-instructions line appears iff the notes are non-empty |
| App.GenerateWhatsAppMessage | js/app.js:418-444 | the `+=` sequence yields exactly the joined message pieces |
| App.AppendItemLines | js/app.js:426-428 | the `forEach` loop appends the numbered item lines in order |
| App.AppendAll | js/app.js:419-441 | a run of `+=` appends the pieces joined |
| App.ChooseLink | js/app.js:341-348 | the link carries the message; it is the admin chat iff the normalised number is non-empty and all digits, and the chat goes to exactly that number |
| App.LinkTargetsAdmin | js/app.js:341-348 | the admin chat is chosen iff the configured number has a digit, otherwise the generic share |
| App.AdminLinkChosen | js/app.js:341-348 | with the configured number, the link is that number's chat with the message |
| App.FindItem | js/app.js:246 | a catalog item with the id such that no earlier item has it (the first one); none iff no item has it |
| App.ModalAddAsWrittenBreaksCart | js/app.js:254-258 | typing −3 in the modal puts a line of quantity −3 in an empty cart, which breaks the cart invariant |
| App.AppState.constructor | js/app.js:15-16 | the cart manager is loaded from the given store |
| App.AppState.HandleAddToCart | js/app.js:245-252 | a catalog item that is not unavailable gains exactly 1; otherwise cart and store are unchanged; the cart invariant is kept |
| App.AppState.HandleModalAddToCart | js/app.js:254-266 | the same gating, adding the modal quantity clamped to 1..99; the cart invariant is kept |
| App.AppState.HandleRemoveFromCart | js/app.js:268-273 | the lines with the id are removed and written back |
| App.AppState.HandleUpdateQuantity | js/app.js:275-283 | ≤ 0 removes the line (always written back); otherwise the quantity is updated when the id is present |
| App.AppState.HandleCheckoutSubmit | js/app.js:295-348 | an invalid form changes no order and no cart; every field group is marked by its field's error; a valid one appends exactly the placed order, removes the stored cart, leaves every other key as it was, empties the cart and opens the admin chat with the message |
| App.AppState.PlaceOrder | js/app.js:305-348 | the post-validation sequence: save the order, clear the cart, build the message, choose the admin link; only the orders key is rewritten and the cart key removed |
| App.AppState.DeleteOrder | js/app.js:406-413 | an empty id or a declined confirmation changes nothing; otherwise the first match is deleted and only the orders key is rewritten, and with no match the store is unchanged |
| App.AppState.HandleToggleItemAvailability | js/app.js:399-403 | the unavailable list is toggled and no other key changes; on a duplicate-free list the item's flag flips |
| Ui.EmailScanIff | js/ui.js:201-203 | the email pattern holds iff: non-empty run, '@', non-empty run, '.', non-empty run, all without whitespace or '@'; equivalently a first '@' not at 0, with no whitespace, no second '@' and a '.' strictly inside the domain |
| Ui.IsValidEmail | js/ui.js:201-203 | an accepted address has an '@' and at least five characters; `Ui.EmailScanIff` characterises it |
| Ui.IsValidPhone | js/ui.js:205-207 | a text is a phone number iff the left-to-right matcher `Ui.PhoneRun` accepts it from the start |
| Ui.PhoneRun | js/ui.js:206 | the pattern read character by character; it accepts only when seven or more characters were matched in all |
| Ui.PhoneRunIff | js/ui.js:206 | the matcher accepts iff the text has enough characters in all and every one is a digit, whitespace, '-', '+', '(' or ')' |
| Ui.PhoneExamples | js/ui.js:205-207 | the checkout form's placeholder "+234 800 000 0000" is a phone number |
| Ui.PhoneCounterExamples | js/ui.js:205-207 | "080-12" (too short) and "0803 12A 4567" (a letter) are not phone numbers |
| Ui.FieldError | js/ui.js:181-195 | a field passes iff it is not blank and, for email or tel fields, matches that pattern |
| Ui.ValidateForm | js/ui.js:172-199 | the result is true iff every field passes; every field's group is flagged with its error or unflagged, with no early exit |
| Ui.ClampsKeepRange | js/ui.js:111-119 | increment is min(v + 1, 99) and decrement max(v − 1, 1); both keep a value in 1..99 |
| Ui.QuantityInput.constructor | js/ui.js:96 | the input starts at 1 |
| Ui.QuantityInput.Increment | js/ui.js:111-114 | the value becomes the incremented reading |
| Ui.QuantityInput.Decrement | js/ui.js:116-119 | the value becomes the decremented reading |
| Ui.GetModalQuantity | js/ui.js:121-124 | NaN or 0 gives 1; any other parsed integer, negative ones included, is returned as it is |
| Ui.ModalQuantityCanBeNegative | js/ui.js:121-124 | a reading of −3 gives quantity −3 |
| Ui.ClampedModalQuantity | js/ui.js:96 | the quantity lies in 1..99 and agrees with `getModalQuantity` whenever that is in range |
| Ui.StarCount | js/ui.js:47 | `Math.round(score / 20)`: the nearest multiple of 20 to the score, halves rounded up |
| Ui.StarsInRange | js/ui.js:77 | for scores 0..100 the count lies in 0..5, and it is monotone in the score |
| MenuView.FilteredIsSelection | js/pages.js:53-63 | the category and search steps keep exactly the selected items, in catalog order |
| MenuView.InsertMultiset | js/pages.js:66-72 | inserting adds exactly the new element |
| MenuView.StableSortMultiset | js/pages.js:66-72 | the sort is a permutation |
| MenuView.InsertSorted | js/pages.js:66-72 | inserting into a sorted list keeps it sorted |
| MenuView.StableSortSorted | js/pages.js:66-72 | the sort yields non-decreasing keys |
| MenuView.InsertSameKey | js/pages.js:66-72 | inserting keeps the relative order of items with equal keys |
| MenuView.StableSortStable | js/pages.js:66-72 | ties keep their prior relative order |
| MenuView.StableSortUnsorted | js/pages.js:66-72 | an unknown sort key leaves the order as it was |
| MenuView.StableSortDistinct | js/pages.js:66-72 | the sort keeps ids distinct |
| MenuView.MenuViewSelection | js/pages.js:49-72 | the listed items are a permutation of the selected catalog items; an item is listed iff it is in the catalog, has the category (when one applies) and matches the term (when non-empty) |
| MenuView.MenuViewOrder | js/pages.js:66-72 | "price-asc" gives non-decreasing prices, "price-desc" non-increasing prices, "popularity" non-increasing popularity; other keys keep the filtered order; ties keep it too |
| MenuView.InsertInPlace | js/pages.js:67-71 | one insertion step of the in-place sort leaves the prefix equal to `Insert` of the old prefix |
| MenuView.SortInPlace | js/pages.js:67-71 | the array afterwards holds the stable sort of its old contents |
| MenuView.RenderMenu | js/pages.js:49-72 | the items are the sorted selection; with no category and no term they are the catalog array itself, sorted in place; otherwise a new array and the catalog is untouched |
| Pages.Featured | js/pages.js:12 | every item shown is a featured catalog item; `Pages.FeaturedSelection` gives order and completeness |
| Pages.FeaturedSelection | js/pages.js:12 | exactly the featured catalog items, in catalog order |
| Pages.RenderAdmin | js/pages.js:331-353 | one row per catalog item and one history entry per stored order |
| Pages.RenderAdminFacts | js/pages.js:331-353 | one row per catalog item, out of stock iff its id is unavailable; the history is the stored orders newest first, and reversing it gives the stored list back |
| Pages.ToggleFlipsRow | js/pages.js:335-336 | toggling an id flips the out-of-stock mark of the items with that id and of no other |
| Pages.RenderCart | js/pages.js:118-134 | the empty state iff the cart has no lines; otherwise the cart's lines, its subtotal, the fixed fee, and total = subtotal + fee |
| Pages.SummaryLines | js/pages.js:190-192 | one summary line per cart line |
| Pages.SummaryAddsUp | js/pages.js:190-192 | each checkout line shows price × quantity, and the line amounts add up to the subtotal |
| Pages.RenderCheckout | js/pages.js:172-192 | "Checkout Unavailable" iff the cart has no lines; otherwise one summary line per cart line, the cart's subtotal, which the line amounts add up to, and total = subtotal + fee |

## Left out

- Write failures: a failed `localStorage` write (quota, private mode) and its `console.error` path. Every write here succeeds.
- Well-formed JSON of another shape: a value that parses but is not the expected kind of list (for example an object under the cart key) is read as `[]` here. The browser would return that value.
- Record shapes in storage: an entry holds cart lines, orders or ids as Dafny records, not JSON text.
- `toLocaleString`, `formatPrice` and `formatDate`. These are locale-dependent. Amounts in the message are rendered as plain decimals with no digit grouping.
- Full Unicode `toLowerCase`. Case folding is ASCII only, which covers the catalog's names and descriptions.
- Text parsing: `parseInt` of the modal's text is not modelled. The input is already a `Reading` (NaN or an integer).
- `String(number)` for the administrator number. The setter takes the text.
- `getCart` copy versus `getCartItems` live list: both are the same immutable sequence here, so the copy and the live list cannot diverge.
- Non-logic code: HTML templates, `innerHTML`, event listeners, the modal show/close, notifications and timers, `scrollTo` and the mobile menu.
- `navigateTo`, `updateMenuDisplay`, `handleFilter` and `handleSort` only re-render. Their effect on the list is `RenderMenu`.
- `window.open` and `encodeURIComponent`. The link is modelled as its target (administrator chat or generic share) and the message text.
- `window.confirm` is the `confirmed` parameter.
- The login and signup stubs and `handleAuthToggle`. They hold no state.
- Uniqueness of order ids. It depends on the clock and the random draw, so it is not a property of the code. `OrderIds.FormatInjective` shows that distinct inputs give distinct ids.
- The checkout page is only reachable with a non-empty cart, but `handleCheckoutSubmit` does not check it. The model accepts an empty cart at submission as the code does.
- `App.AppState.HandleModalAddToCart` uses the corrected quantity (see Findings). As written, the source passes `getModalQuantity` through unclamped.
- JavaScript numbers are IEEE doubles; prices, quantities, sums, star scores and `Date.now()` timestamps are unbounded integers here. The two agree below 2^53, which covers every realistic amount and timestamp.
- `js/data.js` catalog contents are not modelled. The catalog is a parameter: an array of `MenuItem` records with any ids, categories and scores.

## Findings

| source | as written | input that shows it | evidently intended | confidence | as-written member | corrected member |
|---|---|---|---|---|---|---|
| js/ui.js:121-124 with js/app.js:254-258 | `parseInt(input.value) \|\| 1` returns any non-zero parsed integer, and `handleModalAddToCart` adds it to the cart unchecked | typing `-3` in the modal's number field (its `min="1"` does not stop typed values) and pressing Add to Cart | a quantity in the input's range 1..99, so that every cart line keeps quantity ≥ 1 | not executed | Ui.GetModalQuantity, Ui.ModalQuantityCanBeNegative, App.ModalAddAsWrittenBreaksCart | Ui.ClampedModalQuantity, App.AppState.HandleModalAddToCart |
