# Pizzeria cart and checkout, modelled in Dafny

This project models the client-side cart and checkout of a small pizzeria
storefront (`script.js`). It covers three pieces.

- **The cart engine** (`CartEngine`, `LineItems`). The cart is an ordered list of line items
  `{id, name, size, price, quantity}`, identified by the pair (id, size).
  `addItem` merges into an existing entry or appends one. `increaseQuantity`,
  `decreaseQuantity` and `removeItem` act on the first entry matching both id
  and size. `getTotal` and `getCount` are folds. `save` writes the whole list
  to the browser store.
- **Checkout pricing** (`Checkout.LoadSummary`). The subtotal is the same fold.
  Delivery is free from 1500 on and costs 200 below that. The total is their
  sum. An empty stored cart shows no summary and sends the visitor back to
  the storefront.
- **The phone mask and order submission** (`PhoneMask`, `JsText`, `Checkout`).
  The mask strips non-digits and lays the digits out as `+7 (XXX) XXX-XX-XX`
  by length. Submission trims the three fields and requires each to be
  non-empty. The phone must match `^\+7 \(\d{3}\) \d{3}-\d{2}-\d{2}$`. A
  successful submission appends one order to the `orders` log and removes the
  cart.

The browser store is the class `BrowserStore.Store` with two fields, `cart`
and `orders`. A key that is absent reads as the empty sequence. The `Cart`
class holds its list in a `seq` field and a reference to that store. Its
mutators change the list in place and then assign it to `store.cart`. On a
lookup miss, `increaseQuantity`, `decreaseQuantity` and `removeItem` neither
change the list nor save.

The two cart invariants are unique (id, size) keys and every quantity ≥ 1
(`LineItems.WellFormed`, `CartEngine.Cart.Valid`). They are not assumed of
whatever the store holds when the page loads. Every mutation is proved to
keep them: `old(Valid()) ==> Valid()`.

A stored value that is not valid JSON is not modelled: `JSON.parse` at
script.js:3, 397, 436 and 465 has no `catch`, so such a value throws
instead of loading as an empty cart. The model distinguishes only an absent
key (the empty sequence) from a stored list.

## Model

| member | source | states |
|---|---|---|
| `LineItems.Matches` | script.js:14 | the lookup test `item.id === id && item.size === size` shared by `find`/`findIndex` at lines 14, 34, 44 and 59: the entry's (id, size) key equals the one looked up; no contract of its own, `FindIndex` and `FindIndexFindsKey` state what it finds |
| `LineItems.FindIndex` | script.js:44 | the result is -1 exactly when no entry matches both id and size; otherwise it is the first matching position |
| `LineItems.FindIndexFindsKey` | script.js:14 | the lookup finds an entry exactly when the (id, size) key is in the cart's key set |
| `LineItems.UniqueMatch` | script.js:59 | in a cart with unique keys, the entry the lookup finds is the only entry with that key |
| `LineItems.Reduce` | script.js:68-74 | the left fold of `Array.prototype.reduce` with an initial value, as used at lines 69, 73 and 420; no contract of its own, `ReduceIsSum` ties it to the sum |
| `LineItems.ReduceIsSum` | script.js:69 | the left fold `reduce((sum, item) => sum + f(item), acc)` equals `acc` plus the sum of `f` over all entries |
| `LineItems.Total` | script.js:68-70 | `getTotal` is the sum of price × quantity over all entries, and 0 for an empty cart |
| `LineItems.Count` | script.js:72-74 | `getCount` is the sum of the quantities, and 0 for an empty cart |
| `LineItems.CountBounds` | script.js:72-74 | with every quantity ≥ 1, the count is at least the number of entries, and it is 0 exactly when the cart is empty |
| `CartEngine.WithAdded` | script.js:13-26 | `addItem` on the list: bump the first entry with the product's key, or append a quantity-1 entry; stated by `AddItemEffect` and `AddItemAggregates` |
| `CartEngine.WithIncreased` | script.js:33-41 | `increaseQuantity` on the list: bump the first matching entry, a miss changes nothing; stated by `IncreaseEffect` and `IncreaseAggregates` |
| `CartEngine.WithDecreased` | script.js:43-56 | `decreaseQuantity` on the list: lower the first match when above 1, otherwise splice it out, a miss changes nothing; stated by `DecreaseEffect` and `DecreaseAggregates` |
| `CartEngine.WithRemoved` | script.js:58-66 | `removeItem` on the list: splice out the first match, a miss changes nothing; stated by `RemoveEffect` and `RemoveAggregates` |
| `CartEngine.AddItemEffect` | script.js:13-26 | a present key raises that entry's quantity by exactly 1 and keeps its first-seen name and price and every other entry; an absent key appends one entry of quantity 1 at the end; the key set gains exactly the product's key; both invariants are kept |
| `CartEngine.IncreaseEffect` | script.js:33-41 | only the entry matching id and size changes, by +1; an absent key leaves the cart unchanged; the key set and both invariants are kept |
| `CartEngine.DecreaseEffect` | script.js:43-56 | quantity > 1 drops by exactly 1 with nothing else changed; quantity 1 is spliced out with the rest in order; a miss changes nothing; the key set never grows, and in a valid cart it stays the same or loses exactly that key; both invariants are kept |
| `CartEngine.RemoveEffect` | script.js:58-66 | the matching entry is spliced out and the rest keep their relative order; a miss changes nothing; with unique keys the key is gone afterwards; both invariants are kept |
| `CartEngine.AddItemAggregates` | script.js:13-26 | adding raises the count by 1 and the total by the unit price of the entry the product lands in (the stored first-seen price on a merge) |
| `CartEngine.IncreaseAggregates` | script.js:33-41 | increasing a present key raises the count by 1 and the total by that entry's price |
| `LineItems.IncrementAggregates` | script.js:68-74 | raising one entry by a unit raises the count by 1 and the total by that entry's price |
| `LineItems.DecrementAggregates` | script.js:68-74 | lowering one entry by a unit lowers the count by 1 and the total by that entry's price |
| `LineItems.RemoveAtAggregates` | script.js:68-74 | splicing out one entry lowers the count by its quantity and the total by its price × quantity |
| `CartEngine.DecreaseAtAggregates` | script.js:43-56 | decreasing the matching entry when it holds at least one unit lowers the count by 1 and the total by its price, whether the entry shrinks or is spliced out |
| `CartEngine.DecreaseAggregates` | script.js:43-56 | in a cart with positive quantities, decreasing a present key lowers the count by exactly 1 and the total by that entry's price, whether the entry shrinks or goes |
| `CartEngine.RemoveAggregates` | script.js:58-66 | removing a present key lowers the count by that entry's quantity and the total by its price × quantity |
| `CartEngine.AddToLast` | script.js:13-26 | adding a product whose key only the last entry holds raises that entry by one and changes nothing else |
| `CartEngine.AddAllToLast` | script.js:13-26 | once the last entry holds a key no earlier entry has, further adds of that key only raise its quantity, by one per call |
| `CartEngine.RepeatedAdds` | script.js:13-26 | from a cart without key k, n ≥ 1 adds of key k leave the old cart followed by exactly one entry for k, with quantity n and the first call's name and price |
| `BrowserStore.Store.constructor` | script.js:3 | the two `localStorage` keys the core reads and writes, `cart` (read at lines 3, 397 and 436, written at 77, removed at 469) and `orders` (lines 465-469), as two fields starting from the given lists |
| `CartEngine.Cart.constructor` | script.js:2-3 | the new cart's list is the list stored under `cart`, empty when the key is absent; it is valid when the stored list is |
| `CartEngine.Cart.Save` | script.js:76-78 | the store's `cart` becomes the current list; `orders` is untouched |
| `CartEngine.Cart.AddItem` | script.js:13-31 | the list becomes the merge-or-append result and is saved; the invariants are preserved |
| `CartEngine.Cart.IncreaseQuantity` | script.js:33-41 | the list becomes the increased list; it is saved on a hit, and the store is untouched on a miss; the invariants are preserved |
| `CartEngine.Cart.DecreaseQuantity` | script.js:43-56 | the list becomes the decreased list; it is saved on a hit, and the store is untouched on a miss; the invariants are preserved |
| `CartEngine.Cart.RemoveItem` | script.js:58-66 | the list becomes the spliced list; it is saved on a hit, and the store is untouched on a miss; the invariants are preserved |
| `CartEngine.Cart.GetTotal` | script.js:68-70 | the cart's total is the sum of price × quantity over its entries, 0 when empty |
| `CartEngine.Cart.GetCount` | script.js:72-74 | the cart's count is the sum of its quantities; in a valid cart it is at least the number of entries and 0 exactly when empty |
| `JsText.LeadingSpaces` | script.js:443 | the length of the longest run of white space at the start of the string |
| `JsText.TrailingSpaces` | script.js:443 | the length of the longest run of white space at the end of the string |
| `JsText.Trim` | script.js:443-445 | `trim` yields the segment between the leading and trailing white space runs; it is empty exactly when the field is all white space, and otherwise starts and ends with a non-space |
| `JsText.TrimKeeps` | script.js:443-445 | a string that neither starts nor ends with white space is its own trim |
| `JsText.TrimIdempotent` | script.js:443-445 | trimming twice is trimming once |
| `PhoneMask.Digits` | script.js:365 | `replace(/\D/g, '')` keeps only ASCII digits and never lengthens the input |
| `PhoneMask.DigitsOfChar` | script.js:365 | a single character survives the filter exactly when it is a digit; with `DigitsConcat` this makes `Digits(s)` every digit of `s`, in order |
| `PhoneMask.DigitsConcat` | script.js:365 | stripping non-digits distributes over concatenation |
| `PhoneMask.IsPhone` | script.js:452 | the pattern `^\+7 \(\d{3}\) \d{3}-\d{2}-\d{2}$` character by character: 18 characters, fixed punctuation, a digit elsewhere; stated by `PatternExamples`, `PhoneLayout` and `FormatIsPhone` |
| `PhoneMask.FormatAsWritten` | script.js:367-376 | the four length branches of the mask and their slice bounds, applied to the digit string; stated by `MaskAsWritten`, `FormatsAgree` and `MaskAsWrittenTyping` |
| `PhoneMask.MaskAsWritten` | script.js:364-379 | the mask as written gives the empty string exactly when the input has no digit, and otherwise a value starting with `+7 (` |
| `PhoneMask.Mask` | script.js:367-377 | the corrected mask (see Findings) gives the empty string exactly when the input has no digit, and otherwise a value starting with `+7 (` |
| `PhoneMask.FormatsAgree` | script.js:367-376 | both layouts agree from 4 digits on; with 1-3 digits they stay ≤ 7 characters and with ≤ 10 digits ≤ 17 |
| `PhoneMask.FormatIsPhone` | script.js:375 | a laid-out digit string matches the phone pattern exactly when it has at least 11 digits |
| `PhoneMask.MaskIsPhone` | script.js:452 | for any input, the masked value (either layout) passes the phone check exactly when the input has ≥ 11 digits, so 1-10 digits fail |
| `PhoneMask.LayoutDigits` | script.js:375 | the digits of the full layout are 7 followed by its four digit groups |
| `PhoneMask.PhoneLayout` | script.js:452 | a string passing the phone check is the full layout of its four digit groups |
| `PhoneMask.MaskKeepsPhone` | script.js:364-379 | masking a complete masked number returns it unchanged, with either layout |
| `PhoneMask.DigitsOfFormat` | script.js:367-376 | the digits of a laid-out value are 7 followed by the second to at most the eleventh input digit |
| `PhoneMask.FormatReadsTail` | script.js:367-376 | the layout depends only on the length bucket and on the second to eleventh digits |
| `PhoneMask.MaskIdempotent` | script.js:367-377 | the corrected mask is a fixed point of itself at every length |
| `PhoneMask.MaskAsWrittenNotIdempotent` | script.js:368-369 | the mask as written turns "9" into "+7 (9" and that into "+7 (79", so re-masking its own output changes it |
| `PhoneMask.MaskAsWrittenTyping` | script.js:364-379 | typing 9, 1, 2 into the empty field gives `+7 (9`, then `+7 (791`, then `+7 (791) 2`: the prefix's 7 stays in the area code |
| `PhoneMask.PatternExamples` | script.js:452 | `+7 (912) 345-67-89` passes; `89123456789`, `+7 912 345 67 89` and the empty string fail |
| `PhoneMask.MaskExample` | script.js:360-381 | the mask turns `89123456789` into `+7 (912) 345-67-89`, the form `PatternExamples` shows accepted |
| `Checkout.Delivery` | script.js:421 | the fee is 0 or 200, and it is 0 exactly when the subtotal is ≥ 1500 |
| `Checkout.LoadSummary` | script.js:396-426 | an empty stored cart gives no summary (redirect); otherwise subtotal = sum of price × quantity, delivery is free exactly from 1500, total = subtotal + delivery and lies between subtotal and subtotal + 200 |
| `Checkout.SummaryExamples` | script.js:420-422 | subtotal 1499 gives 200 and 1699, 1500 gives 0 and 1500, 3000 gives 0 and 3000 |
| `Checkout.Validate` | script.js:436-455 | a submission is accepted exactly when the cart is non-empty, the trimmed fields are non-empty and the trimmed phone matches the pattern; an empty cart is reported first, then a missing field; accepted fields are the trimmed ones |
| `Checkout.MaskedPhoneAccepted` | script.js:443-455 | with a non-empty cart and non-blank name and address, a phone field the mask has rewritten is accepted exactly when the typed input held ≥ 11 digits |
| `Checkout.SubmitOrder` | script.js:433-469 | a rejected attempt leaves `cart` and `orders` unchanged; an accepted one appends exactly one order after the existing ones, carrying the stored items and the trimmed customer fields, and empties `cart` |

## Left out

- Rendering (`render`, `getImageName`, `updateCount`) and the per-item listener bookkeeping with `setTimeout` (`setupCartItemEvents`). These are DOM output with no business state.
- `setupEventListeners`, `openCart`/`closeCart`, `MobileMenu`, `setupDeliveryTime` and `showConfirmation`. These are event wiring, CSS class toggles, overlays and navigation. This includes the empty-cart guards on the checkout buttons (script.js:238, 248).
- `JSON.parse`/`JSON.stringify` and `localStorage`. The store is two fields holding sequences, and an absent key is the empty sequence. Corrupt stored text, which makes `JSON.parse` throw, is not modelled.
- `Date.now()`, `toLocaleString('ru-RU')` and the total text read from the page (script.js:458-462). They are parameters of `Checkout.SubmitOrder`. The summary's text formatting (amount plus currency sign, "free" for a zero fee) is not modelled; `Checkout.LoadSummary` returns the three numbers.
- `alert` and `window.location`. A rejection is a `Checkout.Rejection` value. The redirect on an empty cart is the `None` summary.
- The guards on missing page elements (script.js:362, 403, 431). The optional chaining on the form fields (script.js:443-445) is also left out: the fields are always present strings.
- `parseInt` of the size price and the string/number coercion of `dataset` values (script.js:193). A price is an already-parsed `int`. Ids and sizes are strings, as `dataset` gives them.
- JavaScript number precision. Prices, quantities and sums are unbounded integers, so totals beyond 2^53 are not modelled.
- `CartEngine.DecreaseAggregates`: requires every quantity to be ≥ 1. A tampered entry stored with quantity 0 is spliced out without changing the count, which the lemma does not describe.
- Persisting several tabs at once: the store has a single writer.

## Findings

| source | as written | input that shows it | evidently intended | confidence | as-written member | corrected member |
|---|---|---|---|---|---|---|
| script.js:368-369 | with 1-3 digits the mask writes `+7 (` followed by all the digits. From 4 digits on it drops the first digit as the country code. The handler re-reads its own output on every input event, so the `7` of the prefix is counted as a typed digit | the field holds `9`: the mask writes `+7 (9`. The next input event reads `+7 (9` as the digits `79` and writes `+7 (79`. Typing 9, 1, 2 gives `+7 (9`, `+7 (791`, `+7 (791) 2`, and the spurious 7 stays in the area code (`PhoneMask.MaskAsWrittenTyping`) | the first digit is the country code at every length (`value.slice(1)` in the short case too), so re-masking a masked value changes nothing | medium; not executed | `PhoneMask.MaskAsWrittenNotIdempotent` | `PhoneMask.MaskIdempotent` |
