# Caffeine storefront cart, in Dafny

This project models the client-side cart of the Caffeine coffee-shop storefront (a Next.js app) and proves properties of it:

- **CartContext** (`cart_context.dfy`): the cart store. Line items are records keyed by product id. The list transforms of `addToCart`, `removeFromCart`, `updateQuantity` and `calculateTotal` are pure functions (`Add`, `Remove`, `Update`, `Total`). The class `CartStore` holds the list and the browser storage slot under the `caffeineCart` key, and its methods replace the list as `setCart` does. `CalculateTotal` is the `reduce` written as a loop.
- **Receipt** (`receipt.dfy`): the receipt view. It covers the payment-method label lookup, the null-render guard and the rows and sums the receipt shows.
- **Checkout** (`checkout.dfy`): the checkout form and `handleSubmit`. This covers the completeness guard, subtotal + 15000 shipping = total, order assembly, the success and failure transitions and the `isSubmitting` flag. It also models the user prefill effect.
- **ProductDetail** (`product_detail.dfy`): the quantity stepper of the product view, which never drops below 1, and its add-to-cart button.
- **CartPanel** (`cart_panel.dfy`): the cart panel's handlers. These are the checkout guard on an empty cart, the confirmed clear, and the −/+/remove buttons. It also wires the checkout modal's `onClose` to the panel.

The network request, the clock, the signed-in user and the `confirm` dialog appear only as inputs:

- `Outcome` is the request's result: a reply body, or a thrown value.
- `now` is the date stamped on the receipt.
- `Option<User>` is the signed-in user.
- `confirmed` is the answer to the confirmation dialog.

Prices and quantities are whole rupiah amounts and counts, so they are modelled as `int`.

Two invariants run through the model:

- `DistinctIds`: at most one line item per id. Every store operation preserves it.
- `AllPositive`: every quantity is at least 1. Every UI path preserves it. `addToCart` itself does not, because it accepts a quantity of zero or less.

The model follows the code in two places a reader might not expect:

- A submission fails only when the reply body's `success` is false or the request throws. The HTTP status is never consulted.
- `addToCart` does not reject or clamp a non-positive quantity (`CartContext.AddAcceptsNonPositive`).

## Model

| member | source | states |
|---|---|---|
| `CartContext.LineTotals` | context/cart-context.tsx:94 | one row total per item, in order, each equal to price × quantity |
| `CartContext.Find` | context/cart-context.tsx:57 | the result is absent exactly when no item has the id; otherwise it is the position of the first item with that id |
| `CartContext.Add` | context/cart-context.tsx:55-74 | for an id already present: same length, that item's quantity grows by `quantity`, and every other item is unchanged. For a new id: exactly one item is appended, carrying the product's id, name, price and image and the given quantity. Id, name, price and image of existing items never change |
| `CartContext.Remove` | context/cart-context.tsx:76-78 | an item is in the result exactly when it was in the cart and has another id; the result is never longer |
| `CartContext.Update` | context/cart-context.tsx:80-87 | quantity > 0: same length and fields, matching items get exactly that quantity, all others unchanged. quantity ≤ 0: no item with the id remains |
| `CartContext.FindSameIds` | context/cart-context.tsx:57 | `find` by id depends only on the ids and their positions |
| `CartContext.AddExisting` | context/cart-context.tsx:57-60 | with distinct ids, adding a present id is a point update of that one item's quantity by `quantity` |
| `CartContext.AddNew` | context/cart-context.tsx:61-71 | adding an absent id is `cart + [new item]`; existing items keep their order |
| `CartContext.AddQuantity` | context/cart-context.tsx:55-71 | after addToCart the id is present and its quantity has grown by exactly `quantity` (0 counted for an absent id) |
| `CartContext.AddPreservesDistinct` | context/cart-context.tsx:55-74 | addToCart keeps ids pairwise distinct |
| `CartContext.RemoveAbsent` | context/cart-context.tsx:76-78 | removeFromCart of an absent id is a no-op |
| `CartContext.RemoveSplice` | context/cart-context.tsx:76-78 | with distinct ids, removeFromCart cuts out exactly the matching item, leaving `cart[..k] + cart[k+1..]` in the original order |
| `CartContext.RemovePreservesDistinct` | context/cart-context.tsx:76-78 | removeFromCart keeps ids pairwise distinct |
| `CartContext.UpdateNonPositiveIsRemove` | context/cart-context.tsx:80-84 | updateQuantity with quantity ≤ 0 is exactly removeFromCart |
| `CartContext.UpdateSets` | context/cart-context.tsx:86 | with distinct ids and quantity > 0, updateQuantity sets (not adds to) that one item's quantity |
| `CartContext.UpdateAbsent` | context/cart-context.tsx:80-87 | updateQuantity of an absent id is a no-op for every quantity |
| `CartContext.UpdatePreservesDistinct` | context/cart-context.tsx:80-87 | updateQuantity keeps ids pairwise distinct |
| `CartContext.AddKeepsPositive` | context/cart-context.tsx:55-71 | adding a quantity ≥ 1 keeps every quantity ≥ 1 |
| `CartContext.AddAcceptsNonPositive` | context/cart-context.tsx:61-71 | adding a new product with quantity ≤ 0 creates a line item with a non-positive quantity: nothing rejects it |
| `CartContext.RemoveKeepsPositive` | context/cart-context.tsx:76-78 | removal keeps every quantity ≥ 1 |
| `CartContext.UpdateKeepsPositive` | context/cart-context.tsx:80-87 | updateQuantity keeps every quantity ≥ 1 whatever quantity it is given |
| `CartContext.TotalConcat` | context/cart-context.tsx:93-95 | the total of two lists joined is the sum of their totals |
| `CartContext.TotalIsSumOfLineTotals` | context/cart-context.tsx:93-95 | calculateTotal equals the sum of the row totals price × quantity |
| `CartContext.SumConcat` | context/cart-context.tsx:94 | the sum of a joined list of row totals is the sum of the sums |
| `CartContext.TotalPointUpdate` | context/cart-context.tsx:93-95 | replacing one item moves the total by the difference of the two line totals |
| `CartContext.TotalAfterAdd` | context/cart-context.tsx:55-95 | after addToCart(p, q) the total grows by exactly price × q, where price is the stored price of the existing item, else p.price |
| `CartContext.TotalAfterRemove` | context/cart-context.tsx:76-95 | removeFromCart lowers the total by the removed item's line total, or leaves it unchanged for an absent id |
| `CartContext.TotalAfterUpdate` | context/cart-context.tsx:80-95 | updateQuantity(id, q > 0) moves the total by price × (q − old quantity) |
| `CartContext.TotalPermutation` | context/cart-context.tsx:93-95 | the total depends only on the multiset of items, not their order |
| `CartContext.RepeatedAdds` | context/cart-context.tsx:55-74 | any run of addToCart calls for one product leaves exactly one item for that id, with its quantity grown by the sum of the quantities |
| `CartContext.CartStore.constructor` | context/cart-context.tsx:34-53 | mount: a parsable slot is loaded as the cart, an empty or unparsable slot gives an empty cart, and afterwards the slot holds the cart |
| `CartContext.CartStore.Persist` | context/cart-context.tsx:50-53 | the save effect: the slot holds exactly the current cart |
| `CartContext.CartStore.AddToCart` | context/cart-context.tsx:55-74 | the cart becomes `Add` of the old cart, distinct ids are kept, and the slot mirrors it |
| `CartContext.CartStore.RemoveFromCart` | context/cart-context.tsx:76-78 | the cart becomes `Remove` of the old cart, distinct ids are kept, and the slot mirrors it |
| `CartContext.CartStore.UpdateQuantity` | context/cart-context.tsx:80-87 | the cart becomes `Update` of the old cart, via removeFromCart when quantity ≤ 0; distinct ids are kept and the slot mirrors it |
| `CartContext.CartStore.ClearCart` | context/cart-context.tsx:89-91 | the cart is empty, its total is 0, and the slot holds the empty list |
| `CartContext.CartStore.CalculateTotal` | context/cart-context.tsx:93-95 | the left-to-right reduce from 0 returns Σ price × quantity |
| `Receipt.PaymentMethodName` | components/receipt-modal.tsx:27-37 | a known code gives its table label; any other code is returned unchanged |
| `Receipt.PaymentMethodLabels` | components/receipt-modal.tsx:28-34 | bank→"Transfer Bank", cod→"Bayar di Tempat (COD)", ovo→"OVO", gopay→"GoPay", dana→"DANA" |
| `Receipt.View` | components/receipt-modal.tsx:12-125 | nothing is rendered unless open and given data. Otherwise there is one row per item with total price × quantity; subtotal, shipping and total are shown as stored, not recomputed, together with the order number and the payment label |
| `Receipt.RowTotals` | components/receipt-modal.tsx:89-96 | the totals column, one entry per row in order |
| `Receipt.ViewRowsAreLineTotals` | components/receipt-modal.tsx:89-96 | the receipt's row totals are the items' line totals |
| `Checkout.WithField` | components/checkout-modal.tsx:46-51 | handleChange sets the named field to the value and leaves every other field and the payment method unchanged |
| `Checkout.CompleteIffAllFilled` | components/checkout-modal.tsx:62-67 | the submit guard passes exactly when none of name, email, phone and address is empty |
| `Checkout.TotalsOf` | components/checkout-modal.tsx:78-80 | shipping is 15000, subtotal is the sum of the row totals, and total = subtotal + 15000; the display at lines 135-137 uses the same function |
| `Checkout.OrderOf` | components/checkout-modal.tsx:82-92 | the payload carries the four fields, the cart items, the three sums and the payment method unchanged |
| `Checkout.ReceiptOf` | components/checkout-modal.tsx:107-111 | receipt data is the payload plus the server's order number and the stamped date |
| `Checkout.ReceiptAddsUp` | components/checkout-modal.tsx:82-111 | a receipt built from a checkout shows rows summing to its subtotal, shipping 15000, and a total equal to rows + shipping |
| `Checkout.ErrorMessage` | components/checkout-modal.tsx:116-127 | a rejected reply reports data.error, or "Failed to create order" when that is empty or absent. A thrown Error reports its message; anything else thrown reports the generic message |
| `Checkout.RejectionHasMessage` | components/checkout-modal.tsx:116-117 | a rejection from the server never yields an empty message |
| `Checkout.ReceiptHiddenAfterSuccess` | components/checkout-modal.tsx:106-115 | in the state a confirmed order leaves (checkout closed, receipt open with data), the receipt is not on screen as written, but is when rendered outside the guard |
| `Checkout.CheckoutModal.constructor` | components/checkout-modal.tsx:23-33 | the initial form has empty name, email, phone and address and payment method "bank"; not submitting; no receipt |
| `Checkout.CheckoutModal.Prefill` | components/checkout-modal.tsx:35-44 | with a user and the modal open, name, email and phone come from the profile and the rest is unchanged; otherwise nothing changes |
| `Checkout.CheckoutModal.HandleChange` | components/checkout-modal.tsx:46-51 | the form becomes `WithField` of the old form |
| `Checkout.CheckoutModal.HandlePaymentMethodChange` | components/checkout-modal.tsx:53-57 | only paymentMethod changes; the four fields are kept |
| `Checkout.CheckoutModal.HandleSubmit` | components/checkout-modal.tsx:59-131 | An incomplete form only raises a notice: no flag, no request, cart and receipt untouched. Otherwise the request carries `OrderOf(form, cart)` and `isSubmitting` ends false. On success the receipt is set, the receipt opens, close is requested and the cart is emptied. On failure the cart and receipt are unchanged and the message is `ErrorMessage` |
| `ProductDetail.ProductDetailModal.constructor` | components/product-detail-modal.tsx:25 | the quantity starts at 1 |
| `ProductDetail.ProductDetailModal.HandleDecrease` | components/product-detail-modal.tsx:29-33 | lowers the quantity by 1 only when it is above 1; it never drops below 1 |
| `ProductDetail.ProductDetailModal.HandleIncrease` | components/product-detail-modal.tsx:35-37 | raises the quantity by exactly 1 |
| `ProductDetail.ProductDetailModal.HandleAddToCart` | components/product-detail-modal.tsx:39-46 | passes the current quantity (≥ 1) to addToCart, so the item's quantity grows by it and all quantities stay positive; the stepper keeps its value and close is requested |
| `CartPanel.ViewOf` | components/shopping-cart-panel.tsx:52-111 | the empty message exactly for an empty cart; one price × quantity per row; the total shown is calculateTotal, the sum of those rows |
| `CartPanel.ShoppingCartPanel.constructor` | components/shopping-cart-panel.tsx:17 | the checkout modal starts closed |
| `CartPanel.ShoppingCartPanel.HandleClearCart` | components/shopping-cart-panel.tsx:19-27 | empties the cart only when confirmed; otherwise the cart and the slot are unchanged |
| `CartPanel.ShoppingCartPanel.HandleCheckout` | components/shopping-cart-panel.tsx:29-40 | on an empty cart: a notice, modal flag unchanged; otherwise the checkout modal opens |
| `CartPanel.ShoppingCartPanel.DecreaseItem` | components/shopping-cart-panel.tsx:78 | calls updateQuantity(id, q − 1), so at q = 1 the item is removed; positive quantities stay positive |
| `CartPanel.ShoppingCartPanel.IncreaseItem` | components/shopping-cart-panel.tsx:85 | calls updateQuantity(id, q + 1), so matching items hold exactly q + 1 |
| `CartPanel.ShoppingCartPanel.RemoveItem` | components/shopping-cart-panel.tsx:97 | removeFromCart of the row's id: no item with that id remains |
| `CartPanel.ShoppingCartPanel.CloseCheckout` | components/shopping-cart-panel.tsx:131 | the checkout modal's onClose closes it |
| `CartPanel.ShoppingCartPanel.SubmitCheckout` | components/shopping-cart-panel.tsx:131 | a request goes out exactly when the form is complete, and it is `OrderOf` the form and the cart; the form is always kept and the submitting flag ends lowered. An incomplete form gives the `FormIncomplete` notice and changes nothing. A confirmed order gives no notice, closes checkout, empties the cart and stores the receipt; the receipt is shown by `ReceiptShown` but not by `ReceiptShownAsWritten`. A failed order gives `OrderError(ErrorMessage(outcome))` and leaves the receipt state, the panel and the cart unchanged |

## Left out

- The request to `/api/orders` and `response.json()` are not modelled. Their result is the `Outcome` input. A body with `success: false` becomes `Replied`. A network failure or an unparsable body becomes `Thrown` with the error's message. The HTTP status code is not consulted, as in the code.
- Browser storage and JSON encoding are reduced to the abstract `Slot`, which holds the list itself, so the serialize/parse round trip holds by construction. Two cases are not modelled: a stored value that parses but is not a list of items, and the intermediate write of `[]` that the save effect makes on mount before the loaded list lands. The model keeps only the state after both mount effects.
- Toast texts, `console.error`, `window.print`, date formatting and `toLocaleString` are presentation, clock or locale. They are left out; the receipt keeps the stamped date string.
- React effect scheduling, state batching and the `useCart` outside-provider error are framework behaviour and are left out. So is the async window in which `isSubmitting` disables the submit button against a second submission.
- `handleChange` accepts any input `name`. Only the four inputs of the form exist, so the model takes a `Field`.
- `Receipt.PaymentMethodName`: inherited object keys such as `toString` would return a function in the source. Codes only come from the five radio buttons, so every other code is modelled as passed through.
- JavaScript numbers are doubles. Rounding and the safe-integer limit are not modelled.
- `CartContext.AddExisting`, `CartContext.UpdateSets`, `CartContext.RemoveSplice`, `CartContext.TotalAfterAdd`, `CartContext.TotalAfterRemove` and `CartContext.TotalAfterUpdate` are stated for carts with distinct ids. A cart with duplicate ids could only come from a hand-edited storage slot. In such a cart, `Add` and `Update` change every matching item and `Remove` drops them all; the function contracts of `Add`, `Remove` and `Update` still cover that case.

## Findings

| source | as written | input that shows it | evidently intended | confidence | as-written member | corrected member |
|---|---|---|---|---|---|---|
| components/checkout-modal.tsx:133 | The success path calls `onClose()` and then `setIsReceiptModalOpen(true)`. The receipt modal (lines 405-411) is rendered inside the tree that returns `null` once the checkout's `isOpen` is false. | Any successful submission. The panel's `isCheckoutModalOpen` becomes false, so nothing is rendered although `isReceiptModalOpen` is true and `receiptData` is set. The receipt only appears, stale, if checkout is reopened after the cart has been refilled, since an empty cart cannot open it. | The receipt is shown after a confirmed order | not executed; high | `Checkout.ReceiptHiddenAfterSuccess` (over `Checkout.ReceiptShownAsWritten`) | `CartPanel.ShoppingCartPanel.SubmitCheckout` (over `Checkout.ReceiptShown`) |
