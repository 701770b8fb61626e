/** The shopping cart panel (components/shopping-cart-panel.tsx): the list with
    its -/+ and remove buttons, the clear and checkout buttons, and the
    checkout modal it owns. */
module CartPanel {
  import opened CartContext
  import opened Checkout

  /** What the panel shows: one price per row and the cart total. */
  datatype PanelView = PanelView(empty: bool, rows: seq<int>, total: int)

  function ViewOf(cart: seq<CartItem>): (v: PanelView)
    ensures v.empty <==> |cart| == 0
    ensures |v.rows| == |cart|
    ensures forall i :: 0 <= i < |cart| ==> v.rows[i] == cart[i].price * cart[i].quantity
    ensures v.total == Sum(v.rows)
  {
    TotalIsSumOfLineTotals(cart);
    PanelView(|cart| == 0, LineTotals(cart), Total(cart))
  }

  class ShoppingCartPanel {
    const store: CartStore
    const checkout: CheckoutModal
    var isCheckoutModalOpen: bool

    ghost predicate Valid()
      reads this, checkout, store
    {
      checkout.store == store && store.Valid()
    }

    constructor (store: CartStore)
      requires store.Valid()
      ensures Valid() && this.store == store && fresh(checkout)
      ensures !isCheckoutModalOpen
      ensures checkout.formData == InitialForm && checkout.receiptData == None
    {
      this.store := store;
      checkout := new CheckoutModal(store);
      isCheckoutModalOpen := false;
    }

    /** Clear only once the user confirms. */
    method HandleClearCart(confirmed: bool)
      requires Valid()
      modifies store
      ensures Valid()
      ensures confirmed ==> store.cart == [] && Total(store.cart) == 0
      ensures !confirmed ==> store.cart == old(store.cart) && store.slot == old(store.slot)
    {
      if confirmed {
        store.ClearCart();
      }
    }

    /** Open checkout, except on an empty cart, which only raises a notice. */
    method HandleCheckout() returns (emptyNotice: bool)
      requires Valid()
      modifies this`isCheckoutModalOpen
      ensures emptyNotice <==> |store.cart| == 0
      ensures |store.cart| == 0 ==> isCheckoutModalOpen == old(isCheckoutModalOpen)
      ensures |store.cart| != 0 ==> isCheckoutModalOpen
    {
      if |store.cart| == 0 {
        return true;
      }
      isCheckoutModalOpen := true;
      emptyNotice := false;
    }

    /** The - button of a row: one less, which removes the item at one. */
    method DecreaseItem(item: CartItem)
      requires Valid()
      modifies store
      ensures Valid()
      ensures store.cart == Update(old(store.cart), item.id, item.quantity - 1)
      ensures item.quantity <= 1 ==> store.cart == Remove(old(store.cart), item.id) && !HasId(store.cart, item.id)
      ensures AllPositive(old(store.cart)) ==> AllPositive(store.cart)
    {
      if AllPositive(store.cart) {
        UpdateKeepsPositive(store.cart, item.id, item.quantity - 1);
      }
      store.UpdateQuantity(item.id, item.quantity - 1);
    }

    /** The + button of a row: the row's quantity plus one, set absolutely. */
    method IncreaseItem(item: CartItem)
      requires Valid()
      modifies store
      ensures Valid()
      ensures store.cart == Update(old(store.cart), item.id, item.quantity + 1)
      ensures item.quantity >= 0 ==> forall i :: 0 <= i < |store.cart| && store.cart[i].id == item.id ==>
        store.cart[i].quantity == item.quantity + 1
      ensures AllPositive(old(store.cart)) ==> AllPositive(store.cart)
    {
      if AllPositive(store.cart) {
        UpdateKeepsPositive(store.cart, item.id, item.quantity + 1);
      }
      store.UpdateQuantity(item.id, item.quantity + 1);
    }

    /** The trash button of a row. */
    method RemoveItem(item: CartItem)
      requires Valid()
      modifies store
      ensures Valid()
      ensures store.cart == Remove(old(store.cart), item.id) && !HasId(store.cart, item.id)
    {
      store.RemoveFromCart(item.id);
    }

    /** The checkout modal's onClose. */
    method CloseCheckout()
      modifies this`isCheckoutModalOpen
      ensures !isCheckoutModalOpen
    {
      isCheckoutModalOpen := false;
    }

    /** Submitting the checkout form, with the modal's onClose wired to this
        panel. A confirmed order leaves the checkout closed and the receipt
        open: the receipt is then hidden as the tree is written, and shown when
        rendered outside the checkout's guard. */
    method SubmitCheckout(outcome: Outcome, now: string) returns (request: Option<Order>, notice: Notice)
      requires Valid()
      modifies this, checkout, store
      ensures Valid()
      ensures checkout.formData == old(checkout.formData)
      ensures request.Some? <==> Complete(old(checkout.formData))
      ensures request.Some? ==> request.value == OrderOf(old(checkout.formData), old(store.cart)) && !checkout.isSubmitting
      ensures request.None? ==>
        notice == FormIncomplete && checkout.isSubmitting == old(checkout.isSubmitting) &&
        checkout.receiptData == old(checkout.receiptData) &&
        checkout.isReceiptModalOpen == old(checkout.isReceiptModalOpen)
      ensures request.Some? && Succeeded(outcome) ==> notice == Silent
      ensures request.Some? && !Succeeded(outcome) ==>
        notice == OrderError(ErrorMessage(outcome)) &&
        checkout.receiptData == old(checkout.receiptData) &&
        checkout.isReceiptModalOpen == old(checkout.isReceiptModalOpen)
      ensures request.Some? && Succeeded(outcome) ==>
        !isCheckoutModalOpen && store.cart == [] &&
        checkout.receiptData == Some(ReceiptOf(request.value, outcome.reply.orderNumber, now)) &&
        ReceiptShown(checkout.isReceiptModalOpen, checkout.receiptData) &&
        !ReceiptShownAsWritten(isCheckoutModalOpen, checkout.isReceiptModalOpen, checkout.receiptData)
      ensures !(request.Some? && Succeeded(outcome)) ==>
        isCheckoutModalOpen == old(isCheckoutModalOpen) && store.cart == old(store.cart)
    {
      var closeRequested;
      request, closeRequested, notice := checkout.HandleSubmit(outcome, now);
      if closeRequested {
        CloseCheckout();
      }
    }
  }
}
