/** The checkout form and its submission (components/checkout-modal.tsx). The
    order request is not sent from here: its outcome is an input, so is the
    time stamped on the receipt. */
module Checkout {
  import opened CartContext
  import opened Receipt

  /** The form state: four contact fields and the payment-method code. */
  datatype FormData = FormData(name: string, email: string, phone: string, address: string, paymentMethod: string)

  /** The four text inputs, by their `name` attribute. */
  datatype Field = Name | Email | Phone | Address

  /** The form as the modal first shows it. */
  const InitialForm := FormData("", "", "", "", "bank")

  /** The flat shipping fee, in rupiah. */
  const Shipping := 15000

  const OrderFailed := "Failed to create order"
  const UnknownFailure := "An error occurred while processing your order"

  function FieldValue(form: FormData, field: Field): string {
    match field
    case Name => form.name
    case Email => form.email
    case Phone => form.phone
    case Address => form.address
  }

  /** handleChange's update: `{ ...prev, [name]: value }`. */
  function WithField(form: FormData, field: Field, value: string): (r: FormData)
    ensures FieldValue(r, field) == value
    ensures forall other :: other != field ==> FieldValue(r, other) == FieldValue(form, other)
    ensures r.paymentMethod == form.paymentMethod
  {
    match field
    case Name => form.(name := value)
    case Email => form.(email := value)
    case Phone => form.(phone := value)
    case Address => form.(address := value)
  }

  /** The guard of handleSubmit: no contact field may be empty. */
  predicate Complete(form: FormData) {
    form.name != "" && form.email != "" && form.phone != "" && form.address != ""
  }

  /** The form is complete exactly when every one of the four fields is filled. */
  lemma CompleteIffAllFilled(form: FormData)
    ensures Complete(form) <==> forall f :: FieldValue(form, f) != ""
  {
    if !Complete(form) {
      var f := if form.name == "" then Name else if form.email == "" then Email
               else if form.phone == "" then Phone else Address;
      assert FieldValue(form, f) == "";
    }
  }

  /** The three sums shown beside the form and sent with the order. */
  datatype Totals = Totals(subtotal: int, shipping: int, total: int)

  /** subtotal from calculateTotal, the flat fee, and their sum. */
  function TotalsOf(cart: seq<CartItem>): (t: Totals)
    ensures t.shipping == Shipping
    ensures t.subtotal == Sum(LineTotals(cart))
    ensures t.total == Sum(LineTotals(cart)) + Shipping
  {
    TotalIsSumOfLineTotals(cart);
    var subtotal := Total(cart);
    Totals(subtotal, Shipping, subtotal + Shipping)
  }

  /** The payload of the create-order request. */
  datatype Order = Order(
    customerName: string, email: string, phone: string, address: string,
    items: seq<CartItem>, subtotal: int, shipping: int, total: int, paymentMethod: string)

  /** Order assembly from the form and the cart. */
  function OrderOf(form: FormData, cart: seq<CartItem>): (o: Order)
    ensures o.customerName == form.name && o.email == form.email
    ensures o.phone == form.phone && o.address == form.address
    ensures o.items == cart && o.paymentMethod == form.paymentMethod
    ensures Totals(o.subtotal, o.shipping, o.total) == TotalsOf(cart)
  {
    var t := TotalsOf(cart);
    Order(form.name, form.email, form.phone, form.address, cart, t.subtotal, t.shipping, t.total, form.paymentMethod)
  }

  /** The receipt data of a confirmed order: the payload, the order number the
      server issued, and the time stamped on the client. */
  function ReceiptOf(order: Order, orderNumber: string, orderDate: string): (r: ReceiptData)
    ensures r.customerName == order.customerName && r.email == order.email
    ensures r.phone == order.phone && r.address == order.address
    ensures r.items == order.items && r.paymentMethod == order.paymentMethod
    ensures r.subtotal == order.subtotal && r.shipping == order.shipping && r.total == order.total
    ensures r.orderNumber == orderNumber && r.orderDate == orderDate
  {
    ReceiptData(order.customerName, order.email, order.phone, order.address, order.items,
                order.subtotal, order.shipping, order.total, order.paymentMethod, orderNumber, orderDate)
  }

  /** A receipt built from a checkout shows rows whose sum, plus the shipping
      row, is the total it shows. */
  lemma ReceiptAddsUp(form: FormData, cart: seq<CartItem>, orderNumber: string, orderDate: string)
    ensures var v := View(true, Some(ReceiptOf(OrderOf(form, cart), orderNumber, orderDate)));
      v.Some? && Sum(RowTotals(v.value.rows)) + v.value.shipping == v.value.total &&
      Sum(RowTotals(v.value.rows)) == v.value.subtotal && v.value.shipping == Shipping
  {
    var data := ReceiptOf(OrderOf(form, cart), orderNumber, orderDate);
    ViewRowsAreLineTotals(true, data);
  }

  /** The JSON body of the order endpoint's answer. An empty `error` stands
      for a missing or empty one. */
  datatype Reply = Reply(success: bool, orderNumber: string, error: string)

  /** How the request ended: with a body, or with a thrown value that is an
      Error carrying a message (Some) or something else (None). */
  datatype Outcome = Replied(reply: Reply) | Thrown(message: Option<string>)

  predicate Succeeded(outcome: Outcome) {
    outcome.Replied? && outcome.reply.success
  }

  /** The message the error toast reports for a failed submission. */
  function ErrorMessage(outcome: Outcome): (m: string)
    requires !Succeeded(outcome)
    ensures outcome.Replied? ==> m == (if outcome.reply.error != "" then outcome.reply.error else OrderFailed)
    ensures outcome.Thrown? && outcome.message.Some? ==> m == outcome.message.value
    ensures outcome.Thrown? && outcome.message.None? ==> m == UnknownFailure
  {
    match outcome
    case Replied(reply) => if reply.error != "" then reply.error else OrderFailed
    case Thrown(message) => if message.Some? then message.value else UnknownFailure
  }

  /** A rejection from the server is never reported with an empty message. */
  lemma RejectionHasMessage(outcome: Outcome)
    requires outcome.Replied? && !outcome.reply.success
    ensures ErrorMessage(outcome) != ""
  {
  }

  /** The toast handleSubmit raises, if any. */
  datatype Notice = Silent | FormIncomplete | OrderError(message: string)

  /** The signed-in user's profile; an empty string stands for a missing field. */
  datatype User = User(name: string, email: string, phone: string)

  /** The receipt on screen as the component tree is written: the receipt
      modal sits inside the checkout modal, which renders nothing at all once
      its own `isOpen` is false. */
  predicate ReceiptShownAsWritten(checkoutOpen: bool, isReceiptModalOpen: bool, receiptData: Option<ReceiptData>) {
    checkoutOpen && receiptData.Some? && Renders(isReceiptModalOpen, receiptData)
  }

  /** The receipt on screen when it is rendered beside, not inside, the
      checkout modal's guarded tree. */
  predicate ReceiptShown(isReceiptModalOpen: bool, receiptData: Option<ReceiptData>) {
    receiptData.Some? && Renders(isReceiptModalOpen, receiptData)
  }

  /** After a confirmed order the checkout modal is closed and the receipt is
      open with data: as written nothing is on screen, while the receipt
      rendered outside the guard is shown. */
  lemma ReceiptHiddenAfterSuccess(data: ReceiptData)
    ensures !ReceiptShownAsWritten(false, true, Some(data))
    ensures ReceiptShown(true, Some(data))
    ensures View(true, Some(data)).Some?
  {
  }

  class CheckoutModal {
    const store: CartStore
    var formData: FormData
    var isSubmitting: bool
    var receiptData: Option<ReceiptData>
    var isReceiptModalOpen: bool

    constructor (store: CartStore)
      ensures this.store == store
      ensures formData == InitialForm && !isSubmitting
      ensures receiptData == None && !isReceiptModalOpen
    {
      this.store := store;
      formData := InitialForm;
      isSubmitting := false;
      receiptData := None;
      isReceiptModalOpen := false;
    }

    /** The effect that fills name, email and phone from the signed-in user
        whenever the modal is open; the address and payment method stay. */
    method Prefill(user: Option<User>, isOpen: bool)
      modifies this`formData
      ensures user.Some? && isOpen ==>
        formData == old(formData).(name := user.value.name, email := user.value.email, phone := user.value.phone)
      ensures !(user.Some? && isOpen) ==> formData == old(formData)
    {
      if user.Some? && isOpen {
        formData := formData.(name := user.value.name, email := user.value.email, phone := user.value.phone);
      }
    }

    method HandleChange(field: Field, value: string)
      modifies this`formData
      ensures formData == WithField(old(formData), field, value)
    {
      formData := WithField(formData, field, value);
    }

    method HandlePaymentMethodChange(value: string)
      modifies this`formData
      ensures formData.paymentMethod == value
      ensures forall f :: FieldValue(formData, f) == FieldValue(old(formData), f)
    {
      formData := formData.(paymentMethod := value);
    }

    /** handleSubmit. An incomplete form stops before anything else happens.
        Otherwise the order is assembled and sent; a successful reply stores
        the receipt, asks the parent to close the modal, opens the receipt and
        empties the cart; any failure only reports a message. The submitting
        flag is lowered again on every path that raised it. */
    method HandleSubmit(outcome: Outcome, now: string) returns (request: Option<Order>, closeRequested: bool, notice: Notice)
      requires store.Valid()
      modifies this, store
      ensures store.Valid()
      ensures formData == old(formData)
      ensures !Complete(old(formData)) ==>
        request == None && !closeRequested && notice == FormIncomplete &&
        isSubmitting == old(isSubmitting) && receiptData == old(receiptData) &&
        isReceiptModalOpen == old(isReceiptModalOpen) && store.cart == old(store.cart)
      ensures Complete(old(formData)) ==>
        request == Some(OrderOf(old(formData), old(store.cart))) && !isSubmitting
      ensures Complete(old(formData)) && Succeeded(outcome) ==>
        receiptData == Some(ReceiptOf(request.value, outcome.reply.orderNumber, now)) &&
        isReceiptModalOpen && closeRequested && notice == Silent &&
        store.cart == [] && Total(store.cart) == 0
      ensures Complete(old(formData)) && !Succeeded(outcome) ==>
        receiptData == old(receiptData) && isReceiptModalOpen == old(isReceiptModalOpen) &&
        !closeRequested && notice == OrderError(ErrorMessage(outcome)) &&
        store.cart == old(store.cart)
    {
      if !Complete(formData) {
        return None, false, FormIncomplete;
      }
      isSubmitting := true;

      var subtotal := store.CalculateTotal();
      var shipping := Shipping;
      var total := subtotal + shipping;
      var order := Order(formData.name, formData.email, formData.phone, formData.address,
                         store.cart, subtotal, shipping, total, formData.paymentMethod);
      request := Some(order);

      if Succeeded(outcome) {
        receiptData := Some(ReceiptOf(order, outcome.reply.orderNumber, now));
        closeRequested := true;
        isReceiptModalOpen := true;
        store.ClearCart();
        notice := Silent;
      } else {
        closeRequested := false;
        notice := OrderError(ErrorMessage(outcome));
      }
      isSubmitting := false;
    }
  }
}
