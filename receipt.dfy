/** The receipt view (components/receipt-modal.tsx): a read-only rendering of
    the data a confirmed order produced. Nothing here changes state. */
module Receipt {
  import opened CartContext

  /** What the checkout hands over once the order is confirmed: the order
      payload, the server's order number and the time it was stamped. */
  datatype ReceiptData = ReceiptData(
    customerName: string, email: string, phone: string, address: string,
    items: seq<CartItem>, subtotal: int, shipping: int, total: int,
    paymentMethod: string, orderNumber: string, orderDate: string)

  /** The fixed table of payment-method labels. */
  const MethodLabels: map<string, string> := map[
    "bank" := "Transfer Bank",
    "cod" := "Bayar di Tempat (COD)",
    "ovo" := "OVO",
    "gopay" := "GoPay",
    "dana" := "DANA"]

  /** getPaymentMethodName: the label of a known code; any other code (or a
      code whose label were empty) is shown as it is. */
  function PaymentMethodName(code: string): (r: string)
    ensures code in MethodLabels ==> r == MethodLabels[code]
    ensures code !in MethodLabels ==> r == code
  {
    if code in MethodLabels && MethodLabels[code] != "" then MethodLabels[code] else code
  }

  /** The five labels the checkout's payment choices are shown with. */
  lemma PaymentMethodLabels()
    ensures PaymentMethodName("bank") == "Transfer Bank"
    ensures PaymentMethodName("cod") == "Bayar di Tempat (COD)"
    ensures PaymentMethodName("ovo") == "OVO"
    ensures PaymentMethodName("gopay") == "GoPay"
    ensures PaymentMethodName("dana") == "DANA"
  {
  }

  /** The null-render guard: the receipt draws only when open and given data. */
  predicate Renders(isOpen: bool, receiptData: Option<ReceiptData>) {
    isOpen && receiptData.Some?
  }

  /** One row of the items table. */
  datatype Row = Row(name: string, price: int, quantity: int, total: int)

  /** Everything the receipt shows. The date is kept as stamped: its locale
      formatting is not modelled. */
  datatype ReceiptView = ReceiptView(
    orderDate: string, orderNumber: string,
    customerName: string, email: string, phone: string, address: string,
    rows: seq<Row>, subtotal: int, shipping: int, total: int, paymentLabel: string)

  function RowOf(item: CartItem): Row {
    Row(item.name, item.price, item.quantity, LineTotal(item))
  }

  /** The rendered receipt, or nothing when the guard fails. Rows carry
      price x quantity; the three sums are shown exactly as stored. */
  function View(isOpen: bool, receiptData: Option<ReceiptData>): (r: Option<ReceiptView>)
    ensures r.Some? <==> Renders(isOpen, receiptData)
    ensures r.Some? ==> |r.value.rows| == |receiptData.value.items|
    ensures r.Some? ==> forall i :: 0 <= i < |r.value.rows| ==>
      r.value.rows[i].total == receiptData.value.items[i].price * receiptData.value.items[i].quantity
    ensures r.Some? ==>
      r.value.subtotal == receiptData.value.subtotal &&
      r.value.shipping == receiptData.value.shipping &&
      r.value.total == receiptData.value.total
    ensures r.Some? ==> r.value.orderNumber == receiptData.value.orderNumber
    ensures r.Some? ==> r.value.paymentLabel == PaymentMethodName(receiptData.value.paymentMethod)
  {
    if !Renders(isOpen, receiptData) then None
    else
      var d := receiptData.value;
      Some(ReceiptView(
        d.orderDate, d.orderNumber, d.customerName, d.email, d.phone, d.address,
        seq(|d.items|, i requires 0 <= i < |d.items| => RowOf(d.items[i])),
        d.subtotal, d.shipping, d.total, PaymentMethodName(d.paymentMethod)))
  }

  /** The row totals of a rendered receipt, in order. */
  function RowTotals(rows: seq<Row>): (r: seq<int>)
    ensures |r| == |rows|
    ensures forall i :: 0 <= i < |rows| ==> r[i] == rows[i].total
  {
    seq(|rows|, i requires 0 <= i < |rows| => rows[i].total)
  }

  /** The receipt's rows are the cart's line totals. */
  lemma ViewRowsAreLineTotals(isOpen: bool, data: ReceiptData)
    requires isOpen
    ensures View(isOpen, Some(data)).Some?
    ensures RowTotals(View(isOpen, Some(data)).value.rows) == LineTotals(data.items)
  {
  }
}
