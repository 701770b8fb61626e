/** The cart store that CartProvider holds (context/cart-context.tsx): a list of
    line items keyed by product id, the five operations on it, and the storage
    slot that mirrors it. The list transforms are pure functions; the store that
    holds the list and rewrites the slot is the class CartStore. */
module CartContext {

  datatype Option<T> = None | Some(value: T)

  /** A catalogue product as addToCart receives it. */
  datatype Product = Product(id: string, name: string, price: int, image: string)

  /** One line of the cart: a snapshot of the product plus a quantity. */
  datatype CartItem = CartItem(id: string, name: string, price: int, image: string, quantity: int)

  /** The summand of calculateTotal, also the per-row price the views show. */
  function LineTotal(item: CartItem): int {
    item.price * item.quantity
  }

  /** The row totals of a list of items, one per item, in order. */
  function LineTotals(items: seq<CartItem>): (r: seq<int>)
    ensures |r| == |items|
    ensures forall i :: 0 <= i < |items| ==> r[i] == items[i].price * items[i].quantity
  {
    seq(|items|, i requires 0 <= i < |items| => LineTotal(items[i]))
  }

  predicate HasId(cart: seq<CartItem>, id: string) {
    exists i :: 0 <= i < |cart| && cart[i].id == id
  }

  /** At most one line item per product id. */
  predicate DistinctIds(cart: seq<CartItem>) {
    forall i, j :: 0 <= i < j < |cart| ==> cart[i].id != cart[j].id
  }

  /** Every line item has a quantity of at least one. */
  predicate AllPositive(cart: seq<CartItem>) {
    forall i :: 0 <= i < |cart| ==> cart[i].quantity >= 1
  }

  /** The position of the item that `find(item => item.id === id)` returns. */
  function Find(cart: seq<CartItem>, id: string): (r: Option<nat>)
    ensures r.None? <==> !HasId(cart, id)
    ensures r.Some? ==> r.value < |cart| && cart[r.value].id == id
    ensures r.Some? ==> forall j :: 0 <= j < r.value ==> cart[j].id != id
  {
    if |cart| == 0 then None
    else if cart[0].id == id then Some(0)
    else match Find(cart[1..], id)
      case None =>
        assert forall j :: 1 <= j < |cart| ==> cart[1..][j - 1] == cart[j];
        None
      case Some(k) => Some(k + 1)
  }

  /** The quantity of the first item with this id, or 0 when there is none. */
  function QuantityOf(cart: seq<CartItem>, id: string): int {
    match Find(cart, id)
    case Some(k) => cart[k].quantity
    case None => 0
  }

  /** The `map` of addToCart: every item with this id gains `quantity`. */
  function Increment(cart: seq<CartItem>, id: string, quantity: int): seq<CartItem> {
    seq(|cart|, i requires 0 <= i < |cart| =>
      if cart[i].id == id then cart[i].(quantity := cart[i].quantity + quantity) else cart[i])
  }

  /** The `map` of updateQuantity: every item with this id gets `quantity`. */
  function SetQuantity(cart: seq<CartItem>, id: string, quantity: int): seq<CartItem> {
    seq(|cart|, i requires 0 <= i < |cart| =>
      if cart[i].id == id then cart[i].(quantity := quantity) else cart[i])
  }

  /** The item addToCart appends for a product not yet in the cart. */
  function NewItem(product: Product, quantity: int): CartItem {
    CartItem(product.id, product.name, product.price, product.image, quantity)
  }

  /** addToCart: merge into the existing item, or append a new one. */
  function Add(cart: seq<CartItem>, product: Product, quantity: int): (r: seq<CartItem>)
    ensures HasId(cart, product.id) ==> |r| == |cart|
    ensures !HasId(cart, product.id) ==> |r| == |cart| + 1 && r[|cart|] == NewItem(product, quantity)
    ensures forall i :: 0 <= i < |cart| ==>
      r[i].id == cart[i].id && r[i].name == cart[i].name &&
      r[i].price == cart[i].price && r[i].image == cart[i].image
    ensures forall i :: 0 <= i < |cart| && cart[i].id != product.id ==> r[i] == cart[i]
    ensures forall i :: 0 <= i < |cart| && cart[i].id == product.id ==>
      r[i].quantity == cart[i].quantity + quantity
  {
    if Find(cart, product.id).Some? then Increment(cart, product.id, quantity)
    else cart + [NewItem(product, quantity)]
  }

  /** removeFromCart: the `filter` that keeps every item with another id, and
      only those. */
  function Remove(cart: seq<CartItem>, id: string): (r: seq<CartItem>)
    ensures forall i :: 0 <= i < |r| ==> r[i].id != id
    ensures forall x :: x in r <==> x in cart && x.id != id
    ensures |r| <= |cart|
  {
    if |cart| == 0 then []
    else if cart[0].id == id then Remove(cart[1..], id)
    else [cart[0]] + Remove(cart[1..], id)
  }

  /** updateQuantity: a quantity of zero or less removes the item, any other
      quantity replaces the item's quantity. */
  function Update(cart: seq<CartItem>, id: string, quantity: int): (r: seq<CartItem>)
    ensures quantity > 0 ==> |r| == |cart|
    ensures quantity > 0 ==> forall i :: 0 <= i < |cart| ==>
      r[i].id == cart[i].id && r[i].name == cart[i].name &&
      r[i].price == cart[i].price && r[i].image == cart[i].image
    ensures quantity > 0 ==> forall i :: 0 <= i < |cart| && cart[i].id != id ==> r[i] == cart[i]
    ensures quantity > 0 ==> forall i :: 0 <= i < |cart| && cart[i].id == id ==> r[i].quantity == quantity
    ensures quantity <= 0 ==> !HasId(r, id)
  {
    if quantity <= 0 then Remove(cart, id) else SetQuantity(cart, id, quantity)
  }

  /** calculateTotal: `reduce` from the left, starting at 0. */
  function Total(cart: seq<CartItem>): int {
    if |cart| == 0 then 0 else Total(cart[..|cart| - 1]) + LineTotal(cart[|cart| - 1])
  }

  // ---------------------------------------------------------------------------
  // Lemmas about the list operations
  // ---------------------------------------------------------------------------

  /** Two lists with the same ids in the same places agree on Find. */
  lemma {:induction false} FindSameIds(a: seq<CartItem>, b: seq<CartItem>, id: string)
    requires |a| == |b|
    requires forall i :: 0 <= i < |a| ==> a[i].id == b[i].id
    ensures Find(a, id) == Find(b, id)
  {
    if |a| > 0 && a[0].id != id {
      FindSameIds(a[1..], b[1..], id);
    }
  }

  /** addToCart for an id already present: that item's quantity grows by
      `quantity`, the list keeps its length and every other item. */
  lemma AddExisting(cart: seq<CartItem>, product: Product, quantity: int, k: nat)
    requires DistinctIds(cart)
    requires k < |cart| && cart[k].id == product.id
    ensures Add(cart, product, quantity) == cart[k := cart[k].(quantity := cart[k].quantity + quantity)]
  {
  }

  /** addToCart for a new id appends exactly one item and keeps the rest. */
  lemma AddNew(cart: seq<CartItem>, product: Product, quantity: int)
    requires !HasId(cart, product.id)
    ensures Add(cart, product, quantity) == cart + [NewItem(product, quantity)]
  {
  }

  /** addToCart adds `quantity` to the quantity held for the product's id. */
  lemma AddQuantity(cart: seq<CartItem>, product: Product, quantity: int)
    ensures HasId(Add(cart, product, quantity), product.id)
    ensures QuantityOf(Add(cart, product, quantity), product.id) == QuantityOf(cart, product.id) + quantity
  {
    var r := Add(cart, product, quantity);
    match Find(cart, product.id)
    case Some(k) =>
      FindSameIds(r, cart, product.id);
    case None =>
      assert r[|cart|].id == product.id;
      var f := Find(r, product.id);
      assert f == Some(|cart|);
  }

  lemma {:induction false} AddPreservesDistinct(cart: seq<CartItem>, product: Product, quantity: int)
    requires DistinctIds(cart)
    ensures DistinctIds(Add(cart, product, quantity))
  {
  }

  /** removeFromCart is a no-op when the id is absent. */
  lemma {:induction false} RemoveAbsent(cart: seq<CartItem>, id: string)
    requires !HasId(cart, id)
    ensures Remove(cart, id) == cart
  {
    if |cart| > 0 {
      assert !HasId(cart[1..], id) by {
        forall j | 0 <= j < |cart[1..]| ensures cart[1..][j].id != id {
          assert cart[1..][j] == cart[j + 1];
        }
      }
      RemoveAbsent(cart[1..], id);
      assert cart == [cart[0]] + cart[1..];
    }
  }

  lemma DistinctTail(cart: seq<CartItem>)
    requires DistinctIds(cart) && |cart| > 0
    ensures DistinctIds(cart[1..])
    ensures !HasId(cart[1..], cart[0].id)
  {
    assert forall j :: 0 <= j < |cart| - 1 ==> cart[1..][j] == cart[j + 1];
  }

  /** removeFromCart distributes over joined lists. */
  lemma {:induction false} RemoveConcat(a: seq<CartItem>, b: seq<CartItem>, id: string)
    ensures Remove(a + b, id) == Remove(a, id) + Remove(b, id)
  {
    if |a| == 0 {
      assert a + b == b;
    } else {
      assert (a + b)[0] == a[0];
      assert (a + b)[1..] == a[1..] + b;
      RemoveConcat(a[1..], b, id);
    }
  }

  /** With distinct ids, removeFromCart cuts out exactly the matching item and
      keeps the others in their original order. */
  lemma RemoveSplice(cart: seq<CartItem>, id: string, k: nat)
    requires DistinctIds(cart)
    requires k < |cart| && cart[k].id == id
    ensures Remove(cart, id) == cart[..k] + cart[k + 1..]
  {
    var pre, post := cart[..k], cart[k + 1..];
    assert cart == pre + ([cart[k]] + post);
    RemoveConcat(pre, [cart[k]] + post, id);
    RemoveConcat([cart[k]], post, id);
    assert !HasId(pre, id) by {
      forall j | 0 <= j < |pre| ensures pre[j].id != id {
        assert pre[j] == cart[j];
      }
    }
    assert !HasId(post, id) by {
      forall j | 0 <= j < |post| ensures post[j].id != id {
        assert post[j] == cart[k + 1 + j];
      }
    }
    RemoveAbsent(pre, id);
    RemoveAbsent(post, id);
    assert Remove([cart[k]], id) == Remove([], id);
  }

  lemma {:induction false} RemovePreservesDistinct(cart: seq<CartItem>, id: string)
    requires DistinctIds(cart)
    ensures DistinctIds(Remove(cart, id))
  {
    if |cart| > 0 {
      DistinctTail(cart);
      RemovePreservesDistinct(cart[1..], id);
      var rest := Remove(cart[1..], id);
      if cart[0].id != id {
        forall j | 0 <= j < |rest| ensures rest[j].id != cart[0].id {
          assert rest[j] in rest;
        }
      }
    }
  }

  /** updateQuantity with a quantity of zero or less is removeFromCart. */
  lemma UpdateNonPositiveIsRemove(cart: seq<CartItem>, id: string, quantity: int)
    requires quantity <= 0
    ensures Update(cart, id, quantity) == Remove(cart, id)
  {
  }

  /** updateQuantity with a positive quantity sets (does not add to) the
      matching item's quantity and changes nothing else. */
  lemma UpdateSets(cart: seq<CartItem>, id: string, quantity: int, k: nat)
    requires DistinctIds(cart)
    requires quantity > 0 && k < |cart| && cart[k].id == id
    ensures Update(cart, id, quantity) == cart[k := cart[k].(quantity := quantity)]
  {
  }

  /** updateQuantity on an absent id changes nothing, whatever the quantity. */
  lemma UpdateAbsent(cart: seq<CartItem>, id: string, quantity: int)
    requires !HasId(cart, id)
    ensures Update(cart, id, quantity) == cart
  {
    if quantity <= 0 {
      RemoveAbsent(cart, id);
    }
  }

  lemma UpdatePreservesDistinct(cart: seq<CartItem>, id: string, quantity: int)
    requires DistinctIds(cart)
    ensures DistinctIds(Update(cart, id, quantity))
  {
    if quantity <= 0 {
      RemovePreservesDistinct(cart, id);
    }
  }

  // ---------------------------------------------------------------------------
  // Lemmas about positive quantities
  // ---------------------------------------------------------------------------

  lemma AddKeepsPositive(cart: seq<CartItem>, product: Product, quantity: int)
    requires AllPositive(cart) && quantity >= 1
    ensures AllPositive(Add(cart, product, quantity))
  {
  }

  /** addToCart does not reject a non-positive quantity: a new product added
      with one creates a line item whose quantity is not positive. */
  lemma AddAcceptsNonPositive(cart: seq<CartItem>, product: Product, quantity: int)
    requires !HasId(cart, product.id) && quantity <= 0
    ensures !AllPositive(Add(cart, product, quantity))
  {
    assert Add(cart, product, quantity)[|cart|].quantity == quantity;
  }

  lemma RemoveKeepsPositive(cart: seq<CartItem>, id: string)
    requires AllPositive(cart)
    ensures AllPositive(Remove(cart, id))
  {
    forall i | 0 <= i < |Remove(cart, id)| ensures Remove(cart, id)[i].quantity >= 1 {
      assert Remove(cart, id)[i] in Remove(cart, id);
    }
  }

  lemma UpdateKeepsPositive(cart: seq<CartItem>, id: string, quantity: int)
    requires AllPositive(cart)
    ensures AllPositive(Update(cart, id, quantity))
  {
    if quantity <= 0 {
      RemoveKeepsPositive(cart, id);
    }
  }

  // ---------------------------------------------------------------------------
  // Lemmas about the total
  // ---------------------------------------------------------------------------

  lemma {:induction false} TotalConcat(a: seq<CartItem>, b: seq<CartItem>)
    ensures Total(a + b) == Total(a) + Total(b)
  {
    if |b| > 0 {
      assert (a + b)[..|a + b| - 1] == a + b[..|b| - 1];
      TotalConcat(a, b[..|b| - 1]);
    } else {
      assert a + b == a;
    }
  }

  /** The total is the sum of the row totals the views display. */
  lemma {:induction false} TotalIsSumOfLineTotals(cart: seq<CartItem>)
    ensures Total(cart) == Sum(LineTotals(cart))
  {
    if |cart| > 0 {
      var n := |cart| - 1;
      TotalIsSumOfLineTotals(cart[..n]);
      assert LineTotals(cart) == LineTotals(cart[..n]) + [LineTotal(cart[n])];
      SumConcat(LineTotals(cart[..n]), [LineTotal(cart[n])]);
    }
  }

  function Sum(xs: seq<int>): int {
    if |xs| == 0 then 0 else xs[0] + Sum(xs[1..])
  }

  lemma {:induction false} SumConcat(a: seq<int>, b: seq<int>)
    ensures Sum(a + b) == Sum(a) + Sum(b)
  {
    if |a| > 0 {
      assert (a + b)[1..] == a[1..] + b;
      SumConcat(a[1..], b);
    } else {
      assert a + b == b;
    }
  }

  /** A list is its prefix, one item and its suffix. */
  lemma SplitAt(cart: seq<CartItem>, k: nat)
    requires k < |cart|
    ensures cart == cart[..k] + [cart[k]] + cart[k + 1..]
  {
  }

  /** The total of a list split around one item. */
  lemma TotalAround(pre: seq<CartItem>, x: CartItem, post: seq<CartItem>)
    ensures Total(pre + [x] + post) == Total(pre) + LineTotal(x) + Total(post)
  {
    TotalConcat(pre + [x], post);
    assert (pre + [x])[..|pre|] == pre;
  }

  /** Replacing one item changes the total by the difference of line totals. */
  lemma TotalPointUpdate(cart: seq<CartItem>, k: nat, item: CartItem)
    requires k < |cart|
    ensures Total(cart[k := item]) == Total(cart) - LineTotal(cart[k]) + LineTotal(item)
  {
    var pre, post := cart[..k], cart[k + 1..];
    SplitAt(cart, k);
    SplitAt(cart[k := item], k);
    TotalAround(pre, cart[k], post);
    TotalAround(pre, item, post);
  }

  /** Cutting one item out lowers the total by its line total. */
  lemma TotalSplice(cart: seq<CartItem>, k: nat)
    requires k < |cart|
    ensures Total(cart[..k] + cart[k + 1..]) == Total(cart) - LineTotal(cart[k])
  {
    var pre, post := cart[..k], cart[k + 1..];
    SplitAt(cart, k);
    TotalAround(pre, cart[k], post);
    TotalConcat(pre, post);
  }

  /** Setting one item's quantity moves the total by its price times the
      change in quantity. */
  lemma TotalSetQuantity(cart: seq<CartItem>, k: nat, quantity: int)
    requires k < |cart|
    ensures Total(cart[k := cart[k].(quantity := quantity)]) == Total(cart) + cart[k].price * (quantity - cart[k].quantity)
  {
    TotalPointUpdate(cart, k, cart[k].(quantity := quantity));
    MulSub(cart[k].price, quantity, cart[k].quantity);
  }

  lemma MulSub(a: int, b: int, c: int)
    ensures a * b - a * c == a * (b - c)
  {
  }

  /** The price addToCart charges for the product: the stored price of the
      item already in the cart, otherwise the product's own price. */
  function PriceFor(cart: seq<CartItem>, product: Product): int {
    match Find(cart, product.id)
    case Some(k) => cart[k].price
    case None => product.price
  }

  /** After addToCart(product, quantity) the total grows by exactly
      price x quantity. */
  lemma TotalAfterAdd(cart: seq<CartItem>, product: Product, quantity: int)
    requires DistinctIds(cart)
    ensures Total(Add(cart, product, quantity)) == Total(cart) + PriceFor(cart, product) * quantity
  {
    match Find(cart, product.id)
    case Some(k) => TotalAddExisting(cart, product, quantity, k);
    case None => TotalAddNew(cart, product, quantity);
  }

  lemma TotalAddExisting(cart: seq<CartItem>, product: Product, quantity: int, k: nat)
    requires DistinctIds(cart)
    requires k < |cart| && cart[k].id == product.id
    ensures Total(Add(cart, product, quantity)) == Total(cart) + cart[k].price * quantity
  {
    AddExisting(cart, product, quantity, k);
    TotalBump(cart, k, quantity);
  }

  lemma TotalBump(cart: seq<CartItem>, k: nat, delta: int)
    requires k < |cart|
    ensures Total(cart[k := cart[k].(quantity := cart[k].quantity + delta)]) == Total(cart) + cart[k].price * delta
  {
    var item := cart[k].(quantity := cart[k].quantity + delta);
    TotalPointUpdate(cart, k, item);
    assert LineTotal(item) - LineTotal(cart[k]) == cart[k].price * delta by {
      MulSub(cart[k].price, cart[k].quantity + delta, cart[k].quantity);
    }
  }

  lemma TotalAddNew(cart: seq<CartItem>, product: Product, quantity: int)
    requires !HasId(cart, product.id)
    ensures Total(Add(cart, product, quantity)) == Total(cart) + product.price * quantity
  {
    AddNew(cart, product, quantity);
    TotalAround(cart, NewItem(product, quantity), []);
    assert cart + [NewItem(product, quantity)] + [] == cart + [NewItem(product, quantity)];
  }

  /** removeFromCart lowers the total by the removed item's line total, and
      leaves it alone when the id is absent. */
  lemma TotalAfterRemove(cart: seq<CartItem>, id: string)
    requires DistinctIds(cart)
    ensures Total(Remove(cart, id)) == match Find(cart, id)
      case Some(k) => Total(cart) - LineTotal(cart[k])
      case None => Total(cart)
  {
    match Find(cart, id)
    case Some(k) =>
      RemoveSplice(cart, id, k);
      TotalSplice(cart, k);
    case None =>
      RemoveAbsent(cart, id);
  }

  /** updateQuantity with a positive quantity moves the total by
      price x (new quantity - old quantity). */
  lemma TotalAfterUpdate(cart: seq<CartItem>, id: string, quantity: int, k: nat)
    requires DistinctIds(cart) && quantity > 0
    requires k < |cart| && cart[k].id == id
    ensures Total(Update(cart, id, quantity)) == Total(cart) + cart[k].price * (quantity - cart[k].quantity)
  {
    UpdateSets(cart, id, quantity, k);
    TotalSetQuantity(cart, k, quantity);
  }

  /** The total depends only on the multiset of items, not on their order. */
  lemma {:induction false} TotalPermutation(a: seq<CartItem>, b: seq<CartItem>)
    requires multiset(a) == multiset(b)
    ensures Total(a) == Total(b)
    decreases |a|
  {
    if |a| == 0 {
      assert |b| == |multiset(b)| == 0;
    } else {
      var n := |a| - 1;
      var x := a[n];
      MultisetSplice(a, n);
      assert a[..n] + a[n + 1..] == a[..n];
      assert x in multiset(b);
      var k :| 0 <= k < |b| && b[k] == x;
      MultisetSplice(b, k);
      TotalPermutation(a[..n], b[..k] + b[k + 1..]);
      TotalSplice(b, k);
    }
  }

  /** Cutting one item out takes one copy of it from the multiset. */
  lemma MultisetSplice(s: seq<CartItem>, k: nat)
    requires k < |s|
    ensures multiset(s[..k] + s[k + 1..]) == multiset(s) - multiset{s[k]}
  {
    SplitAt(s, k);
  }

  // ---------------------------------------------------------------------------
  // Repeated additions of one product
  // ---------------------------------------------------------------------------

  /** addToCart called once per quantity in `quantities`, in order. */
  function AddAll(cart: seq<CartItem>, product: Product, quantities: seq<int>): seq<CartItem>
    decreases |quantities|
  {
    if |quantities| == 0 then cart
    else AddAll(Add(cart, product, quantities[0]), product, quantities[1..])
  }

  /** Any run of addToCart calls with one product leaves exactly one item for
      that id, whose quantity has grown by the sum of the quantities added. */
  lemma {:induction false} RepeatedAdds(cart: seq<CartItem>, product: Product, quantities: seq<int>)
    requires DistinctIds(cart) && |quantities| > 0
    ensures DistinctIds(AddAll(cart, product, quantities))
    ensures HasId(AddAll(cart, product, quantities), product.id)
    ensures QuantityOf(AddAll(cart, product, quantities), product.id) == QuantityOf(cart, product.id) + Sum(quantities)
    decreases |quantities|
  {
    var next := Add(cart, product, quantities[0]);
    AddPreservesDistinct(cart, product, quantities[0]);
    AddQuantity(cart, product, quantities[0]);
    if |quantities| > 1 {
      RepeatedAdds(next, product, quantities[1..]);
    } else {
      assert AddAll(next, product, quantities[1..]) == next;
    }
  }

  // ---------------------------------------------------------------------------
  // The store
  // ---------------------------------------------------------------------------

  /** The browser storage slot under the cart's key: nothing stored, a list
      that parses, or a value whose parse throws. */
  datatype Slot = Empty | Saved(items: seq<CartItem>) | Unparsable

  class CartStore {
    var cart: seq<CartItem>
    var slot: Slot

    /** The slot holds exactly the current list. */
    ghost predicate Valid()
      reads this
    {
      slot == Saved(cart)
    }

    /** Mount: start empty, rehydrate from the slot when it parses, drop the
        slot when it does not, then write the list back. */
    constructor (stored: Slot)
      ensures Valid()
      ensures cart == (if stored.Saved? then stored.items else [])
    {
      cart := [];
      slot := stored;
      match stored {
        case Saved(items) =>
          cart := items;
        case Unparsable =>
          slot := Empty;
        case Empty =>
      }
      new;
      Persist();
    }

    /** The effect that rewrites the slot after every change. */
    method Persist()
      modifies this`slot
      ensures Valid()
    {
      slot := Saved(cart);
    }

    method AddToCart(product: Product, quantity: int)
      modifies this
      ensures cart == Add(old(cart), product, quantity)
      ensures Valid()
      ensures DistinctIds(old(cart)) ==> DistinctIds(cart)
    {
      if DistinctIds(cart) {
        AddPreservesDistinct(cart, product, quantity);
      }
      cart := Add(cart, product, quantity);
      Persist();
    }

    method RemoveFromCart(productId: string)
      modifies this
      ensures cart == Remove(old(cart), productId)
      ensures Valid()
      ensures DistinctIds(old(cart)) ==> DistinctIds(cart)
    {
      if DistinctIds(cart) {
        RemovePreservesDistinct(cart, productId);
      }
      cart := Remove(cart, productId);
      Persist();
    }

    method UpdateQuantity(productId: string, quantity: int)
      modifies this
      ensures cart == Update(old(cart), productId, quantity)
      ensures Valid()
      ensures DistinctIds(old(cart)) ==> DistinctIds(cart)
    {
      if quantity <= 0 {
        RemoveFromCart(productId);
        return;
      }
      if DistinctIds(cart) {
        UpdatePreservesDistinct(cart, productId, quantity);
      }
      cart := SetQuantity(cart, productId, quantity);
      Persist();
    }

    method ClearCart()
      modifies this
      ensures cart == [] && Total(cart) == 0
      ensures Valid()
    {
      cart := [];
      Persist();
    }

    /** calculateTotal: the `reduce` over the list, item by item. */
    method CalculateTotal() returns (total: int)
      ensures total == Total(cart)
    {
      total := 0;
      var i := 0;
      while i < |cart|
        invariant 0 <= i <= |cart|
        invariant total == Total(cart[..i])
      {
        assert cart[..i + 1][..i] == cart[..i];
        total := total + cart[i].price * cart[i].quantity;
        i := i + 1;
      }
      assert cart[..i] == cart;
    }
  }
}
