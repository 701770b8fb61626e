/** The quantity stepper of the product detail view
    (components/product-detail-modal.tsx). */
module ProductDetail {
  import opened CartContext

  /** The catalogue product the view shows; it carries more than the cart keeps. */
  datatype DetailProduct = DetailProduct(
    id: string, name: string, price: int, description: string, category: string, image: string)

  /** What addToCart reads of the product. */
  function AsProduct(p: DetailProduct): Product {
    Product(p.id, p.name, p.price, p.image)
  }

  class ProductDetailModal {
    const product: DetailProduct
    const store: CartStore
    var quantity: int

    /** The stepper never shows less than one. */
    ghost predicate Valid()
      reads this
    {
      quantity >= 1
    }

    constructor (product: DetailProduct, store: CartStore)
      ensures Valid() && quantity == 1
      ensures this.product == product && this.store == store
    {
      this.product := product;
      this.store := store;
      quantity := 1;
    }

    /** The minus button: lower by one, but only above one. */
    method HandleDecrease()
      requires Valid()
      modifies this`quantity
      ensures Valid()
      ensures quantity == if old(quantity) > 1 then old(quantity) - 1 else old(quantity)
    {
      if quantity > 1 {
        quantity := quantity - 1;
      }
    }

    /** The plus button: raise by exactly one. */
    method HandleIncrease()
      requires Valid()
      modifies this`quantity
      ensures Valid()
      ensures quantity == old(quantity) + 1
    {
      quantity := quantity + 1;
    }

    /** Hand the current quantity to the store and ask the parent to close;
        the stepper keeps its value. Line items stay positive along this path. */
    method HandleAddToCart() returns (closeRequested: bool)
      requires Valid() && store.Valid()
      modifies store
      ensures store.Valid()
      ensures store.cart == Add(old(store.cart), AsProduct(product), quantity)
      ensures QuantityOf(store.cart, product.id) == QuantityOf(old(store.cart), product.id) + quantity
      ensures AllPositive(old(store.cart)) ==> AllPositive(store.cart)
      ensures closeRequested
    {
      if AllPositive(store.cart) {
        AddKeepsPositive(store.cart, AsProduct(product), quantity);
      }
      AddQuantity(store.cart, AsProduct(product), quantity);
      store.AddToCart(AsProduct(product), quantity);
      closeRequested := true;
    }
  }
}
