/** The cart of the second e-commerce app (Assignment2/EcommerceApp/App.js):
    a cart screen that starts from the item handed over by the details
    screen, quantity steps clamped to at least 1, its total, and the
    checkout's address check. */
module ClampedCart {
  import opened Collections
  import opened Text

  /** A product as fetched from the store (its picture, category and rating
      are presentation and are not modelled). */
  datatype Product = Product(id: int, title: string, price: real, description: string)

  /** `{ ...product, quantity }`. */
  datatype Item = Item(product: Product, quantity: int)

  /** What the confirmation screen receives. */
  datatype Confirmation = Confirmation(items: seq<Item>, totalPrice: real, address: string, paymentMethod: string)

  /** The details screen's "Add to Cart": the product, one of it. */
  function NewItem(product: Product): (item: Item)
    ensures item.product == product && item.quantity == 1
  {
    Item(product, 1)
  }

  /** The cart the screen starts with: the handed-over item, or nothing. */
  function InitialCart(newItem: Option<Item>): (cart: seq<Item>)
    ensures newItem.None? <==> cart == []
    ensures newItem.Some? ==> cart == [newItem.value]
  {
    match newItem
    case None => []
    case Some(item) => [item]
  }

  predicate AllPositive(items: seq<Item>)
  {
    forall i :: 0 <= i < |items| ==> items[i].quantity >= 1
  }

  function Max(a: int, b: int): int { if a < b then b else a }

  /** One entry after a step of `delta`: clamped to at least 1. */
  function Step(item: Item, itemId: int, delta: int): Item
  {
    if item.product.id == itemId then item.(quantity := Max(1, item.quantity + delta)) else item
  }

  /** `updateQuantity(itemId, delta)`: step the matching entries, then drop
      the entries whose quantity is not positive. */
  function CartUpdate(items: seq<Item>, itemId: int, delta: int): seq<Item>
  {
    Filter(MapSeq(items, (item: Item) => Step(item, itemId, delta)), (item: Item) => item.quantity > 0)
  }

  /** When every quantity is at least 1 the clamp keeps it so, the filter
      drops nothing, and so each entry stays in its place: the matching ones
      moved by `delta` but not below 1, all others as they were. */
  lemma {:induction false} CartUpdateSpec(items: seq<Item>, itemId: int, delta: int)
    requires AllPositive(items)
    ensures |CartUpdate(items, itemId, delta)| == |items|
    ensures AllPositive(CartUpdate(items, itemId, delta))
    ensures forall i :: 0 <= i < |items| ==> CartUpdate(items, itemId, delta)[i].product == items[i].product
    ensures forall i :: 0 <= i < |items| ==>
      CartUpdate(items, itemId, delta)[i].quantity
      == if items[i].product.id == itemId then Max(1, items[i].quantity + delta) else items[i].quantity
  {
    var stepped := MapSeq(items, (item: Item) => Step(item, itemId, delta));
    FilterAll(stepped, (item: Item) => item.quantity > 0);
  }

  /** From any quantity of at least 1, a "+" then a "-" gives the cart back. */
  lemma PlusThenMinus(items: seq<Item>, itemId: int)
    requires AllPositive(items)
    ensures CartUpdate(CartUpdate(items, itemId, 1), itemId, -1) == items
  {
    CartUpdateSpec(items, itemId, 1);
    CartUpdateSpec(CartUpdate(items, itemId, 1), itemId, -1);
  }

  /** A "-" on an entry already at 1 changes nothing. */
  lemma MinusAtOne(items: seq<Item>, itemId: int)
    requires AllPositive(items)
    requires forall i :: 0 <= i < |items| && items[i].product.id == itemId ==> items[i].quantity == 1
    ensures CartUpdate(items, itemId, -1) == items
  {
    CartUpdateSpec(items, itemId, -1);
  }

  function LineTotal(item: Item): real
  {
    item.product.price * item.quantity as real
  }

  /** `cartItems.reduce((sum, item) => sum + item.price * item.quantity, 0)`. */
  function TotalPrice(items: seq<Item>): real
  {
    SumOf(items, LineTotal)
  }

  /** A step on the entry at `k`, the only one with its id, replaces just
      that entry's quantity. */
  lemma CartUpdateAt(items: seq<Item>, itemId: int, delta: int, k: nat)
    requires AllPositive(items) && k < |items| && items[k].product.id == itemId
    requires forall j :: 0 <= j < |items| && j != k ==> items[j].product.id != itemId
    ensures CartUpdate(items, itemId, delta) == items[k := items[k].(quantity := Max(1, items[k].quantity + delta))]
  {
    CartUpdateSpec(items, itemId, delta);
  }

  /** ... and so changes the total by its price times how far its quantity
      actually moved. */
  lemma CartUpdateTotal(items: seq<Item>, itemId: int, delta: int, k: nat)
    requires AllPositive(items) && k < |items| && items[k].product.id == itemId
    requires forall j :: 0 <= j < |items| && j != k ==> items[j].product.id != itemId
    ensures TotalPrice(CartUpdate(items, itemId, delta))
      == TotalPrice(items) + items[k].product.price * (Max(1, items[k].quantity + delta) - items[k].quantity) as real
  {
    var n := Max(1, items[k].quantity + delta);
    CartUpdateAt(items, itemId, delta, k);
    LineDelta(items[k], n);
    SumOfReplace(items, k, items[k].(quantity := n), LineTotal, items[k].product.price * (n - items[k].quantity) as real);
  }

  /** Changing a line's quantity changes its amount by the price times the
      change. */
  lemma LineDelta(item: Item, n: int)
    ensures LineTotal(item.(quantity := n)) - LineTotal(item) == item.product.price * (n - item.quantity) as real
  {
    var p, q, m := item.product.price, item.quantity as real, n as real;
    assert (n - item.quantity) as real == m - q;
    assert p * m - p * q == p * (m - q);
  }

  /** A step on an id that is not in the cart changes nothing. */
  lemma CartUpdateUnknown(items: seq<Item>, itemId: int, delta: int)
    requires AllPositive(items)
    requires forall j :: 0 <= j < |items| ==> items[j].product.id != itemId
    ensures CartUpdate(items, itemId, delta) == items
  {
    CartUpdateSpec(items, itemId, delta);
  }

  /** "Proceed to Checkout" is enabled exactly when the cart is not empty. */
  predicate CanCheckout(items: seq<Item>)
  {
    |items| != 0
  }

  /** Quantity steps never disable checkout. */
  lemma StepKeepsCheckout(items: seq<Item>, itemId: int, delta: int)
    requires AllPositive(items)
    ensures CanCheckout(CartUpdate(items, itemId, delta)) <==> CanCheckout(items)
  {
    CartUpdateSpec(items, itemId, delta);
  }

  /** The checkout's `placeOrder`: a blank address is refused; otherwise the
      confirmation gets the cart, total, address as typed and payment
      method. */
  function PlaceOrder(items: seq<Item>, totalPrice: real, address: string, paymentMethod: string): (r: Option<Confirmation>)
    ensures r.None? <==> AllWhitespace(address)
    ensures r.Some? ==> r.value == Confirmation(items, totalPrice, address, paymentMethod)
  {
    TrimEmpty(address);
    if Trim(address) == [] then None else Some(Confirmation(items, totalPrice, address, paymentMethod))
  }

  /** The `CartScreen` state. */
  class CartScreen {
    var cartItems: seq<Item>

    /** The cart holds at most the one item it started with, at a positive
        quantity. */
    ghost predicate Valid()
      reads this
    {
      |cartItems| <= 1 && AllPositive(cartItems)
    }

    constructor (newItem: Option<Item>)
      ensures cartItems == InitialCart(newItem)
      ensures (newItem.Some? ==> newItem.value.quantity >= 1) ==> Valid()
    {
      cartItems := InitialCart(newItem);
    }

    method UpdateQuantity(itemId: int, delta: int)
      modifies this
      ensures cartItems == CartUpdate(old(cartItems), itemId, delta)
      ensures old(Valid()) ==> Valid() && |cartItems| == |old(cartItems)|
    {
      if Valid() {
        CartUpdateSpec(cartItems, itemId, delta);
      }
      cartItems := CartUpdate(cartItems, itemId, delta);
    }
  }
}
