/** The shopping cart with order history of the first e-commerce app
    (Assignment1/EcommerceApp/App.js): the `CartProvider` state, the cart
    total and the home screen's product search. */
module ShopCart {
  import opened Collections
  import opened Text

  /** A catalogue entry (its picture is presentation and is not modelled). */
  datatype Product = Product(id: string, name: string, price: real, description: string)

  /** `{ ...product, quantity }`. */
  datatype CartItem = CartItem(product: Product, quantity: int)

  datatype ShippingDetails = ShippingDetails(address: string, shippingMethod: string)

  datatype Order = Order(id: string, items: seq<CartItem>, shipping: ShippingDetails, status: string)

  /** The fixed catalogue. */
  const Catalogue: seq<Product> := [
    Product("1", "Laptop", 999.0, "High-performance laptop"),
    Product("2", "Phone", 499.0, "Latest smartphone"),
    Product("3", "Headphones", 99.0, "Noise-canceling headphones"),
    Product("4", "Watch", 199.0, "Smart fitness watch"),
    Product("5", "Tablet", 349.0, "Portable tablet"),
    Product("6", "Camera", 799.0, "Professional camera"),
    Product("7", "Speaker", 149.0, "Bluetooth speaker"),
    Product("8", "Monitor", 299.0, "4K monitor"),
    Product("9", "Keyboard", 89.0, "Mechanical keyboard"),
    Product("10", "Mouse", 49.0, "Wireless mouse")
  ]

  function ItemId(item: CartItem): string { item.product.id }

  /** Some entry of the cart has this id (`cart.find` succeeds). */
  predicate HasId(cart: seq<CartItem>, id: string)
  {
    exists i :: 0 <= i < |cart| && cart[i].product.id == id
  }

  /** No id occurs twice in the cart. */
  predicate DistinctIds(cart: seq<CartItem>)
  {
    forall i, j :: 0 <= i < j < |cart| ==> cart[i].product.id != cart[j].product.id
  }

  // ---------------------------------------------------------------------
  // addToCart

  /** `addToCart(product, quantity)`: an entry with the product's id gets
      `quantity` more; otherwise the product is appended with `quantity`. */
  function CartAdd(cart: seq<CartItem>, product: Product, quantity: int): seq<CartItem>
  {
    if HasId(cart, product.id) then
      MapSeq(cart, (item: CartItem) =>
        if item.product.id == product.id then item.(quantity := item.quantity + quantity) else item)
    else cart + [CartItem(product, quantity)]
  }

  /** Adding a product already in the cart raises that entry's quantity and
      touches nothing else: same length, same order, same other entries. */
  lemma AddToCartExisting(cart: seq<CartItem>, product: Product, quantity: int, k: nat)
    requires DistinctIds(cart) && k < |cart| && cart[k].product.id == product.id
    ensures CartAdd(cart, product, quantity) == cart[k := cart[k].(quantity := cart[k].quantity + quantity)]
  {
    var r := CartAdd(cart, product, quantity);
    assert |r| == |cart|;
    forall i | 0 <= i < |cart|
      ensures r[i] == cart[k := cart[k].(quantity := cart[k].quantity + quantity)][i]
    {
      if i != k {
        assert cart[i].product.id != product.id;
      }
    }
  }

  /** Adding a product not in the cart appends it with the given quantity. */
  lemma AddToCartNew(cart: seq<CartItem>, product: Product, quantity: int)
    requires !HasId(cart, product.id)
    ensures CartAdd(cart, product, quantity) == cart + [CartItem(product, quantity)]
    ensures |CartAdd(cart, product, quantity)| == |cart| + 1
  {
  }

  // ---------------------------------------------------------------------
  // updateQuantity

  /** `updateQuantity(id, quantity)`: a quantity of 0 or less removes the
      entries with that id, any other quantity replaces theirs. */
  function CartUpdate(cart: seq<CartItem>, id: string, quantity: int): seq<CartItem>
  {
    if quantity <= 0 then Filter(cart, (item: CartItem) => item.product.id != id)
    else MapSeq(cart, (item: CartItem) => if item.product.id == id then item.(quantity := quantity) else item)
  }

  /** A quantity of 0 or less takes out exactly the entry with the id and
      keeps the others in their order. */
  lemma UpdateQuantityRemoves(cart: seq<CartItem>, id: string, quantity: int, k: nat)
    requires DistinctIds(cart) && k < |cart| && cart[k].product.id == id && quantity <= 0
    ensures CartUpdate(cart, id, quantity) == cart[..k] + cart[k + 1..]
  {
    var keep := (item: CartItem) => item.product.id != id;
    assert cart == cart[..k] + ([cart[k]] + cart[k + 1..]);
    FilterAppend(cart[..k], [cart[k]] + cart[k + 1..], keep);
    FilterAppend([cart[k]], cart[k + 1..], keep);
    FilterAll(cart[..k], keep);
    FilterAll(cart[k + 1..], keep);
  }

  /** A positive quantity replaces exactly that entry's quantity. */
  lemma UpdateQuantitySets(cart: seq<CartItem>, id: string, quantity: int, k: nat)
    requires DistinctIds(cart) && k < |cart| && cart[k].product.id == id && quantity > 0
    ensures CartUpdate(cart, id, quantity) == cart[k := cart[k].(quantity := quantity)]
  {
    var r := CartUpdate(cart, id, quantity);
    forall i | 0 <= i < |cart| ensures r[i] == cart[k := cart[k].(quantity := quantity)][i] {
      if i != k {
        assert cart[i].product.id != id;
      }
    }
  }

  /** An id that is not in the cart leaves it as it is, whatever the
      quantity. */
  lemma UpdateQuantityUnknown(cart: seq<CartItem>, id: string, quantity: int)
    requires !HasId(cart, id)
    ensures CartUpdate(cart, id, quantity) == cart
  {
    if quantity <= 0 {
      FilterAll(cart, (item: CartItem) => item.product.id != id);
    } else {
      var r := CartUpdate(cart, id, quantity);
      assert forall i :: 0 <= i < |cart| ==> r[i] == cart[i];
    }
  }

  /** Each cart operation keeps the ids distinct. */
  lemma AddToCartDistinct(cart: seq<CartItem>, product: Product, quantity: int)
    requires DistinctIds(cart)
    ensures DistinctIds(CartAdd(cart, product, quantity))
  {
    if HasId(cart, product.id) {
      var k :| 0 <= k < |cart| && cart[k].product.id == product.id;
      AddToCartExisting(cart, product, quantity, k);
    }
  }

  lemma RemoveAtDistinct(cart: seq<CartItem>, k: nat)
    requires DistinctIds(cart) && k < |cart|
    ensures DistinctIds(cart[..k] + cart[k + 1..])
  {
    var r := cart[..k] + cart[k + 1..];
    forall i, j | 0 <= i < j < |r| ensures r[i].product.id != r[j].product.id {
      var i' := if i < k then i else i + 1;
      var j' := if j < k then j else j + 1;
      assert r[i] == cart[i'] && r[j] == cart[j'];
    }
  }

  lemma UpdateQuantityDistinct(cart: seq<CartItem>, id: string, quantity: int)
    requires DistinctIds(cart)
    ensures DistinctIds(CartUpdate(cart, id, quantity))
  {
    if !HasId(cart, id) {
      UpdateQuantityUnknown(cart, id, quantity);
    } else {
      var k :| 0 <= k < |cart| && cart[k].product.id == id;
      if quantity <= 0 {
        UpdateQuantityRemoves(cart, id, quantity, k);
        RemoveAtDistinct(cart, k);
      } else {
        UpdateQuantitySets(cart, id, quantity, k);
      }
    }
  }

  // ---------------------------------------------------------------------
  // Totals

  function LineTotal(item: CartItem): real
  {
    item.product.price * item.quantity as real
  }

  /** `cart.reduce((sum, item) => sum + item.price * item.quantity, 0)`. */
  function TotalPrice(cart: seq<CartItem>): real
  {
    SumOf(cart, LineTotal)
  }

  /** The total does not depend on the order of the entries, and an empty
      cart costs nothing. */
  lemma TotalPriceOrderFree(cart: seq<CartItem>, other: seq<CartItem>)
    requires multiset(cart) == multiset(other)
    ensures TotalPrice(cart) == TotalPrice(other)
    ensures TotalPrice([]) == 0.0
  {
    SumOfPermutation(cart, other, LineTotal);
  }

  /** With no negative price or quantity the total is not negative. */
  lemma TotalPriceNonneg(cart: seq<CartItem>)
    requires forall i :: 0 <= i < |cart| ==> cart[i].product.price >= 0.0 && cart[i].quantity >= 0
    ensures TotalPrice(cart) >= 0.0
  {
    SumOfNonneg(cart, LineTotal);
  }

  /** Adding `quantity` of a product raises the total by that many times
      the price of its line: the stored line's price when the product was
      already in the cart, the product's own price otherwise. */
  lemma AddToCartTotal(cart: seq<CartItem>, product: Product, quantity: int)
    requires DistinctIds(cart)
    ensures !HasId(cart, product.id) ==>
      TotalPrice(CartAdd(cart, product, quantity)) == TotalPrice(cart) + product.price * quantity as real
    ensures forall k :: 0 <= k < |cart| && cart[k].product.id == product.id ==>
      TotalPrice(CartAdd(cart, product, quantity)) == TotalPrice(cart) + cart[k].product.price * quantity as real
  {
    forall k | 0 <= k < |cart| && cart[k].product.id == product.id
      ensures TotalPrice(CartAdd(cart, product, quantity)) == TotalPrice(cart) + cart[k].product.price * quantity as real
    {
      AddToCartTotalAt(cart, product, quantity, k);
    }
    if !HasId(cart, product.id) {
      SumOfAppend(cart, [CartItem(product, quantity)], LineTotal);
      assert [CartItem(product, quantity)][..0] == [];
    }
  }

  lemma AddToCartTotalAt(cart: seq<CartItem>, product: Product, quantity: int, k: nat)
    requires DistinctIds(cart) && k < |cart| && cart[k].product.id == product.id
    ensures TotalPrice(CartAdd(cart, product, quantity)) == TotalPrice(cart) + cart[k].product.price * quantity as real
  {
    var line := cart[k].(quantity := cart[k].quantity + quantity);
    AddToCartExisting(cart, product, quantity, k);
    var p, q := cart[k].product.price, cart[k].quantity as real;
    assert LineTotal(line) - LineTotal(cart[k]) == p * (q + quantity as real) - p * q == p * quantity as real;
    SumOfReplace(cart, k, line, LineTotal, cart[k].product.price * quantity as real);
  }

  /** Setting a line's quantity changes the total by that line's price
      times the change; removing the line takes its whole amount off. */
  lemma UpdateQuantityTotal(cart: seq<CartItem>, id: string, quantity: int, k: nat)
    requires DistinctIds(cart) && k < |cart| && cart[k].product.id == id
    ensures TotalPrice(CartUpdate(cart, id, quantity))
      == TotalPrice(cart) - LineTotal(cart[k]) + (if quantity <= 0 then 0.0 else cart[k].product.price * quantity as real)
  {
    if quantity <= 0 {
      UpdateQuantityRemoves(cart, id, quantity, k);
      SumOfRemoveAt(cart, k, LineTotal);
    } else {
      UpdateQuantitySets(cart, id, quantity, k);
      SumOfUpdate(cart, k, cart[k].(quantity := quantity), LineTotal);
    }
  }

  // ---------------------------------------------------------------------
  // Search

  /** The home screen's product list for a search text: the products whose
      lower-cased name contains the lower-cased text. */
  function Search(products: seq<Product>, query: string): seq<Product>
  {
    Filter(products, (p: Product) => Contains(ToLower(p.name), ToLower(query)))
  }

  /** A product is listed exactly when its name matches, ignoring ASCII
      case, and the list keeps the catalogue's order. */
  lemma SearchSpec(products: seq<Product>, query: string, more: seq<Product>)
    ensures forall i :: 0 <= i < |Search(products, query)| ==>
      Search(products, query)[i] in products && Contains(ToLower(Search(products, query)[i].name), ToLower(query))
    ensures forall i :: 0 <= i < |products| && Contains(ToLower(products[i].name), ToLower(query)) ==>
      products[i] in Search(products, query)
    ensures Search(products + more, query) == Search(products, query) + Search(more, query)
  {
    FilterElements(products, (p: Product) => Contains(ToLower(p.name), ToLower(query)));
    FilterAppend(products, more, (p: Product) => Contains(ToLower(p.name), ToLower(query)));
  }

  /** An empty search lists every product. */
  lemma SearchEmpty(products: seq<Product>)
    ensures Search(products, "") == products
  {
    forall i | 0 <= i < |products| ensures Contains(ToLower(products[i].name), ToLower("")) {
      ContainsEmpty(ToLower(products[i].name));
    }
    FilterAll(products, (p: Product) => Contains(ToLower(p.name), ToLower("")));
  }

  /** The search ignores the case of the text typed in. */
  lemma SearchIgnoresCase(products: seq<Product>, query: string)
    ensures Search(products, ToLower(query)) == Search(products, query)
  {
    ToLowerIdempotent(query);
    FilterPointwise(products,
      (p: Product) => Contains(ToLower(p.name), ToLower(ToLower(query))),
      (p: Product) => Contains(ToLower(p.name), ToLower(query)));
  }

  /** "Checkout" is enabled exactly when the cart is not empty. */
  predicate CanCheckout(cart: seq<CartItem>)
  {
    |cart| != 0
  }

  /** "Place Order" is enabled when an address was typed and the cart is not
      empty. */
  predicate CanPlaceOrder(details: ShippingDetails, cart: seq<CartItem>)
  {
    details.address != [] && |cart| != 0
  }

  /** Adding to the cart always enables "Checkout"; a quantity update
      disables it exactly when it removes every entry, that is, when the
      quantity is 0 or less and every entry has the id; "Place Order" is
      only enabled together with "Checkout", and never on the emptied cart
      an order leaves behind. */
  lemma CheckoutGates(cart: seq<CartItem>, product: Product, id: string, quantity: int, details: ShippingDetails)
    ensures CanCheckout(CartAdd(cart, product, quantity))
    ensures CanCheckout(CartUpdate(cart, id, quantity)) <==>
      CanCheckout(cart) && (quantity > 0 || exists i :: 0 <= i < |cart| && cart[i].product.id != id)
    ensures CanPlaceOrder(details, cart) ==> CanCheckout(cart)
    ensures !CanPlaceOrder(details, []) && !CanCheckout([])
  {
    var keep := (item: CartItem) => item.product.id != id;
    if quantity <= 0 {
      FilterElements(cart, keep);
      if CanCheckout(CartUpdate(cart, id, quantity)) {
        var r := Filter(cart, keep);
        assert r[0] in cart;
        var i :| 0 <= i < |cart| && cart[i] == r[0];
        FilterKeepsProperty(cart, keep, keep);
      }
    }
  }

  /** The `CartProvider` state. */
  class CartProvider {
    var cart: seq<CartItem>
    var orders: seq<Order>

    ghost predicate Valid()
      reads this
    {
      DistinctIds(cart)
    }

    constructor ()
      ensures cart == [] && orders == []
      ensures Valid()
    {
      cart := [];
      orders := [];
    }

    method AddToCart(product: Product, quantity: int)
      modifies this
      ensures cart == CartAdd(old(cart), product, quantity)
      ensures orders == old(orders)
      ensures old(Valid()) ==> Valid()
    {
      if old(Valid()) {
        AddToCartDistinct(cart, product, quantity);
      }
      cart := CartAdd(cart, product, quantity);
    }

    method UpdateQuantity(id: string, quantity: int)
      modifies this
      ensures cart == CartUpdate(old(cart), id, quantity)
      ensures orders == old(orders)
      ensures old(Valid()) ==> Valid()
    {
      if old(Valid()) {
        UpdateQuantityDistinct(cart, id, quantity);
      }
      cart := CartUpdate(cart, id, quantity);
    }

    /** `placeOrder(items, details)`, with the `Date.now()` id given: one
      pending order is appended and the cart is emptied. */
    method PlaceOrder(items: seq<CartItem>, details: ShippingDetails, id: string)
      modifies this
      ensures orders == old(orders) + [Order(id, items, details, "Pending")]
      ensures cart == [] && Valid()
    {
      orders := orders + [Order(id, items, details, "Pending")];
      cart := [];
    }
  }
}
