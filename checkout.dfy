/** The cart page of src/pages/CartPage.jsx: the order total, the item
    count and the checkout sequence that gates, sends the order and only
    then clears the cart. */
module Checkout {

  import opened Wrappers
  import opened Catalog
  import opened Cart
  import opened CartEngine
  import Auth

  // ---------------------------------------------------------------------
  // Totals
  // ---------------------------------------------------------------------

  /** `calculateTotal()`: `items.reduce((total, item) => total + item.price
      * item.quantity, 0)`, a fold from the left. Prices are whole units. */
  function Total(items: seq<Item>): int
  {
    if items == [] then 0
    else Total(items[..|items| - 1]) + items[|items| - 1].product.price * items[|items| - 1].quantity
  }

  /** `items.reduce((acc, item) => acc + item.quantity, 0)`. */
  function ItemCount(items: seq<Item>): int
  {
    if items == [] then 0
    else ItemCount(items[..|items| - 1]) + items[|items| - 1].quantity
  }

  /** The total of two runs of lines is the sum of their totals; the empty
      cart costs 0. */
  lemma {:induction false} TotalAppend(a: seq<Item>, b: seq<Item>)
    ensures Total(a + b) == Total(a) + Total(b)
    ensures Total([]) == 0
    decreases |b|
  {
    if b != [] {
      var c := a + b;
      assert c[..|c| - 1] == a + b[..|b| - 1];
      TotalAppend(a, b[..|b| - 1]);
    } else {
      assert a + b == a;
    }
  }

  lemma {:induction false} ItemCountAppend(a: seq<Item>, b: seq<Item>)
    ensures ItemCount(a + b) == ItemCount(a) + ItemCount(b)
    decreases |b|
  {
    if b != [] {
      var c := a + b;
      assert c[..|c| - 1] == a + b[..|b| - 1];
      ItemCountAppend(a, b[..|b| - 1]);
    } else {
      assert a + b == a;
    }
  }

  /** Changing one line's quantity moves the count by the difference. */
  lemma ItemCountUpdate(items: seq<Item>, k: int, quantity: int)
    requires 0 <= k < |items|
    ensures ItemCount(items[k := items[k].(quantity := quantity)]) ==
            ItemCount(items) - items[k].quantity + quantity
  {
    var x := items[k].(quantity := quantity);
    var u := items[k := x];
    assert items == items[..k] + [items[k]] + items[k + 1..];
    assert u == items[..k] + [x] + items[k + 1..];
    ItemCountAppend(items[..k] + [items[k]], items[k + 1..]);
    ItemCountAppend(items[..k], [items[k]]);
    ItemCountAppend(items[..k] + [x], items[k + 1..]);
    ItemCountAppend(items[..k], [x]);
    assert ItemCount([x]) == quantity by { assert [x][..0] == []; }
    assert ItemCount([items[k]]) == items[k].quantity by { assert [items[k]][..0] == []; }
  }

  /** Adding `quantity` of a product to the cart raises the displayed
      count by exactly `quantity`, whether or not the product was there. */
  lemma ItemCountAddLine(items: seq<Item>, product: Product, quantity: int)
    ensures ItemCount(AddLine(items, product, quantity)) == ItemCount(items) + quantity
  {
    var k := FindIndex(items, product.id);
    if k > -1 {
      ItemCountUpdate(items, k, items[k].quantity + quantity);
    } else {
      ItemCountAppend(items, [Item(product, quantity)]);
      assert [Item(product, quantity)][..0] == [];
    }
  }

  /** Adding a product not yet in the cart raises the total by its price
      times the quantity. */
  lemma TotalAddNewLine(items: seq<Item>, product: Product, quantity: int)
    requires product.id !in Ids(items)
    ensures Total(AddLine(items, product, quantity)) == Total(items) + product.price * quantity
  {
    TotalAppend(items, [Item(product, quantity)]);
    assert [Item(product, quantity)][..0] == [];
  }

  // ---------------------------------------------------------------------
  // Checkout
  // ---------------------------------------------------------------------

  const NotSignedIn: string := "Для оформления заказа необходимо авторизоваться."
  const NoAddress: string := "Пожалуйста, укажите адрес доставки в вашем профиле перед оформлением заказа."
  const OrderFailed: string := "Произошла ошибка при оформлении заказа. Пожалуйста, попробуйте снова."

  /** The `orderData` sent to `orderService.createOrder`. */
  datatype Order = Order(id: string, email: string, deliveryAddress: string, items: seq<Item>, totalAmount: int)

  /** `user?.deliveryAddress`, when truthy. */
  predicate HasAddress(auth: Auth.AuthState)
  {
    auth.user.Some? && auth.user.value.deliveryAddress.Some? && auth.user.value.deliveryAddress.value != ""
  }

  /** The order for the signed-in user's cart. */
  function OrderFor(user: Auth.User, address: string, items: seq<Item>): (o: Order)
    ensures o.items == items && o.totalAmount == Total(items)
    ensures o.id == user.id && o.email == user.email && o.deliveryAddress == address
  {
    Order(user.id, user.email, address, items, Total(items))
  }

  /** `CartPage`'s own state: `checkoutError`, `isProcessingOrder`, and
      `ordersSent`, every order handed to the order service. */
  class CartPage {
    var checkoutError: Option<string>
    var isProcessingOrder: bool
    var ordersSent: seq<Order>

    constructor ()
      ensures checkoutError.None? && !isProcessingOrder && ordersSent == []
    {
      checkoutError := None;
      isProcessingOrder := false;
      ordersSent := [];
    }

    /** `handleCheckout()`. The order service's answer is `created` (`Ok`
        with the order id, or the thrown error's message); the server's
        answer to the cart save inside `clearCart` is `saveResponse`. */
    method HandleCheckout(auth: Auth.AuthState, cart: CartProvider, created: Result<string>, saveResponse: Option<string>)
      modifies this, cart
      ensures auth.isAuthenticated && HasAddress(auth) ==> !isProcessingOrder
      ensures !(auth.isAuthenticated && HasAddress(auth)) ==> isProcessingOrder == old(isProcessingOrder)
      ensures !auth.isAuthenticated ==>
        checkoutError == Some(NotSignedIn) && ordersSent == old(ordersSent)
      ensures auth.isAuthenticated && !HasAddress(auth) ==>
        checkoutError == Some(NoAddress) && ordersSent == old(ordersSent)
      ensures auth.isAuthenticated && HasAddress(auth) ==>
        ordersSent == old(ordersSent) +
          [OrderFor(auth.user.value, auth.user.value.deliveryAddress.value, old(cart.state.items))]
      ensures auth.isAuthenticated && HasAddress(auth) && created.Ok? ==>
        checkoutError.None? &&
        (!SignedIn(auth) || SaveUserCart(auth.user.value.id, saveResponse).None? ==> cart.state.items == [])
      ensures !(auth.isAuthenticated && HasAddress(auth) && created.Ok?) ==>
        cart.state == old(cart.state) && cart.serverWrites == old(cart.serverWrites)
      ensures auth.isAuthenticated && HasAddress(auth) && created.Err? ==>
        checkoutError == Some(MessageOr(created.message, OrderFailed))
      ensures cart.guestStore == old(cart.guestStore)
    {
      checkoutError := None;
      if !auth.isAuthenticated {
        checkoutError := Some(NotSignedIn);
        return;
      }
      if !HasAddress(auth) {
        checkoutError := Some(NoAddress);
        return;
      }
      isProcessingOrder := true;
      var user := auth.user.value;
      var order := OrderFor(user, user.deliveryAddress.value, cart.state.items);
      ordersSent := ordersSent + [order];
      match created {
        case Ok(_) =>
          cart.ClearCart(auth, saveResponse);
        case Err(message) =>
          checkoutError := Some(MessageOr(message, OrderFailed));
      }
      isProcessingOrder := false;
    }
  }
}
