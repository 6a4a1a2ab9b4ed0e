/** The product page of src/pages/ProductDetailsPage.jsx: the quantity
    input's clamp, the star rating row and the add-to-cart guard. */
module ProductDetails {

  import opened Wrappers
  import opened Text
  import opened Catalog
  import opened Cart
  import opened CartEngine

  // ---------------------------------------------------------------------
  // Quantity
  // ---------------------------------------------------------------------

  /** `handleQuantityChange`: the input is read with `parseInt(_, 10)`; a
      number in range becomes the quantity, one below 1 becomes 1, one above
      the stock becomes the stock. `NaN` matches no branch and leaves the
      quantity as it was. Without a loaded product there is no upper bound. */
  function QuantityChange(quantity: int, input: string, product: Option<Product>): (r: int)
    ensures ParseInt(input).None? ==> r == quantity
    ensures ParseInt(input).Some? ==>
      var v := ParseInt(input).value;
      && (v > 0 && (product.None? || v <= product.value.stock) ==> r == v)
      && (v <= 0 ==> r == 1)
      && (product.Some? && v > 0 && v > product.value.stock ==> r == product.value.stock)
  {
    match ParseInt(input)
    case None => quantity
    case Some(v) =>
      if v > 0 && (product.None? || v <= product.value.stock) then v
      else if v <= 0 then 1
      else if product.Some? && v > product.value.stock then product.value.stock
      else quantity
  }

  /** For a product in stock, a quantity between 1 and the stock stays
      between 1 and the stock whatever is typed. */
  lemma QuantityStaysInRange(quantity: int, input: string, product: Product)
    requires 1 <= quantity <= product.stock
    ensures 1 <= QuantityChange(quantity, input, Some(product)) <= product.stock
  {
  }

  /** Typing the current quantity back in changes nothing. */
  lemma QuantityTypedBack(quantity: nat, product: Option<Product>)
    requires quantity >= 1 && (product.Some? ==> quantity <= product.value.stock)
    ensures QuantityChange(quantity, ShowNat(quantity), product) == quantity
  {
    ParseShownNat(quantity);
  }

  // ---------------------------------------------------------------------
  // Stars
  // ---------------------------------------------------------------------

  datatype Star = Full | Half | Empty

  /** The icon at position `i` for `rating`. */
  function StarAt(rating: real, i: int): (s: Star)
    ensures s == Full <==> rating >= i as real + 1.0
    ensures s == Half <==> i as real + 0.5 <= rating < i as real + 1.0
    ensures s == Empty <==> rating < i as real + 0.5
  {
    if rating >= i as real + 1.0 then Full
    else if rating >= i as real + 0.5 then Half
    else Empty
  }

  /** `renderStars(ratingValue)`: `None` (`null`) when the rating is not a
      number (`rating` is the result of `parseFloat`, `None` for `NaN`),
      otherwise the five icons of `Stars`. */
  method RenderStars(rating: Option<real>) returns (stars: Option<seq<Star>>)
    ensures rating.None? <==> stars.None?
    ensures stars.Some? ==> stars.value == Stars(rating.value)
  {
    if rating.None? {
      return None;
    }
    var r := rating.value;
    var starsToRender: seq<Star> := [];
    for i := 0 to 5
      invariant |starsToRender| == i
      invariant forall k :: 0 <= k < i ==> starsToRender[k] == StarAt(r, k)
    {
      if r >= i as real + 1.0 {
        starsToRender := starsToRender + [Full];
      } else if r >= i as real + 0.5 {
        starsToRender := starsToRender + [Half];
      } else {
        starsToRender := starsToRender + [Empty];
      }
    }
    assert starsToRender == Stars(r);
    return Some(starsToRender);
  }

  /** The row of icons for a numeric rating: five, the i-th chosen by
      `StarAt`. */
  function Stars(rating: real): (s: seq<Star>)
    ensures |s| == 5
  {
    seq(5, i requires 0 <= i < 5 => StarAt(rating, i))
  }

  /** Full stars come first, then at most one half star, then empty ones. */
  lemma StarsLayout(rating: real)
    ensures forall i, j :: 0 <= i < j < 5 && Stars(rating)[j] == Full ==> Stars(rating)[i] == Full
    ensures forall i, j :: 0 <= i < j < 5 && Stars(rating)[i] == Empty ==> Stars(rating)[j] == Empty
    ensures forall i, j :: 0 <= i < j < 5 && Stars(rating)[i] == Half ==> Stars(rating)[j] != Half
  {
    var s := Stars(rating);
    forall i, j | 0 <= i < j < 5 && s[j] == Full ensures s[i] == Full {
      assert s[j] == StarAt(rating, j) && s[i] == StarAt(rating, i);
    }
    forall i, j | 0 <= i < j < 5 && s[i] == Empty ensures s[j] == Empty {
      assert s[j] == StarAt(rating, j) && s[i] == StarAt(rating, i);
    }
    forall i, j | 0 <= i < j < 5 && s[i] == Half ensures s[j] != Half {
      assert s[j] == StarAt(rating, j) && s[i] == StarAt(rating, i);
    }
  }

  /** The number of full stars is the rating rounded down, capped at 5. */
  lemma FullStarsCount(rating: real, n: nat)
    requires n <= 5 && (n < 5 ==> rating < n as real + 1.0) && (n > 0 ==> rating >= n as real)
    ensures forall i :: 0 <= i < 5 ==> (Stars(rating)[i] == Full <==> i < n)
  {
    var s := Stars(rating);
    forall i | 0 <= i < 5 ensures s[i] == Full <==> i < n {
      assert s[i] == StarAt(rating, i);
    }
  }

  // ---------------------------------------------------------------------
  // Add to cart
  // ---------------------------------------------------------------------

  /** `handleAddToCart`: nothing without a loaded product; otherwise the
      cart's `addItem(product, quantity)`. */
  method HandleAddToCart(cart: CartProvider, product: Option<Product>, quantity: int)
    modifies cart
    ensures product.None? ==>
      cart.state == old(cart.state) && cart.itemsPristine == old(cart.itemsPristine)
    ensures product.Some? ==>
      cart.state == old(cart.state).(items := AddLine(old(cart.state.items), product.value, quantity)) &&
      !cart.itemsPristine
    ensures cart.guestStore == old(cart.guestStore) && cart.serverWrites == old(cart.serverWrites)
    ensures cart.prevIsAuthenticated == old(cart.prevIsAuthenticated)
  {
    if product.None? {
      return;
    }
    cart.AddItem(product.value, quantity);
  }
}
