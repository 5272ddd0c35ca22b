/** The product details screen: the route id check, the quantity stepper, and the sign-in gate
    in front of adding to the cart and toggling the heart. The product fetch is a parameter. */
module ProductDetails {
  import opened Wrappers
  import CartContext
  import AuthContext

  datatype Product = Product(
    id: int, title: string, price: real, description: string, images: Option<seq<string>>)

  /** What `Number(id)` yields: a number or NaN. */
  datatype JsNumber = NaN | Num(value: real)

  /** The product id taken from the route (`id ? Number(id) : null`; None when `id` is missing or
      empty): accepted unless it is missing, NaN or 0, all of which are falsy. */
  function ValidProductId(routeId: Option<JsNumber>): (r: Option<real>)
    ensures r.Some? <==> routeId.Some? && routeId.value.Num? && routeId.value.value != 0.0
    ensures r.Some? ==> r.value == routeId.value.value && r.value != 0.0
  {
    match routeId
    case Some(Num(n)) => if n == 0.0 then None else Some(n)
    case _ => None
  }

  /** `product.images?.[0] || ''`: the first image, or the empty string when there is none. */
  function FirstImage(images: Option<seq<string>>): (r: string)
    ensures images.Some? && images.value != [] ==> r == images.value[0]
    ensures images.None? || images.value == [] ==> r == ""
    ensures r != "" ==> images.Some? && r in images.value
  {
    if images.Some? && images.value != [] then images.value[0] else ""
  }

  /** The ADD_ITEM payload of this screen: the product and the selected quantity. */
  function DetailsPayload(p: Product, quantity: int): (r: CartContext.ItemPayload)
    ensures r.id == p.id && r.price == p.price && r.quantity == Some(quantity)
  {
    CartContext.ItemPayload(p.id, p.title, p.price, p.description, FirstImage(p.images), Some(quantity))
  }

  /** Since the stepper keeps the quantity at 1 or more, the cart receives exactly the selected
      quantity: a new line with it, or an existing line raised by it. */
  lemma SelectedQuantityReachesCart(state: CartContext.CartState, p: Product, q: int)
    requires q >= 1
    ensures CartContext.Increment(DetailsPayload(p, q).quantity) == q
    ensures !CartContext.InCart(state.items, p.id) ==>
      CartContext.CartReducer(state, CartContext.AddItem(DetailsPayload(p, q))).state.items
        == state.items + [CartContext.CartItem(p.id, p.title, p.price, p.description, FirstImage(p.images), q)]
  {
    if !CartContext.InCart(state.items, p.id) {
      CartContext.AddAppendsNew(state, DetailsPayload(p, q));
    }
  }

  /** The screen's state. */
  class DetailsScreen {
    var product: Option<Product>
    var addedToCart: bool
    var quantity: int
    var wishlisted: bool
    var loading: bool
    var showAuthPrompt: bool
    const cart: CartContext.CartStore

    /** The stepper never shows less than 1. */
    predicate Valid()
      reads this
    {
      quantity >= 1
    }

    constructor (cart: CartContext.CartStore)
      ensures Valid() && this.cart == cart
      ensures product == None && quantity == 1 && !addedToCart && !wishlisted && loading && !showAuthPrompt
    {
      this.cart := cart;
      product := None;
      addedToCart := false;
      quantity := 1;
      wishlisted := false;
      loading := true;
      showAuthPrompt := false;
    }

    /** The load effect. A rejected id stops before any fetch (`requested` is None) and changes
        nothing; otherwise the product `response` (None when the fetch fails) is shown and
        loading ends. */
    method Load(routeId: Option<JsNumber>, response: Option<Product>) returns (requested: Option<real>)
      modifies this`product, this`loading
      ensures requested == ValidProductId(routeId)
      ensures requested.None? ==> product == old(product) && loading == old(loading)
      ensures requested.Some? ==> !loading && product == if response.Some? then response else old(product)
    {
      requested := ValidProductId(routeId);
      if requested.None? {
        return;
      }
      loading := true;
      if response.Some? {
        product := response;
      }
      loading := false;
    }

    /** The "-" button: `Math.max(1, q - 1)`. */
    method Decrement()
      modifies this`quantity
      ensures quantity == if old(quantity) - 1 > 1 then old(quantity) - 1 else 1
      ensures Valid()
    {
      quantity := if quantity - 1 > 1 then quantity - 1 else 1;
    }

    /** The "+" button. */
    method Increment()
      requires Valid()
      modifies this`quantity
      ensures quantity == old(quantity) + 1 && Valid()
    {
      quantity := quantity + 1;
    }

    /** `handleAddToCart`: nothing without a product; the sign-in prompt and no dispatch without a
        user; otherwise ADD_ITEM with the selected quantity, and the button turns to "added". */
    method HandleAddToCart(user: Option<AuthContext.Session>)
      modifies this`showAuthPrompt, this`addedToCart, cart
      ensures product.None? ==>
        showAuthPrompt == old(showAuthPrompt) && addedToCart == old(addedToCart) &&
        cart.state == old(cart.state) && cart.stored == old(cart.stored)
      ensures product.Some? && user.None? ==>
        showAuthPrompt && addedToCart == old(addedToCart) &&
        cart.state == old(cart.state) && cart.stored == old(cart.stored)
      ensures product.Some? && user.Some? ==>
        cart.state == CartContext.CartReducer(old(cart.state), CartContext.AddItem(DetailsPayload(product.value, quantity))).state &&
        cart.stored == Some(cart.state.items) && addedToCart && showAuthPrompt == old(showAuthPrompt)
    {
      if product.None? {
        return;
      }
      if user.None? {
        showAuthPrompt := true;
        return;
      }
      cart.Dispatch(CartContext.AddItem(DetailsPayload(product.value, quantity)));
      addedToCart := true;
    }

    /** `toggleWishlist`: the sign-in prompt without a user, otherwise the heart flips. The flag
        is local to this screen; the wishlist store is not touched. */
    method ToggleWishlist(user: Option<AuthContext.Session>)
      modifies this`showAuthPrompt, this`wishlisted
      ensures user.None? ==> showAuthPrompt && wishlisted == old(wishlisted)
      ensures user.Some? ==> wishlisted == !old(wishlisted) && showAuthPrompt == old(showAuthPrompt)
    {
      if user.None? {
        showAuthPrompt := true;
        return;
      }
      wishlisted := !wishlisted;
    }
  }
}
