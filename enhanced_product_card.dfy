/** The enhanced product card: the price badges, and wishlist and cart handlers that build the
    same actions as the plain card's. */
module EnhancedProductCard {
  import opened Wrappers
  import CartContext
  import WishlistContext
  import ProductCard

  /** What the card shows next to the price: the "Hot" badge, and a struck-through "original"
      price 20% above the real one. */
  datatype PriceBadges = PriceBadges(hot: bool, originalPrice: Option<real>)

  /** The badges for a product of price `price` on a card that is `compact` or not: both appear
      only above 100, the struck price never on a compact card, and the struck price is always
      above the real one. */
  function Badges(price: real, compact: bool): (b: PriceBadges)
    ensures b.hot <==> price > 100.0
    ensures b.originalPrice.Some? <==> b.hot && !compact
    ensures b.originalPrice.Some? ==> b.originalPrice.value > price
  {
    PriceBadges(price > 100.0, if !compact && price > 100.0 then Some(price * 1.2) else None)
  }

  /** `toggleWishlist` of the enhanced card: remove the product when `isInWishlist`, otherwise
      add its id, title, price and first image. */
  method ToggleWishlist(p: ProductCard.CardProduct, wishlist: WishlistContext.WishlistStore)
    modifies wishlist
    ensures wishlist.state == WishlistContext.WishlistReducer(old(wishlist.state),
      ProductCard.ToggleAction(old(wishlist.state.items), p)).state
    ensures ProductCard.IsInWishlist(wishlist.state.items, p) <==> !ProductCard.IsInWishlist(old(wishlist.state.items), p)
    ensures wishlist.stored == Some(wishlist.state.items)
  {
    ProductCard.ToggleWishlist(p, wishlist);
  }

  /** `handleAddToCart` of the enhanced card: ADD_ITEM without a quantity, so one unit. */
  method AddToCart(p: ProductCard.CardProduct, cart: CartContext.CartStore)
    modifies cart
    ensures cart.state == CartContext.CartReducer(old(cart.state), CartContext.AddItem(ProductCard.CardPayload(p))).state
    ensures cart.stored == Some(cart.state.items)
  {
    ProductCard.AddToCart(p, cart);
  }
}
