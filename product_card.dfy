/** The product card of the listings: the heart that toggles the product in the wishlist and the
    button that adds one unit to the cart. The enhanced card has the same two handlers. */
module ProductCard {
  import opened Wrappers
  import Keyed
  import CartContext
  import WishlistContext

  datatype CardProduct = CardProduct(id: int, title: string, price: real, images: seq<string>, category: string)

  /** `product.images[0]`; a product without images gives "". */
  function CardImage(p: CardProduct): (r: string)
    ensures p.images != [] ==> r == p.images[0]
    ensures r != "" ==> r in p.images
  {
    if p.images != [] then p.images[0] else ""
  }

  /** `wishlistState.items.some(item => item.id === product.id)` */
  function IsInWishlist(items: seq<WishlistContext.WishlistItem>, p: CardProduct): (r: bool)
    ensures r <==> exists i :: 0 <= i < |items| && items[i].id == p.id
  {
    assert forall i :: 0 <= i < |items| ==> WishlistContext.ItemId(items[i]) == items[i].id;
    Keyed.FirstIndex(items, WishlistContext.ItemId, p.id).Some?
  }

  /** The wishlist entry the card adds: id, title, price and first image, no category. */
  function CardItem(p: CardProduct): (r: WishlistContext.WishlistItem)
    ensures WishlistContext.ItemId(r) == p.id && r.title == p.title && r.price == p.price
    ensures r.image == CardImage(p) && r.category.None?
  {
    WishlistContext.WishlistItem(p.id, p.title, p.price, CardImage(p), None)
  }

  /** What `toggleWishlist` dispatches: a removal when the product is listed, an addition
      otherwise. */
  function ToggleAction(items: seq<WishlistContext.WishlistItem>, p: CardProduct): (a: WishlistContext.WishlistAction)
    ensures IsInWishlist(items, p) ==> a == WishlistContext.RemoveFromWishlist(p.id)
    ensures !IsInWishlist(items, p) ==> a == WishlistContext.AddToWishlist(CardItem(p))
  {
    if IsInWishlist(items, p) then WishlistContext.RemoveFromWishlist(p.id)
    else WishlistContext.AddToWishlist(CardItem(p))
  }

  /** The wishlist after one press of the heart. */
  function Toggled(items: seq<WishlistContext.WishlistItem>, p: CardProduct): seq<WishlistContext.WishlistItem> {
    WishlistContext.WishlistReducer(WishlistContext.WishlistState(items), ToggleAction(items, p)).state.items
  }

  /** One press flips whether the product is listed. */
  lemma ToggleFlipsMembership(items: seq<WishlistContext.WishlistItem>, p: CardProduct)
    ensures IsInWishlist(Toggled(items, p), p) <==> !IsInWishlist(items, p)
  {
    var after := Toggled(items, p);
    if !IsInWishlist(items, p) {
      assert after == items + [CardItem(p)];
      assert after[|items|].id == p.id;
    } else {
      assert !Keyed.HasKey(after, WishlistContext.ItemId, p.id);
      forall i | 0 <= i < |after| ensures after[i].id != p.id {
        assert WishlistContext.ItemId(after[i]) != p.id;
      }
    }
  }

  /** Two presses restore whether the product is listed; starting from a wishlist without it,
      they restore the wishlist itself. */
  lemma ToggleTwiceRestores(items: seq<WishlistContext.WishlistItem>, p: CardProduct)
    ensures IsInWishlist(Toggled(Toggled(items, p), p), p) == IsInWishlist(items, p)
    ensures !IsInWishlist(items, p) ==> Toggled(Toggled(items, p), p) == items
  {
    ToggleFlipsMembership(items, p);
    ToggleFlipsMembership(Toggled(items, p), p);
    if !IsInWishlist(items, p) {
      assert !Keyed.HasKey(items, WishlistContext.ItemId, p.id) by {
        forall i | 0 <= i < |items| ensures WishlistContext.ItemId(items[i]) != p.id {
        }
      }
      Keyed.WithoutAppend(items, [CardItem(p)], WishlistContext.ItemId, p.id);
      Keyed.WithoutAbsent(items, WishlistContext.ItemId, p.id);
      assert Keyed.Without([CardItem(p)], WishlistContext.ItemId, p.id) == [];
    }
  }

  /** The ADD_ITEM payload of the card: no description, the first image, and no quantity. */
  function CardPayload(p: CardProduct): (r: CartContext.ItemPayload)
    ensures r.quantity.None? && CartContext.Increment(r.quantity) == 1
    ensures CartContext.NewLine(r) == CartContext.CartItem(p.id, p.title, p.price, "", CardImage(p), 1)
  {
    CartContext.ItemPayload(p.id, p.title, p.price, "", CardImage(p), None)
  }

  /** A card adds exactly one unit: a new line with quantity 1, or one more on the existing line. */
  lemma CardAddsOne(state: CartContext.CartState, p: CardProduct)
    requires CartContext.UniqueLines(state.items)
    ensures CartContext.Increment(CardPayload(p).quantity) == 1
    ensures !CartContext.InCart(state.items, p.id) ==>
      CartContext.CartReducer(state, CartContext.AddItem(CardPayload(p))).state.items
        == state.items + [CartContext.CartItem(p.id, p.title, p.price, "", CardImage(p), 1)]
    ensures forall k :: 0 <= k < |state.items| && state.items[k].id == p.id ==>
      CartContext.CartReducer(state, CartContext.AddItem(CardPayload(p))).state.items
        == state.items[k := state.items[k].(quantity := state.items[k].quantity + 1)]
  {
    if !CartContext.InCart(state.items, p.id) {
      CartContext.AddAppendsNew(state, CardPayload(p));
    }
    forall k | 0 <= k < |state.items| && state.items[k].id == p.id
      ensures CartContext.CartReducer(state, CartContext.AddItem(CardPayload(p))).state.items
        == state.items[k := state.items[k].(quantity := state.items[k].quantity + 1)]
    {
      CartContext.AddMergesExisting(state, CardPayload(p), k);
    }
  }

  /** `toggleWishlist` of the card. */
  method ToggleWishlist(p: CardProduct, wishlist: WishlistContext.WishlistStore)
    modifies wishlist
    ensures wishlist.state.items == Toggled(old(wishlist.state.items), p)
    ensures IsInWishlist(wishlist.state.items, p) <==> !IsInWishlist(old(wishlist.state.items), p)
    ensures wishlist.stored == Some(wishlist.state.items)
  {
    ToggleFlipsMembership(wishlist.state.items, p);
    if IsInWishlist(wishlist.state.items, p) {
      wishlist.Dispatch(WishlistContext.RemoveFromWishlist(p.id));
    } else {
      assert !WishlistContext.InWishlist(wishlist.state.items, p.id) by {
        forall i | 0 <= i < |wishlist.state.items|
          ensures WishlistContext.ItemId(wishlist.state.items[i]) != p.id {
        }
      }
      wishlist.Dispatch(WishlistContext.AddToWishlist(CardItem(p)));
    }
  }

  /** `handleAddToCart` of the card. */
  method AddToCart(p: CardProduct, cart: CartContext.CartStore)
    modifies cart
    ensures cart.state == CartContext.CartReducer(old(cart.state), CartContext.AddItem(CardPayload(p))).state
    ensures cart.stored == Some(cart.state.items)
  {
    cart.Dispatch(CartContext.AddItem(CardPayload(p)));
  }
}
