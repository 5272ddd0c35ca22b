/** The wishlist store: `wishlistReducer` over a list of products with set semantics, and the
    provider that holds its state and mirrors it into device storage under `@wishlist`. */
module WishlistContext {
  import opened Wrappers
  import Keyed

  datatype WishlistItem = WishlistItem(
    id: int, title: string, price: real, image: string, category: Option<string>)

  function ItemId(item: WishlistItem): int { item.id }

  datatype WishlistState = WishlistState(items: seq<WishlistItem>)

  datatype WishlistAction =
    | AddToWishlist(item: WishlistItem)
    | RemoveFromWishlist(id: int)
    | LoadWishlist(items: seq<WishlistItem>)
    | ClearWishlist
      /** an action object whose `type` is none of the above */
    | Unrecognized(tag: string)

  /** The reducer's result: the next state, and the items it writes to storage, if any. */
  datatype Step = Step(state: WishlistState, write: Option<seq<WishlistItem>>)

  predicate InWishlist(items: seq<WishlistItem>, id: int) {
    Keyed.HasKey(items, ItemId, id)
  }

  predicate UniqueItems(items: seq<WishlistItem>) {
    Keyed.UniqueKeys(items, ItemId)
  }

  function Saved(items: seq<WishlistItem>): Step {
    Step(WishlistState(items), Some(items))
  }

  /** `wishlistReducer`. Adding a product already listed returns the state unchanged and writes
      nothing; every other handled action writes exactly the items it returns. */
  function WishlistReducer(state: WishlistState, action: WishlistAction): (r: Step)
    ensures r.write.None? <==>
      action.Unrecognized? || (action.AddToWishlist? && InWishlist(state.items, action.item.id))
    ensures r.write.None? ==> r.state == state
    ensures r.write.Some? ==> r.write.value == r.state.items
  {
    match action
    case AddToWishlist(item) =>
      if Keyed.FirstIndex(state.items, ItemId, item.id).Some? then Step(state, None)
      else Saved(state.items + [item])
    case RemoveFromWishlist(id) => Saved(Keyed.Without(state.items, ItemId, id))
    case LoadWishlist(items) => Saved(items)
    case ClearWishlist => Saved([])
    case Unrecognized(_) => Step(state, None)
  }

  /** ADD_TO_WISHLIST with a new product appends it at the end. */
  lemma AddAppendsNew(state: WishlistState, item: WishlistItem)
    requires !InWishlist(state.items, item.id)
    ensures WishlistReducer(state, AddToWishlist(item)).state.items == state.items + [item]
  {
  }

  /** Adding the same product twice is the same as adding it once, and the second add writes
      nothing to storage. */
  lemma AddIsIdempotent(state: WishlistState, item: WishlistItem)
    ensures
      var once := WishlistReducer(state, AddToWishlist(item)).state;
      var twice := WishlistReducer(once, AddToWishlist(item));
      twice.state == once && twice.write == None
  {
    var once := WishlistReducer(state, AddToWishlist(item)).state;
    if !InWishlist(state.items, item.id) {
      assert once.items[|state.items|] == item;
    }
    assert InWishlist(once.items, item.id);
  }

  /** After adding a product twice to a wishlist without duplicates, it is listed exactly once. */
  lemma AddTwiceListsOnce(state: WishlistState, item: WishlistItem)
    requires UniqueItems(state.items)
    ensures
      var once := WishlistReducer(state, AddToWishlist(item)).state;
      var twice := WishlistReducer(once, AddToWishlist(item)).state;
      InWishlist(twice.items, item.id) && UniqueItems(twice.items)
  {
    AddIsIdempotent(state, item);
    ReducerKeepsItemsUnique(state, AddToWishlist(item));
    var once := WishlistReducer(state, AddToWishlist(item)).state;
    if !InWishlist(state.items, item.id) {
      assert once.items[|state.items|] == item;
    }
  }

  /** REMOVE_FROM_WISHLIST drops that product and keeps the others in their order: filtering a
      concatenation is the concatenation of the filtered parts. */
  lemma RemoveKeepsOrder(before: seq<WishlistItem>, after: seq<WishlistItem>, id: int)
    ensures !InWishlist(WishlistReducer(WishlistState(before + after), RemoveFromWishlist(id)).state.items, id)
    ensures WishlistReducer(WishlistState(before + after), RemoveFromWishlist(id)).state.items
         == WishlistReducer(WishlistState(before), RemoveFromWishlist(id)).state.items
          + WishlistReducer(WishlistState(after), RemoveFromWishlist(id)).state.items
  {
    Keyed.WithoutAppend(before, after, ItemId, id);
  }

  /** With unique ids, removing the product at position `k` deletes exactly that entry. */
  lemma RemoveDeletesEntry(state: WishlistState, k: nat)
    requires UniqueItems(state.items)
    requires k < |state.items|
    ensures WishlistReducer(state, RemoveFromWishlist(state.items[k].id)).state.items
         == state.items[..k] + state.items[k + 1..]
  {
    Keyed.WithoutUniqueAt(state.items, ItemId, k);
  }

  /** LOAD_WISHLIST replaces the items wholesale; CLEAR_WISHLIST empties them. */
  lemma LoadAndClearReplace(state: WishlistState, items: seq<WishlistItem>)
    ensures WishlistReducer(state, LoadWishlist(items)).state.items == items
    ensures WishlistReducer(state, ClearWishlist).state.items == []
  {
  }

  /** Every action but LOAD_WISHLIST (which takes its payload as it is) keeps ids unique. */
  lemma ReducerKeepsItemsUnique(state: WishlistState, action: WishlistAction)
    requires UniqueItems(state.items)
    requires !action.LoadWishlist?
    ensures UniqueItems(WishlistReducer(state, action).state.items)
  {
    match action
    case AddToWishlist(item) =>
      if !InWishlist(state.items, item.id) {
        Keyed.AppendKeepsUnique(state.items, ItemId, item);
      }
    case RemoveFromWishlist(id) => Keyed.WithoutKeepsUnique(state.items, ItemId, id);
    case ClearWishlist =>
    case Unrecognized(_) =>
  }

  /** The wishlist provider: the reducer's current state and the copy last written to storage. */
  class WishlistStore {
    var state: WishlistState
    /** the content of `@wishlist`; None until this store first writes it */
    ghost var stored: Option<seq<WishlistItem>>

    constructor ()
      ensures state == WishlistState([]) && stored == None
    {
      state := WishlistState([]);
      stored := None;
    }

    /** `dispatch`: run the reducer and perform the storage write it asks for. */
    method Dispatch(action: WishlistAction)
      modifies this
      ensures state == WishlistReducer(old(state), action).state
      ensures stored == if WishlistReducer(old(state), action).write.Some? then Some(state.items) else old(stored)
    {
      var step := WishlistReducer(state, action);
      state := step.state;
      if step.write.Some? {
        stored := step.write;
      }
    }
  }
}
