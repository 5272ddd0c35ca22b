/** The cart store: `cartReducer` over a list of line items keyed by product id, and the
    provider that holds its state and mirrors every handled action into device storage under
    the key `@ecomm_cart`. */
module CartContext {
  import opened Wrappers
  import Keyed

  /** One line of the cart; `id` is the product id. Quantities are whatever the actions
      wrote: the reducer itself never clamps them. */
  datatype CartItem = CartItem(
    id: int, title: string, price: real, description: string, image: string, quantity: int)

  function ItemId(item: CartItem): int { item.id }

  /** The payload of ADD_ITEM: a partial item whose `quantity` may be missing. */
  datatype ItemPayload = ItemPayload(
    id: int, title: string, price: real, description: string, image: string,
    quantity: Option<int>)

  datatype CartState = CartState(items: seq<CartItem>)

  datatype CartAction =
    | AddItem(payload: ItemPayload)
    | RemoveItem(id: int)
    | UpdateQuantity(id: int, quantity: int)
    | ClearCart
    | LoadCart(items: seq<CartItem>)
      /** an action object whose `type` is none of the above */
    | Unrecognized(tag: string)

  /** The reducer's result: the next state, and the items it writes to storage, if any. */
  datatype Step = Step(state: CartState, write: Option<seq<CartItem>>)

  /** What ADD_ITEM adds: the payload's quantity when it is truthy, otherwise 1
      (a missing quantity and a quantity of 0 are both falsy). */
  function Increment(quantity: Option<int>): int {
    if quantity.Some? && quantity.value != 0 then quantity.value else 1
  }

  /** The line ADD_ITEM appends for a product not yet in the cart. */
  function NewLine(p: ItemPayload): CartItem {
    CartItem(p.id, p.title, p.price, p.description, p.image, Increment(p.quantity))
  }

  /** `items.map(i => i.id === id ? { ...i, quantity: q } : i)` */
  function WithQuantity(items: seq<CartItem>, id: int, q: int): seq<CartItem> {
    seq(|items|, i requires 0 <= i < |items| =>
      if items[i].id == id then items[i].(quantity := q) else items[i])
  }

  /** ADD_ITEM: merge into the line found by `find`, or append a new line. */
  function AddItemTo(items: seq<CartItem>, p: ItemPayload): seq<CartItem> {
    match Keyed.FirstIndex(items, ItemId, p.id)
    case Some(i) => WithQuantity(items, p.id, items[i].quantity + Increment(p.quantity))
    case None => items + [NewLine(p)]
  }

  function Saved(items: seq<CartItem>): Step {
    Step(CartState(items), Some(items))
  }

  /** `cartReducer`. Every handled action, LOAD_CART included, writes exactly the items it
      returns; an unrecognized action returns the very same state and writes nothing. */
  function CartReducer(state: CartState, action: CartAction): (r: Step)
    ensures action.Unrecognized? <==> r.write.None?
    ensures r.write.Some? ==> r.write.value == r.state.items
    ensures action.Unrecognized? ==> r.state == state
  {
    match action
    case AddItem(p) => Saved(AddItemTo(state.items, p))
    case RemoveItem(id) => Saved(Keyed.Without(state.items, ItemId, id))
    case UpdateQuantity(id, q) => Saved(WithQuantity(state.items, id, q))
    case ClearCart => Saved([])
    case LoadCart(items) => Saved(items)
    case Unrecognized(_) => Step(state, None)
  }

  /** No two lines of the cart share a product id. */
  predicate UniqueLines(items: seq<CartItem>) {
    Keyed.UniqueKeys(items, ItemId)
  }

  predicate InCart(items: seq<CartItem>, id: int) {
    Keyed.HasKey(items, ItemId, id)
  }

  /** ADD_ITEM for a product already in the cart adds the payload's quantity (1 when it is
      missing or 0) to that line; every other line, and the length, stay as they were. */
  lemma AddMergesExisting(state: CartState, p: ItemPayload, k: nat)
    requires UniqueLines(state.items)
    requires k < |state.items| && state.items[k].id == p.id
    ensures CartReducer(state, AddItem(p)).state.items
         == state.items[k := state.items[k].(quantity := state.items[k].quantity + Increment(p.quantity))]
  {
    var items := state.items;
    var found := Keyed.FirstIndex(items, ItemId, p.id);
    assert ItemId(items[k]) == p.id;
    assert found.Some? && found.value == k;
    var merged := WithQuantity(items, p.id, items[k].quantity + Increment(p.quantity));
    forall j | 0 <= j < |items| && j != k ensures merged[j] == items[j] {
      if j < k {
        assert ItemId(items[j]) != ItemId(items[k]);
      } else {
        assert ItemId(items[k]) != ItemId(items[j]);
      }
    }
  }

  /** ADD_ITEM for a product not in the cart appends exactly one line at the end, with the
      payload's quantity, or 1 when that is missing or 0. */
  lemma AddAppendsNew(state: CartState, p: ItemPayload)
    requires !InCart(state.items, p.id)
    ensures CartReducer(state, AddItem(p)).state.items == state.items + [NewLine(p)]
    ensures NewLine(p).quantity == if p.quantity == None || p.quantity == Some(0) then 1 else p.quantity.value
  {
  }

  /** ADD_ITEM never creates a second line for a product. */
  lemma AddKeepsLinesUnique(state: CartState, p: ItemPayload)
    requires UniqueLines(state.items)
    ensures UniqueLines(CartReducer(state, AddItem(p)).state.items)
  {
    var items := state.items;
    match Keyed.FirstIndex(items, ItemId, p.id)
    case Some(i) =>
      var merged := CartReducer(state, AddItem(p)).state.items;
      forall a, b | 0 <= a < b < |merged| ensures ItemId(merged[a]) != ItemId(merged[b]) {
        assert ItemId(merged[a]) == ItemId(items[a]) && ItemId(merged[b]) == ItemId(items[b]);
      }
    case None =>
      Keyed.AppendKeepsUnique(items, ItemId, NewLine(p));
  }

  /** REMOVE_ITEM deletes the line of that product and keeps the others in order. */
  lemma RemoveDeletesLine(state: CartState, k: nat)
    requires UniqueLines(state.items)
    requires k < |state.items|
    ensures CartReducer(state, RemoveItem(state.items[k].id)).state.items
         == state.items[..k] + state.items[k + 1..]
  {
    Keyed.WithoutUniqueAt(state.items, ItemId, k);
  }

  /** REMOVE_ITEM of a product that is not in the cart leaves the lines as they were. */
  lemma RemoveAbsentIsNoOp(state: CartState, id: int)
    requires !InCart(state.items, id)
    ensures CartReducer(state, RemoveItem(id)).state == state
  {
    Keyed.WithoutAbsent(state.items, ItemId, id);
  }

  /** UPDATE_QUANTITY sets the quantity of the matching line to exactly the given value, even
      when that value is 0 or negative (no line is removed); other lines are unchanged. */
  lemma UpdateSetsQuantity(state: CartState, id: int, q: int)
    ensures |CartReducer(state, UpdateQuantity(id, q)).state.items| == |state.items|
    ensures forall j :: 0 <= j < |state.items| ==>
      CartReducer(state, UpdateQuantity(id, q)).state.items[j]
        == if state.items[j].id == id then state.items[j].(quantity := q) else state.items[j]
  {
  }

  /** CLEAR_CART empties the cart; LOAD_CART takes its payload as the new list, without
      merging it into the old one. */
  lemma ClearAndLoadReplace(state: CartState, items: seq<CartItem>)
    ensures CartReducer(state, ClearCart).state.items == []
    ensures CartReducer(state, LoadCart(items)).state.items == items
  {
  }

  /** Every action but LOAD_CART (which trusts its payload) keeps product ids unique. */
  lemma ReducerKeepsLinesUnique(state: CartState, action: CartAction)
    requires UniqueLines(state.items)
    requires !action.LoadCart?
    ensures UniqueLines(CartReducer(state, action).state.items)
  {
    match action
    case AddItem(p) => AddKeepsLinesUnique(state, p);
    case RemoveItem(id) => Keyed.WithoutKeepsUnique(state.items, ItemId, id);
    case UpdateQuantity(id, q) =>
      var after := CartReducer(state, action).state.items;
      forall a, b | 0 <= a < b < |after| ensures ItemId(after[a]) != ItemId(after[b]) {
        assert ItemId(after[a]) == ItemId(state.items[a]) && ItemId(after[b]) == ItemId(state.items[b]);
      }
    case ClearCart =>
    case Unrecognized(_) =>
  }

  /** Adding product 7 twice, first with quantity 2 and then with quantity 3, leaves one
      line for it with quantity 5. */
  lemma MergeExample()
    ensures
      var p2 := ItemPayload(7, "", 10.0, "", "", Some(2));
      var p3 := ItemPayload(7, "", 10.0, "", "", Some(3));
      var once := CartReducer(CartState([]), AddItem(p2)).state;
      CartReducer(once, AddItem(p3)).state.items == [CartItem(7, "", 10.0, "", "", 5)]
  {
    var p2 := ItemPayload(7, "", 10.0, "", "", Some(2));
    var p3 := ItemPayload(7, "", 10.0, "", "", Some(3));
    var once := CartReducer(CartState([]), AddItem(p2)).state;
    assert once.items == [CartItem(7, "", 10.0, "", "", 2)];
    AddMergesExisting(once, p3, 0);
  }

  /** The cart provider: the reducer's current state and the copy it last wrote to storage. */
  class CartStore {
    var state: CartState
    /** the content of `@ecomm_cart`; None until this store first writes it */
    ghost var stored: Option<seq<CartItem>>

    constructor ()
      ensures state == CartState([]) && stored == None
    {
      state := CartState([]);
      stored := None;
    }

    /** `dispatch`: run the reducer and perform the storage write it asks for. */
    method Dispatch(action: CartAction)
      modifies this
      ensures state == CartReducer(old(state), action).state
      ensures stored == if action.Unrecognized? then old(stored) else Some(state.items)
    {
      var step := CartReducer(state, action);
      state := step.state;
      if step.write.Some? {
        stored := step.write;
      }
    }
  }
}
