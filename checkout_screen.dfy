/** The checkout screen: the order total, the choice of a delivery address, and the payment
    handler with its guards and its clear-the-cart-on-success rule. The payment gateway's answer
    (and, without the gateway, the user's choice and the demo's random outcome) are parameters. */
module CheckoutScreen {
  import opened Wrappers
  import Keyed
  import CartContext
  import UserContext

  type CartItem = CartContext.CartItem
  type Address = UserContext.Address

  /** What one line costs: `item.price * item.quantity`. */
  function LineTotal(item: CartItem): real {
    item.price * item.quantity as real
  }

  /** `items.reduce((sum, item) => sum + item.price * item.quantity, 0)`: a left fold, so the
      last line is added last. */
  function Total(items: seq<CartItem>): real {
    if items == [] then 0.0 else Total(items[..|items| - 1]) + LineTotal(items[|items| - 1])
  }

  /** The sum over the lines taken from the front: a reference definition of the total. */
  function SumFromFront(items: seq<CartItem>): real {
    if items == [] then 0.0 else LineTotal(items[0]) + SumFromFront(items[1..])
  }

  /** With no negative price and no negative quantity, the total is not negative. */
  lemma {:induction false} TotalNonNegative(items: seq<CartItem>)
    requires forall i :: 0 <= i < |items| ==> items[i].price >= 0.0 && items[i].quantity >= 0
    ensures Total(items) >= 0.0
  {
    if items != [] {
      var init := items[..|items| - 1];
      assert forall i :: 0 <= i < |init| ==> init[i] == items[i];
      TotalNonNegative(init);
      var last := items[|items| - 1];
      assert last.price * last.quantity as real >= 0.0;
    }
  }

  /** The total of two runs of lines is the sum of their totals. */
  lemma {:induction false} TotalAppend(a: seq<CartItem>, b: seq<CartItem>)
    ensures Total(a + b) == Total(a) + Total(b)
  {
    if b == [] {
      assert a + b == a;
    } else {
      var n := |b|;
      assert (a + b)[..|a + b| - 1] == a + b[..n - 1];
      assert (a + b)[|a + b| - 1] == b[n - 1];
      TotalAppend(a, b[..n - 1]);
    }
  }

  /** The checkout total is the sum of price times quantity over the lines, in whichever
      direction it is summed. */
  lemma {:induction false} TotalIsSum(items: seq<CartItem>)
    ensures Total(items) == SumFromFront(items)
  {
    if items != [] {
      TotalIsSum(items[1..]);
      TotalAppend([items[0]], items[1..]);
      assert [items[0]] + items[1..] == items;
      assert Total([items[0]]) == LineTotal(items[0]) by {
        assert [items[0]][..0] == [];
      }
    }
  }

  /** Replacing one line changes the total by the difference of the two line totals. */
  lemma TotalReplace(s: seq<CartItem>, k: nat, x: CartItem)
    requires k < |s|
    ensures Total(s[k := x]) == Total(s) - LineTotal(s[k]) + LineTotal(x)
  {
    assert s == s[..k] + [s[k]] + s[k + 1..];
    assert s[k := x] == s[..k] + [x] + s[k + 1..];
    TotalAppend(s[..k] + [s[k]], s[k + 1..]);
    TotalAppend(s[..k], [s[k]]);
    TotalAppend(s[..k] + [x], s[k + 1..]);
    TotalAppend(s[..k], [x]);
    assert Total([s[k]]) == LineTotal(s[k]) by { assert [s[k]][..0] == []; }
    assert Total([x]) == LineTotal(x) by { assert [x][..0] == []; }
  }

  /** Adding a product that is not in the cart raises the total by its price times the
      quantity added. */
  lemma AddNewRaisesTotal(state: CartContext.CartState, p: CartContext.ItemPayload)
    requires !CartContext.InCart(state.items, p.id)
    ensures Total(CartContext.CartReducer(state, CartContext.AddItem(p)).state.items)
         == Total(state.items) + p.price * CartContext.Increment(p.quantity) as real
  {
    CartContext.AddAppendsNew(state, p);
    TotalAppend(state.items, [CartContext.NewLine(p)]);
    assert [CartContext.NewLine(p)][..0] == [];
  }

  /** Adding a product already in the cart raises the total by that line's price times the
      quantity added (the payload's price is not used). */
  lemma AddExistingRaisesTotal(state: CartContext.CartState, p: CartContext.ItemPayload, k: nat)
    requires CartContext.UniqueLines(state.items)
    requires k < |state.items| && state.items[k].id == p.id
    ensures Total(CartContext.CartReducer(state, CartContext.AddItem(p)).state.items)
         == Total(state.items) + state.items[k].price * CartContext.Increment(p.quantity) as real
  {
    calc {
      Total(CartContext.CartReducer(state, CartContext.AddItem(p)).state.items);
      { CartContext.AddMergesExisting(state, p, k); }
      Total(state.items[k := state.items[k].(quantity := state.items[k].quantity + CartContext.Increment(p.quantity))]);
      { TotalRaise(state.items, k, CartContext.Increment(p.quantity)); }
      Total(state.items) + state.items[k].price * CartContext.Increment(p.quantity) as real;
    }
  }

  /** `d` more units on line `k` cost `d` times that line's price more. */
  lemma TotalRaise(s: seq<CartItem>, k: nat, d: int)
    requires k < |s|
    ensures Total(s[k := s[k].(quantity := s[k].quantity + d)]) == Total(s) + s[k].price * d as real
  {
    TotalReplace(s, k, s[k].(quantity := s[k].quantity + d));
    LineTotalRaise(s[k], d);
  }

  /** One line with `d` more units costs `d` times its price more. */
  lemma LineTotalRaise(line: CartItem, d: int)
    ensures LineTotal(line.(quantity := line.quantity + d)) == LineTotal(line) + line.price * d as real
  {
    var x, a, b := line.price, line.quantity as real, d as real;
    assert (line.quantity + d) as real == a + b;
    assert x * (a + b) == x * a + x * b;
  }

  /** Removing a line lowers the total by exactly that line's total. */
  lemma RemoveLowersTotal(state: CartContext.CartState, k: nat)
    requires CartContext.UniqueLines(state.items)
    requires k < |state.items|
    ensures Total(CartContext.CartReducer(state, CartContext.RemoveItem(state.items[k].id)).state.items)
         == Total(state.items) - LineTotal(state.items[k])
  {
    var s := state.items;
    CartContext.RemoveDeletesLine(state, k);
    assert s == s[..k] + [s[k]] + s[k + 1..];
    TotalAppend(s[..k] + [s[k]], s[k + 1..]);
    TotalAppend(s[..k], [s[k]]);
    TotalAppend(s[..k], s[k + 1..]);
    assert Total([s[k]]) == LineTotal(s[k]) by { assert [s[k]][..0] == []; }
  }

  function IsDefault(a: Address): bool { a.isDefault }

  /** `addresses.find(a => a.isDefault) || addresses[0]`: the first default address, or the
      first address when none is the default. */
  function DefaultPick(addrs: seq<Address>): (r: Address)
    requires addrs != []
    ensures r in addrs
    ensures r.isDefault <==> UserContext.HasDefault(addrs)
    ensures UserContext.HasDefault(addrs) ==>
      exists i :: 0 <= i < |addrs| && addrs[i] == r && forall j :: 0 <= j < i ==> !addrs[j].isDefault
    ensures !UserContext.HasDefault(addrs) ==> r == addrs[0]
  {
    match Keyed.FirstIndex(addrs, IsDefault, true)
    case Some(i) => addrs[i]
    case None => addrs[0]
  }

  /** In an address book with at most one default, the pick is that default when there is one. */
  lemma PickIsTheDefault(addrs: seq<Address>, i: nat)
    requires UserContext.AtMostOneDefault(addrs)
    requires i < |addrs| && addrs[i].isDefault
    ensures DefaultPick(addrs) == addrs[i]
  {
    assert IsDefault(addrs[i]);
    var k := Keyed.FirstIndex(addrs, IsDefault, true).value;
    assert k == i;
  }

  /** The `error.error` object a failed gateway call carries. */
  datatype ErrorDetail = ErrorDetail(code: Option<int>, description: Option<string>)

  const NetworkMessage := "Network error. Please check your connection."
  const CancelledMessage := "Payment cancelled by user."
  const DefaultMessage := "Payment failed or cancelled"
  const DemoFailureMessage := "Demo payment failed. Try again."

  /** The message shown after a failed payment. An empty description is falsy in the app, so the
      message is never empty. */
  function ErrorMessage(e: Option<ErrorDetail>): (msg: string)
    ensures msg != ""
    ensures e.Some? && e.value.code == Some(2) ==> msg == NetworkMessage
    ensures e.Some? && e.value.code == Some(3) ==> msg == CancelledMessage
    ensures msg != NetworkMessage && msg != CancelledMessage && msg != DefaultMessage ==>
      e.Some? && e.value.description == Some(msg)
    ensures
      (e.None? || (e.value.code != Some(2) && e.value.code != Some(3) &&
                   (e.value.description.None? || e.value.description == Some(""))))
      ==> msg == DefaultMessage
    ensures
      (e.Some? && e.value.code != Some(2) && e.value.code != Some(3) &&
       e.value.description.Some? && e.value.description != Some(""))
      ==> msg == e.value.description.value
  {
    if e.None? then DefaultMessage
    else if e.value.code == Some(2) then NetworkMessage
    else if e.value.code == Some(3) then CancelledMessage
    else if e.value.description.Some? && e.value.description.value != "" then e.value.description.value
    else DefaultMessage
  }

  /** The gateway's answer to `RazorpayCheckout.open`. */
  datatype GatewayAnswer = Paid | Declined(error: Option<ErrorDetail>)

  /** What the user picks in the "Payment Unavailable" alert; for the demo, whether the
      simulated payment succeeds. */
  datatype DemoChoice = Cancel | UseDemo(succeeds: bool)

  /** Whether the gateway's SDK is present and, if so, how it answers. */
  datatype Gateway = Razorpay(answer: GatewayAnswer) | Unavailable(choice: DemoChoice)

  /** How `handlePayment` ends: refused by a guard, dismissed, or reported on the result screen. */
  datatype PaymentResult =
    | AddressRequired
    | MinimumOrder
    | Dismissed
    | Success(amount: real, demo: bool)
    | Failure(message: string, shownAmount: Option<real>, demo: bool)

  /** The result of `handleDemoPayment`: no guard is checked; a successful draw reports the
      total, a failed one the demo message without an amount. */
  function DemoOutcome(total: real, succeeds: bool): (r: PaymentResult)
    ensures r.Success? <==> succeeds
    ensures r.Success? ==> r == Success(total, true)
    ensures !r.Success? ==> r == Failure(DemoFailureMessage, None, true)
  {
    if succeeds then Success(total, true) else Failure(DemoFailureMessage, None, true)
  }

  /** The result of `handlePayment`, with its guards, its "Payment Unavailable" alert when the
      SDK is missing, and the gateway's answer otherwise. */
  function PaymentOutcome(hasAddress: bool, total: real, gateway: Gateway): (r: PaymentResult)
    ensures r == AddressRequired <==> !hasAddress
    ensures r == MinimumOrder <==> hasAddress && total < 1.0
    ensures r.Success? ==> hasAddress && total >= 1.0 && r.amount == total
    ensures r.Success? <==>
      (hasAddress && total >= 1.0 && (gateway == Razorpay(Paid) || gateway == Unavailable(UseDemo(true))))
    ensures r.Failure? && r.demo ==> r.message == DemoFailureMessage && r.shownAmount.None?
    ensures r.Failure? && !r.demo ==>
      (r.shownAmount == Some(total) && gateway.Razorpay? && r.message == ErrorMessage(gateway.answer.error))
    ensures hasAddress && total >= 1.0 && gateway.Razorpay? && gateway.answer.Declined? ==>
      r == Failure(ErrorMessage(gateway.answer.error), Some(total), false)
    ensures r == Dismissed <==> hasAddress && total >= 1.0 && gateway == Unavailable(Cancel)
    ensures hasAddress && total >= 1.0 && gateway == Unavailable(UseDemo(false)) ==>
      r == Failure(DemoFailureMessage, None, true)
    ensures hasAddress && total >= 1.0 && gateway.Unavailable? && gateway.choice.UseDemo? ==>
      r == DemoOutcome(total, gateway.choice.succeeds)
  {
    if !hasAddress then AddressRequired
    else if total < 1.0 then MinimumOrder
    else match gateway
      case Razorpay(Paid) => Success(total, false)
      case Razorpay(Declined(e)) => Failure(ErrorMessage(e), Some(total), false)
      case Unavailable(Cancel) => Dismissed
      case Unavailable(UseDemo(s)) => DemoOutcome(total, s)
  }

  /** A press of the pay button. The button calls `handlePayment` when the gateway's SDK is
      present, and `handleDemoPayment` directly when it is not. */
  datatype PayPress = WithSdk(answer: GatewayAnswer) | WithoutSdk(demoSucceeds: bool)

  /** What a press of the pay button ends in. */
  function PressOutcome(hasAddress: bool, total: real, press: PayPress): (r: PaymentResult)
    ensures press.WithSdk? ==> r == PaymentOutcome(hasAddress, total, Razorpay(press.answer))
    ensures press.WithoutSdk? ==> r == DemoOutcome(total, press.demoSucceeds)
  {
    match press
    case WithSdk(answer) => PaymentOutcome(hasAddress, total, Razorpay(answer))
    case WithoutSdk(s) => DemoOutcome(total, s)
  }

  /** From the button, the address and minimum-order guards apply only when the SDK is present,
      and the "Payment Unavailable" alert, hence a dismissal, is never reached. */
  lemma GuardsOnlyWithSdk(hasAddress: bool, total: real, press: PayPress)
    ensures (PressOutcome(hasAddress, total, press) in {AddressRequired, MinimumOrder})
        <==> press.WithSdk? && (!hasAddress || total < 1.0)
    ensures PressOutcome(hasAddress, total, press) != Dismissed
    ensures PressOutcome(hasAddress, total, press).Success? ==>
      (press.WithoutSdk? || (hasAddress && total >= 1.0))
  {
  }

  /** Without the SDK a lucky demo draw succeeds with no delivery address and a total below the
      minimum order. */
  lemma DemoPaysWithoutAddress()
    ensures PressOutcome(false, 0.0, WithoutSdk(true)) == Success(0.0, true)
  {
  }

  /** The checkout screen's state over the cart and profile stores. */
  class Checkout {
    var selectedAddress: Option<Address>
    var processing: bool
    const cart: CartContext.CartStore
    const profile: UserContext.UserStore

    constructor (cart: CartContext.CartStore, profile: UserContext.UserStore)
      ensures this.cart == cart && this.profile == profile
      ensures selectedAddress == None && !processing
    {
      this.cart := cart;
      this.profile := profile;
      selectedAddress := None;
      processing := false;
    }

    /** The route-parameter effect: an address passed by the address screen (None when absent
        or unparsable) becomes the selection. */
    method SelectRouteAddress(param: Option<Address>)
      modifies this`selectedAddress
      ensures selectedAddress == if param.Some? then param else old(selectedAddress)
    {
      if param.Some? {
        selectedAddress := param;
      }
    }

    /** The auto-select effect: with nothing selected and some addresses, select the default
        one, or the first. */
    method AutoSelectAddress()
      modifies this`selectedAddress
      ensures old(selectedAddress).None? && |profile.addresses| > 0 ==>
        selectedAddress == Some(DefaultPick(profile.addresses))
      ensures old(selectedAddress).Some? || |profile.addresses| == 0 ==>
        selectedAddress == old(selectedAddress)
    {
      if selectedAddress.None? && |profile.addresses| > 0 {
        selectedAddress := Some(DefaultPick(profile.addresses));
      }
    }

    /** `handlePayment`. The guards refuse without touching anything; only a successful payment,
        real or demo, clears the cart; the processing flag is down again when a payment ends. */
    method HandlePayment(gateway: Gateway) returns (result: PaymentResult)
      modifies cart, this`processing
      ensures result == PaymentOutcome(selectedAddress.Some?, Total(old(cart.state.items)), gateway)
      ensures result.Success? ==> cart.state.items == [] && cart.stored == Some([])
      ensures !result.Success? ==> cart.state == old(cart.state) && cart.stored == old(cart.stored)
      ensures result.Success? || result.Failure? ==> !processing
      ensures !(result.Success? || result.Failure?) ==> processing == old(processing)
    {
      var total := Total(cart.state.items);
      if selectedAddress.None? {
        return AddressRequired;
      }
      if total < 1.0 {
        return MinimumOrder;
      }
      match gateway
      case Razorpay(answer) =>
        processing := true;
        if answer.Paid? {
          cart.Dispatch(CartContext.ClearCart);
          result := Success(total, false);
        } else {
          result := Failure(ErrorMessage(answer.error), Some(total), false);
        }
        processing := false;
      case Unavailable(choice) =>
        if choice.Cancel? {
          return Dismissed;
        }
        result := HandleDemoPayment(choice.succeeds);
    }

    /** `handleDemoPayment`: no guard; a successful draw clears the cart. */
    method HandleDemoPayment(succeeds: bool) returns (result: PaymentResult)
      modifies cart, this`processing
      ensures result == DemoOutcome(Total(old(cart.state.items)), succeeds)
      ensures succeeds ==> cart.state.items == [] && cart.stored == Some([])
      ensures !succeeds ==> cart.state == old(cart.state) && cart.stored == old(cart.stored)
      ensures !processing
    {
      var total := Total(cart.state.items);
      processing := true;
      if succeeds {
        cart.Dispatch(CartContext.ClearCart);
        result := Success(total, true);
      } else {
        result := Failure(DemoFailureMessage, None, true);
      }
      processing := false;
    }

    /** The pay button: it exists only for a non-empty cart and is disabled while a payment is
        processing. With the SDK it runs `handlePayment`, without it `handleDemoPayment`. */
    method PressPay(press: PayPress) returns (result: PaymentResult)
      requires cart.state.items != [] && !processing
      modifies cart, this`processing
      ensures result == PressOutcome(selectedAddress.Some?, Total(old(cart.state.items)), press)
      ensures result.Success? ==> cart.state.items == [] && cart.stored == Some([])
      ensures !result.Success? ==> cart.state == old(cart.state) && cart.stored == old(cart.stored)
      ensures !processing
    {
      match press
      case WithSdk(answer) =>
        result := HandlePayment(Razorpay(answer));
      case WithoutSdk(s) =>
        result := HandleDemoPayment(s);
    }
  }
}
