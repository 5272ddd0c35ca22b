/** The profile store: the user's profile, the order history (newest first) and the address
    book (at most one default address), each mirrored into device storage after every change
    (`@user_data`, `@user_orders`, `@user_addresses`). */
module UserContext {
  import opened Wrappers
  import Keyed
  import CartContext

  datatype Profile = Profile(username: string, email: string)

  datatype Address = Address(
    id: string, name: string, street: string, city: string, state: string, zipCode: string,
    phone: string, isDefault: bool)

  function AddressId(a: Address): string { a.id }

  /** An address before it has an id (`Omit<Address, 'id'>`). */
  datatype AddressFields = AddressFields(
    name: string, street: string, city: string, state: string, zipCode: string, phone: string,
    isDefault: bool)

  function WithId(f: AddressFields, id: string): Address {
    Address(id, f.name, f.street, f.city, f.state, f.zipCode, f.phone, f.isDefault)
  }

  /** The fields an update overwrites (`Partial<Address>`); None is a field the update leaves out. */
  datatype AddressPatch = AddressPatch(
    name: Option<string>, street: Option<string>, city: Option<string>, state: Option<string>,
    zipCode: Option<string>, phone: Option<string>, isDefault: Option<bool>)

  function Pick<T>(patched: Option<T>, current: T): T {
    if patched.Some? then patched.value else current
  }

  /** `{ ...addr, ...addressData }` */
  function Merge(a: Address, p: AddressPatch): Address {
    Address(a.id, Pick(p.name, a.name), Pick(p.street, a.street), Pick(p.city, a.city),
            Pick(p.state, a.state), Pick(p.zipCode, a.zipCode), Pick(p.phone, a.phone),
            Pick(p.isDefault, a.isDefault))
  }

  datatype OrderStatus = Pending | Completed | Cancelled

  /** An order as the caller supplies it (`Omit<Order, 'id' | 'date'>`). */
  datatype OrderFields = OrderFields(
    items: seq<CartContext.CartItem>, total: real, status: OrderStatus, address: Address)

  datatype Order = Order(
    id: string, date: string, items: seq<CartContext.CartItem>, total: real,
    status: OrderStatus, address: Address)

  function Stamp(f: OrderFields, id: string, date: string): Order {
    Order(id, date, f.items, f.total, f.status, f.address)
  }

  /** The address book's invariant: no two addresses are both flagged default. */
  predicate AtMostOneDefault(addrs: seq<Address>) {
    forall i, j :: 0 <= i < j < |addrs| ==> !(addrs[i].isDefault && addrs[j].isDefault)
  }

  predicate HasDefault(addrs: seq<Address>) {
    exists i :: 0 <= i < |addrs| && addrs[i].isDefault
  }

  /** The address book `addAddress` produces: when the new address is the default, every
      earlier one loses its flag first; the new address goes at the end. */
  function AddressesAfterAdd(addrs: seq<Address>, f: AddressFields, id: string): (r: seq<Address>)
    ensures |r| == |addrs| + 1 && r[|addrs|] == WithId(f, id)
    ensures f.isDefault ==> forall i :: 0 <= i < |addrs| ==> r[i] == addrs[i].(isDefault := false)
    ensures f.isDefault ==> forall i :: 0 <= i < |r| ==> (r[i].isDefault <==> i == |addrs|)
    ensures !f.isDefault ==> r[..|addrs|] == addrs
    ensures AtMostOneDefault(addrs) ==> AtMostOneDefault(r)
  {
    (if f.isDefault then ClearDefaults(addrs) else addrs) + [WithId(f, id)]
  }

  /** `addresses.map(addr => ({ ...addr, isDefault: false }))` */
  function ClearDefaults(addrs: seq<Address>): seq<Address> {
    seq(|addrs|, i requires 0 <= i < |addrs| => addrs[i].(isDefault := false))
  }

  /** `addresses.map(addr => addr.id === id ? { ...addr, ...addressData } : addr)` */
  function MergeMatching(addrs: seq<Address>, id: string, p: AddressPatch): seq<Address> {
    seq(|addrs|, i requires 0 <= i < |addrs| => if addrs[i].id == id then Merge(addrs[i], p) else addrs[i])
  }

  /** What the `forEach` does to one address: clear the flag unless it is the updated one. */
  function Unflag(a: Address, id: string): Address {
    if a.id != id then a.(isDefault := false) else a
  }

  /** The address book `updateAddress` produces. */
  function AddressesAfterUpdate(addrs: seq<Address>, id: string, p: AddressPatch): (r: seq<Address>)
    ensures |r| == |addrs|
    ensures forall i :: 0 <= i < |addrs| ==> r[i].id == addrs[i].id
    ensures forall i :: 0 <= i < |addrs| && addrs[i].id == id ==> r[i] == Merge(addrs[i], p)
    ensures forall i :: 0 <= i < |addrs| && addrs[i].id != id ==>
      r[i] == if p.isDefault == Some(true) then addrs[i].(isDefault := false) else addrs[i]
    ensures p.isDefault != Some(true) && AtMostOneDefault(addrs) ==> AtMostOneDefault(r)
    ensures p.isDefault == Some(true) && Keyed.UniqueKeys(addrs, AddressId) ==> AtMostOneDefault(r)
  {
    var merged := MergeMatching(addrs, id, p);
    if p.isDefault == Some(true) then seq(|merged|, i requires 0 <= i < |merged| => Unflag(merged[i], id))
    else merged
  }

  /** The address book `deleteAddress` produces. */
  function AddressesAfterDelete(addrs: seq<Address>, id: string): (r: seq<Address>)
    ensures !Keyed.HasKey(r, AddressId, id)
    ensures forall i :: 0 <= i < |r| ==> r[i] in addrs
    ensures forall i :: 0 <= i < |addrs| && addrs[i].id != id ==> addrs[i] in r
    ensures AtMostOneDefault(addrs) ==> AtMostOneDefault(r)
  {
    Keyed.WithoutMembers(addrs, AddressId, id);
    DeleteKeepsAtMostOneDefault(addrs, id);
    Keyed.Without(addrs, AddressId, id)
  }

  lemma {:induction false} DeleteKeepsAtMostOneDefault(addrs: seq<Address>, id: string)
    ensures AtMostOneDefault(addrs) ==> AtMostOneDefault(Keyed.Without(addrs, AddressId, id))
  {
    if |addrs| > 0 && AtMostOneDefault(addrs) {
      var tail := addrs[1..];
      assert AtMostOneDefault(tail) by {
        forall i, j | 0 <= i < j < |tail| ensures !(tail[i].isDefault && tail[j].isDefault) {
          assert tail[i] == addrs[i + 1] && tail[j] == addrs[j + 1];
        }
      }
      DeleteKeepsAtMostOneDefault(tail, id);
      var rest := Keyed.Without(tail, AddressId, id);
      if addrs[0].id != id && addrs[0].isDefault {
        Keyed.WithoutMembers(tail, AddressId, id);
        forall m | 0 <= m < |rest| ensures !rest[m].isDefault {
          var j :| 0 <= j < |tail| && tail[j] == rest[m];
          assert tail[j] == addrs[j + 1];
        }
        var r := [addrs[0]] + rest;
        forall i, j | 0 <= i < j < |r| ensures !(r[i].isDefault && r[j].isDefault) {
          assert r[j] == rest[j - 1];
          if i > 0 {
            assert r[i] == rest[i - 1];
          }
        }
      }
    }
  }

  /** Deleting never promotes another address to default: when every default address had the
      deleted id, no default is left. */
  lemma DeleteDoesNotPromote(addrs: seq<Address>, id: string)
    requires forall i :: 0 <= i < |addrs| && addrs[i].isDefault ==> addrs[i].id == id
    ensures !HasDefault(AddressesAfterDelete(addrs, id))
  {
    var r := AddressesAfterDelete(addrs, id);
    forall i | 0 <= i < |r| ensures !r[i].isDefault {
      assert r[i] in addrs;
      assert r[i].id != id by {
        assert !Keyed.HasKey(r, AddressId, id);
        assert AddressId(r[i]) != id;
      }
    }
  }

  /** Making B the default when A was the default leaves B as the only default. */
  lemma SetDefaultExample(a: Address, b: Address)
    requires a.id != b.id && a.isDefault && !b.isDefault
    ensures
      var r := AddressesAfterUpdate([a, b], b.id, AddressPatch(None, None, None, None, None, None, Some(true)));
      !r[0].isDefault && r[1].isDefault && r[1].id == b.id
  {
  }

  /** The profile provider. */
  class UserStore {
    var user: Profile
    var orders: seq<Order>
    var addresses: seq<Address>
    var showUserModal: bool
    /** the contents of `@user_data`, `@user_orders` and `@user_addresses`; None until this
        store first writes them */
    ghost var storedUser: Option<Profile>
    ghost var storedOrders: Option<seq<Order>>
    ghost var storedAddresses: Option<seq<Address>>

    constructor ()
      ensures user == Profile("", "") && orders == [] && addresses == [] && !showUserModal
      ensures storedUser == None && storedOrders == None && storedAddresses == None
    {
      user := Profile("", "");
      orders := [];
      addresses := [];
      showUserModal := false;
      storedUser, storedOrders, storedAddresses := None, None, None;
    }

    method SetShowUserModal(show: bool)
      modifies this`showUserModal
      ensures showUserModal == show
    {
      showUserModal := show;
    }

    /** `updateUser`: replace the profile and persist it. */
    method UpdateUser(newUser: Profile)
      modifies this`user, this`storedUser
      ensures user == newUser && storedUser == Some(newUser)
    {
      user := newUser;
      storedUser := Some(newUser);
    }

    /** `addOrder`: stamp the order with the given id and date and put it at the head of the
        history; older orders follow untouched and in order. */
    method AddOrder(f: OrderFields, id: string, date: string)
      modifies this`orders, this`storedOrders
      ensures orders == [Stamp(f, id, date)] + old(orders)
      ensures orders[0].id == id && orders[0].date == date && orders[1..] == old(orders)
      ensures storedOrders == Some(orders)
    {
      var updated := [Stamp(f, id, date)] + orders;
      orders := updated;
      storedOrders := Some(updated);
    }

    /** `addAddress` */
    method AddAddress(f: AddressFields, id: string)
      modifies this`addresses, this`storedAddresses
      ensures addresses == AddressesAfterAdd(old(addresses), f, id)
      ensures storedAddresses == Some(addresses)
    {
      var updated := addresses;
      if f.isDefault {
        updated := ClearDefaults(updated);
      }
      updated := updated + [WithId(f, id)];
      addresses := updated;
      storedAddresses := Some(updated);
    }

    /** `updateAddress`: merge into the matching address, then, when the update sets the
        default flag, clear it on every other address in one pass. */
    method UpdateAddress(id: string, p: AddressPatch)
      modifies this`addresses, this`storedAddresses
      ensures addresses == AddressesAfterUpdate(old(addresses), id, p)
      ensures storedAddresses == Some(addresses)
    {
      var updated := MergeMatching(addresses, id, p);
      if p.isDefault == Some(true) {
        ghost var merged := updated;
        var i := 0;
        while i < |updated|
          invariant |updated| == |merged| && 0 <= i <= |updated|
          invariant forall k :: 0 <= k < i ==> updated[k] == Unflag(merged[k], id)
          invariant forall k :: i <= k < |updated| ==> updated[k] == merged[k]
        {
          if updated[i].id != id {
            updated := updated[i := updated[i].(isDefault := false)];
          }
          i := i + 1;
        }
      }
      addresses := updated;
      storedAddresses := Some(updated);
    }

    /** `deleteAddress` */
    method DeleteAddress(id: string)
      modifies this`addresses, this`storedAddresses
      ensures addresses == AddressesAfterDelete(old(addresses), id)
      ensures storedAddresses == Some(addresses)
    {
      var updated := Keyed.Without(addresses, AddressId, id);
      addresses := updated;
      storedAddresses := Some(updated);
    }
  }
}
