/** The address screen: the add-address form with its required-field check and reset, and the
    per-address "Set Default" and "Delete" actions, all acting on the profile store. */
module AddressScreen {
  import opened Wrappers
  import Keyed
  import UserContext

  type AddressFields = UserContext.AddressFields

  /** The empty form the screen starts with and returns to after a save. */
  const Blank: AddressFields := UserContext.AddressFields("", "", "", "", "", "", false)

  /** The fields the form demands: name, street, city and phone (state and zip code are optional). */
  predicate MissingRequired(f: AddressFields) {
    f.name == "" || f.street == "" || f.city == "" || f.phone == ""
  }

  /** The "Set Default" action's patch: `{ isDefault: true }`. */
  const MakeDefault: UserContext.AddressPatch := UserContext.AddressPatch(None, None, None, None, None, None, Some(true))

  /** The screen's form state over the profile store. */
  class AddressForm {
    var showAddForm: bool
    var newAddress: AddressFields
    const store: UserContext.UserStore

    constructor (store: UserContext.UserStore)
      ensures this.store == store && !showAddForm && newAddress == Blank
    {
      this.store := store;
      showAddForm := false;
      newAddress := Blank;
    }

    /** The "Add New Address" button. */
    method OpenForm()
      modifies this`showAddForm
      ensures showAddForm
    {
      showAddForm := true;
    }

    /** The form's "Cancel" button: the form closes and keeps what was typed. */
    method CancelForm()
      modifies this`showAddForm
      ensures !showAddForm
    {
      showAddForm := false;
    }

    /** The text inputs: the form takes the typed values (each input spreads one field into it). */
    method EditFields(f: AddressFields)
      modifies this`newAddress
      ensures newAddress == f
    {
      newAddress := f;
    }

    /** The "Set as default" checkbox. */
    method ToggleIsDefault()
      modifies this`newAddress
      ensures newAddress == old(newAddress).(isDefault := !old(newAddress).isDefault)
    {
      newAddress := newAddress.(isDefault := !newAddress.isDefault);
    }

    /** `handleSaveAddress`. With a required field empty nothing changes; otherwise the form is
        added as it is (its default flag included) under the generated id, then the form is
        blanked and closed. */
    method HandleSaveAddress(id: string) returns (saved: bool)
      modifies this`showAddForm, this`newAddress, store`addresses, store`storedAddresses
      ensures saved <==> old(newAddress).name != "" && old(newAddress).street != "" &&
                         old(newAddress).city != "" && old(newAddress).phone != ""
      ensures !saved ==>
        newAddress == old(newAddress) && showAddForm == old(showAddForm) &&
        store.addresses == old(store.addresses) && store.storedAddresses == old(store.storedAddresses)
      ensures saved ==>
        store.addresses == UserContext.AddressesAfterAdd(old(store.addresses), old(newAddress), id) &&
        store.storedAddresses == Some(store.addresses) && newAddress == Blank && !showAddForm
    {
      if MissingRequired(newAddress) {
        return false;
      }
      store.AddAddress(newAddress, id);
      newAddress := Blank;
      showAddForm := false;
      saved := true;
    }

    /** "Set Default": make that address the default. Afterwards exactly the addresses with
        that id are flagged, and with unique ids at most one is. */
    method SetDefault(id: string)
      modifies store`addresses, store`storedAddresses
      ensures store.addresses == UserContext.AddressesAfterUpdate(old(store.addresses), id, MakeDefault)
      ensures forall i :: 0 <= i < |store.addresses| ==> (store.addresses[i].isDefault <==> store.addresses[i].id == id)
      ensures Keyed.UniqueKeys(old(store.addresses), UserContext.AddressId) ==> UserContext.AtMostOneDefault(store.addresses)
      ensures store.storedAddresses == Some(store.addresses)
    {
      store.UpdateAddress(id, MakeDefault);
    }

    /** "Delete": remove the address; no other address becomes the default. */
    method Delete(id: string)
      modifies store`addresses, store`storedAddresses
      ensures store.addresses == UserContext.AddressesAfterDelete(old(store.addresses), id)
      ensures !Keyed.HasKey(store.addresses, UserContext.AddressId, id)
      ensures store.storedAddresses == Some(store.addresses)
    {
      store.DeleteAddress(id);
    }
  }
}
