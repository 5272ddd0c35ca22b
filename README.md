# Storefront client stores, modelled in Dafny

This project models the client side of a small React Native storefront. It covers the four
context stores and the email log, plus the decision logic of the screens that drive them:

- **Cart** (`cartReducer`). A list of line items keyed by product id. It supports add-with-merge,
  remove, set-quantity, clear and load. Every handled action is mirrored to `@ecomm_cart`.
- **Wishlist** (`wishlistReducer`). A list with set semantics, mirrored to `@wishlist`.
- **Profile store**. It holds:
  - the profile;
  - the order history, newest first;
  - the address book, which keeps at most one default address.
  Each collection is written to its own storage key after every change.
- **Authentication store**. Accounts live on the device. Registration refuses an email that is
  already taken, and login compares password digests. The store also holds the signed-in
  session and a loading flag.
- **Email service**. The send calls log `<type>` or `<type>_failed` and return whether the relay
  accepted the email; a network or relay failure does not throw. The local log keeps only the
  newest 50 entries.
- **Screens and cards**:
  - checkout: the total, the default-address pick, the payment guards, the error messages, and
    clearing the cart on success;
  - product details: the quantity stepper, the id check and the sign-in gate;
  - the two product cards: the wishlist toggle, the add-to-cart payload and the price badges;
  - the address form;
  - the profile dialog: trimming and the email pattern.

How the code maps to Dafny:

- **Reducers** are functions. Each returns the next state together with the storage write it
  performs, if any.
- **Stores** are classes. Their fields are the store's state. Where nothing is read back, a
  ghost field is the copy last written to device storage.
- **Screens** are classes over the stores they use. Handlers that dispatch to a store are
  methods whose `modifies` clause names that store.
- **Outside inputs are parameters.** These are the network's answer, the password digest, the
  gateway's answer, the user's choice in an alert, the demo's random outcome, and generated ids
  and timestamps.

The generic `Keyed` module states the `find`, `some` and `filter(x => x.id !== k)` idioms once,
with their properties. The stores use it for every keyed collection.

Where the code and its description differ, the model follows the code:

- UPDATE_QUANTITY never removes a line, not even at quantity 0 or below. When the new quantity
  is below 1, the cart tab (`app/(tabs)/cart.tsx:22-37`) asks "Remove Item" in an alert
  instead. It dispatches REMOVE_ITEM only if the user then presses "Remove".
- ADD_ITEM does not clamp a negative payload quantity. `quantity || 1` only replaces a missing
  or zero quantity, so a negative one is added as it is.
- The heart on the product details screen only flips a local flag. It never dispatches to the
  wishlist store.
- The checkout's pay button (`app/screens/CheckoutScreen.tsx:285`) runs `handlePayment` only
  when the gateway's SDK is present. Without it the button runs `handleDemoPayment` directly,
  so the address and minimum-order guards and the "Payment Unavailable" alert of
  `handlePayment` are skipped: a lucky demo draw clears the cart with no delivery address.

## Model

| member | source | states |
|---|---|---|
| Keyed.FirstIndex | contents/CartContext.tsx:37 | `find` by id: a position exists exactly when some element has the key; it holds that key and no earlier element does |
| Keyed.Without | contents/CartContext.tsx:67 | `filter` by id: never longer than the input and no element with that key remains |
| Keyed.WithoutMembers | contents/CartContext.tsx:67 | the filtered list holds only input elements, and every input element with another key survives |
| Keyed.WithoutAppend | contents/WishlistContext.tsx:37 | filtering distributes over concatenation, so survivors keep their order |
| Keyed.WithoutAbsent | contents/CartContext.tsx:67 | filtering a key nobody has returns the list unchanged |
| Keyed.WithoutSplit | contents/CartContext.tsx:67 | filtering the key of an element no other element shares removes exactly that element |
| Keyed.UniqueElsewhere | contents/CartContext.tsx:37 | with unique keys, no element but the one at `i` carries its key |
| Keyed.WithoutUniqueAt | contents/CartContext.tsx:67 | with unique keys, filtering the key at position `i` yields `s[..i] + s[i+1..]` |
| Keyed.WithoutKeepsUnique | contents/WishlistContext.tsx:37 | filtering keeps keys unique |
| Keyed.AppendKeepsUnique | contents/WishlistContext.tsx:34 | appending an element with a fresh key keeps keys unique |
| CartContext.CartReducer | contents/CartContext.tsx:32-98 | an unknown action returns the same state and writes nothing; every handled action, LOAD_CART included, writes exactly the items it returns |
| CartContext.AddMergesExisting | contents/CartContext.tsx:37-50 | ADD_ITEM for a listed product adds the payload quantity (1 when missing or 0) to that line; all other lines are unchanged |
| CartContext.AddAppendsNew | contents/CartContext.tsx:51-59 | ADD_ITEM for a new product appends one line at the end with the payload quantity, or 1 when it is missing or 0 |
| CartContext.AddKeepsLinesUnique | contents/CartContext.tsx:37-59 | ADD_ITEM never creates a second line for a product |
| CartContext.RemoveDeletesLine | contents/CartContext.tsx:64-69 | REMOVE_ITEM deletes exactly that product's line and keeps the rest in order |
| CartContext.RemoveAbsentIsNoOp | contents/CartContext.tsx:64-69 | REMOVE_ITEM of a product not in the cart changes nothing |
| CartContext.UpdateSetsQuantity | contents/CartContext.tsx:71-80 | UPDATE_QUANTITY sets the matching line to exactly the given quantity, even 0 or below; length and other lines unchanged |
| CartContext.ClearAndLoadReplace | contents/CartContext.tsx:82-88 | CLEAR_CART empties the cart; LOAD_CART replaces the lines with its payload, without merging |
| CartContext.ReducerKeepsLinesUnique | contents/CartContext.tsx:35-92 | every action except LOAD_CART keeps product ids unique |
| CartContext.MergeExample | contents/CartContext.tsx:37-59 | product 7 added with quantity 2, then 3, gives one line with quantity 5 |
| CartContext.CartStore.constructor | contents/CartContext.tsx:101 | the cart starts empty |
| CartContext.CartStore.Dispatch | contents/CartContext.tsx:94-97 | the new state is the reducer's; storage holds the new items after every handled action and is untouched otherwise |
| WishlistContext.WishlistReducer | contents/WishlistContext.tsx:28-51 | nothing is written exactly when the action is unknown or adds a listed product, and then the state is unchanged; otherwise exactly the new items are written |
| WishlistContext.AddAppendsNew | contents/WishlistContext.tsx:34 | adding a new product appends it at the end |
| WishlistContext.AddIsIdempotent | contents/WishlistContext.tsx:33 | adding twice equals adding once, and the second add writes nothing |
| WishlistContext.AddTwiceListsOnce | contents/WishlistContext.tsx:32-35 | after two adds the product is listed and ids are still unique |
| WishlistContext.RemoveKeepsOrder | contents/WishlistContext.tsx:36-37 | removal drops the product and filters each part of a concatenation independently, so order is kept |
| WishlistContext.RemoveDeletesEntry | contents/WishlistContext.tsx:36-37 | with unique ids, removal deletes exactly that entry |
| WishlistContext.LoadAndClearReplace | contents/WishlistContext.tsx:39-44 | LOAD_WISHLIST replaces the items; CLEAR_WISHLIST empties them |
| WishlistContext.ReducerKeepsItemsUnique | contents/WishlistContext.tsx:31-47 | every action except LOAD_WISHLIST keeps ids unique |
| WishlistContext.WishlistStore.constructor | contents/WishlistContext.tsx:54 | the wishlist starts empty |
| WishlistContext.WishlistStore.Dispatch | contents/WishlistContext.tsx:49-50 | the new state is the reducer's; storage holds the new items whenever the reducer writes |
| UserContext.AddressesAfterAdd | contents/UserContext.tsx:101-111 | one address with the new id is appended. When it is the default, every earlier address loses its flag and it is the only default; otherwise earlier addresses are unchanged. At most one default is preserved |
| UserContext.AddressesAfterUpdate | contents/UserContext.tsx:121-130 | length and ids are kept and only matching addresses are merged. With `isDefault: true` every other address is cleared, so with unique ids at most one default remains; otherwise at-most-one-default is preserved |
| UserContext.AddressesAfterDelete | contents/UserContext.tsx:141-142 | no address with that id remains, every other address survives, nothing new appears, and at-most-one-default is preserved |
| UserContext.DeleteKeepsAtMostOneDefault | contents/UserContext.tsx:141-142 | deleting keeps at most one default |
| UserContext.DeleteDoesNotPromote | contents/UserContext.tsx:141-142 | deleting the default address leaves no default: nothing is promoted |
| UserContext.SetDefaultExample | contents/UserContext.tsx:121-130 | making B the default when A was leaves B as the only default |
| UserContext.UserStore.constructor | contents/UserContext.tsx:46-50 | empty profile, no orders, no addresses, dialog hidden |
| UserContext.UserStore.SetShowUserModal | contents/UserContext.tsx:50 | sets the dialog flag |
| UserContext.UserStore.UpdateUser | contents/UserContext.tsx:75-82 | replaces the profile and stores it |
| UserContext.UserStore.AddOrder | contents/UserContext.tsx:84-98 | the stamped order goes first; older orders follow unchanged and in order; the new list is stored |
| UserContext.UserStore.AddAddress | contents/UserContext.tsx:101-118 | the address book becomes `AddressesAfterAdd` of the old one and is stored |
| UserContext.UserStore.UpdateAddress | contents/UserContext.tsx:121-138 | the merge-then-unflag pass yields `AddressesAfterUpdate` of the old book, which is stored |
| UserContext.UserStore.DeleteAddress | contents/UserContext.tsx:141-149 | the address book becomes `AddressesAfterDelete` of the old one and is stored |
| AuthContext.FirstWithEmailIsFound | contents/AuthContext.tsx:69 | the account `find` returns is the first with that email, and no other position is first |
| AuthContext.LoginCheck | contents/AuthContext.tsx:69-89 | unknown email exactly when no account has it. Otherwise only the first account with that email decides: its session when its digest matches, a wrong-password failure when it does not, even if a later duplicate would match |
| AuthContext.LoginSucceedsIff | contents/AuthContext.tsx:69-81 | with unique emails, login succeeds exactly when some account has the email and the digest |
| AuthContext.RegisterCheck | contents/AuthContext.tsx:113-136 | refused exactly when the email is taken; otherwise the account is appended and existing accounts are unchanged |
| AuthContext.RegisterKeepsEmailsUnique | contents/AuthContext.tsx:116-135 | registration never creates a second account for an email |
| AuthContext.RegisterThenLogin | contents/AuthContext.tsx:52-58 | after a successful registration, login with the same email and password yields that account's session |
| AuthContext.AuthStore.constructor | contents/AuthContext.tsx:32-33 | no user, loading |
| AuthContext.AuthStore.LoadUser | contents/AuthContext.tsx:39-50 | a stored session becomes the user; loading ends either way |
| AuthContext.AuthStore.Login | contents/AuthContext.tsx:60-106 | true exactly when `LoginCheck` succeeds. Then the session is set and stored and a login email is logged. On failure the user, the stored session and the log are unchanged. Loading ends |
| AuthContext.AuthStore.Register | contents/AuthContext.tsx:108-151 | refused exactly when the email is taken, with nothing stored. Otherwise the account, with id `user_<stamp>` and the password digest, is appended and a registration email is logged. The session is never set. Loading ends |
| AuthContext.AuthStore.Logout | contents/AuthContext.tsx:153-160 | no user and no stored session |
| EmailService.KeepNewest | services/emailService.ts:209-212 | at most 50 entries, and exactly the newest ones of the input |
| EmailService.LogEmailShape | services/emailService.ts:196-212 | after an append: at most 50 entries, the new entry last. Below 50 nothing is dropped; otherwise only the oldest is dropped and the order is kept |
| EmailService.TruncateThenAppend | services/emailService.ts:204-212 | truncating before an append and after it give the same log |
| EmailService.Replay | services/emailService.ts:194-218 | the log after logging a history entry by entry: as long as the history up to 50 entries, then 50, and its last entry is the last one logged |
| EmailService.ReplayKeepsNewest | services/emailService.ts:194-218 | logging a history one entry at a time leaves exactly its newest 50 entries, in order |
| EmailService.Mailer.constructor | services/emailService.ts:221-228 | no `@email_logs` key yet, so the log reads as [] |
| EmailService.Mailer.GetEmailLogs | services/emailService.ts:221-228 | the stored log, or [] when nothing is stored; at most 50 entries in a log this service wrote (`Valid`, which every writing method ensures) |
| EmailService.Mailer.LogEmail | services/emailService.ts:194-218 | the stored log becomes the old log plus the new entry, truncated to the newest 50 |
| EmailService.Mailer.ClearLogs | services/emailService.ts:231-238 | the log is removed and reads as [] |
| EmailService.Mailer.Send | services/emailService.ts:11-45 | returns whether the relay answered with success; logs the success kind or the `_failed` kind, never throwing |
| EmailService.Mailer.SendRegistrationEmail | services/emailService.ts:11-45 | logs `registration` or `registration_failed` with the address and username; returns the outcome |
| EmailService.Mailer.SendLoginEmail | services/emailService.ts:48-82 | logs `login` or `login_failed`; returns the outcome |
| EmailService.Mailer.SendOrderSuccessEmail | services/emailService.ts:85-123 | logs `order_success` or `order_success_failed` with the order details; returns the outcome |
| EmailService.Mailer.SendOrderFailureEmail | services/emailService.ts:126-170 | logs `order_failure` or `order_failure_failed` with the details and the reason as given; returns the outcome |
| CheckoutScreen.TotalNonNegative | app/screens/CheckoutScreen.tsx:51 | the `reduce` total of lines with no negative price or quantity is not negative |
| CheckoutScreen.TotalRaise | app/screens/CheckoutScreen.tsx:51 | `d` more units on one line raise the total by that line's price times `d` |
| CheckoutScreen.TotalAppend | app/screens/CheckoutScreen.tsx:51 | the total of two runs of lines is the sum of their totals |
| CheckoutScreen.TotalIsSum | app/screens/CheckoutScreen.tsx:51 | the left-fold total equals the sum of price times quantity taken from the front |
| CheckoutScreen.TotalReplace | app/screens/CheckoutScreen.tsx:51 | replacing one line changes the total by the difference of the line totals |
| CheckoutScreen.AddNewRaisesTotal | app/screens/CheckoutScreen.tsx:51 | adding a product not in the cart raises the total by price times the added quantity |
| CheckoutScreen.AddExistingRaisesTotal | app/screens/CheckoutScreen.tsx:51 | adding a listed product raises the total by that line's price times the added quantity |
| CheckoutScreen.RemoveLowersTotal | app/screens/CheckoutScreen.tsx:51 | removing a line lowers the total by that line's total |
| CheckoutScreen.DefaultPick | app/screens/CheckoutScreen.tsx:46 | an address of the book. It is a default exactly when the book has one, and then it is the first default; otherwise it is the first address |
| CheckoutScreen.PickIsTheDefault | app/screens/CheckoutScreen.tsx:44-49 | with at most one default, the pick is that default |
| CheckoutScreen.ErrorMessage | app/screens/CheckoutScreen.tsx:119-128 | code 2 gives the network message and code 3 the cancelled message; else a non-empty description, else the default. Never empty |
| CheckoutScreen.DemoOutcome | app/screens/CheckoutScreen.tsx:144-177 | `handleDemoPayment` checks no guard: success exactly when the draw succeeds, reporting the total; otherwise the demo failure message with no amount |
| CheckoutScreen.PaymentOutcome | app/screens/CheckoutScreen.tsx:53-177 | `handlePayment` as written: refused exactly without an address, then exactly when the total is below 1. Success exactly on a paid or successful demo payment, reporting the total. A gateway decline goes to the failure screen with `getErrorMessage` of its error and the total. After the guards, the "Use Demo Payment" choice gives `DemoOutcome`; dismissed exactly when that alert is cancelled |
| CheckoutScreen.PressOutcome | app/screens/CheckoutScreen.tsx:285 | the pay button: `handlePayment` with the gateway's answer when the SDK is present, `DemoOutcome` directly when it is not |
| CheckoutScreen.GuardsOnlyWithSdk | app/screens/CheckoutScreen.tsx:53-62 | from the button, a guard refuses exactly when the SDK is present and the address is missing or the total below 1; a press never ends dismissed; a success without the SDK needs no address |
| CheckoutScreen.DemoPaysWithoutAddress | app/screens/CheckoutScreen.tsx:144-160 | without the SDK, a successful draw with no address and a zero total is a success |
| CheckoutScreen.Checkout.constructor | app/screens/CheckoutScreen.tsx:26-27 | nothing selected, not processing |
| CheckoutScreen.Checkout.SelectRouteAddress | app/screens/CheckoutScreen.tsx:30-41 | an address passed by the route becomes the selection |
| CheckoutScreen.Checkout.AutoSelectAddress | app/screens/CheckoutScreen.tsx:44-49 | with nothing selected and a non-empty book, selects `DefaultPick`; otherwise unchanged |
| CheckoutScreen.Checkout.HandlePayment | app/screens/CheckoutScreen.tsx:53-142 | the result is `PaymentOutcome`. Only success clears the cart and stores the empty cart. Its guard refusals change nothing. Processing is off after a payment ends |
| CheckoutScreen.Checkout.HandleDemoPayment | app/screens/CheckoutScreen.tsx:144-177 | the result is `DemoOutcome`; with no guard, a successful draw clears the cart and stores the empty cart, a failed one changes nothing; processing is off afterwards |
| CheckoutScreen.Checkout.PressPay | app/screens/CheckoutScreen.tsx:277-286 | for a non-empty cart and an enabled button, the result is `PressOutcome`; only success clears and stores the cart, anything else leaves it as it was |
| ProductDetails.ValidProductId | app/screens/ProductDetails.tsx:33-51 | accepted exactly when the id is present, a number, and not 0 |
| ProductDetails.FirstImage | app/screens/ProductDetails.tsx:81 | the first image, or "" when there are none; a non-empty result is always one of the product's images |
| ProductDetails.DetailsPayload | app/screens/ProductDetails.tsx:74-84 | the payload carries the product's id and price and the selected quantity |
| ProductDetails.SelectedQuantityReachesCart | app/screens/ProductDetails.tsx:74-84 | with quantity at least 1, the cart adds exactly that quantity; a new product gets one line with it |
| ProductDetails.DetailsScreen.constructor | app/screens/ProductDetails.tsx:35-40 | quantity 1, nothing added or wishlisted, loading, no prompt |
| ProductDetails.DetailsScreen.Load | app/screens/ProductDetails.tsx:46-63 | a missing, NaN or zero id is rejected before any fetch and changes nothing; otherwise the fetched product is shown and loading ends |
| ProductDetails.DetailsScreen.Decrement | app/screens/ProductDetails.tsx:170 | `max(1, q - 1)`: never below 1 |
| ProductDetails.DetailsScreen.Increment | app/screens/ProductDetails.tsx:177 | raises the quantity by exactly 1 |
| ProductDetails.DetailsScreen.HandleAddToCart | app/screens/ProductDetails.tsx:65-86 | no product: nothing. No user: the prompt opens and nothing is dispatched. Otherwise ADD_ITEM with the selected quantity and first image, and `addedToCart` becomes true |
| ProductDetails.DetailsScreen.ToggleWishlist | app/screens/ProductDetails.tsx:88-95 | no user: the prompt opens and the heart keeps its state; otherwise the heart flips |
| ProductCard.CardImage | app/components/ProductCard.tsx:40 | the product's first image when it has one; a non-empty result is always one of its images |
| ProductCard.CardItem | app/components/ProductCard.tsx:53-58 | the wishlist entry has the product's id, title, price and first image, and no category |
| ProductCard.CardPayload | app/components/ProductCard.tsx:35-41 | the ADD_ITEM payload has no quantity, so it counts as 1; a new line from it has the product's id, title, price and first image, an empty description and quantity 1 |
| ProductCard.IsInWishlist | app/components/ProductCard.tsx:30 | true exactly when some wishlist item has the product id |
| ProductCard.ToggleFlipsMembership | app/components/ProductCard.tsx:47-61 | one press flips whether the product is listed |
| ProductCard.ToggleTwiceRestores | app/components/ProductCard.tsx:47-61 | two presses restore membership; from an unlisted state they restore the wishlist itself |
| ProductCard.CardAddsOne | app/components/ProductCard.tsx:32-45 | the card's payload has no quantity, so the cart adds exactly 1: a new line with 1 or one more on the existing line |
| ProductCard.ToggleWishlist | app/components/ProductCard.tsx:47-61 | dispatches the toggle action; membership flips and the new wishlist is stored |
| ProductCard.AddToCart | app/components/ProductCard.tsx:32-45 | dispatches ADD_ITEM with the card's payload; the new cart is stored |
| EnhancedProductCard.ToggleWishlist | app/components/EnhancedProductCard.tsx:36-67 | with the same `isInWishlist` test, dispatches removal when listed and addition of id, title, price and first image otherwise; membership flips and the new wishlist is stored |
| EnhancedProductCard.AddToCart | app/components/EnhancedProductCard.tsx:38-51 | dispatches ADD_ITEM without a quantity, so the cart adds exactly one unit; the new cart is stored |
| EnhancedProductCard.Badges | app/components/EnhancedProductCard.tsx:97-123 | "Hot" exactly when the price is above 100. The struck price appears exactly when hot and not compact, and is then above the real price |
| AddressScreen.AddressForm.constructor | app/screens/AddressScreen.tsx:20-29 | form hidden and blank, not default |
| AddressScreen.AddressForm.OpenForm | app/screens/AddressScreen.tsx:109 | shows the form |
| AddressScreen.AddressForm.CancelForm | app/screens/AddressScreen.tsx:176 | hides the form |
| AddressScreen.AddressForm.EditFields | app/screens/AddressScreen.tsx:123-159 | the form holds the typed values |
| AddressScreen.AddressForm.ToggleIsDefault | app/screens/AddressScreen.tsx:165 | flips only the default flag of the form |
| AddressScreen.AddressForm.HandleSaveAddress | app/screens/AddressScreen.tsx:31-49 | saved exactly when name, street, city and phone are non-empty; state and zip code are not required. A refused save changes nothing. A save adds the form unchanged, default flag included, then blanks and closes the form |
| AddressScreen.AddressForm.SetDefault | app/screens/AddressScreen.tsx:71 | `updateAddress(id, {isDefault: true})`: afterwards exactly the addresses with that id are default, and with unique ids at most one |
| AddressScreen.AddressForm.Delete | app/screens/AddressScreen.tsx:74 | `deleteAddress(id)`: no address with that id remains |
| UserModal.LeadingSpaces | app/components/UserModal.tsx:42 | the length of the white-space prefix: all of it white space, and the next character is not |
| UserModal.TrailingSpaces | app/components/UserModal.tsx:42 | the length of the white-space suffix: all of it white space, and the character before it is not |
| UserModal.Trim | app/components/UserModal.tsx:42 | the slice after the leading white space with only white space after it. It neither starts nor ends with white space, and it is empty exactly when the input is all white space |
| UserModal.MatchInTrimmed | app/components/UserModal.tsx:47 | a pattern match in the trimmed text is a match in the original |
| UserModal.MatchInOriginal | app/components/UserModal.tsx:47 | a pattern match in the original lies inside the trimmed text |
| UserModal.TrimKeepsEmailShape | app/components/UserModal.tsx:47-53 | an email passes the pattern exactly when its trimmed form does, so the saved email matches |
| UserModal.ValidateProfile | app/components/UserModal.tsx:41-53 | empty-field error exactly when a trimmed field is empty; pattern error exactly when the untrimmed email fails. Otherwise the trimmed profile, non-empty, with an email that matches |
| UserModal.ProfileForm.constructor | app/components/UserModal.tsx:21-22 | empty inputs |
| UserModal.ProfileForm.LoadUserData | app/components/UserModal.tsx:28-39 | a stored profile fills the inputs |
| UserModal.ProfileForm.HandleSave | app/components/UserModal.tsx:41-59 | a valid form stores the trimmed profile and closes with it; an invalid one stores nothing and stays open |

## Left out

- Device storage I/O and JSON (de)serialisation.
  - Each storage key is a field, ghost where the model never reads it back.
  - The load-on-mount effects of the cart, wishlist and profile stores are not modelled; LOAD_CART and LOAD_WISHLIST are.
  - The failure branches that only log a storage error are not modelled.
- The SHA-256 digest. It is the store's `hash` function, deterministic and otherwise unknown, so nothing about collisions is claimed.
- The network.
  - The relay's answer to each email is the `delivered` parameter. Timeouts, HTTP status and the request bodies are not modelled.
  - `checkServerHealth`, the axios clients and the backend server are not part of this model.
- The email sends that `login` and `register` do not await are modelled as finishing before the handler returns.
- AuthContext.AuthStore.Register: the thrown error is a `DuplicateEmail` result. Storage failures, which the app rethrows, are not modelled.
- AuthContext.AuthStore.Login: storage and digest exceptions, where the app returns false, are not modelled.
- EmailService.Mailer.SendOrderSuccessEmail: the `user` argument is reduced to its username. A missing `user` makes the app's call reject (its catch block reads `user.username`) instead of returning false; that rejection is not modelled.
- EmailService.Mailer.SendOrderFailureEmail: likewise, a missing `user` makes the app's call reject; only a present user is modelled.
- CheckoutScreen.PaymentOutcome: its `Unavailable` cases are the "Payment Unavailable" alert of `handlePayment` as written. The pay button never reaches that alert, because without the SDK it calls `handleDemoPayment` directly; `PressOutcome` and `GuardsOnlyWithSdk` state what the button does.
- CheckoutScreen.Checkout.HandlePayment: "refusals change nothing" holds for `handlePayment`; it is not a promise of the pay button, which without the SDK skips the guards (`Checkout.PressPay`, `DemoPaysWithoutAddress`).
- The payment SDK, `Math.random`, `setTimeout`, navigation and alerts.
  - The gateway's answer, the demo's draw and the user's choice in the "Payment Unavailable" alert are parameters.
  - The demo's 2-second delay is not modelled: a payment runs to its end within one call.
  - The payment id and the prefill data passed to the gateway are not modelled.
- Floating-point arithmetic. Prices and totals are reals.
  - `toFixed` and the paise rounding `Math.round(total * 100)` are not modelled.
  - The struck price is `price * 1.2` over the reals.
- Generated ids and dates (`order_`, `addr_`, `user_` from `Date.now()`). They are parameters, and nothing assumes two calls yield distinct ids.
- JavaScript aliasing. `addAddress` pushes into the live state array, and the `forEach` of `updateAddress` mutates shared objects. The model keeps only the resulting collections as values.
- UserContext.AddressesAfterUpdate: a patch cannot carry an `id` field, so an update that renames an address is not modelled.
- ProductCard.CardImage: a product with no images gives "" where the app passes `undefined`.
- The storage key `@user_data` is written by three places:
  - the session in the authentication store;
  - `updateUser` of the profile store;
  - the profile dialog.
  The model keeps a separate field for each and does not model how they overwrite one another.
- Rendering, navigation-only screens and components (result, order history, inbox, search, splash, filter modal, sign-in prompt, layouts, theme).
- The cart tab's own handlers (`app/(tabs)/cart.tsx`): the quantity buttons, the "Remove Item" and "Clear Cart" confirmation alerts, and the shipping fee. They sit outside the modelled files; the actions they dispatch are modelled in the cart reducer.
- Concurrent, overlapping asynchronous handlers (read-modify-write races). The model is sequential.
