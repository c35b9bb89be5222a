# Aquatics storefront: store, cart and route guard in Dafny

This project models the state logic under the storefront's user interface,
and proves properties of it. There are three parts:

- **The mock persistence layer** (`services/api.ts`). Local storage is the
  class `Api.LocalStore`. It has one field per storage key: `products`,
  `users`, `orders`, and the current-user pointer `currentUser`. There is also
  the seed list `seed`, which stands for `INITIAL_PRODUCTS`. The three
  services, `authService`, `productService` and `orderService`, are its
  methods. A writing service reads a whole collection, changes a copy and
  writes it back. `AddProduct`, `CreateOrder` and `DeleteProduct` state the new
  collection directly; `DeleteProduct` uses the pure function
  `ProductsWithout`. `VerifyOtp`, `UpdateProfile` and `UpdateStatus` compute
  the copy inline, in a loop-free imperative body, and their contracts prove
  it equal to a pure function: `LookupOrRegister`, `ReplaceUser` or
  `SetStatus`. `GetUserOrders` only reads, and its result is the pure
  `OrdersOf` of the stored orders. The lemmas are about these functions. Two
  properties are preserved by `VerifyOtp`: phones are pairwise distinct, and
  a user has the admin role exactly when their phone is the admin number
  (the role rule). `UpdateProfile` can break either one.
- **The application state** (`context.tsx`). The cart reducers are functions
  over `seq<CartItem>`: `AddToCart` merges an entry or appends one,
  `RemoveFromCart` filters, and `ClearCart` empties the cart. `CartTotal` is
  the left fold of `reduce`. The auth transitions are `InitialAuth`,
  `Startup`, `Login` and `LoggedOut`. `Context.Logout` also removes the stored
  pointer.
- **The route guard** (`App.tsx`). `Routing.ProtectedRoute` is the three-way
  decision. `Routing.Route` says which paths are guarded, and how.

Modules: `Types` (types.dfy, the records of `types.ts`), `Seqs` (seqs.dfy,
`findIndex`/`find` and `filter`), `Api` (api.dfy), `Context` (context.dfy) and
`Routing` (routing.dfy).

Modelling decisions:

- Each service call is one atomic step.
- The fresh ids that the source takes from the clock are parameters (`freshId`).
- Prices, stock, quantities and totals are `int`.
- `offerPrice`, `scientificName` and `isNew` are `Option`s.
- `offerPrice || price` falls back to `price` when the offer price is absent or 0.
- A cart line is `CartItem(product, quantity)`. This is the spread `{...product, quantity}`.
- A rejected `verifyOtp` is `Err("Invalid OTP")`.
- `productService.add` takes a `ProductDraft`, which is `Omit<Product, 'id'>`.

Behaviour of the code that the model keeps on purpose:

- Deleting every product, one id at a time, and then listing the catalogue
  brings the seed back (`DeleteEachCoveringIds`, `DeleteAllThenList`,
  `DeleteLastThenList`).
- A status change has no forward-only rule (`SetStatusLastWins`, `PaidThenPending`).
- `updateProfile` replaces the record without looking at its phone, so it can
  break the uniqueness of phones (`ReplaceUserCanDuplicatePhone`). It is the
  only operation that can break it.
- `updateProfile` also stores the role it is given, so it can break the role
  rule (`ReplaceUserCanGrantAdmin`). When an id matches, it keeps the rule
  exactly when the record passed follows it (`ReplaceUserKeepsRoleRule`,
  `ReplaceUserRoleRuleNeedsRecord`). The record is also stored as the current
  user, so a customer given the admin role reaches `/admin` after the next
  start-up, whatever the phone (`ProfileUpdateCanGrantAdmin`). The running
  session keeps the record it logged in with: nothing in the application
  state puts the result of `updateProfile` into `auth`.
  "Only 6302382280 reaches `/admin`" (`StoredUserReachesAdminIff`,
  `VerifyThenLogin`) therefore holds only while no profile update changes a
  role.
- `addToCart` maps over EVERY entry with the product's id. With at most one
  entry per id, that is the single entry found (`AddToCartExistingUnique`).

## Model

| member | source | states |
|---|---|---|
| Types.WithId | services/api.ts:102 | the stored product has the supplied id and every other field of the draft (`Draft(WithId(d, id)) == d`) |
| Seqs.FindIndex | services/api.ts:39 | the index returned is that of the first element passing the test; none is returned exactly when no element passes |
| Seqs.Filter | services/api.ts:110 | every element kept is from the input and passes the test; every input element that passes is kept; the result is a sub-multiset of the input |
| Seqs.FilterCounts | services/api.ts:110 | an element that passes the test occurs in the result exactly as often as in the input; one that fails does not occur |
| Api.IndexOfPhone | services/api.ts:39 | the index returned holds the phone and no earlier user does; none is returned exactly when no user holds the phone |
| Api.IndexOfUserId | services/api.ts:73 | the index returned holds the id and no earlier user does; none is returned exactly when no user holds the id |
| Api.IndexOfOrderId | services/api.ts:135 | the index returned holds the order id and no earlier order does; none is returned exactly when no order holds the id |
| Seqs.FilterAppend | services/api.ts:110 | filtering a concatenation is the concatenation of the filtered parts, which keeps the original order |
| Api.Register | services/api.ts:43-49 | the new user has the fresh id, name 'Guest User', the phone and an empty address; the role is admin iff the phone is 6302382280 |
| Api.LookupOrRegister | services/api.ts:38-52 | the returned user has the phone and is in the list to store; a known phone leaves the list unchanged; an unseen phone appends exactly the registered user |
| Api.LookupOrRegisterFinds | services/api.ts:38-52 | after a verification, looking the phone up in the stored list finds the returned user |
| Api.SignInAgainReturnsSameUser | services/api.ts:38-52 | a second verification of the same phone returns the same user and the same list, whatever fresh id is offered |
| Api.LookupOrRegisterKeepsPhonesUnique | services/api.ts:39-51 | if phones were pairwise distinct before a verification, they still are after it |
| Api.LookupOrRegisterKeepsRoleRule | services/api.ts:47 | if every stored role followed the admin-phone rule, it still does, and the returned user is admin iff the phone is the admin number |
| Api.ReplaceUser | services/api.ts:72-75 | the length is kept; only the first record with the argument's id is replaced by the argument; every other record is unchanged |
| Api.ReplaceUserAbsentIsNoop | services/api.ts:73-74 | with no record of that id the list is unchanged |
| Api.ReplaceUserKeepsPhonesUnique | services/api.ts:73-75 | phones stay distinct when no record other than the replaced one holds the new phone |
| Api.ReplaceUserCanDuplicatePhone | services/api.ts:73-75 | a replacement that takes another record's phone breaks uniqueness: the update does not check it |
| Api.ReplaceUserCanGrantAdmin | services/api.ts:73-77 | a customer without the admin phone, updated to the admin role, turns a list that followed the role rule into one that does not: the update does not check the role |
| Api.ReplaceUserKeepsRoleRule | services/api.ts:73-75 | the role rule survives a replacement when the record passed follows it |
| Api.ReplaceUserRoleRuleNeedsRecord | services/api.ts:73-75 | when an id matched and the rule holds after the replacement, the record passed follows the rule; with no match any record leaves the list as it was |
| Api.ProductsWithout | services/api.ts:110 | every product kept has a different id and comes from the list; every product with a different id is kept, as many times as it occurs, and none with the id |
| Api.ProductsWithoutAppend | services/api.ts:110 | deleting from a concatenation deletes from each part, in order |
| Api.ProductsWithoutAbsentIsNoop | services/api.ts:110 | deleting an absent id leaves the list unchanged |
| Api.ProductsWithoutIdempotent | services/api.ts:110 | deleting the same id twice is deleting it once |
| Api.ProductsWithoutOnlyId | services/api.ts:110 | deleting the id every product has leaves the catalogue empty |
| Api.OrdersOf | services/api.ts:130 | every order listed has the user id and is stored; every stored order with the user id is listed, as many times as it is stored, and no other order |
| Api.OrdersOfAppend | services/api.ts:130 | the listing of a concatenation is the listings of the parts in order, so relative order is kept |
| Api.SetStatus | services/api.ts:135-137 | the length is kept; the first order with the id gets the new status and keeps its other fields; every other order is unchanged |
| Api.SetStatusAbsentIsNoop | services/api.ts:135-136 | a status change for an absent id changes nothing |
| Api.SetStatusLastWins | services/api.ts:133-140 | of two status changes to one order the second wins, whatever the first set: there is no forward-only rule |
| Api.LocalStore.constructor | services/api.ts:11-15 | a store with no key written: empty lists, no current user, and the given seed |
| Api.LocalStore.SendOtp | services/api.ts:23-31 | always resolves true and writes nothing |
| Api.LocalStore.VerifyOtp | services/api.ts:33-61 | a code other than 1234 is rejected with 'Invalid OTP', and users and pointer are unchanged; 1234 stores `LookupOrRegister`'s list and points the current user at the returned user; phone uniqueness and the role rule are preserved; products and orders are unchanged |
| Api.LocalStore.GetCurrentUser | services/api.ts:63-65 | returns the stored pointer |
| Api.LocalStore.Logout | services/api.ts:67-69 | the pointer is removed; the three collections are unchanged |
| Api.LocalStore.UpdateProfile | services/api.ts:71-80 | returns its argument; the user list becomes `ReplaceUser`'s; the pointer is set to the argument iff an id matched; nothing else changes |
| Api.LocalStore.GetAllProducts | services/api.ts:85-98 | a non-empty catalogue is returned unchanged; an empty one is replaced by the seed, which is returned |
| Api.LocalStore.AddProduct | services/api.ts:100-106 | exactly `WithId(draft, freshId)` is appended at the end, and it is what is returned; nothing else changes |
| Api.LocalStore.DeleteProduct | services/api.ts:108-112 | the catalogue becomes `ProductsWithout(old, id)`; nothing else changes |
| Api.LocalStore.CreateOrder | services/api.ts:117-122 | the order is appended as given, total included, and returned; nothing else changes |
| Api.LocalStore.GetAllOrders | services/api.ts:124-126 | returns every stored order in insertion order |
| Api.LocalStore.GetUserOrders | services/api.ts:128-131 | the user's orders are the filter of `getAll`'s list by user id |
| Api.LocalStore.UpdateStatus | services/api.ts:133-140 | the order list becomes `SetStatus(old, id, status)`; nothing else changes |
| Api.VerifyTwice | services/api.ts:33-61 | two correct verifications of one phone return the same user and store at most one new record |
| Api.DeleteEachCoveringIds | services/api.ts:108-112 | deleting in turn each id of a sequence that covers every product's id leaves the catalogue empty |
| Api.DeleteAllThenList | services/api.ts:85-112 | deleting every product one id at a time and then listing returns the seed and stores it again |
| Api.DeleteLastThenList | services/api.ts:88-95 | deleting the only id left and then listing returns the seed and stores it again |
| Api.PaidThenPending | services/api.ts:133-140 | marking an order paid and then pending leaves it pending |
| Context.InitialAuth | context.tsx:20-23 | the initial state is unauthenticated and holds no user |
| Context.Startup | context.tsx:29-34 | after start-up the state holds exactly the stored pointer, and it is authenticated iff the pointer is present |
| Context.Login | context.tsx:36-38 | `{user, true}`: consistent and holding the user |
| Context.LoggedOut | context.tsx:42 | `{null, false}`: consistent and holding no user |
| Context.Logout | context.tsx:40-43 | the state is logged out and the stored pointer is removed; the collections are unchanged |
| Context.LogoutThenStartup | context.tsx:29-43 | a start-up after a logout finds no session |
| Context.Existing | context.tsx:48 | the index returned is that of the first entry with the product id; none is returned exactly when no entry has it |
| Context.AddToCart | context.tsx:46-55 | the cart grows by at most one entry and every old entry keeps its product fields; it grows exactly when no entry has the product id, and then the new last entry is `{...product, quantity: qty}` |
| Context.Bump | context.tsx:50-52 | the map keeps the length and every product field; entries with the id gain `qty`, others stay as they are |
| Context.AddToCartExisting | context.tsx:48-53 | for a product already in the cart: same length, product fields kept, matching entries gain `qty`, every other entry unchanged |
| Context.AddToCartExistingUnique | context.tsx:48-53 | with one entry per id, only the entry found has its quantity raised by `qty` |
| Context.AddToCartNew | context.tsx:54 | for a new product id, `{...product, quantity: qty}` is appended at the end |
| Context.AddToCartKeepsUniqueIds | context.tsx:46-55 | adding keeps at most one entry per product id |
| Context.UniqueCount | context.tsx:48 | with one entry per id, a product has one entry iff `find` finds it, and none otherwise |
| Context.AddToCartQuantity | context.tsx:46-55 | with one entry per id, an add raises that id's quantity by exactly `qty` and leaves one entry for it; other ids keep their quantity and count |
| Context.AddEachQuantity | context.tsx:46-55 | after any sequence of adds: one entry per id, each quantity grown by the sum of the quantities added for it, one entry for every id added |
| Context.AddEachFromEmpty | context.tsx:46-55 | from the empty cart, a product added several times has one entry whose quantity is the sum of the `qty` values |
| Context.RemoveFromCart | context.tsx:58-60 | no entry with the id remains; every entry with another id is kept, as many times as it occurs |
| Context.RemoveFromCartAppend | context.tsx:59 | removal from a concatenation is the removal from each part, in order |
| Context.RemoveFromCartAbsentIsNoop | context.tsx:59 | removing an absent id changes nothing |
| Context.RemoveFromCartIdempotent | context.tsx:59 | removing twice is removing once |
| Context.RemoveFromCartKeepsUniqueIds | context.tsx:59 | removal keeps at most one entry per product id |
| Context.ClearCart | context.tsx:62 | the cleared cart is empty |
| Context.UnitPrice | context.tsx:65 | an absent or zero offer price falls back to the price; any other offer price is used |
| Context.Reduce | context.tsx:64-67 | the fold from any starting sum is that sum plus the sum of `(offerPrice or price) * quantity` over the entries |
| Context.CartTotal | context.tsx:64-67 | the fold from 0 equals the sum of `(offerPrice or price) * quantity` over the entries |
| Context.CartTotalAppend | context.tsx:64-67 | the total of two carts put together is the sum of their totals |
| Context.CartTotalAppendOne | context.tsx:64-67 | appending an entry raises the total by exactly its line amount |
| Context.ClearCartTotal | context.tsx:62-67 | the total of the cleared cart is 0 |
| Context.AddToCartTotalExisting | context.tsx:48-53 | re-adding a product raises the total by `qty` times the unit price of the entry already in the cart, not that of the product passed in |
| Routing.IsAdmin | App.tsx:20 | an absent user is never an admin; a present user is an admin exactly when their role is admin |
| Routing.ProtectedRoute | App.tsx:13-25 | redirect to /login iff unauthenticated, whatever adminOnly is; redirect to / iff authenticated, adminOnly and the user is not an admin (a null user included); render otherwise |
| Routing.Route | App.tsx:29-46 | only /orders and /admin are guarded: /login is shown exactly to a visitor on one of them, / exactly to a non-admin session on /admin, and the page in every other case |
| Routing.OpenRoutesRender | App.tsx:30-33 | the unguarded routes render for everyone |
| Routing.OrdersNeedsLogin | App.tsx:35-39 | /orders uses the default adminOnly = false: it renders iff authenticated, else it redirects to /login |
| Routing.AdminNeedsAdminRole | App.tsx:41-45 | /admin renders iff authenticated with an admin user; other sessions go to /, visitors to /login |
| Routing.OrdersAfterStartup | App.tsx:35-39 | after start-up /orders renders iff a current-user pointer was stored |
| Routing.NothingGuardedAfterLogout | App.tsx:16-18 | after a logout both guarded routes redirect to /login |
| Routing.RegisteredUserReachesAdminIff | App.tsx:41-45 | a freshly registered user reaches /admin iff their phone is 6302382280 |
| Routing.StoredUserReachesAdminIff | App.tsx:20-22 | under the role rule (kept by verification, not by every profile update), a stored user reaches /admin iff their phone is the admin number |
| Routing.ProfileUpdateCanGrantAdmin | services/api.ts:71-80 | a stored customer without the admin phone is sent home from /admin; after the store's `updateProfile` gives them the admin role, the start-up from the stored pointer renders /admin |
| Routing.VerifyThenLogin | pages/Auth.tsx:39-45 | a rejected code leaves the auth state it was given and the stored users and pointer unchanged; a correct code gives a session on the current user, which is the user `LookupOrRegister` returns for the phone, and if the stored roles followed the rule it reaches /admin iff the phone is the admin number |

## Left out

- Local storage mechanics: JSON serialisation, parse failures and the string keys (services/api.ts:4-19). The store keeps typed fields.
- `setTimeout` delays, Promises and asynchronous resolution. Every call is one atomic step. Concurrent tabs are out of scope.
- `Date.now().toString()` ids: the fresh id is a parameter. The model does not show that ids are unique.
- `console.log` in `sendOtp`.
- JavaScript floating-point arithmetic in prices and totals: integers are used. `NaN` as a falsy offer price is not modelled.
- The contents of `INITIAL_PRODUCTS` and `CATEGORIES` (the `constants` module is not part of this model). The seed is the `seed` constant given to the store.
- The pages (`pages/Admin.tsx`, `pages/Auth.tsx` and those not shown) and their form checks: the phone-length check, the forward-only status buttons and the name/price submit check. The React hooks, the context plumbing and the router configuration are out too. `Routing.VerifyThenLogin` models only the login page's submit: `verifyOtp`, then `login` on success, and on a rejection the auth state is left as it was; the error text and the navigation are not modelled.
- The transient `{null, false}` state that start-up shows before its effect runs: `Context.Startup` is the state once the effect has run.
