# Rythm-Vogue application store, modelled in Dafny

The storefront's client keeps one application snapshot (`AppState`): the product catalog,
two derived views of it (featured products and the filtered list), the current product
filter, the shopping cart, the admin session, the chat transcript and four open/closed
interface flags. Every exported action computes a complete new snapshot from the old one
and installs it; login, signup and logout also write to or remove from browser storage.

This project models that store:

- `optional.dfy` (`Optional`): `Option` for nullable and optional fields, `Result` for a call that may throw.
- `seqs.dfy` (`Seqs`): order-preserving `Filter`, element-wise `Map`, the ordered-subsequence relation `Subseq`, and their laws.
- `text.dfy` (`Text`): `toLowerCase` on ASCII letters, `includes`, and the decimal rendering of a clock reading, with its round trip.
- `entities.dfy` (`Entities`): `Product`, `ProductPatch` (a `Partial<Product>`), `CartItem`, `ChatMessage`, `ProductFilter`, `State`.
- `catalog.dfy` (`Catalog`): `setProducts`, the state step of `addProduct`, `updateProduct`, `deleteProduct`, and the featured view.
- `filtering.dfy` (`Filtering`): `filterProducts`, which merges its arguments into the filter and recomputes the filtered view.
- `cart.dfy` (`Cart`): `addToCart`, `removeFromCart`, `updateCartItemQuantity`.
- `session.dfy` (`Session`): the storage-seeded initial snapshot, the state and storage steps of `login`, `signup` and `adminLogout`.
- `chat.dfy` (`Chat`) and `panels.dfy` (`Panels`): the chat transcript and the four toggles.
- `invariants.dfy` (`Invariants`): the snapshot invariant `Coherent` and its preservation by the catalog and filter actions.
- `store.dfy` (`Store`): the class `AppStore` with a mutable `state` and a `storage: map<string, string>`. Each action is a method that installs the pure step's result. Each method keeps `Valid()`: the snapshot is `Coherent`, and the in-memory session equals what storage would seed.

`Coherent` says three things:

- the featured view equals the featured members of the catalog, in catalog order;
- the filtered view is an ordered subsequence of the catalog;
- the cart has at most one line per product id.

The filtered view is not always the catalog filtered by the current filter. `setProducts` resets it to the whole list. `addProduct` leaves it as it was while a filter is active. `updateProduct` edits its entries without re-filtering. The model keeps all three behaviours.

Where the design description and the code disagree, the model follows the code:

- The design says a cart quantity is always at least 1. `addToCart` adds whatever quantity it is given, so a line can hold zero or a negative quantity. Only `updateCartItemQuantity` removes lines, for a quantity of 0 or less.
- The design says a failed login leaves the session anonymous. The code leaves the session exactly as it was, which may be signed in.
- The design says `deleteProduct` removes the product from the featured view. The code recomputes the featured view from the new catalog. `Catalog.DeleteFromFeatured` shows that the two agree on a coherent snapshot.
- The signup rejection for a falsy reply body puts its text under the misspelled key `erroor`. `Session.SignupResult.SignupRejected` keeps that name.

## Model

| member | source | states |
|---|---|---|
| `Text.Lower` | client/src/store/appStore.ts:131-135 | `toLowerCase` keeps the length and lower-cases each character in place |
| `Text.DecimalString` | client/src/store/appStore.ts:224 | `toString()` of a clock reading is a non-empty string of decimal digits with no leading zero unless it is "0" |
| `Text.Includes` | client/src/store/appStore.ts:134-135 | `includes` is true exactly when the query occurs at some position of the text; the empty query occurs everywhere |
| `Text.DecimalRoundTrip` | client/src/store/appStore.ts:224 | the decimal rendering used for a chat id reads back as the clock value it came from |
| `Chat.NewMessage` | client/src/store/appStore.ts:221-225 | the stored message keeps the caller's text, sender and timestamp; its id is all digits, has no leading zero unless it is "0", and denotes the clock reading |
| `Chat.DistinctReadingsDistinctIds` | client/src/store/appStore.ts:221-225 | messages stamped at different clock readings get different ids |
| `Chat.AddChatMessage` | client/src/store/appStore.ts:227-230 | the transcript grows by one, earlier messages stay where they were, the new one is last, nothing else changes |
| `Chat.ClearChatMessages` | client/src/store/appStore.ts:235-240 | the transcript is empty and nothing else changes |
| `Panels.ToggleCart` | client/src/store/appStore.ts:199-204 | the cart flag flips and no other field changes |
| `Panels.ToggleMobileMenu` | client/src/store/appStore.ts:206-211 | the mobile-menu flag flips and no other field changes |
| `Panels.ToggleChat` | client/src/store/appStore.ts:214-219 | the chat flag flips and no other field changes |
| `Panels.ToggleAdminPanel` | client/src/store/appStore.ts:311-316 | the admin-panel flag flips and no other field changes |
| `Panels.TogglesAreInvolutions` | client/src/store/appStore.ts:199-219 | toggling any flag twice restores the snapshot |
| `Cart.FindLine` | client/src/store/appStore.ts:149 | `find` returns a line exactly when some line has the id, and then the first such line |
| `Cart.AddToCart` | client/src/store/appStore.ts:147-165 | the product always has a line afterwards; if it had one, the cart length is unchanged, lines for the id gain the quantity and keep their stored product, others are untouched; if not, the new line is appended; at most one line per id is preserved |
| `Cart.AddToCartAccumulates` | client/src/store/appStore.ts:149-163 | on a cart with unique lines, the product's total quantity rises by exactly the quantity added and every other product's total is unchanged |
| `Cart.AddTwiceMerges` | client/src/store/appStore.ts:149-163 | adding a product twice to a cart without it yields one line with the summed quantity, never two lines |
| `Cart.RemoveFromCart` | client/src/store/appStore.ts:167-172 | no line for the id remains, every other line survives in order, removing an absent id is a no-op, unique lines stay unique |
| `Cart.RemoveIdempotent` | client/src/store/appStore.ts:167-172 | removing twice equals removing once |
| `Cart.UpdateCartItemQuantity` | client/src/store/appStore.ts:174-190 | a quantity of 0 or less gives exactly the removal result; a positive quantity keeps the length, sets the id's lines to that quantity and leaves other lines alone; unique lines stay unique |
| `Cart.UpdateIdempotent` | client/src/store/appStore.ts:174-190 | repeating an update with the same quantity changes nothing further, for every quantity |
| `Cart.UpdateSetsQuantity` | client/src/store/appStore.ts:174-190 | with unique lines: after a non-positive update the id has no line and zero total; after a positive one its total is exactly that quantity; an absent id is not added |
| `Cart.CartScenario` | client/src/store/appStore.ts:147-190 | add 2 gives [{P,2}], add 3 gives [{P,5}], set 1 gives [{P,1}], set 0 gives [] |
| `Catalog.Featured` | client/src/store/appStore.ts:107 | the featured view is an ordered subsequence of the catalog holding exactly its featured members |
| `Catalog.FeaturedKeepsCopies` | client/src/store/appStore.ts:107 | each featured product occurs in the featured view as many times as in the catalog, and no other product occurs |
| `Catalog.SetProducts` | client/src/store/appStore.ts:103-110 | the catalog and the filtered view become the new list whatever the filter, the featured view is in step, nothing else changes |
| `Catalog.AddProduct` | client/src/store/appStore.ts:348-356 | the product is appended; the featured view gains it exactly when it is featured; the filtered view becomes the whole catalog only when no filter field is truthy, and is otherwise left as it was |
| `Catalog.UpdateProduct` | client/src/store/appStore.ts:364-379 | in the catalog and the filtered view, entries with the id get the patch merged in and all other entries are unchanged; neither list changes length; featured is recomputed |
| `Catalog.UpdateKeepsIds` | client/src/store/appStore.ts:366-376 | a patch that leaves the id alone keeps the ids of both lists, in order |
| `Catalog.UpdateUnknownId` | client/src/store/appStore.ts:364-379 | updating an id that no entry has leaves a coherent snapshot unchanged |
| `Entities.Merge` | client/src/store/appStore.ts:367-375 | `{ ...product, ...updates }`: every field the patch gives takes the patch's value, every other field keeps the product's, and the empty patch changes nothing |
| `Catalog.MergeLaws` | client/src/store/appStore.ts:367 | merging the same patch twice equals merging once; the empty patch changes nothing |
| `Catalog.Without` | client/src/store/appStore.ts:383-389 | filtering out an id leaves no entry with it; every other entry keeps all its copies, in the original relative order |
| `Catalog.DeleteProduct` | client/src/store/appStore.ts:381-394 | in one step the id leaves the catalog, both views and the cart; every other catalog and filtered-view entry survives with all its copies, in its original relative order; no other field changes |
| `Catalog.DeleteFromFeatured` | client/src/store/appStore.ts:383-388 | recomputing the featured view after a delete equals removing the id from the old featured view |
| `Filtering.MergeFilter` | client/src/store/appStore.ts:114-118 | each argument that is passed (not `undefined`) replaces its field, and each omitted one keeps the previous field |
| `Filtering.Visible` | client/src/store/appStore.ts:120-137 | the filtered list is the catalog filtered by the conjunction of the active constraints: an ordered subsequence that keeps a product exactly when it matches, and the whole catalog when no field is truthy |
| `Filtering.VisibleIsConjunction` | client/src/store/appStore.ts:120-137 | the three successive narrowing steps (category, culture, search) equal one filter by all three predicates |
| `Filtering.FilterProducts` | client/src/store/appStore.ts:112-145 | the filter becomes the merge of the arguments, the filtered view is the catalog filtered by it, and only those two fields change |
| `Filtering.MergeFilterFields` | client/src/store/appStore.ts:114-118 | an omitted argument keeps its field; passing `null` or `''` clears that constraint |
| `Filtering.ClearedFilterShowsAll` | client/src/store/appStore.ts:114-137 | when the merged filter has no truthy field, the filtered view equals the catalog |
| `Filtering.NoArgumentsReapply` | client/src/store/appStore.ts:112-145 | calling with every argument omitted keeps the filter and re-applies it to the catalog |
| `Filtering.SearchIgnoresQueryCase` | client/src/store/appStore.ts:130-136 | a product's visibility does not depend on the letter case of the query |
| `Filtering.VisibleIdempotent` | client/src/store/appStore.ts:120-137 | filtering the filtered list again with the same filter changes nothing |
| `Filtering.CategoryScenario` | client/src/store/appStore.ts:122-124 | with a music product and a clothing product, the "music" category filter keeps only the music product |
| `Session.StoredAuthenticated` | client/src/store/appStore.ts:78-94 | storage seeds a signed-in flag exactly when the key holds the text "true"; a missing key seeds signed out |
| `Session.StoredToken` | client/src/store/appStore.ts:77-96 | storage seeds a token exactly when the key is present and non-empty, and then it is the stored text |
| `Session.Initial` | client/src/store/appStore.ts:77-100 | the initial snapshot has empty collections, no active filter and closed panels; its session is exactly what storage seeds |
| `Session.ReplyToken` | client/src/store/appStore.ts:246-248 | a reply yields a token exactly when its body is truthy, and the token is non-empty |
| `Session.Authenticate` | client/src/store/appStore.ts:252-256 | after a successful login the flag and the token are both set, never one without the other, and nothing else changes |
| `Session.PersistLogin` | client/src/store/appStore.ts:249-250 | both session keys are written, the flag as the text "true", and every other key is kept |
| `Session.Logout` | client/src/store/appStore.ts:302-308 | signed out, no token, admin panel closed, nothing else changed |
| `Session.ForgetSession` | client/src/store/appStore.ts:298-300 | the three session keys are removed and every other key keeps its value |
| `Session.LoginResult` | client/src/store/appStore.ts:243-265 | `login` answers true exactly when the request answered with a truthy body, and false for a thrown error |
| `Session.SignupOutcome` | client/src/store/appStore.ts:267-294 | `signup` succeeds exactly when a token came back; a falsy body gives "Signup failed"; a thrown error gives the server's message when it is truthy, else the generic text |
| `Session.LoginMirrored` | client/src/store/appStore.ts:248-256 | after a login, storage seeds exactly the in-memory session |
| `Session.LogoutMirrored` | client/src/store/appStore.ts:296-309 | after a logout, storage seeds the signed-out session that is in memory |
| `Session.ReloadRestoresSession` | client/src/store/appStore.ts:77-78 | seeding from storage after a login restores the token and the flag; after a logout it gives a signed-out session |
| `Invariants.InitialCoherent` | client/src/store/appStore.ts:81-100 | the initial snapshot is coherent |
| `Invariants.SetProductsCoherent` | client/src/store/appStore.ts:103-110 | `setProducts` keeps the snapshot coherent |
| `Invariants.AddProductCoherent` | client/src/store/appStore.ts:348-356 | the `addProduct` step keeps the filtered view a subsequence of the grown catalog, stale or not |
| `Invariants.UpdateProductCoherent` | client/src/store/appStore.ts:364-379 | merging the patch into both lists keeps the filtered view a subsequence of the catalog |
| `Invariants.DeleteProductCoherent` | client/src/store/appStore.ts:381-394 | deleting from both lists and the cart keeps the snapshot coherent |
| `Invariants.FilterProductsCoherent` | client/src/store/appStore.ts:112-145 | `filterProducts` keeps the snapshot coherent |
| `Store.AppStore.constructor` | client/src/store/appStore.ts:77-100 | the store starts from the storage-seeded initial snapshot, valid |
| `Store.AppStore.SetProducts` | client/src/store/appStore.ts:103-110 | installs the `setProducts` step, storage untouched, validity kept |
| `Store.AppStore.FilterProducts` | client/src/store/appStore.ts:112-145 | installs the `filterProducts` step, storage untouched, validity kept |
| `Store.AppStore.AddToCart` | client/src/store/appStore.ts:147-165 | only the cart changes, to the `addToCart` result |
| `Store.AppStore.RemoveFromCart` | client/src/store/appStore.ts:167-172 | only the cart changes, to the removal result |
| `Store.AppStore.UpdateCartItemQuantity` | client/src/store/appStore.ts:174-190 | only the cart changes, to the quantity-update result |
| `Store.AppStore.ClearCart` | client/src/store/appStore.ts:192-197 | the cart becomes empty and nothing else changes |
| `Store.AppStore.ToggleCart` | client/src/store/appStore.ts:199-204 | installs the toggle, storage untouched |
| `Store.AppStore.ToggleMobileMenu` | client/src/store/appStore.ts:206-211 | installs the toggle, storage untouched |
| `Store.AppStore.ToggleChat` | client/src/store/appStore.ts:214-219 | installs the toggle, storage untouched |
| `Store.AppStore.ToggleAdminPanel` | client/src/store/appStore.ts:311-316 | installs the toggle, storage untouched |
| `Store.AppStore.AddChatMessage` | client/src/store/appStore.ts:221-233 | stores and returns the stamped message, appended to the transcript |
| `Store.AppStore.ClearChatMessages` | client/src/store/appStore.ts:235-240 | empties the transcript |
| `Store.AppStore.Login` | client/src/store/appStore.ts:243-265 | with a truthy token: both storage keys written and the session set; otherwise state and storage unchanged and the answer is false |
| `Store.AppStore.Signup` | client/src/store/appStore.ts:267-294 | the same state and storage step as login, returning the signup outcome |
| `Store.AppStore.AdminLogout` | client/src/store/appStore.ts:296-309 | the three keys leave storage and the session is cleared with the admin panel closed |
| `Store.AppStore.AddProduct` | client/src/store/appStore.ts:341-361 | a created product is appended by the `addProduct` step and returned; a failure is passed back unchanged and the state is untouched |
| `Store.AppStore.UpdateProduct` | client/src/store/appStore.ts:364-379 | installs the `updateProduct` step, storage untouched, validity kept |
| `Store.AppStore.DeleteProduct` | client/src/store/appStore.ts:381-394 | installs the `deleteProduct` step, storage untouched, validity kept |

## Left out

- The HTTP requests of `login`, `signup` and `addProduct` are not modelled. Their outcome is an input: an `AuthReply` (a reply body or a thrown error with its server message), or a `Result` carrying the created product or the error.
- The bearer header that `addProduct` builds from the session token is part of the request, so it is not modelled.
- Browser storage is a `map<string, string>` field of the store, not real I/O. It is read once, when the store is constructed.
- `Date.now()` is the `now` parameter of `AddChatMessage`. Ids differ for different clock readings; two messages added in the same millisecond share an id, and nothing is claimed about ids increasing.
- The store library's subscription and notification machinery is not modelled, and neither are the `console.log`/`console.error` calls.
- Concurrency is not modelled. Each action is one atomic step. A network reply that arrives after later actions ("last write wins") is not modelled.
- `Text.Lower`: lower-cases ASCII letters only; full Unicode case mapping is not modelled.
- `price` is a `real` that is carried and never computed with; floating-point behaviour is not modelled.
- Cart quantities are integers; fractional JavaScript numbers are not modelled.
- `Cart.AddToCart`: the default `quantity = 1` of `addToCart` is not modelled; callers pass the quantity explicitly.
- `Entities.Merge`: a patch field is either absent or given a value; a property explicitly set to `undefined` (which would overwrite the field with `undefined`) is not modelled.
- A reply body that is truthy but not a string is not modelled; a token is an optional string.
- The category's closed set of names is not enforced; the store only compares it with the filter's string.
- `adminLogout` also assigns a stray `userRole` field that `AppState` does not declare; that field is not part of the model (its storage key is removed).
- client/src/components/chat/ChatProductCard.tsx (a presentational card that calls `addToCart` with quantity 1) and server/server.ts (server wiring) are not part of this model.
