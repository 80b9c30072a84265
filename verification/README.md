# Store backend: coupons, carts, inventory, orders, categories, store settings

This project models the data core of a Koa and Mongoose e-commerce backend in Dafny:
- the coupon, cart, inventory, order, category and store-settings schemas;
- the route handlers that read and write them.

Each MongoDB collection is a class whose field holds the documents in collection order:
- a `seq` for coupons, inventory records, orders and categories;
- a `map` from user id for carts, because the user index is unique;
- an optional record for the single store-settings document.

Each route is a method. Its `ensures` gives the HTTP outcome (the success value or the error, with its status code) and the whole new collection. Those are stated in terms of pure functions of the old collection. The properties the code promises are then proved about those functions, as lemmas and as invariants every route preserves.

Modelling conventions:
- **Ids.** Document ids are strings. `IsObjectId` is the check `mongoose.Types.ObjectId.isValid` applies to a 24-character string: hex digits of either case. `Canonical` is the lower-case form a stored ObjectId prints as.
  - A route that calls `findById` without checking the id first answers 500 on a malformed id, because the cast throws. The model returns `CastFailed` in that case.
- **Amounts.** Amounts are `real` and quantities `int`.
- **Parameters.** Outside inputs are parameters of the route methods:
  - the server clock (`now`);
  - whether the caller is an administrator;
  - the set of existing product ids (`catalog`);
  - the category ids products use;
  - the id the database assigns to a new document;
  - the CDN prefix.

Behaviour that looks unintended is modelled as written:
- **Coupon type strings.** The coupon schema stores `type` as `"fixed"` or `"percentage"`, but the validate route compares it against `"FixedAmount"` and `"Percentage"`. Every stored coupon therefore gets a discount of 0 (`Coupons.StoredCouponsGetNoDiscount`).
- **Creating an order.** `POST /orders` never supplies the required `shippingMethod` and receiver fields, so its save always fails (`Orders.CreatedDocumentRejected`).
- **Cart id matching.** The cart matches lines with a case-sensitive string comparison. Sending an id with upper-case hex digits therefore adds a second line for a product already in the cart (`Carts.UpperCaseIdDuplicatesLine`).
- **Category parents.** Category updates accept a category as its own parent (`Categories.SelfParentAccepted`).

Files:
- `common.dfy`: ids, `Option`/`Result`, and `findIndex`/`filter` over sequences.
- `coupons.dfy`, `cart.dfy`, `inventory.dfy`, `orders.dfy`, `categories.dfy`, `settings.dfy`: one module per schema and its router.

## Model

| member | source | states |
|---|---|---|
| Common.FindFirst | routes/cart.js:236 | `findIndex`: the first position whose element satisfies the predicate, or -1 exactly when no element does |
| Common.Filter | routes/cart.js:299 | `filter`: every kept element satisfies the predicate, every satisfying element is kept, and nothing new appears |
| Common.FilterCount | routes/cart.js:299 | `filter` keeps every satisfying element exactly as many times as it occurs and no other element, so nothing is repeated or lost |
| Common.RemoveAt | routes/coupons.js:365 | `deleteOne` removes exactly the document at that position: one fewer document, and the others keep their order |
| Coupons.FromInput | models/Coupon.js:6-17 | the document is accepted exactly when code, a schema `type`, value and both dates are present and the id lists are ObjectIds; when accepted it has `usedCount` 0, `isActive` true, `usageLimit` 1 and `minPurchase` 0 unless given, and `maxDiscount` optional |
| Coupons.Discount | routes/coupons.js:333-341 | the discount is `value` for "FixedAmount"; for "Percentage" it is `total*value/100`, capped at `maxDiscount` only when that is set and non-zero, and `NaN` when the total is missing; for any other type string it is 0 |
| Coupons.Rejection | routes/coupons.js:293-330 | a request is admitted exactly when the coupon is in its date window and active, the total is not below `minPurchase` (a missing total is never below it), `usedCount < usageLimit`, and every non-empty allow-list overlaps the request; each error (invalid, minimum purchase, usage limit, products, categories) is answered exactly when every earlier check passed and its own failed, and every rejection is a 400 |
| Coupons.Redeemed | routes/coupons.js:344-351 | `finalAmount + discount == totalAmount`, with no clamp at 0; without a total the final amount is `NaN` (sent as `null`) |
| Coupons.IndexOfCode | routes/coupons.js:284 | the coupon found has that code, and -1 exactly when no coupon has it |
| Coupons.IndexOfId | routes/coupons.js:373 | `findById` on a well-formed id: the coupon found has the cast id, and -1 exactly when no coupon has it |
| Coupons.WellFormed | models/Coupon.js:6-17 | what the schema admits on save: a non-empty code, `type` "fixed" or "percentage", and cast id lists |
| Coupons.Overlaps | routes/coupons.js:317-328 | `some(id => list.includes(id))`: some id of the request is in the coupon's list, compared as strings |
| Coupons.RedeemAll | routes/coupons.js:281-352 | after a series of validate requests, the coupon differs only in `usedCount`, which grew by exactly the number of admitted requests |
| Coupons.AdmissionsWithinBudget | routes/coupons.js:308-345 | at most `usageLimit - usedCount` requests are ever admitted, and `usedCount` never passes `usageLimit` once at or below it |
| Coupons.DefaultCouponSingleUse | models/Coupon.js:11-12 | a new coupon with the default usage limit is admitted once and then refused |
| Coupons.StoredCouponsGetNoDiscount | routes/coupons.js:333-341 | every coupon the schema admits (`type` "fixed" or "percentage") is charged a discount of 0 and a final amount equal to the total |
| Coupons.DisabledCouponRejected | routes/coupons.js:294 | a coupon with `isActive` false is rejected as invalid whatever the request |
| Coupons.MissingTotalAdmitted | routes/coupons.js:301-352 | a request without `totalAmount` passes the minimum-purchase check whatever the minimum, spends a use, and gets a `NaN` final amount |
| Coupons.CouponStore.Create | routes/coupons.js:238-272 | non-admins get 403; a document that fails validation or repeats a code gets 400 and nothing is stored; otherwise the new coupon is appended |
| Coupons.CouponStore.List | routes/coupons.js:275-278 | admins get every coupon, others 403 |
| Coupons.CouponStore.Validate | routes/coupons.js:281-352 | an unknown code gives 404; a rejected request returns the first failing check's error and writes nothing; an admitted one returns the redemption and raises only that coupon's `usedCount`, by exactly 1 |
| Coupons.CouponStore.Disable | routes/coupons.js:370-383 | 403 for non-admins, 500 for a malformed id, 404 for an unknown one; otherwise only that coupon's `isActive` becomes false |
| Coupons.CouponStore.Delete | routes/coupons.js:355-367 | 403 for non-admins, 500 for a malformed id, 404 for an unknown one; otherwise exactly that coupon is removed |
| Carts.IndexOfProduct | routes/cart.js:236 | the first line whose product prints exactly as the sent id, or -1 exactly when there is none |
| Carts.SavedLines | models/Cart.js:4-5 | what the line schema admits on save: quantity at least 1 and a cast product id |
| Carts.AddLine | routes/cart.js:236-244 | the lines after `POST /cart`: the first line printing as the id grows by the quantity, otherwise a line for the cast id is pushed |
| Carts.AddLineIsMerge | routes/cart.js:236-244 | the route's find-then-`+=`-or-`push` equals the reference walk that grows the first matching line or appends one |
| Carts.MergeAddsQuantity | routes/cart.js:238-243 | adding changes the cart's total quantity by exactly the requested amount |
| Carts.AddLineShape | routes/cart.js:236-244 | a product already in the cart keeps the number of lines and grows only its line; a new product appends exactly one line at the end and leaves the others |
| Carts.AddKeepsUniqueProducts | routes/cart.js:236-243 | with ids sent in the form the database prints, the cart keeps at most one line per product |
| Carts.UpperCaseIdDuplicatesLine | routes/cart.js:236-246 | an id sent with upper-case hex digits, for a product already in the cart, gives merged lines with two lines for that product; with a quantity of at least 1 those lines pass the save, so that is the cart stored |
| Carts.WithoutProduct | routes/cart.js:299 | every line of another product is kept exactly as often as it occurred and every line of the product is dropped, so the result is no longer; quantity and product validity are preserved |
| Carts.RemoveAbsentIsIdentity | routes/cart.js:299 | removing a product not in the cart leaves the lines unchanged |
| Carts.RemoveKeepsOrder | routes/cart.js:299 | removal keeps the remaining lines in their order |
| Carts.CartStore.Get | routes/cart.js:200-208 | a user without a cart sees an empty list, and otherwise their lines |
| Carts.CartStore.Add | routes/cart.js:211-248 | a malformed id gives 400 and an unknown product 404, with no change; otherwise the cart, created empty if missing, becomes the merged lines, unless a line falls below quantity 1, which the save rejects with 500 and no change |
| Carts.CartStore.Update | routes/cart.js:251-278 | a malformed id or `quantity < 1` gives 400, and a missing cart or product 404, with no change; otherwise only that line's quantity is set |
| Carts.CartStore.Remove | routes/cart.js:281-302 | 400 for a malformed id and 404 without a cart; otherwise the cart loses every line of the product and keeps the rest in order |
| Carts.CartStore.Clear | routes/cart.js:305-315 | an existing cart is emptied; without one nothing changes |
| Inventory.NewRecord | models/Inventory.js:6-9 | an absent `quantity` defaults to 0, `safeStock` to 10 and `warehouse` to "default"; given values are kept |
| Inventory.Adjusted | routes/inventory.js:253-259 | an adjustment is accepted exactly when `old + quantityChange >= 0`, and the new quantity is then that sum |
| Inventory.AdjustRoundTrip | routes/inventory.js:253 | from a non-negative quantity, adjusting by `+k` and then `-k` is accepted and restores the quantity |
| Inventory.NegativeRoundTripRefused | routes/inventory.js:253-259 | from a negative quantity (a reset or create may store one), a restock reaching 0 or more is accepted and taking the same amount out again is refused |
| Inventory.AdjustAllNonNegative | routes/inventory.js:253-261 | no sequence of adjust requests drives a non-negative quantity below 0 |
| Inventory.IndexOfProduct | routes/inventory.js:295 | the first record of the product, or -1 exactly when there is none |
| Inventory.IndexOfId | routes/inventory.js:245 | `findById` on a well-formed id: the record found has the cast id, and -1 exactly when none has it |
| Inventory.RecordsOf | routes/inventory.js:269 | the records of the product, each exactly as often as in the collection, and no other record |
| Inventory.InventoryStore.Create | routes/inventory.js:218-238 | a malformed product id gives 500 and an unknown product 404, with nothing created; otherwise the defaulted record is appended |
| Inventory.InventoryStore.Adjust | routes/inventory.js:241-263 | 500 for a malformed id and 404 for an unknown one; a result below 0 gives 400 and nothing is saved; otherwise only that record's quantity changes, by `quantityChange` |
| Inventory.InventoryStore.ForProduct | routes/inventory.js:266-279 | 500 for a malformed id, 404 when the product has no record, and otherwise its records |
| Inventory.InventoryStore.Reset | routes/inventory.js:291-306 | the first record of the product gets the given quantity, with no sign check, and nothing else changes; 404 when there is none |
| Orders.ParseStatus | models/Order.js:20-24 | only the five enum strings are accepted, each as its own status |
| Orders.StatusRoundTrip | models/Order.js:20-24 | every status written out is accepted back as itself |
| Orders.OrderTotal | routes/orders.js:278-281 | the loop's total is the sum of `price * quantity` over the items, and 0 for no items |
| Orders.SumAppend | routes/orders.js:278-281 | the total over two item lists is the sum of their totals |
| Orders.CreatedDocument | routes/orders.js:284-290 | the built document keeps the client's items and prices as sent and the computed total, with status Pending and both payment flags false |
| Orders.CreatedDocumentRejected | routes/orders.js:284-292 | the document the create route builds never passes validation, because `shippingMethod` and the receiver fields are missing |
| Orders.WellFormed | models/Order.js:14-57 | what the order schema admits on save: cast ids, a user, a shipping method and the three receiver fields non-empty |
| Orders.IndexOfId | routes/orders.js:326 | `findById` on a well-formed id: the order found has the cast id, and -1 exactly when none has it |
| Orders.OrdersOf | routes/orders.js:301 | the orders of the user, each exactly as often as in the collection, and no other order |
| Orders.FilterKeepsOldestFirst | routes/orders.js:301 | a user's orders, taken from the collection in creation order, stay in creation order |
| Orders.NewestFirstOf | routes/orders.js:301 | the result is newest first and a permutation of the given orders |
| Orders.Updated | routes/orders.js:334-337 | a non-empty status is written as the enum value it names, and a non-empty tracking number is written; empty or missing values keep the old ones; an unknown status fails the save; every other field is unchanged |
| Orders.AnyTransitionAccepted | routes/orders.js:334-337 | any order can be moved to any status, backwards included |
| Orders.OrderStore.Insert | routes/orders.js:292 | a document that fails validation gives 500 and changes nothing; otherwise it is appended |
| Orders.OrderStore.Create | routes/orders.js:274-295 | every create request gives 500 and stores nothing |
| Orders.OrderStore.MyOrders | routes/orders.js:298-310 | 500 for a malformed user id, 404 when the user has no orders, otherwise their orders, each exactly as often as stored, newest first |
| Orders.OrderStore.All | routes/orders.js:313-319 | every order, newest first, as a permutation of the collection |
| Orders.OrderStore.Update | routes/orders.js:322-340 | 500 for a malformed id and 404 for an unknown one; otherwise the order becomes `Updated(...)`, or is left unchanged with 500 when the status is not in the enum |
| Orders.OrderStore.Cancel | routes/orders.js:343-363 | 500 for a malformed id and 404 for an unknown one; a non-Pending order gives 400 and is kept; a Pending order is removed |
| Categories.ParentOf | models/Category.js:8 | a falsy parent is stored as none (a root), and any other parent as its cast id |
| Categories.WellFormed | models/Category.js:5-11 | what the category schema admits on save: a non-empty name and cast ids |
| Categories.IndexOfId | routes/categories.js:239 | `findById` on a well-formed id: the category found has the cast id, and -1 exactly when none has it |
| Categories.ChildrenOf | routes/categories.js:289 | the query `{ parentCategory: id }` finds the categories whose parent is this id, each exactly as often as stored, and no other |
| Categories.NewCategory | models/Category.js:6-10 | `isActive` defaults to true, `order` to 0 and the parent to none; given values are kept |
| Categories.Updated | routes/categories.js:262-266 | name, description and order are kept when absent; `isActive` changes only for a boolean; the parent is always overwritten, and cleared when omitted |
| Categories.DeleteLeavesNoOrphans | routes/categories.js:290-306 | deleting a category that no category names as parent leaves every remaining parent reference pointing at a stored category |
| Categories.ReplaceKeepsParents | routes/categories.js:247-268 | an update whose new parent exists keeps every parent reference valid |
| Categories.ReplaceKeepsConsistent | routes/categories.js:246-268 | an update that keeps the id, passes validation and names a stored parent keeps ids unique and every parent stored |
| Categories.SelfParentAccepted | routes/categories.js:247-259 | a category can be made its own parent, and the collection still passes the existence check |
| Categories.InsertByOrder | routes/categories.js:174 | inserting into a list sorted by `order` keeps it sorted and adds exactly that category |
| Categories.SortByOrder | routes/categories.js:174 | the result is sorted ascending by `order` and is a permutation of the input |
| Categories.CategoryStore.List | routes/categories.js:173-176 | every category, and only those, ascending by `order` |
| Categories.CategoryStore.Get | routes/categories.js:179-196 | 400 for a malformed id and 404 for an unknown one; otherwise the stored category with that id, and nothing else |
| Categories.CategoryStore.Create | routes/categories.js:199-226 | a malformed parent gives 400 and a missing one 404; a missing or empty name fails the save with 500; nothing is created on any failure; otherwise the defaulted category is appended |
| Categories.CategoryStore.Update | routes/categories.js:229-270 | 400 or 404 for a bad id or parent, with no change; an empty resulting name fails with 500; otherwise only that category becomes `Updated(...)` |
| Categories.CategoryStore.Delete | routes/categories.js:273-308 | 400 for a malformed id and 404 for an unknown one; 400 while sub-categories exist or products use it; otherwise exactly that category is removed |
| StoreSettings.Defaults | models/StoreSetting.js:3-24 | the record `new StoreSetting({})` builds has every schema path and passes validation |
| StoreSettings.DefaultValues | models/StoreSetting.js:4-23 | the defaults: name "My Store", business hours "9:00 AM - 9:00 PM", logo "" and theme colour "#ffffff", and every contact, address and social-link field "" |
| StoreSettings.WellFormed | models/StoreSetting.js:3-24 | what save accepts: exactly the schema's paths, each group with its sub-keys, and a non-empty `name` |
| StoreSettings.MergeGroup | routes/storeSettings.js:92-93 | merging an object into a group keeps the group's sub-keys |
| StoreSettings.MergedField | routes/storeSettings.js:91-97 | merging keeps a field's shape and its group's sub-keys |
| StoreSettings.Partial | routes/storeSettings.js:90-98 | the working copy after the loop has handled some of the keys has the record's keys |
| StoreSettings.Merged | routes/storeSettings.js:90-98 | the record after the loop has handled every key has exactly the record's keys |
| StoreSettings.Throws | routes/storeSettings.js:91-93 | an object with a sub-key sent for a key the record lacks makes the loop throw |
| StoreSettings.CastFails | routes/storeSettings.js:96-100 | a non-empty string sent for a group makes the save fail its cast |
| StoreSettings.PutResult | routes/storeSettings.js:90-100 | the update succeeds exactly when three things hold: no object is sent for a key the record lacks (a throw); no non-empty string is sent for a group (a failed cast); and the merged `name` is present and non-empty. The result is then the merged record; otherwise 500 |
| StoreSettings.ApplyUpdate | routes/storeSettings.js:90-100 | the loop over the request keys, followed by the save check, yields exactly `PutResult` |
| StoreSettings.MergedConforms | routes/storeSettings.js:90-98 | merging keeps every schema path and each group's sub-keys |
| StoreSettings.ScalarWritten | routes/storeSettings.js:96 | a string sent for a text field is written, the empty string included |
| StoreSettings.NullishKeeps | routes/storeSettings.js:93-96 | a null or undefined value keeps the old field |
| StoreSettings.GroupMerged | routes/storeSettings.js:91-94 | an object is merged sub-key by sub-key; absent and null sub-values keep the old value |
| StoreSettings.UntouchedKeysUnchanged | routes/storeSettings.js:90-98 | keys the update does not mention are unchanged |
| StoreSettings.PutIdempotent | routes/storeSettings.js:90-100 | applying an accepted update twice gives the same record as applying it once |
| StoreSettings.IndexOfFrom | routes/storeSettings.js:214 | the first occurrence of the pattern at or after the start, or -1 exactly when there is none |
| StoreSettings.StartsWith | routes/storeSettings.js:197 | `startsWith`: the string begins with the prefix |
| StoreSettings.RemoveFirst | routes/storeSettings.js:214 | `replace` with a string pattern: the first occurrence is cut out, a string starting with the pattern loses that prefix, and a string without the pattern is returned unchanged |
| StoreSettings.LogoKeyRoundTrip | routes/storeSettings.js:197-214 | a logo URL the route accepted, once replaced, yields the object key it was built from |
| StoreSettings.SettingsStore.Get | routes/storeSettings.js:30-44 | 404 without a record, otherwise the record |
| StoreSettings.SettingsStore.Put | routes/storeSettings.js:78-107 | 404 without a record; otherwise the answer is `PutResult`; the record is replaced only on success and stays valid |
| StoreSettings.SettingsStore.Logo | routes/storeSettings.js:193-230 | a missing or empty URL, or one outside the CDN prefix, gives 400 and 404 means no record, with no change in either case; otherwise only `appearance.logo` changes, and the old logo's key (its URL without the prefix) is reported when there was one |

## Left out

- `app.js:90-94` mounts only the admin, product, transport, store-settings and image routers. The coupon, cart, inventory, order and category routes are modelled as written, although that wiring leaves them unreachable.
- **Authentication.**
  - `ensureAdminAuth` is an `isAdmin` parameter.
  - The cart's and my-orders' `ctx.state.user` is a user id parameter.
  - JWT handling is not part of this model.
- **Populating referenced documents.** The model returns ids where the routes populate products (cart, inventory), the order's user and the category's parent.
  - `GET /categories/:id` also populates the `subCategories` virtual. Virtuals are not serialised into the JSON body, so the answer carries only the category. `Categories.ChildrenOf` is the same `{ parentCategory: id }` query, which the delete route runs as its guard.
- **Concurrency.** Every read-then-write (coupon use, stock adjustment) is modelled as one sequential step. Nothing here claims atomic admission control.
- **Numbers.**
  - JavaScript numbers are doubles; amounts are `real` and quantities `int`, so rounding is not modelled.
  - Request values are typed. JavaScript coercion of strings sent as numbers, and numbers or booleans sent as strings, is not modelled.
- **Missing request fields.** A missing `totalAmount` on coupon validation is modelled (`Coupons.MissingTotalAdmitted`). Other missing fields are not modelled:
  - a missing `items` (orders), `productIds`/`categoryIds` or `code` (coupon validation);
  - a missing numeric field: the cart's `quantity`, the inventory's `quantityChange` and `quantity` on reset;
  - a missing `productId` on cart and inventory requests;
  - a JSON `null` `totalAmount` on coupon validation, which the minimum-purchase check compares as 0 rather than as a missing value.
- **ObjectId validation.** `isValid` also accepts any 12-character string; only the 24-hex-digit form is modelled.
- **Dates.** Dates are integers. The `timestamps` fields other than the order's `createdAt` are not modelled.
- **Sort ties.**
  - The order collection is kept in creation order, and newest-first lists reverse it, so ties keep reverse insertion order. MongoDB leaves tie order unspecified.
  - The category sort is an insertion sort and likewise fixes an order among equal `order` values.
- **Order schema.**
  - Of the order's `logistics` and `payment` sub-records, only the receiver fields and the two payment flags are modelled. The other paths have no behaviour in these routes.
  - `shippingAddress` and `paymentDetails`, which the create route passes, are not schema paths and are discarded.
- Orders.OrderStore.Create: the model does not state that create stores the client's items and `paymentDetails.method`. The save always fails, so nothing is stored. The document it would have stored is stated by `Orders.CreatedDocument`, and `paymentDetails` is not a schema path.
- **Category parents.** A parent sent as the empty string is treated like no parent; Mongoose's cast of `""` to an ObjectId is not modelled.
- **Store-settings update.**
  - Arrays, numbers and booleans in the update body are not modelled.
  - An object nested inside an object value (a sub-key given an object) is not modelled: sub-values are strings or nullish.
  - Keys naming document internals (`_id`, `__v`, the timestamps, document methods) are not modelled.
  - An empty string sent for a group key (`contact`, `address`, `appearance`, `socialLinks`) is modelled as leaving the group unchanged. Mongoose's handling of a falsy value assigned to a nested path is not modelled.
- Orders.OrderStore.Create: its precondition that no stored order is newer than `now` (a clock that never runs backwards) is a modelling assumption. It is needed only by the insert the route attempts, which always fails, and the route itself answers 500 whatever the clock says.
- **Store-settings seeding.** Seeding the document at start-up (`config/initStore.js`) is not part of this model: the store starts without a record, and `StoreSettings.Defaults` is the record it would create.
- **Logo presigned URL.** `GET /store-settings/logo/presigned-url` presigns an object-store upload and is left out with the rest of the S3 code.
- **Old logo deletion.** Deleting the old logo from the object store is I/O. The model reports the key it would delete, and the route ignores that call's failures.
- **Low-stock inventory route.** It compares `quantity` with the literal string `"$safeStock"`, and `/inventory/:productId` is registered before it. It is not modelled.
