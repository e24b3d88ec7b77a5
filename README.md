# AGAH Solutions fabrication shop — a Dafny model

AGAH Solutions runs a small shop for plasma cutting, laser engraving and 3D
printing. A customer picks a service in the React front end and fills in the
item form. The item goes into a cart kept in browser state. The customer then
submits the cart for review, and the Django back end stores it as an `Order`
with its `OrderItem`s. Each item is priced from the service's own cost formula
(machine, design and post-processing minutes, material, consumables, a 30 %
margin and 8 % tax). An administrator reviews the estimate, sets a final
price and moves the order through its states. Saving an order can trigger
notification e-mails.

What this project models:

- **Back end, `services` app.**
  - `Pricing` (pricing.dfy): the catalogue entry `TypeService`, the item row and its price formulas and totals.
  - `ServiceModels` (orders.dfy): the `Order` and `OrderItem` classes, whose `save` methods update their fields and the order's stored totals.
  - `Signals` (signals.dfy): the `pre_save` and `post_save` receivers that decide which notification e-mail a save sends.
  - `ServiceAdmin` (admin.dfy): the admin's read-only fields, bulk actions, displays, `save_model` and the base-service seeding.
  - `ServiceViews` (views.dfy): the cart endpoints and the per-customer order list.
  - `OrderSerializers` (serializers.dfy): field validation, the serializer totals and order creation.
- **Back end, the two user apps.**
  - `AuthModels` (auth_models.dfy): the user manager and helpers of `auth`.
  - `UserAuthModels` (user_auth_models.dfy): the same for `user_auth`.
  - `Tokens` (tokens.dfy): the password-reset and e-mail-verification tokens, as state-changing objects.
- **Front end.**
  - `CartContext`: the cart store.
  - `AuthContext`: the session store over `localStorage`.
  - `Toast`: the notification queue.
  - `Api`: the validators and the client-side computations of `api.js`.
  - The pages: `CartPage`, `ServicesPage`, `OrdersPage`, `ContactPage`, `SignUpPage`, `LoginPage`, `ForgotPasswordPage` and `ResetPasswordPage`.
- **Shared helpers.**
  - `Wrappers`: `Option` and `Result`, plus Python/JavaScript truthiness of optional numbers and strings.
  - `Js`: JavaScript values and truthiness.
  - `Strings`: JavaScript's `trim()` and Python's `strip()`, each with its own whitespace set, case mapping, joining, and the e-mail pattern `^[^\s@]+@[^\s@]+\.[^\s@]+$`.
  - `Forms`: the first failing check of an early-return validation chain.

How the model is built:

- **Classes for in-place updates.** Where the source updates an object in place, the model is a class with `modifies` clauses:
  - `Order`, `OrderItem` and `ServiceCatalog`;
  - the tokens;
  - the cart, session, toast list and contact page.
- **Stated against functions.** Each state-changing method is specified by a pure function of the old state. The properties are proved about that function.
- **Validators as data.** Every validator is a list of (failed, message) checks in the source's order. The error it reports is then provably the first failing check.
- **Outside effects as parameters.** Each of these is passed into the model:
  - the clock and fresh identifiers (`Date.now()`, UUIDs);
  - `JSON.parse` and `JSON.stringify`, `parseInt` and `parseFloat`;
  - number formatting;
  - the outcome of every network request.
- **Decimals as reals.** Decimal fields are `real` values.

Where the specification and the code disagree, the model follows the code:

- **`OrderItem.save` never updates the order's estimate.** It writes the total to `order.estimated_price` (models.py:704). The model field is spelled `estimaded_price`, and the model keeps the two apart, so `estimadedPrice` is never updated by item saves (`ServiceModels.OrderItem.Save`).
- **Order creation always fails.** `OrderCreateSerializer.create` calls `order.calculate_estimated_price()`, which `Order` does not define. `OrderSerializers.Create` therefore produces the items and then ends in `Err(CreateError)`.
- **The admin's totals leave out design.** They sum unit price times quantity without the custom-design charge. `ServiceAdmin.AdminTotalsOmitDesign` states the gap exactly.
- **Printing follows the code, not the help text.** The admin help text's printing formula differs from the code, and the code is modelled.
- **Validation is a parameter in views.py.** views.py imports `CartItemSerializer` and `OrderListSerializer`, which serializers.py does not define. The validated request and the serialised list are therefore parameters.

## Model

| member | source | states |
|---|---|---|
| Pricing.DerivedType | backend/services/models.py:98-101 | each character of the name becomes '_' when it is a space or a hyphen and its lower-case form otherwise; so the type keeps the name's length and has no spaces, hyphens or upper-case letters |
| Pricing.SaveTypeService | backend/services/models.py:98-101 | a service with a type keeps it; an empty type is replaced by the one derived from the name, and nothing else changes |
| Pricing.SaveTypeServiceIdempotent | backend/services/models.py:98-101 | saving a service twice is the same as saving it once |
| Pricing.NewItemRow | backend/services/models.py:295-530 | a new item has quantity 1, no estimated or final unit price and no custom design |
| Pricing.NewItemPricesAsUnset | backend/services/models.py:392-526 | the column defaults of a new item price it exactly as if every calculation column were unset, for plasma, laser and printing |
| Pricing.Area | backend/services/models.py:541-544 | the area is length times width when both are set and non-zero, and 0 otherwise |
| Pricing.PlasmaInputs | backend/services/models.py:563-579 | the plasma formula reads its minutes and costs with the defaults 60, 30, 60, 0 and 162.30 when a column is unset or zero |
| Pricing.LaserInputs | backend/services/models.py:582-598 | the laser formula reads its columns with the defaults 30, 10, 10, 0 and 30.00 |
| Pricing.PrintingInputs | backend/services/models.py:601-616 | the printing formula reads its columns with the defaults 60, 30, 0, 60, 350.00 and 30.00 |
| Pricing.PlasmaAllDefaults | backend/services/models.py:563-579 | an item with no plasma columns set is priced at the default plasma price |
| Pricing.LaserAllDefaults | backend/services/models.py:582-598 | an item with no laser columns set is priced at the default laser price |
| Pricing.PrintingAllDefaults | backend/services/models.py:601-616 | an item with no printing columns set is priced at (162 + 57 + 90 + 30) × 1.3 × 1.08 |
| Pricing.ZeroMinutesCountAsUnset | backend/services/models.py:563-616 | a time column of 0 prices the same as an unset one, so the default applies |
| Pricing.CuttingTotalMonotone | backend/services/models.py:563-598 | with non-negative rates, raising any cutting input never lowers the price |
| Pricing.CuttingTotalNonNegative | backend/services/models.py:563-598 | a cutting price is at least its consumables with margin and tax, so it is non-negative |
| Pricing.CuttingMaterialNeedsArea | backend/services/models.py:563-598 | with zero area the material cost does not affect the cutting price |
| Pricing.CuttingDesignMinutesLinear | backend/services/models.py:563-598 | each design minute adds the same amount to the cutting price |
| Pricing.PrintingTotalMonotone | backend/services/models.py:601-616 | raising any non-negative printing input never lowers the printing price |
| Pricing.PrintingTotalNonNegative | backend/services/models.py:601-616 | a printing price is at least its consumables with margin and tax |
| Pricing.ServicePriceDispatch | backend/services/models.py:547-560 | no service gives 0; plasma, laser or engraving, and 3D printing each use their own formula; any other type gives its base price or 0 |
| Pricing.HeightNeverPriced | backend/services/models.py:541-560 | the height dimension never changes a service price |
| Pricing.PlasmaReadsOnlyPlasmaColumns | backend/services/models.py:563-579 | two plasma items that agree on the plasma columns and the dimensions get the same price |
| Pricing.ServicePriceNonNegative | backend/services/models.py:547-616 | with non-negative columns, every service price is non-negative |
| Pricing.DesignChargedOnce | backend/services/models.py:619-640 | changing the quantity changes a total by the unit price times the change, so the design charge is counted once |
| Pricing.DesignChargeOnlyWhenNeeded | backend/services/models.py:619-640 | the design price counts only when custom design is needed and the price is set |
| Pricing.UnsetUnitContributesNothing | backend/services/models.py:631-650 | without a final unit price the final total is the design charge alone, so the difference is 0 unless design is charged |
| Pricing.PriceDifference | backend/services/models.py:643-650 | final minus estimated total when both are positive, and 0 otherwise |
| Pricing.PriceDifferenceSign | backend/services/models.py:643-650 | given a positive estimate, the difference is positive exactly when the final total is higher |
| Pricing.FormattedTotalPrice | backend/services/models.py:653-658 | "$<amount> MXN" for a positive final total, otherwise "Not calculated" |
| Pricing.UnpricedItemNotCalculated | backend/services/models.py:653-658 | an item with no final unit price and no design charge shows "Not calculated" |
| ServiceModels.OrderNumberFrom | backend/services/models.py:271-275 | an order number is the first eight characters of the UUID (all of it when shorter), each in upper case, so it has no lower-case letters |
| ServiceModels.SumsOfConcat | backend/services/models.py:278-291 | the order totals of two item lists joined are the sums of their totals |
| ServiceModels.SumsOfUpdate | backend/services/models.py:278-291 | replacing one item changes each order total by the new item's total minus the old one's |
| ServiceModels.SumsNonNegative | backend/services/models.py:278-291 | items with non-negative totals give non-negative order totals |
| ServiceModels.Order.constructor | backend/services/models.py:171-260 | a new order is 'pending', has no number, prices or items, and has not been stored |
| ServiceModels.Order.Save | backend/services/models.py:271-275 | the number is set once from the UUID, the stored row becomes the current fields, and the e-mail sent is the post-save decision on what the pre-save hook remembered |
| ServiceModels.Order.SavePriceFields | backend/services/models.py:271-275 | saving only the price fields updates just those two stored columns, and runs the signals as an update |
| ServiceModels.Order.RunSignals | backend/services/signals.py:98-140 | the pre-save hook remembers the stored row, and the e-mail follows the post-save decision |
| ServiceModels.Order.GetEstimatedTotalPrice | backend/services/models.py:278-283 | the loop's result is the sum of the items' estimated totals with design |
| ServiceModels.Order.GetFinalTotalPrice | backend/services/models.py:286-291 | the loop's result is the sum of the items' final totals with design |
| ServiceModels.PriceIgnoresUnitPrices | backend/services/models.py:547-616 | a service price does not depend on the item's stored unit prices |
| ServiceModels.EstimateWrittenOnce | backend/services/models.py:661-706 | a set estimate is kept; an unset estimate of an item with a service becomes the calculated price |
| ServiceModels.CreationKeepsFinalPrice | backend/services/models.py:661-706 | saving a new item never writes its final unit price |
| ServiceModels.UpdateRecomputesFinalIff | backend/services/models.py:661-706 | an update recomputes the final unit price exactly when a calculation column of its service type is set |
| ServiceModels.UnknownTypeNeverTriggers | backend/services/models.py:661-706 | for a service type outside the base types, an update never recomputes the final price |
| ServiceModels.DefaultItemsAlwaysTrigger | backend/services/models.py:392-526 | a new item of a base type already carries calculation columns, through the column defaults |
| ServiceModels.PricingTouchesOnlyUnitPrices | backend/services/models.py:661-706 | item pricing changes only the two unit-price columns |
| ServiceModels.PricingIdempotent | backend/services/models.py:661-706 | pricing a row twice is pricing it once |
| ServiceModels.OrderItem.constructor | backend/services/models.py:295-530 | a new item belongs to its order, holds the given row and is unsaved |
| ServiceModels.OrderItem.Save | backend/services/models.py:661-706 | the row is priced; the item is appended (new) or replaced (existing); the order's estimated and final prices become the sums over its items; the stored final price follows; `estimaded_price`, the state, the customer columns and the creation time are unchanged; the number rule of `Order.save` applies; the signals run as an update |
| ServiceModels.Order.PutItem | backend/services/models.py:701 | a new item's row is appended and an existing item's row is written over its place, which is returned |
| ServiceModels.Order.Retotal | backend/services/models.py:703-705 | the order's estimated and final prices become the sums with design over its items |
| ServiceModels.Order.StoreItem | backend/services/models.py:701-706 | the row is stored, the totals assigned and the two price columns saved; the state and customer columns are unchanged and the signals run as an update |
| ServiceModels.ItemSaveShiftsFinalTotal | backend/services/models.py:286-291 | saving an item changes the order's final total by the priced row's total minus the old one's |
| Signals.TrackOrderChanges | backend/services/signals.py:98-110 | the old state and final price are remembered only for a saved order that still has a stored row, and are None otherwise |
| Signals.CreatedOrderSendsNothing | backend/services/signals.py:117-119 | creating an order sends no e-mail |
| Signals.FinalPriceEmailIff | backend/services/signals.py:126-128 | the final-price e-mail is sent exactly when an update sets a truthy final price where none was |
| Signals.CompletionEmailIff | backend/services/signals.py:131-133 | the completion e-mail is sent exactly when an update moves to 'completed' and no final-price e-mail takes precedence |
| Signals.OtherStatesSendNothing | backend/services/signals.py:113-140 | with no new final price and a state other than 'completed', no e-mail is sent |
| Signals.UnchangedSaveSendsNothing | backend/services/signals.py:98-140 | re-saving a stored order without changes sends no e-mail |
| Signals.ZeroFinalPriceCountsAsUnset | backend/services/signals.py:126-128 | a stored final price of 0 counts as unset, so a new non-zero price sends the e-mail |
| ServiceAdmin.GetReadonlyFields | backend/services/admin.py:65-71 | 'order_display' comes first and 'is_base_service' is always read-only; 'type' is read-only exactly for an existing base service, and nothing else is read-only |
| ServiceAdmin.HasAddPermission | backend/services/admin.py:156-157 | a company configuration can be added only when none exists |
| ServiceAdmin.MarkAs | backend/services/admin.py:304-319 | every selected order gets the target state, its number by the rule of `Order.save` and a stored row with both, and its e-mail is the decision on the values stored before; its items, prices, customer columns and creation time are unchanged |
| ServiceAdmin.MarkOne | backend/services/admin.py:306-308 | one order gets the target state and is saved, with the e-mail decided on its previously stored values and nothing else of it changed |
| ServiceAdmin.MarkAsEstimated | backend/services/admin.py:304-310 | every selected order becomes 'estimated' and is stored so, with its items, prices and customer columns unchanged, and no completion e-mail is sent |
| ServiceAdmin.MarkAsCompleted | backend/services/admin.py:313-319 | every selected order becomes 'completed' and is stored so, with its items, prices and customer columns unchanged; a completion e-mail goes to each order that was not already completed and gets no final-price e-mail |
| ServiceAdmin.TotalPriceDisplay | backend/services/admin.py:498-529 | a total is shown exactly when the final unit price is set and the quantity is non-zero |
| ServiceAdmin.TotalPriceDisplayMatchesModel | backend/services/admin.py:498-529 | the displayed total equals the model's final total with design |
| ServiceAdmin.EstimatedTotalDisplay | backend/services/admin.py:533-563 | an estimate is shown when the quantity is non-zero and either unit price is set; it falls back to the final price exactly when the estimate is unset |
| ServiceAdmin.EstimatedTotalDisplayMatchesModel | backend/services/admin.py:533-563 | the displayed estimate is the model's estimated total with design, or its final total when it falls back to the final price |
| ServiceAdmin.PriceComparison | backend/services/admin.py:565-595 | there is no comparison exactly when either total is not positive |
| ServiceAdmin.PriceComparisonMatchesDifference | backend/services/admin.py:565-595 | 'higher' and 'lower' hold exactly when the model's price difference is at least one cent either way; 'higher' carries the difference and 'lower' its magnitude, and both carry the signed percentage of the estimate |
| ServiceAdmin.AdminTotalsOmitDesign | backend/services/admin.py:597-636 | the model's order totals equal the admin's totals plus the items' design charges |
| ServiceAdmin.AdminOrderTotals | backend/services/admin.py:597-636 | the admin's loop sums unit price times quantity over the items |
| ServiceAdmin.AdminSaveStoredPrices | backend/services/admin.py:597-636 | after the admin pricing and the item save, the final unit price is the calculated price, and the estimate is kept or filled as the source decides |
| ServiceAdmin.SaveModel | backend/services/admin.py:597-636 | the item is priced and saved; the order's estimate becomes the admin estimated total; its final price becomes the admin final total when that is positive, and otherwise stays the with-design sum the item save wrote; the full row is stored; state, customer columns and creation time are unchanged and the number rule applies; the first e-mail is the item save's decision and the second the order save's, on the values the item save stored |
| ServiceAdmin.SaveAdminTotals | backend/services/admin.py:620-636 | the estimate becomes the admin estimated total, the final price the admin final total only when positive, the whole row is stored and the update e-mail is decided on the row stored before |
| ServiceAdmin.ServiceCatalog.constructor | backend/services/admin.py:642-686 | the catalogue starts with the given services and next id |
| ServiceAdmin.ServiceCatalog.GetOrCreate | backend/services/admin.py:642-686 | a new service is appended exactly when none of that type exists; otherwise an existing one of that type is returned and nothing changes |
| ServiceAdmin.ServiceCatalog.CreateBaseServices | backend/services/admin.py:642-686 | the catalogue becomes the seeding of the five base services over the old catalogue |
| ServiceAdmin.BaseServiceData | backend/services/admin.py:642-686 | the five base types in the source's order, each marked as base, with display order 1 to 5 |
| ServiceAdmin.SeedAllExtends | backend/services/admin.py:642-686 | seeding only appends to the catalogue |
| ServiceAdmin.SeedAllCovers | backend/services/admin.py:642-686 | after seeding, every seeded type is present |
| ServiceAdmin.SeedAllNoop | backend/services/admin.py:642-686 | seeding a catalogue that has every type changes nothing |
| ServiceAdmin.SeedTwice | backend/services/admin.py:642-686 | seeding twice is seeding once |
| ServiceAdmin.CreateBaseServicesIdempotent | backend/services/admin.py:642-686 | running the base-service action twice is running it once |
| ServiceAdmin.SeedFresh | backend/services/admin.py:642-686 | seeding distinct, absent types appends exactly those services with consecutive ids |
| ServiceAdmin.SeedEmptyCatalog | backend/services/admin.py:642-686 | seeding an empty catalogue gives exactly the five base services, with consecutive ids |
| ServiceViews.FindActiveService | backend/services/views.py:180-237 | the service found is in the catalogue, active and has the id; none found means no active one has it |
| ServiceViews.TempItem | backend/services/views.py:180-237 | the temporary item carries the service and quantity and no stored prices |
| ServiceViews.AddItemToCart | backend/services/views.py:180-237 | a validation failure is a 400; an unknown or inactive service is a 404; otherwise the reply carries the calculated price of a temporary item |
| ServiceViews.EntryContribution | backend/services/views.py:249-276 | a non-object entry, or a `null` quantity for an active service, raises an uncaught `TypeError`; an entry with no `service_id` or no active service is skipped; otherwise the quantity is the given one or 1 |
| ServiceViews.CalculateCartTotal | backend/services/views.py:242-288 | the response is a server error exactly when the cart totals crash; otherwise its totals are the cart totals over the entries, with the tax breakdown of the total |
| ServiceViews.BreakdownOf | backend/services/views.py:242-288 | subtotal plus tax is the total, and the subtotal is the total before the 8 % tax |
| ServiceViews.CartTotalsConcat | backend/services/views.py:242-288 | two entry lists joined crash exactly when either crashes, and otherwise their totals are the sums of the two |
| ServiceViews.CrashedStaysCrashed | backend/services/views.py:249-276 | once an entry raises, no later entry brings the request back |
| ServiceViews.CrashedIff | backend/services/views.py:249-276 | the request crashes exactly when some entry raises |
| ServiceViews.NullQuantityCrashes | backend/services/views.py:252-266 | an explicit `null` quantity for an active service crashes the request wherever it sits |
| ServiceViews.SkippedEntryAddsNothing | backend/services/views.py:242-288 | an entry without a `service_id` or whose service is missing or inactive changes neither total nor the outcome |
| ServiceViews.MissingQuantityCountsOne | backend/services/views.py:252 | an entry without a quantity counts as one item |
| ServiceViews.WithEmail | backend/services/views.py:97-105 | exactly the orders with the customer's e-mail are kept |
| ServiceViews.InsertNewestFirst | backend/services/views.py:97-105 | inserting adds the order exactly once and keeps every other order; the head is the new order or the old head |
| ServiceViews.InsertKeepsNewestFirst | backend/services/views.py:97-105 | inserting into a newest-first list keeps it newest first |
| ServiceViews.SortNewestFirst | backend/services/views.py:97-105 | the sorted list is newest first and a permutation of the input |
| ServiceViews.OrderListByCustomer | backend/services/views.py:97-105 | without an e-mail the list is empty; otherwise it is the customer's orders, newest first |
| ServiceViews.CustomerListMembership | backend/services/views.py:97-105 | an order is listed exactly when it belongs to the customer |
| OrderSerializers.ValidateMessage | backend/services/serializers.py:247-253 | accepted exactly when the message stripped of Python whitespace has at least 10 characters, and the stripped text is kept; otherwise the source's error |
| OrderSerializers.ValidateName | backend/services/serializers.py:255-260 | accepted exactly when the name stripped of Python whitespace has at least 2 characters, and the stripped text is kept; otherwise the source's error |
| OrderSerializers.ValidatedMessageIsStable | backend/services/serializers.py:247-253 | validating an accepted message again gives the same result |
| OrderSerializers.ValidatedNameIsStable | backend/services/serializers.py:255-260 | validating an accepted name again gives the same result |
| OrderSerializers.ValidateItems | backend/services/serializers.py:315-319 | items are accepted exactly when there is at least one, and are kept |
| OrderSerializers.Validate | backend/services/serializers.py:321-331 | an order is accepted exactly when name, e-mail and phone are all non-empty |
| OrderSerializers.ValidateReportsFirstMissing | backend/services/serializers.py:321-331 | the error names the first missing field, in the order name, e-mail, phone |
| OrderSerializers.GetTotalItems | backend/services/serializers.py:178-180 | the item count is the number of items |
| OrderSerializers.SerializerTotalsMatchOrder | backend/services/serializers.py:182-188 | the serializer's totals equal the order's totals |
| OrderSerializers.ItemFromDatum | backend/services/serializers.py:265-280 | a created item carries its service and quantity with no prices set |
| OrderSerializers.CreatedItemPrices | backend/services/serializers.py:298-313 | a created item is estimated at its calculated price and has no final price, so its final total is 0 |
| OrderSerializers.UnpricedItemsTotalZero | backend/services/serializers.py:298-313 | items with no final or design price give a final total of 0 |
| OrderSerializers.CreateItems | backend/services/serializers.py:298-313 | one priced item per datum, in order; the order's number, state and estimate are unchanged |
| OrderSerializers.CreatedOrderFinalTotalZero | backend/services/serializers.py:298-313 | an order made only of created items has a final total of 0 |
| OrderSerializers.Create | backend/services/serializers.py:298-313 | a pending order is stored with its number and its priced items, and creation then fails on the undefined estimate method |
| AuthModels.NormalizeEmail | backend/auth/models.py:19-44 | an address whose Python strip has no '@' is returned as given |
| AuthModels.NormalizeEmailLowersDomain | backend/auth/models.py:19-44 | for an address with no Python whitespace at either end, the part after the last '@' is lower-cased and the rest is kept |
| AuthModels.CreateUser | backend/auth/models.py:19-44 | a missing or empty e-mail is rejected with the source's message; otherwise the normalised e-mail is also the username, the names default to '', the type to 'customer', staff and superuser to false, active to true and verified to false, and every given extra field is kept |
| AuthModels.NewUserDefaults | backend/auth/models.py:19-44 | a user created without extra fields is an active, unverified customer without names or staff rights |
| AuthModels.CreateSuperuser | backend/auth/models.py:46-63 | an explicit false for staff is rejected first, then one for superuser; otherwise the result is `create_user` with the type defaulting to 'admin', both flags true, and active and verified defaulting to true |
| AuthModels.SuperuserDefaults | backend/auth/models.py:46-63 | a default superuser is a verified, active admin with staff and superuser rights, an administrator and not a customer |
| AuthModels.SuperuserNeedsEmail | backend/auth/models.py:46-63 | a superuser without an e-mail is rejected with the e-mail message |
| AuthModels.FullNameBoth | backend/auth/models.py:152-157 | with both names given, the full name is "first last" |
| AuthModels.FullNameFirstOnly | backend/auth/models.py:152-157 | with only the first name, the full name is that name, without the trailing space |
| AuthModels.FullNameLastOnly | backend/auth/models.py:152-157 | with only the last name, the full name is that name, without the leading space |
| AuthModels.IsCustomer | backend/auth/models.py:159-164 | true exactly for the 'customer' user type |
| AuthModels.IsAdminUser | backend/auth/models.py:166-171 | true exactly for the 'admin' type or a superuser |
| AuthModels.CustomerAdminOnlyAsSuperuser | backend/auth/models.py:159-171 | a customer is an administrator only as a superuser |
| UserAuthModels.CreateUser | backend/user_auth/models.py:19-44 | a missing or empty e-mail is rejected; otherwise the normalised e-mail is also the username, the names default to '', the type to 'customer', staff and superuser to false and active to true, and every given extra field is kept |
| UserAuthModels.CreateSuperuser | backend/user_auth/models.py:46-62 | explicit false staff or superuser flags are rejected in that order; otherwise the user is created with both flags |
| UserAuthModels.SuperuserDefaults | backend/user_auth/models.py:46-62 | a default superuser is staff, superuser and active |
| UserAuthModels.GetFullName | backend/user_auth/models.py:144-154 | "first last" with both; the first name alone without a last name; the e-mail without a first name |
| UserAuthModels.GetDisplayName | backend/user_auth/models.py:156-161 | the first name when there is one, otherwise the e-mail |
| UserAuthModels.DisplayNameIsFullNamePrefix | backend/user_auth/models.py:144-161 | the display name is a prefix of the full name, and equal to it exactly when a name is missing |
| UserAuthModels.NamelessUserShowsEmail | backend/user_auth/models.py:19-44 | a user created without a first name is displayed by e-mail |
| Tokens.Validity | backend/auth/models.py:231-237 | a used token is invalid; an unused token without an expiry is an error; otherwise it is valid exactly before its expiry |
| Tokens.Saved | backend/auth/models.py:247-255 | saving sets the expiry to now plus the lifetime if it was unset, and keeps it otherwise |
| Tokens.MarkedUsed | backend/auth/models.py:239-245 | marking a token used sets the flag and, through the save, an expiry |
| Tokens.UsedStaysInvalid | backend/auth/models.py:231-255 | once used, a token stays used and invalid after any sequence of saves and marks |
| Tokens.ExpiryFixedOnceSet | backend/auth/models.py:247-255 | once set, the expiry never changes |
| Tokens.MarkUsedIdempotent | backend/auth/models.py:239-245 | marking a token used twice is marking it once |
| Tokens.FreshTokenValidForLifetime | backend/auth/models.py:231-255 | a fresh token saved at a time is valid exactly before that time plus the lifetime |
| Tokens.Token.constructor | backend/auth/models.py:315-339 | a new token is unused and has no expiry |
| Tokens.Token.IsValid | backend/auth/models.py:231-237 | valid exactly when unused and before a set expiry |
| Tokens.Token.Save | backend/auth/models.py:247-255 | the token's state becomes the saved state |
| Tokens.Token.MarkAsUsed | backend/auth/models.py:239-245 | the token is used and no longer valid |
| CartContext.FindLine | frontend/src/context/CartContext.jsx:37-61 | the index found holds a line for the same service and options, and no earlier one does; none means no line matches |
| CartContext.AddedShape | frontend/src/context/CartContext.jsx:37-61 | adding raises the quantity of the matching line, or appends the item with the fresh id |
| CartContext.AddRaisesItemCount | frontend/src/context/CartContext.jsx:37-61 | adding raises the item count by the added quantity |
| CartContext.WithoutKeepsOthers | frontend/src/context/CartContext.jsx:64-68 | removal keeps exactly the lines with another id |
| CartContext.WithoutConcat | frontend/src/context/CartContext.jsx:64-68 | removal works line by line |
| CartContext.WithQuantity | frontend/src/context/CartContext.jsx:71-84 | only the line with the id gets the new quantity |
| CartContext.UpdateQuantityShape | frontend/src/context/CartContext.jsx:71-84 | a quantity of 0 or less removes the line; a positive one sets it and keeps the length |
| CartContext.FoldsConcat | frontend/src/context/CartContext.jsx:93-105 | the total and the item count of two carts joined are the sums |
| CartContext.ItemCountUpdate | frontend/src/context/CartContext.jsx:71-105 | setting one line's quantity changes the count by the difference |
| CartContext.Cart.constructor | frontend/src/context/CartContext.jsx:37-105 | the cart starts empty |
| CartContext.Cart.AddToCart | frontend/src/context/CartContext.jsx:37-61 | the cart becomes the added cart, and its item count rises by the quantity |
| CartContext.Cart.RemoveFromCart | frontend/src/context/CartContext.jsx:64-68 | the cart loses exactly the line with the id |
| CartContext.Cart.UpdateQuantity | frontend/src/context/CartContext.jsx:71-84 | the cart becomes the updated cart |
| CartContext.Cart.ClearCart | frontend/src/context/CartContext.jsx:87-90 | the cart becomes empty |
| Api.HandleError | frontend/src/services/api.js:55-66 | the server's error text wins; otherwise the message is a candidate or the default, and it is non-empty when the default is |
| Api.HandleErrorPrefersFirst | frontend/src/services/api.js:55-66 | the first candidate message is chosen, or the default when there is none |
| Api.ActiveServices | frontend/src/services/api.js:132-149 | exactly the active services are kept |
| Api.ServicesByType | frontend/src/services/api.js:132-149 | exactly the services of the type are kept |
| Api.ActiveServicesIdempotent | frontend/src/services/api.js:132-149 | filtering twice is filtering once |
| Api.ActiveServicesConcat | frontend/src/services/api.js:132-149 | the filter works element by element |
| Api.MessagesEmptyIff | frontend/src/services/api.js:243-285 | there are no messages exactly when every check passes |
| Api.MessagesMember | frontend/src/services/api.js:243-285 | a message is reported exactly when a failing check carries it |
| Api.Verdict | frontend/src/services/api.js:243-285 | accepted exactly when there are no errors; otherwise the errors joined by ", " |
| Api.ValidateContactForm | frontend/src/services/api.js:243-285 | the verdict over the contact checks |
| Api.ContactFormAcceptedIff | frontend/src/services/api.js:243-285 | accepted exactly when the name (at most 100 characters) and the subject (at most 200) are filled, the e-mail matches the pattern and the message trims to at least 10 characters |
| Api.ContactChecksPassIff | frontend/src/services/api.js:243-285 | the checks all pass exactly under the same conditions |
| Api.ContactEmailErrorLast | frontend/src/services/api.js:275-279 | a filled but malformed e-mail adds the e-mail error last |
| Api.ValidateCartItem | frontend/src/services/api.js:351-379 | the verdict over the cart-item checks |
| Api.CartItemAcceptedIff | frontend/src/services/api.js:351-379 | accepted exactly when the service is set, the quantity is 1 to 100, the description is filled and a needed design has a price |
| Api.AddItemToCart | frontend/src/services/api.js:297-312 | the item is accepted unchanged exactly when it validates; otherwise the validation error is returned |
| Api.CalculateCartTotal | frontend/src/services/api.js:315-348 | the loop's subtotal and design total are the sums over the cart; the total is their sum and the count is the number of lines |
| Api.CartSumsConcat | frontend/src/services/api.js:315-348 | both sums work line by line |
| Api.CartTotalsNonNegative | frontend/src/services/api.js:315-348 | non-negative prices give non-negative totals |
| Api.ValidateOrderData | frontend/src/services/api.js:571-591 | the verdict over the order checks |
| Api.OrderDataAcceptedIff | frontend/src/services/api.js:571-591 | accepted exactly when the phone is filled and there are 1 to 50 items |
| Api.CountStatus | frontend/src/services/api.js:613-621 | a status count never exceeds the number of orders |
| Api.CountStatusIff | frontend/src/services/api.js:613-621 | a count is zero exactly when no order has the status, and is the number of orders exactly when every order has it |
| Api.GetOrderStatistics | frontend/src/services/api.js:600-633 | a failed request is passed through; otherwise the total is the number of orders |
| Api.StatusCountsPartition | frontend/src/services/api.js:613-621 | the per-status counts add up to at most the total, and to the total exactly when every order has a counted status |
| Api.EnglishStatusesUncounted | frontend/src/services/api.js:613-621 | orders whose states are the back end's English states are counted in no status |
| CartPage.CustomerName | frontend/src/pages/Cart.jsx:74-76 | "first last" when both names are filled, otherwise the username |
| CartPage.Dimension | frontend/src/pages/Cart.jsx:82-99 | a dimension is sent exactly when it is truthy |
| CartPage.Serialize | frontend/src/pages/Cart.jsx:82-99 | the quantity is never 0 and a non-zero quantity is kept; the description is trimmed; the design-file flag is set exactly when a file is attached |
| CartPage.SerializeAll | frontend/src/pages/Cart.jsx:82-99 | the lines are serialised one by one, in order |
| CartPage.CustomerEntries | frontend/src/pages/Cart.jsx:73-79 | the form opens with the four customer fields: the name, the e-mail, the trimmed phone and the notes |
| CartPage.BuildFormData | frontend/src/pages/Cart.jsx:71-102 | the entries are the customer fields, then one file entry per attached design in cart order, then the JSON of every serialised line |
| CartPage.HandleSubmitForReview | frontend/src/pages/Cart.jsx:49-102 | no user asks for login; a blank phone asks for the phone; an empty cart is refused; otherwise the form data is posted |
| CartPage.FileEntriesOfLines | frontend/src/pages/Cart.jsx:82-99 | each attached design has its own keyed file entry, and every file entry comes from a line |
| CartPage.CartAfterSubmit | frontend/src/pages/Cart.jsx:131-133 | the cart is cleared exactly when the reply succeeds, and is otherwise unchanged |
| CartPage.LinePrice | frontend/src/pages/Cart.jsx:258 | an unset price shows 0; a set one shows unit price times quantity |
| CartPage.LinePricesSumToTotal | frontend/src/pages/Cart.jsx:258 | with every price set, the line prices add up to the cart total |
| ServicesPage.OpenModal | frontend/src/pages/Services.jsx:74-92 | opening selects the service, shows the modal and resets the item form (quantity 1, everything else empty) and the order form |
| ServicesPage.OpenModalForgets | frontend/src/pages/Services.jsx:74-92 | the opened modal does not depend on the previous state |
| ServicesPage.ItemInputChange | frontend/src/pages/Services.jsx:101-115 | only the changed key is replaced: by the first file, the checkbox state or the text |
| ServicesPage.DimensionOf | frontend/src/pages/Services.jsx:127-168 | a dimension is absent exactly when its field is falsy |
| ServicesPage.HandleAddToCart | frontend/src/pages/Services.jsx:127-168 | not signed in, no phone and no description are refused in that order; otherwise a line for the service is added with its name and type, the form's quantity, dimensions, description, custom-design flag and design file, the order's notes, and the base price as its estimate |
| ServicesPage.FreshFormAddsOneUnit | frontend/src/pages/Services.jsx:74-168 | a freshly opened form asks for the phone; once a phone and a description are typed in, it adds one unit with no dimensions and no file |
| OrdersPage.NormalizedStatus | frontend/src/pages/Orders.jsx:162-167 | the first non-empty of `status`, `state`, `order_status` and the current status is lower-cased and trimmed; an order with none of them has no status |
| OrdersPage.MappingsAgree | frontend/src/pages/Orders.jsx:162-313 | progress, text and colour are all fixed by one stage of the order |
| OrdersPage.ProgressByStage | frontend/src/pages/Orders.jsx:162-210 | the progress table is the stage's percentage |
| OrdersPage.TextByStage | frontend/src/pages/Orders.jsx:214-262 | the text table is the stage's text |
| OrdersPage.ColorByStage | frontend/src/pages/Orders.jsx:265-313 | the colour table is the stage's colour |
| OrdersPage.ProgressValues | frontend/src/pages/Orders.jsx:162-210 | progress is one of 0, 25, 50, 60, 75 and 100, and rises through the first three stages |
| OrdersPage.UnknownStatusDefaults | frontend/src/pages/Orders.jsx:207-310 | an unknown status shows 25 %, "First Estimate" and amber |
| OrdersPage.ConfirmadoShowsInProgress | frontend/src/pages/Orders.jsx:162-262 | 'confirmado' shows 75 % and "In Progress" |
| OrdersPage.ConfirmedShowsConfirmed | frontend/src/pages/Orders.jsx:162-262 | 'confirmed' shows 60 % and "Confirmed" |
| OrdersPage.PlainStatusNormalizes | frontend/src/pages/Orders.jsx:164-167 | a lower-case status stays as it is |
| OrdersPage.Toggle | frontend/src/pages/Orders.jsx:316-318 | toggling the expanded order collapses it; toggling another expands it |
| OrdersPage.ToggleTwice | frontend/src/pages/Orders.jsx:316-318 | toggling twice leaves the order expanded exactly when it was expanded before |
| OrdersPage.FormatCurrency | frontend/src/pages/Orders.jsx:332-335 | a falsy amount shows "To be quoted"; otherwise "$<amount> MXN" |
| Toast.Appended | frontend/src/components/common/Toast.jsx:72-93 | the new toast is last, and at most the five newest are kept |
| Toast.AppendedKeepsNewest | frontend/src/components/common/Toast.jsx:72-93 | the toasts kept are the newest of the old ones followed by the new one |
| Toast.AppendedBounded | frontend/src/components/common/Toast.jsx:72-93 | after any sequence of additions at most five toasts remain |
| Toast.MarkRemoving | frontend/src/components/common/Toast.jsx:95-116 | the first phase of removal flags only the toasts with the id |
| Toast.MarkRemovingIdempotent | frontend/src/components/common/Toast.jsx:95-116 | flagging twice is flagging once |
| Toast.Dropped | frontend/src/components/common/Toast.jsx:95-116 | the second phase keeps exactly the toasts with another id |
| Toast.RemoveBothPhases | frontend/src/components/common/Toast.jsx:95-116 | the two phases together remove exactly the toasts with the id |
| Toast.OutcomeToast | frontend/src/components/common/Toast.jsx:125-147 | a settled promise shows a success or error toast with the given text or the default, for 4 seconds |
| Toast.SettledPromiseLeavesOutcome | frontend/src/components/common/Toast.jsx:125-147 | after a promise settles and the loading toast's exit timer fires, the outcome toast is the last (newest) toast and no toast has the loading id |
| Toast.HandleRemove | frontend/src/components/common/Toast.jsx:212 | removal is started exactly when it is not already under way |
| Toast.DurationOr | frontend/src/components/common/Toast.jsx:119-122 | a missing duration becomes 4000 ms |
| Toast.ToastList.constructor | frontend/src/components/common/Toast.jsx:72-147 | the list starts empty |
| Toast.ToastList.AddToast | frontend/src/components/common/Toast.jsx:72-93 | the new toast is appended under the five-toast bound, and its id is returned |
| Toast.ToastList.Notify | frontend/src/components/common/Toast.jsx:119-122 | a success, error, info or warning toast with the given or default duration is added |
| Toast.ToastList.StartRemoval | frontend/src/components/common/Toast.jsx:95-116 | the removal's first phase is applied |
| Toast.ToastList.FinishRemoval | frontend/src/components/common/Toast.jsx:95-116 | the removal's second phase is applied |
| Toast.ToastList.PromiseStart | frontend/src/components/common/Toast.jsx:125-147 | a loading toast without a timeout is added, with the given or default text |
| Toast.ToastList.PushOutcome | frontend/src/components/common/Toast.jsx:125-147 | the outcome toast is appended |
| Toast.ToastList.PromiseSettle | frontend/src/components/common/Toast.jsx:125-147 | the loading toast starts leaving, the outcome toast is appended, and the promise's own result is passed through |
| AuthContext.Checked | frontend/src/context/AuthContext.jsx:31-60 | signed in exactly when both keys hold text and the user record parses; a parsed object becomes the user and a parsed `null` leaves no user; when not signed in there is no user; a record that fails to parse is removed together with the token, and in every other case storage is unchanged |
| AuthContext.LoggedIn | frontend/src/context/AuthContext.jsx:63-75 | logging in stores the token and the serialised user and signs in |
| AuthContext.Merged | frontend/src/context/AuthContext.jsx:93-101 | the update overrides the user's fields and the rest are kept |
| AuthContext.HasRole | frontend/src/context/AuthContext.jsx:109-112 | true exactly when there is a user whose `user_type` or `role` is the role |
| AuthContext.IsAdmin | frontend/src/context/AuthContext.jsx:115-117 | true exactly when the user's `user_type` or `role` is the string 'admin' or 'staff' |
| AuthContext.StaffIsAdmin | frontend/src/context/AuthContext.jsx:115-117 | a staff user is an administrator |
| AuthContext.DisplayName | frontend/src/context/AuthContext.jsx:120-136 | 'Usuario' without a user; otherwise first and last name, the first name, the username, the e-mail, then 'Usuario' |
| AuthContext.DisplayNameShown | frontend/src/context/AuthContext.jsx:120-136 | the name shown is never empty |
| AuthContext.LoginThenCheck | frontend/src/context/AuthContext.jsx:31-75 | a check after login restores the same signed-in user |
| AuthContext.LogoutThenCheck | frontend/src/context/AuthContext.jsx:31-90 | a check after logout finds no one signed in |
| AuthContext.CheckIdempotent | frontend/src/context/AuthContext.jsx:31-60 | checking twice is checking once |
| AuthContext.MergeIdempotent | frontend/src/context/AuthContext.jsx:93-101 | applying the same update twice is applying it once |
| AuthContext.Session.constructor | frontend/src/context/AuthContext.jsx:31-60 | a new session has nobody signed in and the check pending, over the given storage |
| AuthContext.Session.CheckAuthStatus | frontend/src/context/AuthContext.jsx:31-60 | the session takes the checked state (signed in exactly when both keys hold text and the record parses; an unparseable record is removed with the token, other storage unchanged) and stops loading |
| AuthContext.Session.Login | frontend/src/context/AuthContext.jsx:19-75 | the session is what the re-check run by its `auth-change` event makes of the written storage, and is not loading; when the record round-trips it is the logged-in state |
| AuthContext.Session.Logout | frontend/src/context/AuthContext.jsx:78-90 | both keys are removed, the session is signed out and not loading, and it is what the re-check of its `auth-change` event makes of the cleared storage |
| AuthContext.Session.UpdateUserInfo | frontend/src/context/AuthContext.jsx:93-101 | the user becomes the merged user and is stored; the signed-in flag is unchanged |
| AuthContext.Session.GetAuthToken | frontend/src/context/AuthContext.jsx:104-106 | the stored token, if any |
| ContactPage.EmptyForm | frontend/src/pages/Contact.jsx:20-26 | the form has its five fields, all empty |
| ContactPage.EmailError | frontend/src/pages/Contact.jsx:81-87 | a blank e-mail is required; otherwise it is invalid exactly when it does not match the pattern |
| ContactPage.MessageError | frontend/src/pages/Contact.jsx:96-102 | a blank message is required; otherwise it is too short exactly when its trim is under 10 characters |
| ContactPage.Required | frontend/src/pages/Contact.jsx:75-93 | a blank field is required |
| ContactPage.FieldError | frontend/src/pages/Contact.jsx:71-107 | each field's error; the phone has none |
| ContactPage.FormErrors | frontend/src/pages/Contact.jsx:71-107 | the errors hold exactly the fields whose check fails, with their messages |
| ContactPage.FormAcceptedIff | frontend/src/pages/Contact.jsx:71-107 | the form is accepted exactly when name and subject are filled, the e-mail matches and the message is long enough |
| ContactPage.EmptyFormRejected | frontend/src/pages/Contact.jsx:20-107 | the empty form is rejected |
| ContactPage.Page.constructor | frontend/src/pages/Contact.jsx:20-26 | the page starts with the empty form, no errors and no status |
| ContactPage.Page.HandleInputChange | frontend/src/pages/Contact.jsx:54-68 | only that field changes, and its error is cleared when one is shown |
| ContactPage.Page.ValidateForm | frontend/src/pages/Contact.jsx:71-107 | the errors become the form's errors, and the result says whether there are none |
| ContactPage.Page.HandleSubmit | frontend/src/pages/Contact.jsx:110-148 | a valid form sent successfully resets the form and shows success; a failure shows an error |
| Forms.FirstFailure | frontend/src/pages/SignUp.jsx:42-76 | nothing is reported exactly when every check passes; what is reported is a failing check's message |
| Forms.FirstFailureAt | frontend/src/pages/SignUp.jsx:42-76 | a failing check after only passing ones is the one reported |
| SignUpPage.SignUpChecks | frontend/src/pages/SignUp.jsx:42-76 | the eight checks in the source's order, with its messages |
| SignUpPage.ValidateSignUp | frontend/src/pages/SignUp.jsx:42-76 | the first failing check's message |
| SignUpPage.SignUpAcceptedIff | frontend/src/pages/SignUp.jsx:42-76 | accepted exactly when the names and e-mail are filled, the e-mail has '@', the password has six characters and the confirmation matches |
| SignUpPage.AcceptedPassword | frontend/src/pages/SignUp.jsx:42-76 | an accepted password has at least six characters and is confirmed |
| SignUpPage.MissingAtReportedFirst | frontend/src/pages/SignUp.jsx:51-57 | with the names and e-mail filled, a missing '@' is reported first |
| SignUpPage.Payload | frontend/src/pages/SignUp.jsx:89-96 | the names are trimmed, the e-mail is trimmed and lower-cased, and a blank phone is sent as null |
| SignUpPage.PayloadEmailNormalised | frontend/src/pages/SignUp.jsx:89-96 | the e-mail sent has no upper-case letters and no surrounding whitespace |
| LoginPage.InputChanged | frontend/src/pages/Login.jsx:24-32 | only the field changes, and the error is cleared |
| LoginPage.LoginChecks | frontend/src/pages/Login.jsx:34-48 | the three checks in the source's order |
| LoginPage.ValidateLogin | frontend/src/pages/Login.jsx:34-48 | the first failing check's message |
| LoginPage.LoginAcceptedIff | frontend/src/pages/Login.jsx:34-48 | accepted exactly when the e-mail is filled and the password has at least six characters |
| LoginPage.BlankEmailReportedFirst | frontend/src/pages/Login.jsx:34-48 | a blank e-mail is reported first |
| LoginPage.ShortPasswordReported | frontend/src/pages/Login.jsx:34-48 | with an e-mail, a short password is reported |
| ForgotPasswordPage.ValidateEmail | frontend/src/pages/ForgotPassword.jsx:22-25 | true exactly when the e-mail matches the pattern |
| ForgotPasswordPage.SubmitError | frontend/src/pages/ForgotPassword.jsx:27-38 | an empty e-mail is required; otherwise a malformed one is invalid; otherwise there is no error |
| ForgotPasswordPage.RequestSentIff | frontend/src/pages/ForgotPassword.jsx:27-38 | the request is sent exactly when the e-mail matches the pattern |
| ForgotPasswordPage.InputChanged | frontend/src/pages/ForgotPassword.jsx:17-20 | the e-mail changes and the error is cleared |
| ResetPasswordPage.ResetChecks | frontend/src/pages/ResetPassword.jsx:37-90 | the seven checks in the source's order |
| ResetPasswordPage.ValidateReset | frontend/src/pages/ResetPassword.jsx:37-90 | the first failing check's message |
| ResetPasswordPage.ResetAcceptedIff | frontend/src/pages/ResetPassword.jsx:37-90 | accepted exactly when all three fields are filled, the new password matches and has eight characters with an upper-case letter, a lower-case letter and a digit |
| ResetPasswordPage.NoSpecialCharacterNeeded | frontend/src/pages/ResetPassword.jsx:37-90 | a password without a special character is accepted |
| ResetPasswordPage.MismatchBeforeStrength | frontend/src/pages/ResetPassword.jsx:37-90 | a mismatch is reported before any strength check |
| ResetPasswordPage.Payload | frontend/src/pages/ResetPassword.jsx:112-116 | the request carries the three passwords |
| ResetPasswordPage.Submit | frontend/src/pages/ResetPassword.jsx:99-116 | a validation error, no session, or the request, in that order; a rejection shows the first failing check's message |
| ResetPasswordPage.SentPasswordIsStrong | frontend/src/pages/ResetPassword.jsx:37-116 | a sent password meets every strength rule and matches its confirmation |
| ResetPasswordPage.AfterResponse | frontend/src/pages/ResetPassword.jsx:124-129 | the form is cleared exactly on success |
| ResetPasswordPage.ClearedFormRejected | frontend/src/pages/ResetPassword.jsx:124-129 | a cleared form does not validate |
| Strings.TrimEmptyIff | frontend/src/pages/Contact.jsx:75-99 | a trim is empty exactly when the text is all whitespace |
| Strings.TrimIdempotent | frontend/src/pages/SignUp.jsx:89-96 | trimming twice is trimming once |
| Strings.StripEmptyIff | backend/services/serializers.py:247-260 | a Python strip is empty exactly when every character is Python whitespace |
| Strings.StripIdempotent | backend/services/serializers.py:247-260 | stripping twice is stripping once |
| Strings.SeparatorStrippedNotTrimmed | backend/services/serializers.py:248 | U+001C is whitespace to Python's strip but not to JavaScript's trim |
| Strings.ByteOrderMarkTrimmedNotStripped | backend/services/serializers.py:248 | U+FEFF is whitespace to JavaScript's trim but not to Python's strip |
| OrderSerializers.SeparatorDoesNotCount | backend/services/serializers.py:247-253 | a message of a U+001C separator and nine digits is rejected, since the separator is stripped |
| Strings.LowerIdempotent | frontend/src/pages/SignUp.jsx:89-96 | lower-casing twice is lower-casing once and leaves no A-Z |
| Strings.EmailShapeIffRegex | frontend/src/pages/Contact.jsx:84 | the explicit e-mail check accepts exactly the strings the pattern matches |

## Left out

- Sending e-mail, rendering templates and console logging (signals.py:13-50 and the `print` calls): these are I/O. The model returns which e-mail would be sent.
- The ORM and the database are modelled as objects and sequences, with no queries, transactions or concurrency. `Order.objects.get` in the pre-save hook is a stored-row parameter, and a missing row is `None`.
- Decimal quantisation and floats: prices are exact reals, so rounding to two places is not modelled.
- Parse failures and NaN: `parseInt`, `parseFloat`, `JSON.parse` and `JSON.stringify` are total parameters. The JSON parse is modelled as failure, `null` or an object; other JSON primitives are not modelled.
- Values that DRF delivers as strings rather than numbers are not modelled.
- `localStorage` exceptions outside the parse are not modelled.
- Cart persistence to `localStorage` is not modelled.
- A React StrictMode double run of the `addToCart` updater, which could mutate a shared line object twice, is not modelled. Updates are applied once to values.
- Case mapping beyond ASCII and upper-case Latin-1 is not modelled.
- String lengths count characters, not UTF-16 code units.
- Password hashing is left out: passwords are opaque strings.
- Timers (`setTimeout` in the toast queue and the page redirects) are separate method calls.
- Navigation and redirects are left out.
- `CartItemSerializer` and `OrderListSerializer` are not defined in serializers.py, so their validation and the list serialisation are parameters of `ServiceViews.AddItemToCart` and `ServiceViews.OrderListByCustomer`.
- The ordering of orders with equal creation times is not modelled.
- `normalize_email` is Django code outside this repository. It is modelled on its documented behaviour.
- Non-boolean values for the manager's boolean extra fields are not modelled.
- A `setdefault` key that holds an explicit `None` is not modelled.
- `OrderForm.items` in Services.jsx is never read, and is carried along unchanged.
- The error messages of the SignUp, Login and ForgotPassword submit handlers' network replies are left out. The model covers validation, the payload and whether a request is sent.
- ResetPassword's generic `handleInputChange` and the password-visibility toggles are left out. `hasSpecialChar` in ResetPassword.jsx is computed but never used, so the model does not require it.
- `fetchContactInfo` in Contact.jsx only loads display data and is left out.
- The remaining `api.js` wrappers are single HTTP calls with no logic of their own, and are left out.
