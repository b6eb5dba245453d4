# Food ordering app: a Dafny model of its core

This project models the core of a food-ordering application with an Express and
Mongoose backend and a React client. The model covers:

- **Orders**: checkout of a single-restaurant cart with a mock COD, CARD or UPI
  payment, and order numbers `FOODAPP-<n>` drawn from a per-key counter.
- **Cancellation**: ADMIN, or a MANAGER of the order's country, may cancel. It
  writes an archive record and is listed for admins and managers.
- **Payments**: the administrative payment update, the owner-only mock charge of
  an existing order, and the listings of saved payment methods.
- **Catalogue**: restaurants with normalised categories, a country-scoped list and
  single view, and menu entries added, patched and deleted by id or name.
- **Client**: the cart state machine, the case-insensitive role gate and the
  currency rule.

The five collections (restaurants, orders, cancelled orders, payment methods,
counters) are maps in a `DbState` value. A `Db` class holds the same maps as
fields.

Each route that writes is modelled twice:
- a specification function `XSpec(state, inputs)` that returns the HTTP reply
  (`Ok(body)` or `Err(status, message)`) and the next state;
- a method on `Db` that performs the route's steps in place, and whose `ensures`
  ties the result and the new state to that function.

Read-only routes are plain functions. The properties are lemmas about the
specification functions:
- the store's order/archive/counter consistency is preserved;
- a second cancel and a second charge are refused;
- role and country scoping;
- the listings agree with one another.

The cart is the `Cart` class with the two state variables of the provider. Its
methods are proved against `AddSpec`, `DecSpec` and `RemoveSpec` and keep the
cart invariant: a single restaurant, unique item ids, quantities of at least 1.
Lemmas relate the per-item quantities, the count and the total before and after
each operation.

The clock, the ids the store assigns (new payment methods, new restaurants, new
menu entries) and the client's stored country are parameters.

## Model

| member | source | states |
|---|---|---|
| Text.Digits | food-app-backend/src/routes/orders.js:23 | removing non-digits leaves only digits, never lengthens, gives "" when there is no digit, keeps a one-character string exactly when it is a digit, and keeps an all-digit string as it is |
| Text.DigitsAppend | food-app-backend/src/routes/orders.js:103 | stripping non-digits distributes over concatenation |
| Text.DecimalStringValue | food-app-backend/src/routes/orders.js:132 | the decimal rendering of n reads back as n |
| Text.DecimalStringInjective | food-app-backend/src/routes/orders.js:132 | different numbers render as different digit strings |
| Text.Lower | food-app-backend/src/middleware/roles.js:2-3 | lower-casing keeps the length and maps each character |
| Text.LowerForgetsCase | food-app-backend/src/middleware/roles.js:2-3 | lower-casing forgets any earlier upper- or lower-casing |
| Text.UpperIdempotent | food-app-backend/src/routes/orders.js:51 | upper-casing twice is upper-casing once |
| Text.Trim | food-app-backend/src/routes/restaurants.js:13-14 | `trim` returns the slice s[i..j] left after removing white space and line terminators at both ends; what it removes is all such characters and what it keeps starts and ends with neither |
| Text.TrimFixesTrimmed | food-app-backend/src/routes/restaurants.js:13-14 | `trim` leaves a trimmed string as it is |
| Text.Split | food-app-backend/src/routes/restaurants.js:14 | `split` gives at least one piece and no piece holds the separator |
| Text.JoinSplit | food-app-backend/src/routes/restaurants.js:14 | joining the pieces of a split gives back the string |
| Text.SplitJoin | food-app-backend/src/routes/restaurants.js:14 | splitting the join of separator-free pieces gives back the pieces |
| Api.IdKey | food-app-backend/src/routes/restaurants.js:72 | a castable id is looked up under a canonical 24-digit lower-case key, and a canonical id is its own key |
| Api.IdKeyIgnoresCase | food-app-backend/src/routes/restaurants.js:72 | an id written in upper case is castable exactly when the original is, and finds the same key |
| Schemas.ParseRole | food-app-backend/src/models/User.js:8 | exactly the three role names are accepted, each as its own role |
| Schemas.ParseCountry | food-app-backend/src/models/Restaurant.js:15 | exactly "India" and "America" are accepted |
| Schemas.ParseStatus | food-app-backend/src/models/Order.js:38 | exactly Placed, Cancelled and Fulfilled are accepted |
| Schemas.ParsePayMethod | food-app-backend/src/models/Order.js:40 | exactly COD, CARD and UPI are accepted |
| Schemas.ParsePayStatus | food-app-backend/src/models/Order.js:41 | exactly paid, cod and failed are accepted |
| Schemas.ParseMethodType | food-app-backend/src/models/PaymentMethod.js:6 | exactly CARD, UPI and BANK are accepted |
| Schemas.RestaurantDefaults | food-app-backend/src/models/Restaurant.js:11-19 | a new restaurant defaults to India with no categories and an empty menu |
| Schemas.MethodDefaults | food-app-backend/src/models/PaymentMethod.js:3-11 | a new payment method defaults to type CARD, not default, empty details |
| Schemas.OrderDefaults | food-app-backend/src/models/Order.js:27-44 | a new order defaults to Placed, txnId "", total 0, no items |
| Schemas.ArchiveDefaults | food-app-backend/src/models/CancelledOrder.js:3-16 | a new archive record defaults to no items, total 0, reason "", cancelled now |
| Prices.PriceChars | food-app-backend/src/routes/orders.js:18 | only digits and dots survive; a string of them is unchanged; none gives "" |
| Prices.PriceCharsAppend | food-app-backend/src/routes/orders.js:18 | the stripping distributes over concatenation |
| Prices.ParseFloat | food-app-backend/src/routes/orders.js:18-19 | `parseFloat` of the stripped text is NaN exactly when it is empty or starts with a dot not followed by a digit; otherwise it is at least 0 |
| Prices.ToPrice | food-app-backend/src/routes/orders.js:16-20 | a number passes through; text is `parseFloat` of its digits and dots, and 0 when that reads no number; a missing one gives 0; the price is at least 0 |
| Prices.ToPriceReadsWholeNumber | food-app-backend/src/routes/orders.js:16-20 | the text of a whole number is read as that number |
| Prices.ToPriceReadsFraction | food-app-backend/src/routes/orders.js:16-20 | "w.f" is read as w + f / 10^digits(f) |
| Prices.ToPriceSkipsSymbols | food-app-backend/src/routes/orders.js:18 | leading currency symbols and text do not change the price |
| Prices.ToPriceWithoutDigits | food-app-backend/src/routes/orders.js:16-20 | text with no digit is priced 0 |
| Store.FindById | food-app-backend/src/routes/restaurants.js:72 | a non-ObjectId id is a cast error; a document is found exactly when the id's canonical lower-case key is present, and it is the document under that key |
| Store.Bump | food-app-backend/src/routes/orders.js:33-40 | a key's first use yields 1, each later use the previous value plus 1 |
| Store.Db.NextSeq | food-app-backend/src/routes/orders.js:33-40 | the in-place counter increment returns and stores what `Bump` describes |
| Store.AllocateConsecutive | food-app-backend/src/routes/orders.js:33-40 | n allocations yield exactly the next n integers in order |
| Store.OrderNo | food-app-backend/src/routes/orders.js:131-132 | an order number is "FOODAPP-" followed by digits that read back as the sequence value, with no leading zero unless the value is 0 |
| Store.OrderNoInjective | food-app-backend/src/routes/orders.js:131-132 | distinct sequence values give distinct order numbers |
| Store.NextOrderNoIsFresh | food-app-backend/src/models/Order.js:29 | in a consistent store the next order number is held by no order and no archive record |
| Store.CountersOnlyPreservesConsistent | food-app-backend/src/routes/orders.js:131 | advancing the counter alone keeps the store consistent |
| Store.InsertOrderPreservesConsistent | food-app-backend/src/routes/orders.js:131-150 | inserting a live order under the freshly minted number keeps the store consistent |
| Store.CancelOrderPreservesConsistent | food-app-backend/src/routes/orders.js:201-226 | cancelling an order together with writing its archive record keeps the store consistent |
| Store.ReplaceOrderPreservesConsistent | food-app-backend/src/routes/orders.js:263-275 | rewriting an order with the same number and status keeps the store consistent |
| OrderRules.BrandOf | food-app-backend/src/routes/orders.js:22-31 | each brand is returned exactly for its digit prefixes, in the order the tests run |
| OrderRules.SixtyIsNeverRupay | food-app-backend/src/routes/orders.js:27-29 | a card number starting "60" is DISCOVER, never RUPAY |
| OrderRules.Last4 | food-app-backend/src/routes/orders.js:107 | `slice(-4)` is the last four digits, or all of them when fewer |
| OrderRules.CardDetails | food-app-backend/src/routes/orders.js:111 | a saved card's details are brand, last four and expiry only |
| OrderRules.Qty | food-app-backend/src/routes/orders.js:62 | a line's quantity is at least 1 and is the requested one when that is at least 1 |
| OrderRules.Normalize | food-app-backend/src/routes/orders.js:57-63 | a normalised line has quantity `Qty` of the requested one (at least 1), its ids or "", its name or "", and its price read by `toPrice` |
| OrderRules.NormalizeAll | food-app-backend/src/routes/orders.js:57-63 | normalisation maps each line in order |
| OrderRules.LinesTotalAppend | food-app-backend/src/routes/orders.js:88 | the total of a concatenation is the sum of the totals |
| OrderRules.LinesTotalNonNegative | food-app-backend/src/routes/orders.js:88 | lines with non-negative prices never total below 0 |
| OrderRules.LinesTotalCons | food-app-backend/src/routes/orders.js:88 | a single line totals price times quantity, and the total accumulates from the front as `reduce` does |
| OrderRules.OneIdIffOneRestaurant | food-app-backend/src/routes/orders.js:71-76 | the set of restaurant ids has one element iff there are lines and all name the first line's restaurant |
| OrderRules.ValidVpaParts | food-app-backend/src/routes/orders.js:122-125 | a UPI address is valid iff it is a non-empty `[\w.-]` name, "@", and a non-empty `[\w-]` handle |
| OrderRules.CodPayment | food-app-backend/src/routes/orders.js:91-93 | cash on delivery records status cod, no txnId, no payment time |
| OrderRules.Captured | food-app-backend/src/routes/orders.js:99-101 | a captured payment is paid now with the transaction id "<METHOD>-<now>" |
| Roles.RequireRole | food-app-backend/src/middleware/roles.js:1-6 | the request passes iff the lower-cased role is among the lower-cased allowed roles; otherwise 403 "Forbidden" |
| Roles.RequireRoleIgnoresCase | food-app-backend/src/middleware/roles.js:2-3 | upper-casing the role or the allowed names changes nothing |
| Roles.RoleNamesDifferIgnoringCase | food-app-backend/src/models/User.js:8 | the three role names differ even ignoring case |
| Roles.RequireAdminOnlyAdmin | food-app-backend/src/middleware/roles.js:1-6 | `requireRole("ADMIN")` admits exactly ADMIN users |
| Roles.RequireAnyRoleAdmitsEveryUser | food-app-backend/src/routes/restaurants.js:106 | `requireRole("ADMIN","MANAGER","MEMBER")` admits every user |
| Roles.MissingRoleRefused | food-app-backend/src/middleware/roles.js:2 | a missing role is refused by any list of non-empty names |
| Orders.CountryOr | food-app-backend/src/routes/orders.js:85 | the order's country is the restaurant's, else India |
| Orders.SavedCard | food-app-backend/src/routes/orders.js:106-113 | a saved card is a non-default CARD in the caller's country, owned by the caller, with brand/last4/exp details and a "BRAND •••• last4" nickname |
| Orders.CheckoutPayment | food-app-backend/src/routes/orders.js:91-129 | COD records cod and writes nothing; UPI is paid now exactly when the address is valid, else 400 "Invalid UPI ID"; CARD with a saved id is paid now exactly when an ObjectId names the caller's card (else 400, a malformed id 500); a full card needs at least 12 digits (else 400 "Invalid card") and is saved on request under a fresh id; neither is 400 |
| Orders.CheckoutPlan | food-app-backend/src/routes/orders.js:46-83 | each check answers its own 400 (or the cast-error 500) in the order the handler runs them, and the plan is Ok exactly when all pass; it then names an existing restaurant by its key and holds its document |
| Orders.PlaceOrder | food-app-backend/src/routes/orders.js:131-152 | a failed payment step is its own reply and writes nothing; after it the card and counter are written, and the order is created exactly when the next number is free and every line has an itemId, else 500; a new order carries the next number, the caller, the lines, their total, status Placed, and the payment fields of COD or of a capture now |
| Orders.CheckoutSpec | food-app-backend/src/routes/orders.js:44-157 | a refused plan is its own reply and writes nothing; every 400 leaves the store unchanged; a success inserts an order under a fresh number one past the counter, single-restaurant, with its restaurant's name, its lines' total, the requested method, its payment fields, and only after the UPI, saved-card or card-digit check the method needs |
| Orders.Checkout | food-app-backend/src/routes/orders.js:44-157 | the handler's in-place steps give the reply and store `CheckoutSpec` describes, and keep the store consistent when it was |
| Orders.Place | food-app-backend/src/routes/orders.js:91-152 | the in-place payment, counter and order writes give the reply and store `PlaceOrder` describes, and keep the store consistent when it was |
| Orders.CheckoutPreservesConsistent | food-app-backend/src/routes/orders.js:131-150 | checkout keeps the store consistent |
| Orders.PlacePreservesConsistent | food-app-backend/src/routes/orders.js:131-150 | the order-creation step keeps the store consistent, also when it fails after the counter advanced |
| Orders.CheckoutNumbersDistinct | food-app-backend/src/routes/orders.js:131-132 | two successive checkouts get different order numbers |
| Orders.CheckoutWithoutItemIdBurnsNumber | food-app-backend/src/routes/orders.js:131-155 | a line without itemId passes the checks, advances the counter and ends in 500 with no order |
| Orders.MyOrders | food-app-backend/src/routes/orders.js:160-170 | the caller sees exactly the orders whose userId is theirs |
| Orders.CheckoutShowsInMyOrders | food-app-backend/src/routes/orders.js:160-165 | after a checkout the caller's orders are the previous ones plus the new order |
| Orders.ArchiveUpsert | food-app-backend/src/routes/orders.js:201-223 | a new record snapshots the order; an existing one is kept except for the cancel metadata, which is always overwritten |
| Orders.CancelSpec | food-app-backend/src/routes/orders.js:173-234 | MEMBER is 403, a missing order 404, a cross-country MANAGER 403, a cancelled order 409; otherwise it succeeds, marks the order Cancelled and returns the archive record `ArchiveUpsert` gives |
| Orders.Cancel | food-app-backend/src/routes/orders.js:173-234 | the handler's in-place steps give the reply and store `CancelSpec` describes, and keep the store consistent when it was |
| Orders.CancelPreservesConsistent | food-app-backend/src/routes/orders.js:201-226 | cancelling keeps the store consistent |
| Orders.CancelArchivesSnapshot | food-app-backend/src/routes/orders.js:201-214 | on a consistent store the archive record is new and a snapshot of the order as it was |
| Orders.CancelTwiceConflicts | food-app-backend/src/routes/orders.js:197-199 | a second cancel is 409 and changes nothing |
| Orders.MemberCannotCancel | food-app-backend/src/routes/orders.js:175-178 | a MEMBER is always refused with 403 |
| Orders.ListCancelled | food-app-backend/src/routes/orders.js:238-246 | ADMIN sees every archive record, MANAGER those of their country, MEMBER is refused |
| Orders.CancelledVisibleToAdmin | food-app-backend/src/routes/orders.js:243-245 | the record a cancel writes is listed for every ADMIN |
| Orders.ManagerSeesOwnCancel | food-app-backend/src/routes/orders.js:201-245 | on a consistent store, a MANAGER's cancel is listed in that MANAGER's cancelled orders |
| Orders.StrictArchive | food-app-backend/src/models/CancelledOrder.js:3-16 | the archive as the strict schema stores it: the same records with no country |
| Orders.ManagerListEmptyAsWritten | food-app-backend/src/routes/orders.js:243-244 | with the country stripped, a MANAGER's cancelled list is empty |
| Orders.ManagerMissesOwnCancelAsWritten | food-app-backend/src/routes/orders.js:201-245 | with the country stripped, the record a MANAGER's cancel writes is missing from their list |
| Orders.UpdatePaymentSpec | food-app-backend/src/routes/orders.js:249-281 | non-ADMIN is 403, an unknown method 400, a missing order 404, a cancelled one 400; otherwise it succeeds and changes only the method and payment fields of the order |
| Orders.UpdatePayment | food-app-backend/src/routes/orders.js:249-281 | the handler's in-place steps give the reply and store `UpdatePaymentSpec` describes, and keep the store consistent when it was |
| Orders.UpdatePaymentOutcome | food-app-backend/src/routes/orders.js:263-273 | COD clears the payment, a capture pays now, an uncaptured CARD/UPI keeps the old payment fields |
| Orders.UpdatePaymentAdminOnly | food-app-backend/src/routes/orders.js:249 | any non-ADMIN gets 403 and nothing changes |
| Orders.UpdatePaymentPreservesConsistent | food-app-backend/src/routes/orders.js:263-275 | the payment update keeps the store consistent |
| Orders.Summary | food-app-backend/src/routes/orders.js:289-294 | the summary shows nickname, last4 exactly when the details hold one, and brand or "CARD" |
| Orders.ListMethods | food-app-backend/src/routes/orders.js:284-296 | the caller's own methods, filtered by the upper-cased type when one is given |
| Orders.ListMethodsIgnoresCase | food-app-backend/src/routes/orders.js:285-287 | the case of the type query does not change the listing |
| Orders.CheckoutSavedCardListed | food-app-backend/src/routes/orders.js:105-113 | a card saved at checkout is listed under CARD with its brand and last four |
| Orders.SavedCardSummary | food-app-backend/src/routes/orders.js:289-294 | a stored checkout card is summarised with brand and last four |
| Payments.ChargeBrand | food-app-backend/src/routes/payments.js:45 | VISA exactly for a leading 4, CARD otherwise |
| Payments.ChargeBrandAgreesOnVisa | food-app-backend/src/routes/payments.js:45 | the charge's brand rule agrees with `brandOf` on VISA and calls every other brand CARD |
| Payments.ChargeSource | food-app-backend/src/routes/payments.js:29-62 | a malformed saved id is 500; a saved method must exist, be the caller's (else 400 "Saved card not found") and be a CARD (else 400); a new card needs 12 digits (else 400) and is saved only on request; neither is 400 |
| Payments.Charged | food-app-backend/src/routes/payments.js:64-71 | a charged order is a CARD payment paid now; status and everything else are kept |
| Payments.ChargeSpec | food-app-backend/src/routes/payments.js:13-79 | a missing orderNo is 400, another user's or a missing order 404, a cancelled one 400, a paid one 400; a source failure is its reply; otherwise it succeeds, reporting the saved method's key or the newly saved card; every error leaves the store unchanged |
| Payments.Charge | food-app-backend/src/routes/payments.js:13-79 | the handler's in-place steps give the reply and store `ChargeSpec` describes, and keep the store consistent when it was |
| Payments.ChargeTwiceRefused | food-app-backend/src/routes/payments.js:26-27 | charging a charged order again is 400 "Order already paid" and changes nothing |
| Payments.ChargeOnlyByOwner | food-app-backend/src/routes/payments.js:20-21 | anyone but the owner gets 404 |
| Payments.ChargePreservesConsistent | food-app-backend/src/routes/payments.js:67-72 | the charge never touches the status, so the store stays consistent |
| Payments.ListSavedMethods | food-app-backend/src/routes/payments.js:81-96 | the caller's methods, filtered only by a known type |
| Payments.MethodListingsCompared | food-app-backend/src/routes/payments.js:83-88 | both listings agree for a known or empty type; for an unknown type one lists nothing, the other everything |
| Restaurants.TrimAll | food-app-backend/src/routes/restaurants.js:13 | every kept entry is trimmed and non-empty; a single entry is kept, trimmed, exactly when its trim is non-empty |
| Restaurants.TrimAllKeepsCategories | food-app-backend/src/routes/restaurants.js:13 | trimmed non-empty entries pass through unchanged |
| Restaurants.TrimAllAppend | food-app-backend/src/routes/restaurants.js:13 | trimming a concatenation is trimming each part, so entries keep their order |
| Restaurants.NormalizeCategories | food-app-backend/src/routes/restaurants.js:11-15 | a list or a comma-split text is trimmed entry by entry with empty entries dropped and order kept; nothing gives []; so a stored category is never empty and never has surrounding white space |
| Restaurants.NormalizeCategoriesIdempotent | food-app-backend/src/routes/restaurants.js:11-15 | normalising twice is normalising once |
| Restaurants.TextAndListAgree | food-app-backend/src/routes/restaurants.js:13-14 | "a, b" and ["a", " b"] normalise alike |
| Restaurants.CategoriesTextRoundTrip | food-app-backend/src/routes/restaurants.js:14 | comma-joined categories are stored as the list they were joined from |
| Restaurants.CreateSpec | food-app-backend/src/routes/restaurants.js:18-38 | non-ADMIN is 403, a missing name or country 400, an unknown country or a taken id 500; otherwise it creates a restaurant with an empty menu, normalised categories and the given cuisine, city and cover image |
| Restaurants.Create | food-app-backend/src/routes/restaurants.js:18-38 | the handler's steps give the reply and store `CreateSpec` describes, and keep the store consistent when it was |
| Restaurants.ShownItemId | food-app-backend/src/routes/restaurants.js:55 | an entry shows its own id, else "<restaurant id>-<position>" |
| Restaurants.ShownDefaultIdsDistinct | food-app-backend/src/routes/restaurants.js:55 | entries without ids at different positions are shown with different ids |
| Restaurants.MenuItemView | food-app-backend/src/routes/restaurants.js:86-92 | a shown entry has description or "", price or 0, and an image (its own or "") only in the single view |
| Restaurants.View | food-app-backend/src/routes/restaurants.js:78-93 | the projection keeps id, name, categories, menu order and length; a missing country, cuisine, city or cover image shows "" |
| Restaurants.ListRestaurants | food-app-backend/src/routes/restaurants.js:41-67 | ADMIN sees all restaurants, anyone else exactly those of their own country |
| Restaurants.GetRestaurant | food-app-backend/src/routes/restaurants.js:70-100 | a malformed id is 500; otherwise the view succeeds exactly when the id's key names a restaurant visible to the caller and shows its projection with images, and every other case is 404 "Not found" |
| Restaurants.GetAgreesWithList | food-app-backend/src/routes/restaurants.js:41-100 | the single view finds exactly the listed restaurants and shows them alike, plus images |
| Restaurants.Loaded | food-app-backend/src/models/Restaurant.js:15 | a document loaded by `findById` has a country: its own, else the schema default India, and is otherwise the stored one |
| Restaurants.MenuAccess | food-app-backend/src/routes/restaurants.js:113-117 | a malformed id is 500, a missing restaurant 404, a cross-country one 403, judged on the loaded document, whose missing country is the default India; otherwise it reaches that loaded document |
| Restaurants.MenuAccessUsesDefaultCountry | food-app-backend/src/routes/restaurants.js:113-117 | a restaurant stored without a country is reached by ADMIN and by non-admins of India only, and is returned with country India |
| Restaurants.AddMenuItemSpec | food-app-backend/src/routes/restaurants.js:103-139 | a caller outside the three roles is 403, a missing name or price 400, the access error its reply, an id already on the menu 409; otherwise it appends an entry under the given or a fresh id and saves the loaded document, so a missing country is stored as India |
| Restaurants.AddMenuItem | food-app-backend/src/routes/restaurants.js:103-139 | the handler's in-place steps give the reply and store `AddMenuItemSpec` describes, and keep the store consistent when it was |
| Restaurants.AddMenuItemKeepsIdsUnique | food-app-backend/src/routes/restaurants.js:119-130 | adding keeps the ids on a menu unique |
| Restaurants.FirstMatch | food-app-backend/src/routes/restaurants.js:157 | the first entry whose id or name is the key, or none |
| Restaurants.Patch | food-app-backend/src/routes/restaurants.js:160-163 | each given field is overwritten and each absent one kept; the id never changes |
| Restaurants.PatchLaws | food-app-backend/src/routes/restaurants.js:160-163 | an empty patch changes nothing; patching twice equals patching once |
| Restaurants.UpdateMenuItemSpec | food-app-backend/src/routes/restaurants.js:142-172 | the access error is its reply; no match is 404 "Menu item not found"; otherwise it patches the first matching entry and nothing else, and saves the loaded document |
| Restaurants.UpdateMenuItem | food-app-backend/src/routes/restaurants.js:142-172 | the handler's in-place steps give the reply and store `UpdateMenuItemSpec` describes, and keep the store consistent when it was |
| Restaurants.WithoutKey | food-app-backend/src/routes/restaurants.js:189 | no kept entry matches the key, every non-matching entry is kept, and a single entry is kept exactly when it does not match |
| Restaurants.WithoutKeyIdempotent | food-app-backend/src/routes/restaurants.js:189 | deleting by a key twice deletes nothing more |
| Restaurants.KeepsKeyless | food-app-backend/src/routes/restaurants.js:189 | a menu with no matching entry is unchanged by the filter |
| Restaurants.WithoutKeyAppend | food-app-backend/src/routes/restaurants.js:189 | the delete filter distributes over concatenation, so kept entries keep their order |
| Restaurants.DeleteMenuItemSpec | food-app-backend/src/routes/restaurants.js:175-197 | succeeds exactly when access succeeds, so an unmatched key still succeeds; drops every entry whose id or name is the key and saves the loaded document |
| Restaurants.DeleteMenuItem | food-app-backend/src/routes/restaurants.js:175-197 | the handler's in-place steps give the reply and store `DeleteMenuItemSpec` describes, and keep the store consistent when it was |
| Restaurants.DeleteThenUpdateNotFound | food-app-backend/src/routes/restaurants.js:157-189 | after a delete by a key an update by that key is 404 |
| Restaurants.DeleteRestaurantSpec | food-app-backend/src/routes/restaurants.js:199-211 | non-ADMIN is 403, a malformed id 500, a missing restaurant 404; otherwise it removes only that restaurant |
| Restaurants.DeleteRestaurant | food-app-backend/src/routes/restaurants.js:199-211 | the handler's steps give the reply and store `DeleteRestaurantSpec` describes, and keep the store consistent when it was |
| Restaurants.DeletedRestaurantNotFound | food-app-backend/src/routes/restaurants.js:199-211 | a deleted restaurant is gone from every later list and single view |
| Money.CountrySetting | food-app-frontend/src/utils/money.js:2 | only a missing value falls through to the stored country and then "India" |
| Money.CurrencyOf | food-app-frontend/src/utils/money.js:1-4 | USD exactly when the chosen country lower-cased is "america" |
| Money.ExplicitCountryWins | food-app-frontend/src/utils/money.js:2 | an explicit country decides regardless of the stored one |
| Money.DefaultCurrencyIsInr | food-app-frontend/src/utils/money.js:2-3 | no country at all, or an explicit "", gives INR |
| Money.CurrencyIgnoresCase | food-app-frontend/src/utils/money.js:2-3 | the case of the country name does not matter |
| Money.CountryCurrency | food-app-frontend/src/utils/money.js:3 | America gives USD and India gives INR |
| Money.Locale | food-app-frontend/src/utils/money.js:8 | en-US exactly for USD, else en-IN |
| Money.FormatMoney | food-app-frontend/src/utils/money.js:6-14 | locale and currency agree, two fraction digits, a falsy amount is 0 |
| CartContext.StableItemId | food-app-frontend/src/context/CartContext.jsx:5-7 | the first truthy of itemId, id, _id, else the name or "" |
| CartContext.StableItemIdIgnoresName | food-app-frontend/src/context/CartContext.jsx:5-7 | an entry with an id keeps its cart id whatever its name or price |
| CartContext.ItemCount | food-app-frontend/src/context/CartContext.jsx:135-138 | the count of a cart of positive lines is at least its number of lines |
| CartContext.CartTotal | food-app-frontend/src/context/CartContext.jsx:131-134 | the total of non-negative lines is non-negative |
| CartContext.QtyOfUpdate | food-app-frontend/src/context/CartContext.jsx:100 | replacing a line changes an item's quantity by the two lines' shares |
| CartContext.ItemCountUpdate | food-app-frontend/src/context/CartContext.jsx:100 | replacing a line changes the count by the quantity difference |
| CartContext.CartTotalUpdate | food-app-frontend/src/context/CartContext.jsx:100 | replacing a line changes the total by the two lines' totals |
| CartContext.QtyOfAppend | food-app-frontend/src/context/CartContext.jsx:102-110 | appending a line adds its share to the item's quantity |
| CartContext.ItemCountAppend | food-app-frontend/src/context/CartContext.jsx:102-110 | appending a line adds its quantity to the count |
| CartContext.CartTotalAppend | food-app-frontend/src/context/CartContext.jsx:102-110 | appending a line adds its total |
| CartContext.IndexOfItem | food-app-frontend/src/context/CartContext.jsx:98 | the first line of the item, or -1 when there is none |
| CartContext.Cart.FindLine | food-app-frontend/src/context/CartContext.jsx:98 | the search loop finds the first line of the item, or -1 |
| CartContext.NewLine | food-app-frontend/src/context/CartContext.jsx:53-62 | a new line has quantity 1, the stable id, the `toPrice` price and the name or "" |
| CartContext.StartOver | food-app-frontend/src/context/CartContext.jsx:52-66 | a fresh cart holds one qty-1 line of the picked item and the requested restaurant |
| CartContext.AddSpec | food-app-frontend/src/context/CartContext.jsx:44-114 | DIFF_RESTAURANT exactly for an unforced add from another restaurant, which changes nothing; an empty cart or a forced add starts over; an add to the cart's own restaurant succeeds and keeps the cart's restaurant |
| CartContext.Cart.Add | food-app-frontend/src/context/CartContext.jsx:44-114 | the in-place add gives the result and state `AddSpec` describes, and keeps the invariant when it held before |
| CartContext.AddPreservesValid | food-app-frontend/src/context/CartContext.jsx:44-114 | add keeps one restaurant, unique ids and positive quantities |
| CartContext.AddShape | food-app-frontend/src/context/CartContext.jsx:97-111 | the item's line is raised by 1, or a qty-1 line is appended carrying the picked item's id, name and price and the restaurant's name and country, each the cart restaurant's, else the requested one's, else "" |
| CartContext.AddRaisesItem | food-app-frontend/src/context/CartContext.jsx:97-113 | the picked item gains exactly 1 and every other item is unchanged |
| CartContext.AddCountsOne | food-app-frontend/src/context/CartContext.jsx:97-113 | the count grows by exactly 1 |
| CartContext.AddChargesOneUnit | food-app-frontend/src/context/CartContext.jsx:97-113 | the total grows by one unit of the item's price |
| CartContext.Decrement | food-app-frontend/src/context/CartContext.jsx:118-119 | the matching lines lose 1, the others are unchanged |
| CartContext.KeepLines | food-app-frontend/src/context/CartContext.jsx:120 | the filter keeps exactly the accepted lines; a single line is kept exactly when it is accepted |
| CartContext.KeepLinesAppend | food-app-frontend/src/context/CartContext.jsx:120 | the filter distributes over concatenation, so kept lines keep their order |
| CartContext.KeepLinesUnique | food-app-frontend/src/context/CartContext.jsx:120 | filtering keeps ids unique |
| CartContext.KeepLinesQty | food-app-frontend/src/context/CartContext.jsx:120 | dropping lines that hold none of an item keeps its quantity |
| CartContext.KeepLinesCount | food-app-frontend/src/context/CartContext.jsx:120 | dropping zero-quantity lines keeps the count |
| CartContext.KeepLinesWithoutCount | food-app-frontend/src/context/CartContext.jsx:126 | removing an item's lines lowers the count by its quantity |
| CartContext.DecSpec | food-app-frontend/src/context/CartContext.jsx:117-123 | dec is decrement then drop empty lines; the restaurant goes when the cart empties |
| CartContext.Cart.Dec | food-app-frontend/src/context/CartContext.jsx:117-123 | the in-place dec gives the state `DecSpec` describes, and keeps the invariant when it held before |
| CartContext.DecPreservesValid | food-app-frontend/src/context/CartContext.jsx:117-123 | dec keeps the cart invariant |
| CartContext.DecrementOneLine | food-app-frontend/src/context/CartContext.jsx:118-119 | with unique ids the decrement changes at most one line |
| CartContext.DecLowersItem | food-app-frontend/src/context/CartContext.jsx:117-123 | dec lowers the item by 1 when present and leaves every other item |
| CartContext.DecCountsOne | food-app-frontend/src/context/CartContext.jsx:117-123 | the count drops by 1 exactly when the item was in the cart |
| CartContext.RemoveSpec | food-app-frontend/src/context/CartContext.jsx:125-129 | removeItem drops every line of the item; the restaurant goes when the cart empties |
| CartContext.Cart.RemoveItem | food-app-frontend/src/context/CartContext.jsx:125-129 | the in-place removal gives the state `RemoveSpec` describes, and keeps the invariant when it held before |
| CartContext.RemovePreservesValid | food-app-frontend/src/context/CartContext.jsx:125-129 | removeItem keeps the cart invariant |
| CartContext.RemoveCounts | food-app-frontend/src/context/CartContext.jsx:125-129 | the item's quantity becomes 0, others are kept, the count drops by its quantity |
| CartContext.DecOfSingleIsRemove | food-app-frontend/src/context/CartContext.jsx:117-129 | in a valid cart, decrementing an item held once gives exactly the state removing it gives |
| CartContext.DecAsRemove | food-app-frontend/src/context/CartContext.jsx:118-120 | on lines of quantity at least 1, decrementing the item held once and dropping empty lines drops exactly its lines |
| CartContext.Cart.Clear | food-app-frontend/src/context/CartContext.jsx:34 | clear leaves no lines and no restaurant |
| CartContext.Cart.constructor | food-app-frontend/src/context/CartContext.jsx:22-23 | a new cart is empty and valid |


## Findings

| source | as written | input that shows it | evidently intended | confidence | as-written member | corrected member |
|---|---|---|---|---|---|---|
| food-app-backend/src/routes/orders.js:214 with food-app-backend/src/models/CancelledOrder.js:3-16 | the archive upsert writes `country`, a path the strict CancelledOrder schema does not declare, so no record stores it; `CancelledOrder.find({ country })` then returns nothing under Mongoose 7 and later (under Mongoose 6 the unknown filter path is dropped and a MANAGER sees every country's records) | a MANAGER of India cancels an India order, then lists `GET /orders/cancelled` | a MANAGER lists the archive records of their own country, including their own cancel | high for the stripped `country`; the list outcome depends on the Mongoose version, which the source does not pin; not executed | Orders.ManagerMissesOwnCancelAsWritten | Orders.ManagerSeesOwnCancel |

## Left out

- Database I/O and its failures: every `catch` that answers 500 for a failing database call is not modelled, except where the failure follows from the inputs (a cast error on a malformed id, a missing `itemId` on an order line). The same holds for the 500 replies of the list routes.
- Sort orders: the `createdAt` descending sorts of the order, cancelled-order and payment-method lists are not modelled; lists are maps keyed by document key.
- `timestamps` (`createdAt`, `updatedAt`) and the unused `PaymentInfoSchema` and `OrderItem.restaurantName` fields are not modelled.
- Orders.CancelSpec: the duplicate-key (11000) reply of the cancel route arises only when two cancels race on the archive upsert; requests are modelled one at a time, so that branch is absent.
- Orders.ListCancelled: the CancelledOrder schema declares no `country` and sets no `strict` option, so under Mongoose's default strict mode the `country` of the cancel route's upsert is never stored. The archive `country` and the MANAGER branch model the evidently intended behaviour (a MANAGER sees the records of their country); what the code as written does is recorded under "## Findings".
- The "Invalid user id in token" branch of cancel is unreachable: the caller's id is always the string of a stored user's ObjectId, which the model types as `ObjectIdText`.
- Api.IsObjectId: only 24-digit hexadecimal strings are treated as castable ids; the 12-character form that some driver versions also accept is not modelled. Stored ids are the canonical lower-case text `ObjectId.toString()` gives, and a castable id in either case is looked up under its lower-cased form (`Api.IdKey`).
- Authentication (`requireAuth`, JWT and bcrypt) is not modelled; every route receives the authenticated `Actor`.
- Floating point: prices, totals and amounts are exact reals. NaN is not modelled. This covers `parseInt` of a non-numeric quantity, `Number(price)` of a non-numeric menu price, and `Number(it.qty || 0)` in the cart. Quantities are integers and menu prices are numbers or absent.
- Case mapping (`toUpperCase`/`toLowerCase`) is modelled on ASCII letters only. JavaScript also maps some non-ASCII letters onto ASCII ones (the dotless `ı` upper-cases to `I`), so a payment method or method type written with such a letter, such as "upı", is accepted by the source and refused by the model. The lower-cased role and country comparisons meet no such letter in the names they compare against.
- Truthiness of flags: `capture` (payment update), `saveCard` (checkout and charge) and `force` (cart add) are modelled as booleans. The source tests JavaScript truthiness, so a non-empty string such as "false" counts as true there; the model has no such value.
- Non-string request values (numbers or objects in name, category or id fields) are modelled as strings or absent.
- `Intl.NumberFormat`: `formatMoney` is modelled up to the arguments it passes to the formatter (locale, currency, two fraction digits, amount), not the rendered text.
- The browser's `localStorage`: the cart is not loaded from or saved to storage (a new cart starts empty), and `currencyOf`'s stored country is a parameter.
- Clocks and id generation: `Date.now()`, `new Date()` and `new ObjectId()` are parameters of the routes that use them.
- User email uniqueness is enforced at signup, which is not part of this model.
- The React pages and components, the seed scripts and the server wiring are not part of this model.
