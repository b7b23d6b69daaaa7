# FasHub storefront — a Dafny model of its state logic

FasHub is a Next.js/React fashion storefront. This project models the rules behind
its pages and shared stores:

- the cart store (`contexts/cart-context.jsx`): its reducer, its provider methods and
  the derived total and count;
- the authentication store (`contexts/auth-context.jsx`): its reducer, the mock login
  and signup and the users they build;
- the search page's filter-and-sort pipeline and its option lists;
- the three admin tables (products, orders, users);
- the sign-in/sign-up modal's validation;
- the checkout step counter, shipping cost, totals, card mask and order record;
- the cart page's summary and quantity buttons;
- the quick-add dialog, the product card, the wishlist page, the featured-products
  heart set, the collection tabs, the lookbook total, the admin dashboard gate and
  the profile page.

The model follows the source's form.

- Pure rules are Dafny functions: reducers, filters, `getStatusColor` switches and
  derived prices.
- Component and store state that handlers update is a Dafny `class`. Each handler is a
  method whose `ensures` gives the new state as a function of the old one. The cart
  store, for instance, ensures `items == Reduce(old(items), action)`.
- Lemmas prove what the source promises about those functions.

Shared modules:

- `Wrappers`: `Option`.
- `Text`: ASCII lower-casing, substring, `split`/`trim`/`join`, and decimal
  `parseInt`/`parseFloat`.
- `Seqs`: order-preserving filter, de-duplication, and the stable sort that
  `Array.prototype.sort` performs.

JavaScript's `NaN` from a failed parse is `None`. A user object is a
`map<string, Value>`, so a spread `{...a, ...b}` is the map union `a + b`. Prices are
`real`. `Date.now()`, the current date and `Number.prototype.toString` are parameters.

## Model

| member | source | states |
|---|---|---|
| Cart.AddMatching | contexts/cart-context.jsx:10-24 | adding an entry whose (id, size, color) matches a line raises that line's quantity by the entry's, keeps the length and leaves every non-matching line untouched |
| Cart.AddFresh | contexts/cart-context.jsx:26-29 | with no matching line, the add appends exactly one line (the entry with the new cartId) after the unchanged earlier lines |
| Cart.AddPreservesWellFormed | contexts/cart-context.jsx:9-29 | an add of a positive quantity with a fresh cartId keeps cartIds distinct and quantities positive |
| Cart.AddKeepsKeysDistinct | contexts/cart-context.jsx:9-29 | after an add, no two lines share an (id, size, color) key and the added key is present |
| Cart.TotalAppend | contexts/cart-context.jsx:119-125 | total and count are additive over concatenation (the `reduce` from 0) |
| Cart.TotalReplace | contexts/cart-context.jsx:119-125 | replacing one line changes total and count by exactly the difference of that line's contribution |
| Cart.AddTotalsMerge | contexts/cart-context.jsx:15-24 | a merging add raises the count by the added quantity and the total by the existing line's price times it |
| Cart.AddTotalsFresh | contexts/cart-context.jsx:26-29 | an appending add raises the count by the quantity and the total by price times quantity |
| Cart.AddTotals | contexts/cart-context.jsx:9-29 | any add raises the count by the added quantity; the total rises by the line's price (the new entry's only when no line matched) times the quantity |
| Cart.KeyQuantityOfLine | contexts/cart-context.jsx:10-13 | with distinct keys, the quantity held under a key is the quantity of its one line |
| Cart.AddKeyQuantity | contexts/cart-context.jsx:9-29 | an add raises the quantity held under its own key by the added quantity |
| Cart.RepeatedAdds | contexts/cart-context.jsx:9-29 | a run of adds of one key leaves keys distinct, that key present, and its quantity equal to the sum of the added quantities |
| Cart.CountBounds | contexts/cart-context.jsx:123-125 | for positive quantities the count is at least the number of lines and is 0 exactly for the empty cart |
| Cart.RemoveSpec | contexts/cart-context.jsx:31-35 | a line survives removal iff its cartId differs; survivors keep their order; an unknown cartId changes nothing |
| Cart.RemovePreservesWellFormed | contexts/cart-context.jsx:31-35 | removal keeps cartIds distinct and quantities positive |
| Cart.UpdateSpec | contexts/cart-context.jsx:37-45 | after `updateQuantity` every line has quantity > 0; for q > 0 every targeted line survives holding q, and a cart of positive lines changes only the targeted quantities; q <= 0 removes the targeted lines; other lines are kept iff their quantity was positive |
| Cart.UpdatePreservesWellFormed | contexts/cart-context.jsx:37-45 | updating a quantity keeps cartIds distinct and quantities positive |
| Cart.FilterPositive | contexts/cart-context.jsx:42-44 | dropping the non-positive lines from lines with distinct cartIds and distinct keys yields a well-formed cart |
| Cart.FilterDistinctIds | contexts/cart-context.jsx:31-35 | any filter of a well-formed cart is well-formed |
| Cart.ClearAndLoad | contexts/cart-context.jsx:47-60 | CLEAR gives the empty cart with total 0 and count 0; LOAD gives the payload or the empty cart when it is missing; an unknown action changes nothing |
| Cart.Reduce | contexts/cart-context.jsx:7-62 | `cartReducer` on the items (definition; stated by Cart.AddTotals, Cart.RemoveSpec, Cart.UpdateSpec and Cart.ClearAndLoad) |
| Cart.Total | contexts/cart-context.jsx:119-121 | `getCartTotal`, the sum of price times quantity (definition; stated by Cart.TotalAppend and Cart.TotalReplace) |
| Cart.Count | contexts/cart-context.jsx:123-125 | `getCartCount`, the sum of quantities (definition; stated by Cart.TotalAppend and Cart.CountBounds) |
| Cart.EntryFor | contexts/cart-context.jsx:85-98 | the ADD_ITEM payload of `addItem` (definition; stated by Cart.CartStore.AddItem) |
| Cart.TeeExample | contexts/cart-context.jsx:85-98 | two adds of the same tee (size M, black) give one line of quantity 3 and total 60 |
| Cart.CartStore.constructor | contexts/cart-context.jsx:65 | the cart starts empty |
| Cart.CartStore.AddItem | contexts/cart-context.jsx:85-98 | `addItem` dispatches ADD_ITEM with the product's id, name, price and image, the quantity defaulting to 1, and the given size and colour; it keeps the cart well-formed |
| Cart.CartStore.AddToCart | contexts/cart-context.jsx:100-105 | `addToCart` dispatches ADD_ITEM with the given entry and keeps the cart well-formed |
| Cart.CartStore.RemoveItem | contexts/cart-context.jsx:107-109 | the items become REMOVE_ITEM applied to the old items |
| Cart.CartStore.UpdateQuantity | contexts/cart-context.jsx:111-113 | the items become UPDATE_QUANTITY applied to the old items |
| Cart.CartStore.ClearCart | contexts/cart-context.jsx:115-117 | the cart is empty afterwards |
| Cart.CartStore.LoadCart | contexts/cart-context.jsx:68-78 | the restored cart is LOAD_CART of the saved lines |
| Auth.LoginUser | contexts/auth-context.jsx:77-91 | the mock user's name and firstName are the email text before the first "@", lastName is "User", email is the given email |
| Auth.SignupUser | contexts/auth-context.jsx:107-121 | the new user's name is "firstName lastName", email is as given, and newsletter defaults to false |
| Auth.ReduceActions | contexts/auth-context.jsx:9-34 | LOGIN sets user, authenticated and not loading; LOGOUT clears all; SET_LOADING changes only isLoading; an unknown action changes nothing |
| Auth.Reduce | contexts/auth-context.jsx:7-35 | `authReducer` (definition; stated by Auth.ReduceActions, Auth.UpdateProfileOverlay and Auth.ReducePreservesConsistent) |
| Auth.UpdateProfileOverlay | contexts/auth-context.jsx:28-32 | UPDATE_PROFILE overlays the payload's fields on the current user, keeps every other field and both flags |
| Auth.ReducePreservesConsistent | contexts/auth-context.jsx:8-35 | every action keeps "authenticated implies a user" |
| Auth.UpdateWhileLoggedOut | contexts/auth-context.jsx:28-32 | UPDATE_PROFILE while signed out creates a user from the payload but does not authenticate |
| Auth.LoginOutcome | contexts/auth-context.jsx:69-98 | after `login` nothing is loading; the store is authenticated iff credentials were accepted or it already was; on failure the user is unchanged |
| Auth.LoginUserNames | contexts/auth-context.jsx:78-80 | an email without "@" is the whole first name; "jane@shop.com" gives the name "jane" |
| Auth.AuthStore.constructor | contexts/auth-context.jsx:39-43 | the store starts with no user, not authenticated, loading |
| Auth.AuthStore.Dispatch | contexts/auth-context.jsx:8-35 | the state becomes the reducer applied to the old state |
| Auth.AuthStore.Restore | contexts/auth-context.jsx:46-58 | a saved user is logged in, and loading ends either way |
| Auth.AuthStore.Login | contexts/auth-context.jsx:69-98 | succeeds iff email and password are non-empty; success logs in the mock user, failure reports "Invalid credentials" and only toggles loading |
| Auth.AuthStore.Signup | contexts/auth-context.jsx:100-125 | always succeeds and logs in the signup user |
| Auth.AuthStore.Logout | contexts/auth-context.jsx:127-129 | the state becomes LOGOUT of the old state |
| Auth.AuthStore.UpdateProfile | contexts/auth-context.jsx:131-133 | the state becomes UPDATE_PROFILE of the old state |
| Search.MatchingMembers | app/search/page.jsx:37-68 | a product survives iff it is in the catalog, the query (when non-empty) is in its lower-cased name, description or some tag, each non-empty selection contains its category/brand or shares a colour/size, and lo <= price <= hi |
| Search.MatchingKeepsOrder | app/search/page.jsx:34-68 | before sorting the result is an order-preserving subsequence of the catalog |
| Search.Matching | app/search/page.jsx:34-68 | the filtered products (definition; stated by Search.MatchingMembers and Search.MatchingKeepsOrder) |
| Search.Ordered | app/search/page.jsx:70-86 | the sort per `sortBy` (definition; stated by Search.OrderedSpec) |
| Search.StageAt | app/search/page.jsx:37-68 | each `if`-guarded stage of the `let filtered` chain narrows the previous stage's result to the products admitted by one more filter |
| Search.AllStagesMatch | app/search/page.jsx:34-68 | the six stages together admit exactly the products matching all criteria |
| Search.ClearedListsAll | app/search/page.jsx:93-100 | with cleared filters, an empty query and prices in [0, 500], every product is listed |
| Search.OrderedSpec | app/search/page.jsx:70-86 | the sorted list is a permutation of the filtered list, ascending/descending by price, descending by rating or id per `sortBy`, and unchanged for "featured" or anything else |
| Search.PriceSortStable | app/search/page.jsx:71-78 | both price sorts ("price-low" and "price-high") keep products of equal price in their original relative order |
| Search.BrandOptionsSpec | app/search/page.jsx:30 | the brand options hold every catalog brand exactly once |
| Search.ColorOptionsSpec | app/search/page.jsx:31 | the colour options hold every colour of every product exactly once |
| Search.SizeOptionsSpec | app/search/page.jsx:32 | the size options hold every size of every product exactly once |
| Search.SearchPage.constructor | app/search/page.jsx:14-28 | the query comes from `?q=` or "", selections are empty, the price range is [0, 500], sort is "featured" |
| Search.SearchPage.ClearFilters | app/search/page.jsx:93-100 | selections emptied, range [0, 500], sort "featured", query kept |
| Search.SearchPage.Refresh | app/search/page.jsx:34-89 | the stage-by-stage reassignments of `filtered` over the filters, then the sort, yield exactly the ordered matching products |
| AdminProducts.ListingSpec | components/admin-product-management.jsx:75-79 | a product is listed iff its lower-cased name contains the lower-cased term and the category is "all" or its own; order is kept |
| AdminProducts.NewProductSpec | components/admin-product-management.jsx:81-94 | an added product is "active" iff its parsed stock is > 0, its colours and sizes are the trimmed comma pieces, and an empty original price is null |
| AdminProducts.StockRoundTrip | components/admin-product-management.jsx:114 | the stock shown in the edit form parses back to the stored stock |
| AdminProducts.NaNParsesToNaN | components/admin-product-management.jsx:126 | a stored NaN price shows as "NaN", which parses back to NaN |
| AdminProducts.WholePriceShownBack | components/admin-product-management.jsx:111 | `toString` of a whole non-negative price parses back to it, so such prices meet the hypothesis of the round trips |
| AdminProducts.PriceRoundTrip | components/admin-product-management.jsx:111 | the price text of the edit form parses back to the stored price: always for NaN, and for a number whenever the printer writes it as text that parses back to it |
| AdminProducts.OriginalPriceRoundTrip | components/admin-product-management.jsx:112 | the original-price text ("" for null) parses back to the stored original price, under the same per-value printing hypothesis |
| AdminProducts.EditSaveRoundTrip | components/admin-product-management.jsx:108-131 | editing and saving without changes gives back the product (status recomputed) when its price and original price print as text that parses back to them and no colour or size holds a comma or outer blanks |
| AdminProducts.EmptyColorsComeBackAsOneBlank | components/admin-product-management.jsx:117-130 | a product with no colours comes back from an unchanged edit with the one colour "" |
| AdminProducts.ReplaceByIdSpec | components/admin-product-management.jsx:134 | the update keeps the length and replaces exactly the products with the edited id |
| AdminProducts.DeleteByIdSpec | components/admin-product-management.jsx:148-150 | deletion keeps, in order, exactly the products with another id |
| AdminProducts.AddedProductListing | components/admin-product-management.jsx:75-94 | after an add the listing is the old listing followed by the new product when it matches the search and category |
| AdminProducts.EditThenSave | components/admin-product-management.jsx:108-145 | editing then saving (under the same hypotheses) replaces only that product and clears the form and the editing product |
| AdminProducts.StatusColor | components/admin-product-management.jsx:152-163 | "active" gets the green classes, "out_of_stock" the red ones, and the gray classes go exactly to every other status, "draft" included |
| AdminProducts.Listing | components/admin-product-management.jsx:75-79 | the filter of the table (definition; its meaning is stated by AdminProducts.ListingSpec) |
| AdminProducts.NewProduct | components/admin-product-management.jsx:81-93 | the product built by Add (definition; stated by AdminProducts.NewProductSpec) |
| AdminProducts.UpdatedProduct | components/admin-product-management.jsx:123-132 | the edited product: the old one overlaid with the parsed form (definition; its round trip with EditForm is AdminProducts.EditSaveRoundTrip) |
| AdminProducts.EditForm | components/admin-product-management.jsx:108-119 | the form filled from a product (definition; its round trip with UpdatedProduct is AdminProducts.EditSaveRoundTrip) |
| AdminProducts.ProductManager.constructor | components/admin-product-management.jsx:56-72 | the table starts with the initial products, no search, category "all", no dialog, nothing being edited and an empty form |
| AdminProducts.ProductManager.HandleAddProduct | components/admin-product-management.jsx:81-106 | the state becomes the add transition of the old state |
| AdminProducts.ProductManager.HandleEditProduct | components/admin-product-management.jsx:108-120 | the state becomes the edit transition (form filled from the product) |
| AdminProducts.ProductManager.HandleUpdateProduct | components/admin-product-management.jsx:122-146 | the state becomes the update transition of the old state |
| AdminProducts.ProductManager.Commit | components/admin-product-management.jsx:134-145 | the three state updates of the save: replace by id, clear the editing product, reset the form |
| AdminProducts.ProductManager.HandleDeleteProduct | components/admin-product-management.jsx:148-150 | the state becomes the delete transition of the old state |
| AdminOrders.WithStatus | components/admin-order-management.jsx:96-98 | the update keeps the length and order, changes only the status field, and only of orders with the given id |
| AdminOrders.StatusColor | components/admin-order-management.jsx:79-94 | completed green, processing blue, shipped purple, pending yellow, cancelled red; the gray default exactly for every other status |
| AdminOrders.ListingSpec | components/admin-order-management.jsx:70-77 | an order is listed iff its id, customer or email contains the term case-insensitively and the filter is "all" or its status; order is kept |
| AdminOrders.Listing | components/admin-order-management.jsx:70-77 | the filter of the table (definition; stated by AdminOrders.ListingSpec) |
| AdminOrders.PickerOptionsSpec | components/admin-order-management.jsx:187-193 | the row picker offers every status except "all", in the source's order |
| AdminOrders.UnknownIdNoChange | components/admin-order-management.jsx:97 | an unknown order id leaves the orders unchanged |
| AdminOrders.ChangedOrderListed | components/admin-order-management.jsx:70-98 | an order that matches the search term is listed under the status it was just given |
| AdminOrders.OrderManager.constructor | components/admin-order-management.jsx:63-66 | the table starts with the initial orders, no search, filter "all", no order selected |
| AdminOrders.OrderManager.UpdateOrderStatus | components/admin-order-management.jsx:96-98 | the orders become the status update of the old orders; nothing else changes |
| AdminUsers.WithStatus | components/admin-user-management.jsx:75-77 | the update keeps length and order and changes only the status of users with that id |
| AdminUsers.Toggled | components/admin-user-management.jsx:263 | the toggle sends "inactive" iff the status is "active", and "active" otherwise, "banned" included |
| AdminUsers.StatusColor | components/admin-user-management.jsx:62-73 | unknown statuses get the gray default |
| AdminUsers.ListingSpec | components/admin-user-management.jsx:54-60 | a user is listed iff the name or email contains the term case-insensitively and the filter is "all" or the status; order is kept |
| AdminUsers.Listing | components/admin-user-management.jsx:54-60 | the filter of the table (definition; stated by AdminUsers.ListingSpec) |
| AdminUsers.ToggleTwice | components/admin-user-management.jsx:263 | two toggles restore "active" and "inactive"; any other status ends "inactive" |
| AdminUsers.ToggleTwiceInTable | components/admin-user-management.jsx:236-263 | toggling an active or inactive user twice in the table restores the table |
| AdminUsers.HeadsOfWords | components/admin-user-management.jsx:149-152 | for non-empty words the initials are the first character of each word, in order |
| AdminUsers.InitialsOfWords | components/admin-user-management.jsx:149-152 | the initials of non-empty words joined by spaces are their first characters |
| AdminUsers.InitialsExample | components/admin-user-management.jsx:149-152 | "John Doe" gives "JD" |
| AdminUsers.Initials | components/admin-user-management.jsx:149-152 | the avatar initials (definition; stated by AdminUsers.InitialsOfWords) |
| AdminUsers.UserManager.constructor | components/admin-user-management.jsx:47-50 | the table starts with the initial users, no search, filter "all", no user selected |
| AdminUsers.UserManager.UpdateUserStatus | components/admin-user-management.jsx:75-77 | the users become the status update of the old users; nothing else changes |
| AdminUsers.UserManager.ToggleStatus | components/admin-user-management.jsx:263 | the row button sends the toggled status for that user |
| AuthModal.Validate | components/auth-modal.jsx:60-69 | the successive field checks build exactly the error map of the signup form |
| AuthModal.SignupErrorsSpec | components/auth-modal.jsx:62-69 | each of first name, last name and email has an error iff empty, the password iff shorter than 6 (the length message overwriting "required"), the confirmation iff it differs |
| AuthModal.SignupErrors | components/auth-modal.jsx:61-69 | the error map of the signup form (definition; stated by AuthModal.SignupErrorsSpec and AuthModal.SignupErrorsEmpty) |
| AuthModal.SignupErrorsEmpty | components/auth-modal.jsx:71-76 | the error map is empty iff the form is valid, the condition for calling `signup` |
| AuthModal.EmptySignupErrors | components/auth-modal.jsx:62-69 | an empty form has errors on first name, last name, email and password only |
| AuthModal.PasswordChecks | components/auth-modal.jsx:65-66 | the two password checks in sequence leave the length message whenever the password is short |
| AuthModal.ErrorsOverAdd | components/auth-modal.jsx:61-69 | checking one more field adds exactly that field's error |
| AuthModal.Modal.constructor | components/auth-modal.jsx:15-36 | closed, empty login and signup forms, no errors |
| AuthModal.Modal.HandleLogin | components/auth-modal.jsx:38-54 | an empty field sets "Please fill in all fields" and never logs in; otherwise `login` runs and (the mock accepting any non-empty pair) succeeds, the modal closes and the login form clears |
| AuthModal.Modal.HandleSignup | components/auth-modal.jsx:56-89 | an invalid form sets the errors and never signs up; a valid one signs up, closes the modal and resets the form |
| Checkout.NextStep | app/checkout/page.jsx:77-81 | Next advances only below step 3 |
| Checkout.PrevStep | app/checkout/page.jsx:83-87 | Previous goes back only above step 1 |
| Checkout.StepBounds | app/checkout/page.jsx:77-87 | both moves stay in 1..3 and undo each other inside the range |
| Checkout.WalkStaysInRange | app/checkout/page.jsx:77-87 | any sequence of Next/Previous presses from a step in 1..3 stays in 1..3 |
| Checkout.ShippingCost | app/checkout/page.jsx:73 | 15.99 iff "express", 25.99 iff "overnight", 9.99 for anything else |
| Checkout.TotalsSpec | app/checkout/page.jsx:72-75 | total is subtotal plus 8% tax plus shipping, at least subtotal plus shipping, and shipping is at least 9.99 |
| Checkout.OrderTotal | app/checkout/page.jsx:72-75 | subtotal plus shipping plus tax (definition; stated by Checkout.TotalsSpec) |
| Checkout.MaskCard | app/checkout/page.jsx:100 | the mask is "**** **** **** " followed by the last four characters (fewer if the number is shorter) |
| Checkout.MaskCardExample | app/checkout/page.jsx:419 | "4111111111111234" masks to "**** **** **** 1234" |
| Checkout.OrderSpec | app/checkout/page.jsx:89-108 | the order's id starts "ORD-", `shipping` is the shipping cost (the later key wins over the address), the items and subtotal are the cart's, tax is 8%, the total adds up, status is "confirmed" and only the card number of the payment is masked |
| Checkout.BuildOrder | app/checkout/page.jsx:89-108 | the order object of `handlePlaceOrder` (definition; stated by Checkout.OrderSpec) |
| Checkout.ViewFor | app/checkout/page.jsx:115-117 | an empty cart renders the redirect to the cart and nothing else |
| Checkout.ShippingFrom | app/checkout/page.jsx:33-44 | each shipping field is the user's text or ""; apartment and state start empty; the country is never blank, defaulting to "United States"; with no user every field is blank but the country |
| Checkout.CheckoutPage.constructor | app/checkout/page.jsx:29-56 | step 1, not processing, "standard" shipping, the shipping form filled from the user, empty payment form with billing "same" |
| Checkout.CheckoutPage.HandleNextStep | app/checkout/page.jsx:77-81 | the step becomes NextStep of the old step; the step stays in 1..3 |
| Checkout.CheckoutPage.HandlePrevStep | app/checkout/page.jsx:83-87 | the step becomes PrevStep of the old step; the step stays in 1..3 |
| Checkout.CheckoutPage.HandlePlaceOrder | app/checkout/page.jsx:89-113 | processing starts, the order is built from the cart before it is cleared, and the cart is empty afterwards |
| CartPage.Shipping | app/cart/page.jsx:22 | corrected rule: shipping is 0 or 9.99; an empty cart pays 0; a non-empty cart ships free iff its total is >= 75 |
| CartPage.ShippingAsWritten | app/cart/page.jsx:22 | as written: shipping is 0 or 9.99; an empty cart pays 0; a non-empty cart ships free iff its total is > 75 |
| CartPage.SummarySpec | app/cart/page.jsx:22-24 | corrected rule: an empty cart has shipping and total 0; the total is the cart total plus 8% tax plus shipping |
| CartPage.SummaryAsWritten | app/cart/page.jsx:22-24 | as written: an empty cart has shipping and total 0; the total is the cart total plus 8% tax plus the as-written shipping |
| CartPage.SummariesAtThreshold | app/cart/page.jsx:22-24 | the two totals differ iff the cart is non-empty and totals exactly 75, where the source bills 90.99 and the corrected rule 81.00 |
| CartPage.PageTotalAsWritten | app/cart/page.jsx:24 | the order total as written (definition; stated by CartPage.SummaryAsWritten) |
| CartPage.PageTotal | app/cart/page.jsx:24 | corrected rule: the order total (definition; stated by CartPage.SummarySpec) |
| CartPage.HintShown | app/cart/page.jsx:156 | the free-shipping hint condition (definition; stated by CartPage.HintMatchesShipping and CartPage.SeventyFiveIsChargedWithoutHint) |
| CartPage.HintMatchesShipping | app/cart/page.jsx:156-160 | corrected rule: a non-empty cart shows the hint iff shipping is charged, and the amount it names is positive and reaches 75 |
| CartPage.SeventyFiveIsChargedWithoutHint | app/cart/page.jsx:22 | as written, a cart totalling exactly 75 is charged 9.99 yet shows no hint |
| CartPage.ShippingDiffersOnlyAtThreshold | app/cart/page.jsx:22 | the as-written and corrected shipping differ iff the cart is non-empty and totals exactly 75 |
| CartPage.MinusRequest | app/cart/page.jsx:80-84 | minus is disabled iff the quantity is at most 1, otherwise it requests quantity - 1 |
| CartPage.MinusKeepsLine | app/cart/page.jsx:80-84 | an enabled minus lowers that line by one and keeps it in the cart |
| CartPage.PlusRaisesByOne | app/cart/page.jsx:89-91 | plus raises that line by one and keeps the number of lines |
| QuickAdd.ColorClass | components/product-quick-add.jsx:33-46 | a mapped colour gets its class; every other colour gets "bg-gray-300" |
| QuickAdd.ColorClassSpec | components/product-quick-add.jsx:33-46 | nine colours are mapped; "navy" and "floral" get their classes, "red" the default |
| QuickAdd.Decrement | components/product-quick-add.jsx:114 | the stepper never goes below 1 and otherwise lowers by one |
| QuickAdd.StepperSpec | components/product-quick-add.jsx:114-122 | decrement is `max(1, q - 1)` and undoes an increment |
| QuickAdd.QuickAddDialog.constructor | components/product-quick-add.jsx:11-15 | closed, nothing selected, quantity 1, not added |
| QuickAdd.QuickAddDialog.DecrementQuantity | components/product-quick-add.jsx:114 | the quantity becomes the decremented one and stays at least 1 |
| QuickAdd.QuickAddDialog.IncrementQuantity | components/product-quick-add.jsx:122 | the quantity rises by exactly 1 |
| QuickAdd.QuickAddDialog.HandleAddToCart | components/product-quick-add.jsx:17-22 | with a size or colour missing nothing happens; otherwise `addItem` runs with the product, quantity, size and colour and the dialog shows "added" |
| QuickAdd.QuickAddDialog.FinishAdd | components/product-quick-add.jsx:24-30 | after the delay the dialog closes and resets to no size, no colour, quantity 1 |
| ProductCard.DirectEntry | components/product-card.jsx:19-29 | the direct add carries id, name, price, the first image, size and colour (absent for empty lists) and quantity 1 |
| ProductCard.Stars | components/product-card.jsx:66-72 | five stars, star i filled iff i < floor(rating) |
| ProductCard.StarsFillFromLeft | components/product-card.jsx:129-135 | for a rating in [0, 5] the filled stars are a prefix of floor(rating) stars |
| ProductCard.StarsExample | components/product-card.jsx:66-72 | a 4.5 rating fills four stars |
| ProductCard.SingleChoiceAddsDirectly | components/product-card.jsx:16-29 | a product with one size and one colour is added directly with those |
| ProductCard.NeedsChooser | components/product-card.jsx:17 | more than one size or colour (definition; stated by ProductCard.Card.HandleQuickAdd) |
| ProductCard.SaleBadge | components/product-card.jsx:116 | the truthiness of `originalPrice` (definition; see Left out) |
| ProductCard.Card.constructor | components/product-card.jsx:12-13 | not wishlisted, chooser closed |
| ProductCard.Card.ToggleWishlist | components/product-card.jsx:53 | the heart flips `isWishlisted` |
| ProductCard.Card.HandleQuickAdd | components/product-card.jsx:16-30 | with more than one size or colour it sets `showQuickAdd` and leaves the cart alone; otherwise the item is added directly and `showQuickAdd` is unchanged |
| Wishlist.CartPayload | app/wishlist/page.jsx:58-68 | the cart entry carries the item's id, name, price and image, its first size and colour, and quantity 1 |
| Wishlist.CountLabel | app/wishlist/page.jsx:98 | "item" iff exactly one, "items" otherwise |
| Wishlist.ViewFor | app/wishlist/page.jsx:70-104 | signed-out visitors get the sign-in prompt; an empty list the empty view |
| Wishlist.WithoutSpec | app/wishlist/page.jsx:54-56 | removal keeps, in order, exactly the items with another id; an unknown id changes nothing |
| Wishlist.Without | app/wishlist/page.jsx:54-56 | the list without an id (definition; stated by Wishlist.WithoutSpec) |
| Wishlist.WithoutTwice | app/wishlist/page.jsx:54-56 | removing the same id twice is removing it once |
| Wishlist.WishlistPage.constructor | app/wishlist/page.jsx:52 | the page starts with the saved items |
| Wishlist.WishlistPage.RemoveFromWishlist | app/wishlist/page.jsx:54-56 | the items become the old items without that id |
| Wishlist.WishlistPage.PressAddToCart | app/wishlist/page.jsx:58-68 | an out-of-stock item (disabled button) leaves the cart unchanged; an in-stock one is added with its payload |
| Featured.Toggled | components/featured-products.jsx:70-78 | the toggled id's membership flips and every other id's is unchanged |
| Featured.ToggleTwice | components/featured-products.jsx:70-78 | toggling the same id twice restores the set |
| Featured.TogglesCommute | components/featured-products.jsx:70-78 | toggles of two ids commute |
| Featured.ToggleExample | components/featured-products.jsx:70-78 | toggling 1 then 2 from empty gives {1, 2}; toggling 1 then 3 from {1, 2} gives {2, 3} |
| Featured.IdSet.constructor | components/featured-products.jsx:71 | `new Set(wishlist)` copies the elements |
| Featured.IdSet.Add | components/featured-products.jsx:75 | `add` inserts the id |
| Featured.IdSet.Delete | components/featured-products.jsx:73 | `delete` removes the id |
| Featured.FeaturedProducts.constructor | components/featured-products.jsx:68 | the heart set starts empty |
| Featured.FeaturedProducts.ToggleWishlist | components/featured-products.jsx:70-78 | a fresh copy is changed in place and stored; its elements are the toggle of the old ones |
| Collections.Tabs | app/collections/page.jsx:13-18 | "All Items" counts every product; each category tab counts its category's products |
| Collections.ShownSpec | app/collections/page.jsx:20-21 | "all" shows the catalog unchanged; another tab shows exactly its category's products in catalog order |
| Collections.Shown | app/collections/page.jsx:20-21 | the products of the selected tab (definition; stated by Collections.ShownSpec) |
| Collections.CountsPartition | app/collections/page.jsx:13-18 | when every product is in one of the three categories, the three counts add up to the "All Items" count |
| Collections.UnknownCategoryOnlyInAll | app/collections/page.jsx:13-18 | a product of another category raises only the "All Items" count |
| Lookbook.Prices | app/lookbook/page.jsx:128 | each piece's value is `parseInt` of its price without the first character |
| Lookbook.NaNSum | app/lookbook/page.jsx:128 | the `reduce` from 0 is a number iff every parsed price is one |
| Lookbook.PriceTextValue | app/lookbook/page.jsx:128 | a price written "$" followed by an amount reads back as that amount |
| Lookbook.LookTotalSpec | app/lookbook/page.jsx:128 | a look's total is a number iff every price parses, and totals add over a split of the pieces |
| Lookbook.LookTotal | app/lookbook/page.jsx:128 | the button total (definition; stated by Lookbook.LookTotalSpec) |
| Lookbook.NaNSumAppend | app/lookbook/page.jsx:128 | the `reduce` splits over any division of the values |
| Lookbook.NaNSumOfNumbers | app/lookbook/page.jsx:128 | when every value is a number the `reduce` is their sum |
| Lookbook.LookTotalOfPrices | app/lookbook/page.jsx:128 | prices written as "$" and amounts total the sum of the amounts |
| Lookbook.UrbanChicPrices | app/lookbook/page.jsx:16-18 | "$89", "$65" and "$120" parse to 89, 65 and 120 |
| Lookbook.UrbanChicTotal | app/lookbook/page.jsx:16-18 | any three-piece look priced like "Urban Chic" totals 274 |
| Lookbook.UrbanChicButton | app/lookbook/page.jsx:128 | the "Urban Chic" button shows 274 |
| AdminPage.Gate | app/admin/page.jsx:49-65 | the dashboard renders iff the user is authenticated and an admin |
| AdminPage.GateSpec | app/admin/page.jsx:47-65 | signed out or with no user, access is denied; after a logout, always |
| AdminPage.IsAdmin | app/admin/page.jsx:47 | the admin test (definition; stated by AdminPage.Gate, AdminPage.AdminEmailLogin and AdminPage.AdminNameSignup) |
| AdminPage.AdminEmailLogin | app/admin/page.jsx:47 | a successful login with an email containing "admin" opens the dashboard |
| AdminPage.CapitalAdminLogin | app/admin/page.jsx:47 | a login as "Admin@..." opens it through the first-name test |
| AdminPage.EmailTestIsCaseSensitive | app/admin/page.jsx:47 | an email with no lower-case "a" (such as "Admin@shop.com") fails the email test, so the user is no admin unless named "Admin" |
| AdminPage.NoLowerANoAdmin | app/admin/page.jsx:47 | text without a lower-case "a" never contains "admin" |
| AdminPage.AdminNameSignup | app/admin/page.jsx:47 | signing up with first name "Admin" opens the dashboard whatever the email |
| AdminPage.StatusColor | app/admin/page.jsx:74-87 | completed, processing, shipped and pending get their classes, anything else gray |
| AdminPage.TrendOf | app/admin/page.jsx:120-124 | the marker points up iff the change is > 0 |
| AdminPage.TrendClass | app/admin/page.jsx:147-151 | the figure is green iff the marker points up, red iff down |
| AdminPage.Magnitude | app/admin/page.jsx:128 | the figure shown is the absolute value of the change |
| AdminPage.TrendSpec | app/admin/page.jsx:120-128 | no change or a fall shows the red downward marker; 12.5 is up, -2.3 down with figure 2.3 |
| Profile.ViewFor | app/profile/page.jsx:135-148 | only authenticated users see the account; others see the sign-in prompt |
| Profile.Notifications | app/profile/page.jsx:131 | corrected: the stored notifications flag when there is one, on otherwise |
| Profile.NotificationsAsWritten | app/profile/page.jsx:131 | as written: `stored \|\| true` (definition; stated by Profile.NotificationsIgnoreStoredFalse) |
| Profile.InitialPreferences | app/profile/page.jsx:129-133 | newsletter and marketing are on iff stored as true (off when absent); notifications as corrected |
| Profile.NotificationsIgnoreStoredFalse | app/profile/page.jsx:131 | as written the switch starts on for every user, while a stored false gives off when corrected |
| Profile.SavedNotificationsOffComeBackOn | app/profile/page.jsx:131 | as written, a saved "notifications off" comes back on; corrected, it stays off |
| Profile.SaveThenCancel | app/profile/page.jsx:150-170 | after a save, cancel refills the form with exactly what was saved |
| Profile.SavedPreferencesRoundTrip | app/profile/page.jsx:129-156 | the saved preferences come back as the initial switches (with the corrected default) |
| Profile.SavedSwitchesRoundTrip | app/profile/page.jsx:530 | corrected rule: saving the preferences tab alone brings the switches back and keeps the stored form fields |
| Profile.Defaults | app/profile/page.jsx:118-133 | with no user the form is blank, newsletter and marketing are off, notifications on |
| Profile.FormFrom | app/profile/page.jsx:118-127 | the form filled from the user, "" for a missing field (definition; stated by Profile.Defaults and Profile.SaveThenCancel) |
| Profile.SaveUpdates | app/profile/page.jsx:150-156 | the UPDATE_PROFILE payload: the form fields and the preferences (definition; stated by Profile.SaveThenCancel and Profile.SavedPreferencesRoundTrip) |
| Profile.WithField | app/profile/page.jsx:328-361 | an input changes its own field and no other |
| Profile.WithPreference | app/profile/page.jsx:488-519 | a switch changes its own preference and no other |
| Profile.StatusColor | app/profile/page.jsx:172-185 | delivered, shipped, processing and cancelled get their classes, anything else gray |
| Profile.ProfilePage.constructor | app/profile/page.jsx:117-133 | corrected rule: not editing, form filled from the user, initial switches with the stored notifications flag |
| Profile.ProfilePage.Edit | app/profile/page.jsx:328-361 | while editing, the form becomes the old form with that field set; outside editing the inputs are disabled and nothing changes |
| Profile.ProfilePage.SetPreference | app/profile/page.jsx:488-519 | the switches become the old ones with that switch set |
| Profile.ProfilePage.SavePreferences | app/profile/page.jsx:530 | the store gets UPDATE_PROFILE with only the preferences |
| Profile.ProfilePage.StartEditing | app/profile/page.jsx:315 | pressed while not editing, the button opens editing and changes nothing else |
| Profile.ProfilePage.HandleSave | app/profile/page.jsx:150-156 | the store gets UPDATE_PROFILE with the form fields and the preferences, and editing ends |
| Profile.ProfilePage.PressProfileButton | app/profile/page.jsx:314-320 | the header button saves (UPDATE_PROFILE of form and preferences) while editing and only opens editing otherwise; either way it flips `isEditing` and keeps form and switches |
| Profile.ProfilePage.HandleCancel | app/profile/page.jsx:158-170 | the form is refilled from the stored user and editing ends; the switches stay |

## Left out

- Persistence: `localStorage` and JSON (de)serialisation of the cart and the user are
  browser I/O. Restoring is modelled as the LOAD_CART dispatch (`Cart.CartStore.LoadCart`)
  and as `Auth.AuthStore.Restore` of an optional saved user. Writing back is not modelled.
- Clocks and timers: `Date.now()`, `new Date().toISOString()` and the time-based ids
  are parameters (`stamp`, `now`, `date`). The awaited delays of login, signup,
  checkout and quick-add are left out, and each handler runs to completion in one step.
- Routing (`router.push`, links) and presentation markup are left out. The checkout
  redirect is the `RedirectToCart` view.
- Floating point and `Intl.NumberFormat`: prices are exact `real`s, and currency
  display strings are not modelled. `Number.prototype.toString` is a parameter
  `show`. The edit-form round trips take, per stored price, the hypothesis that
  `show` writes it as text `parseFloat` reads back. That hypothesis is proved for
  whole non-negative prices (`AdminProducts.WholePriceShownBack`). It is not proved
  for prices with cents, whose shortest decimal text is not modelled.
- `parseInt` and `parseFloat` are modelled for optional blanks, an optional sign, and
  decimal digits with an optional fraction. Hexadecimal, exponents and "Infinity" are
  left out.
- Lower-casing is ASCII only. Unicode case mapping is left out.
- Text.Trim and Text.TrimStart strip ASCII white space only (space, tab, line feed,
  vertical tab, form feed, carriage return). JavaScript's `trim` also strips U+00A0,
  U+FEFF, U+2028, U+2029 and the other space separators. The colour and size lists of
  the product form and the leading blanks of `parseInt`/`parseFloat` differ on those.
- Strings are sequences of characters, not of UTF-16 code units. `.length`,
  `slice(-4)` and `n[0]` count code units in JavaScript. So the password length check
  (`AuthModal.Fails`), the card mask (`Checkout.MaskCard`) and the avatar initials
  (`AdminUsers.Initials`) differ from the source on characters outside the Basic
  Multilingual Plane.
- `Math.random` and the catalog module `@/data/products` are left out. The catalog
  is an input sequence.
- The average order value of the user table is left out, because it is a float
  division by a possibly zero order count.
- Cart.CartStore.AddItem: the promise that the cart stays well-formed assumes the
  caller's stamp is a fresh cartId. The source takes `Date.now()` and does not
  check it.
- Cart.CartStore.AddToCart: the same freshness hypothesis.
- CartPage.Shipping: uses the corrected `>= 75` threshold, which the hint announces.
  The source's `> 75` rule is `CartPage.ShippingAsWritten`. The two differ only for a
  non-empty cart totalling exactly 75, which the source charges 9.99.
- CartPage.SummarySpec: states the total under the corrected shipping rule. At a cart
  total of exactly 75 the source bills 90.99, not 81.00. The as-written total is
  stated by `CartPage.SummaryAsWritten`, and the difference by
  `CartPage.SummariesAtThreshold`.
- CartPage.HintMatchesShipping: holds for the corrected rule only. As written, a
  total of exactly 75 is charged without a hint (`CartPage.SeventyFiveIsChargedWithoutHint`).
- Profile.ProfilePage.constructor: starts the notifications switch from the stored
  flag (corrected). As written, the switch always starts on
  (`Profile.NotificationsAsWritten`, `Profile.NotificationsIgnoreStoredFalse`).
- Profile.SavedSwitchesRoundTrip: holds for the corrected notifications default. As
  written, a saved "off" comes back on (`Profile.SavedNotificationsOffComeBackOn`).
- ProductCard.Card.HandleQuickAdd: the model stops at setting `showQuickAdd`. The
  card passes `isOpen` and `onClose` to the chooser, but the chooser does not read
  them. It opens only from its own trigger, which the card gives no child, so the
  mounted chooser starts closed (`QuickAdd.QuickAddDialog.constructor`). Nothing
  resets `showQuickAdd`.
- ProductCard.SaleBadge: models the source's truthiness test on `originalPrice`. A
  zero original price therefore shows no badge, and no lemma states more.
- Auth.User: user fields are a `map<string, Value>`.
  - A non-text email fails the admin email test (`AdminPage.EmailMentionsAdmin`).
  - A non-text form field reads as "" (`Profile.TextField`).
  - JavaScript would call `includes` on it, or show it.
- QuickAdd.ColorClass: a colour named like an `Object.prototype` member (for example
  "toString") is treated as unmapped. JavaScript would return that member.

## Findings

| source | as written | input that shows it | evidently intended | confidence | as-written member | corrected member |
|---|---|---|---|---|---|---|
| app/cart/page.jsx:22 | shipping is free only when the cart total is `> 75`, while the hint at lines 156-160 is hidden once the total is not `< 75` | a cart totalling exactly 75.00 is charged 9.99 and shows no "Add … more for free shipping!" hint | free shipping from 75 on (`>= 75`), matching the hint | not executed | CartPage.SeventyFiveIsChargedWithoutHint | CartPage.HintMatchesShipping |
| app/profile/page.jsx:131 | `notifications: user?.preferences?.notifications \|\| true` is true for every user | a user who saved notifications off (`false`) sees the switch on again at the next visit | the stored flag, defaulting to on only when absent (`?? true`) | not executed | Profile.SavedNotificationsOffComeBackOn | Profile.SavedPreferencesRoundTrip |
