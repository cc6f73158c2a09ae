# The Griller storefront, modelled in Dafny

This project models the logic of a small React restaurant storefront. That logic sits underneath the rendering and the HTTP calls:

- **The shared store.** It holds the menu, the cart, the orders, the reservations and the signed-in user.
- **The menu-row mapper.** It turns database rows into menu items, with a variant used by the admin menu editor.
- **Cart and checkout money.** The subtotal, 10 % tax, the delivery fee and the totals.
- **Every view's filters and list updates.** This covers:
  - the menu page;
  - the item detail page;
  - the home page's featured dishes;
  - order tracking;
  - the staff order and reservation screens;
  - the admin dashboard, menu editor and user list.
- **The shared layout.** The navigation it shows and the cart badge count.
- **The hash router.**

Modules, one per source file plus three helpers:

- `Wrappers` holds `Option`, `Choice` and `Outcome`.
- `Seqs` holds `filter`, `map`, `slice` and subsequences.
- `Text` models the JavaScript string operations the views use: `split`, `join`, `trim`, `includes`, ASCII `toLowerCase`, `String`/`Number` of integers and a decimal `parseFloat`.
- `MenuItems` covers `src/Services/menuApi.ts` and the six copies of the row mapper.
- `AppContext` covers `src/context/AppContext.tsx`.
  - Its store is the class `AppStore`, with one `seq` field per list.
  - Each mutating callback is a method whose new state is given by a pure function.
  - The lemmas about those functions carry the cart invariants: distinct ids and quantities of at least 1.
- The remaining modules are `Money`, `CartPage`, `CheckoutPage`, `MenuPage`, `MenuItemDetail`, `HomePage`, `OrderTracking`, `StaffOrders`, `StaffReservations`, `UserManagement`, `MenuManagement`, `AdminDashboard`, `Layout` and `Routes`.
  - Views whose state changes step by step are classes: `Checkout`, `ItemDetail`, `UserAdmin` and `MenuAdmin`.
  - Buttons that call the store are methods on an `AppStore`.

Some inputs are parameters of the methods that consume them:

- server answers, as the parsed rows or `None`/`Failure` for a failed request;
- the result of a confirmation dialog;
- generated ids and the current time.

## Model

| member | source | states |
|---|---|---|
| MenuItems.CleanTokens | src/Services/menuApi.ts:35 | every kept allergen token is non-empty and has no whitespace at either end (exactly which tokens, in what order, is stated by CleanTokensIsFilter) |
| MenuItems.CleanTokensKeep | src/Services/menuApi.ts:35 | every comma piece that is not all whitespace survives, trimmed: only blank pieces are dropped |
| MenuItems.CleanTokensAvoid | src/Services/menuApi.ts:35 | trimming and dropping blanks introduces no character that the pieces did not contain |
| MenuItems.CleanTokensSound | src/Services/menuApi.ts:35 | the kept tokens appear in piece order among the trimmed pieces: a subsequence of the pieces mapped through trim |
| MenuItems.CleanTokensIsFilter | src/Services/menuApi.ts:35 | the cleaned list is exactly the pieces mapped through trim, then filtered to the non-empty ones: `.map(trim).filter(Boolean)`, repeats included |
| MenuItems.CleanTokensFrom | src/Services/menuApi.ts:35 | every kept token is the trim of some piece: nothing is invented |
| MenuItems.ParseAllergens | src/Services/menuApi.ts:34-36 | a null or empty allergen field gives `[]`; otherwise every token is non-empty, trimmed and free of commas |
| MenuItems.ParseAllergensComplete | src/Services/menuApi.ts:34-36 | every non-blank comma-separated piece of the field appears, trimmed, in the parsed list |
| MenuItems.ParseAllergensSound | src/Services/menuApi.ts:34-36 | the parsed list is taken in order from the field's comma pieces, trimmed, and every entry is the trim of one of them |
| MenuItems.SplitAllergens | src/components/admin/MenuManagement.tsx:37 | the admin copy: null or empty gives `[]`; otherwise the pieces joined with `,` give back the field (no trimming, no dropping) |
| MenuItems.AllergenCopiesAgree | src/context/AppContext.tsx:36-38 | the trimmed list is exactly the admin copy's pieces, trimmed, with the blank ones dropped |
| MenuItems.MapApiToMenuItem | src/Services/menuApi.ts:23-46 | the item id reads back as the row's numeric id; allergen tokens are clean; reviews are empty |
| MenuItems.MapperDefaults | src/Services/menuApi.ts:27-41 | a null description becomes `""`; null calories become 0 and null protein/carbs/fat become `"0g"`; present description, calories, protein, carbs and fat are copied; 0/1 flags become false/true |
| MenuItems.MapApiToMenuItemAdmin | src/components/admin/MenuManagement.tsx:26-46 | the admin mapper is the shared mapper with the allergens only split, not trimmed |
| MenuItems.MapRows | src/Services/menuApi.ts:56 | one item per row, in row order, each the mapped row |
| MenuItems.MappedIdsDistinct | src/Services/menuApi.ts:25 | rows with distinct numeric ids map to items with distinct string ids |
| MenuItems.PriceTextAndNumberAgree | src/Services/menuApi.ts:28 | a price sent as the text `"12.50"` and one sent as the number 12.5 map to the same price |
| MenuItems.AllergenExample | src/components/home/HomePage.tsx:36-41 | `"Gluten, Dairy"` parses to `["Gluten", "Dairy"]` |
| MenuItems.AdminAllergenExample | src/components/admin/MenuManagement.tsx:37 | the admin copy turns `"Gluten, Dairy"` into `["Gluten", " Dairy"]` |
| Text.Split | src/Services/menuApi.ts:35 | at least one piece; the pieces joined with the separator give back the text; one piece exactly when the separator is absent; the first piece is the text before the first separator |
| Text.SplitJoin | src/Services/menuApi.ts:35 | splitting on a character undoes joining pieces that do not contain it |
| Text.Trim | src/Services/menuApi.ts:35 | the result is empty exactly when the text is all whitespace, and otherwise starts and ends with a non-space |
| Text.TrimPadded | src/Services/menuApi.ts:35 | trimming removes exactly the whitespace padded around a trimmed string |
| Text.IntToStringRoundTrip | src/Services/menuApi.ts:25 | `Number(String(n)) == n` for every integer id |
| Text.IntToStringInjective | src/Services/menuApi.ts:25 | distinct integers have distinct decimal texts |
| Text.ParseFloatOfNat | src/Services/menuApi.ts:28 | `parseFloat` of a whole number's decimal text gives that number |
| Text.ParseFloatDecimal | src/Services/menuApi.ts:28 | `parseFloat` of `whole.digits` gives the whole number plus the digits' value over the matching power of ten |
| Text.IncludesIffOccurs | src/components/menu/MenuPage.tsx:90-91 | `includes` holds exactly when the pattern occurs at some position |
| AppContext.CartAdd | src/context/AppContext.tsx:152-158 | the added item is in the cart afterwards; the length grows by one exactly when its id was absent |
| AppContext.AddToCartExisting | src/context/AppContext.tsx:154-155 | on an id already in a valid cart, only that line changes, and its quantity rises by exactly 1 |
| AppContext.AddToCartNew | src/context/AppContext.tsx:156 | on a new id, one line with quantity 1 is appended and the prefix is untouched |
| AppContext.AddToCartValid | src/context/AppContext.tsx:152-158 | adding keeps ids distinct and every quantity at least 1 |
| AppContext.AddToCartQuantity | src/context/AppContext.tsx:152-158 | adding raises the added item's total quantity by 1 and leaves every other id's quantity alone |
| AppContext.QuantityOfLine | src/context/AppContext.tsx:151 | in a valid cart, an id's total quantity is the quantity on its one line |
| AppContext.QuantityOfAbsent | src/context/AppContext.tsx:151 | an id with no line has total quantity 0 |
| AppContext.AddToCartRepeated | src/components/menu/MenuItemDetail.tsx:104 | adding the same item n times keeps the cart valid and raises its quantity by n |
| AppContext.CartRemove | src/context/AppContext.tsx:160-161 | the removed id is gone afterwards and the cart does not grow |
| AppContext.RemoveFromCartExisting | src/context/AppContext.tsx:160-161 | in a valid cart, removing a line's id drops exactly that line and keeps the others in order |
| AppContext.RemoveFromCartAbsent | src/context/AppContext.tsx:160-161 | removing an absent id changes nothing |
| AppContext.RemoveFromCartValid | src/context/AppContext.tsx:160-161 | removing keeps the cart valid |
| AppContext.CartSetQuantity | src/context/AppContext.tsx:163-166 | a quantity of 0 or less removes the id; a positive one keeps the length and every line's item |
| AppContext.UpdateCartItemQuantityExisting | src/context/AppContext.tsx:163-166 | a positive quantity sets exactly that line's quantity; 0 or less removes exactly that line |
| AppContext.UpdateCartItemQuantityAbsent | src/context/AppContext.tsx:163-166 | setting the quantity of an absent id changes nothing |
| AppContext.UpdateCartItemQuantityValid | src/context/AppContext.tsx:163-166 | setting a quantity keeps the cart valid |
| AppContext.OrdersSetStatus | src/context/AppContext.tsx:177-178 | same length; only `status` can change; the orders with the id get the new status whatever it is, and the others keep theirs |
| AppContext.ReservationsSetStatus | src/context/AppContext.tsx:184-185 | the same for reservations: only `status` changes, on the matching ids, with no transition check |
| AppContext.UpdateOrderStatusLastWins | src/context/AppContext.tsx:177-178 | two status updates of one id leave the second status |
| AppContext.UpdateReservationStatusLastWins | src/context/AppContext.tsx:184-185 | the same for reservations |
| AppContext.UpdateOrderStatusAbsent | src/context/AppContext.tsx:177-178 | an update of an id no order has changes nothing |
| AppContext.NewReservation | src/context/AppContext.tsx:181-182 | a new reservation is pending and carries the supplied id |
| AppContext.CancelledThenConfirmed | src/context/AppContext.tsx:184-185 | a cancelled reservation can be set to confirmed again |
| AppContext.SessionUser | src/context/AppContext.tsx:225-231 | the kept user's id reads back as the numeric id; the phone is kept |
| AppContext.AppStore.constructor | src/context/AppContext.tsx:126-128 | empty lists, the menu loading with no error, the token and user as restored |
| AppContext.AppStore.SettleMenuFetch | src/context/AppContext.tsx:131-146 | the menu becomes the mapped rows, or the error is set and the menu kept; loading ends; nothing else changes |
| AppContext.AppStore.AddToCart | src/context/AppContext.tsx:152-158 | the cart becomes `CartAdd` of the old cart, stays valid, and the item's quantity rises by 1; nothing else changes |
| AppContext.AppStore.RemoveFromCart | src/context/AppContext.tsx:160-161 | the cart becomes `CartRemove` of the old one and stays valid; nothing else changes |
| AppContext.AppStore.UpdateCartItemQuantity | src/context/AppContext.tsx:163-166 | the cart becomes `CartSetQuantity` of the old one and stays valid; nothing else changes |
| AppContext.AppStore.ClearCart | src/context/AppContext.tsx:168 | the cart is empty whatever it held; nothing else changes |
| AppContext.AppStore.AddOrder | src/context/AppContext.tsx:174-175 | exactly one order is appended: the caller's fields plus the supplied id and time |
| AppContext.AppStore.UpdateOrderStatus | src/context/AppContext.tsx:177-178 | the orders become `OrdersSetStatus` of the old ones; nothing else changes |
| AppContext.AppStore.AddReservation | src/context/AppContext.tsx:181-182 | exactly one pending reservation is appended |
| AppContext.AppStore.UpdateReservationStatus | src/context/AppContext.tsx:184-185 | the reservations become `ReservationsSetStatus` of the old ones; nothing else changes |
| AppContext.AppStore.Login | src/context/AppContext.tsx:207-244 | success iff the server answered; then the user and token come from the answer; otherwise both are kept |
| AppContext.AppStore.Register | src/context/AppContext.tsx:253-290 | the same as login, for the registration answer |
| AppContext.AppStore.Logout | src/context/AppContext.tsx:246-251 | no user and no token afterwards; the lists are kept |
| Money.LineAmount | src/components/cart/CheckoutPage.tsx:16 | a line with a non-negative price and quantity costs a non-negative amount; Money.Subtotal is the sum of these amounts over the cart |
| Money.SubtotalNonNegative | src/components/cart/CheckoutPage.tsx:16 | non-negative prices and quantities give a non-negative Money.Subtotal (the cart's `reduce`) |
| Money.CheckoutTotalIsCartTotalPlusFee | src/components/cart/CheckoutPage.tsx:16-19 | Money.CartPageTotal is Money.Subtotal plus Money.Tax, i.e. × 1.1; Money.CheckoutTotal adds Money.DeliveryFee, 5 for delivery and 0 for collection |
| Money.SubtotalAppend | src/components/cart/CartPage.tsx:11 | Money.Subtotal of two carts end to end is the sum of their subtotals |
| Money.SubtotalReplaceLine | src/components/cart/CartPage.tsx:11 | replacing one line changes the subtotal by the difference of the two line amounts |
| Money.SubtotalAfterAddExisting | src/components/cart/CartPage.tsx:11 | adding an item already in the cart raises the subtotal by its price |
| Money.SubtotalAfterAddNew | src/components/cart/CartPage.tsx:11 | adding a new item raises the subtotal by its price |
| Money.SubtotalAfterRemove | src/components/cart/CartPage.tsx:11 | removing a line lowers the subtotal by that line's amount |
| Money.TotalsExample | src/components/cart/CheckoutPage.tsx:16-19 | two of a 10.00 item and one of a 5.00 item: subtotal 25, tax 2.5, cart total 27.5, delivery total 32.5, collection total 27.5 |
| CartPage.Trash | src/components/cart/CartPage.tsx:59 | the trash button drops exactly that line and keeps the cart valid; every other store field is unchanged |
| CartPage.Minus | src/components/cart/CartPage.tsx:69 | the minus button removes a line at quantity 1 and otherwise lowers only that line by 1; every other store field is unchanged |
| CartPage.Plus | src/components/cart/CartPage.tsx:76 | the plus button raises only that line by 1, the same as adding its item again; every other store field is unchanged |
| CartPage.MinusButton | src/components/cart/CartPage.tsx:69 | requesting quantity − 1 removes a line at 1 and decrements a line above 1 |
| CartPage.PlusButton | src/components/cart/CartPage.tsx:76 | requesting quantity + 1 changes that line only and agrees with `addToCart` |
| CheckoutPage.PageView | src/components/cart/CheckoutPage.tsx:39-44 | the page redirects, to `/cart`, exactly when the cart is empty and no order was placed; the confirmation shows exactly after placing |
| CheckoutPage.Draft | src/components/cart/CheckoutPage.tsx:24-33 | the order holds the cart and the checkout total, with status Ordered; the address only for delivery; "45-60 mins" for delivery and "20-30 mins" for collection |
| CheckoutPage.PlacedTotal | src/components/cart/CheckoutPage.tsx:19 | the placed total is the cart page total plus the delivery fee |
| CheckoutPage.Checkout.constructor | src/components/cart/CheckoutPage.tsx:9-14 | delivery by default; name and phone prefilled from the user, else empty |
| CheckoutPage.Checkout.PlaceOrder | src/components/cart/CheckoutPage.tsx:21-36 | exactly one order, built from the cart and the form, is appended; the cart is then empty and the confirmation shows; every other store field is unchanged |
| MenuPage.FilteredItems | src/components/menu/MenuPage.tsx:86-98 | the result is a subsequence of the menu, holds only shown items, and holds every shown item |
| MenuPage.InitialShowsAll | src/components/menu/MenuPage.tsx:51-57 | the initial filters show the whole menu in order |
| MenuPage.EnablingFilterNarrows | src/components/menu/MenuPage.tsx:92-95 | enabling dietary filters only removes items from the current result |
| MenuPage.HandleAddToCart | src/components/menu/MenuPage.tsx:100-103 | one click adds the item to the cart once; every other store field is unchanged |
| MenuItemDetail.FindRow | src/components/menu/MenuItemDetail.tsx:71 | the first row whose id text equals the requested id, or none when no row matches |
| MenuItemDetail.LoadItem | src/components/menu/MenuItemDetail.tsx:64-83 | a failed fetch gives the load error; no matching row gives "Item not found"; a loaded item has the requested id |
| MenuItemDetail.LoadItemFindsRow | src/components/menu/MenuItemDetail.tsx:71-76 | with distinct ids, asking for a row's id loads exactly that row, mapped |
| MenuItemDetail.ItemDetail.constructor | src/components/menu/MenuItemDetail.tsx:59 | the quantity starts at 1 |
| MenuItemDetail.ItemDetail.Minus | src/components/menu/MenuItemDetail.tsx:188 | the minus control lowers the quantity by 1 but never below 1 |
| MenuItemDetail.ItemDetail.Plus | src/components/menu/MenuItemDetail.tsx:197 | the plus control raises the quantity by exactly 1 |
| MenuItemDetail.ItemDetail.HandleAddToCart | src/components/menu/MenuItemDetail.tsx:103-107 | the item is added `quantity` times, so its cart quantity rises by `quantity`; the cart stays valid and every other store field is unchanged; the page returns to `/menu` |
| HomePage.FeaturedItems | src/components/home/HomePage.tsx:113-115 | a subsequence of the menu holding exactly the items with id 1, 3, 4 or 8 |
| HomePage.TodaysHighlight | src/components/home/HomePage.tsx:118 | the first featured item; otherwise the first menu item; nothing only for an empty menu |
| HomePage.HighlightFromMenu | src/components/home/HomePage.tsx:118 | the highlight is a menu item, and a featured one whenever any exists |
| HomePage.FeaturedCardsHidden | src/components/home/HomePage.tsx:363-377 | no featured cards while loading or after an error; shown once loaded cleanly |
| OrderTracking.UserOrders | src/components/customer/OrderTrackingPage.tsx:10-12 | logged out: every order; logged in: exactly the orders under the user's name, ignoring case, in order |
| OrderTracking.IndexOf | src/components/customer/OrderTrackingPage.tsx:16-17 | -1 exactly when absent; otherwise the first position holding the value |
| OrderTracking.StatusSteps | src/components/customer/OrderTrackingPage.tsx:62-64 | five steps with "out for delivery" for delivery; four without it for collection; both run from Ordered to Completed |
| OrderTracking.StepsOrdered | src/components/customer/OrderTrackingPage.tsx:62-64 | both timelines list their steps in the fixed order |
| OrderTracking.ActiveSteps | src/components/customer/OrderTrackingPage.tsx:117 | a step is active iff the order's status sits at or after it; the active steps form a prefix |
| OrderTracking.IconAgreesWithTimeline | src/components/customer/OrderTrackingPage.tsx:14-37 | the done/current/upcoming icon and the highlight colour agree with the timeline's active and current flags |
| OrderTracking.CollectionOutForDelivery | src/components/customer/OrderTrackingPage.tsx:117-118 | a collection order set to "out for delivery" shows no active and no current step |
| StaffOrders.FilteredOrders | src/components/staff/StaffOrderManagement.tsx:11-17 | a subsequence of the orders holding exactly those matching the search and the status filter |
| StaffOrders.EmptyQueryShowsAll | src/components/staff/StaffOrderManagement.tsx:8-17 | an empty query with "All" lists every order in order |
| StaffOrders.StatusOptions | src/components/staff/StaffOrderManagement.tsx:94-109 | delivery orders are offered five statuses; collection orders four, never "out for delivery" |
| StaffOrders.OptionsAreTimelineSteps | src/components/staff/StaffOrderManagement.tsx:94-109 | the options offered are the steps of the order's tracking timeline |
| StaffOrders.SelectStatus | src/components/staff/StaffOrderManagement.tsx:91 | any offered status, earlier ones included, is written to the order through the store; every other store field is unchanged |
| StaffReservations.FilteredReservations | src/components/staff/StaffReservationManagement.tsx:13-21 | a subsequence holding exactly the reservations matching search, date and status |
| StaffReservations.NoFilterShowsAll | src/components/staff/StaffReservationManagement.tsx:13-21 | no query, no date and "All" list every reservation |
| StaffReservations.Actions | src/components/staff/StaffReservationManagement.tsx:107-140 | a cancelled reservation offers no action, the others offer some |
| StaffReservations.ActionsAreAllowedTransitions | src/components/staff/StaffReservationManagement.tsx:107-140 | the actions offered are exactly pending → confirmed, pending → cancelled and confirmed → cancelled, each once |
| StaffReservations.Press | src/components/staff/StaffReservationManagement.tsx:110-128 | pressing an offered action writes its target status through the store; every other store field is unchanged |
| UserManagement.MapApiUser | src/components/admin/UserManagement.tsx:67-74 | the id reads back as the numeric id; a null or empty phone becomes absent, any other is kept; the join date is `created_at` |
| UserManagement.Patch | src/components/admin/UserManagement.tsx:157-162 | an empty phone field is sent as null, any other as typed |
| UserManagement.EditRoundTrip | src/components/admin/UserManagement.tsx:107-116 | opening a user for edit and saving unchanged sends back exactly its fields |
| UserManagement.FilteredUsers | src/components/admin/UserManagement.tsx:88-94 | a subsequence holding exactly the users matching the search and the role filter |
| UserManagement.WithoutUser | src/components/admin/UserManagement.tsx:131 | exactly the users with another id remain, in list order: a subsequence of the list holding every other user and none with the deleted id |
| UserManagement.WithoutUserDropsOne | src/components/admin/UserManagement.tsx:131 | with distinct ids, a delete drops exactly that user and keeps the rest in order |
| UserManagement.WithUpdated | src/components/admin/UserManagement.tsx:183-185 | the users with the returned id become the returned user; the others are kept |
| UserManagement.WithUpdatedReplacesOne | src/components/admin/UserManagement.tsx:183-185 | with distinct ids, an update replaces exactly that one entry |
| UserManagement.WithUpdatedAbsent | src/components/admin/UserManagement.tsx:183-185 | an update whose id is not listed changes nothing |
| UserManagement.UserAdmin.Load | src/components/admin/UserManagement.tsx:44-86 | without a token: "You are not authorized" and the list kept; otherwise the mapped rows, or the message ("Failed to load users" when empty) |
| UserManagement.UserAdmin.HandleEdit | src/components/admin/UserManagement.tsx:107-116 | opens the form on that user with its fields |
| UserManagement.UserAdmin.HandleAddNew | src/components/admin/UserManagement.tsx:96-105 | opens an empty customer form |
| UserManagement.UserAdmin.HandleDelete | src/components/admin/UserManagement.tsx:118-140 | the user leaves the list only with a token, a confirmation and a 204 answer |
| UserManagement.UserAdmin.HandleSubmit | src/components/admin/UserManagement.tsx:142-202 | editing with a token and an answer replaces the matching users and closes the form; every other case leaves the list as it was |
| MenuManagement.Payload | src/components/admin/MenuManagement.tsx:153-162 | the switches become 1 when on and 0 when off; the price is `parseFloat` of the field |
| MenuManagement.EditedItemFromForm | src/components/admin/MenuManagement.tsx:185-197 | a saved edit keeps the id, holds exactly the form's fields, and clears allergens, nutrition and reviews |
| MenuManagement.EditedKeepsId | src/components/admin/MenuManagement.tsx:190-191 | MenuManagement.EditedItem, the payload row mapped back with the item's numeric id, keeps the id through `Number` and `String` |
| MenuManagement.WithoutItem | src/components/admin/MenuManagement.tsx:141 | exactly the items with another id remain, in list order: a subsequence of the list holding every other item and none with the deleted id |
| MenuManagement.WithoutItemDropsOne | src/components/admin/MenuManagement.tsx:141 | with distinct ids, a delete drops exactly that item and keeps the rest in order |
| MenuManagement.WithEdited | src/components/admin/MenuManagement.tsx:185-197 | the items with the edited id become the edited entry; the others are kept |
| MenuManagement.WithEditedReplacesOne | src/components/admin/MenuManagement.tsx:185-197 | with distinct ids, an edit replaces only that one entry |
| MenuManagement.WithEditedCanonical | src/components/admin/MenuManagement.tsx:185-197 | an edit leaves every listed id in the decimal form the mapper gives it |
| MenuManagement.MenuAdmin.Load | src/components/admin/MenuManagement.tsx:69-86 | the list becomes the rows mapped by the admin mapper, or the error is set and the list kept |
| MenuManagement.MenuAdmin.OpenForm | src/components/admin/MenuManagement.tsx:90-118 | the form opens on the chosen item, or on none for a new one |
| MenuManagement.MenuAdmin.HandleDelete | src/components/admin/MenuManagement.tsx:120-142 | the item leaves the list only with a token, a confirmation and an accepted request |
| MenuManagement.MenuAdmin.HandleSubmit | src/components/admin/MenuManagement.tsx:145-224 | with a token and a success: an edit replaces the edited entry, an add appends the mapped new row, and the form closes; otherwise the list is unchanged |
| AdminDashboard.DatePart | src/components/admin/AdminDashboard.tsx:10-12 | the text before the first `T`, or all of it when there is none |
| AdminDashboard.DatePartOfTimestamp | src/components/admin/AdminDashboard.tsx:10-12 | the date part of `date + "T" + time` is the date |
| AdminDashboard.TodayOrders | src/components/admin/AdminDashboard.tsx:11-13 | exactly the orders created on today's date, in list order, each once: a subsequence of the orders holding every order of today and no other |
| AdminDashboard.TodayRevenueAfterOrder | src/components/admin/AdminDashboard.tsx:15 | a new order adds its total to AdminDashboard.TodayRevenue (the sum over AdminDashboard.TodayOrders) if it is from today, and nothing otherwise |
| AdminDashboard.SumTotalsAppend | src/components/admin/AdminDashboard.tsx:15 | revenue over two lists end to end is the sum of their revenues |
| AdminDashboard.TodayReservations | src/components/admin/AdminDashboard.tsx:16 | exactly the reservations dated today, in list order, each once: a subsequence of the reservations holding every one of today and no other |
| AdminDashboard.StatusCountsSum | src/components/admin/AdminDashboard.tsx:180-181 | the five AdminDashboard.StatusCount values, one per status, add up to the number of orders |
| AdminDashboard.Percentage | src/components/admin/AdminDashboard.tsx:182 | 0 with no orders, and always between 0 and 100 |
| AdminDashboard.RecentOrders | src/components/admin/AdminDashboard.tsx:122 | the first five orders (or all of them when fewer), in order |
| AdminDashboard.UpcomingReservations | src/components/admin/AdminDashboard.tsx:208-210 | the first five pending or confirmed reservations, in order: a prefix of the open ones whose length is min(5, their number) |
| AdminDashboard.CancelledNotUpcoming | src/components/admin/AdminDashboard.tsx:209 | a cancelled reservation is never listed as upcoming |
| Layout.CartItemCountValid | src/components/Layout.tsx:84-88 | in a valid cart the count is at least the number of lines, so the badge shows exactly when the cart is non-empty |
| Layout.CartItemCountAdd | src/components/Layout.tsx:13 | adding an item raises the badge count by one |
| Layout.CartItemCountRemove | src/components/Layout.tsx:13 | removing a line lowers the count by that line's quantity |
| Layout.CartItemCountAppend | src/components/Layout.tsx:13 | Layout.CartItemCount, the `reduce` over the quantities, of two carts end to end is the sum of their counts |
| Layout.CartItemCountUpdate | src/components/Layout.tsx:13 | setting one line's quantity changes the count by the difference |
| Layout.NavLinks | src/components/Layout.tsx:31-74 | four links for visitors and customers, two for staff, three for admins |
| Layout.NavLinksRoute | src/components/Layout.tsx:31-74 | every link leads to a known page inside the layout; visitor and customer links reach only Home, Menu, Reservation and About, staff links only the staff pages, admin links only the admin pages |
| Layout.ButtonsByRole | src/components/Layout.tsx:78-123 | the orders icon appears only beside the cart button; the cart button shows for visitors and customers only |
| Layout.HandleLogout | src/components/Layout.tsx:107-110 | signs out (no user, no token, the lists kept) and goes to the home page |
| Routes.CurrentPath | src/App.tsx:22 | the hash without its first character, or `/` when that is empty |
| Routes.MenuItemId | src/App.tsx:59 | what follows `/menu/`, up to the next `/menu/` if there is one |
| Routes.RenderPage | src/App.tsx:34-157 | only `/login` and `/register` render without the layout; the detail view exactly for `/menu/…` paths, with their id; 404 exactly for unknown paths |
| Routes.PrefixedNotExact | src/App.tsx:51-65 | no exactly matched path starts with `/menu/`, so `/menu` never reaches the detail view |
| Routes.PathOf | src/App.tsx:36-139 | every exact page's path is one of the exact paths; a detail page's path is the prefix followed by its id |
| Routes.RenderPathOf | src/App.tsx:36-139 | every page other than 404 is rendered from its own path |
| Routes.MenuPaths | src/App.tsx:51-65 | `/menu` renders the menu; `/menu/7` the detail of `"7"`; `/menu/` the detail of `""` |

## Left out

- Network requests are not modelled: the menu, item, user and admin fetches, login and registration. Their answers are method parameters: the parsed rows, or `None`/`Failure` for a failed request. The `res.ok` check and the JSON parsing are folded into that choice.
- `alert` and `confirm` are not modelled. A confirmation is a boolean parameter, and only the guard outcome is modelled.
- `localStorage` is not modelled, nor the restore of the session user from stored JSON. The store's constructor takes the restored token and user as parameters.
- Writes to `window.location.hash` are not modelled as effects. The methods that navigate return the new path.
- `Date.now()`, `new Date().toISOString()` and the generated ids `"ORD…"`/`"RES…"` are parameters. Nothing is claimed about their uniqueness.
- React effect scheduling, batched state updates and answers that arrive after a view is gone are not modelled. So is the stale `menuItems` closure in the admin editor: the current list is used.
- Prices and totals are exact `real`s. IEEE rounding of the 10 % tax and `toFixed(2)` formatting are not modelled.
- MenuItems.PriceOf: a price text that `parseFloat` reads as NaN becomes 0.0 in the model, not NaN. The same holds for the price in MenuItems.MapApiToMenuItem and MenuManagement.EditedItem.
- Text.ParseFloat: reads an optional sign, digits and an optional fraction only. Exponents and `Infinity` are not modelled.
- Text.ParseInt: models `Number(id)` only on decimal texts, and the admin editor's ids stay decimal (`MenuAdmin.Valid`). Forms such as `" 7"`, `"0x7"` and `"1e3"` are not modelled.
- Text.Lower and Text.Trim: case folding is ASCII only. Whitespace is a fixed subset of Unicode's.
- The per-view fetch error messages of the home page and the menu page are not modelled. Only whether loading succeeded is modelled, as in `HomePage.ShowFeaturedCards`.
- The menu editor's `handleEdit` form population (`item.price.toString()`) is not modelled. `MenuAdmin.OpenForm` records only which item is edited.
- The reservation booking page, the login and register pages, the About page, `Button` and the static menu data are not part of this model.
- The dashboard's popular-dish placeholder list and its fixed menu count are not part of this model.
- Styling, icons and the footer are not modelled. Neither is the `showNav` switch of the layout: every route that uses it shows navigation.
