# Paw & Home inventory: a verified model of the client core

This project models, in Dafny, the client-side core of the Paw & Home pet-shop
inventory system. That core is a Next.js front end whose state lives in the
browser:

- **Session store** (`auth.dfy`): sessions in `localStorage` last fifteen
  minutes. A session is created at login. It expires lazily, when a read finds
  it past its `expiresAt`. A refresh slides it forward. Logout removes three
  keys. A one-shot migration converts the previous storage format.
- **Authorisation guard** (`auth_guard.dfy`): the hook that checks the session
  when a page mounts and again on every timer tick. The check redirects to
  `/login` when it fails. The periodic check can only revoke authorisation.
- **Product store** (`products.dfy`): a module-level array of product records
  that operations change in place. It supports stock updates clamped at zero,
  soft delete and restore, the active/deleted split, and the low-stock query.
  It also derives the notifications, the inventory statistics and the
  best/worst seller rankings. The rankings sort the sales figures in place.
  `seed_data.dfy` holds the records the store starts with and what the
  queries answer on them.
- **Quick stock update** (`quick_update_card.dfy`, `quick_update_page.dfy`):
  - The card proposes an absolute new stock `max(0, stock + increment)`.
  - It keeps an in-flight flag and disables its buttons.
  - It writes the stock back into its own product once the page's handler
    returns. That handler catches every failure, so the write-back always
    happens.
- **Notification bell** (`notification_system.dfy`): polling, the open/close
  state machine and the unread count.
- **Product creation dialog** (`create_product_dialog.dfy`):
  - the ordered validation chain, where each check has its own message;
  - trimming, and the default image;
  - form editing, reset and close.
- **Product management page** (`products_page.dfy`):
  - the search-then-category filter;
  - the four stat cards;
  - the `parseInt` guard on ids to delete;
  - the mapping of a new product to the backend's payload;
  - the delete, restore and create handlers.
- **Dashboard frame** (`dashboard_layout.dfy`): the navigation entries, the
  active-path rule, the menus and the logout handler.

`common.dfy` holds what the modules share:

- optional values and the results of calls that may throw;
- the banner message;
- `filter`;
- the stable insertion sort that stands in for `Array.prototype.sort`.

`js_text.dfy` models the JavaScript string built-ins the core relies on:

- `trim`, with the white-space and line-terminator sets of sections 12.2 and 12.3 of ECMA-262;
- `startsWith` and `includes`;
- the one-argument `parseInt`, where a `0x` prefix selects base 16;
- the conversion of an integer to text in a template literal.

## How the model is built

State that the source changes in place is held by a class:

- `Auth.SessionStore`: the storage keys;
- `Products.Catalog`: the product array and the sales array;
- one class per component, holding its React state.

Each method is proved against a pure function of the old state, for example
`ensures Step(Contents(), b) == Authenticated(old(Contents()), now)`. The
properties the source promises are then lemmas about those functions.

External inputs are parameters:

- the clock: `now` in milliseconds;
- the reply of the login request;
- the outcome of the backend calls: a list of products, or what was thrown;
- `toLowerCase`, and `parseFloat`.

An `async` handler that waits in the middle becomes two events, one on each
side of the wait.

Where the code and its documentation differ, the model follows the code:

- The card passes an absolute stock, not a delta.
- The user is built from the reply's `username` field. The token is never
  decoded.
- A refresh sets `expiresAt` from the time of the refresh, not from the old
  expiry.

## Model

| member | source | states |
|---|---|---|
| Auth.SessionStore.SetAuthUser | lib/auth.ts:90-97 | overwrites only the session slot, with a record for the user stamped `now` and expiring at `now` + 15 min; every other key is unchanged |
| Auth.SessionStore.Logout | lib/auth.ts:99-104 | removes the session, token and legacy keys and nothing else |
| Auth.SessionStore.GetSessionData | lib/auth.ts:106-124 | returns the stored record; returns nothing for an unreadable record; with only a legacy user, writes a current session for it, removes the legacy key and returns the new record; the recursion ends after one level |
| Auth.SessionStore.IsAuthenticated | lib/auth.ts:60-73 | true for a record not yet expired; an expired record is purged by logout and gives false |
| Auth.SessionStore.GetCurrentUser | lib/auth.ts:75-88 | the user of an unexpired session, else none; an expired session is purged |
| Auth.SessionStore.RefreshSession | lib/auth.ts:126-139 | rewrites an unexpired session for the same user from `now`; an expired one is purged; with no session it fails |
| Auth.SessionStore.GetAuthToken | lib/auth.ts:141-144 | returns the stored token whatever the state of the session |
| Auth.SessionStore.AuthenticateUser | lib/auth.ts:34-57 | from the reply on: a failed or thrown request writes nothing and gives no user; a successful one stores a non-empty token and starts a session for the reply's user |
| Auth.NewSessionIsLive | lib/auth.ts:60-73 | a session set at `now` is valid up to and including `now + 900000`, and the current user is its user |
| Auth.NewSessionExpires | lib/auth.ts:66-70 | one millisecond later the read purges the three keys and answers false |
| Auth.AuthenticatedIff | lib/auth.ts:60-73 | `isAuthenticated` holds exactly for an unexpired record or a legacy user to migrate |
| Auth.ExpiredSessionIsPurged | lib/auth.ts:60-139 | on an expired record, `isAuthenticated`, `getCurrentUser` and `refreshSession` all fail and leave the storage logged out |
| Auth.MalformedSessionChangesNothing | lib/auth.ts:106-124 | an unreadable record reads as no session and no reader writes anything |
| Auth.LogoutIdempotent | lib/auth.ts:99-104 | logout twice equals logout once; the three keys are gone and all other keys are kept |
| Auth.RefreshExtendsSession | lib/auth.ts:126-139 | a refresh of a valid session succeeds, keeps the user and the token, and restarts the fifteen minutes |
| Auth.RefreshWithoutSession | lib/auth.ts:126-128 | with neither a current nor a legacy record, a refresh fails and writes nothing |
| Auth.MigrationHappensOnce | lib/auth.ts:110-117 | the first read migrates the legacy user and removes the legacy key; a second read finds the record and migrates nothing |
| Auth.FailedLoginWritesNothing | lib/auth.ts:34-57 | a non-ok or thrown login returns no user and leaves the storage as it was |
| Auth.SuccessfulLogin | lib/auth.ts:41-53 | an ok login gives an admin named by the reply, or by the typed name when the reply has none; it stores the token only when present; the new session is valid at once |
| AuthGuard.Guard.constructor | hooks/use-auth-guard.ts:9-10 | the hook starts loading and not authorised |
| AuthGuard.Guard.CheckAuth | hooks/use-auth-guard.ts:13-26 | asks `isAuthenticated`, and only if it holds calls `refreshSession`; either failure pushes "/login" once; the result is true only if both pass |
| AuthGuard.Guard.Mount | hooks/use-auth-guard.ts:28-30 | `isAuthorized` takes the first check's result and loading ends |
| AuthGuard.Guard.Tick | hooks/use-auth-guard.ts:33-40 | a periodic check can only clear `isAuthorized`, never set it |
| AuthGuard.UnauthenticatedSkipsRefresh | hooks/use-auth-guard.ts:14-17 | when not authenticated the check stops before the refresh, which writes nothing |
| AuthGuard.SecondRedirectUnreachable | hooks/use-auth-guard.ts:20-23 | with one clock reading, passing the first test implies passing the refresh; the check passes exactly for a valid or migratable session, which then runs for fifteen minutes from that instant |
| AuthGuard.RefreshCanFailAfterAuthCheck | hooks/use-auth-guard.ts:20-23 | with two clock readings, a session that expires between them is purged by the refresh and the second redirect happens |
| AuthGuard.AuthorizedSlidesExpiry | hooks/use-auth-guard.ts:20-25 | a passing check leaves a session stamped at the refresh time and expiring fifteen minutes later |
| Products.FindIndex | lib/products.ts:102-104 | the first index holding the id, or none when no record has it |
| Products.GetProductById | lib/products.ts:102-104 | found exactly when some record has the id; the record found has that id, is in the store, and no earlier record has the id (the first match, as `find` returns) |
| Products.GetLowStockProducts | lib/products.ts:124-126 | exactly the non-deleted products with stock at or under the threshold, as a permutation of the filtered list, sorted by ascending stock |
| Products.StockUpdated | lib/products.ts:146-154 | the ids stay in place, every record but the first with the id is unchanged, and that record gets stock `max(0, newStock)` and `updatedAt` now, its other fields kept |
| Products.DeletedFlagSet | lib/products.ts:156-174 | the ids stay in place, every record but the first with the id is unchanged, and that record gets the given `isDeleted` flag and `updatedAt` now, its other fields kept |
| Products.Lookup | lib/products.ts:109-110 | at most one product per sales entry, each taken from the store |
| Products.Catalog.UpdateProductStock | lib/products.ts:146-154 | true exactly when the id is found; the first record with the id gets `max(0, newStock)` and a new `updatedAt` |
| Products.Catalog.DeleteProduct | lib/products.ts:156-164 | true exactly when the id is found; the first record with the id is marked deleted |
| Products.Catalog.RestoreProduct | lib/products.ts:166-174 | true exactly when the id is found; the first record with the id is marked not deleted |
| Products.Catalog.GetTopSellingProducts | lib/products.ts:106-113 | sorts the sales figures in place by descending sales and returns the ranking of the first five |
| Products.Catalog.GetLeastSellingProducts | lib/products.ts:115-122 | sorts the sales figures in place by ascending sales and returns the ranking of the first five |
| Products.Catalog.CheckLowStockNotifications | lib/products.ts:128-144 | the loop pushes one notification per product that needs restocking, in store order |
| Products.ActiveDeletedPartition | lib/products.ts:94-100 | the active and deleted lists split the store: sizes and multisets add up, each keeps the store's order, and each record is in exactly one |
| Products.StockUpdateClamps | lib/products.ts:146-154 | stock never becomes negative; the record found gets `newStock`, or 0 for a negative value; an unknown id changes nothing |
| Products.DeleteMovesOneRecord | lib/products.ts:156-164 | deleting an active product moves exactly one record from the active list to the deleted list: the record with the id, now marked deleted, is in the deleted list and not in the active one |
| Products.DeleteThenRestore | lib/products.ts:156-174 | delete then restore gives back the store with only that record's `updatedAt` changed |
| Products.LookupThenFilter | lib/products.ts:106-113 | looking up and then dropping deleted products is looking up only the entries whose product is found and active |
| Products.FoundByUniqueId | lib/products.ts:102-104 | with unique ids, each record is found by its own id |
| Products.LookupListed | lib/products.ts:109-110 | entries whose products all exist look up to one product each, in the same order |
| Products.RankedInOrder | lib/products.ts:106-122 | a ranking has at most five products, none deleted, each the product of one of the first five sorted entries, in sorted order |
| Products.NotificationsMatchLowStock | lib/products.ts:124-144 | there are as many notifications as low-stock products; each notification is about a store product that needs restocking, and each low-stock product has one |
| Products.OutOfStockMessage | lib/products.ts:136-138 | the message is "… está agotado" exactly when the stock is zero |
| Products.StatsAddUp | lib/products.ts:176-191 | with no negative stock or threshold, low + out of stock + available = total; deleted + total = size of the store |
| Products.TotalValueNonNegative | lib/products.ts:178 | with no negative price or stock, the inventory value is not negative |
| SeedData.SeedIdsAreDistinct | lib/products.ts:17-83 | the five seed records have distinct ids |
| SeedData.SeedIsWellFormed | lib/products.ts:17-83 | no seed record is deleted: all five are listed as active and the deleted list is empty |
| SeedData.SeedFoundById | lib/products.ts:17-83 | each seed record is found by its own id |
| SeedData.SeedSalesAreDescending | lib/products.ts:86-92 | the seed sales figures are already in descending order, so the first sort leaves them as they are |
| SeedData.SeedSalesReversed | lib/products.ts:86-92 | the seed figures read backwards, with the fewest sales first |
| SeedData.SeedSalesAscending | lib/products.ts:115-116 | sorting the seed figures by ascending sales reverses them |
| SeedData.SeedLookup | lib/products.ts:106-110 | every seed sales entry names a seed product, looked up in sales order |
| SeedData.SeedTopSelling | lib/products.ts:106-113 | before any write the top sellers are products 3, 1, 5, 2, 4 |
| SeedData.SeedNeedsRestock | lib/products.ts:128-132 | before any write exactly products 2 and 4 need restocking, in store order |
| SeedData.SeedLowStock | lib/products.ts:124-126 | before any write the low-stock list is product 4 (5 of 12) then product 2 (8 of 15) |
| QuickUpdatePage.Page.LoadProducts | app/quick-update/page.tsx:32-44 | ranks the best sellers, then re-sorts the figures ascending in place and ranks the worst sellers; both lists without deleted products |
| QuickUpdatePage.Page.HandleStockUpdate | app/quick-update/page.tsx:46-66 | writes the absolute stock; on success reloads both lists with a success banner naming the product and stock; otherwise an error banner only; never throws |
| QuickUpdatePage.ListsFilteredOnce | app/quick-update/page.tsx:42-43 | filtering out deleted products a second time changes nothing |
| QuickUpdatePage.LeastSellingRanking | app/quick-update/page.tsx:37-43 | the worst-seller list has at most five products, none deleted, from the five lowest entries, in ascending order of sales |
| QuickUpdatePage.MessageNamesProduct | app/quick-update/page.tsx:51-63 | both banners contain the product name; the success banner also contains the new stock; the kind matches the outcome |
| QuickUpdateCard.GetStockStatus | components/quick-update-card.tsx:23-27 | "No disponible" exactly at stock 0; "Stock bajo" exactly for a non-zero stock at or under the threshold; "Disponible" otherwise |
| QuickUpdateCard.Increment | components/quick-update-card.tsx:110-161 | the only increments are −1, +1, +5, +10 and −5, and the two decrement buttons are the negative ones |
| QuickUpdateCard.ProposedStock | components/quick-update-card.tsx:30 | `max(0, stock + increment)`: equal to the sum when that is not negative, and 0 when it is |
| QuickUpdateCard.Card.BeginStockChange | components/quick-update-card.tsx:29-34 | sets `isUpdating` and sends the id, the absolute proposed stock and the name |
| QuickUpdateCard.Card.FinishStockChange | components/quick-update-card.tsx:34-39 | writes the proposed stock only when the call did not throw; clears `isUpdating` either way |
| QuickUpdateCard.Card.Press | components/quick-update-card.tsx:107-166 | a disabled button does nothing; an enabled one starts a change with its increment |
| QuickUpdateCard.AdjustStock | components/quick-update-card.tsx:29-40 | a full click on a card of the quick update page: the store gets the proposed stock and the banner reports the outcome; the card always writes the proposed stock, even for an id the store does not have |
| QuickUpdateCard.AllDisabledWhileUpdating | components/quick-update-card.tsx:107-166 | every button is disabled while a change is pending |
| QuickUpdateCard.EnabledButtonsNeverClamp | components/quick-update-card.tsx:110-162 | at a non-negative stock an enabled button never needs the clamp at zero |
| QuickUpdateCard.StatusAgreesWithNotifications | components/quick-update-card.tsx:23-27 | for an active product with a non-negative threshold, the badge is not "Disponible" exactly when the store notifies about it; it is "No disponible" exactly when the notification says "está agotado" |
| NotificationSystem.Bell.constructor | components/notification-system.tsx:11-24 | mounting starts closed and polls at once, so every notification is unread |
| NotificationSystem.Bell.Poll | components/notification-system.tsx:16-22 | the list is replaced by the store's notifications; only a closed bell updates the unread count |
| NotificationSystem.Bell.HandleOpenChange | components/notification-system.tsx:30-35 | opening clears the unread count; a change of `isOpen` re-polls, so closing sets the count to the fresh list's length; the unread invariant is kept |
| NotificationSystem.Bell.ShowsUnreadDot | components/notification-system.tsx:46 | the red dot shows exactly while the bell is closed with notifications |
| CreateProductDialog.SetField | components/create-product-dialog.tsx:42 | the named field takes the value and every other field is kept |
| CreateProductDialog.Dialog.HandleInputChange | components/create-product-dialog.tsx:41-44 | changes one field and clears the error |
| CreateProductDialog.Dialog.ResetForm | components/create-product-dialog.tsx:46-57 | empties every field and the error |
| CreateProductDialog.Dialog.BeginSubmit | components/create-product-dialog.tsx:59-85 | a failed check sets its message, ends loading and keeps the form; passing every check leaves the product waiting for the hand-over |
| CreateProductDialog.Dialog.FinishSubmit | components/create-product-dialog.tsx:86-106 | hands the checked product over, resets the form, closes the dialog and ends loading |
| CreateProductDialog.Dialog.HandleClose | components/create-product-dialog.tsx:109-114 | does nothing while loading; otherwise resets the form and closes |
| CreateProductDialog.FirstFailingCheckWins | components/create-product-dialog.tsx:66-84 | each message appears exactly when its check is the first to fail; a product comes out exactly when all pass |
| CreateProductDialog.AcceptedProductIsClean | components/create-product-dialog.tsx:89-97 | an accepted product has trimmed non-empty texts, a positive price, non-negative counts read by `parseInt`, and the typed image or the default |
| CreateProductDialog.AllChecksPass | components/create-product-dialog.tsx:66-97 | a form with no blank text, a positive price and non-negative counts is accepted, as the trimmed texts, the values read and the typed image or the default |
| CreateProductDialog.ValidateRoundTrip | components/create-product-dialog.tsx:66-97 | typing a valid product into the form gives back exactly that product |
| ProductsPage.ToBackendPayload | app/products/page.tsx:138-146 | name, stock and price carried over; `idProveedor` is 1; the threshold is omitted exactly when it is not positive; image and description are omitted exactly when empty |
| ProductsPage.Page.RunFilterEffect | app/products/page.tsx:60-89 | the table becomes the search-then-category filter of the products |
| ProductsPage.Page.LoadProducts | app/products/page.tsx:51-57 | takes the store's active and deleted lists |
| ProductsPage.Page.SetSearchTerm | app/products/page.tsx:89 | a new term re-runs the filter |
| ProductsPage.Page.SetFilterBy | app/products/page.tsx:89 | a new category re-runs the filter |
| ProductsPage.Page.HandleDeleteProduct | app/products/page.tsx:91-117 | an unreadable id is reported before any backend call; otherwise the backend outcome gives the reloaded list and a success banner, or the thrown message |
| ProductsPage.Page.HandleRestoreProduct | app/products/page.tsx:119-133 | restores in the store and reloads with a success banner; an unknown id gives "Error al recuperar el producto" and changes nothing else |
| ProductsPage.Page.ShowBackendOutcome | app/products/page.tsx:99-115 | a fetched list replaces the products, re-runs the filter and shows the success banner; a thrown value leaves the lists and shows its message, or the fallback |
| ProductsPage.Page.HandleCreateProduct | app/products/page.tsx:135-166 | always builds the mapped payload; the backend outcome gives the reloaded list and a success banner, or the thrown message |
| ProductsPage.NoFilterIsIdentity | app/products/page.tsx:60-89 | a blank term and a category that filters nothing leave the list as it is |
| ProductsPage.SearchKeepsMatches | app/products/page.tsx:64-71 | a non-blank search keeps exactly the matching products, in order |
| ProductsPage.FilteredIsOrderedSubsequence | app/products/page.tsx:61-88 | the table is an order-preserving subsequence holding exactly the products that pass the search and the category |
| ProductsPage.LowAndAvailablePartition | app/products/page.tsx:77-83 | the "low-stock" and "available" results split the searched list |
| ProductsPage.LowStockCardExcludesOutOfStock | app/products/page.tsx:238 | the "low-stock" filter lists the products of the "Stock Bajo" card plus those of "Agotados" |
| ProductsPage.CardsMatchInventoryStats | app/products/page.tsx:223-267 | after a load the four cards equal the store's statistics |
| ProductsPage.DeleteCodeOfWrittenId | app/products/page.tsx:94 | every id written as an integer passes the guard as that integer |
| ProductsPage.DeleteCodeRejectsNonNumeric | app/products/page.tsx:94-97 | an id without a decimal digit is rejected with "ID de producto inválido" |
| ProductsPage.DialogProductPayload | app/products/page.tsx:143-145 | a product from the dialog always sends an image and a description, and omits the threshold exactly when it is zero |
| DashboardLayout.DesktopItems | components/dashboard-layout.tsx:74 | the desktop bar is every entry but the first |
| DashboardLayout.MobileItems | components/dashboard-layout.tsx:141-149 | the mobile menu lists all four entries while open and none while closed |
| DashboardLayout.Layout.HandleLogout | components/dashboard-layout.tsx:32-35 | logs out first, then sends the router to "/login" |
| DashboardLayout.Layout.ToggleMobileMenu | components/dashboard-layout.tsx:99 | flips the mobile menu |
| DashboardLayout.Layout.FollowMobileLink | components/dashboard-layout.tsx:159 | following a mobile entry goes to its path and closes the menu |
| DashboardLayout.DashboardIsExact | components/dashboard-layout.tsx:45-47 | the dashboard entry is active exactly on "/dashboard" |
| DashboardLayout.OtherEntriesByPrefix | components/dashboard-layout.tsx:48 | every other entry is active exactly on paths that start with it: "/products/5" is, "/product/5" is not |
| DashboardLayout.AtMostOneActive | components/dashboard-layout.tsx:37-49 | no path makes two entries active |
| DashboardLayout.DesktopOmitsLogin | components/dashboard-layout.tsx:74 | the desktop bar has three entries, none of them "/login", and every other entry |
| JsText.TrimEmptyIffBlank | components/create-product-dialog.tsx:66 | a text is empty once trimmed exactly when it is all white space |
| JsText.ParseIntNeedsADigit | app/products/page.tsx:94-95 | `parseInt` of a text with no decimal digit is NaN |
| JsText.ParseIntOfIntToString | components/create-product-dialog.tsx:71-72 | `parseInt` reads back every integer written in decimal |
| JsText.IncludesAt | app/products/page.tsx:67-69 | `includes` holds exactly when the part occurs at some position |
| Common.Filter | lib/products.ts:95 | holds exactly the elements that pass, every element it holds passes, and it is no longer than its input |
| Common.SortBy | lib/products.ts:125 | sorted by the key, and a permutation of its input |
| Common.SortByIdempotent | lib/products.ts:107-116 | sorting a second time by the same key changes nothing |
| Common.SortByFalling | lib/products.ts:116 | figures whose keys strictly fall come out reversed |

## Left out

- Timers are not modelled: the 30-second poll, the five-minute guard check, the banner dismissal and the simulated delays. Each tick is an event method instead, such as `Bell.Poll` or `Guard.Tick`.
- Effect clean-up is not modelled.
- The network is not modelled: `fetch`, `process.env` and the login URL. `AuthenticateUser` starts from the reply, which is a parameter.
- `deleteProductAPI`, `fetchProducts`, `convertBackendToFrontend` and `createProduct` are not part of this model. lib/products.ts does not define them. Their joint outcome is a parameter of each handler.
- `JSON.parse` and `JSON.stringify` are not modelled. Records are stored as values. A value the parser would reject is the `Malformed` variant.
- The `typeof window` server-side checks are not modelled.
- `console.error` is not modelled.
- Auth.SessionStore.SetAuthUser: it reads the clock once, so `timestamp` and `expiresAt` come from one instant. The source reads `Date.now()` twice.
- Prices are Dafny `real` values: exact rationals, not IEEE doubles. `Products.TotalValue` therefore ignores rounding.
- `parseFloat` is a parameter of the dialog's submit.
- `toFixed` and the display of money are not modelled.
- Stocks and thresholds are unbounded integers. A JavaScript number loses precision above 2^53, and `parseInt` results beyond that are not modelled.
- Dates are integer milliseconds. Each write takes the time of the write as a parameter.
- `toLowerCase` is the page's parameter `lower`. Unicode case folding is not modelled.
- Aliasing is not modelled. The card's product is the same object as the store's record in the source; here the card holds its own copy. The model therefore shows that the card writes the stock, but not that the write reaches the shared record.
- `Common.SortBy` is stable, and so is `Array.prototype.sort` since ECMAScript 2019, but the model does not prove this. The rankings' contracts speak of keys and membership, not of the order of equal keys.
- The mount-time `isAuthenticated` redirects of the two pages are not modelled.
- `getCurrentUser` during the layout's render is not modelled. It only feeds the user name shown.
- `handleRefresh` on the quick update page is not modelled. It reloads the lists like `LoadProducts`, after a timer.
- The JSX, styling, icons and images are not modelled.
- The context files that only repeat the stock badge or the per-row busy flag are not modelled.
- lib/config.ts is not part of this model. It repeats the session duration.
