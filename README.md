# Restaurant ordering client — a Dafny model

This project models the client-side logic of a restaurant ordering web app, a React single-page application with two kinds of user. Customers scan a table's QR code, browse the menu, fill a cart, place orders, follow their status and ask for the bill. Staff watch the live dashboard, move orders through their statuses, bill tables and browse the order history.

The model covers the following:

- the `zustand` stores of `src/store/useStore.ts`:
  - the cart, with one line per (menu item, variation) key;
  - the auth, menu, order and table stores;
- the small rules the views apply on top of the stores:
  - menu search and the dietary filter;
  - add-on toggling and price calculation in the customisation dialog;
  - the cart footer amounts and the order request;
  - the real-time list patches for orders and kitchen order tickets (KOTs);
  - the order-status progression;
  - the bill sums, the discount and the bill target;
  - the order-history filters and pagination;
  - the order card preview;
- the request layer of `src/services/apiService.ts`: base URL, bearer header and 401 handling;
- as far as the pages rely on it, the socket service of `src/services/socketService.ts`. It is a single shared socket that exists only after `connect`; `on`, `off` and `emit` do nothing without one.

Amounts are integers (minor units). The cart footer's 18% tax is computed exactly as a `real`. JavaScript falsy numbers (`x || y` on a number) are modelled as a test against 0. A status string that matches no known status is kept as an `UnknownStatus` case, because the handlers accept whatever the event carries.

Each source file becomes one module:

| file | module |
|---|---|
| `types.dfy` | `Types`: the records and enums |
| `seqs.dfy` | `Seqs`: sums and filters over sequences, with their lemmas |
| `cart.dfy` | `CartStore` |
| `stores.dfy` | `Stores` |
| `api.dfy` | `Api` |
| `socket.dfy` | `Socket` |
| `item_customization.dfy` | `ItemCustomization` |
| `cart_view.dfy` | `CartView` |
| `menu_page.dfy` | `MenuPage` |
| `orders_page.dfy` | `OrdersPage` |
| `bill_request.dfy` | `BillRequest` |
| `dashboard.dfy` | `Dashboard` |
| `order_detail.dfy` | `OrderDetail` |
| `billing.dfy` | `Billing` |
| `table_detail.dfy` | `TableDetail` |
| `order_history.dfy` | `OrderHistory` |
| `order_card.dfy` | `OrderCard` |

Stores and services whose fields change in place are classes, and their methods are specified by functions of the old state. The cart actions (`Cart.AddItem` and the rest) are specified by `AddLine`, `RemoveKey` and `SetQuantity`. The lemmas about those functions carry what the store promises.

Where the code does something a reader might not expect, the model follows the code:

- Only the staff token (`authToken`) is attached to requests. The customer session token is never sent by the request interceptor.
- A 401 removes the `authToken` and `user` storage keys only. It does not reset the in-memory auth store.
- The comment at `src/services/apiService.ts:5` says the base URL never contains `//api`. A configured URL ending in `/` still yields `…//api` (`Api.TrailingSlashGivesDoubleSlash`). What the rule does guarantee is that it never introduces `/api/api`.
- The cart's merge and quantity update reprice a line from the unit price alone, dropping the add-on cost that the first add included. This is modelled as written (`ItemCustomization.SecondAddDropsAddonCost`).
- The dashboard's leave event is `leave:restaurant`, but the table leave event is `leaveTable`, not `leave:table`. It is modelled as written.
- After a discount is applied, the billing page holds the server response without the load normalisation (`Billing.AppliedOrderNotNormalised`).

## Model

| member | source | states |
|---|---|---|
| CartStore.IndexOfKey | src/store/useStore.ts:112-116 | the first position whose line has the key, or -1 exactly when no line has it |
| CartStore.AddMergesExisting | src/store/useStore.ts:118-124 | adding a candidate whose key is at `i` keeps the line count, adds the candidate's quantity to line `i`, reprices it as quantity × unit price (add-ons ignored), keeps its other fields and leaves every other line unchanged |
| CartStore.AddAppendsNew | src/store/useStore.ts:125-127 | a candidate with a new key is appended unchanged at the end |
| CartStore.AddKeepsKeysUnique | src/store/useStore.ts:110-127 | addItem keeps at most one line per (menu item id, variation id) |
| CartStore.AddItemCount | src/store/useStore.ts:110-127 | addItem raises the item count by exactly the candidate's quantity |
| CartStore.AddTotal | src/store/useStore.ts:118-127 | how addItem changes the total: + candidate price on append; old line price replaced by the repriced one on merge |
| CartStore.RepeatedAddsMerge | src/store/useStore.ts:110-127 | adds of one key to an empty cart give one line whose quantity is the sum of the quantities, with the first candidate's item and variation, priced from the unit price alone after a merge |
| CartStore.RemoveKeyMembers | src/store/useStore.ts:129-136 | a line survives removeItem iff it was in the cart and its key differs |
| CartStore.RemoveKeyAppend | src/store/useStore.ts:129-136 | removeItem keeps the surviving lines in order (it distributes over concatenation) |
| CartStore.RemoveAbsentUnchanged | src/store/useStore.ts:129-136 | removing an absent key leaves the cart unchanged |
| CartStore.RemoveUniqueDropsOne | src/store/useStore.ts:129-136 | with unique keys, removing line `i`'s key drops exactly line `i` |
| CartStore.RemoveKeepsKeysUnique | src/store/useStore.ts:129-136 | removeItem keeps keys unique |
| CartStore.SetQuantityUnknownKey | src/store/useStore.ts:137-154 | updateQuantity on an unknown key leaves the cart unchanged |
| CartStore.SetQuantityNonPositiveRemoves | src/store/useStore.ts:143-146 | a quantity ≤ 0 removes the line, exactly as removeItem does |
| CartStore.SetQuantityPositive | src/store/useStore.ts:147-151 | a positive quantity replaces the line's quantity and price (q × unit price), keeps every other line and the count, and changes the item count accordingly |
| CartStore.SetQuantityKeepsKeysUnique | src/store/useStore.ts:137-154 | updateQuantity keeps keys unique |
| CartStore.TotalOrderIndependent | src/store/useStore.ts:156-161 | total and item count do not depend on line order |
| CartStore.Cart.constructor | src/store/useStore.ts:109 | the cart starts empty |
| CartStore.Cart.AddItem | src/store/useStore.ts:110-128 | the new lines are AddLine of the old ones; unique keys are preserved |
| CartStore.Cart.RemoveItem | src/store/useStore.ts:129-136 | the new lines are RemoveKey of the old ones; unique keys are preserved |
| CartStore.Cart.UpdateQuantity | src/store/useStore.ts:137-154 | the new lines are SetQuantity of the old ones; unique keys are preserved |
| CartStore.Cart.ClearCart | src/store/useStore.ts:155 | the cart is empty and both sums are 0 |
| CartStore.Cart.GetTotal | src/store/useStore.ts:156-158 | 0 on an empty cart; non-negative when every line price is |
| CartStore.Cart.GetItemCount | src/store/useStore.ts:159-161 | 0 on an empty cart; at least the number of lines when every quantity is ≥ 1 |
| Stores.AuthStore.constructor | src/store/useStore.ts:63-67 | both sessions start empty |
| Stores.AuthStore.SetAuth | src/store/useStore.ts:68-71 | sets token and user and stores the token; the customer session is untouched |
| Stores.AuthStore.ClearAuth | src/store/useStore.ts:72-75 | clears token and user and the stored token; the customer session is untouched |
| Stores.AuthStore.Logout | src/store/useStore.ts:76-79 | the same effect as ClearAuth |
| Stores.AuthStore.SetCustomerSession | src/store/useStore.ts:80-82 | sets the three customer fields; the staff session is untouched |
| Stores.AuthStore.ClearCustomerSession | src/store/useStore.ts:83-85 | clears the three customer fields; the staff session is untouched |
| Stores.MenuStore.constructor | src/store/useStore.ts:95-98 | empty categories, no selection, empty query, "ALL" |
| Stores.MenuStore.SetCategories | src/store/useStore.ts:99 | sets categories only |
| Stores.MenuStore.SetSelectedCategory | src/store/useStore.ts:100 | sets the selected category only |
| Stores.MenuStore.SetSearchQuery | src/store/useStore.ts:101 | sets the query only |
| Stores.MenuStore.SetDietaryFilter | src/store/useStore.ts:102 | sets the dietary filter only |
| Stores.UpdateOrders | src/store/useStore.ts:175-181 | same length and ids; every order with the id gets the patch, every other order is unchanged |
| Stores.UpdateOrdersUnknownId | src/store/useStore.ts:175-181 | an unknown id changes nothing |
| Stores.OrderStore.SetOrders | src/store/useStore.ts:173 | replaces the list only |
| Stores.OrderStore.AddOrder | src/store/useStore.ts:174 | prepends the order |
| Stores.OrderStore.UpdateOrder | src/store/useStore.ts:175-181 | the list becomes UpdateOrders of the old one |
| Stores.OrderStore.SetCurrentOrder | src/store/useStore.ts:182 | sets the current order only |
| Stores.UpdateTables | src/store/useStore.ts:191-197 | same length and ids; every table with the id gets the patch, every other table is unchanged |
| Stores.TableStore.SetTables | src/store/useStore.ts:189 | replaces the list only |
| Stores.TableStore.SetSelectedTable | src/store/useStore.ts:190 | sets the selected table only |
| Stores.TableStore.UpdateTable | src/store/useStore.ts:191-197 | the list becomes UpdateTables of the old one |
| Api.ApiUrl | src/services/apiService.ts:3 | never empty; the configured URL when one is set |
| Api.BaseUrl | src/services/apiService.ts:6 | always ends in "/api"; a URL already ending so is kept, any other gets "/api" appended |
| Api.BaseUrlIdempotent | src/services/apiService.ts:6 | deriving the base URL twice changes nothing |
| Api.NoApiApiIntroduced | src/services/apiService.ts:5-6 | the base ends in "/api/api" only if the configured URL already did |
| Api.TrailingSlashGivesDoubleSlash | src/services/apiService.ts:5-6 | a URL ending in "/" gives a base ending in "//api" |
| Api.DefaultBaseUrl | src/services/apiService.ts:3-6 | unconfigured, the base is "http://localhost:5000/api" |
| Api.SignRequest | src/services/apiService.ts:16-23 | "Bearer " + token iff a non-empty staff token is stored, otherwise headers untouched |
| Api.SignDependsOnlyOnToken | src/services/apiService.ts:18-21 | only the stored token decides the header |
| Api.SignedAfterSetAuth | src/services/apiService.ts:18-21 | after setAuth with a non-empty token, requests carry it |
| Api.UnsignedAfterLogout | src/services/apiService.ts:18-21 | after logout, requests go out unsigned |
| Api.StorageAfterError | src/services/apiService.ts:32-40 | a 401 removes the token and user keys and keeps every other key; other errors leave storage as it was |
| Api.NoBearerAfterUnauthorised | src/services/apiService.ts:33-36 | once a 401 is handled, requests are no longer signed |
| Api.StorageAfterErrorIdempotent | src/services/apiService.ts:33-36 | handling the same error twice is handling it once |
| Api.CustomerPagesNotRedirected | src/services/apiService.ts:37-39 | paths under "/order/" are never redirected |
| Api.InterceptError | src/services/apiService.ts:32-42 | rejects with the same error; storage becomes StorageAfterError; the location moves to the login page exactly when a 401 hits a "/restaurant" path |
| Socket.OffAllMembers | src/services/socketService.ts:69-73 | off without a callback drops exactly the event's listeners |
| Socket.OffUndoesOn | src/services/socketService.ts:63-73 | off(event, h) right after on(event, h) restores the listeners |
| Socket.SocketService.constructor | src/services/socketService.ts:6 | no socket, no listeners, nothing sent |
| Socket.SocketService.Connect | src/services/socketService.ts:8-30 | creates the socket with its three logging listeners once; a second call changes nothing |
| Socket.SocketService.Disconnect | src/services/socketService.ts:32-37 | drops the socket and its listeners |
| Socket.SocketService.Emit | src/services/socketService.ts:57-61 | sends only when a socket exists |
| Socket.SocketService.On | src/services/socketService.ts:63-67 | registers only when a socket exists |
| Socket.SocketService.Off | src/services/socketService.ts:69-73 | removes the matching listeners only when a socket exists |
| ItemCustomization.InitialState | src/components/customer/ItemCustomizationModal.tsx:13-16 | quantity 1, the first variation if any, no add-ons, empty note |
| ItemCustomization.Candidate | src/components/customer/ItemCustomizationModal.tsx:21-36 | the line handed to the cart carries the dialog's variation, add-ons, quantity and note, priced (unit + add-ons) × quantity with the 0-price fallback |
| ItemCustomization.SecondAddDropsAddonCost | src/components/customer/ItemCustomizationModal.tsx:21-25 | adding the same customised line twice loses the add-on cost of both adds |
| ItemCustomization.ToggleFlipsOnlyItsId | src/components/customer/ItemCustomizationModal.tsx:39-45 | toggling flips whether the add-on's id is chosen and leaves every other id's choice unchanged |
| ItemCustomization.ToggleKeepsIdsUnique | src/components/customer/ItemCustomizationModal.tsx:39-45 | the selection never holds two add-ons with one id |
| ItemCustomization.ToggleTwiceRestoresUnselected | src/components/customer/ItemCustomizationModal.tsx:39-45 | toggling an unchosen add-on twice restores the selection |
| ItemCustomization.ToggleTwiceMovesSelectedToEnd | src/components/customer/ItemCustomizationModal.tsx:39-45 | toggling a chosen add-on twice keeps the same ids but moves it to the end |
| ItemCustomization.Decrement | src/components/customer/ItemCustomizationModal.tsx:65 | one less, never below 1 |
| ItemCustomization.Increment | src/components/customer/ItemCustomizationModal.tsx:72 | exactly one more |
| CartView.Totals | src/components/customer/CartView.tsx:19-21 | subtotal = cart total, tax = 18% of it, total = 118% of it; all 0 for an empty cart |
| CartView.TotalsTrackAdd | src/components/customer/CartView.tsx:19-21 | an add moves the footer total by 118% of the store total's change |
| CartView.AddonIds | src/components/customer/CartView.tsx:32 | the add-on ids in order |
| CartView.PayloadItemOf | src/components/customer/CartView.tsx:28-34 | an entry names the line's key and carries its quantity, note and add-on ids |
| CartView.Payload | src/components/customer/CartView.tsx:28-34 | one entry per cart line, in cart order |
| CartView.PayloadCarriesItemCount | src/components/customer/CartView.tsx:28-34 | the request orders as many units as the cart's item count |
| CartView.PayloadKeysUnique | src/components/customer/CartView.tsx:28-34 | one request entry per key when the cart has one line per key |
| CartView.Checkout | src/components/customer/CartView.tsx:23-52 | no customer: nothing happens; success: the cart's request is placed, the cart is cleared and the orders page opens; failure: the cart is unchanged |
| CartView.IdleCheckoutEnabledIffNonEmpty | src/components/customer/CartView.tsx:133 | when idle, checkout is enabled iff the cart is non-empty |
| CartView.MinusAtOneRemovesLine | src/components/customer/CartView.tsx:95 | minus at quantity 1 removes the line and keeps the rest in order |
| CartView.MinusAboveOneDecrements | src/components/customer/CartView.tsx:95 | minus above 1 lowers the quantity by one, reprices, and lowers the item count by one |
| CartView.PlusIncrements | src/components/customer/CartView.tsx:102 | plus raises the quantity by one, reprices, and raises the item count by one |
| CartView.PressMinus | src/components/customer/CartView.tsx:95 | requests quantity − 1 for the line; at 1 the line goes |
| CartView.PressPlus | src/components/customer/CartView.tsx:102 | requests quantity + 1 for the line |
| CartView.PressRemove | src/components/customer/CartView.tsx:85 | removes the line's key; with unique keys exactly that line |
| MenuPage.Lower | src/pages/customer/MenuPage.tsx:81-83 | same length, each character lowered |
| MenuPage.LowerIdempotent | src/pages/customer/MenuPage.tsx:81-83 | lowering twice is lowering once |
| MenuPage.ContainsEmpty | src/pages/customer/MenuPage.tsx:81-83 | every string includes "" |
| MenuPage.SearchIgnoresCase | src/pages/customer/MenuPage.tsx:81-83 | a query and its lower-cased form match the same items |
| MenuPage.VeganOnlyUnderAll | src/pages/customer/MenuPage.tsx:85 | a vegan item passes the dietary test iff the filter is "ALL" |
| MenuPage.FilterItemsMembers | src/pages/customer/MenuPage.tsx:80-86 | an item is shown iff it is in the category and passes both tests |
| MenuPage.FilterItemsKeepsOrder | src/pages/customer/MenuPage.tsx:80-86 | shown items keep their order |
| MenuPage.NoFilterShowsAll | src/pages/customer/MenuPage.tsx:80-86 | empty query and "ALL" show every item |
| MenuPage.NarrowAll | src/pages/customer/MenuPage.tsx:78-87 | each category narrowed, same length and order |
| MenuPage.FilteredCategories | src/pages/customer/MenuPage.tsx:78-89 | every category shown has items |
| MenuPage.NarrowedHasItemsIff | src/pages/customer/MenuPage.tsx:78-89 | a narrowed category has items iff one of its items passes both tests; all it keeps pass |
| MenuPage.CategoryShownIff | src/pages/customer/MenuPage.tsx:78-89 | a category is shown iff one of its items passes both tests |
| MenuPage.FilteredCategoriesKeepOrder | src/pages/customer/MenuPage.tsx:78-89 | shown categories keep their order |
| MenuPage.DirectCandidate | src/pages/customer/MenuPage.tsx:69-74 | quantity 1, no variation, no add-ons, priced at the item price |
| MenuPage.DirectAddsStayPriced | src/pages/customer/MenuPage.tsx:69-74 | n direct adds give one line of quantity n priced n × item price |
| MenuPage.HandleAddToCart | src/pages/customer/MenuPage.tsx:58-76 | no customer: OTP dialog, cart unchanged; customisable: the dialog, cart unchanged; otherwise the direct line is added |
| OrdersPage.HandleOrderUpdate | src/pages/customer/OrdersPage.tsx:49-55 | same length; matching orders get the status and nothing else; others unchanged |
| OrdersPage.OrderUpdateUnknownId | src/pages/customer/OrdersPage.tsx:49-55 | an unknown id changes nothing and inserts nothing |
| OrdersPage.OrderUpdateLatestWins | src/pages/customer/OrdersPage.tsx:49-55 | a later event for the same order overrides an earlier one |
| OrdersPage.PatchKots | src/pages/customer/OrdersPage.tsx:60-62 | same length; tickets with the id get the status, others unchanged |
| OrdersPage.HandleKotUpdate | src/pages/customer/OrdersPage.tsx:57-66 | same length and order; each order gets its tickets patched and nothing else |
| OrdersPage.KotUpdateSetsMatching | src/pages/customer/OrdersPage.tsx:57-66 | after the event every ticket with the id has the status; others are unchanged |
| OrdersPage.KotUpdateUnknownId | src/pages/customer/OrdersPage.tsx:57-66 | an unknown ticket id changes nothing |
| OrdersPage.Mount | src/pages/customer/OrdersPage.tsx:16-27 | joins the table's room and registers both handlers, when a socket exists |
| OrdersPage.Cleanup | src/pages/customer/OrdersPage.tsx:28-34 | leaves the room and removes exactly the two handlers, when a socket exists |
| OrdersPage.CleanupUndoesMount | src/pages/customer/OrdersPage.tsx:16-34 | cleanup after mount restores the listeners |
| BillRequest.UnpaidOrdersMembers | src/pages/customer/BillRequestPage.tsx:26-28 | an order is billed iff it was received and is UNPAID; order is kept |
| BillRequest.Subtotal | src/pages/customer/BillRequestPage.tsx:44-46 | 0 for no orders |
| BillRequest.Tax | src/pages/customer/BillRequestPage.tsx:48-50 | 0 for no orders and when no order has a tax amount |
| BillRequest.Total | src/pages/customer/BillRequestPage.tsx:52-54 | 0 for no orders |
| BillRequest.TotalIsSubtotalPlusTax | src/pages/customer/BillRequestPage.tsx:44-54 | when each order's total is subtotal + tax, so is the bill's |
| BillRequest.BillOfBatches | src/pages/customer/BillRequestPage.tsx:26-54 | the three sums over two batches are the sums of each |
| BillRequest.BillPage.constructor | src/pages/customer/BillRequestPage.tsx:37-42 | the flag starts unset |
| BillRequest.BillPage.RequestBill | src/pages/customer/BillRequestPage.tsx:37-42 | with a table id: flag set, the request sent only when a socket exists; without one nothing happens |
| BillRequest.BillPage.RequestBillConnected | src/pages/customer/BillRequestPage.tsx:37-42 | with a table id: flag set and the request sent exactly once |
| BillRequest.LostBillRequest | src/pages/customer/BillRequestPage.tsx:37-42 | in a fresh session the flag is set but nothing is sent |
| BillRequest.DeliveredBillRequest | src/pages/customer/BillRequestPage.tsx:37-42 | with the corrected request the same session sends it |
| Dashboard.HandleNewOrder | src/pages/restaurant/Dashboard.tsx:74-75 | the new order first, then the old list unchanged |
| Dashboard.NewOrderAsStoreAdd | src/pages/restaurant/Dashboard.tsx:74-75 | applied to the order store's list, the new-order handler gives what the store's `addOrder` (useStore.ts:174) leaves; the current order is untouched |
| Dashboard.StatusEventAgreesWithStore | src/pages/restaurant/Dashboard.tsx:80-86 | the status handler equals the store's updateOrder with a status-only patch |
| Dashboard.TableStatusColor | src/pages/restaurant/Dashboard.tsx:102-113 | AVAILABLE, OCCUPIED, RESERVED get their class; every other status the default |
| Dashboard.TableColorsDistinct | src/pages/restaurant/Dashboard.tsx:102-113 | the three named statuses get distinct classes |
| Dashboard.WithoutEventsMembers | src/pages/restaurant/Dashboard.tsx:44-47 | a listener survives iff its event is not removed |
| Dashboard.WithoutEventsAppend | src/pages/restaurant/Dashboard.tsx:44-47 | removal distributes over concatenation |
| Dashboard.WithoutEventsKeepsOthers | src/pages/restaurant/Dashboard.tsx:44-47 | removing events no listener is registered for changes nothing |
| Dashboard.CleanupUndoesMount | src/pages/restaurant/Dashboard.tsx:35-47 | when no listener for the four events existed before the mount, cleanup restores exactly the listeners the mount found |
| Dashboard.WithoutDashboardEvents | src/pages/restaurant/Dashboard.tsx:44-47 | removing the four events is four `off` calls in turn |
| Dashboard.Mount | src/pages/restaurant/Dashboard.tsx:24-38 | no user: navigate to login, no socket call; otherwise connect, join the restaurant, register four handlers |
| Dashboard.Cleanup | src/pages/restaurant/Dashboard.tsx:40-48 | leaves the restaurant and removes every listener for the four events |
| OrderDetail.NormaliseOrder | src/pages/restaurant/OrderDetailPage.tsx:23-28 | items from orderItems or []; totalAmount from total if set; taxAmount from tax if set; nothing else changes |
| OrderDetail.NormaliseIdempotent | src/pages/restaurant/OrderDetailPage.tsx:23-28 | normalising twice is normalising once |
| OrderDetail.NextStatus | src/pages/restaurant/OrderDetailPage.tsx:116-156 | a next status is offered exactly for PENDING, CONFIRMED, PREPARING, READY |
| OrderDetail.KotOfferedWithConfirm | src/pages/restaurant/OrderDetailPage.tsx:117-129 | KOT generation is offered exactly when confirming is (PENDING) |
| OrderDetail.Rank | src/pages/restaurant/OrderDetailPage.tsx:117-155 | position on the path, at most 4, and 4 only for SERVED |
| OrderDetail.NextStatusAdvancesRank | src/pages/restaurant/OrderDetailPage.tsx:117-155 | each offered step moves exactly one place; only SERVED offers none |
| OrderDetail.AdvanceRaisesRank | src/pages/restaurant/OrderDetailPage.tsx:117-155 | n presses raise the rank by n |
| OrderDetail.AdvanceReachesServed | src/pages/restaurant/OrderDetailPage.tsx:117-155 | SERVED is reached in 4 − rank presses |
| OrderDetail.NeverRevisits | src/pages/restaurant/OrderDetailPage.tsx:117-155 | no status is visited twice |
| OrderDetail.CancelledIsFinal | src/pages/restaurant/OrderDetailPage.tsx:116-156 | a cancelled order never moves |
| OrderDetail.UpdateHeldStatus | src/pages/restaurant/OrderDetailPage.tsx:49-57 | success changes only the status; failure changes nothing |
| OrderDetail.PressMovesOnePlace | src/pages/restaurant/OrderDetailPage.tsx:49-57 | a successful press moves the order one place and changes no other field |
| Billing.InitialState | src/pages/restaurant/BillingPage.tsx:12 | no order, discount 0, CASH selected (one of the offered methods) |
| Billing.Loaded | src/pages/restaurant/BillingPage.tsx:24-30 | the held order is the normalised response |
| Billing.SelectMethod | src/pages/restaurant/BillingPage.tsx:223 | sets the method only |
| Billing.SetDiscount | src/pages/restaurant/BillingPage.tsx:209 | any number is taken as the discount |
| Billing.AppliedDiscount | src/pages/restaurant/BillingPage.tsx:40-52 | success: the raw response is held; failure: nothing changes |
| Billing.MethodAlwaysOffered | src/pages/restaurant/BillingPage.tsx:12 | the method stays one of CASH, CARD, UPI |
| Billing.FinalTotal | src/pages/restaurant/BillingPage.tsx:88 | total − discount, negative when the discount exceeds the total |
| Billing.FinalTotalOfLoaded | src/pages/restaurant/BillingPage.tsx:24-30 | on a loaded order the amount due is `total` less the discount |
| Billing.DiscountLineReconciles | src/pages/restaurant/BillingPage.tsx:175-180 | the amount due (line 88) equals the order total less the shown discount line iff the discount is not negative; a negative discount raises the amount due with no line shown |
| Billing.TaxShown | src/pages/restaurant/BillingPage.tsx:173 | taxAmount when set, otherwise tax |
| Billing.TaxShownOfLoaded | src/pages/restaurant/BillingPage.tsx:24-30 | on a loaded order the tax line shows `tax` when set |
| Billing.AppliedOrderNotNormalised | src/pages/restaurant/BillingPage.tsx:40-52 | after a discount the amount due can differ from the normalised order's |
| TableDetail.NormaliseListed | src/pages/restaurant/TableDetailPage.tsx:30-34 | items and totalAmount normalised; taxAmount and everything else unchanged |
| TableDetail.ListedAgreesWithDetail | src/pages/restaurant/TableDetailPage.tsx:30-34 | agrees with the order page's normalisation except for taxAmount |
| TableDetail.NormaliseAll | src/pages/restaurant/TableDetailPage.tsx:30-34 | each order normalised, same length and order |
| TableDetail.GenerateBillPicksFirstActive | src/pages/restaurant/TableDetailPage.tsx:44-49 | the target is the first non-cancelled order; none iff all are cancelled |
| TableDetail.DisabledIffNoTarget | src/pages/restaurant/TableDetailPage.tsx:99 | the button is disabled iff there is no target |
| TableDetail.NormaliseKeepsTarget | src/pages/restaurant/TableDetailPage.tsx:30-49 | normalising does not change the target |
| OrderHistory.InitialFilters | src/pages/restaurant/OrderHistoryPage.tsx:14-21 | page 1 of 10, "ALL" statuses, no dates |
| OrderHistory.FilterChange | src/pages/restaurant/OrderHistoryPage.tsx:60-62 | sets the chosen filter, page 1, every other filter unchanged |
| OrderHistory.FilterChangeReadBack | src/pages/restaurant/OrderHistoryPage.tsx:60-62 | after a change the chosen input reads the new value and every other input its old one |
| OrderHistory.FilterChangeSameValue | src/pages/restaurant/OrderHistoryPage.tsx:60-62 | for every input, re-choosing its current value only resets the page |
| OrderHistory.FilterChangesCommute | src/pages/restaurant/OrderHistoryPage.tsx:60-62 | changes to two different filters commute |
| OrderHistory.Previous | src/pages/restaurant/OrderHistoryPage.tsx:224 | one page back, never below 1 |
| OrderHistory.Next | src/pages/restaurant/OrderHistoryPage.tsx:231 | one page on, never past the last |
| OrderHistory.StepsKeepPageInRange | src/pages/restaurant/OrderHistoryPage.tsx:224-232 | from a valid page both give a valid page |
| OrderHistory.NextRepeatedReachesLast | src/pages/restaurant/OrderHistoryPage.tsx:231 | enough Next presses stop at the last page |
| OrderHistory.RangeEnd | src/pages/restaurant/OrderHistoryPage.tsx:241 | the smaller of page × limit and the total |
| OrderHistory.RangeWellFormed | src/pages/restaurant/OrderHistoryPage.tsx:241 | for a non-empty page the range starts ≤ ends ≤ total and spans at most one page |
| OrderHistory.PageButtons | src/pages/restaurant/OrderHistoryPage.tsx:246 | button k is page k + 1, totalPages of them |
| OrderHistory.PageButtonsCoverPages | src/pages/restaurant/OrderHistoryPage.tsx:246 | strictly ascending, exactly the pages 1..totalPages |
| OrderHistory.Query | src/pages/restaurant/OrderHistoryPage.tsx:38-45 | starts with page, limit, status, paymentStatus |
| OrderHistory.QueryDatesIffSet | src/pages/restaurant/OrderHistoryPage.tsx:43-44 | each date is sent iff it is non-empty, and then with its value; the query has four parameters plus one per date sent |
| OrderCard.Preview | src/components/restaurant/OrderCard.tsx:64 | at most the first three items, in order |
| OrderCard.MoreCount | src/components/restaurant/OrderCard.tsx:72-76 | "+N more" iff more than three items |
| OrderCard.PreviewAndMoreCoverAll | src/components/restaurant/OrderCard.tsx:64-76 | listed plus hidden make up every item |
| OrderCard.StatusColor | src/components/restaurant/OrderCard.tsx:13-27 | CONFIRMED and PREPARING share blue; SERVED and unknown statuses share the default |
| OrderCard.StatusIcon | src/components/restaurant/OrderCard.tsx:29-41 | READY and SERVED share the check; PREPARING the chef's hat; the rest the clock |
| OrderCard.CardDistinguishesActiveStatuses | src/components/restaurant/OrderCard.tsx:13-41 | colour and icon together tell PENDING, CONFIRMED, PREPARING, READY apart |

## Left out

- HTTP requests and `await` ordering: a request's success or failure is a parameter (`postSucceeds`, `succeeded`), and the data loads and reloads after events are not modelled.
- Event delivery by the socket.io server, reconnection, and the callbacks running later: the socket is the list of registered listeners and the log of what was sent.
- The `persist` middleware: stored store state is plain fields. Browser storage is modelled only where the code writes it by hand (`authToken`, `user`).
- JSX rendering, routing, Toast timers, `toFixed`, and date formatting and parsing. The OTP dialog, staff login, menu management, table management, QR codes and `tableService.ts` are not part of this model: they are request plumbing or rendering.
- The order history page's redirect without a user (OrderHistoryPage.tsx:28-31) and its row colours (OrderHistoryPage.tsx:64-73); the page-button click only sets `page`.
- The card's click navigation (OrderCard.tsx:45).
- CartStore.Cart.AddItem, CartStore.Cart.UpdateQuantity: `addItem` (useStore.ts:120-123) and `updateQuantity` (useStore.ts:148-150) assign into the existing line object, which the shallow array copy shares with the previous state, so a line object held elsewhere also changes; the model replaces the line in a sequence of values and does not capture that aliasing.
- Socket.SocketService.Off, Dashboard.Cleanup: `off` is modelled as removing every registered listener that matches the event (and the callback, when one is named). The wrapper forwards to socket.io-client (socketService.ts:71), whose own removal rule, for example removing only the first match when a callback argument is passed, even an undefined one, is not modelled. Handlers are identified by name, so two pages' closures with the same role are one value.
- Socket.OffAllMembers: states the modelled remove-every-match rule for `off` without a callback, not socket.io-client's behaviour.
- Dashboard.CleanupUndoesMount, OrdersPage.CleanupUndoesMount: stated only for listener lists that, before the mount, held no listener the cleanup would match (on the dashboard, none for its four events; on the orders page, neither of its two handlers); under that condition remove-every-match and remove-first-match agree.
- MenuPage.Lower: lower-cases ASCII letters only; `toLowerCase` on other Unicode letters is not modelled.
- Stores.UpdateOrders and Stores.UpdateTables: a `Partial<Order>` / `Partial<Table>` patch is limited to the fields listed in `OrderPatch` / `TablePatch`.
- The request interceptor's own error branch (apiService.ts:24-26) only rejects the error and is not modelled.

## Findings

| source | as written | input that shows it | evidently intended | confidence | as-written member | corrected member |
|---|---|---|---|---|---|---|
| src/pages/customer/BillRequestPage.tsx:37-42 | the bill request is sent with `socketService.emit`, but only the staff dashboard calls `connect` (Dashboard.tsx:31); on a customer's browser no socket exists and `emit` is skipped (socketService.ts:57-61) | a fresh customer session requesting the bill for table "t1": the flag is set and nothing is sent | connect before emitting, so the request is sent whenever the page says it was | not executed | BillRequest.LostBillRequest | BillRequest.DeliveredBillRequest |
