# Canteen client: a Dafny model of its state rules

This project models the logic of the customer web client of a canteen
ordering system: the menu slice of its store (the kitchen inventory with the
loading flag and error message of the fetch that fills it), the application
shell (the route-to-tab mapping of the bottom navigation, the cart and orders
badges, the notification feed filled by the server's push events and cleared
when the notification menu closes, the kitchen status and the call-the-kitchen
button), the payment receipt (paise shown as rupees, the refund line and the
fallbacks for missing fields) and the guard in front of protected pages.

Modules, one per source file:

- `MenuSlice` (`menu_slice.dfy`): the reducer `Reduce` as a pure function, a
  run of actions `Run`, and `MenuStore`, the same transitions as in-place
  field updates. `Reduce`'s contract states each transition field by field;
  lemmas state, for whole runs, that each field is decided by the latest
  action that writes it.
- `Layout` (`layout.dfy`): the tab switch, the badge predicates, the mapping
  from pushed event to feed record, the shared feed and kitchen status as a
  step function `Step` over inputs (an event with its arrival time, the
  menu closing, or a refetched kitchen status), the call control, the menu rows, and the classes `Store`,
  `LayoutView` and `NotificationMenu` for the state the source updates
  through dispatches and setters.
- `Bill` (`bill.dfy`) with `Decimal` (`decimal.dfy`): the receipt as a
  function of the payment record, the cart items and the customer's name;
  money formatting with a proved round trip.
- `ProtectedRoute` (`protected_route.dfy`): the guard's decision.
- `Wrappers` (`wrappers.dfy`): `Option`, for the source's `null` and
  missing properties.

The tab switch compares the path with `/:${kitchenId}...` while the
navigation buttons go to `/${kitchenId}...`: the case strings contain a ':'
that the buttons' paths do not. The model keeps the switch as written, and
`Layout.NavTargetsSelectMenuTab` proves what follows from it: no path the
buttons produce ever selects tabs 1-3; each selects tab 0.

## Model

| member | source | states |
|---|---|---|
| `MenuSlice.RejectionError` | src/store/slices/menuSlice.ts:55 | the stored error is the action's message when present and non-empty, otherwise "Failed to fetch data"; never empty |
| `MenuSlice.Reduce` | src/store/slices/menuSlice.ts:42-56 | pending sets loading and clears the error; fulfilled clears loading and replaces the inventory, leaving the error; rejected clears loading and sets the error; inventory untouched by pending and rejected; any other action changes nothing |
| `MenuSlice.SettledIsNotLoading` | src/store/slices/menuSlice.ts:49-56 | after a fulfilled or rejected outcome the slice is not loading; after a rejection the error is present and non-empty |
| `MenuSlice.PendingThenFulfilled` | src/store/slices/menuSlice.ts:45-52 | pending then fulfilled, from any state, ends with the payload as inventory, not loading, no error |
| `MenuSlice.InventoryIsLatestPayload` | src/store/slices/menuSlice.ts:49-52 | after any run the inventory is the payload of the latest fulfilled outcome |
| `MenuSlice.ErrorIsLatestFailure` | src/store/slices/menuSlice.ts:45-56 | after any run the error is null if the latest pending-or-rejected action was pending, else that rejection's error text |
| `MenuSlice.LoadingIffLatestOutcomePending` | src/store/slices/menuSlice.ts:45-56 | after any run the slice is loading exactly when its latest fetch outcome is pending |
| `MenuSlice.MenuStore.constructor` | src/store/slices/menuSlice.ts:25-29 | initial state: empty inventory, not loading, no error |
| `MenuSlice.MenuStore.Pending` | src/store/slices/menuSlice.ts:45-48 | sets loading, clears the error, inventory unchanged |
| `MenuSlice.MenuStore.Fulfilled` | src/store/slices/menuSlice.ts:49-52 | clears loading, inventory becomes the payload, error unchanged |
| `MenuSlice.MenuStore.Rejected` | src/store/slices/menuSlice.ts:53-56 | clears loading, error becomes the message or the fallback, inventory unchanged |
| `MenuSlice.MenuStore.Dispatch` | src/store/slices/menuSlice.ts:39-58 | the new state is the reducer applied to the old state; an action without a case leaves the state unchanged |
| `Layout.NavTarget` | src/Layout.tsx:248-253 | a button's target is "/", the kitchen id, then exactly the tab's section ("", "/cart", "/orders", "/profile") |
| `Layout.CasePath` | src/Layout.tsx:96-107 | a case string is "/:", the kitchen id, then exactly the tab's section |
| `Layout.TabIndex` | src/Layout.tsx:95-111 | the tab is in 0..3, and a tab other than 0 is chosen only by that tab's exact case string |
| `Layout.TabIndexOfCasePath` | src/Layout.tsx:95-107 | each exact case string selects its own tab |
| `Layout.NavTargetsSelectMenuTab` | src/Layout.tsx:95-111 | every path a navigation button produces selects tab 0, for every kitchen id |
| `Layout.OrderNotifications` | src/Layout.tsx:187 | the filter keeps the same order records as the feed, as a set, and is no longer than the feed |
| `Layout.OrdersInvisible` | src/Layout.tsx:187-195 | the orders badge is hidden iff no record in the feed has type order |
| `Layout.KitchenStatusText` | src/Layout.tsx:170 | the text is "Kitchen: online" iff the status is true, "Kitchen: offline" iff false |
| `Layout.ToNotification` | src/Layout.tsx:153-171 | each event gives one record of its own type stamped with the arrival time: menu keeps the payload, order keeps the payload's message, kitchen status the online/offline text |
| `Layout.Step` | src/Layout.tsx:153-171 | an event appends exactly its record; closing the menu empties the feed and keeps the status; a status event or refresh overwrites the status, other events keep it; a refresh adds no record |
| `Layout.After` | src/Layout.tsx:153-171 | over a run of inputs the feed grows by at most one record per input |
| `Layout.Records` | src/Layout.tsx:153-171 | the records of the pushed events of a run, in arrival order, at most one per input |
| `Layout.RecordsOfDeliveries` | src/Layout.tsx:153-171 | for a run of events only, there is exactly one record per event, the i-th record being the i-th event's |
| `Layout.RecordsLength` | src/Layout.tsx:153-171 | a run yields exactly one record per pushed event, whatever refreshes or closes it holds |
| `Layout.AfterDeliveries` | src/Layout.tsx:153-171 | with no close in between, the feed is the old feed followed by the records of the events, in arrival order; nothing earlier is removed or reordered |
| `Layout.FeedSinceLastClose` | src/Layout.tsx:275-292 | after the latest close the feed (whose length is the value passed to the bell badge) is exactly the records of the events since that close, in order, so its length is the number of those events |
| `Layout.KitchenStatusLastWriteWins` | src/Layout.tsx:168-171 | the kitchen status is the value written by the latest pushed status event or path-change refresh |
| `Layout.OrdersBadgeShownAfterOrder` | src/Layout.tsx:161-195 | an order event not followed by a close keeps the orders badge visible |
| `Layout.DialTarget` | src/Layout.tsx:201-203 | the dial string is "tel:+91" followed by the kitchen number |
| `Layout.CallButton` | src/Layout.tsx:209-230 | the call button is shown iff logged in, has an action iff logged in and the kitchen is online, and that action dials "tel:+91" and the number |
| `Layout.MenuRows` | src/Layout.tsx:309-326 | an empty feed shows exactly one "No new notifications" row; otherwise one row per record, in feed order, with its text and date |
| `Layout.Store.AddNotification` | src/Layout.tsx:153-171 | `addNotification` appends its record to the feed |
| `Layout.Store.ClearNotifications` | src/Layout.tsx:290-292 | `clearNotifications` empties the feed |
| `Layout.Store.SetKitchenStatus` | src/Layout.tsx:171 | `setKitchenStatus` overwrites the stored status |
| `Layout.LayoutView.constructor` | src/Layout.tsx:72-81 | the shell starts on tab 0 with the cart badge hidden and the orders badge shown |
| `Layout.LayoutView.SyncTab` | src/Layout.tsx:93-113 | the path effect sets the selected tab to the switch's result, in 0..3 |
| `Layout.LayoutView.SelectTab` | src/Layout.tsx:244-246 | the navigation's change handler sets the selected tab |
| `Layout.LayoutView.SyncCartBadge` | src/Layout.tsx:115-123 | the cart badge is hidden iff the cart has no line items |
| `Layout.LayoutView.SyncOrdersBadge` | src/Layout.tsx:185-198 | the orders badge is hidden iff no record in the feed has type order |
| `Layout.LayoutView.Receive` | src/Layout.tsx:152-173 | a pushed event appends its one record to the store's feed and, for a kitchen-status event, overwrites the kitchen status |
| `Layout.LayoutView.RefreshKitchenStatus` | src/Layout.tsx:86-89 | the path-change refetch overwrites the stored kitchen status and leaves the feed alone |
| `Layout.LayoutView.Call` | src/Layout.tsx:213-224 | the call button has an action iff logged in and the stored kitchen status is true |
| `Layout.NotificationMenu.constructor` | src/Layout.tsx:263-265 | the menu starts closed with no snackbar and no selection |
| `Layout.NotificationMenu.BadgeCount` | src/Layout.tsx:297 | the value passed to the bell badge is the feed's length |
| `Layout.NotificationMenu.HandleClick` | src/Layout.tsx:271-273 | clicking the bell anchors and opens the menu |
| `Layout.NotificationMenu.HandleClose` | src/Layout.tsx:275-292 | closing drops the anchor and clears the feed, so the badge count is 0 |
| `Layout.NotificationMenu.HandleSnackbarOpen` | src/Layout.tsx:280-283 | choosing a row selects its text and opens the snackbar |
| `Layout.NotificationMenu.HandleSnackbarClose` | src/Layout.tsx:285-288 | closing the snackbar clears the selection |
| `Decimal.NatToString` | src/components/BillComponent.tsx:98-99 | a number is written as a non-empty string of digits with no leading zero, one digit exactly below ten |
| `Decimal.ParseNatToString` | src/components/BillComponent.tsx:98-99 | reading a written number back gives the number |
| `Decimal.TwoDigits` | src/components/BillComponent.tsx:108 | the paise part is exactly two digits that read back to it |
| `Bill.Rupees` | src/components/BillComponent.tsx:108 | the amount text is digits with no leading zero (except a single 0 of rupees), a point, and exactly two digits |
| `Bill.RupeesRoundTrip` | src/components/BillComponent.tsx:108 | reading the rupee text back gives the original paise |
| `Bill.RupeesInjective` | src/components/BillComponent.tsx:108-110 | two amounts display the same iff they are equal |
| `Bill.OrEmpty` | src/components/BillComponent.tsx:79 | a null bank renders as nothing, otherwise as itself |
| `Bill.TransactionId` | src/components/BillComponent.tsx:74 | the transaction id is empty when the acquirer data is absent, else its bank transaction id |
| `Bill.AddressText` | src/components/BillComponent.tsx:121 | the address is the notes' address when present and non-empty, otherwise "N/A" |
| `Bill.InternationalText` | src/components/BillComponent.tsx:130 | "Yes" iff international, "No" iff not |
| `Bill.Millis` | src/components/BillComponent.tsx:129 | the created-at seconds become milliseconds: a multiple of 1000 that divides back to the seconds |
| `Bill.RowFor` | src/components/BillComponent.tsx:95-101 | an item row carries the item's id as key, its name, and its price and quantity as numerals without leading zeros that read back to them |
| `Bill.Render` | src/components/BillComponent.tsx:54-134 | one row per cart item in input order; the amount text is `Rupees` of the paise and reads back to them; the refund line is present iff the refund is non-zero, is `Rupees` of the refund and reads back to it; fallbacks for transaction id, bank and address; status, description, method, ids and customer fields passed through; created-at times 1000; "Yes" or "No" by the international flag |
| `ProtectedRoute.SigninPath` | src/ProtectedRoute.tsx:16 | the redirect target is "/", the kitchen id, then "/signin" |
| `ProtectedRoute.Guard` | src/ProtectedRoute.tsx:14-19 | logged in: the children unchanged and no alert; otherwise a redirect to the kitchen's sign-in page, and the alert is raised exactly on the redirect |
| `ProtectedRoute.DecisionIgnoresKitchen` | src/ProtectedRoute.tsx:14-19 | whether the children render depends only on the login flag; the kitchen id changes only the redirect target |
| `ProtectedRoute.SigninPathInjective` | src/ProtectedRoute.tsx:16 | different kitchens redirect to different sign-in paths |

## Left out

- The push transport (src/Layout.tsx:64-68, 143-183): connecting, the
  reconnection policy, registering the user on connect, the connection flag
  and removing listeners on unmount. Events enter the model only as inputs.
- Notification sounds and the audio cache (src/Layout.tsx:28-54): browser
  Cache API and audio playback whose errors are only logged.
- The scroll reset and the browser notification permission request
  (src/Layout.tsx:126-139).
- Navigation side effects: assigning the dial string to the window location
  and the `navigate` calls; only the strings are modelled.
- Network requests: the inventory fetch, the kitchen-status refetch on every
  path change and the login-status check. The inventory fetch's outcomes enter
  as reducer actions; the login flag is a parameter. The app slice that
  handles the kitchen-status refetch is not part of this model: the model
  assumes a completed refetch overwrites the stored status (the input
  `KitchenStatusRefreshed`); what a failed refetch does is unknown and not
  modelled.
- Dates: arrival time stamps and the displayed dates are opaque strings; the
  clock is a parameter of `Receive` and `Deliver`.
- Bill.Rupees: models `toFixed(2)` on integer paise with integer division;
  for large amounts, from about 100·2^46 paise (about 7.04·10^15), the double
  nearest to paise/100 can round to a different last digit, and this is not
  modelled; nor are negative amounts (amounts are `nat`), nor the exponent
  form ("1e+21") JavaScript writes from 10^21 rupees upward.
- Bill.RowFor: prices and quantities are whole numbers; how JavaScript
  writes a fractional price is not modelled, nor the exponent form ("1e+21")
  it writes for whole numbers of 10^21 and above, where the model writes
  every digit.
- Layout.ToNotification: the kitchen status is a boolean; the truthiness of
  other JSON values the server might send is not modelled, and the menu
  event's payload is an opaque string.
- ProtectedRoute.Guard: the alert is returned as data, not shown.
- The notifications, app, cart and auth slices are not part of this model:
  the feed is appended and cleared, and the kitchen status set, exactly as the
  shell uses them. The feed's and the kitchen status's initial values are
  parameters of the `Store` constructor; the cart and the login flag are
  parameters of the methods that read them; the kitchen id and number are
  fixed as constants of `LayoutView` for its lifetime.
- Layout.NotificationMenu.BadgeCount: states the value passed to the badge,
  not what appears on screen: the badge's display cap ("99+" above 99) and its
  hiding of a zero count are not modelled. Nor is it modelled that the bell,
  its menu and its snackbar exist only while the user is logged in, or that
  their local state (anchor, snackbar, selection) starts over each time they
  mount again.
- Layout.NotificationMenu.HandleSnackbarClose: the snackbar's automatic close
  after 3000 ms calls this handler; the timer itself is not modelled.
- Rendering and styling: MUI layout, the marquee, the translation widget,
  the colour-mode selector and the feedback modal; the labels and the "₹"
  sign printed before the price, amount and refund; the index keys of the
  notification menu's rows (the receipt's item keys are modelled).
- The error boundary (src/ErrorBoundary.tsx) and the route table
  (src/App.tsx) carry no logic of their own.
