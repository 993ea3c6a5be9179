# Food-drone customer dashboard: cart and selection state

This project models the client-side state of the customer dashboard of a
food-ordering web application with drone delivery
(`public/customer_dashboard.js`). That state is:

- the **multi-restaurant cart**. It is a table from restaurant ID to the list
  of entries `{id, name, price, restaurantName}` the customer has ticked on
  that restaurant's menu, and it persists when the customer switches between
  menus;
- the **menu panel state**: `activeRestaurantID`, the restaurant whose menu is
  open, and `menuCache`, the menus already fetched;
- the **checked-state rule**: a menu checkbox starts ticked exactly when the
  cart already holds that item;
- **order tracking**: the text shown for the status the server reports, and
  the list of at most five notifications shown for an order.

Modules, one per concern of that file:

- `Seqs` (`seqs.dfy`) holds `Filter`, JavaScript's order-preserving
  `Array.prototype.filter`, and its lemmas.
- `Options` (`options.dfy`) holds the `Option` datatype.
- `ShoppingCart` (`cart.dfy`) holds the cart:
  - the entry and price datatypes;
  - the sums `BucketTotal` (one restaurant's entries) and `Total` (all
    buckets; a recursive ghost function over the map's keys);
  - `Toggled`, the pure specification of one checkbox change, and its lemmas;
  - the `Cart` class, whose `Toggle`, `Clear` and `RenderTotal` methods change
    and read the `buckets` field the way the page changes and reads its
    module-level `cart` object.
- `Menu` (`menu.dfy`) holds the rendering of a menu into checkboxes and the
  `MenuBrowser` class with the `activeRestaurantID` and `menuCache` fields.
- `Tracking` (`tracking.dfy`) holds the status text and the notification
  filter.

Prices are integers (paise) or `NotANumber`. `NotANumber` is what a malformed
price string becomes after `parseFloat`, and it adds 0 to the total, as
`Number(i.price) || 0` does. Every server response (`fetch`) becomes a
parameter of the operation that would have awaited it.

The code names the order statuses Placed, Paid, InTransit and Delivered only
in the status-text table (`public/customer_dashboard.js:392-397`), and
`'Delivered'` again at :403, where it disables the place-order button. The
dashboard posts to `/order/place`, `/order/pay` and `/delivery/assign`, and
those routes call the stored procedures `PlaceOrder`, `MakePayment` and
`AssignDrone` (`routes/order.js:8,31`, `routes/delivery.js:7`); a separate
route, `/delivery/complete`, calls `CompleteDelivery`
(`routes/delivery.js:16-18`) and is never requested by the dashboard. The
status transitions happen inside those stored procedures, whose bodies are
not part of this model, so no transition rule is modelled.

## Model

| member | source | states |
|---|---|---|
| `Seqs.Filter` | public/customer_dashboard.js:154 | the result keeps exactly the elements that pass the test and is no longer than the input |
| `Seqs.FilterAppend` | public/customer_dashboard.js:154 | filtering distributes over concatenation, so the kept elements stay in their original order |
| `Seqs.FilterKeepsAll` | public/customer_dashboard.js:154 | a list whose elements all pass the test comes through unchanged |
| `Seqs.FilterKeepsNone` | public/customer_dashboard.js:422 | a list none of whose elements pass the test filters to the empty list |
| `ShoppingCart.HasId` | public/customer_dashboard.js:149 | true exactly when some entry of the bucket has the given item ID |
| `ShoppingCart.WithoutId` | public/customer_dashboard.js:154 | keeps exactly the entries whose ID differs, so no entry with that ID remains |
| `ShoppingCart.WithId` | public/customer_dashboard.js:152-154 | exactly the entries that unticking removes |
| `ShoppingCart.BucketTotal` | public/customer_dashboard.js:184-187 | one bucket's sum of price values; with no negative price it is never negative and is at least each entry's value |
| `ShoppingCart.Total` | public/customer_dashboard.js:181-187 | the sum over all buckets: 0 for an empty cart, and with no negative price never negative and at least each bucket's sum |
| `ShoppingCart.NonNumericIgnored` | public/customer_dashboard.js:186 | entries whose price is not a number never change a total: the total equals the total of the numeric entries alone |
| `ShoppingCart.BucketTotalAppend` | public/customer_dashboard.js:181-187 | the total of two lists joined is the sum of their totals |
| `ShoppingCart.BucketTotalSplit` | public/customer_dashboard.js:154 | a bucket's total is the total of the entries kept by removal plus the total of the entries removed |
| `ShoppingCart.TotalRemove` | public/customer_dashboard.js:181-187 | the cart total is any one bucket's total plus the total of the rest, so the order in which buckets are visited does not matter |
| `ShoppingCart.TotalOutside` | public/customer_dashboard.js:181-187 | the cart total is the total outside one restaurant plus that restaurant's bucket total, present or not |
| `ShoppingCart.Toggled` | public/customer_dashboard.js:138-159 | a toggle changes no restaurant's bucket except `restID`'s, and leaves `restID` either absent or with a non-empty bucket |
| `ShoppingCart.ToggleOnAppends` | public/customer_dashboard.js:147-151 | ticking an item whose ID is not in the bucket appends it at the end and keeps the existing entries in order, creating the bucket if needed |
| `ShoppingCart.ToggleOnPresent` | public/customer_dashboard.js:149 | ticking an item whose ID is already in the bucket leaves the cart unchanged |
| `ShoppingCart.ToggleOffRemoves` | public/customer_dashboard.js:152-155 | unticking leaves the bucket with exactly the entries of other IDs, in order, and deletes the bucket exactly when none remain |
| `ShoppingCart.DistinctIdsAppend` | public/customer_dashboard.js:149-150 | appending an entry whose ID is absent keeps the bucket free of duplicate IDs |
| `ShoppingCart.DistinctIdsFilter` | public/customer_dashboard.js:154 | removing entries keeps the bucket free of duplicate IDs |
| `ShoppingCart.ToggleKeepsWellFormed` | public/customer_dashboard.js:145-155 | if every bucket is non-empty and has no duplicate IDs before a toggle, the same holds after it |
| `ShoppingCart.InitiallyChecked` | public/customer_dashboard.js:122-127 | a menu checkbox starts ticked exactly when the restaurant has a bucket holding an entry with the item's ID |
| `ShoppingCart.ToggleSyncsCheckbox` | public/customer_dashboard.js:121-159 | after a toggle, the checked-state rule gives back exactly the state the customer set |
| `ShoppingCart.ToggleOnOffRoundTrip` | public/customer_dashboard.js:145-155 | in a well-formed cart, ticking an item that is not in the cart and then unticking it restores the cart exactly |
| `ShoppingCart.ToggleIdempotent` | public/customer_dashboard.js:145-155 | repeating a toggle changes nothing: the second application leaves the cart as the first left it |
| `ShoppingCart.ToggleToCurrentState` | public/customer_dashboard.js:145-155 | in a well-formed cart, setting a checkbox to the state it already shows leaves the cart unchanged |
| `ShoppingCart.TogglesCommute` | public/customer_dashboard.js:138-159 | toggles on two different restaurants give the same cart in either order |
| `ShoppingCart.ToggleOnTotal` | public/customer_dashboard.js:147-158 | ticking a new item raises the total by its price value, and ticking a present one leaves the total unchanged |
| `ShoppingCart.ToggleOffTotal` | public/customer_dashboard.js:152-158 | unticking lowers the total by the total of the removed entries |
| `ShoppingCart.WithIdDistinct` | public/customer_dashboard.js:149-154 | in a bucket with distinct IDs, the entries carrying a present ID are exactly that one entry |
| `ShoppingCart.ToggleOffTotalWellFormed` | public/customer_dashboard.js:152-158 | in a well-formed cart, unticking a present item lowers the total by that entry's price value, and unticking an absent one changes nothing |
| `ShoppingCart.Cart.constructor` | public/customer_dashboard.js:17 | the cart starts empty and well-formed |
| `ShoppingCart.Cart.RenderTotal` | public/customer_dashboard.js:172-193 | the rendered total is the sum of the price values of all entries in all buckets, and 0 for an empty cart |
| `ShoppingCart.Cart.Toggle` | public/customer_dashboard.js:138-159 | the new cart is `Toggled` of the old one, it stays well-formed, and the re-rendered total is the new cart's total |
| `ShoppingCart.Cart.Clear` | public/customer_dashboard.js:161-167 | the cart becomes empty and the re-rendered total is 0 |
| `Menu.RenderMenu` | public/customer_dashboard.js:97-133 | one checkbox per menu row, in menu order, carrying the row's item ID and price and ticked exactly when the cart holds that item |
| `Menu.RenderedBoxEntry` | public/customer_dashboard.js:109-115 | the entry read back from a rendered checkbox (:139-143) carries that menu row's ID and price, the row's name and the restaurant's name as rendered into the box, and is filed under the restaurant's ID |
| `Menu.Changed` | public/customer_dashboard.js:130 | a checkbox change alters only that box's restaurant bucket, and the checked-state rule then gives back the state the customer chose |
| `Menu.ToggleKeepsOtherIds` | public/customer_dashboard.js:122-155 | a toggle does not change the checked state of any other restaurant or item ID |
| `Menu.RerenderAfterChange` | public/customer_dashboard.js:121-130 | after the customer changes box `i`, the re-rendered menu shows box `i` as set and every box for a different item as before |
| `Menu.ClearedMenuUnticked` | public/customer_dashboard.js:161-165 | after clearing, every menu renders with no box ticked |
| `Menu.MenuBrowser.constructor` | public/customer_dashboard.js:18-19 | no restaurant is active and the menu cache is empty |
| `Menu.MenuBrowser.LoadMenu` | public/customer_dashboard.js:79-92 | an empty fetched menu shows "no menu" and leaves the cache alone; a non-empty one is cached under the restaurant's ID and rendered against the cart |
| `Menu.MenuBrowser.Click` | public/customer_dashboard.js:58-76 | clicking the active restaurant makes none active and shows the placeholder; clicking another makes it active and shows its menu from the cache, or else loads it; cached menus are never dropped or changed |
| `Tracking.StatusText` | public/customer_dashboard.js:392-397 | the four known statuses get their own texts, which never begin with the fallback prefix; any other status is shown as the fallback prefix followed by the status itself |
| `Tracking.StatusTextInjective` | public/customer_dashboard.js:392-397 | different statuses are always shown with different texts |
| `Tracking.UpdateOrderStatus` | public/customer_dashboard.js:381-412 | a failed request shows the fetch error, a missing or empty status shows "no status found", and otherwise the status text is shown; the place-order button is disabled exactly for "Delivered" |
| `Tracking.ForCustomer` | public/customer_dashboard.js:422 | keeps exactly the rows of the signed-in customer |
| `Tracking.LoadNotifications` | public/customer_dashboard.js:414-443 | a failed request shows the error panel and, exactly then, overwrites the status line with the tracking error; "no updates" is shown exactly when no row belongs to the customer; otherwise between one and five of the customer's rows are shown, as a prefix of them in server order |
| `Tracking.ShownCount` | public/customer_dashboard.js:424-430 | all of the customer's rows are shown when there are at most five, and exactly five otherwise |
| `Tracking.OthersIgnored` | public/customer_dashboard.js:422 | rows of other customers, wherever they sit in the response, never change what is shown |
| `Tracking.RefreshStatusLine` | public/customer_dashboard.js:357-363 | in a refresh (status first, then notifications) a failed notification request always leaves the tracking error on the status line, whatever status was fetched; otherwise the status text stays |

## Left out

- `routes/*.js`, `server.js`, `app.js`, `public/login.js` and `public/restaurant_dashboard.js`: HTTP wiring, session storage and calls to stored procedures whose bodies are not part of this model.
- The order lifecycle (placing, paying, drone assignment, delivery completion): its rules live in stored procedures that are not part of this model, so none are modelled.
- Placing an order and the pay / assign-drone chain (`customer_dashboard.js:198-285`), the order history modal (:294-332), the restaurant list (:24-53) and the tracking prompt and polling (:341-379): these are `fetch`, `prompt`/`alert`, `setInterval` and HTML building, with no state rule beyond what is modelled.
- `fetch` itself (the notification route answers 404 when an order has no notifications yet, `routes/notification.js:43-45`, which the dashboard treats as a failed request): each response is a parameter (`served` in `Click`/`LoadMenu`, `Response` in `Tracking`); a `res.ok` failure and a JSON parse failure are the same `Failed` case.
- HTML and text rendering: `renderCart`'s restaurant headings and item lines, the notification message and date markup, and the button styling are not modelled; `RenderTotal` returns the number shown after "Total: ₹".
- Floating point: `parseFloat` and `Number` on prices are not modelled; a price is an integer number of paise or `NotANumber`, so float rounding in the running total is not captured.
- `ShoppingCart.Cart.RenderTotal`: `Object.entries` visits buckets in JavaScript's key order; the model visits them in an unspecified order, which cannot change the sum (`TotalRemove`).
- `ShoppingCart.Cart.Clear`: the DOM unticking of the checkboxes currently on screen is not modelled as page state; its consequence for any re-rendered menu is `Menu.ClearedMenuUnticked`.
- `Menu.MenuBrowser.LoadMenu`: a failed menu request is the `served == []` case as far as the state goes (the restaurant stays active, nothing is cached). The panel differs by kind of failure: an error body such as the route's `{error: ...}` (`routes/restaurant.js:45`) has no `length`, so the page shows "No menu available", as modelled; a network or JSON parse failure rejects at :82-83 with no catch, so "Loading ... menu..." stays on screen, which is not modelled.
- `Menu.RenderedBoxEntry`: item and restaurant names are written into `data-name` and `data-restaurant-name` attributes without HTML escaping (:112, :114) and read back through `dataset` (:140, :142), so in the page a `"` in a name ends the attribute and cuts the name short, and character entities such as `&amp;` come back decoded; the model assumes names come back intact. Item and restaurant IDs and prices do come back exactly.
- `Menu.MenuBrowser.Click`: the transient "Loading ..." panel and clicks that arrive while a menu fetch is still pending are not modelled; the fetch is treated as completing before the next click.
- `Tracking.StatusText`: the lookup is on an object literal, so in JavaScript a status equal to a name inherited from `Object.prototype` (such as `toString`) would find that inherited member instead of the fallback; the model gives every unknown status the fallback text.
- Type coercion: restaurant IDs are strings throughout (the cart keys are `String(...)` and JavaScript object lookups stringify numbers); customer IDs are integers compared with `==`, so a number-versus-string mismatch in `===` is not modelled.
