/**
 Order tracking on the customer dashboard: the text shown for the status the
 server reports for an order, and the short list of notifications shown for it.
 */
module Tracking {
  import opened Options
  import opened Seqs

  /** A response from the server: a failed request (or unreadable body), or the body. */
  datatype Response<T> = Failed | Body(body: T)

  // ---------------------------------------------------------------------------
  // Status text
  // ---------------------------------------------------------------------------

  const PlacedText: string := "\U{1F6CD}\U{FE0F} Order placed successfully!"
  const PaidText: string := "\U{1F4B3} Payment confirmed."
  const InTransitText: string := "\U{1F681} Drone is on the way!"
  const DeliveredText: string := "\U{2705} Order delivered successfully!"
  /** Prefix of the text for a status outside the four known ones. */
  const OtherStatusPrefix: string := "\U{1F4E6} Current status: "
  const FetchFailedText: string := "\U{26A0}\U{FE0F} Could not fetch order status."

  function NoStatusText(orderID: string): string
  {
    "\U{26A0}\U{FE0F} No status found for order #" + orderID
  }

  /** The four statuses the dashboard has a dedicated text for. */
  predicate IsKnownStatus(status: string)
  {
    status == "Placed" || status == "Paid" || status == "InTransit" || status == "Delivered"
  }

  /** The status lookup table, falling back to "Current status: <status>". */
  function StatusText(status: string): (text: string)
    ensures IsKnownStatus(status) ==> !(OtherStatusPrefix <= text)
    ensures !IsKnownStatus(status) ==> OtherStatusPrefix <= text &&
                                       text[|OtherStatusPrefix|..] == status
  {
    match status
    case "Placed" => assert PlacedText[0] != OtherStatusPrefix[0]; PlacedText
    case "Paid" => assert PaidText[0] != OtherStatusPrefix[0]; PaidText
    case "InTransit" => assert InTransitText[0] != OtherStatusPrefix[0]; InTransitText
    case "Delivered" => assert DeliveredText[0] != OtherStatusPrefix[0]; DeliveredText
    case _ => OtherStatusPrefix + status
  }

  /** Different statuses are always shown with different texts. */
  lemma StatusTextInjective(a: string, b: string)
    requires StatusText(a) == StatusText(b)
    ensures a == b
  {
  }

  /** What the status line shows, and whether the place-order button gets disabled. */
  datatype StatusView = StatusView(text: string, disablePlaceOrder: bool)

  /**
   `updateOrderStatus`: a failed request shows a fetch error; a missing or empty
   status shows "no status found"; otherwise the status text, and a delivered
   order disables the place-order button.
   */
  function UpdateOrderStatus(response: Response<Option<string>>, orderID: string): (v: StatusView)
    ensures v.disablePlaceOrder <==> response == Body(Some("Delivered"))
    ensures response.Failed? ==> v.text == FetchFailedText
    ensures response.Body? && (response.body.None? || response.body == Some("")) ==>
              v.text == NoStatusText(orderID)
    ensures response.Body? && response.body.Some? && response.body.value != "" ==>
              v.text == StatusText(response.body.value)
  {
    match response
    case Failed => StatusView(FetchFailedText, false)
    case Body(None) => StatusView(NoStatusText(orderID), false)
    case Body(Some(status)) =>
      if status == "" then StatusView(NoStatusText(orderID), false)
      else StatusView(StatusText(status), status == "Delivered")
  }

  // ---------------------------------------------------------------------------
  // Notifications
  // ---------------------------------------------------------------------------

  /** A notification row (the fields the dashboard reads). */
  datatype Notification = Notification(customerID: int, orderID: int, message: string, createdAt: string)

  /** At most this many notifications are shown. */
  const MaxShown: nat := 5

  datatype NotificationPanel =
    | LoadFailed                          // "Could not load notifications."
    | NoUpdates                           // "No updates yet for order #..."
    | Updates(shown: seq<Notification>)

  /** Written to the status line when the notifications cannot be loaded. */
  const TrackingFailedText: string :=
    "\U{26A0}\U{FE0F} Unable to retrieve tracking info. Please check your Order ID."

  /**
   What `loadNotifications` shows: the notification panel, and the text it
   writes over the status line, if any.
   */
  datatype NotificationView = NotificationView(panel: NotificationPanel, statusLine: Option<string>)

  function OfCustomer(customerID: int): Notification -> bool
  {
    (n: Notification) => n.customerID == customerID
  }

  /** The rows of `rows` that belong to the signed-in customer, in server order. */
  function ForCustomer(rows: seq<Notification>, customerID: int): (r: seq<Notification>)
    ensures forall n :: n in r <==> n in rows && n.customerID == customerID
  {
    Filter(rows, OfCustomer(customerID))
  }

  /**
   `loadNotifications`: the server's rows are filtered again to the signed-in
   customer and the first five of those are shown. A failed request shows the
   error panel and also overwrites the status line.
   */
  function LoadNotifications(response: Response<seq<Notification>>, customerID: int): (v: NotificationView)
    ensures response.Failed? <==> v.panel == LoadFailed
    ensures response.Failed? <==> v.statusLine == Some(TrackingFailedText)
    ensures response.Body? ==> v.statusLine == None
    ensures response.Body? ==>
              (v.panel == NoUpdates <==> forall n :: n in response.body ==> n.customerID != customerID)
    ensures v.panel.Updates? ==>
              && 0 < |v.panel.shown| <= MaxShown
              && v.panel.shown <= ForCustomer(response.body, customerID)
              && forall n :: n in v.panel.shown ==> n in response.body && n.customerID == customerID
  {
    match response
    case Failed => NotificationView(LoadFailed, Some(TrackingFailedText))
    case Body(rows) =>
      var mine := ForCustomer(rows, customerID);
      if |mine| == 0 then
        NotificationView(NoUpdates, None)
      else
        assert mine[0] in mine;
        NotificationView(Updates(if |mine| <= MaxShown then mine else mine[..MaxShown]), None)
  }

  /** The status line after one tracking refresh: the status is fetched first, then the notifications. */
  function StatusLineAfterRefresh(status: Response<Option<string>>, notifications: Response<seq<Notification>>,
                                  orderID: string, customerID: int): string
  {
    var line := UpdateOrderStatus(status, orderID).text;
    match LoadNotifications(notifications, customerID).statusLine
    case Some(overwrite) => overwrite
    case None => line
  }

  /**
   A refresh whose notification request fails always ends with the tracking
   error on the status line, whatever status was fetched; otherwise the status
   text stays.
   */
  lemma RefreshStatusLine(status: Response<Option<string>>, notifications: Response<seq<Notification>>,
                          orderID: string, customerID: int)
    ensures notifications.Failed? ==>
              StatusLineAfterRefresh(status, notifications, orderID, customerID) == TrackingFailedText
    ensures notifications.Body? ==>
              StatusLineAfterRefresh(status, notifications, orderID, customerID) == UpdateOrderStatus(status, orderID).text
  {
  }

  /** Every matching row is shown when there are at most five; otherwise exactly five are. */
  lemma ShownCount(rows: seq<Notification>, customerID: int)
    requires ForCustomer(rows, customerID) != []
    ensures var mine := ForCustomer(rows, customerID);
            var p := LoadNotifications(Body(rows), customerID);
            && (|mine| <= MaxShown ==> p.panel == Updates(mine))
            && (|mine| > MaxShown ==> |p.panel.shown| == MaxShown)
  {
  }

  /** Rows that belong to other customers never change what is shown, wherever they sit. */
  lemma OthersIgnored(front: seq<Notification>, others: seq<Notification>, back: seq<Notification>,
                      customerID: int)
    requires forall i :: 0 <= i < |others| ==> others[i].customerID != customerID
    ensures LoadNotifications(Body(front + others + back), customerID)
         == LoadNotifications(Body(front + back), customerID)
  {
    var keep := OfCustomer(customerID);
    FilterAppend(front + others, back, keep);
    FilterAppend(front, others, keep);
    FilterAppend(front, back, keep);
    FilterKeepsNone(others, keep);
    assert Filter(front, keep) + [] == Filter(front, keep);
  }
}
