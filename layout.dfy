/**
 * The application shell (src/Layout.tsx): the bottom navigation with its
 * badges, the call-the-kitchen button, and the notification feed that the
 * server's push events fill and that closing the notification menu clears.
 *
 * The push transport is not modelled: each event the server pushes is an
 * input, stamped with the clock reading taken when it arrived.  The store's
 * notification list and kitchen status are the fields of `Store`; the shell's
 * own React state is the fields of `LayoutView` and `NotificationMenu`.
 */
module Layout {
  import opened Wrappers

  datatype NotificationKind = MenuKind | OrderKind | KitchenStatusKind

  /** A feed record: its kind, the text shown, and the ISO time stamp of its
      arrival (opaque here). */
  datatype Notification = Notification(kind: NotificationKind, data: string, date: string)

  /** The body of an order event; only its message is kept. */
  datatype OrderPayload = OrderPayload(message: string)

  /** The events the server pushes and the shell listens for. */
  datatype ServerEvent =
    | MenuNotification(notification: string)
    | OrderNotification(payload: OrderPayload)
    | KitchenStatusUpdate(status: bool)

  // ---------------------------------------------------------------------
  // Route to bottom-navigation tab

  /** The path of each tab below the kitchen: menu, cart, orders, profile. */
  const Sections: seq<string> := ["", "/cart", "/orders", "/profile"]

  /** The path a navigation button goes to: `/${kitchenId}/...`. */
  function NavTarget(kitchenId: string, tab: nat): (path: string)
    requires tab < 4
    ensures |path| == 1 + |kitchenId| + |Sections[tab]|
    ensures path[..1] == "/" && path[1..1 + |kitchenId|] == kitchenId
    ensures path[1 + |kitchenId|..] == Sections[tab]
  {
    "/" + kitchenId + Sections[tab]
  }

  /** The path a case of the tab switch compares with: `/:${kitchenId}/...`. */
  function CasePath(kitchenId: string, tab: nat): (path: string)
    requires tab < 4
    ensures |path| == 2 + |kitchenId| + |Sections[tab]|
    ensures path[..2] == "/:" && path[2..2 + |kitchenId|] == kitchenId
    ensures path[2 + |kitchenId|..] == Sections[tab]
  {
    "/:" + kitchenId + Sections[tab]
  }

  /** The selected tab for the current path: the switch on the path, with
      tab 0 for every path no case matches. */
  function TabIndex(pathname: string, kitchenId: string): (tab: nat)
    ensures tab < 4
    ensures tab != 0 ==> pathname == CasePath(kitchenId, tab)
  {
    if pathname == "/:" + kitchenId then 0
    else if pathname == "/:" + kitchenId + "/cart" then 1
    else if pathname == "/:" + kitchenId + "/orders" then 2
    else if pathname == "/:" + kitchenId + "/profile" then 3
    else 0
  }

  /** Each case path selects its own tab. */
  lemma TabIndexOfCasePath(kitchenId: string, tab: nat)
    requires tab < 4
    ensures TabIndex(CasePath(kitchenId, tab), kitchenId) == tab
  {
    var k := kitchenId;
    assert |CasePath(k, 0)| < |CasePath(k, 1)| < |CasePath(k, 2)| < |CasePath(k, 3)|;
  }

  /** Every path a navigation button produces selects tab 0: no case string
      equals one of them, since the cases carry a ':' the buttons do not. */
  lemma NavTargetsSelectMenuTab(kitchenId: string, tab: nat)
    requires tab < 4
    ensures TabIndex(NavTarget(kitchenId, tab), kitchenId) == 0
  {
    var p := NavTarget(kitchenId, tab);
    forall t | 1 <= t < 4 ensures p != CasePath(kitchenId, t) {
      var c := CasePath(kitchenId, t);
      if |p| == |c| {
        // Only the profile target and the orders case have the same length,
        // and they end in different letters.
        assert tab == 3 && t == 2;
        assert p[|p| - 1] == 'e' && c[|c| - 1] == 's';
      }
    }
  }

  // ---------------------------------------------------------------------
  // Badges

  /** The order records of the feed, in feed order. */
  function OrderNotifications(feed: seq<Notification>): (orders: seq<Notification>)
    ensures |orders| <= |feed|
    ensures forall n :: n in orders ==> n in feed && n.kind == OrderKind
    ensures forall n :: n in feed && n.kind == OrderKind ==> n in orders
    decreases |feed|
  {
    if feed == [] then []
    else
      var last := feed[|feed| - 1];
      assert feed == feed[..|feed| - 1] + [last];
      OrderNotifications(feed[..|feed| - 1]) + (if last.kind == OrderKind then [last] else [])
  }

  /** The orders badge is hidden exactly when no record of the feed is an
      order record. */
  predicate OrdersInvisible(feed: seq<Notification>): (hidden: bool)
    ensures hidden <==> forall i :: 0 <= i < |feed| ==> feed[i].kind != OrderKind
  {
    var orders := OrderNotifications(feed);
    assert orders != [] ==> orders[0] in orders;
    |orders| == 0
  }

  // ---------------------------------------------------------------------
  // Events to feed records

  function KitchenStatusText(status: bool): (text: string)
    ensures text == "Kitchen: online" <==> status
    ensures text == "Kitchen: offline" <==> !status
  {
    "Kitchen: " + (if status then "online" else "offline")
  }

  /** The one record an event adds to the feed. */
  function ToNotification(e: ServerEvent, now: string): (n: Notification)
    ensures n.date == now
    ensures n.kind == MenuKind <==> e.MenuNotification?
    ensures n.kind == OrderKind <==> e.OrderNotification?
    ensures n.kind == KitchenStatusKind <==> e.KitchenStatusUpdate?
    ensures e.MenuNotification? ==> n.data == e.notification
    ensures e.OrderNotification? ==> n.data == e.payload.message
    ensures e.KitchenStatusUpdate? ==> n.data == KitchenStatusText(e.status)
  {
    match e
    case MenuNotification(notification) => Notification(MenuKind, notification, now)
    case OrderNotification(payload) => Notification(OrderKind, payload.message, now)
    case KitchenStatusUpdate(status) => Notification(KitchenStatusKind, KitchenStatusText(status), now)
  }

  // ---------------------------------------------------------------------
  // The shared feed and kitchen status over a run of inputs

  /** The part of the store the shell writes. */
  datatype Shared = Shared(notifications: seq<Notification>, kitchenStatus: bool)

  /** What reaches the shared state: a pushed event with its arrival time,
      the user closing the notification menu, or the kitchen status the app
      slice refetches on every path change. */
  datatype Input =
    | Deliver(event: ServerEvent, at: string)
    | CloseMenu
    | KitchenStatusRefreshed(status: bool)

  function Record(i: Input): Notification
    requires i.Deliver?
  {
    ToNotification(i.event, i.at)
  }

  /** One input: an event appends its record (and a kitchen-status event also
      overwrites the status); closing the menu clears the feed; a refresh
      overwrites the status. */
  function Step(s: Shared, i: Input): (t: Shared)
    ensures i.Deliver? ==> t.notifications == s.notifications + [Record(i)]
    ensures i.CloseMenu? ==> t.notifications == [] && t.kitchenStatus == s.kitchenStatus
    ensures i.KitchenStatusRefreshed? ==> t.notifications == s.notifications
    ensures IsKitchenWrite(i) ==> t.kitchenStatus == WrittenStatus(i)
    ensures i.Deliver? && !IsKitchenWrite(i) ==> t.kitchenStatus == s.kitchenStatus
  {
    match i
    case Deliver(e, at) =>
      Shared(s.notifications + [ToNotification(e, at)],
             if e.KitchenStatusUpdate? then e.status else s.kitchenStatus)
    case CloseMenu => s.(notifications := [])
    case KitchenStatusRefreshed(status) => s.(kitchenStatus := status)
  }

  /** The shared state after `inputs`, in order; each input adds at most one
      record. */
  function After(s: Shared, inputs: seq<Input>): (t: Shared)
    ensures |t.notifications| <= |s.notifications| + |inputs|
    decreases |inputs|
  {
    if inputs == [] then s else Step(After(s, inputs[..|inputs| - 1]), inputs[|inputs| - 1])
  }

  /** An input that writes the kitchen status: a pushed status event or a
      refresh. */
  predicate IsKitchenWrite(i: Input) {
    (i.Deliver? && i.event.KitchenStatusUpdate?) || i.KitchenStatusRefreshed?
  }

  function WrittenStatus(i: Input): bool
    requires IsKitchenWrite(i)
  {
    if i.Deliver? then i.event.status else i.status
  }

  /** The records of the pushed events among `inputs`, in arrival order. */
  function Records(inputs: seq<Input>): (rs: seq<Notification>)
    ensures |rs| <= |inputs|
    decreases |inputs|
  {
    if inputs == [] then []
    else
      var last := inputs[|inputs| - 1];
      Records(inputs[..|inputs| - 1]) + (if last.Deliver? then [Record(last)] else [])
  }

  /** The number of pushed events among `inputs`. */
  function CountDeliveries(inputs: seq<Input>): nat
    decreases |inputs|
  {
    if inputs == [] then 0
    else CountDeliveries(inputs[..|inputs| - 1]) + (if inputs[|inputs| - 1].Deliver? then 1 else 0)
  }

  /** There is one record per pushed event, whatever else the run holds. */
  lemma {:induction false} RecordsLength(ys: seq<Input>)
    ensures |Records(ys)| == CountDeliveries(ys)
    decreases |ys|
  {
    if ys != [] {
      RecordsLength(ys[..|ys| - 1]);
    }
  }

  /** When every input is an event, the records are one per event, in order. */
  lemma {:induction false} RecordsOfDeliveries(ys: seq<Input>)
    requires forall j :: 0 <= j < |ys| ==> ys[j].Deliver?
    ensures |Records(ys)| == |ys|
    ensures forall j :: 0 <= j < |ys| ==> Records(ys)[j] == Record(ys[j])
    decreases |ys|
  {
    if ys != [] {
      RecordsOfDeliveries(ys[..|ys| - 1]);
    }
  }

  lemma {:induction false} AfterAppend(s: Shared, xs: seq<Input>, ys: seq<Input>)
    ensures After(s, xs + ys) == After(After(s, xs), ys)
    decreases |ys|
  {
    if ys == [] {
      assert xs + ys == xs;
    } else {
      assert (xs + ys)[..|xs + ys| - 1] == xs + ys[..|ys| - 1];
      AfterAppend(s, xs, ys[..|ys| - 1]);
    }
  }

  /** With no close in between, each event appends exactly its own record:
      nothing already in the feed is removed or reordered, and status
      refreshes add nothing. */
  lemma {:induction false} AfterDeliveries(s: Shared, ys: seq<Input>)
    requires forall j :: 0 <= j < |ys| ==> !ys[j].CloseMenu?
    ensures After(s, ys).notifications == s.notifications + Records(ys)
    decreases |ys|
  {
    if ys != [] {
      var ys' := ys[..|ys| - 1];
      AfterDeliveries(s, ys');
      var last := ys[|ys| - 1];
      assert s.notifications + Records(ys) ==
        (s.notifications + Records(ys')) + (if last.Deliver? then [Record(last)] else []);
    }
  }

  /** After the latest close of the menu the feed holds exactly the records
      of the events that came after it, in arrival order; so its length, the
      value passed to the bell badge, is the number of events since that close. */
  lemma {:induction false} FeedSinceLastClose(s: Shared, inputs: seq<Input>, i: nat)
    requires i < |inputs| && inputs[i].CloseMenu?
    requires forall j :: i < j < |inputs| ==> !inputs[j].CloseMenu?
    ensures After(s, inputs).notifications == Records(inputs[i + 1..])
    ensures |After(s, inputs).notifications| == CountDeliveries(inputs[i + 1..])
  {
    RecordsLength(inputs[i + 1..]);
    var xs, ys := inputs[..i + 1], inputs[i + 1..];
    assert inputs == xs + ys;
    AfterAppend(s, xs, ys);
    assert After(s, xs).notifications == [];
    AfterDeliveries(After(s, xs), ys);
  }

  /** Inputs that do not write the kitchen status leave it alone. */
  lemma {:induction false} AfterKeepsKitchenStatus(s: Shared, ys: seq<Input>)
    requires forall j :: 0 <= j < |ys| ==> !IsKitchenWrite(ys[j])
    ensures After(s, ys).kitchenStatus == s.kitchenStatus
    decreases |ys|
  {
    if ys != [] {
      AfterKeepsKitchenStatus(s, ys[..|ys| - 1]);
    }
  }

  /** Last write wins: the kitchen status is the one written by the latest
      pushed status event or refresh. */
  lemma {:induction false} KitchenStatusLastWriteWins(s: Shared, inputs: seq<Input>, i: nat)
    requires i < |inputs| && IsKitchenWrite(inputs[i])
    requires forall j :: i < j < |inputs| ==> !IsKitchenWrite(inputs[j])
    ensures After(s, inputs).kitchenStatus == WrittenStatus(inputs[i])
  {
    var xs, ys := inputs[..i + 1], inputs[i + 1..];
    assert inputs == xs + ys;
    AfterAppend(s, xs, ys);
    AfterKeepsKitchenStatus(After(s, xs), ys);
  }

  /** An order event that no close has cleared keeps the orders badge shown. */
  lemma {:induction false} OrdersBadgeShownAfterOrder(s: Shared, inputs: seq<Input>, i: nat)
    requires i < |inputs| && inputs[i].Deliver? && inputs[i].event.OrderNotification?
    requires forall j :: i < j < |inputs| ==> !inputs[j].CloseMenu?
    ensures !OrdersInvisible(After(s, inputs).notifications)
  {
    var xs, ys := inputs[..i + 1], inputs[i + 1..];
    assert inputs == xs + ys;
    AfterAppend(s, xs, ys);
    var mid := After(s, xs);
    assert mid.notifications[|mid.notifications| - 1] == Record(inputs[i]);
    AfterDeliveries(mid, ys);
    var feed := After(s, inputs).notifications;
    assert feed[|mid.notifications| - 1] == mid.notifications[|mid.notifications| - 1];
  }

  // ---------------------------------------------------------------------
  // Calling the kitchen

  /** The dial target `tel:+91${phoneNumber}`. */
  function DialTarget(phoneNumber: string): (href: string)
    ensures |href| == 7 + |phoneNumber|
    ensures href[..7] == "tel:+91" && href[7..] == phoneNumber
  {
    "tel:+91" + phoneNumber
  }

  datatype CallControl = NotShown | Disabled | Enabled(dial: string)

  /** The call button: shown only to a logged-in user, and active only while
      the kitchen is online. */
  function CallButton(isLoggedIn: bool, kitchenStatus: bool, kitchenNumber: string): (c: CallControl)
    ensures c.NotShown? <==> !isLoggedIn
    ensures c.Enabled? <==> isLoggedIn && kitchenStatus
    ensures c.Enabled? ==> |c.dial| == 7 + |kitchenNumber| && c.dial[..7] == "tel:+91" && c.dial[7..] == kitchenNumber
  {
    if !isLoggedIn then NotShown
    else if kitchenStatus then Enabled(DialTarget(kitchenNumber))
    else Disabled
  }

  // ---------------------------------------------------------------------
  // The notification menu's contents

  const NoNotifications := "No new notifications"

  datatype MenuRow = NotificationRow(text: string, date: string) | PlaceholderRow(text: string)

  /** One row per record, in feed order, or the single placeholder row when
      the feed is empty. */
  function MenuRows(feed: seq<Notification>): (rows: seq<MenuRow>)
    ensures feed == [] ==> rows == [PlaceholderRow(NoNotifications)]
    ensures feed != [] ==> |rows| == |feed| && forall i :: 0 <= i < |feed| ==>
      rows[i] == NotificationRow(feed[i].data, feed[i].date)
  {
    if |feed| > 0 then seq(|feed|, i requires 0 <= i < |feed| => NotificationRow(feed[i].data, feed[i].date))
    else [PlaceholderRow(NoNotifications)]
  }

  // ---------------------------------------------------------------------
  // Mutable state

  /** The store slices the shell dispatches to. */
  class Store {
    var notifications: seq<Notification>
    var kitchenStatus: bool

    function State(): Shared
      reads this
    {
      Shared(notifications, kitchenStatus)
    }

    constructor (notifications0: seq<Notification>, kitchenStatus0: bool)
      ensures notifications == notifications0 && kitchenStatus == kitchenStatus0
    {
      notifications, kitchenStatus := notifications0, kitchenStatus0;
    }

    /** `addNotification`: append. */
    method AddNotification(n: Notification)
      modifies this`notifications
      ensures notifications == old(notifications) + [n]
    {
      notifications := notifications + [n];
    }

    /** `clearNotifications`: empty the feed. */
    method ClearNotifications()
      modifies this`notifications
      ensures notifications == []
    {
      notifications := [];
    }

    /** `setKitchenStatus`: overwrite. */
    method SetKitchenStatus(status: bool)
      modifies this`kitchenStatus
      ensures kitchenStatus == status
    {
      kitchenStatus := status;
    }
  }

  /** The shell's own state: the selected tab and the two badge flags. */
  class LayoutView {
    const store: Store
    const kitchenId: string
    const kitchenNumber: string
    var value: nat
    var cartInvisible: bool
    var ordersInvisible: bool

    constructor (store: Store, kitchenId: string, kitchenNumber: string)
      ensures this.store == store && this.kitchenId == kitchenId && this.kitchenNumber == kitchenNumber
      ensures value == 0 && cartInvisible && !ordersInvisible
    {
      this.store, this.kitchenId, this.kitchenNumber := store, kitchenId, kitchenNumber;
      value, cartInvisible, ordersInvisible := 0, true, false;
    }

    /** The effect run on every path change. */
    method SyncTab(pathname: string)
      modifies this`value
      ensures value == TabIndex(pathname, kitchenId) && value < 4
    {
      value := TabIndex(pathname, kitchenId);
    }

    /** The bottom navigation's own change handler. */
    method SelectTab(newValue: nat)
      modifies this`value
      ensures value == newValue
    {
      value := newValue;
    }

    /** The effect run on every cart change. */
    method SyncCartBadge<T>(cart: seq<T>)
      modifies this`cartInvisible
      ensures cartInvisible <==> |cart| == 0
    {
      if |cart| != 0 {
        cartInvisible := false;
      } else {
        cartInvisible := true;
      }
    }

    /** The effect run on every feed change. */
    method SyncOrdersBadge()
      modifies this`ordersInvisible
      ensures ordersInvisible == OrdersInvisible(store.notifications)
      ensures ordersInvisible <==> forall i :: 0 <= i < |store.notifications| ==>
        store.notifications[i].kind != OrderKind
    {
      var orders := OrderNotifications(store.notifications);
      if |orders| != 0 {
        ordersInvisible := false;
      } else {
        ordersInvisible := true;
      }
    }

    /** A pushed event handled by the shell's listeners. */
    method Receive(e: ServerEvent, now: string)
      modifies store
      ensures store.notifications == old(store.notifications) + [ToNotification(e, now)]
      ensures store.kitchenStatus == if e.KitchenStatusUpdate? then e.status else old(store.kitchenStatus)
      ensures store.State() == Step(old(store.State()), Deliver(e, now))
    {
      match e
      case MenuNotification(notification) =>
        store.AddNotification(Notification(MenuKind, notification, now));
      case OrderNotification(payload) =>
        store.AddNotification(Notification(OrderKind, payload.message, now));
      case KitchenStatusUpdate(status) =>
        store.AddNotification(Notification(KitchenStatusKind, KitchenStatusText(status), now));
        store.SetKitchenStatus(status);
    }

    /** The effect run on every path change refetches the kitchen status;
        a successful refetch overwrites the stored status. */
    method RefreshKitchenStatus(status: bool)
      modifies store`kitchenStatus
      ensures store.kitchenStatus == status
      ensures store.State() == Step(old(store.State()), KitchenStatusRefreshed(status))
    {
      store.SetKitchenStatus(status);
    }

    /** The call control as rendered for the current store state. */
    function Call(isLoggedIn: bool): (c: CallControl)
      reads this, store
      ensures c.Enabled? <==> isLoggedIn && store.kitchenStatus
    {
      CallButton(isLoggedIn, store.kitchenStatus, kitchenNumber)
    }
  }

  /** The bell icon with its drop-down menu and the snackbar that shows a
      chosen notification.  `anchorEl` is the element the menu is anchored
      to, named by an opaque identity. */
  class NotificationMenu {
    const store: Store
    var anchorEl: Option<nat>
    var openSnackbar: bool
    var selectedNotification: Option<string>

    constructor (store: Store)
      ensures this.store == store
      ensures anchorEl == None && !openSnackbar && selectedNotification == None
    {
      this.store := store;
      anchorEl, openSnackbar, selectedNotification := None, false, None;
    }

    predicate IsOpen()
      reads this
    {
      anchorEl.Some?
    }

    /** The value passed to the bell badge. */
    function BadgeCount(): (count: nat)
      reads this, store
      ensures count == |store.notifications|
    {
      |store.notifications|
    }

    method HandleClick(target: nat)
      modifies this`anchorEl
      ensures anchorEl == Some(target) && IsOpen()
    {
      anchorEl := Some(target);
    }

    /** Closing the menu drops its anchor and clears the feed. */
    method HandleClose()
      modifies this`anchorEl, store`notifications
      ensures anchorEl == None && !IsOpen()
      ensures store.notifications == [] && BadgeCount() == 0
      ensures store.State() == Step(old(store.State()), CloseMenu)
    {
      anchorEl := None;
      store.ClearNotifications();
    }

    method HandleSnackbarOpen(notification: string)
      modifies this`selectedNotification, this`openSnackbar
      ensures selectedNotification == Some(notification) && openSnackbar
    {
      selectedNotification := Some(notification);
      openSnackbar := true;
    }

    method HandleSnackbarClose()
      modifies this`selectedNotification, this`openSnackbar
      ensures selectedNotification == None && !openSnackbar
    {
      openSnackbar := false;
      selectedNotification := None;
    }
  }
}
