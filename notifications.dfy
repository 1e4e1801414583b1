/**
 * The notifications screen (app/app/notifications.tsx): the icon, colour and route chosen by
 * a notification's type, the relative-time label, the unread count, and the list updates of
 * pressing one notification and of "mark all read".
 */
module Notifications {
  import opened Wrappers
  import opened Text
  import opened I18n

  /** A row of the `notifications` table; `type` is kept as the string the database holds. */
  datatype Notification = Notification(
    id: string,
    shopId: string,
    kind: string,
    title: string,
    body: string,
    isRead: bool,
    createdAt: string)

  /** The four types with a dedicated icon and colour. */
  predicate IsKnownKind(kind: string) {
    kind == "new_order" || kind == "payment_received" || kind == "low_stock" || kind == "payment_reminder"
  }

  // ---------------------------------------------------------------------------------------
  // Icon, colour and route
  // ---------------------------------------------------------------------------------------

  /** `getIcon`: a FontAwesome name per known type, the bell for any other (`system` included). */
  function Icon(kind: string): (r: string)
    ensures r == "shopping-cart" <==> kind == "new_order"
    ensures r == "money" <==> kind == "payment_received"
    ensures r == "exclamation-triangle" <==> kind == "low_stock"
    ensures r == "clock-o" <==> kind == "payment_reminder"
    ensures r == "bell" <==> !IsKnownKind(kind)
  {
    match kind
    case "new_order" => "shopping-cart"
    case "payment_received" => "money"
    case "low_stock" => "exclamation-triangle"
    case "payment_reminder" => "clock-o"
    case _ => "bell"
  }

  /** `getColor`: a colour per known type, grey for any other. */
  function Color(kind: string): (r: string)
    ensures r == "#4CAF50" <==> kind == "new_order"
    ensures r == "#2196F3" <==> kind == "payment_received"
    ensures r == "#F44336" <==> kind == "low_stock"
    ensures r == "#FF9800" <==> kind == "payment_reminder"
    ensures r == "#666" <==> !IsKnownKind(kind)
  {
    match kind
    case "new_order" => "#4CAF50"
    case "payment_received" => "#2196F3"
    case "low_stock" => "#F44336"
    case "payment_reminder" => "#FF9800"
    case _ => "#666"
  }

  /** The tab a press opens. */
  datatype Route = OrdersTab | InventoryTab
  {
    function Path(): string {
      match this
      case OrdersTab => "/(tabs)/orders"
      case InventoryTab => "/(tabs)/inventory"
    }
  }

  /** New orders open the orders tab, low stock the inventory tab; other types stay put. */
  function RouteFor(kind: string): (r: Option<Route>)
    ensures r == Some(OrdersTab) <==> kind == "new_order"
    ensures r == Some(InventoryTab) <==> kind == "low_stock"
    ensures r.None? <==> kind != "new_order" && kind != "low_stock"
  {
    if kind == "new_order" then Some(OrdersTab)
    else if kind == "low_stock" then Some(InventoryTab)
    else None
  }

  // ---------------------------------------------------------------------------------------
  // Relative time
  // ---------------------------------------------------------------------------------------

  /** The bucket `formatTime` puts an age in. */
  datatype Age = JustNow | MinutesAgo(minutes: nat) | HoursAgo(hours: nat) | OnDate

  /**
   * `Math.floor(diffMs / 60000)` bucketed: under a minute (a clock ahead of the server
   * included), under an hour, under a day, or older.
   */
  function AgeOf(diffMs: int): (a: Age)
    ensures var m := diffMs / 60000;
      && (a == JustNow <==> m < 1)
      && (a.MinutesAgo? <==> 1 <= m < 60)
      && (a.HoursAgo? <==> 60 <= m < 1440)
      && (a == OnDate <==> m >= 1440)
    ensures a.MinutesAgo? ==> 1 <= a.minutes < 60 && a.minutes * 60000 <= diffMs < (a.minutes + 1) * 60000
    ensures a.HoursAgo? ==> 1 <= a.hours <= 23 && a.hours * 3600000 <= diffMs < (a.hours + 1) * 3600000
  {
    var m := diffMs / 60000;
    if m < 1 then JustNow
    else if m < 60 then MinutesAgo(m)
    else if m < 1440 then HoursAgo(m / 60)
    else OnDate
  }

  /**
   * `formatTime`. `created` is the parsed `created_at` in milliseconds, `None` when it does not
   * parse (every comparison with NaN fails, and the date prints as "Invalid Date");
   * `localDate` is `toLocaleDateString('en-IN')` of a date that parses.
   */
  function FormatTime(ctx: Context, now: int, created: Option<int>, localDate: string): (r: string)
    ensures created.None? ==> r == "Invalid Date"
    ensures created.Some? && AgeOf(now - created.value) == JustNow ==> r == ctx.T("just_now")
    ensures created.Some? && AgeOf(now - created.value) == OnDate ==> r == localDate
    ensures created.Some? && AgeOf(now - created.value).MinutesAgo? ==>
      r == NatToString(AgeOf(now - created.value).minutes) + "m " + ctx.T("ago")
    ensures created.Some? && AgeOf(now - created.value).HoursAgo? ==>
      r == NatToString(AgeOf(now - created.value).hours) + "h " + ctx.T("ago")
  {
    match created
    case None => "Invalid Date"
    case Some(t) =>
      match AgeOf(now - t)
      case JustNow => ctx.T("just_now")
      case MinutesAgo(m) => NatToString(m) + "m " + ctx.T("ago")
      case HoursAgo(h) => NatToString(h) + "h " + ctx.T("ago")
      case OnDate => localDate
  }

  // ---------------------------------------------------------------------------------------
  // The list
  // ---------------------------------------------------------------------------------------

  /** `notifications.filter(n => !n.is_read).length`. */
  function UnreadCount(list: seq<Notification>): (n: nat)
    ensures n <= |list|
  {
    if list == [] then 0 else (if list[0].isRead then 0 else 1) + UnreadCount(list[1..])
  }

  /** The unread positions of a list. */
  function UnreadPositions(list: seq<Notification>): set<nat> {
    set i: nat | i < |list| && !list[i].isRead
  }

  lemma {:induction false} UnreadCountAppend(a: seq<Notification>, b: seq<Notification>)
    ensures UnreadCount(a + b) == UnreadCount(a) + UnreadCount(b)
  {
    if a == [] {
      assert a + b == b;
    } else {
      assert (a + b)[0] == a[0] && (a + b)[1..] == a[1..] + b;
      UnreadCountAppend(a[1..], b);
    }
  }

  /** The count is the number of unread notifications, each position counted once. */
  lemma {:induction false} UnreadCountIsSize(list: seq<Notification>)
    ensures UnreadCount(list) == |UnreadPositions(list)|
    decreases |list|
  {
    if list == [] {
      assert UnreadPositions(list) == {};
    } else {
      var m := |list| - 1;
      var pre := list[..m];
      UnreadCountIsSize(pre);
      assert list == pre + [list[m]];
      UnreadCountAppend(pre, [list[m]]);
      assert UnreadCount([list[m]]) == (if list[m].isRead then 0 else 1) + UnreadCount([]);
      assert UnreadPositions(list) == UnreadPositions(pre) + (if list[m].isRead then {} else {m});
    }
  }

  /** The count is zero exactly when every notification is read. */
  lemma {:induction false} UnreadCountZero(list: seq<Notification>)
    ensures UnreadCount(list) == 0 <==> forall i :: 0 <= i < |list| ==> list[i].isRead
  {
    if list != [] {
      UnreadCountZero(list[1..]);
      if UnreadCount(list) == 0 {
        forall i | 0 <= i < |list| ensures list[i].isRead {
          if i > 0 {
            assert list[i] == list[1..][i - 1];
          }
        }
      }
      if forall i :: 0 <= i < |list| ==> list[i].isRead {
        forall i | 0 <= i < |list[1..]| ensures list[1..][i].isRead {
          assert list[1..][i] == list[i + 1];
        }
      }
    }
  }

  /** The header with "mark all read" shows exactly while something is unread. */
  predicate ShowsMarkAll(list: seq<Notification>) {
    UnreadCount(list) > 0
  }

  lemma ShowsMarkAllIff(list: seq<Notification>)
    ensures ShowsMarkAll(list) <==> exists i :: 0 <= i < |list| && !list[i].isRead
  {
    UnreadCountZero(list);
  }

  /** `prev.map(n => n.id === id ? { ...n, is_read: true } : n)`. */
  function MarkOneRead(list: seq<Notification>, id: string): (r: seq<Notification>)
    ensures |r| == |list|
    ensures forall i :: 0 <= i < |list| ==> r[i] == if list[i].id == id then list[i].(isRead := true) else list[i]
  {
    if list == [] then []
    else [if list[0].id == id then list[0].(isRead := true) else list[0]] + MarkOneRead(list[1..], id)
  }

  predicate UniqueIds(list: seq<Notification>) {
    forall i, j :: 0 <= i < j < |list| ==> list[i].id != list[j].id
  }

  /**
   * With unique ids, reading an unread notification lowers the count by exactly one; the
   * entry is read afterwards and every other entry is as it was.
   */
  lemma {:induction false} MarkOneReadCount(list: seq<Notification>, k: nat)
    requires UniqueIds(list) && k < |list| && !list[k].isRead
    ensures UnreadCount(MarkOneRead(list, list[k].id)) == UnreadCount(list) - 1
  {
    var id := list[k].id;
    var r := MarkOneRead(list, id);
    var rest := list[1..];
    assert r[1..] == MarkOneRead(rest, id);
    if k == 0 {
      assert MarkOneRead(rest, id) == rest by {
        forall i | 0 <= i < |rest| ensures rest[i].id != id {
          assert rest[i] == list[i + 1];
        }
      }
    } else {
      assert UniqueIds(rest) by {
        forall i, j | 0 <= i < j < |rest| ensures rest[i].id != rest[j].id {
          assert rest[i] == list[i + 1] && rest[j] == list[j + 1];
        }
      }
      assert rest[k - 1] == list[k];
      MarkOneReadCount(rest, k - 1);
    }
  }

  /** `prev.map(n => ({ ...n, is_read: true }))` leaves nothing unread. */
  lemma AllReadCount(list: seq<Notification>, marked: seq<Notification>)
    requires |marked| == |list| && forall i :: 0 <= i < |list| ==> marked[i] == list[i].(isRead := true)
    ensures UnreadCount(marked) == 0
  {
    UnreadCountZero(marked);
  }

  // ---------------------------------------------------------------------------------------
  // The screen
  // ---------------------------------------------------------------------------------------

  /** The screen's `notifications` state and the routes it has pushed. */
  class NotificationsScreen {
    var notifications: seq<Notification>
    var pushed: seq<Route>

    constructor ()
      ensures notifications == [] && pushed == []
    {
      notifications := [];
      pushed := [];
    }

    /**
     * `fetchNotifications` once the query has answered: an error is logged and changes
     * nothing, a null `data` empties the list, otherwise the rows replace it.
     */
    method Fetched(answer: Result<Option<seq<Notification>>, string>)
      modifies this
      ensures answer.Failure? ==> notifications == old(notifications)
      ensures answer.Success? ==> notifications == (if answer.value.Some? then answer.value.value else [])
      ensures pushed == old(pushed)
    {
      if answer.Success? {
        notifications := if answer.value.Some? then answer.value.value else [];
      }
    }

    /**
     * `handleNotificationPress`. The read check looks at the pressed snapshot; when it is
     * unread, `markNotificationRead` runs first and, if it throws, the press ends there with
     * neither a list update nor navigation. Returns whether the press threw.
     */
    method Press(notif: Notification, markFails: bool) returns (threw: bool)
      modifies this
      ensures threw <==> !notif.isRead && markFails
      ensures threw ==> notifications == old(notifications) && pushed == old(pushed)
      ensures !threw ==> notifications == (if notif.isRead then old(notifications) else MarkOneRead(old(notifications), notif.id))
      ensures !threw ==> pushed == old(pushed) + (if RouteFor(notif.kind).Some? then [RouteFor(notif.kind).value] else [])
    {
      if !notif.isRead {
        if markFails {
          return true;
        }
        MarkReadInPlace(notif.id);
      }
      var route := RouteFor(notif.kind);
      if route.Some? {
        pushed := pushed + [route.value];
      }
      return false;
    }

    /** The state update of a press: every entry with the pressed id becomes read, in place. */
    method MarkReadInPlace(id: string)
      modifies this
      ensures notifications == MarkOneRead(old(notifications), id)
      ensures pushed == old(pushed)
    {
      var i := 0;
      while i < |notifications|
        invariant 0 <= i <= |notifications| == |old(notifications)|
        invariant forall j :: 0 <= j < i ==> notifications[j] == MarkOneRead(old(notifications), id)[j]
        invariant forall j :: i <= j < |notifications| ==> notifications[j] == old(notifications)[j]
        invariant pushed == old(pushed)
      {
        if notifications[i].id == id {
          notifications := notifications[i := notifications[i].(isRead := true)];
        }
        i := i + 1;
      }
    }

    /**
     * `markAllRead`: the bulk update's error is not examined, so every entry is then shown
     * as read, whatever the database did.
     */
    method MarkAllRead()
      modifies this
      ensures |notifications| == |old(notifications)|
      ensures forall i :: 0 <= i < |notifications| ==> notifications[i] == old(notifications)[i].(isRead := true)
      ensures UnreadCount(notifications) == 0
      ensures pushed == old(pushed)
    {
      var i := 0;
      while i < |notifications|
        invariant 0 <= i <= |notifications| == |old(notifications)|
        invariant forall j :: 0 <= j < i ==> notifications[j] == old(notifications)[j].(isRead := true)
        invariant forall j :: i <= j < |notifications| ==> notifications[j] == old(notifications)[j]
        invariant pushed == old(pushed)
      {
        notifications := notifications[i := notifications[i].(isRead := true)];
        i := i + 1;
      }
      AllReadCount(old(notifications), notifications);
    }
  }
}
