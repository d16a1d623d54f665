/**
 * The notification bell in the header: a list of notifications, an
 * open/closed dropdown, and handlers that mark entries read or drop them.
 */
module NotificationBell {
  import opened Nullable

  datatype NotificationType = UserSignup | ServiceRequest | Complaint | SystemAlert

  datatype AppNotification = AppNotification(
    id: string,
    kind: NotificationType,
    title: string,
    message: string,
    time: string,
    isRead: bool,
    linkTo: string)

  const MockNotifications: seq<AppNotification> := [
    AppNotification("notif-1", SystemAlert, "High Server CPU Usage",
      "The main database is experiencing high load.", "2 mins ago", false, "/settings"),
    AppNotification("notif-2", ServiceRequest, "New Passport Application",
      "Rahul Kumar submitted a new Tatkal request.", "15 mins ago", false, "/services"),
    AppNotification("notif-3", Complaint, "Complaint Escalated",
      "Ticket #CMP-1029 has been escalated to Super Admin.", "1 hour ago", false, "/complaints"),
    AppNotification("notif-4", UserSignup, "New Citizen Registered",
      "Priya Sharma verified her account.", "3 hours ago", true, "/users")
  ]

  predicate AllRead(s: seq<AppNotification>) {
    forall i :: 0 <= i < |s| ==> s[i].isRead
  }

  /** The number of notifications not yet read (the badge number). */
  function UnreadCount(s: seq<AppNotification>): (n: nat)
    ensures n <= |s|
    ensures n == 0 <==> AllRead(s)
    ensures n == |s| <==> forall i :: 0 <= i < |s| ==> !s[i].isRead
  {
    if s == [] then 0 else (if s[0].isRead then 0 else 1) + UnreadCount(s[1..])
  }

  /** Every notification marked read, each kept otherwise as it was. */
  function MarkAllRead(s: seq<AppNotification>): (r: seq<AppNotification>)
    ensures |r| == |s|
    ensures forall i :: 0 <= i < |s| ==> r[i] == s[i].(isRead := true)
  {
    if s == [] then [] else [s[0].(isRead := true)] + MarkAllRead(s[1..])
  }

  /** The notifications carrying `id` marked read, all others left as they were. */
  function MarkRead(s: seq<AppNotification>, id: string): (r: seq<AppNotification>)
    ensures |r| == |s|
    ensures forall i :: 0 <= i < |s| ==> r[i] == (if s[i].id == id then s[i].(isRead := true) else s[i])
  {
    if s == [] then [] else [if s[0].id == id then s[0].(isRead := true) else s[0]] + MarkRead(s[1..], id)
  }

  /** `b` is `a` with possibly more entries read, and nothing else changed. */
  predicate OnlyMoreRead(a: seq<AppNotification>, b: seq<AppNotification>) {
    && |a| == |b|
    && forall i :: 0 <= i < |a| ==> b[i] == a[i] || b[i] == a[i].(isRead := true)
  }

  /** Reading more entries never raises the unread count ... */
  lemma {:induction false} UnreadCountMonotone(a: seq<AppNotification>, b: seq<AppNotification>)
    requires OnlyMoreRead(a, b)
    ensures UnreadCount(b) <= UnreadCount(a)
  {
    if a != [] {
      assert OnlyMoreRead(a[1..], b[1..]) by {
        forall i | 0 <= i < |a[1..]| ensures b[1..][i] == a[1..][i] || b[1..][i] == a[1..][i].(isRead := true) {
          assert b[1..][i] == b[i + 1] && a[1..][i] == a[i + 1];
        }
      }
      UnreadCountMonotone(a[1..], b[1..]);
    }
  }

  /** ... and lowers it when an unread entry becomes read. */
  lemma {:induction false} UnreadCountDrops(a: seq<AppNotification>, b: seq<AppNotification>, k: nat)
    requires OnlyMoreRead(a, b)
    requires k < |a| && !a[k].isRead && b[k].isRead
    ensures UnreadCount(b) < UnreadCount(a)
  {
    assert OnlyMoreRead(a[1..], b[1..]) by {
      forall i | 0 <= i < |a[1..]| ensures b[1..][i] == a[1..][i] || b[1..][i] == a[1..][i].(isRead := true) {
        assert b[1..][i] == b[i + 1] && a[1..][i] == a[i + 1];
      }
    }
    if k == 0 {
      UnreadCountMonotone(a[1..], b[1..]);
    } else {
      UnreadCountDrops(a[1..], b[1..], k - 1);
    }
  }

  /** Mark-all-read leaves every entry read, keeps everything else, and
      doing it again changes nothing. */
  lemma MarkAllReadProperties(s: seq<AppNotification>)
    ensures UnreadCount(MarkAllRead(s)) == 0
    ensures OnlyMoreRead(s, MarkAllRead(s))
    ensures forall i :: 0 <= i < |s| ==>
      var n := MarkAllRead(s)[i];
      n.id == s[i].id && n.kind == s[i].kind && n.title == s[i].title && n.message == s[i].message
      && n.time == s[i].time && n.linkTo == s[i].linkTo
    ensures MarkAllRead(MarkAllRead(s)) == MarkAllRead(s)
  {
  }

  /** Clicking a notification reads exactly the entries carrying its id and
      leaves the others as they were; the count never goes up, and goes down
      when an unread entry has that id. */
  lemma MarkReadProperties(s: seq<AppNotification>, id: string)
    ensures OnlyMoreRead(s, MarkRead(s, id))
    ensures forall i :: 0 <= i < |s| ==> (MarkRead(s, id)[i] == s[i] <==> s[i].id != id || s[i].isRead)
    ensures UnreadCount(MarkRead(s, id)) <= UnreadCount(s)
    ensures (exists k :: 0 <= k < |s| && s[k].id == id && !s[k].isRead) ==> UnreadCount(MarkRead(s, id)) < UnreadCount(s)
  {
    UnreadCountMonotone(s, MarkRead(s, id));
    if k :| 0 <= k < |s| && s[k].id == id && !s[k].isRead {
      UnreadCountDrops(s, MarkRead(s, id), k);
    }
  }

  /** The mock inbox starts with four entries, three of them unread. */
  lemma MockInbox()
    ensures |MockNotifications| == 4
    ensures UnreadCount(MockNotifications) == 3
  {
    assert MockNotifications[1..][1..][1..][1..] == [];
  }

  /** One entry of the open dropdown. */
  datatype EntryView = EntryView(kind: NotificationType, title: string, message: string, time: string, highlighted: bool)

  datatype PanelBody = CaughtUp | Entries(entries: seq<EntryView>)

  /** What the dropdown shows: nothing when closed; otherwise the unread
      count in the header and either the "all caught up" message or the
      entries in list order, unread ones highlighted with a dot. */
  datatype Dropdown = Closed | Open(unread: nat, body: PanelBody)

  function EntryOf(n: AppNotification): EntryView {
    EntryView(n.kind, n.title, n.message, n.time, !n.isRead)
  }

  function EntriesOf(s: seq<AppNotification>): (r: seq<EntryView>)
    ensures |r| == |s|
    ensures forall i :: 0 <= i < |s| ==> r[i] == EntryOf(s[i])
  {
    if s == [] then [] else [EntryOf(s[0])] + EntriesOf(s[1..])
  }

  function DropdownOf(isOpen: bool, s: seq<AppNotification>): (d: Dropdown)
    ensures !isOpen <==> d == Closed
    ensures d.Open? ==> d.unread == UnreadCount(s) && (d.body == CaughtUp <==> s == [])
    ensures d.Open? && d.body.Entries? ==>
      |d.body.entries| == |s| && forall i :: 0 <= i < |s| ==> d.body.entries[i].highlighted == !s[i].isRead
    ensures d.Open? && d.body.Entries? ==> forall i :: 0 <= i < |s| ==>
      d.body.entries[i] == EntryView(s[i].kind, s[i].title, s[i].message, s[i].time, !s[i].isRead)
  {
    if !isOpen then Closed
    else Open(UnreadCount(s), if s == [] then CaughtUp else Entries(EntriesOf(s)))
  }

  class Bell {
    var isOpen: bool
    var notifications: seq<AppNotification>

    constructor ()
      ensures !isOpen && notifications == MockNotifications
    {
      isOpen := false;
      notifications := MockNotifications;
    }

    /** The red dot on the bell shows exactly when something is unread. */
    function ShowsRedDot(): (b: bool)
      reads this
      ensures b <==> exists i :: 0 <= i < |notifications| && !notifications[i].isRead
    {
      UnreadCount(notifications) > 0
    }

    function View(): Dropdown
      reads this
    {
      DropdownOf(isOpen, notifications)
    }

    /** The bell button. */
    method Toggle()
      modifies this
      ensures isOpen == !old(isOpen) && notifications == old(notifications)
    {
      isOpen := !isOpen;
    }

    method HandleMarkAllRead()
      modifies this
      ensures notifications == MarkAllRead(old(notifications)) && isOpen == old(isOpen)
      ensures UnreadCount(notifications) == 0
    {
      MarkAllReadProperties(notifications);
      notifications := MarkAllRead(notifications);
    }

    method HandleClearAll()
      modifies this
      ensures notifications == [] && isOpen == old(isOpen)
      ensures UnreadCount(notifications) == 0 && (isOpen ==> View() == Open(0, CaughtUp))
    {
      notifications := [];
    }

    /** Clicking an entry marks it read, closes the dropdown and returns the
        page to navigate to. */
    method HandleNotificationClick(notif: AppNotification) returns (navigateTo: string)
      modifies this
      ensures notifications == MarkRead(old(notifications), notif.id) && !isOpen
      ensures UnreadCount(notifications) <= old(UnreadCount(notifications))
      ensures navigateTo == notif.linkTo
    {
      MarkReadProperties(notifications, notif.id);
      notifications := MarkRead(notifications, notif.id);
      isOpen := false;
      navigateTo := notif.linkTo;
    }
  }
}
