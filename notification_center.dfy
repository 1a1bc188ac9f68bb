/**
 * Read-state of the notification list (client/src/components/NotificationCenter.tsx):
 * marking one or all as read, the tab filter, and the unread counts shown as badges.
 */
module NotificationCenter {
  import opened Seqs

  datatype NotificationType = Alert | Update | Info

  datatype Notification = Notification(
    id: string,
    kind: NotificationType,
    title: string,
    message: string,
    time: string,
    read: bool)

  /** The list after `markAsRead(id)`. */
  function MarkedRead(ns: seq<Notification>, id: string): (r: seq<Notification>)
    ensures |r| == |ns|
    ensures forall i :: 0 <= i < |ns| && ns[i].id == id ==> r[i] == ns[i].(read := true)
    ensures forall i :: 0 <= i < |ns| && ns[i].id != id ==> r[i] == ns[i]
  {
    if ns == [] then []
    else [if ns[0].id == id then ns[0].(read := true) else ns[0]] + MarkedRead(ns[1..], id)
  }

  /** The list after `markAllAsRead()`. */
  function AllMarkedRead(ns: seq<Notification>): (r: seq<Notification>)
    ensures |r| == |ns|
    ensures forall i :: 0 <= i < |ns| ==> r[i] == ns[i].(read := true)
  {
    if ns == [] then [] else [ns[0].(read := true)] + AllMarkedRead(ns[1..])
  }

  predicate IsUnread(n: Notification) { !n.read }
  predicate IsUnreadAlert(n: Notification) { n.kind == Alert && !n.read }
  predicate IsAlert(n: Notification) { n.kind == Alert }
  predicate IsUpdate(n: Notification) { n.kind == Update }
  predicate IsInfo(n: Notification) { n.kind == Info }

  /** `unreadCount` */
  function UnreadCount(ns: seq<Notification>): (n: nat)
    ensures n <= |ns|
  {
    Count(ns, IsUnread)
  }

  /** The number on the Alerts tab's badge: unread alerts, so never more than the unread count. */
  function AlertBadge(ns: seq<Notification>): (n: nat)
    ensures n <= UnreadCount(ns)
  {
    CountMonotone(ns, IsUnreadAlert, IsUnread);
    Count(ns, IsUnreadAlert)
  }

  /** The "Mark all as read" button is shown exactly while some entry is unread. */
  function MarkAllShown(ns: seq<Notification>): (shown: bool)
    ensures shown <==> exists i :: 0 <= i < |ns| && !ns[i].read
  {
    UnreadCountPositiveIff(ns);
    UnreadCount(ns) > 0
  }

  /** The unread count is positive exactly when some entry is unread. */
  lemma UnreadCountPositiveIff(ns: seq<Notification>)
    ensures UnreadCount(ns) > 0 <==> exists i :: 0 <= i < |ns| && !ns[i].read
  {
    if UnreadCount(ns) > 0 {
      var x := Filter(ns, IsUnread)[0];
      assert x in Filter(ns, IsUnread);
      FilterSound(ns, IsUnread);
      var i :| 0 <= i < |ns| && ns[i] == x;
    }
    if exists i :: 0 <= i < |ns| && !ns[i].read {
      var i :| 0 <= i < |ns| && !ns[i].read;
      FilterKeeps(ns, IsUnread, i);
    }
  }

  /** `filteredNotifications()` for a tab name. */
  function FilteredNotifications(ns: seq<Notification>, tab: string): (r: seq<Notification>)
    ensures tab == "alerts" ==> forall n :: n in r ==> n in ns && n.kind == Alert
    ensures tab == "updates" ==> forall n :: n in r ==> n in ns && n.kind == Update
    ensures tab == "info" ==> forall n :: n in r ==> n in ns && n.kind == Info
    ensures tab != "alerts" && tab != "updates" && tab != "info" ==> r == ns
  {
    if tab == "alerts" then FilterSound(ns, IsAlert); Filter(ns, IsAlert)
    else if tab == "updates" then FilterSound(ns, IsUpdate); Filter(ns, IsUpdate)
    else if tab == "info" then FilterSound(ns, IsInfo); Filter(ns, IsInfo)
    else ns
  }

  /**
   * Each type tab keeps every entry of its type as often as it occurs in the list,
   * drops every other entry, and keeps the list order.
   */
  lemma TabsKeepTheirType(ns: seq<Notification>, tab: string)
    ensures tab == "alerts" ==> forall n :: multiset(FilteredNotifications(ns, tab))[n]
                                         == (if n.kind == Alert then multiset(ns)[n] else 0)
    ensures tab == "updates" ==> forall n :: multiset(FilteredNotifications(ns, tab))[n]
                                          == (if n.kind == Update then multiset(ns)[n] else 0)
    ensures tab == "info" ==> forall n :: multiset(FilteredNotifications(ns, tab))[n]
                                       == (if n.kind == Info then multiset(ns)[n] else 0)
    ensures tab == "alerts" || tab == "updates" || tab == "info" ==>
      IsSubsequence(FilteredNotifications(ns, tab), ns)
  {
    if tab == "alerts" {
      FilterMultiset(ns, IsAlert);
      FilterIsSubsequence(ns, IsAlert);
    } else if tab == "updates" {
      FilterMultiset(ns, IsUpdate);
      FilterIsSubsequence(ns, IsUpdate);
    } else if tab == "info" {
      FilterMultiset(ns, IsInfo);
      FilterIsSubsequence(ns, IsInfo);
    }
  }

  /** Marking one id read is idempotent. */
  lemma MarkAsReadIdempotent(ns: seq<Notification>, id: string)
    ensures MarkedRead(MarkedRead(ns, id), id) == MarkedRead(ns, id)
  {
  }

  /** Marking read never raises the unread count; it drops by the unread entries with that id. */
  lemma {:induction false} MarkAsReadNeverIncreasesUnread(ns: seq<Notification>, id: string)
    ensures UnreadCount(MarkedRead(ns, id)) <= UnreadCount(ns)
    ensures (exists i :: 0 <= i < |ns| && ns[i].id == id && !ns[i].read) ==>
            UnreadCount(MarkedRead(ns, id)) < UnreadCount(ns)
  {
    if ns != [] {
      MarkAsReadNeverIncreasesUnread(ns[1..], id);
      var r := MarkedRead(ns, id);
      assert r[1..] == MarkedRead(ns[1..], id);
      assert r == [r[0]] + r[1..];
      if exists i :: 0 <= i < |ns| && ns[i].id == id && !ns[i].read {
        var i :| 0 <= i < |ns| && ns[i].id == id && !ns[i].read;
        if i > 0 {
          assert ns[1..][i - 1] == ns[i];
        }
      }
    }
  }

  /** After marking all as read nothing is unread: no badge and no "Mark all" button. */
  lemma {:induction false} MarkAllLeavesNothingUnread(ns: seq<Notification>)
    ensures UnreadCount(AllMarkedRead(ns)) == 0
    ensures AlertBadge(AllMarkedRead(ns)) == 0
    ensures !MarkAllShown(AllMarkedRead(ns))
  {
    var r := AllMarkedRead(ns);
    FilterNone(r, IsUnread);
    FilterNone(r, IsUnreadAlert);
  }

  /** The notifications the center starts with. */
  const FloodWarning := "Water level rising in Mithi River. Areas around Kurla and Saki Naka at risk."
  const CampOpened := "New relief camp operational at Municipal School, Ghatkopar with capacity for 200 people."
  const RoadClosure := "Andheri subway closed due to waterlogging. Use alternate routes via Western Express Highway."
  const TeamsDispatched := "Additional medical teams sent to Dharavi and Chembur areas to assist affected residents."
  const ResourcesRequest := "Urgent need for water purification tablets and blankets at Kurla relief camp."

  function MockNotifications(): (ns: seq<Notification>)
    ensures UnreadCount(ns) == 3 && AlertBadge(ns) == 2
  {
    var n1 := Notification("1", Alert, "New Flood Warning", FloodWarning, "10 minutes ago", false);
    var n2 := Notification("2", Update, "Relief Camp Opened", CampOpened, "45 minutes ago", false);
    var n3 := Notification("3", Info, "Road Closure Alert", RoadClosure, "1 hour ago", true);
    var n4 := Notification("4", Update, "Medical Teams Dispatched", TeamsDispatched, "2 hours ago", true);
    var n5 := Notification("5", Alert, "Emergency Resources Request", ResourcesRequest, "3 hours ago", false);
    MockCounts(n1, n2, n3, n4, n5);
    [n1, n2, n3, n4, n5]
  }

  /** The counting behind the initial badges, for five entries with the mocks' read flags and types. */
  lemma MockCounts(n1: Notification, n2: Notification, n3: Notification, n4: Notification, n5: Notification)
    requires !n1.read && !n2.read && n3.read && n4.read && !n5.read
    requires n1.kind == Alert && n2.kind == Update && n5.kind == Alert
    ensures Count([n1, n2, n3, n4, n5], IsUnread) == 3
    ensures Count([n1, n2, n3, n4, n5], IsUnreadAlert) == 2
  {
    var ns := [n1, n2, n3, n4, n5];
    FilterCons(n1, [n2, n3, n4, n5], IsUnread);
    FilterCons(n2, [n3, n4, n5], IsUnread);
    FilterCons(n3, [n4, n5], IsUnread);
    FilterCons(n4, [n5], IsUnread);
    FilterCons(n1, [n2, n3, n4, n5], IsUnreadAlert);
    FilterCons(n2, [n3, n4, n5], IsUnreadAlert);
    FilterCons(n3, [n4, n5], IsUnreadAlert);
    FilterCons(n4, [n5], IsUnreadAlert);
    assert [n1] + [n2, n3, n4, n5] == ns;
    assert [n2] + [n3, n4, n5] == [n2, n3, n4, n5];
    assert [n3] + [n4, n5] == [n3, n4, n5];
    assert [n4] + [n5] == [n4, n5];
  }

  /** The notification component's state. */
  class Center {
    var notifications: seq<Notification>
    var activeTab: string

    constructor ()
      ensures notifications == MockNotifications() && activeTab == "all"
    {
      notifications := MockNotifications();
      activeTab := "all";
    }

    /** `markAsRead(id)` */
    method MarkAsRead(id: string)
      modifies this
      ensures notifications == MarkedRead(old(notifications), id)
      ensures UnreadCount(notifications) <= old(UnreadCount(notifications))
      ensures activeTab == old(activeTab)
    {
      MarkAsReadNeverIncreasesUnread(notifications, id);
      notifications := MarkedRead(notifications, id);
    }

    /** `markAllAsRead()` */
    method MarkAllAsRead()
      modifies this
      ensures notifications == AllMarkedRead(old(notifications))
      ensures UnreadCount(notifications) == 0
      ensures activeTab == old(activeTab)
    {
      MarkAllLeavesNothingUnread(notifications);
      notifications := AllMarkedRead(notifications);
    }

    /** The tab strip. */
    method SetActiveTab(tab: string)
      modifies this
      ensures activeTab == tab && notifications == old(notifications)
    {
      activeTab := tab;
    }
  }
}
