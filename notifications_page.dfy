/** The distributor's notification list (src/components/distributor/NotificationsPage.tsx).
    The page shows its own six sample notifications, not the store's; its
    filter is a string chosen from a row of buttons. */
module NotificationsPage {

  import opened Types
  import Seqs

  /** The page's sample notifications. */
  const Samples: seq<Notification> := [
    Notification("1", LowStock, "Low Stock Alert",
      "Wai Wai Noodles - Chicken stock is running low at Valley Wholesale Mart (15 units remaining)",
      "2025-01-15T10:30:00Z", false, High, Some("Valley Wholesale Mart"), Some("Wai Wai Noodles - Chicken"),
      None, None, None),
    Notification("2", OrderPlaced, "New Order Received",
      "Mountain Trading Co. has placed a new order #ORD-2025-003 worth NPR 8,500",
      "2025-01-15T09:15:00Z", false, Medium, Some("Mountain Trading Co."), None, Some("ORD-2025-003"), None, None),
    Notification("3", PaymentReceived, "Payment Received",
      "Payment of NPR 4,250 received from Valley Wholesale Mart via Khalti",
      "2025-01-15T08:45:00Z", true, Low, Some("Valley Wholesale Mart"), None, None, Some(4250.0), None),
    Notification("4", LowStock, "Critical Stock Alert",
      "Coca Cola - 250ml is critically low at Sunrise Wholesale (3 units remaining)",
      "2025-01-14T16:20:00Z", false, High, Some("Sunrise Wholesale"), Some("Coca Cola - 250ml"), None, None, None),
    Notification("5", OrderShipped, "Order Shipped",
      "Order #ORD-2025-001 has been shipped to Mountain Trading Co.",
      "2025-01-14T14:30:00Z", true, Low, Some("Mountain Trading Co."), None, Some("ORD-2025-001"), None, None),
    Notification("6", System, "System Update",
      "OrionNexus system will undergo maintenance on January 20, 2025 from 2:00 AM to 4:00 AM",
      "2025-01-14T12:00:00Z", true, Medium, None, None, None, None, None)
  ]

  /** The filter's three special values, then any type name. */
  predicate Keeps(filter: string, n: Notification)
  {
    if filter == "all" then true
    else if filter == "unread" then !n.read
    else if filter == "high" then n.priority == High
    else NotificationTypeName(n.ntype) == filter
  }

  function KeptBy(filter: string): Notification -> bool
  {
    (n: Notification) => Keeps(filter, n)
  }

  function Filtered(notifications: seq<Notification>, filter: string): (r: seq<Notification>)
    ensures |r| <= |notifications|
    ensures forall i :: 0 <= i < |r| ==> r[i] in notifications && Keeps(filter, r[i])
    ensures forall i :: 0 <= i < |notifications| && Keeps(filter, notifications[i]) ==> notifications[i] in r
  {
    Seqs.Filter(notifications, KeptBy(filter))
  }

  /** `all` keeps everything, in order. */
  lemma AllKeepsAll(notifications: seq<Notification>)
    ensures Filtered(notifications, "all") == notifications
  {
    Seqs.FilterKeepsAll(notifications, KeptBy("all"));
  }

  /** What each filter value keeps. No type is named `all`, `unread` or
      `high`, so a type filter is never shadowed by a special value. */
  lemma FilterMeans(filter: string, n: Notification)
    ensures filter == "unread" ==> (Keeps(filter, n) <==> !n.read)
    ensures filter == "high" ==> (Keeps(filter, n) <==> n.priority == High)
    ensures forall t: NotificationType :: filter == NotificationTypeName(t) ==> (Keeps(filter, n) <==> n.ntype == t)
  {
    forall t: NotificationType | filter == NotificationTypeName(t)
      ensures Keeps(filter, n) <==> n.ntype == t
    {
      TypeNamesDistinct(n.ntype, t);
    }
  }

  lemma TypeNamesDistinct(s: NotificationType, t: NotificationType)
    ensures NotificationTypeName(s) == NotificationTypeName(t) <==> s == t
    ensures NotificationTypeName(s) != "all" && NotificationTypeName(s) != "unread" && NotificationTypeName(s) != "high"
  {
  }

  function IsUnread(n: Notification): bool { !n.read }

  /** `unreadCount`. */
  function UnreadCount(notifications: seq<Notification>): nat
  {
    |Seqs.Filter(notifications, IsUnread)|
  }

  /** The unread counter is the length of the list behind the Unread button. */
  lemma {:induction false} UnreadCountIsUnreadFilter(notifications: seq<Notification>)
    ensures UnreadCount(notifications) == |Filtered(notifications, "unread")|
  {
    if notifications != [] {
      UnreadCountIsUnreadFilter(notifications[1..]);
    }
  }

  /** Three of the samples are unread. */
  lemma SamplesUnread()
    ensures UnreadCount(Samples) == 3
  {
    var s := Samples;
    assert s[1..][1..][1..][1..][1..][1..] == [];
  }
}
