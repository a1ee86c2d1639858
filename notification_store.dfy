/** The notification store: a newest-first list of notifications with a
    cached count of the unread ones, the actions that change it, and the
    read-only queries over it. Persistence to browser storage is not
    part of the model. */
module NotificationStore {
  import opened Common
  import opened Seqs
  import opened NotificationTypes

  predicate IsUnread(n: Notification) {
    !n.read
  }

  /** `notifications.filter((n) => !n.read).length`. */
  function CountUnread(s: seq<Notification>): (count: nat)
    ensures count <= |s|
  {
    |Filter(s, IsUnread)|
  }

  function MarkedRead(n: Notification): Notification {
    n.(read := true)
  }

  function MarkedReadIf(id: string): Notification -> Notification {
    (n: Notification) => if n.id == id then MarkedRead(n) else n
  }

  /** The list after `markAsRead(id)`: every entry with that id is read,
      nothing else changes. */
  function MarkRead(s: seq<Notification>, id: string): (r: seq<Notification>)
    ensures |r| == |s|
    ensures forall i :: 0 <= i < |s| ==>
      r[i] == if s[i].id == id then s[i].(read := true) else s[i]
  {
    Map(s, MarkedReadIf(id))
  }

  /** The list after `markAllAsRead`: same entries, in the same order,
      all read. */
  function MarkAllRead(s: seq<Notification>): (r: seq<Notification>)
    ensures |r| == |s|
    ensures forall i :: 0 <= i < |s| ==> r[i] == s[i].(read := true)
  {
    Map(s, MarkedRead)
  }

  function HasOtherId(id: string): Notification -> bool {
    (n: Notification) => n.id != id
  }

  /** The list after `removeNotification(id)`: the entries with another
      id, in their order. */
  function RemoveId(s: seq<Notification>, id: string): (r: seq<Notification>)
    ensures IsSubsequence(r, s)
    ensures forall i :: 0 <= i < |r| ==> r[i].id != id
    ensures forall i :: 0 <= i < |s| && s[i].id != id ==> s[i] in r
    ensures forall x :: multiset(r)[x] == if x.id != id then multiset(s)[x] else 0
  {
    FilterSpec(s, HasOtherId(id));
    FilterMultiset(s, HasOtherId(id));
    Filter(s, HasOtherId(id))
  }

  predicate IsHighPriority(n: Notification) {
    n.kind == HighPriority || n.kind == Escalation
  }

  predicate NeedsAction(n: Notification) {
    n.actionRequired && !n.read
  }

  class Store {
    var notifications: seq<Notification>
    var unreadCount: nat

    /** The cached count is the number of unread entries. */
    ghost predicate Valid()
      reads this
    {
      unreadCount == CountUnread(notifications)
    }

    constructor ()
      ensures Valid() && notifications == [] && unreadCount == 0
    {
      notifications := [];
      unreadCount := 0;
    }

    /** `addNotification`: the new entry goes to the front. */
    method AddNotification(notification: Notification)
      modifies this
      ensures notifications == [notification] + old(notifications)
      ensures Valid()
      ensures old(Valid()) ==> unreadCount == old(unreadCount) + (if notification.read then 0 else 1)
    {
      var newNotifications := [notification] + notifications;
      UnreadAfterAdd(notification, notifications);
      notifications := newNotifications;
      unreadCount := |Filter(newNotifications, IsUnread)|;
    }

    /** `markAsRead(id)`; an unknown id changes nothing. */
    method MarkAsRead(id: string)
      modifies this
      ensures notifications == MarkRead(old(notifications), id)
      ensures Valid()
      ensures unreadCount <= old(CountUnread(notifications))
    {
      UnreadAfterMarkRead(notifications, id);
      notifications := Map(notifications, MarkedReadIf(id));
      unreadCount := |Filter(notifications, IsUnread)|;
    }

    /** `markAllAsRead`: the count is set to zero directly. */
    method MarkAllAsRead()
      modifies this
      ensures notifications == MarkAllRead(old(notifications))
      ensures Valid() && unreadCount == 0
    {
      notifications := Map(notifications, MarkedRead);
      unreadCount := 0;
      NoneUnreadAfterMarkAll(old(notifications));
    }

    /** `removeNotification(id)`; an unknown id changes nothing. */
    method RemoveNotification(id: string)
      modifies this
      ensures notifications == RemoveId(old(notifications), id)
      ensures Valid()
    {
      notifications := Filter(notifications, HasOtherId(id));
      unreadCount := |Filter(notifications, IsUnread)|;
    }

    /** `clearAll`. */
    method ClearAll()
      modifies this
      ensures notifications == [] && unreadCount == 0
      ensures Valid()
    {
      notifications := [];
      unreadCount := 0;
    }

    /** `getUnreadCount`: recomputed from the list, and equal to the
      cached count. */
    function GetUnreadCount(): (count: nat)
      reads this
      ensures count <= |notifications|
      ensures Valid() ==> count == unreadCount
    {
      |Filter(notifications, IsUnread)|
    }

    /** `getHighPriorityNotifications`: the high-priority and escalation
      entries, in list order. */
    function GetHighPriorityNotifications(): (r: seq<Notification>)
      reads this
      ensures IsSubsequence(r, notifications)
      ensures forall i :: 0 <= i < |r| ==> r[i].kind == HighPriority || r[i].kind == Escalation
      ensures forall i :: 0 <= i < |notifications| && IsHighPriority(notifications[i]) ==>
        notifications[i] in r
      ensures forall x ::
        multiset(r)[x] == if x.kind == HighPriority || x.kind == Escalation then multiset(notifications)[x] else 0
    {
      FilterSpec(notifications, IsHighPriority);
      FilterMultiset(notifications, IsHighPriority);
      Filter(notifications, IsHighPriority)
    }

    /** `getActionRequiredNotifications`: the unread entries that ask for
      action, in list order. */
    function GetActionRequiredNotifications(): (r: seq<Notification>)
      reads this
      ensures IsSubsequence(r, notifications)
      ensures forall i :: 0 <= i < |r| ==> r[i].actionRequired && !r[i].read
      ensures forall i :: 0 <= i < |notifications| && NeedsAction(notifications[i]) ==>
        notifications[i] in r
      ensures forall x ::
        multiset(r)[x] == if x.actionRequired && !x.read then multiset(notifications)[x] else 0
    {
      FilterSpec(notifications, NeedsAction);
      FilterMultiset(notifications, NeedsAction);
      Filter(notifications, NeedsAction)
    }
  }

  /** Adding an entry raises the unread count by one exactly when the
      entry is unread. */
  lemma UnreadAfterAdd(n: Notification, s: seq<Notification>)
    ensures CountUnread([n] + s) == CountUnread(s) + (if n.read then 0 else 1)
  {
    assert ([n] + s)[1..] == s;
  }

  /** Marking one id read lowers the unread count by the number of
      unread entries with that id. */
  lemma {:induction false} UnreadAfterMarkRead(s: seq<Notification>, id: string)
    ensures CountUnread(MarkRead(s, id)) + |Filter(s, UnreadWithId(id))| == CountUnread(s)
  {
    if s != [] {
      UnreadAfterMarkRead(s[1..], id);
      assert MarkRead(s, id) == [MarkedReadIf(id)(s[0])] + MarkRead(s[1..], id);
    }
  }

  function UnreadWithId(id: string): Notification -> bool {
    (n: Notification) => !n.read && n.id == id
  }

  /** After marking everything read, nothing is unread. */
  lemma NoneUnreadAfterMarkAll(s: seq<Notification>)
    ensures CountUnread(MarkAllRead(s)) == 0
  {
    FilterKeepsNone(MarkAllRead(s), IsUnread);
  }

  /** Marking an id read twice is the same as marking it once. */
  lemma MarkReadIdempotent(s: seq<Notification>, id: string)
    ensures MarkRead(MarkRead(s, id), id) == MarkRead(s, id)
  {
  }

  /** Marking or removing an id that no entry has changes nothing. */
  lemma UnknownIdIsNoop(s: seq<Notification>, id: string)
    requires forall i :: 0 <= i < |s| ==> s[i].id != id
    ensures MarkRead(s, id) == s
    ensures RemoveId(s, id) == s
  {
    FilterKeepsAll(s, HasOtherId(id));
  }

  /** Removing entries never raises the unread count. */
  lemma RemoveNeverRaisesUnread(s: seq<Notification>, id: string)
    ensures CountUnread(RemoveId(s, id)) <= CountUnread(s)
    ensures |RemoveId(s, id)| + |Filter(s, HasId(id))| == |s|
  {
    RemovePartition(s, id);
    UnreadOfSubsequence(RemoveId(s, id), s);
  }

  function HasId(id: string): Notification -> bool {
    (n: Notification) => n.id == id
  }

  lemma {:induction false} RemovePartition(s: seq<Notification>, id: string)
    ensures |RemoveId(s, id)| + |Filter(s, HasId(id))| == |s|
  {
    if s != [] {
      RemovePartition(s[1..], id);
    }
  }

  lemma {:induction false} UnreadOfSubsequence(a: seq<Notification>, b: seq<Notification>)
    requires IsSubsequence(a, b)
    ensures CountUnread(a) <= CountUnread(b)
    decreases |b|
  {
    if a == [] {
    } else if a[0] == b[0] && IsSubsequence(a[1..], b[1..]) {
      UnreadOfSubsequence(a[1..], b[1..]);
    } else {
      UnreadOfSubsequence(a, b[1..]);
    }
  }

  /** A freshly added unread entry that asks for action heads both the
      action-required query and, if it is a high-priority or escalation
      entry, the high-priority query. */
  lemma AddedAlertHeadsQueries(n: Notification, s: seq<Notification>)
    requires NeedsAction(n)
    ensures Filter([n] + s, NeedsAction) == [n] + Filter(s, NeedsAction)
    ensures IsHighPriority(n) ==> Filter([n] + s, IsHighPriority) == [n] + Filter(s, IsHighPriority)
  {
    assert ([n] + s)[1..] == s;
  }

  /** Once everything is read, no entry asks for action. */
  lemma NothingActionableAfterMarkAll(s: seq<Notification>)
    ensures Filter(MarkAllRead(s), NeedsAction) == []
  {
    FilterKeepsNone(MarkAllRead(s), NeedsAction);
  }

  /** The four-step scenario: two unread additions give a count of two,
      marking the first read gives one, marking all read gives zero. */
  lemma AddAddMarkMarkAll(n1: Notification, n2: Notification)
    requires !n1.read && !n2.read && n1.id != n2.id
    ensures CountUnread([n1]) == 1
    ensures CountUnread([n2, n1]) == 2
    ensures CountUnread(MarkRead([n2, n1], n1.id)) == 1
    ensures CountUnread(MarkAllRead(MarkRead([n2, n1], n1.id))) == 0
  {
    UnreadAfterAdd(n1, []);
    UnreadAfterAdd(n2, [n1]);
    var marked := MarkRead([n2, n1], n1.id);
    assert marked == [n2] + [n1.(read := true)];
    UnreadAfterAdd(n1.(read := true), []);
    UnreadAfterAdd(n2, [n1.(read := true)]);
    NoneUnreadAfterMarkAll(marked);
  }
}
