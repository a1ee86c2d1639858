/** The escalation monitor: one pass of the overdue scan whose
    notifications are pushed one by one into the notification store.
    The five-minute timer that repeats the pass is not part of the
    model; `now` and the notification ids are parameters. */
module EscalationMonitor {
  import opened Common
  import opened Seqs
  import opened PotholeTypes
  import opened NotificationTypes
  import opened NotificationService
  import opened NotificationServiceProperties
  import opened NotificationStore

  /** The interval between passes, in milliseconds. */
  const CHECK_INTERVAL_MS: int := 5 * 60 * 1000

  /** The store's list after a pass that added `added`, in that order:
      each addition goes to the front, so the newest is first. */
  function AfterTick(s: seq<Notification>, added: seq<Notification>): (r: seq<Notification>)
    ensures |r| == |s| + |added|
    ensures r[|added|..] == s
    ensures forall k :: 0 <= k < |added| ==> r[k] == added[|added| - 1 - k]
  {
    Reversed(added) + s
  }

  /** `checkOverdueRepairs`: scan, then add every notification produced
      to the store. Returns the notifications and the e-mails of the scan. */
  method CheckOverdueRepairs(store: Store, potholes: seq<Pothole>, ids: seq<string>, now: int)
    returns (added: seq<Notification>, emails: seq<EmailAlert>)
    requires |ids| == |potholes|
    requires store.Valid()
    modifies store
    ensures added == Escalations(potholes, ids, now)
    ensures emails == EscalationEmails(potholes, now)
    ensures store.notifications == AfterTick(old(store.notifications), added)
    ensures store.Valid()
    ensures store.unreadCount == old(store.unreadCount) + |added|
  {
    added, emails := CheckForOverdueRepairs(potholes, ids, now);
    var i := 0;
    while i < |added|
      invariant 0 <= i <= |added|
      invariant store.Valid()
      invariant store.notifications == Reversed(added[..i]) + old(store.notifications)
      invariant store.unreadCount == old(store.unreadCount) + i
    {
      store.AddNotification(added[i]);
      ReversedAppend(added[..i], added[i]);
      assert added[..i + 1] == added[..i] + [added[i]];
      i := i + 1;
    }
    assert added[..i] == added;
  }

  /** The pass run when the pothole list changes: only when the list is
      not empty. */
  method OnPotholesChanged(store: Store, potholes: seq<Pothole>, ids: seq<string>, now: int)
    requires |ids| == |potholes|
    requires store.Valid()
    modifies store
    ensures store.Valid()
    ensures potholes == [] ==> store.notifications == old(store.notifications)
    ensures store.notifications == AfterTick(old(store.notifications), Escalations(potholes, ids, now))
  {
    if |potholes| > 0 {
      var added, emails := CheckOverdueRepairs(store, potholes, ids, now);
    }
  }

  /** Every notification a pass adds arrives unread, so a pass raises
      the unread count by the number of notifications it adds. */
  lemma UnreadAfterTick(s: seq<Notification>, ps: seq<Pothole>, ids: seq<string>, now: int)
    requires |ids| == |ps|
    ensures CountUnread(AfterTick(s, Escalations(ps, ids, now)))
         == CountUnread(s) + |Escalations(ps, ids, now)|
  {
    var added := Escalations(ps, ids, now);
    FilterAppend(Reversed(added), s, IsUnread);
    FilterKeepsAll(Reversed(added), IsUnread);
  }

  /** The monitor does not deduplicate: two passes over the same potholes
      at the same time add the same escalations twice, apart from their
      ids, and the unread count grows by twice their number. */
  lemma RepeatedTicksDuplicate(s: seq<Notification>, ps: seq<Pothole>, ids1: seq<string>,
                               ids2: seq<string>, now: int)
    requires |ids1| == |ps| && |ids2| == |ps|
    ensures var first := AfterTick(s, Escalations(ps, ids1, now));
            var second := AfterTick(first, Escalations(ps, ids2, now));
            var k := |Escalations(ps, ids1, now)|;
            && |second| == |s| + 2 * k
            && Map(second[..k], Anonymous) == Map(second[k..2 * k], Anonymous)
            && CountUnread(second) == CountUnread(s) + 2 * k
  {
    var e1 := Escalations(ps, ids1, now);
    var e2 := Escalations(ps, ids2, now);
    var first := AfterTick(s, e1);
    var second := AfterTick(first, e2);
    var k := |e1|;
    ScanDeterministic(ps, ids1, ids2, now);
    assert |e2| == k by {
      assert |Map(e1, Anonymous)| == |Map(e2, Anonymous)|;
    }
    assert second[..k] == Reversed(e2);
    assert second[k..2 * k] == Reversed(e1);
    MapReversed(e1, Anonymous);
    MapReversed(e2, Anonymous);
    UnreadAfterTick(s, ps, ids1, now);
    UnreadAfterTick(first, ps, ids2, now);
  }

  /** A pass over an empty list adds nothing, so the non-empty guard on
      the first pass changes no outcome. */
  lemma EmptyTickAddsNothing(now: int)
    ensures Escalations([], [], now) == []
  {
  }
}
