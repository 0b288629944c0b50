/** The earlier manager: it keeps a two-field count record whose fields
    two separate queries refresh, sets the badge to the number of current
    delivered notifications and purges the obsolete ones, and presents
    every notification the same way. */
module LegacyManager {
  import opened Wrappers
  import opened DateUtil
  import opened TimeSpan
  import opened Classify
  import opened Backend
  import Manager

  datatype LegacyCounts = LegacyCounts(pending: int, delivered: int)

  /** The badge the refresh sets: the delivered notifications whose
      identifier decodes to a current span. */
  function CurrentBadge(delivered: seq<Notification>, now: Time): (b: nat)
    ensures b <= |delivered|
    ensures b == 0 <==> forall n :: n in delivered ==> !DecodesCurrent(n.request.identifier, now)
    ensures b == Manager.CountCurrentDelivered(delivered, now)
  {
    Manager.CurrentDeliveredCount(delivered, now);
    var ids := Ids(delivered);
    var cur := CurrentIn(ids, now);
    assert cur != [] ==> cur[0] in cur;
    assert forall n :: n in delivered ==> n.request.identifier in ids by {
      forall n | n in delivered ensures n.request.identifier in ids {
        var i :| 0 <= i < |delivered| && delivered[i] == n;
        assert ids[i] == n.request.identifier;
      }
    }
    |cur|
  }

  /** The legacy refresh badge equals the delivered part of the newer
      manager's current count: the newer one only adds the received spans. */
  lemma CurrentBadgeAgainstSnapshot(received: seq<NotificationTimeSpan>, pendingCount: int, delivered: seq<Notification>, now: Time)
    ensures Manager.Snapshot(received, pendingCount, delivered, now).current
            == |CurrentSpans(received, now)| + CurrentBadge(delivered, now)
    ensures received == [] ==> Manager.Snapshot(received, pendingCount, delivered, now).current == CurrentBadge(delivered, now)
  {
  }

  class LegacyNotificationManager {
    const center: NotificationCenter
    var authorized: bool
    /** `notificationCounts` */
    var counts: LegacyCounts
    /** Whether `updateDiagnosticCounts` is set. */
    var hasObserver: bool
    /** The count records handed to the observer, oldest first. */
    var published: seq<LegacyCounts>

    constructor()
      ensures fresh(center)
      ensures center.pending == map[] && center.delivered == [] && center.badge == 0
      ensures !authorized && counts == LegacyCounts(0, 0) && !hasObserver && published == []
    {
      center := new NotificationCenter();
      authorized := false;
      counts := LegacyCounts(0, 0);
      hasObserver := false;
      published := [];
    }

    /** `initializeAtAppStart`, with the user's answer passed in. */
    method InitializeAtAppStart(granted: bool)
      modifies this
      ensures authorized == (old(authorized) || granted)
      ensures counts == old(counts) && hasObserver == old(hasObserver) && published == old(published)
    {
      if granted {
        authorized := true;
      }
    }

    /** `updatePendingCount`: only the pending field changes. */
    method UpdatePendingCount()
      modifies this
      ensures counts == LegacyCounts(|center.pending|, old(counts).delivered)
      ensures published == (if hasObserver then old(published) + [counts] else old(published))
      ensures authorized == old(authorized) && hasObserver == old(hasObserver)
    {
      counts := counts.(pending := |center.pending|);
      if hasObserver {
        published := published + [counts];
      }
    }

    /** `updateDeliveredCount`: only the delivered field changes. */
    method UpdateDeliveredCount()
      modifies this
      ensures counts == LegacyCounts(old(counts).pending, |center.delivered|)
      ensures published == (if hasObserver then old(published) + [counts] else old(published))
      ensures authorized == old(authorized) && hasObserver == old(hasObserver)
    {
      counts := counts.(delivered := |center.delivered|);
      if hasObserver {
        published := published + [counts];
      }
    }

    /** `updateBothCounts`: the pending query, then the delivered one. */
    method UpdateBothCounts()
      modifies this
      ensures counts == LegacyCounts(|center.pending|, |center.delivered|)
      ensures published == (if hasObserver
                            then old(published) + [LegacyCounts(|center.pending|, old(counts).delivered), counts]
                            else old(published))
      ensures authorized == old(authorized) && hasObserver == old(hasObserver)
    {
      UpdatePendingCount();
      UpdateDeliveredCount();
    }

    /** Setting the observer refreshes both counts. */
    method SetObserver(present: bool)
      modifies this
      ensures hasObserver == present
      ensures counts == LegacyCounts(|center.pending|, |center.delivered|)
      ensures published == (if present
                            then old(published) + [LegacyCounts(|center.pending|, old(counts).delivered), counts]
                            else old(published))
      ensures authorized == old(authorized)
    {
      hasObserver := present;
      UpdateBothCounts();
    }

    /** `addNotification(title:body:for:)`: when authorized, schedule the
        start alert and refresh the pending count. */
    method AddNotification(title: string, body: string, interval: Interval)
      modifies this, center
      ensures !old(authorized) ==>
        && center.pending == old(center.pending) && counts == old(counts) && published == old(published)
      ensures old(authorized) ==>
        var r := Manager.BookingRequest(title, body, interval);
        && center.pending == old(center.pending)[r.identifier := r]
        && counts == LegacyCounts(|center.pending|, old(counts).delivered)
        && published == (if hasObserver then old(published) + [counts] else old(published))
      ensures center.delivered == old(center.delivered) && center.badge == old(center.badge)
      ensures authorized == old(authorized) && hasObserver == old(hasObserver)
    {
      if !authorized {
        return;
      }
      var r := Manager.BookingRequest(title, body, interval);
      center.Add(r);
      UpdatePendingCount();
    }

    /** `removeNotificationRequest(with:)`: only that identifier leaves the
        pending requests, then the pending count is refreshed. */
    method RemoveNotificationRequest(id: string)
      modifies this, center
      ensures center.pending == map k | k in old(center.pending) && k != id :: old(center.pending)[k]
      ensures center.delivered == old(center.delivered) && center.badge == old(center.badge)
      ensures counts == LegacyCounts(|center.pending|, old(counts).delivered)
      ensures published == (if hasObserver then old(published) + [counts] else old(published))
      ensures authorized == old(authorized) && hasObserver == old(hasObserver)
    {
      center.RemovePending([id]);
      UpdatePendingCount();
    }

    /** `removeAllDeliveredNotifications`, then the delivered count. */
    method RemoveAllDeliveredNotifications()
      modifies this, center
      ensures center.delivered == [] && center.pending == old(center.pending) && center.badge == old(center.badge)
      ensures counts == LegacyCounts(old(counts).pending, 0)
      ensures published == (if hasObserver then old(published) + [counts] else old(published))
      ensures authorized == old(authorized) && hasObserver == old(hasObserver)
    {
      center.RemoveAllDelivered();
      UpdateDeliveredCount();
    }

    /** `clearBadge` */
    method ClearBadge()
      modifies center
      ensures center.badge == 0
      ensures center.pending == old(center.pending) && center.delivered == old(center.delivered)
    {
      center.SetBadge(0);
    }

    /** `updateBadgeAndCounts`: the badge counts the current delivered
        notifications and the obsolete ones are removed; no count is
        published. */
    method UpdateBadgeAndCounts(now: Time)
      modifies center
      ensures center.badge == CurrentBadge(old(center.delivered), now)
      ensures center.delivered == Manager.Purge(old(center.delivered), now)
      ensures center.pending == old(center.pending)
    {
      var ids := Ids(center.delivered);
      var currentCount := |CurrentIn(ids, now)|;
      center.SetBadge(currentCount);
      var notCurrent := ObsoleteIn(ids, now);
      center.RemoveDelivered(notCurrent);
    }

    /** `userNotificationCenter(_:willPresent:)`: both counts, then the
        badge refresh; every notification is shown with alert, badge and
        sound, and nothing is scheduled. */
    method WillPresent(n: Notification, now: Time) returns (options: set<PresentationOption>)
      modifies this, center
      ensures options == {Alert, Badge, Sound}
      ensures center.pending == old(center.pending)
      ensures center.delivered == Manager.Purge(old(center.delivered), now)
      ensures center.badge == CurrentBadge(old(center.delivered), now)
      ensures counts == LegacyCounts(|old(center.pending)|, |old(center.delivered)|)
      ensures published == (if hasObserver
                            then old(published) + [LegacyCounts(|old(center.pending)|, old(counts).delivered), counts]
                            else old(published))
      ensures authorized == old(authorized) && hasObserver == old(hasObserver)
    {
      UpdateBothCounts();
      UpdateBadgeAndCounts(now);
      options := {Alert, Badge, Sound};
    }
  }
}
