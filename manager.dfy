/** The notification manager: schedules a booking's start alert, chains
    one end-of-booking alert when the start alert is presented, keeps the
    spans the user opened, and refreshes the badge and the diagnostic
    counts, purging delivered notifications whose booking is over. */
module Manager {
  import opened Wrappers
  import opened Decimal
  import opened DateUtil
  import opened TimeSpan
  import opened Classify
  import opened Backend

  /** Swift's interpolation of an `Int`: optional minus sign, then the
      decimal digits without leading zeros. */
  function IntText(n: int): (s: string)
    ensures n >= 0 ==> AllDigits(s) && DigitsValue(s) == n
    ensures n < 0 ==> |s| >= 2 && s[0] == '-' && AllDigits(s[1..]) && DigitsValue(s[1..]) == -n
  {
    if n < 0 then
      ValueOfDigits(-n);
      var s := "-" + Digits(-n);
      assert s[1..] == Digits(-n);
      s
    else
      ValueOfDigits(n);
      Digits(n)
  }

  /** The three diagnostic counts handed to the observer. */
  datatype NotificationCounts = NotificationCounts(pending: int, delivered: int, current: int)
  {
    /** `description` */
    function Description(): string {
      "pending: " + IntText(pending) + ", delivered: " + IntText(delivered) + ", current: " + IntText(current)
    }
  }

  /** The counts text for one pending, seven delivered and two current
      notifications. */
  lemma CountsDescriptionExample()
    ensures NotificationCounts(1, 7, 2).Description() == "pending: 1, delivered: 7, current: 2"
  {
  }

  /** The description lays out the three counts behind their labels, and
      each count reads back from its place in the text. */
  lemma {:induction false} CountsDescriptionFields(c: NotificationCounts)
    requires c.pending >= 0 && c.delivered >= 0 && c.current >= 0
    ensures var d := c.Description();
      var p, q, r := |IntText(c.pending)|, |IntText(c.delivered)|, |IntText(c.current)|;
      && |d| == 33 + p + q + r
      && d[..9] == "pending: "
      && AllDigits(d[9..9 + p]) && DigitsValue(d[9..9 + p]) == c.pending
      && d[9 + p..22 + p] == ", delivered: "
      && AllDigits(d[22 + p..22 + p + q]) && DigitsValue(d[22 + p..22 + p + q]) == c.delivered
      && d[22 + p + q..33 + p + q] == ", current: "
      && AllDigits(d[33 + p + q..]) && DigitsValue(d[33 + p + q..]) == c.current
  {
    var tp, tq, tr := IntText(c.pending), IntText(c.delivered), IntText(c.current);
    assert c.Description() == "pending: " + tp + ", delivered: " + tq + ", current: " + tr;
    LabelledSlices("pending: ", tp, ", delivered: ", tq, ", current: ", tr);
  }

  /** Where each of six concatenated parts sits in the whole. */
  lemma {:induction false} LabelledSlices(a: string, b: string, c: string, d: string, e: string, f: string)
    ensures var t := a + b + c + d + e + f;
      var i1, i2, i3, i4, i5 := |a|, |a| + |b|, |a| + |b| + |c|, |a| + |b| + |c| + |d|, |a| + |b| + |c| + |d| + |e|;
      && |t| == i5 + |f|
      && t[..i1] == a && t[i1..i2] == b && t[i2..i3] == c
      && t[i3..i4] == d && t[i4..i5] == e && t[i5..] == f
  {
    var t := a + b + c + d + e + f;
    var p2, p3, p4, p5 := a + b, a + b + c, a + b + c + d, a + b + c + d + e;
    assert t[..|a|] == a;
    MiddleSlice(a, b, t[|p2|..]);
    MiddleSlice(p2, c, t[|p3|..]);
    MiddleSlice(p3, d, t[|p4|..]);
    MiddleSlice(p4, e, t[|p5|..]);
    assert t == p5 + f;
  }

  /* ---------------------------------------------------------------------
     Requests
     --------------------------------------------------------------------- */

  const EndOfBookingKey: string := "end-of-booking"

  /** `isEndOfBooking`: the user info carries the end-of-booking key. */
  predicate IsEndOfBooking(n: Notification) {
    EndOfBookingKey in n.request.content.userInfo
  }

  /** The content of a booking's start alert. */
  function BookingContent(title: string, message: string): (c: Content)
    ensures c.title == title && c.subtitle == "" && c.body == message && c.categoryIdentifier == "alarm"
    ensures c.badge == Some(1) && c.sound == Some(DefaultSound) && c.userInfo == map[]
  {
    Content(title, "", message, "alarm", Some(1), Some(DefaultSound), map[])
  }

  /** `UNMutableNotificationContent(from:)`: the follow-up content. */
  function FollowUpContent(other: Content): (c: Content)
    ensures c.title == other.title && c.subtitle == other.subtitle
    ensures c.body == other.body && c.categoryIdentifier == other.categoryIdentifier
    ensures c.badge == None && c.sound == None
    ensures c.userInfo.Keys == {EndOfBookingKey} && c.userInfo[EndOfBookingKey]
  {
    Content(other.title, other.subtitle, other.body, other.categoryIdentifier, None, None, map[EndOfBookingKey := true])
  }

  /** The request `addNotification` submits: keyed by the span's
      identifier, firing at the start's whole second. */
  function BookingRequest(title: string, message: string, interval: Interval): (r: Request)
    ensures r.identifier == JsonString(FromInterval(title, message, interval))
    ensures FromJson(r.identifier) == Some(FromInterval(title, message, interval))
    ensures r.content == BookingContent(title, message)
    ensures r.fireAt == WholeSeconds(interval.start)
    ensures !IsEndOfBooking(Notification(r))
  {
    var span := FromInterval(title, message, interval);
    FromJsonRoundTrip(span);
    Request(JsonString(span), BookingContent(title, message), WholeSeconds(interval.start))
  }

  /** The request `addNotificationAtEndOf` submits for a presented
      notification, or none when its identifier does not decode. */
  function FollowUpRequest(n: Notification): (r: Option<Request>)
    ensures r.Some? <==> FromJson(n.request.identifier).Some?
    ensures r.Some? ==> r.value.identifier == n.request.identifier
    ensures r.Some? ==> r.value.content == FollowUpContent(n.request.content)
    ensures r.Some? ==> r.value.fireAt == WholeSeconds(FromJson(n.request.identifier).value.end)
    ensures r.Some? ==> IsEndOfBooking(Notification(r.value))
  {
    match FromJson(n.request.identifier)
    case None => None
    case Some(span) =>
      Some(Request(n.request.identifier, FollowUpContent(n.request.content), WholeSeconds(span.end)))
  }

  /** The start alert of a booking has a follow-up: same identifier, same
      title and body, firing at the end's whole second, and marked as the
      end of the booking. */
  lemma {:induction false} FollowUpOfBooking(title: string, message: string, interval: Interval)
    ensures var r := BookingRequest(title, message, interval);
      var f := FollowUpRequest(Notification(r));
      && f.Some? && f.value.identifier == r.identifier
      && f.value.content.title == title && f.value.content.body == message
      && f.value.fireAt == WholeSeconds(interval.end)
      && IsEndOfBooking(Notification(f.value))
  {
    var r := BookingRequest(title, message, interval);
    assert FromJson(r.identifier) == Some(FromInterval(title, message, interval));
  }

  /* ---------------------------------------------------------------------
     Refresh
     --------------------------------------------------------------------- */

  /** `getReceivedNotificationCounts`: only the current count is set. */
  function ReceivedCounts(received: seq<NotificationTimeSpan>, now: Time): (c: NotificationCounts)
    ensures c.pending == 0 && c.delivered == 0
    ensures 0 <= c.current <= |received|
    ensures c.current == 0 <==> forall s :: s in received ==> !IsCurrent(s, now)
    ensures c.current == CountCurrentSpans(received, now)
  {
    var r := CurrentSpans(received, now);
    assert r != [] ==> r[0] in r;
    CurrentSpansCount(received, now);
    NotificationCounts(0, 0, |r|)
  }

  /** How many delivered notifications have an identifier that decodes to
      a current span, counted one by one. */
  function CountCurrentDelivered(delivered: seq<Notification>, now: Time): nat {
    if delivered == [] then 0
    else (if DecodesCurrent(delivered[0].request.identifier, now) then 1 else 0)
         + CountCurrentDelivered(delivered[1..], now)
  }

  /** The current identifiers are as many as the current notifications:
      one identifier for each, repeats included. */
  lemma {:induction false} CurrentDeliveredCount(delivered: seq<Notification>, now: Time)
    ensures |CurrentIn(Ids(delivered), now)| == CountCurrentDelivered(delivered, now)
  {
    if delivered != [] {
      CurrentDeliveredCount(delivered[1..], now);
      assert Ids(delivered)[1..] == Ids(delivered[1..]);
    }
  }

  /** The counts a refresh computes from the received spans, the pending
      count and the delivered notifications it found. */
  function Snapshot(received: seq<NotificationTimeSpan>, pendingCount: int, delivered: seq<Notification>, now: Time): NotificationCounts {
    var c := ReceivedCounts(received, now);
    NotificationCounts(pendingCount, |delivered|, c.current + |CurrentIn(Ids(delivered), now)|)
  }

  /** The snapshot's fields: pending as found, delivered as found, and as
      current the current received spans plus the current delivered
      identifiers. The current count can exceed the delivered count. */
  lemma SnapshotFields(received: seq<NotificationTimeSpan>, pendingCount: int, delivered: seq<Notification>, now: Time)
    ensures var c := Snapshot(received, pendingCount, delivered, now);
      && c.pending == pendingCount && c.delivered == |delivered|
      && c.current == |CurrentSpans(received, now)| + |CurrentIn(Ids(delivered), now)|
      && c.current == CountCurrentSpans(received, now) + CountCurrentDelivered(delivered, now)
      && |CurrentIn(Ids(delivered), now)| <= c.delivered
  {
    CurrentDeliveredCount(delivered, now);
  }

  lemma CurrentMayExceedDelivered()
    ensures var s := NotificationTimeSpan("t", "m", 0, 10);
      var c := Snapshot([s], 0, [], 5);
      c.current == 1 && c.delivered == 0
  {
    var s := NotificationTimeSpan("t", "m", 0, 10);
    assert CurrentSpans([s], 5) == [s];
  }

  /** The delivered notifications kept by the purge: all but those whose
      identifier decodes to a span that is not current. */
  function Purge(delivered: seq<Notification>, now: Time): (r: seq<Notification>)
    ensures |r| <= |delivered|
    ensures forall n :: n in r <==> n in delivered && !DecodesObsolete(n.request.identifier, now)
  {
    var ids := Ids(delivered);
    assert forall n :: n in delivered ==> n.request.identifier in ids by {
      forall n | n in delivered ensures n.request.identifier in ids {
        var i :| 0 <= i < |delivered| && delivered[i] == n;
        assert ids[i] == n.request.identifier;
      }
    }
    WithoutIds(delivered, ObsoleteIn(ids, now))
  }

  /** The purge keeps every occurrence of a notification that is not
      obsolete, and none of the obsolete ones. */
  lemma PurgeMultiset(delivered: seq<Notification>, now: Time)
    ensures forall n :: multiset(Purge(delivered, now))[n]
                        == if DecodesObsolete(n.request.identifier, now) then 0 else multiset(delivered)[n]
  {
    var ids := Ids(delivered);
    WithoutIdsMultiset(delivered, ObsoleteIn(ids, now));
    forall n: Notification | DecodesObsolete(n.request.identifier, now) && n in delivered
      ensures n.request.identifier in ObsoleteIn(ids, now)
    {
      var i :| 0 <= i < |delivered| && delivered[i] == n;
      assert ids[i] == n.request.identifier;
    }
  }

  /** A second purge at the same instant removes nothing. */
  lemma PurgeIdempotent(delivered: seq<Notification>, now: Time)
    ensures Purge(Purge(delivered, now), now) == Purge(delivered, now)
  {
    var p := Purge(delivered, now);
    var ids := Ids(p);
    assert forall n :: n in p ==> n.request.identifier !in ObsoleteIn(ids, now);
  }

  lemma {:induction false} IdsCons(n: Notification, ds: seq<Notification>)
    ensures Ids([n] + ds) == [n.request.identifier] + Ids(ds)
  {
    assert ([n] + ds)[1..] == ds;
  }

  /** Removing only obsolete identifiers leaves the current ones, in
      order. */
  lemma {:induction false} WithoutObsoleteKeepsCurrent(ds: seq<Notification>, obsolete: seq<string>, now: Time)
    requires forall id :: id in obsolete ==> DecodesObsolete(id, now)
    ensures CurrentIn(Ids(WithoutIds(ds, obsolete)), now) == CurrentIn(Ids(ds), now)
  {
    if ds != [] {
      WithoutObsoleteKeepsCurrent(ds[1..], obsolete, now);
      var rest := WithoutIds(ds[1..], obsolete);
      assert Ids(ds)[1..] == Ids(ds[1..]);
      if ds[0].request.identifier !in obsolete {
        IdsCons(ds[0], rest);
        assert Ids([ds[0]] + rest)[1..] == Ids(rest);
      }
    }
  }

  /** The purge keeps every current delivered notification: the current
      identifiers before and after are the same list. */
  lemma PurgeKeepsCurrent(delivered: seq<Notification>, now: Time)
    ensures CurrentIn(Ids(Purge(delivered, now)), now) == CurrentIn(Ids(delivered), now)
  {
    WithoutObsoleteKeepsCurrent(delivered, ObsoleteIn(Ids(delivered), now), now);
  }

  /** A purge removes exactly the obsolete notifications; one whose
      identifier does not decode always stays. */
  lemma PurgeKeepsUndecodable(delivered: seq<Notification>, n: Notification, now: Time)
    requires n in delivered && FromJson(n.request.identifier).None?
    ensures n in Purge(delivered, now)
  {
  }

  /** What the observer has seen after one refresh. */
  function Published(log: seq<NotificationCounts>, hasObserver: bool, c: NotificationCounts): (r: seq<NotificationCounts>)
    ensures hasObserver ==> r == log + [c]
    ensures !hasObserver ==> r == log
  {
    if hasObserver then log + [c] else log
  }

  /* ---------------------------------------------------------------------
     The manager
     --------------------------------------------------------------------- */

  class NotificationManager {
    const center: NotificationCenter
    var authorized: bool
    /** `notificationTimeSpansReceived` */
    var received: seq<NotificationTimeSpan>
    /** Whether `updateClientDiagnosticCounts` is set. */
    var hasObserver: bool
    /** The counts handed to the observer, oldest first. */
    var published: seq<NotificationCounts>

    constructor()
      ensures fresh(center)
      ensures center.pending == map[] && center.delivered == [] && center.badge == 0
      ensures !authorized && received == [] && !hasObserver && published == []
    {
      center := new NotificationCenter();
      authorized := false;
      received := [];
      hasObserver := false;
      published := [];
    }

    /** `initializeAtAppStart`, with the user's answer to the authorization
        request passed in. */
    method InitializeAtAppStart(granted: bool)
      modifies this
      ensures authorized == (old(authorized) || granted)
      ensures received == old(received) && hasObserver == old(hasObserver) && published == old(published)
    {
      if granted {
        authorized := true;
      }
    }

    /** `updateBadgeAndCounts`: count, set the badge, purge, and publish. */
    method UpdateBadgeAndCounts(now: Time)
      modifies this, center
      ensures var c := Snapshot(received, |old(center.pending)|, old(center.delivered), now);
        && center.badge == c.current
        && center.delivered == Purge(old(center.delivered), now)
        && center.pending == old(center.pending)
        && published == Published(old(published), hasObserver, c)
      ensures authorized == old(authorized) && received == old(received) && hasObserver == old(hasObserver)
    {
      var counts := ReceivedCounts(received, now);
      var ids := Ids(center.delivered);
      var currentIds := CurrentIn(ids, now);
      var obsoleteIds := ObsoleteIn(ids, now);
      counts := counts.(delivered := |center.delivered|);
      counts := counts.(current := counts.current + |currentIds|);
      center.SetBadge(counts.current);
      center.RemoveDelivered(obsoleteIds);
      counts := counts.(pending := |center.pending|);
      if hasObserver {
        published := published + [counts];
      }
    }

    /** Setting the observer triggers a refresh. */
    method SetObserver(present: bool, now: Time)
      modifies this, center
      ensures hasObserver == present
      ensures var c := Snapshot(received, |old(center.pending)|, old(center.delivered), now);
        && center.badge == c.current
        && center.delivered == Purge(old(center.delivered), now)
        && center.pending == old(center.pending)
        && published == Published(old(published), present, c)
      ensures authorized == old(authorized) && received == old(received)
    {
      hasObserver := present;
      UpdateBadgeAndCounts(now);
    }

    /** `addNotificationRequest`: submit, and refresh on success. */
    method AddNotificationRequest(r: Request, now: Time)
      modifies this, center
      ensures center.pending == old(center.pending)[r.identifier := r]
      ensures var c := Snapshot(received, |center.pending|, old(center.delivered), now);
        && center.badge == c.current
        && center.delivered == Purge(old(center.delivered), now)
        && published == Published(old(published), hasObserver, c)
      ensures authorized == old(authorized) && received == old(received) && hasObserver == old(hasObserver)
    {
      center.Add(r);
      UpdateBadgeAndCounts(now);
    }

    /** `addNotification`: when authorized, schedule the booking's start
        alert; otherwise do nothing. */
    method AddNotification(title: string, message: string, interval: Interval, now: Time)
      modifies this, center
      ensures !old(authorized) ==>
        && center.pending == old(center.pending) && center.delivered == old(center.delivered)
        && center.badge == old(center.badge) && published == old(published)
      ensures old(authorized) ==>
        var r := BookingRequest(title, message, interval);
        var c := Snapshot(received, |center.pending|, old(center.delivered), now);
        && center.pending == old(center.pending)[r.identifier := r]
        && center.badge == c.current
        && center.delivered == Purge(old(center.delivered), now)
        && published == Published(old(published), hasObserver, c)
      ensures authorized == old(authorized) && received == old(received) && hasObserver == old(hasObserver)
    {
      if !authorized {
        return;
      }
      var r := BookingRequest(title, message, interval);
      AddNotificationRequest(r, now);
    }

    /** `addNotificationAtEndOf`: when authorized and the identifier
        decodes, schedule the follow-up under the same identifier. */
    method AddNotificationAtEndOf(n: Notification, now: Time)
      modifies this, center
      ensures !(old(authorized) && FollowUpRequest(n).Some?) ==>
        && center.pending == old(center.pending) && center.delivered == old(center.delivered)
        && center.badge == old(center.badge) && published == old(published)
      ensures old(authorized) && FollowUpRequest(n).Some? ==>
        var r := FollowUpRequest(n).value;
        var c := Snapshot(received, |center.pending|, old(center.delivered), now);
        && center.pending == old(center.pending)[n.request.identifier := r]
        && center.badge == c.current
        && center.delivered == Purge(old(center.delivered), now)
        && published == Published(old(published), hasObserver, c)
      ensures authorized == old(authorized) && received == old(received) && hasObserver == old(hasObserver)
    {
      if !authorized {
        return;
      }
      var follow := FollowUpRequest(n);
      if follow.None? {
        return;
      }
      AddNotificationRequest(follow.value, now);
    }

    /** `removePendingNotificationRequests(with:)`, then a refresh. */
    method RemovePendingNotificationRequests(id: string, now: Time)
      modifies this, center
      ensures center.pending == map k | k in old(center.pending) && k != id :: old(center.pending)[k]
      ensures var c := Snapshot(received, |center.pending|, old(center.delivered), now);
        && center.badge == c.current
        && center.delivered == Purge(old(center.delivered), now)
        && published == Published(old(published), hasObserver, c)
      ensures authorized == old(authorized) && received == old(received) && hasObserver == old(hasObserver)
    {
      center.RemovePending([id]);
      UpdateBadgeAndCounts(now);
    }

    /** `removeAllPendingNotificationRequests`: no refresh follows. */
    method RemoveAllPendingNotificationRequests()
      modifies center
      ensures center.pending == map[]
      ensures center.delivered == old(center.delivered) && center.badge == old(center.badge)
    {
      center.RemoveAllPending();
    }

    /** `removeAllDeliveredNotifications`, then a refresh, which can only
        count the current received spans. */
    method RemoveAllDeliveredNotifications(now: Time)
      modifies this, center
      ensures center.delivered == [] && center.pending == old(center.pending)
      ensures center.badge == |CurrentSpans(received, now)|
      ensures published == Published(old(published), hasObserver,
        NotificationCounts(|center.pending|, 0, |CurrentSpans(received, now)|))
      ensures authorized == old(authorized) && received == old(received) && hasObserver == old(hasObserver)
    {
      center.RemoveAllDelivered();
      UpdateBadgeAndCounts(now);
    }

    /** `clearBadge` */
    method ClearBadge()
      modifies center
      ensures center.badge == 0
      ensures center.pending == old(center.pending) && center.delivered == old(center.delivered)
    {
      center.SetBadge(0);
    }

    /** `userNotificationCenter(_:willPresent:)`: a start alert is shown
        and chains its follow-up; an end-of-booking alert is shown without
        options, removed, and chains nothing. A refresh follows either
        way. */
    method WillPresent(n: Notification, now: Time) returns (options: set<PresentationOption>)
      modifies this, center
      ensures options == if IsEndOfBooking(n) then {} else {Alert, Badge, Sound}
      ensures IsEndOfBooking(n) ==>
        && center.pending == old(center.pending)
        && center.delivered == Purge(WithoutIds(old(center.delivered), [n.request.identifier]), now)
      ensures !IsEndOfBooking(n) ==>
        && center.pending == (if old(authorized) && FollowUpRequest(n).Some?
                              then old(center.pending)[n.request.identifier := FollowUpRequest(n).value]
                              else old(center.pending))
        && center.delivered == Purge(old(center.delivered), now)
      ensures var before := if IsEndOfBooking(n) then WithoutIds(old(center.delivered), [n.request.identifier])
                            else old(center.delivered);
        center.badge == Snapshot(received, |center.pending|, before, now).current
      ensures var chained := !IsEndOfBooking(n) && old(authorized) && FollowUpRequest(n).Some?;
        var last := if IsEndOfBooking(n) then WithoutIds(old(center.delivered), [n.request.identifier])
                    else if chained then Purge(old(center.delivered), now)
                    else old(center.delivered);
        var final := Snapshot(received, |center.pending|, last, now);
        published == old(published) + (if !hasObserver then []
                                         else if chained then [Snapshot(received, |center.pending|, old(center.delivered), now), final]
                                         else [final])
      ensures authorized == old(authorized) && received == old(received) && hasObserver == old(hasObserver)
    {
      if IsEndOfBooking(n) {
        options := {};
        DismissEndOfBooking(n, now);
      } else {
        options := {Alert, Badge, Sound};
        ChainFollowUp(n, now);
      }
    }

    /** The end-of-booking branch of `willPresent`: the alert is removed
        from the delivered list, then a refresh runs. */
    method DismissEndOfBooking(n: Notification, now: Time)
      modifies this, center
      ensures var before := WithoutIds(old(center.delivered), [n.request.identifier]);
        var c := Snapshot(received, |old(center.pending)|, before, now);
        && center.pending == old(center.pending)
        && center.delivered == Purge(before, now)
        && center.badge == c.current
        && published == Published(old(published), hasObserver, c)
      ensures authorized == old(authorized) && received == old(received) && hasObserver == old(hasObserver)
    {
      center.RemoveDelivered([n.request.identifier]);
      UpdateBadgeAndCounts(now);
    }

    /** The start-alert branch of `willPresent`: the follow-up is chained
        (with its own refresh when it is scheduled), then a refresh runs.
        The second refresh finds the purged list, which has the same
        current notifications, so the badge is as the first set it. */
    method ChainFollowUp(n: Notification, now: Time)
      modifies this, center
      ensures var chained := old(authorized) && FollowUpRequest(n).Some?;
        && center.pending == (if chained
                              then old(center.pending)[n.request.identifier := FollowUpRequest(n).value]
                              else old(center.pending))
        && center.delivered == Purge(old(center.delivered), now)
        && center.badge == Snapshot(received, |center.pending|, old(center.delivered), now).current
        && published == old(published) + (if !hasObserver then []
                                           else if chained then [Snapshot(received, |center.pending|, old(center.delivered), now),
                                                                 Snapshot(received, |center.pending|, Purge(old(center.delivered), now), now)]
                                           else [Snapshot(received, |center.pending|, old(center.delivered), now)])
      ensures authorized == old(authorized) && received == old(received) && hasObserver == old(hasObserver)
    {
      ghost var before := center.delivered;
      AddNotificationAtEndOf(n, now);
      PurgeIdempotent(before, now);
      PurgeKeepsCurrent(before, now);
      UpdateBadgeAndCounts(now);
    }

    /** `userNotificationCenter(_:didReceive:)`: keep the span the user
        opened, when its identifier decodes. */
    method DidReceive(id: string)
      modifies this
      ensures received == old(received) + (if FromJson(id).Some? then [FromJson(id).value] else [])
      ensures authorized == old(authorized) && hasObserver == old(hasObserver) && published == old(published)
    {
      var span := FromJson(id);
      if span.Some? {
        received := received + [span.value];
      }
    }
  }
}
