/** The notification backend as in-memory state: the pending requests by
    identifier, the delivered notifications in order, and the application
    badge number. Completion handlers run at once, so every call is one
    synchronous step. */
module Backend {
  import opened Wrappers

  datatype NotificationSound = DefaultSound

  /** Notification content: the fields the manager sets or copies. */
  datatype Content = Content(
    title: string,
    subtitle: string,
    body: string,
    categoryIdentifier: string,
    badge: Option<int>,
    sound: Option<NotificationSound>,
    userInfo: map<string, bool>)

  /** A request: identifier, content, and the trigger's date with seconds
      resolution, as whole seconds since the reference date. */
  datatype Request = Request(identifier: string, content: Content, fireAt: int)

  /** A delivered notification carries the request it came from. */
  datatype Notification = Notification(request: Request)

  datatype PresentationOption = Alert | Badge | Sound

  /** The identifiers of a list of notifications, in order. */
  function Ids(ds: seq<Notification>): (r: seq<string>)
    ensures |r| == |ds|
    ensures forall i :: 0 <= i < |ds| ==> r[i] == ds[i].request.identifier
  {
    if ds == [] then [] else [ds[0].request.identifier] + Ids(ds[1..])
  }

  /** The notifications whose identifier is not among `ids`, in order. */
  function WithoutIds(ds: seq<Notification>, ids: seq<string>): (r: seq<Notification>)
    ensures |r| <= |ds|
    ensures forall n :: n in r <==> n in ds && n.request.identifier !in ids
    ensures (forall n :: n in ds ==> n.request.identifier !in ids) ==> r == ds
  {
    if ds == [] then []
    else
      var rest := WithoutIds(ds[1..], ids);
      assert forall n :: n in ds <==> n == ds[0] || n in ds[1..];
      if ds[0].request.identifier in ids then rest
      else
        assert ds == [ds[0]] + ds[1..];
        [ds[0]] + rest
  }

  /** Removal keeps every occurrence of a notification whose identifier
      is not listed, and none of the others. */
  lemma {:induction false} WithoutIdsMultiset(ds: seq<Notification>, ids: seq<string>)
    ensures forall n :: multiset(WithoutIds(ds, ids))[n] == if n.request.identifier in ids then 0 else multiset(ds)[n]
  {
    if ds != [] {
      WithoutIdsMultiset(ds[1..], ids);
      assert ds == [ds[0]] + ds[1..];
    }
  }

  /** `UNUserNotificationCenter`, reduced to its state. */
  class NotificationCenter {
    var pending: map<string, Request>
    var delivered: seq<Notification>
    var badge: int

    constructor()
      ensures pending == map[] && delivered == [] && badge == 0
    {
      pending := map[];
      delivered := [];
      badge := 0;
    }

    /** `add(_:)`: a request with an identifier already pending replaces
        that request. */
    method Add(r: Request)
      modifies this
      ensures pending == old(pending)[r.identifier := r]
      ensures r.identifier in pending && pending[r.identifier] == r
      ensures delivered == old(delivered) && badge == old(badge)
    {
      pending := pending[r.identifier := r];
    }

    /** The request under `id` fires: it leaves the pending requests, its
        notification replaces any delivered one with the same identifier
        and goes to the end of the delivered list, and a badge number in
        its content becomes the application badge. The presentation
        callback runs after this step. */
    method Deliver(id: string)
      requires id in pending
      modifies this
      ensures pending == map k | k in old(pending) && k != id :: old(pending)[k]
      ensures id !in pending
      ensures delivered == WithoutIds(old(delivered), [id]) + [Notification(old(pending)[id])]
      ensures forall i, j :: 0 <= i < j < |delivered| && delivered[j].request.identifier == id ==> delivered[i].request.identifier != id
      ensures badge == (if old(pending)[id].content.badge.Some? then old(pending)[id].content.badge.value else old(badge))
    {
      var r := pending[id];
      pending := map k | k in pending && k != id :: pending[k];
      delivered := WithoutIds(delivered, [id]) + [Notification(r)];
      if r.content.badge.Some? {
        badge := r.content.badge.value;
      }
    }

    /** `removePendingNotificationRequests(withIdentifiers:)` */
    method RemovePending(ids: seq<string>)
      modifies this
      ensures pending == map id | id in old(pending) && id !in ids :: old(pending)[id]
      ensures forall id :: id in ids ==> id !in pending
      ensures forall id :: id in old(pending) && id !in ids ==> id in pending && pending[id] == old(pending)[id]
      ensures delivered == old(delivered) && badge == old(badge)
    {
      pending := map id | id in pending && id !in ids :: pending[id];
    }

    /** `removeAllPendingNotificationRequests()` */
    method RemoveAllPending()
      modifies this
      ensures pending == map[]
      ensures delivered == old(delivered) && badge == old(badge)
    {
      pending := map[];
    }

    /** `removeDeliveredNotifications(withIdentifiers:)` */
    method RemoveDelivered(ids: seq<string>)
      modifies this
      ensures delivered == WithoutIds(old(delivered), ids)
      ensures pending == old(pending) && badge == old(badge)
    {
      delivered := WithoutIds(delivered, ids);
    }

    /** `removeAllDeliveredNotifications()` */
    method RemoveAllDelivered()
      modifies this
      ensures delivered == []
      ensures pending == old(pending) && badge == old(badge)
    {
      delivered := [];
    }

    /** `applicationIconBadgeNumber = n` */
    method SetBadge(n: int)
      modifies this
      ensures badge == n
      ensures pending == old(pending) && delivered == old(delivered)
    {
      badge := n;
    }
  }
}
