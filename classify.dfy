/** The pure part of the badge-and-count refresh: sorting delivered
    identifiers into current, obsolete and undecodable, and picking the
    received spans that are still current. */
module Classify {
  import opened Wrappers
  import opened DateUtil
  import opened TimeSpan

  /** `NotificationTimeSpan(from: id)?.isCurrent ?? false`: the identifier
      decodes and its span is current. */
  predicate DecodesCurrent(id: string, now: Time) {
    FromJson(id).Some? && IsCurrent(FromJson(id).value, now)
  }

  /** `!(NotificationTimeSpan(from: id)?.isCurrent ?? true)`: the
      identifier decodes and its span is not current. */
  predicate DecodesObsolete(id: string, now: Time) {
    FromJson(id).Some? && !IsCurrent(FromJson(id).value, now)
  }

  /** `current(in:)`: the current identifiers, in their order. */
  function CurrentIn(ids: seq<string>, now: Time): (r: seq<string>)
    ensures |r| <= |ids|
    ensures forall id :: id in r <==> id in ids && DecodesCurrent(id, now)
  {
    if ids == [] then []
    else
      var rest := CurrentIn(ids[1..], now);
      assert forall id :: id in ids <==> id == ids[0] || id in ids[1..];
      if DecodesCurrent(ids[0], now) then [ids[0]] + rest else rest
  }

  /** `obsolete(in:)`: the obsolete identifiers, in their order. */
  function ObsoleteIn(ids: seq<string>, now: Time): (r: seq<string>)
    ensures |r| <= |ids|
    ensures forall id :: id in r <==> id in ids && DecodesObsolete(id, now)
  {
    if ids == [] then []
    else
      var rest := ObsoleteIn(ids[1..], now);
      assert forall id :: id in ids <==> id == ids[0] || id in ids[1..];
      if DecodesObsolete(ids[0], now) then [ids[0]] + rest else rest
  }

  /** The identifiers that do not decode to a span. */
  function UndecodableIn(ids: seq<string>): (r: seq<string>)
    ensures |r| <= |ids|
    ensures forall id :: id in r <==> id in ids && FromJson(id).None?
  {
    if ids == [] then []
    else
      var rest := UndecodableIn(ids[1..]);
      assert forall id :: id in ids <==> id == ids[0] || id in ids[1..];
      if FromJson(ids[0]).None? then [ids[0]] + rest else rest
  }

  /** The `isCurrent` filter over the received spans. */
  function CurrentSpans(spans: seq<NotificationTimeSpan>, now: Time): (r: seq<NotificationTimeSpan>)
    ensures |r| <= |spans|
    ensures forall s :: s in r <==> s in spans && IsCurrent(s, now)
  {
    if spans == [] then []
    else
      var rest := CurrentSpans(spans[1..], now);
      assert forall s :: s in spans <==> s == spans[0] || s in spans[1..];
      if IsCurrent(spans[0], now) then [spans[0]] + rest else rest
  }

  /** Each filter keeps every occurrence of what it selects and nothing
      else: an identifier or span repeated in the input is repeated as
      often in the result. */
  lemma {:induction false} CurrentInMultiset(ids: seq<string>, now: Time)
    ensures forall id :: multiset(CurrentIn(ids, now))[id] == if DecodesCurrent(id, now) then multiset(ids)[id] else 0
  {
    if ids != [] {
      CurrentInMultiset(ids[1..], now);
      assert ids == [ids[0]] + ids[1..];
    }
  }

  lemma {:induction false} ObsoleteInMultiset(ids: seq<string>, now: Time)
    ensures forall id :: multiset(ObsoleteIn(ids, now))[id] == if DecodesObsolete(id, now) then multiset(ids)[id] else 0
  {
    if ids != [] {
      ObsoleteInMultiset(ids[1..], now);
      assert ids == [ids[0]] + ids[1..];
    }
  }

  lemma {:induction false} UndecodableInMultiset(ids: seq<string>)
    ensures forall id :: multiset(UndecodableIn(ids))[id] == if FromJson(id).None? then multiset(ids)[id] else 0
  {
    if ids != [] {
      UndecodableInMultiset(ids[1..]);
      assert ids == [ids[0]] + ids[1..];
    }
  }

  lemma {:induction false} CurrentSpansMultiset(spans: seq<NotificationTimeSpan>, now: Time)
    ensures forall s :: multiset(CurrentSpans(spans, now))[s] == if IsCurrent(s, now) then multiset(spans)[s] else 0
  {
    if spans != [] {
      CurrentSpansMultiset(spans[1..], now);
      assert spans == [spans[0]] + spans[1..];
    }
  }

  /** How many of the spans are current, counted position by position; a
      span received twice counts twice. */
  function CountCurrentSpans(spans: seq<NotificationTimeSpan>, now: Time): nat {
    if spans == [] then 0
    else (if IsCurrent(spans[0], now) then 1 else 0) + CountCurrentSpans(spans[1..], now)
  }

  /** The filter keeps exactly as many spans as are current. */
  lemma {:induction false} CurrentSpansCount(spans: seq<NotificationTimeSpan>, now: Time)
    ensures |CurrentSpans(spans, now)| == CountCurrentSpans(spans, now)
  {
    if spans != [] {
      CurrentSpansCount(spans[1..], now);
    }
  }

  /** Every identifier falls in exactly one of the three classes, so the
      three lists together are as long as the input, and no identifier is
      both current and obsolete. */
  lemma {:induction false} Partition(ids: seq<string>, now: Time)
    ensures |CurrentIn(ids, now)| + |ObsoleteIn(ids, now)| + |UndecodableIn(ids)| == |ids|
    ensures forall id :: !(id in CurrentIn(ids, now) && id in ObsoleteIn(ids, now))
  {
    if ids != [] {
      Partition(ids[1..], now);
    }
  }

  /** An identifier that does not decode is never obsolete, so the purge
      never removes it; nor is it counted as current. */
  lemma UndecodableNeverPurged(ids: seq<string>, id: string, now: Time)
    requires id in ids && FromJson(id).None?
    ensures id !in ObsoleteIn(ids, now) && id !in CurrentIn(ids, now)
    ensures id in UndecodableIn(ids)
  {
  }

  /** The identifier of a span current at `now` is listed as current; one
      that has ended is listed as obsolete. */
  lemma ClassOfIdentifier(s: NotificationTimeSpan, ids: seq<string>, now: Time)
    requires JsonString(s) in ids
    ensures IsCurrent(s, now) ==> JsonString(s) in CurrentIn(ids, now)
    ensures !IsCurrent(s, now) ==> JsonString(s) in ObsoleteIn(ids, now)
  {
    FromJsonRoundTrip(s);
  }

  /** Each class keeps the order of the input: it is a subsequence. */
  predicate IsSubsequence<T(==)>(sub: seq<T>, s: seq<T>)
  {
    if sub == [] then true
    else if s == [] then false
    else if sub[0] == s[0] then IsSubsequence(sub[1..], s[1..])
    else IsSubsequence(sub, s[1..])
  }

  lemma {:induction false} ClassesAreSubsequences(ids: seq<string>, now: Time)
    ensures IsSubsequence(CurrentIn(ids, now), ids)
    ensures IsSubsequence(ObsoleteIn(ids, now), ids)
  {
    if ids != [] {
      ClassesAreSubsequences(ids[1..], now);
    }
  }
}
