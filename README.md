# Booking notifications, modelled in Dafny

This project models the booking-notification logic of NotificationManagementDemo,
an iOS demo app. A booking is a time span with a title and a message. The app
schedules a local notification for the start of each booking. When the start
alert is presented, the app schedules one end-of-booking alert under the same
identifier. It keeps a badge number and diagnostic counts up to date, and it
purges delivered notifications whose booking is over.

The modules follow the repository's files:

- `TimeSpan` (`timespan.dfy`) is `NotificationTimeSpan`: the immutable record
  (title, message, start, end). Its JSON text is the notification identifier,
  and it decodes back from that text. It also holds the `isCurrent` rule
  ("now" lies in `[start − 2 s, end]`), the fixed-width timestamp formatter and
  `description`.
- `Json` (`json.dfy`) and `Decimal` (`decimal.dfy`) are a small JSON codec for
  objects whose members are strings and numbers. It follows RFC 8259:
  section 4 for objects, section 6 for numbers, section 7 for strings. Its
  member order is `message`, `title`, `end`, `start`, as in the unit test.
  The repository's encoder comes from a package outside the model; this
  codec stands in for it.
- `DateUtil` (`dateutil.dfy`) holds the calendar-free date helpers. These are
  the zero-based month, day and weekday indices, the Monday-first weekday
  names, and the `DateInterval` overlap predicates, `durationHours` and
  `isInTheFuture`.
- `Classify` (`classify.dfy`) is the pure part of the refresh. It sorts
  delivered identifiers into current, obsolete and undecodable ones.
- `Backend` (`backend.dfy`) is the notification center as in-memory state.
  It holds the pending requests by identifier, the delivered notifications
  in order, and the badge number.
- `Manager` (`manager.dfy`) is the current `NotificationManager` class in
  `Model/`, with its `NotificationCounts`, follow-up content, the
  `isEndOfBooking` marker, scheduling, removal, the refresh in
  `updateBadgeAndCounts` and the two delegate callbacks.
- `LegacyManager` (`legacy_manager.dfy`) is the earlier manager. It keeps a
  two-field count record that two queries update separately. It uses the
  same purge rule and presents every notification the same way.

Time is an integer count of microseconds since the reference date
(2001-01-01 00:00:00 UTC). Every operation that reads the clock takes `now`
as a parameter. Every completion handler of the notification center runs at
once, so each asynchronous exchange is one synchronous step. The observer
callback is modelled by a flag saying whether it is set, plus the list of
count records it has been handed.

The refresh's `current` count adds the received spans that are current
(NotificationManagementDemo/Model/NotificationManager.swift:186-188) to the
current delivered identifiers (line 208). So `current <= delivered` does not
hold in general. `Manager.CurrentMayExceedDelivered` gives an
instance. Also, a decoded identifier can carry an end before its start: the
decoder does not check `start <= end`. Only `interval` needs that order.

## Model

| member | source | states |
|---|---|---|
| TimeSpan.FromInterval | NotificationManagementDemo/Util/NotificationTimeSpan.swift:52-57 | title and message are copied, start and end are taken from the interval unchanged |
| TimeSpan.IntervalOfFromInterval | NotificationManagementDemo/Util/NotificationTimeSpan.swift:34-36 | `interval` of a span made from an interval is that interval |
| TimeSpan.IsCurrent | NotificationManagementDemo/Util/NotificationTimeSpan.swift:44-48 | a span is current from two seconds before its start up to and including its end; the exact bounds are stated by TimeSpan.IsCurrentBounds |
| TimeSpan.SpanInterval | NotificationManagementDemo/Util/NotificationTimeSpan.swift:34-36 | `interval` has the span's start and end; it needs start <= end, since `DateInterval` traps otherwise |
| TimeSpan.FromJsonRoundTrip | NotificationManagementDemo/Util/NotificationTimeSpan.swift:59-71 | decoding the identifier from `jsonString` gives back the span, field by field |
| TimeSpan.FromMembersOfMembers | NotificationManagementDemo/Util/NotificationTimeSpan.swift:59-62 | the four encoded members decode to the span they came from |
| TimeSpan.JsonStringInjective | NotificationManagementDemo/Util/NotificationTimeSpan.swift:69-71 | two spans share an identifier exactly when they are equal |
| TimeSpan.JsonString | NotificationManagementDemo/Util/NotificationTimeSpan.swift:69-71 | the identifier is the JSON object of the span's four members; it decodes back to the span (TimeSpan.FromJsonRoundTrip) |
| TimeSpan.JsonStringKeyShape | NotificationManagementDemoTests/NotificationTimeSpanTests.swift:28-29 | the identifier is a JSON object with exactly the members `message`, `title`, `end`, `start`, in that order |
| TimeSpan.FromJson | NotificationManagementDemo/Util/NotificationTimeSpan.swift:59-62 | `init?(from:)` is total: a span comes only from text that decodes as a JSON object |
| TimeSpan.FromMembers | NotificationManagementDemo/Util/NotificationTimeSpan.swift:59-62 | a decoded span's fields are the values of the members `title`, `message`, `start`, `end` |
| TimeSpan.FromJsonRejects | NotificationManagementDemo/Util/NotificationTimeSpan.swift:59-62 | empty text, an empty object and plain text give no span |
| TimeSpan.IsCurrentBounds | NotificationManagementDemo/Util/NotificationTimeSpan.swift:44-48 | current at the end and two seconds before the start; not current one instant past either bound |
| TimeSpan.IsCurrentConvex | NotificationManagementDemo/Util/NotificationTimeSpan.swift:44-48 | the instants at which a span is current form one unbroken stretch |
| TimeSpan.EndedIsNotCurrent | NotificationManagementDemoTests/NotificationTimeSpanTests.swift:34 | a span whose end is before now is not current |
| TimeSpan.FutureBookingCurrency | NotificationManagementDemo/Util/NotificationTimeSpan.swift:44-48 | a booking more than two seconds in the future is not current; one starting within the next two seconds already is |
| TimeSpan.ToleranceScenario | NotificationManagementDemo/Util/NotificationTimeSpan.swift:46 | a two-hour booking is not current 2001 ms before its start, is current 1999 ms before it, and its identifier decodes back to it |
| TimeSpan.RoundedMicros | NotificationManagementDemo/Util/NotificationTimeSpan.swift:18 | `lrint` of the nanoseconds over 1000: nearest microsecond, a tie going to the even one |
| TimeSpan.RolloverWindow | NotificationManagementDemo/Util/NotificationTimeSpan.swift:18-23 | below one second the rounding is at most 1000000, reaches it exactly from 999 999 500 ns on, and below that the as-written and the corrected text are equal |
| TimeSpan.FormatAsWritten | NotificationManagementDemo/Util/NotificationTimeSpan.swift:14-25 | the formatter as written, over the rounded microseconds; it overflows the layout in the rollover window (TimeSpan.FormatAsWrittenOverflows) |
| TimeSpan.Format | NotificationManagementDemo/Util/NotificationTimeSpan.swift:14-25 | the formatter with the microsecond field held at 999999; its layout is stated by TimeSpan.FormatLayout |
| TimeSpan.FormatLayout | NotificationManagementDemo/Util/NotificationTimeSpan.swift:14-25 | the timestamp text is 26 characters, `yyyy-MM-dd HH:mm:ss.ffffff`, with separators in place and each zero-padded field reading back as its component |
| TimeSpan.FormatAsWrittenOverflows | NotificationManagementDemo/Util/NotificationTimeSpan.swift:18-23 | as written, 999 999 600 ns rounds to 1 000 000 µs and the text grows to 27 characters |
| TimeSpan.FormatExample | NotificationManagementDemoTests/NotificationTimeSpanTests.swift:20 | the test's start instant formats as `2020-10-25 15:42:05.286747` |
| TimeSpan.Description | NotificationManagementDemo/Util/NotificationTimeSpan.swift:74-77 | `title= `, title, message, start and end text in the source's order; its layout is stated by TimeSpan.DescriptionLayout |
| TimeSpan.DescriptionLayout | NotificationManagementDemo/Util/NotificationTimeSpan.swift:74-77 | `description` begins with `title= ` and the title, ends with the end time, embeds the start time, and is 86 characters plus title and message |
| Json.DecodeEncodeObject | NotificationManagementDemo/Util/NotificationTimeSpan.swift:59-71 | decoding the encoded object gives back the same members in the same order |
| Json.ParseStringRoundTrip | NotificationManagementDemo/Util/NotificationTimeSpan.swift:69-71 | an escaped string reads back as itself, whatever follows |
| Json.ParseNumberRoundTrip | NotificationManagementDemo/Util/NotificationTimeSpan.swift:69-71 | a timestamp written with six fraction digits reads back as the same microsecond count |
| Json.Lookup | NotificationManagementDemo/Util/NotificationTimeSpan.swift:59-62 | a member is found exactly when some member has that name |
| Decimal.ZeroPadRoundTrip | NotificationManagementDemo/Util/NotificationTimeSpan.swift:20-23 | a value below 10^width zero-pads to exactly `width` digits that read back as the value |
| DateUtil.Month0 | NotificationManagementDemo/Util/DateUtil.swift:193-195 | `month_0` is `month − 1`; DateUtil.Month0Range states its range |
| DateUtil.Day0 | NotificationManagementDemo/Util/DateUtil.swift:224-226 | `day_0` is `day − 1`; DateUtil.Day0Range states its range |
| DateUtil.Weekday0M | NotificationManagementDemo/Util/DateUtil.swift:239-241 | `(weekday − 2 + 7) % 7` with Swift's remainder; DateUtil.Weekday0MBijection states its values |
| DateUtil.Month0Range | NotificationManagementDemo/Util/DateUtil.swift:193-195 | `month_0` maps 1..12 one-to-one onto 0..11 |
| DateUtil.Day0Range | NotificationManagementDemo/Util/DateUtil.swift:224-226 | `day_0` maps 1..31 one-to-one onto 0..30 |
| DateUtil.Weekday0MBijection | NotificationManagementDemo/Util/DateUtil.swift:239-241 | `weekday_0M` maps 1..7 one-to-one onto 0..6, Monday to 0 and Sunday to 6, each next weekday to the next index |
| DateUtil.Weekday0MBelowRange | NotificationManagementDemo/Util/DateUtil.swift:239-241 | with Swift's truncating `%`, an input far below 1 gives a negative index |
| DateUtil.SwiftRem | NotificationManagementDemo/Util/DateUtil.swift:240 | Swift's `%` agrees with the mathematical remainder on non-negative dividends; for a negative dividend it lies in (−b, 0] and differs from the dividend by a multiple of b, which is truncating division |
| DateUtil.WeekdaySymbolsM0 | NotificationManagementDemo/Util/DateUtil.swift:275-279 | the names are the input without its first element, followed by that element |
| DateUtil.WeekdaySymbolsRotation | NotificationManagementDemo/Util/DateUtil.swift:275-279 | the Monday-first list has the input's length and names, element i coming from position i + 1, wrapping around |
| DateUtil.WeekdaySymbolsMondayFirst | NotificationManagementDemo/Util/DateUtil.swift:273-279 | with seven Sunday-first names, Monday comes first and Sunday last |
| DateUtil.WeekdaySymbolsIndexedByWeekday0M | NotificationManagementDemo/Util/DateUtil.swift:239-241 | the name of calendar weekday w sits at index `weekday_0M(w)` of the Monday-first list |
| DateUtil.Intersection | NotificationManagementDemo/Util/DateUtil.swift:357 | the intersection exists exactly when the intervals meet, and holds exactly the instants in both |
| DateUtil.FullyOverlaps | NotificationManagementDemo/Util/DateUtil.swift:356-363 | `fullyOverlaps`: the intersection equals one of the two intervals; DateUtil.FullyOverlapsIsContainment states what that means |
| DateUtil.PartiallyOverlaps | NotificationManagementDemo/Util/DateUtil.swift:367-374 | `partiallyOverlaps`: the intersection has positive duration; DateUtil.PartiallyOverlapsIsProperIntersection states what that means |
| DateUtil.FullyOverlapsIsContainment | NotificationManagementDemo/Util/DateUtil.swift:356-363 | `fullyOverlaps` holds exactly when one interval contains the other, in either order |
| DateUtil.PartiallyOverlapsIsProperIntersection | NotificationManagementDemo/Util/DateUtil.swift:367-374 | `partiallyOverlaps` holds exactly when the intersection has positive length; it is symmetric and false for touching intervals |
| DateUtil.FullyImpliesPartially | NotificationManagementDemo/Util/DateUtil.swift:356-374 | for intervals of positive length, full overlap implies partial overlap |
| DateUtil.FullyWithoutPartiallyForEmpty | NotificationManagementDemo/Util/DateUtil.swift:356-374 | an empty interval inside another overlaps it fully but not partially |
| DateUtil.DurationHours | NotificationManagementDemo/Util/DateUtil.swift:377-379 | the whole hours h satisfy h ≥ 0 and h hours ≤ duration < h + 1 hours |
| DateUtil.IsInTheFuture | NotificationManagementDemo/Util/DateUtil.swift:382-384 | `isInTheFuture`: the start is after now; DateUtil.InTheFutureHasNotStarted states what that means |
| DateUtil.InTheFutureHasNotStarted | NotificationManagementDemo/Util/DateUtil.swift:382-384 | `isInTheFuture` holds exactly when no instant of the interval is at or before now |
| DateUtil.WholeSeconds | NotificationManagementDemo/Model/NotificationManager.swift:51-54 | the trigger's whole second is the one the instant falls in |
| Classify.CurrentIn | NotificationManagementDemo/Model/NotificationManager.swift:194-196 | the current list holds exactly the identifiers that decode to a current span |
| Classify.CurrentInMultiset | NotificationManagementDemo/Model/NotificationManager.swift:194-196 | each identifier that decodes to a current span occurs in the current list as often as in the input, and no other occurs |
| Classify.ObsoleteIn | NotificationManagementDemo/Model/NotificationManager.swift:198-200 | the obsolete list holds exactly the identifiers that decode to a span that is not current |
| Classify.ObsoleteInMultiset | NotificationManagementDemo/Model/NotificationManager.swift:198-200 | each obsolete identifier occurs in the obsolete list as often as in the input, and no other occurs |
| Classify.UndecodableIn | NotificationManagementDemo/Model/NotificationManager.swift:194-200 | the identifiers left out of both lists are exactly those that do not decode |
| Classify.UndecodableInMultiset | NotificationManagementDemo/Model/NotificationManager.swift:194-200 | each undecodable identifier occurs as often as in the input, and no other occurs |
| Classify.CurrentSpans | NotificationManagementDemo/Model/NotificationManager.swift:186-188 | the current received spans are exactly the received spans that are current |
| Classify.CurrentSpansMultiset | NotificationManagementDemo/Model/NotificationManager.swift:186-188 | a current span received several times is kept as many times; no other span is kept |
| Classify.CurrentSpansCount | NotificationManagementDemo/Model/NotificationManager.swift:186-188 | the filter's length is the number of positions holding a current span, repeats counted |
| Classify.Partition | NotificationManagementDemo/Model/NotificationManager.swift:194-205 | current, obsolete and undecodable lists together are as long as the input, and no identifier is both current and obsolete |
| Classify.UndecodableNeverPurged | NotificationManagementDemo/Model/NotificationManager.swift:198-200 | an identifier that does not decode is neither obsolete nor current |
| Classify.ClassOfIdentifier | NotificationManagementDemo/Model/NotificationManager.swift:194-200 | a span's identifier is classed as current or obsolete according to the span |
| Classify.ClassesAreSubsequences | NotificationManagementDemo/Model/NotificationManager.swift:194-200 | both lists keep the order of the delivered identifiers |
| Backend.Ids | NotificationManagementDemo/Model/NotificationManager.swift:203 | the identifiers of the delivered notifications, position by position |
| Backend.WithoutIds | NotificationManagementDemo/Model/NotificationManager.swift:216 | removal keeps exactly the notifications whose identifier is not listed, and removes nothing when none is listed |
| Backend.WithoutIdsMultiset | NotificationManagementDemo/Model/NotificationManager.swift:216 | every occurrence of a notification whose identifier is not listed is kept, and none of the others |
| Backend.NotificationCenter.Add | NotificationManagementDemo/Model/NotificationManager.swift:90-93 | the request is pending under its identifier, replacing any earlier one; nothing else changes |
| Backend.NotificationCenter.Deliver | NotificationManagementDemo/Model/NotificationManager.swift:237-249 | a pending request fires: it leaves the pending requests, its notification replaces any delivered one with the same identifier and goes last, so at most one delivered notification carries that identifier, and a badge in its content becomes the app badge; `willPresent` runs after this step |
| Backend.NotificationCenter.RemovePending | NotificationManagementDemo/Model/NotificationManager.swift:158-161 | exactly the listed identifiers leave the pending requests; the others keep their requests |
| Backend.NotificationCenter.RemoveAllPending | NotificationManagementDemo/Model/NotificationManager.swift:167-169 | no request stays pending; delivered and badge unchanged |
| Backend.NotificationCenter.RemoveDelivered | NotificationManagementDemo/Model/NotificationManager.swift:216 | the delivered list loses exactly the listed identifiers |
| Backend.NotificationCenter.RemoveAllDelivered | NotificationManagementDemo/Model/NotificationManager.swift:172-173 | no notification stays delivered; pending and badge unchanged |
| Backend.NotificationCenter.SetBadge | NotificationManagementDemo/Model/NotificationManager.swift:179-184 | the badge takes the number; pending and delivered unchanged |
| Manager.IntText | NotificationManagementDemo/Model/NotificationManager.swift:41-43 | an integer's text reads back as the integer, after a minus sign when negative |
| Manager.CountsDescriptionExample | NotificationManagementDemoTests/NotificationTimeSpanTests.swift:37-40 | counts (1, 7, 2) describe as `pending: 1, delivered: 7, current: 2` |
| Manager.CountsDescriptionFields | NotificationManagementDemo/Model/NotificationManager.swift:41-43 | the description is `pending: `, the pending count, `, delivered: `, the delivered count, `, current: ` and the current count, with its length, each label at its offset and each count reading back from its place |
| Manager.NotificationCounts.Description | NotificationManagementDemo/Model/NotificationManager.swift:41-43 | `pending: p, delivered: d, current: c`; Manager.CountsDescriptionExample and Manager.CountsDescriptionFields state it |
| Manager.IsEndOfBooking | NotificationManagementDemo/Model/NotificationManager.swift:25-29 | a notification is an end-of-booking alert when its user info carries the key; start requests are not, follow-ups are (Manager.BookingRequest, Manager.FollowUpRequest) |
| Manager.BookingContent | NotificationManagementDemo/Model/NotificationManager.swift:118-125 | start-alert content: title, empty subtitle, message as body, category `alarm`, badge 1, default sound, empty user info |
| Manager.FollowUpContent | NotificationManagementDemo/Model/NotificationManager.swift:12-22 | follow-up content copies title, subtitle, body and category, clears badge and sound, and carries only the end-of-booking key |
| Manager.BookingRequest | NotificationManagementDemo/Model/NotificationManager.swift:112-130 | the start request's identifier is the span's `jsonString` and decodes back to the span, its content is the start-alert content, it fires at the start's whole second, and it is not an end-of-booking notification |
| Manager.FollowUpRequest | NotificationManagementDemo/Model/NotificationManager.swift:141-153 | a follow-up exists exactly when the identifier decodes; it keeps the identifier, its content is the follow-up copy of the presented content, it fires at the decoded end's whole second and is marked as end of booking |
| Manager.FollowUpOfBooking | NotificationManagementDemo/Model/NotificationManager.swift:136-154 | a booking's start alert has a follow-up with the same identifier, title and body, firing at the end's whole second and marked as end of booking |
| Manager.ReceivedCounts | NotificationManagementDemo/Model/NotificationManager.swift:186-189 | pending and delivered are zero; current is the number of received spans that are current, repeats counted, and zero exactly when none is |
| Manager.Snapshot | NotificationManagementDemo/Model/NotificationManager.swift:186-222 | the counts one refresh computes; Manager.SnapshotFields states them |
| Manager.SnapshotFields | NotificationManagementDemo/Model/NotificationManager.swift:186-222 | the snapshot has pending as found, delivered as found, and as current the number of current received spans plus the number of delivered notifications whose identifier decodes to a current span |
| Manager.CurrentDeliveredCount | NotificationManagementDemo/Model/NotificationManager.swift:203-208 | the current identifiers are as many as the delivered notifications that decode to a current span, repeats counted |
| Manager.CurrentMayExceedDelivered | NotificationManagementDemo/Model/NotificationManager.swift:186-208 | one current received span and no delivered notification give current 1 and delivered 0 |
| Manager.Purge | NotificationManagementDemo/Model/NotificationManager.swift:198-216 | the purge keeps exactly the delivered notifications whose identifier is not obsolete |
| Manager.PurgeMultiset | NotificationManagementDemo/Model/NotificationManager.swift:198-216 | every occurrence of a notification that is not obsolete survives the purge, and no obsolete one does |
| Manager.PurgeIdempotent | NotificationManagementDemo/Model/NotificationManager.swift:216 | purging twice at the same instant equals purging once |
| Manager.WithoutObsoleteKeepsCurrent | NotificationManagementDemo/Model/NotificationManager.swift:204-216 | removing only obsolete identifiers leaves the current identifiers unchanged, in order |
| Manager.PurgeKeepsCurrent | NotificationManagementDemo/Model/NotificationManager.swift:204-216 | the current delivered identifiers are the same list before and after the purge |
| Manager.PurgeKeepsUndecodable | NotificationManagementDemo/Model/NotificationManager.swift:198-200 | a delivered notification whose identifier does not decode survives the purge |
| Manager.Published | NotificationManagementDemo/Model/NotificationManager.swift:222 | the observer receives the counts only when it is set |
| Manager.NotificationManager.InitializeAtAppStart | NotificationManagementDemo/Model/NotificationManager.swift:80-88 | the manager becomes authorized when the user grants the request, and never loses authorization |
| Manager.NotificationManager.UpdateBadgeAndCounts | NotificationManagementDemo/Model/NotificationManager.swift:191-227 | badge = snapshot's current; delivered list purged; pending unchanged; the snapshot published when an observer is set |
| Manager.NotificationManager.SetObserver | NotificationManagementDemo/Model/NotificationManager.swift:73-77 | setting the observer runs a refresh |
| Manager.NotificationManager.AddNotificationRequest | NotificationManagementDemo/Model/NotificationManager.swift:90-100 | the request is pending under its identifier and a refresh follows |
| Manager.NotificationManager.AddNotification | NotificationManagementDemo/Model/NotificationManager.swift:107-131 | unauthorized: nothing changes; authorized: exactly the booking request is added, then a refresh |
| Manager.NotificationManager.AddNotificationAtEndOf | NotificationManagementDemo/Model/NotificationManager.swift:136-154 | unauthorized or undecodable: nothing changes; otherwise the follow-up is pending under the old identifier, then a refresh |
| Manager.NotificationManager.RemovePendingNotificationRequests | NotificationManagementDemo/Model/NotificationManager.swift:158-164 | only that identifier leaves the pending requests, then a refresh |
| Manager.NotificationManager.RemoveAllPendingNotificationRequests | NotificationManagementDemo/Model/NotificationManager.swift:167-169 | no request stays pending and nothing is refreshed |
| Manager.NotificationManager.RemoveAllDeliveredNotifications | NotificationManagementDemo/Model/NotificationManager.swift:172-176 | delivered list emptied; the refresh's badge and current count then come from the received spans alone |
| Manager.NotificationManager.ClearBadge | NotificationManagementDemo/Model/NotificationManager.swift:179-184 | the badge becomes 0 |
| Manager.NotificationManager.WillPresent | NotificationManagementDemo/Model/NotificationManager.swift:237-249 | end of booking: no options, removed from delivered, nothing scheduled; otherwise alert, badge and sound, and exactly the follow-up scheduled when authorized and decodable; a refresh either way, so follow-ups never chain; the observer receives one record, or two when a follow-up was scheduled |
| Manager.NotificationManager.DismissEndOfBooking | NotificationManagementDemo/Model/NotificationManager.swift:240-242 | the end-of-booking alert leaves the delivered list, then one refresh |
| Manager.NotificationManager.ChainFollowUp | NotificationManagementDemo/Model/NotificationManager.swift:243-246 | the follow-up is chained with its refresh, then a second refresh finds the purged list and leaves the badge as the first set it |
| Manager.NotificationManager.DidReceive | NotificationManagementDemo/Model/NotificationManager.swift:253-260 | the received list grows by the decoded span exactly when the identifier decodes |
| LegacyManager.CurrentBadge | NotificationManagementDemo/NotificationManager.swift:121-124 | the badge is the number of delivered notifications that decode to a current span, repeats counted; it is zero exactly when none does |
| LegacyManager.CurrentBadgeAgainstSnapshot | NotificationManagementDemo/NotificationManager.swift:116-134 | the newer manager's current count is the legacy badge plus the current received spans |
| LegacyManager.LegacyNotificationManager.InitializeAtAppStart | NotificationManagementDemo/NotificationManager.swift:36-45 | authorized once the user grants the request |
| LegacyManager.LegacyNotificationManager.UpdatePendingCount | NotificationManagementDemo/NotificationManager.swift:138-151 | pending set to the pending-request count, delivered unchanged, record published when an observer is set |
| LegacyManager.LegacyNotificationManager.UpdateDeliveredCount | NotificationManagementDemo/NotificationManager.swift:153-166 | delivered set to the delivered count, pending unchanged, record published when an observer is set |
| LegacyManager.LegacyNotificationManager.UpdateBothCounts | NotificationManagementDemo/NotificationManager.swift:168-171 | both fields refreshed, in two published steps |
| LegacyManager.LegacyNotificationManager.SetObserver | NotificationManagementDemo/NotificationManager.swift:31-33 | setting the observer refreshes both counts |
| LegacyManager.LegacyNotificationManager.AddNotification | NotificationManagementDemo/NotificationManager.swift:52-90 | unauthorized: nothing changes; authorized: the booking request is added, then the pending count refreshed |
| LegacyManager.LegacyNotificationManager.RemoveNotificationRequest | NotificationManagementDemo/NotificationManager.swift:94-99 | only that identifier leaves the pending requests, then the pending count is refreshed |
| LegacyManager.LegacyNotificationManager.RemoveAllDeliveredNotifications | NotificationManagementDemo/NotificationManager.swift:102-106 | delivered list emptied, then the delivered count refreshed |
| LegacyManager.LegacyNotificationManager.ClearBadge | NotificationManagementDemo/NotificationManager.swift:109-114 | the badge becomes 0 |
| LegacyManager.LegacyNotificationManager.UpdateBadgeAndCounts | NotificationManagementDemo/NotificationManager.swift:116-134 | badge = the current delivered count; exactly the obsolete notifications purged; nothing published |
| LegacyManager.LegacyNotificationManager.WillPresent | NotificationManagementDemo/NotificationManager.swift:185-190 | always alert, badge and sound; nothing scheduled; both counts refreshed (two records to the observer), badge set and obsolete notifications purged |

## Left out

- Apple's notification center is reduced to its state. Authorization requests, delegate assignment, and the order and races of completion handlers are not modelled: every callback runs at once, in program order.
- `DispatchQueue.main.async` badge writes and `UIApplication` are modelled as a badge field on the backend, set at once.
- `printClassAndFunc` logging, the logging loops over requests and notifications, and the legacy `didReceive`, which only logs, are not modelled.
- Both view controllers are not part of this model; they are UI.
- Classify.Partition, Manager.PurgeKeepsCurrent, Manager.NotificationManager.UpdateBadgeAndCounts and LegacyManager.LegacyNotificationManager.UpdateBadgeAndCounts: one clock reading `now` stands for every `isCurrent` call of a refresh. The source reads the clock again on each call, once per received span and once per identifier in each of the current and obsolete scans, the delivered scans inside a later callback. Across readings, a delivered span at its end can be counted in the badge and still be purged, and one at its start − 2 s bound can land in neither list; the disjointness and the unchanged current list proved here hold for a single reading only.
- The clock is a parameter, not read. Foundation's `Date` and `TimeInterval` are Doubles; the model uses integer microseconds, so sub-microsecond values and Double rounding are not modelled.
- DateUtil helpers use microseconds, not Double seconds; `durationHours` divides by the microseconds in an hour.
- Calendar and time-zone rules are not modelled. Everything in `DateUtil.swift` built on `Calendar.current` or `DateFormatter` is out, and so is the `weekday` lookup behind `weekday_0M`. The formatter and `description` take calendar components as input.
- The calendar trigger is modelled as its whole second since the reference date. The calendar-component round trip (and its daylight-saving ambiguity) is not modelled.
- The JSON codec writes numbers as exact decimals with six fraction digits. It does not reproduce the unseen encoder's Double text (`625329725.28674698`). It reads no exponents, no fractions longer than six digits, and no surrogate-pair `\u` escapes. It does not escape `/`.
- TimeSpan.JsonString: the source's `jsonString` is optional, but encoding integer timestamps cannot fail. So the `guard ... else { return }` branches in `addNotification` (both managers) are unreachable in the model.
- Manager.NotificationManager.AddNotification: no branch submits nothing because encoding failed, for the reason above.
- LegacyManager.LegacyNotificationManager.AddNotification: the source calls `NotificationTimeSpan(title:body:timeSpan:)` and `.string`. It is modelled with the same constructor and encoder as the current manager.
- A failed `add` (its error branch) is not modelled: the backend accepts every request.
- `runForever`, which is commented out, is not modelled.
- `weekdaySymbols_M0` traps on an empty list; DateUtil.WeekdaySymbolsM0 requires at least one name.
- TimeSpan.DescriptionLayout: `Description` uses the corrected formatter `Format`, while the source's `description` uses the formatter as written. The two agree except within 500 ns before a whole second (TimeSpan.RolloverWindow); there the source's text is one character longer than the 86 characters plus title and message stated here.

## Findings

| source | as written | input that shows it | evidently intended | confidence | as-written member | corrected member |
|---|---|---|---|---|---|---|
| NotificationManagementDemo/Util/NotificationTimeSpan.swift:18-23 | the microseconds are `lrint(nanosecond / 1000)` printed with `%06ld`; rounding can reach 1000000, which prints as seven digits | nanosecond = 999 999 600 (any instant within 500 ns before a whole second) gives `...:05.1000000`, 27 characters | a six-digit fraction below one second, so the text keeps its 26-character layout (the corrected formatter holds the value at 999999) | medium, not executed | TimeSpan.FormatAsWrittenOverflows | TimeSpan.FormatLayout |
