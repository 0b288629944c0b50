/** `NotificationTimeSpan`: the immutable record (title, message, start,
    end) of one booking, whose JSON text is the identifier of its
    notification request, and the "is it current?" rule. */
module TimeSpan {
  import opened Wrappers
  import opened Decimal
  import opened DateUtil
  import Json

  datatype NotificationTimeSpan = NotificationTimeSpan(title: string, message: string, start: Time, end: Time)

  /** Delivery may come up to this long before the scheduled start and
      still count as current: two seconds, in microseconds. */
  const CurrentTolerance: nat := 2 * MicrosPerSecond

  /** `init(title:message:timeSpan:)` */
  function FromInterval(title: string, message: string, timeSpan: Interval): (s: NotificationTimeSpan)
    ensures s.title == title && s.message == message
    ensures s.start == timeSpan.start && s.end == timeSpan.end
  {
    NotificationTimeSpan(title, message, timeSpan.start, timeSpan.end)
  }

  /** `interval`. `DateInterval(start:end:)` traps on an end before the
      start, which a decoded identifier can carry. */
  function SpanInterval(s: NotificationTimeSpan): (i: Interval)
    requires s.start <= s.end
    ensures i.start == s.start && i.end == s.end
  {
    DateInterval(s.start, s.end)
  }

  /** `isCurrent`, with the clock reading passed in: `now` lies between
      two seconds before the start and the end, both bounds included. */
  predicate IsCurrent(s: NotificationTimeSpan, now: Time) {
    s.start - CurrentTolerance <= now && now <= s.end
  }

  /* ---------------------------------------------------------------------
     The identifier
     --------------------------------------------------------------------- */

  /** The members of the identifier object, in the order the encoder
      writes them. */
  function Members(s: NotificationTimeSpan): seq<Json.Member> {
    [ Json.Member("message", Json.JString(s.message)),
      Json.Member("title", Json.JString(s.title)),
      Json.Member("end", Json.JNumber(s.end)),
      Json.Member("start", Json.JNumber(s.start)) ]
  }

  /** `jsonString`: the notification identifier. Integer timestamps always
      encode, so there is always a string. */
  function JsonString(s: NotificationTimeSpan): string {
    Json.EncodeObject(Members(s))
  }

  /** `init?(from:)`: the span an identifier denotes, or no value when the
      text is not one JSON object with string members `title` and
      `message` and number members `start` and `end`. Other members are
      ignored; of repeated names the first counts. */
  function FromJson(id: string): (r: Option<NotificationTimeSpan>)
    ensures r.Some? ==> Json.DecodeObject(id).Some?
  {
    match Json.DecodeObject(id)
    case None => None
    case Some(ms) => FromMembers(ms)
  }

  /** The span named by the members of a decoded object. */
  function FromMembers(ms: seq<Json.Member>): (r: Option<NotificationTimeSpan>)
    ensures r.Some? ==> Json.Lookup(ms, "title") == Some(Json.JString(r.value.title))
    ensures r.Some? ==> Json.Lookup(ms, "message") == Some(Json.JString(r.value.message))
    ensures r.Some? ==> Json.Lookup(ms, "start") == Some(Json.JNumber(r.value.start))
    ensures r.Some? ==> Json.Lookup(ms, "end") == Some(Json.JNumber(r.value.end))
  {
    var title, message := Json.Lookup(ms, "title"), Json.Lookup(ms, "message");
    var start, end := Json.Lookup(ms, "start"), Json.Lookup(ms, "end");
    if title.Some? && title.value.JString? && message.Some? && message.value.JString?
       && start.Some? && start.value.JNumber? && end.Some? && end.value.JNumber?
    then Some(NotificationTimeSpan(title.value.str, message.value.str, start.value.scaled, end.value.scaled))
    else None
  }

  /** The identifier is an object with exactly the members `message`,
      `title`, `end`, `start`, in that order. */
  lemma {:induction false} JsonStringKeyShape(s: NotificationTimeSpan)
    ensures Json.DecodeObject(JsonString(s)).Some?
    ensures var ms := Json.DecodeObject(JsonString(s)).value;
      |ms| == 4 && ms[0].name == "message" && ms[1].name == "title"
      && ms[2].name == "end" && ms[3].name == "start"
  {
    Json.DecodeEncodeObject(Members(s));
  }

  /** Decoding the identifier gives back the span, field by field. */
  lemma {:induction false} FromJsonRoundTrip(s: NotificationTimeSpan)
    ensures FromJson(JsonString(s)) == Some(s)
  {
    Json.DecodeEncodeObject(Members(s));
    FromMembersOfMembers(s);
  }

  lemma {:induction false} FromMembersOfMembers(s: NotificationTimeSpan)
    ensures FromMembers(Members(s)) == Some(s)
  {
    var ms := Members(s);
    assert "message"[0] != "title"[0] && "message"[0] != "start"[0] && "message"[0] != "end"[0];
    assert "title"[0] != "start"[0] && "title"[0] != "end"[0] && "end"[0] != "start"[0];
    var t1 := ms[1..];
    var t2 := t1[1..];
    var t3 := t2[1..];
    assert t1 == ms[1..] && t1[0] == ms[1];
    assert t2[0] == ms[2] && t3[0] == ms[3];
    assert Json.Lookup(ms, "message") == Some(Json.JString(s.message));
    assert Json.Lookup(ms, "title") == Json.Lookup(t1, "title") == Some(Json.JString(s.title));
    assert Json.Lookup(t1, "end") == Json.Lookup(t2, "end") == Some(Json.JNumber(s.end));
    assert Json.Lookup(ms, "end") == Some(Json.JNumber(s.end));
    assert Json.Lookup(t2, "start") == Json.Lookup(t3, "start") == Some(Json.JNumber(s.start));
    assert Json.Lookup(ms, "start") == Some(Json.JNumber(s.start));
  }

  /** Two spans with the same identifier are the same span. */
  lemma JsonStringInjective(s: NotificationTimeSpan, s': NotificationTimeSpan)
    ensures JsonString(s) == JsonString(s') <==> s == s'
  {
    FromJsonRoundTrip(s);
    FromJsonRoundTrip(s');
  }

  /** Text that is not a JSON object gives no span. */
  lemma FromJsonRejects()
    ensures FromJson("") == None
    ensures FromJson("{}") == None
    ensures FromJson("booked") == None
  {
    assert Json.DecodeObject("{}") == Some([]);
  }

  /* ---------------------------------------------------------------------
     Currency
     --------------------------------------------------------------------- */

  /** The bounds of `isCurrent` are inclusive at both ends and exact. */
  lemma IsCurrentBounds(s: NotificationTimeSpan, eps: int)
    requires s.start <= s.end && eps > 0
    ensures IsCurrent(s, s.end)
    ensures !IsCurrent(s, s.end + eps)
    ensures IsCurrent(s, s.start - CurrentTolerance)
    ensures !IsCurrent(s, s.start - CurrentTolerance - eps)
  {
  }

  /** The instants at which a span is current form one stretch: no gap
      between two current instants. */
  lemma IsCurrentConvex(s: NotificationTimeSpan, t1: Time, t2: Time, t3: Time)
    requires t1 <= t2 <= t3 && IsCurrent(s, t1) && IsCurrent(s, t3)
    ensures IsCurrent(s, t2)
  {
  }

  /** A span that has ended is not current. */
  lemma EndedIsNotCurrent(s: NotificationTimeSpan, now: Time)
    requires s.end < now
    ensures !IsCurrent(s, now)
  {
  }

  /** For a booking made from an interval: while the interval is more than
      the tolerance in the future the booking is not current, and within
      the last two seconds before the start it already is. */
  lemma FutureBookingCurrency(title: string, message: string, i: Interval, now: Time)
    ensures IsInTheFuture(i, now + CurrentTolerance) ==> !IsCurrent(FromInterval(title, message, i), now)
    ensures (IsInTheFuture(i, now) && !IsInTheFuture(i, now + CurrentTolerance))
              ==> IsCurrent(FromInterval(title, message, i), now)
  {
  }

  /** A two-hour booking starting at `t0` is not current 2001 ms before
      the start and is current 1999 ms before it, and its identifier
      decodes back to it. */
  lemma {:induction false} ToleranceScenario(t0: Time)
    ensures var s := FromInterval("R", "booked", DateInterval(t0, t0 + 7200 * MicrosPerSecond));
      && !IsCurrent(s, t0 - 2_001_000) && IsCurrent(s, t0 - 1_999_000)
      && FromJson(JsonString(s)) == Some(s)
  {
    FromJsonRoundTrip(FromInterval("R", "booked", DateInterval(t0, t0 + 7200 * MicrosPerSecond)));
  }

  /** `interval` gives back the interval the span was made from. */
  lemma IntervalOfFromInterval(title: string, message: string, i: Interval)
    ensures SpanInterval(FromInterval(title, message, i)) == i
  {
  }

  /* ---------------------------------------------------------------------
     Text form
     --------------------------------------------------------------------- */

  /** The calendar components of an instant, as the formatter reads them
      (the time zone and calendar rules that produce them are outside the
      model). */
  datatype DateComponents = DateComponents(year: nat, month: nat, day: nat, hour: nat, minute: nat, second: nat, nanosecond: nat)

  predicate InRange(c: DateComponents) {
    c.year < 10000 && 1 <= c.month <= 12 && 1 <= c.day <= 31
    && c.hour < 24 && c.minute < 60 && c.second < 61 && c.nanosecond < 1_000_000_000
  }

  /** `lrint(nanosecond / 1000)`: the nearest microsecond, ties to even
      (the default rounding mode). */
  function RoundedMicros(nanosecond: nat): nat {
    var q := nanosecond / 1000;
    var r := nanosecond % 1000;
    if r > 500 || (r == 500 && q % 2 == 1) then q + 1 else q
  }

  /** The microsecond field as the formatter writes it, kept to six digits:
      a rounding up to a full second is held at 999999. */
  function Micros(nanosecond: nat): nat {
    var m := RoundedMicros(nanosecond);
    if m > 999_999 then 999_999 else m
  }

  function FormatFields(c: DateComponents, micros: nat): string {
    Joined(ZeroPad(c.year, 4), ZeroPad(c.month, 2), ZeroPad(c.day, 2),
           ZeroPad(c.hour, 2), ZeroPad(c.minute, 2), ZeroPad(c.second, 2), ZeroPad(micros, 6))
  }

  function Joined(y: string, mo: string, d: string, h: string, mi: string, s: string, us: string): string {
    y + "-" + mo + "-" + d + " " + h + ":" + mi + ":" + s + "." + us
  }

  lemma {:induction false} JoinedSlices(y: string, mo: string, d: string, h: string, mi: string, s: string, us: string)
    requires |y| == 4 && |mo| == 2 && |d| == 2 && |h| == 2 && |mi| == 2 && |s| == 2 && |us| == 6
    ensures var f := Joined(y, mo, d, h, mi, s, us);
      && |f| == 26
      && f[4] == '-' && f[7] == '-' && f[10] == ' ' && f[13] == ':' && f[16] == ':' && f[19] == '.'
      && f[0..4] == y && f[5..7] == mo && f[8..10] == d && f[11..13] == h
      && f[14..16] == mi && f[17..19] == s && f[20..26] == us
  {
    var f := Joined(y, mo, d, h, mi, s, us);
    var p1 := y + "-";
    var p2 := p1 + mo + "-";
    var p3 := p2 + d + " ";
    var p4 := p3 + h + ":";
    var p5 := p4 + mi + ":";
    var p6 := p5 + s + ".";
    assert f == p6 + us;
    MiddleSlice(p1, mo, f[|p1| + 2..]);
    MiddleSlice(p2, d, f[|p2| + 2..]);
    MiddleSlice(p3, h, f[|p3| + 2..]);
    MiddleSlice(p4, mi, f[|p4| + 2..]);
    MiddleSlice(p5, s, f[|p5| + 2..]);
  }

  lemma MiddleSlice(a: string, b: string, c: string)
    ensures (a + b + c)[|a|..|a| + |b|] == b
  {
  }

  /** `ddMMyyyy_HHmmss_𝜇s` as written: `%04ld-%02ld-%02ld %02ld:%02ld:%02ld.%06ld`
      over the components and the rounded microseconds. */
  function FormatAsWritten(c: DateComponents): string {
    FormatFields(c, RoundedMicros(c.nanosecond))
  }

  /** `ddMMyyyy_HHmmss_𝜇s` with the microsecond field kept to six digits. */
  function Format(c: DateComponents): string {
    FormatFields(c, Micros(c.nanosecond))
  }

  /** Below a whole second the rounding reaches 1000000 exactly from
      999999500 ns on (the tie rounds up, 999999 being odd); below that
      the two formatters write the same text. */
  lemma RolloverWindow(c: DateComponents)
    requires c.nanosecond < 1_000_000_000
    ensures RoundedMicros(c.nanosecond) <= 1_000_000
    ensures RoundedMicros(c.nanosecond) == 1_000_000 <==> c.nanosecond >= 999_999_500
    ensures c.nanosecond < 999_999_500 ==> FormatAsWritten(c) == Format(c)
  {
  }

  /** Within 500 ns of the next second the rounding gives 1000000, and the
      text as written grows a seventh fraction digit. */
  lemma {:induction false} FormatAsWrittenOverflows()
    ensures var c := DateComponents(2020, 10, 25, 15, 42, 5, 999_999_600);
      InRange(c) && RoundedMicros(c.nanosecond) == 1_000_000 && |FormatAsWritten(c)| == 27
  {
    var c := DateComponents(2020, 10, 25, 15, 42, 5, 999_999_600);
    ZeroPadRoundTrip(2020, 4);
    ZeroPadRoundTrip(10, 2);
    ZeroPadRoundTrip(25, 2);
    ZeroPadRoundTrip(15, 2);
    ZeroPadRoundTrip(42, 2);
    ZeroPadRoundTrip(5, 2);
    ZeroPadRoundTrip(1_000_000, 7);
  }

  /** The fixed layout `yyyy-MM-dd HH:mm:ss.ffffff`: 26 characters,
      separators in place, and every field reads back as its component. */
  lemma {:induction false} FormatLayout(c: DateComponents)
    requires InRange(c)
    ensures var f := Format(c);
      && |f| == 26
      && f[4] == '-' && f[7] == '-' && f[10] == ' ' && f[13] == ':' && f[16] == ':' && f[19] == '.'
      && AllDigits(f[0..4]) && DigitsValue(f[0..4]) == c.year
      && AllDigits(f[5..7]) && DigitsValue(f[5..7]) == c.month
      && AllDigits(f[8..10]) && DigitsValue(f[8..10]) == c.day
      && AllDigits(f[11..13]) && DigitsValue(f[11..13]) == c.hour
      && AllDigits(f[14..16]) && DigitsValue(f[14..16]) == c.minute
      && AllDigits(f[17..19]) && DigitsValue(f[17..19]) == c.second
      && AllDigits(f[20..26]) && DigitsValue(f[20..26]) == Micros(c.nanosecond)
  {
    ZeroPadRoundTrip(c.year, 4);
    ZeroPadRoundTrip(c.month, 2);
    ZeroPadRoundTrip(c.day, 2);
    ZeroPadRoundTrip(c.hour, 2);
    ZeroPadRoundTrip(c.minute, 2);
    ZeroPadRoundTrip(c.second, 2);
    ZeroPadRoundTrip(Micros(c.nanosecond), 6);
    JoinedSlices(ZeroPad(c.year, 4), ZeroPad(c.month, 2), ZeroPad(c.day, 2),
                 ZeroPad(c.hour, 2), ZeroPad(c.minute, 2), ZeroPad(c.second, 2), ZeroPad(Micros(c.nanosecond), 6));
  }

  lemma {:induction false} FormatLength(c: DateComponents)
    requires InRange(c)
    ensures |Format(c)| == 26
  {
    FormatLayout(c);
  }

  /** `description`: title, message, and start and end in the fixed
      layout; `calendar` gives the components of an instant. */
  function Description(s: NotificationTimeSpan, calendar: Time -> DateComponents): string {
    Described(s.title, s.message, Format(calendar(s.start)), Format(calendar(s.end)))
  }

  function Described(title: string, message: string, start: string, end: string): string {
    "title= " + title + ", message= " + message + ", start= " + start + ", end= " + end
  }

  /** The description starts with the title, ends with the fixed-width
      end time, and its length is fixed apart from title and message. */
  lemma {:induction false} DescriptionLayout(s: NotificationTimeSpan, calendar: Time -> DateComponents)
    requires InRange(calendar(s.start)) && InRange(calendar(s.end))
    ensures var d := Description(s, calendar);
      && |d| == 86 + |s.title| + |s.message|
      && d[..7] == "title= " && d[7..7 + |s.title|] == s.title
      && d[|d| - 26..] == Format(calendar(s.end))
      && d[|d| - 59..|d| - 33] == Format(calendar(s.start))
  {
    var fs, fe := Format(calendar(s.start)), Format(calendar(s.end));
    FormatLength(calendar(s.start));
    FormatLength(calendar(s.end));
    DescribedSlices(s.title, s.message, fs, fe);
  }

  lemma {:induction false} DescribedSlices(title: string, message: string, fs: string, fe: string)
    requires |fs| == 26 && |fe| == 26
    ensures var d := Described(title, message, fs, fe);
      && |d| == 86 + |title| + |message|
      && d[..7] == "title= " && d[7..7 + |title|] == title
      && d[|d| - 26..] == fe
      && d[|d| - 59..|d| - 33] == fs
  {
  }

  lemma CalendarFieldsExample()
    ensures ZeroPad(2020, 4) == "2020" && ZeroPad(10, 2) == "10" && ZeroPad(25, 2) == "25"
    ensures ZeroPad(15, 2) == "15" && ZeroPad(42, 2) == "42" && ZeroPad(5, 2) == "05"
  {
    assert Digits(20) == "20" && Digits(202) == "202" && Digits(2020) == "2020";
    assert Digits(10) == "10" && Digits(25) == "25" && Digits(15) == "15" && Digits(42) == "42";
  }

  lemma MicrosFieldExample()
    ensures ZeroPad(Micros(286_747_000), 6) == "286747"
  {
    assert Micros(286_747_000) == 286_747;
    assert Digits(28) == "28" && Digits(286) == "286" && Digits(2867) == "2867";
    assert Digits(28674) == "28674" && Digits(286747) == "286747";
  }

  /** The unit example's start time in the fixed layout. */
  lemma FormatExample()
    ensures Format(DateComponents(2020, 10, 25, 15, 42, 5, 286_747_000)) == "2020-10-25 15:42:05.286747"
  {
    CalendarFieldsExample();
    MicrosFieldExample();
    FormatFieldsOf(DateComponents(2020, 10, 25, 15, 42, 5, 286_747_000), "2020", "10", "25", "15", "42", "05", "286747");
    JoinedExample();
  }

  lemma {:induction false} FormatFieldsOf(c: DateComponents, y: string, mo: string, d: string, h: string, mi: string, s: string, us: string)
    requires ZeroPad(c.year, 4) == y && ZeroPad(c.month, 2) == mo && ZeroPad(c.day, 2) == d
    requires ZeroPad(c.hour, 2) == h && ZeroPad(c.minute, 2) == mi && ZeroPad(c.second, 2) == s
    requires ZeroPad(Micros(c.nanosecond), 6) == us
    ensures Format(c) == Joined(y, mo, d, h, mi, s, us)
  {
  }

  lemma JoinedExample()
    ensures Joined("2020", "10", "25", "15", "42", "05", "286747") == "2020-10-25 15:42:05.286747"
  {
  }
}
