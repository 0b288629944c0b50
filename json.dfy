/** A codec for flat JSON objects (RFC 8259): objects as in section 4,
    strings with the escapes of section 7, numbers with the grammar of
    section 6. It is the wire format of notification identifiers.

    Values are strings or numbers. A number is a decimal with at most six
    fraction digits and is held exactly, scaled by 10^6 (so a timestamp in
    seconds is held in microseconds). */
module Json {
  import opened Wrappers
  import opened Decimal

  /** 10^6: a number is stored as its value times this scale. */
  const Scale: nat := 1_000_000
  const FractionDigits: nat := 6

  datatype Value = JString(str: string) | JNumber(scaled: int)

  datatype Member = Member(name: string, value: Value)

  /* ---------------------------------------------------------------------
     Encoding
     --------------------------------------------------------------------- */

  function HexDigit(d: nat): char
    requires d < 16
  {
    "0123456789abcdef"[d]
  }

  /** The escape of one character (RFC 8259 section 7): quote, reverse solidus and
      control characters are escaped, everything else is written as is. */
  function EscapeChar(c: char): string {
    if c == '"' then "\\\""
    else if c == '\\' then "\\\\"
    else if c == '\U{8}' then "\\b"
    else if c == '\U{C}' then "\\f"
    else if c == '\n' then "\\n"
    else if c == '\r' then "\\r"
    else if c == '\t' then "\\t"
    else if c < ' ' then "\\u00" + [HexDigit(c as int / 16), HexDigit(c as int % 16)]
    else [c]
  }

  function Escape(s: string): string {
    if s == [] then [] else EscapeChar(s[0]) + Escape(s[1..])
  }

  /** A scaled number as `-? int frac`: the integer part without leading
      zeros and always six fraction digits (RFC 8259 section 6). */
  function NumberText(n: int): string {
    var a := if n < 0 then -n else n;
    (if n < 0 then "-" else "") + Digits(a / Scale) + "." + ZeroPad(a % Scale, FractionDigits)
  }

  function EncodeValue(v: Value): string {
    match v
    case JString(s) => "\"" + Escape(s) + "\""
    case JNumber(n) => NumberText(n)
  }

  function EncodeMember(m: Member): string {
    "\"" + Escape(m.name) + "\":" + EncodeValue(m.value)
  }

  function EncodeMembers(ms: seq<Member>): string
    requires |ms| >= 1
  {
    if |ms| == 1 then EncodeMember(ms[0])
    else EncodeMember(ms[0]) + "," + EncodeMembers(ms[1..])
  }

  /** The compact text of an object: no insignificant whitespace, members
      in the given order. */
  function EncodeObject(ms: seq<Member>): string {
    if ms == [] then "{}" else "{" + EncodeMembers(ms) + "}"
  }

  /* ---------------------------------------------------------------------
     Decoding. Each parser returns what it read and the text after it.
     --------------------------------------------------------------------- */

  predicate IsWhitespace(c: char) {
    c == ' ' || c == '\t' || c == '\n' || c == '\r'
  }

  function SkipWs(s: string): (r: string)
    ensures |r| <= |s|
    ensures r == [] || !IsWhitespace(r[0])
  {
    if s != [] && IsWhitespace(s[0]) then SkipWs(s[1..]) else s
  }

  function HexValue(c: char): (r: Option<nat>)
    ensures r.Some? ==> r.value < 16
  {
    if '0' <= c <= '9' then Some(c as int - 48)
    else if 'a' <= c <= 'f' then Some(c as int - 87)
    else if 'A' <= c <= 'F' then Some(c as int - 55)
    else None
  }

  /** The four hex digits of a `\u` escape. */
  function Hex4(s: string): (r: Option<nat>)
    requires |s| >= 4
    ensures r.Some? ==> r.value < 0x10000
  {
    match (HexValue(s[0]), HexValue(s[1]), HexValue(s[2]), HexValue(s[3]))
    case (Some(a), Some(b), Some(c), Some(d)) => Some(((a * 16 + b) * 16 + c) * 16 + d)
    case _ => None
  }

  /** The character after a reverse solidus, and the text after the escape. */
  function ParseEscape(s: string): (r: Option<(char, string)>)
    ensures r.Some? ==> |r.value.1| < |s|
  {
    if s == [] then None
    else if s[0] == '"' then Some(('"', s[1..]))
    else if s[0] == '\\' then Some(('\\', s[1..]))
    else if s[0] == '/' then Some(('/', s[1..]))
    else if s[0] == 'b' then Some(('\U{8}', s[1..]))
    else if s[0] == 'f' then Some(('\U{C}', s[1..]))
    else if s[0] == 'n' then Some(('\n', s[1..]))
    else if s[0] == 'r' then Some(('\r', s[1..]))
    else if s[0] == 't' then Some(('\t', s[1..]))
    else if s[0] == 'u' && |s| >= 5 then
      match Hex4(s[1..5])
      case Some(v) =>
        if v < 0xD800 || 0xE000 <= v then Some((v as char, s[5..])) else None
      case None => None
    else None
  }

  /** The characters of a string up to its closing quotation mark (the
      opening one already read), and the text after the closing one. */
  function ParseChars(s: string): (r: Option<(string, string)>)
    ensures r.Some? ==> |r.value.1| < |s|
    decreases |s|
  {
    if s == [] then None
    else if s[0] == '"' then Some(([], s[1..]))
    else if s[0] == '\\' then
      match ParseEscape(s[1..])
      case None => None
      case Some((c, t)) =>
        match ParseChars(t)
        case None => None
        case Some((cs, u)) => Some(([c] + cs, u))
    else if s[0] < ' ' then None
    else
      match ParseChars(s[1..])
      case None => None
      case Some((cs, u)) => Some(([s[0]] + cs, u))
  }

  function ParseString(s: string): (r: Option<(string, string)>)
    ensures r.Some? ==> |r.value.1| < |s|
  {
    if s != [] && s[0] == '"' then ParseChars(s[1..]) else None
  }

  /** The length of the run of digits that starts `s`. */
  function DigitRun(s: string): (k: nat)
    ensures k <= |s|
    ensures forall i :: 0 <= i < k ==> IsDigit(s[i])
    ensures k < |s| ==> !IsDigit(s[k])
  {
    if s == [] || !IsDigit(s[0]) then 0 else 1 + DigitRun(s[1..])
  }

  /** A number `-? int [. digits]` (RFC 8259 section 6). An exponent is not read;
      what follows the number is left to the caller, which rejects it
      unless it is a delimiter. */
  function ParseNumber(s: string): (r: Option<(int, string)>)
    ensures r.Some? ==> |r.value.1| < |s|
  {
    if s != [] && s[0] == '-' then
      match ParseMagnitude(s[1..])
      case None => None
      case Some((m, t)) => Some((0 - m, t))
    else
      match ParseMagnitude(s)
      case None => None
      case Some((m, t)) => Some((m, t))
  }

  /** The integer part is `0` or has no leading zero. */
  function ParseMagnitude(t: string): (r: Option<(nat, string)>)
    ensures r.Some? ==> |r.value.1| < |t|
  {
    var k := DigitRun(t);
    if k == 0 || (t[0] == '0' && k > 1) then None
    else ParseFraction(DigitsValue(t[..k]), t[k..])
  }

  /** At most six fraction digits, since the value is held in units of
      10^-6; a number with more is not read. */
  function ParseFraction(whole: nat, u: string): (r: Option<(nat, string)>)
    ensures r.Some? ==> |r.value.1| <= |u|
  {
    if u != [] && u[0] == '.' then
      var f := DigitRun(u[1..]);
      if f == 0 || f > FractionDigits then None
      else Some((whole * Scale + DigitsValue(u[1..1 + f]) * Pow10(FractionDigits - f), u[1 + f..]))
    else Some((whole * Scale, u))
  }

  function ParseValue(s: string): (r: Option<(Value, string)>)
    ensures r.Some? ==> |r.value.1| < |s|
  {
    if s != [] && s[0] == '"' then
      match ParseString(s)
      case None => None
      case Some((str, t)) => Some((JString(str), t))
    else
      match ParseNumber(s)
      case None => None
      case Some((n, t)) => Some((JNumber(n), t))
  }

  /** `string ws : ws value` */
  function ParseMember(s: string): (r: Option<(Member, string)>)
    ensures r.Some? ==> |r.value.1| < |s|
  {
    match ParseString(s)
    case None => None
    case Some((name, t)) =>
      var t' := SkipWs(t);
      if t' == [] || t'[0] != ':' then None
      else
        match ParseValue(SkipWs(t'[1..]))
        case None => None
        case Some((v, u)) => Some((Member(name, v), u))
  }

  /** `member ws (, ws member ws)* }`: the members of a non-empty object and
      the text after its closing brace. */
  function ParseMembers(s: string): (r: Option<(seq<Member>, string)>)
    ensures r.Some? ==> |r.value.1| < |s|
    decreases |s|, 1
  {
    match ParseMember(s)
    case None => None
    case Some((m, t)) => ParseMoreMembers(m, SkipWs(t))
  }

  /** After member `m`: a comma and further members, or the closing brace. */
  function ParseMoreMembers(m: Member, t: string): (r: Option<(seq<Member>, string)>)
    ensures r.Some? ==> |r.value.1| < |t|
    decreases |t|, 0
  {
    if t != [] && t[0] == ',' then
      match ParseMembers(SkipWs(t[1..]))
      case None => None
      case Some((ms, u)) => Some(([m] + ms, u))
    else if t != [] && t[0] == '}' then Some(([m], t[1..]))
    else None
  }

  function ParseObject(s: string): Option<(seq<Member>, string)> {
    var t := SkipWs(s);
    if t == [] || t[0] != '{' then None
    else
      var u := SkipWs(t[1..]);
      if u != [] && u[0] == '}' then Some(([], u[1..])) else ParseMembers(u)
  }

  /** A whole text that is one object, with optional surrounding
      whitespace; anything else gives no value. */
  function DecodeObject(s: string): Option<seq<Member>> {
    match ParseObject(s)
    case None => None
    case Some((ms, t)) => if SkipWs(t) == [] then Some(ms) else None
  }

  /** The value of the first member with the given name. */
  function Lookup(ms: seq<Member>, name: string): (r: Option<Value>)
    ensures r.Some? <==> exists i :: 0 <= i < |ms| && ms[i].name == name
  {
    if ms == [] then None
    else if ms[0].name == name then Some(ms[0].value)
    else
      var r := Lookup(ms[1..], name);
      assert forall i :: 1 <= i < |ms| ==> ms[i] == ms[1..][i - 1];
      r
  }

  /* ---------------------------------------------------------------------
     Round trip
     --------------------------------------------------------------------- */

  /** Text that cannot continue a number, so the number parser stops there. */
  predicate Delimited(rest: string) {
    rest == [] || !IsDigit(rest[0])
  }

  lemma {:induction false} DigitRunOfDigits(d: string, rest: string)
    requires AllDigits(d) && Delimited(rest)
    ensures DigitRun(d + rest) == |d|
    decreases |d|
  {
    if d != [] {
      assert (d + rest)[1..] == d[1..] + rest;
      DigitRunOfDigits(d[1..], rest);
    }
  }

  lemma {:induction false} ParseEscapeOf(c: char, rest: string)
    requires EscapeChar(c) != [c]
    ensures EscapeChar(c)[0] == '\\'
    ensures ParseEscape(EscapeChar(c)[1..] + rest) == Some((c, rest))
  {
    var e := EscapeChar(c);
    if c < ' ' && c != '\U{8}' && c != '\U{C}' && c != '\n' && c != '\r' && c != '\t' {
      var s := e[1..] + rest;
      var hi, lo := c as int / 16, c as int % 16;
      assert s[0] == 'u';
      assert s[1..5] == ['0', '0', HexDigit(hi), HexDigit(lo)];
      assert HexValue(HexDigit(hi)) == Some(hi);
      assert HexValue(HexDigit(lo)) == Some(lo);
      assert s[5..] == rest;
    }
  }

  lemma {:induction false} ParseCharsRoundTrip(str: string, rest: string)
    ensures ParseChars(Escape(str) + "\"" + rest) == Some((str, rest))
    decreases |str|
  {
    if str == [] {
      assert Escape(str) + "\"" + rest == "\"" + rest;
    } else {
      var c := str[0];
      var tail := Escape(str[1..]) + "\"" + rest;
      assert Escape(str) + "\"" + rest == EscapeChar(c) + tail by {
        Assoc(EscapeChar(c), Escape(str[1..]), "\"");
      }
      ParseCharsRoundTrip(str[1..], rest);
      ParseCharsStep(c, tail, str[1..], rest);
      assert [c] + str[1..] == str;
    }
  }

  /** One character, written plainly or escaped, in front of text the
      string parser reads. */
  lemma {:induction false} ParseCharsStep(c: char, tail: string, cs: string, rest: string)
    requires ParseChars(tail) == Some((cs, rest))
    ensures ParseChars(EscapeChar(c) + tail) == Some(([c] + cs, rest))
  {
    var e := EscapeChar(c);
    if e == [c] {
      ParseCharsPlain(c, tail);
    } else {
      ParseEscapeOf(c, tail);
      ParseCharsEscaped(c, e, tail);
    }
  }

  lemma {:induction false} ParseCharsPlain(c: char, tail: string)
    requires EscapeChar(c) == [c]
    ensures c != '"' && c != '\\' && c >= ' '
    ensures ([c] + tail)[0] == c && ([c] + tail)[1..] == tail
  {
  }

  lemma {:induction false} ParseCharsEscaped(c: char, e: string, tail: string)
    requires e == EscapeChar(c) && e != [c] && e[0] == '\\'
    ensures (e + tail)[0] == '\\' && (e + tail)[1..] == e[1..] + tail
  {
  }

  lemma {:induction false} ParseStringRoundTrip(str: string, rest: string)
    ensures ParseString("\"" + Escape(str) + "\"" + rest) == Some((str, rest))
  {
    var s := "\"" + Escape(str) + "\"" + rest;
    assert s[1..] == Escape(str) + "\"" + rest;
    ParseCharsRoundTrip(str, rest);
  }

  lemma {:induction false} ParseFractionOf(whole: nat, f: string, rest: string)
    requires AllDigits(f) && |f| == FractionDigits && Delimited(rest)
    ensures ParseFraction(whole, "." + f + rest) == Some((whole * Scale + DigitsValue(f), rest))
  {
    var u := "." + f + rest;
    assert u[1..] == f + rest;
    DigitRunOfDigits(f, rest);
    assert u[1..1 + FractionDigits] == f;
    assert u[1 + FractionDigits..] == rest;
    assert Pow10(0) == 1;
  }

  lemma {:induction false} ParseMagnitudeOf(d: string, after: string, v: nat, rest: string)
    requires AllDigits(d) && 1 <= |d| && (d[0] == '0' ==> |d| == 1)
    requires Delimited(after)
    requires ParseFraction(DigitsValue(d), after) == Some((v, rest))
    ensures ParseMagnitude(d + after) == Some((v, rest))
  {
    var t := d + after;
    DigitRunOfDigits(d, after);
    assert t[..|d|] == d;
    assert t[|d|..] == after;
  }

  lemma {:induction false} NumberTextShape(n: int, rest: string)
    ensures var a := if n < 0 then -n else n;
      NumberText(n) + rest
        == (if n < 0 then "-" else "") + (Digits(a / Scale) + "." + ZeroPad(a % Scale, FractionDigits) + rest)
  {
  }

  lemma {:induction false} ParseSigned(neg: bool, t: string, m: nat, rest: string)
    requires t != [] && t[0] != '-'
    requires ParseMagnitude(t) == Some((m, rest))
    ensures ParseNumber((if neg then "-" else "") + t) == Some((if neg then -(m as int) else m as int, rest))
  {
    if neg {
      assert ("-" + t)[1..] == t;
    } else {
      assert "" + t == t;
    }
  }

  lemma {:induction false} ParseNumberRoundTrip(n: int, rest: string)
    requires Delimited(rest)
    ensures ParseNumber(NumberText(n) + rest) == Some((n, rest))
  {
    var a: nat := if n < 0 then -n else n;
    var t := Digits(a / Scale) + "." + ZeroPad(a % Scale, FractionDigits) + rest;
    MagnitudeRoundTrip(a, rest);
    NumberTextShape(n, rest);
    ParseSigned(n < 0, t, a, rest);
  }

  /** The unsigned part of a number text reads back as its value. */
  lemma {:induction false} MagnitudeRoundTrip(a: nat, rest: string)
    requires Delimited(rest)
    ensures var t := Digits(a / Scale) + "." + ZeroPad(a % Scale, FractionDigits) + rest;
      t != [] && t[0] != '-' && ParseMagnitude(t) == Some((a, rest))
  {
    var q, r := a / Scale, a % Scale;
    FractionOfPadded(q, r, rest);
    DigitsShape(q);
    MagnitudeOfParts(Digits(q), ZeroPad(r, FractionDigits), rest, a);
  }

  /** The padded fraction after the point reads back, scaled onto the whole part. */
  lemma FractionOfPadded(q: nat, r: nat, rest: string)
    requires r < Scale && Delimited(rest)
    ensures ParseFraction(q, "." + ZeroPad(r, FractionDigits) + rest) == Some((q * Scale + r, rest))
  {
    ZeroPadRoundTrip(r, FractionDigits);
    ParseFractionOf(q, ZeroPad(r, FractionDigits), rest);
  }

  /** The decimal digits of a whole part: their value, and no leading zero. */
  lemma DigitsShape(q: nat)
    ensures DigitsValue(Digits(q)) == q
    ensures Digits(q)[0] == '0' ==> |Digits(q)| == 1
  {
    ValueOfDigits(q);
    if Digits(q)[0] == '0' {
      assert q == 0;
    }
  }

  lemma MagnitudeOfParts(d: string, z: string, rest: string, a: nat)
    requires AllDigits(d) && 1 <= |d| && (d[0] == '0' ==> |d| == 1)
    requires Delimited(rest)
    requires ParseFraction(DigitsValue(d), "." + z + rest) == Some((a, rest))
    ensures d + "." + z + rest != [] && (d + "." + z + rest)[0] != '-'
    ensures ParseMagnitude(d + "." + z + rest) == Some((a, rest))
  {
    var after := "." + z + rest;
    assert Delimited(after);
    ParseMagnitudeOf(d, after, a, rest);
    Assoc(d, ".", z);
    Assoc(d, "." + z, rest);
    assert (d + after)[0] == d[0];
  }

  lemma {:induction false} ParseValueRoundTrip(v: Value, rest: string)
    requires Delimited(rest)
    ensures EncodeValue(v) != [] && !IsWhitespace(EncodeValue(v)[0])
    ensures ParseValue(EncodeValue(v) + rest) == Some((v, rest))
  {
    match v
    case JString(str) =>
      ParseStringRoundTrip(str, rest);
      assert EncodeValue(v) + rest == "\"" + Escape(str) + "\"" + rest;
    case JNumber(n) =>
      ParseNumberRoundTrip(n, rest);
      var s := NumberText(n) + rest;
      assert s[0] == '-' || IsDigit(s[0]);
  }

  /** How the member parser reads a name, a colon and a value text. */
  lemma {:induction false} ParseMemberOf(s: string, name: string, after: string, v: Value, rest: string)
    requires ParseString(s) == Some((name, after))
    requires after != [] && after[0] == ':'
    requires after[1..] != [] && !IsWhitespace(after[1..][0])
    requires ParseValue(after[1..]) == Some((v, rest))
    ensures ParseMember(s) == Some((Member(name, v), rest))
  {
  }

  lemma {:induction false} ParseMemberRoundTrip(m: Member, rest: string)
    requires Delimited(rest)
    ensures ParseMember(EncodeMember(m) + rest) == Some((m, rest))
  {
    var ev := EncodeValue(m.value);
    var after := ":" + ev + rest;
    MemberTextSplit(Escape(m.name), ev, rest);
    ParseStringRoundTrip(m.name, after);
    ParseValueRoundTrip(m.value, rest);
    ParseMemberOf(EncodeMember(m) + rest, m.name, after, m.value, rest);
  }

  /** The text of a member, cut after the name's closing quotation mark. */
  lemma {:induction false} MemberTextSplit(q: string, ev: string, rest: string)
    ensures "\"" + q + "\":" + ev + rest == "\"" + q + "\"" + (":" + ev + rest)
    ensures (":" + ev + rest)[0] == ':' && (":" + ev + rest)[1..] == ev + rest
  {
  }

  lemma {:induction false} ParseMembersLast(s: string, m: Member, tail: string)
    requires ParseMember(s) == Some((m, tail))
    requires tail != [] && tail[0] == '}'
    ensures ParseMembers(s) == Some(([m], tail[1..]))
  {
    assert SkipWs(tail) == tail;
  }

  lemma {:induction false} ParseMembersMore(s: string, m: Member, tail: string, ms: seq<Member>, rest: string)
    requires ParseMember(s) == Some((m, tail))
    requires tail != [] && tail[0] == ','
    requires ParseMembers(SkipWs(tail[1..])) == Some((ms, rest))
    ensures ParseMembers(s) == Some(([m] + ms, rest))
  {
    assert SkipWs(tail) == tail;
    assert ParseMoreMembers(m, tail) == Some(([m] + ms, rest));
  }

  lemma {:induction false} Assoc(a: string, b: string, c: string)
    ensures (a + b) + c == a + (b + c)
  {
  }

  lemma {:induction false} EncodeMembersFirst(ms: seq<Member>, rest: string)
    requires |ms| >= 1
    ensures |ms| == 1 ==> EncodeMembers(ms) + "}" + rest == EncodeMember(ms[0]) + ("}" + rest)
    ensures |ms| > 1 ==> EncodeMembers(ms) + "}" + rest
                          == EncodeMember(ms[0]) + ("," + (EncodeMembers(ms[1..]) + "}" + rest))
  {
    var e := EncodeMember(ms[0]);
    if |ms| == 1 {
      Assoc(e, "}", rest);
    } else {
      var r := EncodeMembers(ms[1..]);
      assert EncodeMembers(ms) == e + "," + r;
      Assoc(e + ",", r, "}");
      Assoc(e + ",", r + "}", rest);
      Assoc(e, ",", (r + "}") + rest);
    }
  }

  lemma {:induction false} ParseOneMember(ms: seq<Member>, rest: string)
    requires |ms| == 1
    ensures ParseMembers(EncodeMembers(ms) + "}" + rest) == Some((ms, rest))
  {
    EncodeMembersFirst(ms, rest);
    var tail := "}" + rest;
    ParseMemberRoundTrip(ms[0], tail);
    assert tail[1..] == rest;
    ParseMembersLast(EncodeMember(ms[0]) + tail, ms[0], tail);
    assert [ms[0]] == ms;
  }

  lemma {:induction false} ParseFirstMember(ms: seq<Member>, rest: string)
    requires |ms| > 1
    requires ParseMembers(EncodeMembers(ms[1..]) + "}" + rest) == Some((ms[1..], rest))
    ensures ParseMembers(EncodeMembers(ms) + "}" + rest) == Some((ms, rest))
  {
    EncodeMembersFirst(ms, rest);
    var inner := EncodeMembers(ms[1..]) + "}" + rest;
    assert inner != [] && inner[0] == '"' by {
      EncodeMembersOpens(ms[1..]);
    }
    CommaThen(inner);
    ParseMemberRoundTrip(ms[0], "," + inner);
    ParseMembersAfterComma(EncodeMember(ms[0]), ms[0], inner, ms[1..], rest);
    assert [ms[0]] + ms[1..] == ms;
  }

  lemma {:induction false} ParseMembersAfterComma(e: string, m: Member, inner: string, more: seq<Member>, rest: string)
    requires inner != [] && inner[0] == '"'
    requires ParseMember(e + ("," + inner)) == Some((m, "," + inner))
    requires ParseMembers(inner) == Some((more, rest))
    ensures ParseMembers(e + ("," + inner)) == Some(([m] + more, rest))
  {
    CommaThen(inner);
    ParseMembersMore(e + ("," + inner), m, "," + inner, more, rest);
  }

  /** A comma followed by the next member's text. */
  lemma {:induction false} CommaThen(inner: string)
    requires inner != [] && inner[0] == '"'
    ensures var tail := "," + inner;
      tail != [] && tail[0] == ',' && Delimited(tail) && SkipWs(tail[1..]) == inner
  {
    var tail := "," + inner;
    assert tail[1..] == inner;
    assert !IsWhitespace(inner[0]);
  }

  lemma {:induction false} ParseMembersRoundTrip(ms: seq<Member>, rest: string)
    requires |ms| >= 1
    ensures ParseMembers(EncodeMembers(ms) + "}" + rest) == Some((ms, rest))
    decreases |ms|
  {
    if |ms| == 1 {
      ParseOneMember(ms, rest);
    } else {
      ParseMembersRoundTrip(ms[1..], rest);
      ParseFirstMember(ms, rest);
    }
  }

  /** Decoding the encoding of any object gives back the same members, in
      the same order. */
  lemma {:induction false} DecodeEncodeObject(ms: seq<Member>)
    ensures DecodeObject(EncodeObject(ms)) == Some(ms)
  {
    if ms == [] {
      ParseEmptyObject();
    } else {
      var inner := EncodeMembers(ms) + "}" + [];
      EncodeMembersOpens(ms);
      assert EncodeObject(ms) == "{" + inner;
      ParseMembersRoundTrip(ms, []);
      ParseObjectOf(inner, ms, []);
    }
  }

  lemma {:induction false} ParseEmptyObject()
    ensures ParseObject("{}") == Some(([], []))
  {
    var e := "{}";
    assert e[0] == '{' && !IsWhitespace(e[0]);
    assert SkipWs(e) == e;
    var u := e[1..];
    assert u == "}" && !IsWhitespace(u[0]);
    assert SkipWs(u) == u;
    assert u[1..] == [];
  }

  /** The members' text starts with the first name's quotation mark. */
  lemma {:induction false} EncodeMembersOpens(ms: seq<Member>)
    requires |ms| >= 1
    ensures EncodeMembers(ms) != [] && EncodeMembers(ms)[0] == '"'
  {
    var e := EncodeMember(ms[0]);
    assert e[0] == '"';
  }

  lemma {:induction false} ParseObjectOf(inner: string, ms: seq<Member>, rest: string)
    requires inner != [] && inner[0] == '"'
    requires ParseMembers(inner) == Some((ms, rest))
    ensures ParseObject("{" + inner) == Some((ms, rest))
  {
    var s := "{" + inner;
    assert SkipWs(s) == s;
    assert s[1..] == inner;
    assert SkipWs(inner) == inner;
  }
}
