/** The civil-time helpers of `bookingDateTime.js`: date keys `YYYY-MM-DD`, time keys `HH:MM`, and the
    bounds and comparisons built on them. Armenia is four hours ahead of UTC all year. */
module BookingDateTime {
  import opened Wrappers
  import opened Calendar

  const OFFSET_MS := 4 * 60 * MS_PER_MINUTE
  const MAX_BOOKING_HORIZON_DAYS := 180

  // ----- Decimal text -----

  predicate IsDigit(c: char) { '0' <= c <= '9' }

  predicate AllDigits(s: string) { forall i :: 0 <= i < |s| ==> IsDigit(s[i]) }

  function DigitOf(n: int): (c: char)
    requires 0 <= n <= 9
    ensures IsDigit(c) && ValueOf(c) == n
  {
    "0123456789"[n]
  }

  function ValueOf(c: char): int { c as int - '0' as int }

  /** `Number(s)` on a string of digits, the only ones that reach it; 0 on the empty string. */
  function Number(s: string): int {
    if s == "" then 0 else 10 * Number(s[..|s| - 1]) + ValueOf(s[|s| - 1])
  }

  /** `String(n)` of a natural number. */
  function Digits(n: nat): (s: string)
    ensures AllDigits(s) && s != "" && Number(s) == n
  {
    if n < 10 then [DigitOf(n)] else
      var front, last := Digits(n / 10), [DigitOf(n % 10)];
      assert (front + last)[..|front|] == front;
      front + last
  }

  /** `String(n)` of an integer. */
  function Text(n: int): string { if n < 0 then "-" + Digits(-n) else Digits(n) }

  /** `String(n).padStart(2, "0")` */
  function Padded(n: nat): (s: string)
    ensures AllDigits(s) && |s| >= 2 && Number(s) == n
    ensures n < 100 ==> |s| == 2
  {
    assert n < 100 ==> Digits(n / 10) == [DigitOf(n / 10)];
    assert Number("0") == 0;
    if n < 10 then
      var s := ['0', DigitOf(n)];
      assert s[..1] == "0";
      s
    else Digits(n)
  }

  /** `s.split(separator)` */
  function Split(s: string, separator: char): (parts: seq<string>)
    ensures |parts| >= 1
  {
    if s == "" then [""]
    else
      var rest := Split(s[1..], separator);
      if s[0] == separator then [""] + rest else [[s[0]] + rest[0]] + rest[1..]
  }

  lemma {:induction false} SplitFirst(field: string, rest: string, separator: char)
    requires separator !in field
    ensures Split(field + [separator] + rest, separator) == [field] + Split(rest, separator)
  {
    var s := field + [separator] + rest;
    if field == "" {
      assert s[1..] == rest;
    } else {
      SplitFirst(field[1..], rest, separator);
      assert s[0] == field[0] && field[0] in field && s[1..] == field[1..] + [separator] + rest;
      assert field == [field[0]] + field[1..];
    }
  }

  lemma {:induction false} SplitLast(field: string, separator: char)
    requires separator !in field
    ensures Split(field, separator) == [field]
  {
    if field != "" {
      SplitLast(field[1..], separator);
      assert field[0] in field && field == [field[0]] + field[1..];
    }
  }

  /** Text of four digits is the text of 1000 to 9999. */
  lemma FourDigits(n: nat)
    ensures |Digits(n)| == 4 <==> 1000 <= n <= 9999
  {
    assert n >= 10 ==> |Digits(n)| == 1 + |Digits(n / 10)|;
    assert n >= 100 ==> |Digits(n / 10)| == 1 + |Digits(n / 10 / 10)|;
    assert n >= 1000 ==> |Digits(n / 10 / 10)| == 1 + |Digits(n / 10 / 10 / 10)|;
    assert n >= 10000 ==> |Digits(n / 10 / 10 / 10)| == 1 + |Digits(n / 10 / 10 / 10 / 10)|;
  }

  // ----- String order of fields of fixed width -----

  lemma {:induction false} LessOfConcat(a: string, b: string, x: string, y: string)
    requires |a| == |b|
    ensures StringLess(a + x, b + y) <==> StringLess(a, b) || (a == b && StringLess(x, y))
  {
    if a == "" {
      assert a + x == x && b + y == y;
    } else {
      LessOfConcat(a[1..], b[1..], x, y);
      assert (a + x)[1..] == a[1..] + x && (b + y)[1..] == b[1..] + y;
      assert a == [a[0]] + a[1..] && b == [b[0]] + b[1..];
    }
  }

  /** On digits of one width, string order is the order of the numbers. */
  lemma {:induction false} FieldOrder(a: string, b: string)
    requires |a| == |b| && AllDigits(a) && AllDigits(b)
    ensures StringLess(a, b) <==> Number(a) < Number(b)
    ensures Number(a) == Number(b) ==> a == b
  {
    if a != "" {
      var n := |a| - 1;
      FieldOrder(a[..n], b[..n]);
      LessOfConcat(a[..n], b[..n], [a[n]], [b[n]]);
      assert a == a[..n] + [a[n]] && b == b[..n] + [b[n]];
      assert StringLess([a[n]], [b[n]]) <==> ValueOf(a[n]) < ValueOf(b[n]);
    }
  }

  // ----- Date keys -----

  /** `dateKeyPattern`: four digits, two digits and two digits, joined by dashes. */
  predicate MatchesDatePattern(s: string) {
    && |s| == 10 && s[4] == '-' && s[7] == '-'
    && AllDigits(s[..4]) && AllDigits(s[5..7]) && AllDigits(s[8..])
  }

  /** The template both `formatDateKey` and `getArmeniaDateKey` fill in; the year is not padded. */
  function FormatKey(c: Civil): string
    requires c.month >= 0 && c.day >= 0
  {
    Text(c.year) + "-" + Padded(c.month) + "-" + Padded(c.day)
  }

  lemma SplitPattern(s: string)
    requires MatchesDatePattern(s)
    ensures Split(s, '-') == [s[..4], s[5..7], s[8..]]
  {
    SplitFirst(s[..4], s[5..], '-');
    SplitFirst(s[5..7], s[8..], '-');
    SplitLast(s[8..], '-');
    assert s == s[..4] + "-" + s[5..] && s[5..] == s[5..7] + "-" + s[8..];
  }

  /** `dateKey.split("-").map(Number)` */
  function ParseKey(s: string): (c: Civil)
    requires MatchesDatePattern(s)
    ensures c == Civil(Number(s[..4]), Number(s[5..7]), Number(s[8..]))
  {
    SplitPattern(s);
    var parts := Split(s, '-');
    Civil(Number(parts[0]), Number(parts[1]), Number(parts[2]))
  }

  /** `isDateKey`: the date the numbers make formats back to the same text. */
  predicate IsDateKey(s: string) {
    && MatchesDatePattern(s)
    && var c := ParseKey(s);
       FormatKey(CivilFromDay(MakeDay(MakeFullYear(c.year), c.month - 1, c.day))) == s
  }

  /** The dates whose keys are keys. */
  predicate HasKey(c: Civil) { IsCivil(c) && 1000 <= c.year <= 9999 }

  /** Which formatted dates have the shape of a key. */
  lemma FormatMatches(c: Civil)
    requires IsCivil(c)
    ensures MatchesDatePattern(FormatKey(c)) <==> HasKey(c)
    ensures HasKey(c) ==> ParseKey(FormatKey(c)) == c
  {
    var s, year, month, day := FormatKey(c), Text(c.year), Padded(c.month), Padded(c.day);
    assert |s| == |year| + 6;
    if c.year < 0 {
      assert s[0] == '-';
      assert |s| == 10 ==> s[..4][0] == s[0];
    } else {
      FourDigits(c.year);
      if |s| == 10 {
        assert s[..4] == year && s[5..7] == month && s[8..] == day;
      }
    }
  }

  lemma FormatOfParse(s: string)
    requires MatchesDatePattern(s) && HasKey(ParseKey(s))
    ensures FormatKey(ParseKey(s)) == s
  {
    var c := ParseKey(s);
    var t := FormatKey(c);
    FormatMatches(c);
    FieldOrder(s[..4], t[..4]);
    FieldOrder(s[5..7], t[5..7]);
    FieldOrder(s[8..], t[8..]);
    assert s == s[..4] + "-" + s[5..7] + "-" + s[8..];
    assert t == t[..4] + "-" + t[5..7] + "-" + t[8..];
  }

  lemma KeyIsDate(s: string)
    requires MatchesDatePattern(s)
    ensures IsDateKey(s) <==> HasKey(ParseKey(s))
  {
    var c := ParseKey(s);
    if HasKey(c) {
      FormatOfParse(s);
      CivilOfDayOf(c);
    } else {
      FormatMatches(CivilFromDay(MakeDay(MakeFullYear(c.year), c.month - 1, c.day)));
    }
  }

  /** The date keys are the formatted dates of the years 1000 to 9999: no others, and all of those.
      Reading a key and formatting a date undo each other. */
  lemma DateKeysAreDates(s: string, c: Civil)
    ensures IsDateKey(s) <==> MatchesDatePattern(s) && HasKey(ParseKey(s))
    ensures IsDateKey(s) ==> FormatKey(ParseKey(s)) == s
    ensures HasKey(c) ==> IsDateKey(FormatKey(c)) && ParseKey(FormatKey(c)) == c
  {
    if MatchesDatePattern(s) {
      KeyIsDate(s);
      if IsDateKey(s) {
        FormatOfParse(s);
      }
    }
    if HasKey(c) {
      FormatMatches(c);
      KeyIsDate(FormatKey(c));
    }
  }

  /** String order of three joined fields of fixed width is lexicographic order of the fields. */
  lemma JoinedOrder(y: string, m: string, d: string, y': string, m': string, d': string)
    requires |y| == |y'| && |m| == |m'|
    ensures var a, b := y + ("-" + (m + ("-" + d))), y' + ("-" + (m' + ("-" + d')));
      StringLess(a, b) <==> StringLess(y, y') || (y == y' && (StringLess(m, m') || (m == m' && StringLess(d, d'))))
  {
    LessOfConcat(y, y', "-" + (m + ("-" + d)), "-" + (m' + ("-" + d')));
    LessOfConcat("-", "-", m + ("-" + d), m' + ("-" + d'));
    LessOfConcat(m, m', "-" + d, "-" + d');
    LessOfConcat("-", "-", d, d');
    StringLessTrichotomy("-", "-");
  }

  lemma KeyJoins(s: string)
    requires MatchesDatePattern(s)
    ensures s == s[..4] + ("-" + (s[5..7] + ("-" + s[8..])))
  {
  }

  lemma FieldsOrder(a: string, b: string)
    requires MatchesDatePattern(a) && MatchesDatePattern(b)
    ensures StringLess(a, b) <==> Before(ParseKey(a), ParseKey(b))
  {
    KeyJoins(a);
    KeyJoins(b);
    var y, m, d, y', m', d' := a[..4], a[5..7], a[8..], b[..4], b[5..7], b[8..];
    JoinedOrder(y, m, d, y', m', d');
    FieldOrder(y, y');
    FieldOrder(m, m');
    FieldOrder(d, d');
  }

  /** Comparing two keys as strings compares their days. */
  lemma KeyOrderIsDayOrder(a: string, b: string)
    requires IsDateKey(a) && IsDateKey(b)
    ensures StringLess(a, b) <==> DayOf(ParseKey(a)) < DayOf(ParseKey(b))
    ensures a == b <==> DayOf(ParseKey(a)) == DayOf(ParseKey(b))
  {
    DateKeysAreDates(a, ParseKey(a));
    DateKeysAreDates(b, ParseKey(b));
    FieldsOrder(a, b);
    DateOrderIsDayOrder(ParseKey(a), ParseKey(b));
    DateOrderIsDayOrder(ParseKey(b), ParseKey(a));
  }

  // ----- Time keys -----

  predicate MatchesTimePattern(s: string) {
    |s| == 5 && s[2] == ':' && AllDigits(s[..2]) && AllDigits(s[3..])
  }

  /** `isTimeKey`. The two fields of a string with the pattern are what `split(":")` gives. */
  predicate IsTimeKey(s: string) {
    && MatchesTimePattern(s)
    && 0 <= Number(s[..2]) <= 23 && 0 <= Number(s[3..]) <= 59
  }

  /** `timeToMinutes` */
  function TimeToMinutes(s: string): (minutes: Option<int>)
    ensures minutes.Some? ==> 0 <= minutes.value < 24 * 60
  {
    if IsTimeKey(s) then Some(Number(s[..2]) * 60 + Number(s[3..])) else None
  }

  /** `minutesToTime` of `barberCardAvailability.js` */
  function MinutesToTime(minutes: nat): string {
    Padded(minutes / 60) + ":" + Padded(minutes % 60)
  }

  /** Every minute of the day has one time key, and the keys sort as the minutes do. */
  lemma TimeKeysAreMinutes(m: nat, s: string)
    requires m < 24 * 60
    ensures TimeToMinutes(MinutesToTime(m)) == Some(m)
    ensures TimeToMinutes(s) == Some(m) ==> s == MinutesToTime(m)
  {
    var hour, minute := Padded(m / 60), Padded(m % 60);
    var t := MinutesToTime(m);
    assert t == hour + ":" + minute && t[..2] == hour && t[3..] == minute;
    if TimeToMinutes(s) == Some(m) {
      FieldOrder(s[..2], hour);
      FieldOrder(s[3..], minute);
      assert s == s[..2] + ":" + s[3..];
    }
  }

  lemma TimeOrderIsMinuteOrder(a: string, b: string)
    requires IsTimeKey(a) && IsTimeKey(b)
    ensures StringLess(a, b) <==> TimeToMinutes(a).value < TimeToMinutes(b).value
  {
    FieldOrder(a[..2], b[..2]);
    FieldOrder(a[3..], b[3..]);
    assert a == a[..2] + (":" + a[3..]) && b == b[..2] + (":" + b[3..]);
    LessOfConcat(a[..2], b[..2], ":" + a[3..], ":" + b[3..]);
    LessOfConcat(":", ":", a[3..], b[3..]);
  }
}
