/** Instants seen from Armenia: the day and month they fall in, the instant a booking starts, and the
    two questions the program answers by comparing date keys as strings. */
module ArmeniaTime {
  import opened Wrappers
  import opened Calendar
  import opened BookingDateTime

  datatype Interval = Interval(start: int, end: int)

  predicate Within(t: int, bounds: Interval) { bounds.start <= t < bounds.end }

  /** The calendar date in Armenia at an instant. */
  function ArmeniaDate(t: int): (c: Civil)
    ensures IsCivil(c)
  {
    CivilFromDay(Day(t + OFFSET_MS))
  }

  /** `getArmeniaDateKey` */
  function GetArmeniaDateKey(t: int): string { FormatKey(ArmeniaDate(t)) }

  /** `getArmeniaMinutesOfDay`, from the UTC hours and minutes. */
  function GetArmeniaMinutesOfDay(t: int): int {
    (t / 3600000 % 24 * 60 + t / MS_PER_MINUTE % 60 + 240) % (24 * 60)
  }

  /** `Date.UTC(year, month, day)` */
  function DateUtc(year: int, month: int, day: int): int {
    MakeDay(MakeFullYear(year), month, day) * MS_PER_DAY
  }

  /** `getArmeniaDayBounds` */
  function GetArmeniaDayBounds(key: string): Option<Interval> {
    if !IsDateKey(key) then None else
      var c := ParseKey(key);
      var start := DateUtc(c.year, c.month - 1, c.day) - OFFSET_MS;
      Some(Interval(start, start + 24 * 60 * 60 * 1000))
  }

  /** How `split("-")` cuts the key of any date: the sign of a negative year makes an empty piece. */
  lemma SplitKey(c: Civil)
    requires IsCivil(c)
    ensures Split(FormatKey(c), '-') ==
      (if c.year < 0 then ["", Digits(-c.year)] else [Digits(c.year)]) + [Padded(c.month), Padded(c.day)]
  {
    hide Digits, Padded, Split;
    var year, month, day := Digits(if c.year < 0 then -c.year else c.year), Padded(c.month), Padded(c.day);
    var tail := month + "-" + day;
    SplitFirst(month, day, '-');
    SplitLast(day, '-');
    SplitFirst(year, tail, '-');
    if c.year < 0 {
      SplitFirst("", year + "-" + tail, '-');
      assert FormatKey(c) == "" + "-" + (year + "-" + tail);
    } else {
      assert FormatKey(c) == year + "-" + tail;
    }
  }

  /** `getArmeniaMonthBounds` */
  function GetArmeniaMonthBounds(t: int): Interval {
    SplitKey(ArmeniaDate(t));
    var parts := Split(GetArmeniaDateKey(t), '-');
    var year, month := Number(parts[0]), Number(parts[1]);
    Interval(DateUtc(year, month - 1, 1) - OFFSET_MS, DateUtc(year, month, 1) - OFFSET_MS)
  }

  /** `getBookingDateTime`: the text `<date>T<time>:00+04:00` read as an instant. */
  function GetBookingDateTime(date: string, time: string): Option<int> {
    if !IsDateKey(date) || !IsTimeKey(time) then None
    else Some(DayOf(ParseKey(date)) * MS_PER_DAY + TimeToMinutes(time).value * MS_PER_MINUTE - OFFSET_MS)
  }

  /** `isPastBookingTime` of `bookingUtils.js`, which reads the clock twice. */
  predicate IsPastBookingTime(date: string, time: string, now: int, later: int) {
    var today := GetArmeniaDateKey(now);
    if StringLess(date, today) then true
    else if StringLess(today, date) then false
    else
      var slot := TimeToMinutes(time);
      slot.Some? && slot.value <= GetArmeniaMinutesOfDay(later)
  }

  /** `isBeyondBookingHorizon` */
  predicate IsBeyondBookingHorizon(date: string, now: int) {
    && MatchesDatePattern(date)
    && (SplitKey(ArmeniaDate(now));
        var today := Split(GetArmeniaDateKey(now), '-');
        var year, month, day := Number(today[0]), Number(today[1]), Number(today[2]);
        var maxKey := GetArmeniaDateKey(DateUtc(year, month - 1, day + MAX_BOOKING_HORIZON_DAYS));
        StringLess(maxKey, date))
  }

  // ----- Days -----

  /** The instants of a day number, in Armenia. */
  lemma DayInstants(t: int, d: int)
    ensures Day(t + OFFSET_MS) == d <==> d * MS_PER_DAY - OFFSET_MS <= t < (d + 1) * MS_PER_DAY - OFFSET_MS
  {
  }

  lemma DayBoundsOfKey(key: string)
    requires IsDateKey(key)
    ensures var start := DayOf(ParseKey(key)) * MS_PER_DAY - OFFSET_MS;
      GetArmeniaDayBounds(key) == Some(Interval(start, start + MS_PER_DAY))
  {
    hide MakeDay, CivilFromDay, FormatKey;
    DateKeysAreDates(key, ParseKey(key));
  }

  /** An instant has a date key exactly when its Armenian year is one of 1000 to 9999; then the day's
      bounds are 24 hours that hold the instant. */
  lemma DayBoundsContainInstant(t: int)
    ensures GetArmeniaDayBounds(GetArmeniaDateKey(t)).Some? <==> 1000 <= ArmeniaDate(t).year <= 9999
    ensures var bounds := GetArmeniaDayBounds(GetArmeniaDateKey(t));
      bounds.Some? ==> Within(t, bounds.value) && bounds.value.end - bounds.value.start == MS_PER_DAY
  {
    hide MakeDay, IsCivil, CivilFromDay, FormatKey, ParseKey;
    var c, key := ArmeniaDate(t), GetArmeniaDateKey(t);
    FormatMatches(c);
    DateKeysAreDates(key, c);
    if IsDateKey(key) {
      DayBoundsOfKey(key);
      CivilFromDayIsRight(Day(t + OFFSET_MS));
      DayInstants(t, DayOf(c));
    }
  }

  /** Exactly the instants within a key's bounds have that key. */
  lemma DayBoundsMapBack(key: string, t: int)
    requires IsDateKey(key)
    ensures GetArmeniaDayBounds(key).Some?
    ensures GetArmeniaDayBounds(key).value.start == DayOf(ParseKey(key)) * 86_400_000 - 14_400_000
    ensures Within(t, GetArmeniaDayBounds(key).value) <==> GetArmeniaDateKey(t) == key
  {
    hide MakeDay, IsCivil, CivilFromDay, FormatKey;
    var c := ParseKey(key);
    DateKeysAreDates(key, c);
    DayBoundsOfKey(key);
    DayInstants(t, DayOf(c));
    CivilOfDayOf(c);
    CivilFromDayIsRight(Day(t + OFFSET_MS));
    if GetArmeniaDateKey(t) == key {
      FormatMatches(ArmeniaDate(t));
    }
  }

  // ----- Months -----

  function MonthStart(year: int, month: int): int { MakeDay(year, month, 1) * MS_PER_DAY - OFFSET_MS }

  lemma MonthDays(c: Civil)
    requires IsCivil(c)
    ensures MakeDay(c.year, c.month - 1, 1) <= DayOf(c) < MakeDay(c.year, c.month, 1)
  {
    hide DayFromYear, IsLeap;
    DayWithinYear(c);
    if c.month == 12 {
      NextYear(c.year);
    }
  }

  lemma MonthBoundsRead(t: int)
    ensures var c, bounds := ArmeniaDate(t), GetArmeniaMonthBounds(t);
      && (c.year >= 100 ==> bounds == Interval(MonthStart(c.year, c.month - 1), MonthStart(c.year, c.month)))
      && (0 <= c.year < 100 ==>
            bounds == Interval(MonthStart(1900 + c.year, c.month - 1), MonthStart(1900 + c.year, c.month)))
      && (c.year < 0 ==> bounds.start == MonthStart(1900, -c.year - 1))
  {
    hide MakeDay, CivilFromDay, FormatKey, Split;
    SplitKey(ArmeniaDate(t));
  }

  /** An instant of a year lies before every instant of a later year. */
  lemma InstantBeforeYear(t: int, year: int)
    requires ArmeniaDate(t).year < year
    ensures t < DayFromYear(year) * MS_PER_DAY - OFFSET_MS
  {
    hide MakeDay, CivilFromDay, IsCivil, DayFromYear;
    var c := ArmeniaDate(t);
    CivilFromDayIsRight(Day(t + OFFSET_MS));
    DayWithinYear(c);
    DayInstants(t, DayOf(c));
    if c.year + 1 < year { YearsIncrease(c.year + 1, year); }
  }

  lemma MonthOfInstant(t: int)
    ensures var c := ArmeniaDate(t); MonthStart(c.year, c.month - 1) <= t < MonthStart(c.year, c.month)
  {
    hide MakeDay, CivilFromDay, IsCivil;
    var c := ArmeniaDate(t);
    CivilFromDayIsRight(Day(t + OFFSET_MS));
    MonthDays(c);
    DayInstants(t, DayOf(c));
  }

  lemma MonthStartsLate(year: int, month: int, before: int)
    requires month >= 0 && before <= year
    ensures MonthStart(year, month) >= DayFromYear(before) * MS_PER_DAY - OFFSET_MS
  {
    hide DayFromYear, IsLeap;
    var y, m := year + month / 12, month % 12;
    if before < y {
      YearsIncrease(before, y);
    }
  }

  /** The month's bounds hold the instant exactly when its Armenian year is 100 or later: the two-digit
      years are taken for years of the twentieth century, and negative ones are misread. */
  lemma MonthBoundsContainInstant(t: int)
    ensures Within(t, GetArmeniaMonthBounds(t)) <==> ArmeniaDate(t).year >= 100
  {
    hide CivilFromDay, MonthStart, GetArmeniaMonthBounds, DayFromYear;
    var c := ArmeniaDate(t);
    MonthBoundsRead(t);
    MonthOfInstant(t);
    if 0 <= c.year < 100 {
      InstantBeforeYear(t, 1900 + c.year);
      MonthStartsLate(1900 + c.year, c.month - 1, 1900 + c.year);
    } else if c.year < 0 {
      InstantBeforeYear(t, 1900);
      MonthStartsLate(1900, -c.year - 1, 1900);
    }
  }

  /** The first day of a month; month 12 is the next January. */
  function FirstDay(year: int, month: int): Civil {
    if month == 12 then Civil(year + 1, 1, 1) else Civil(year, month + 1, 1)
  }

  lemma FirstOfMonth(year: int, month: int)
    requires 0 <= month <= 12
    ensures IsCivil(FirstDay(year, month))
    ensures MonthStart(year, month) == DayOf(FirstDay(year, month)) * MS_PER_DAY - OFFSET_MS
    ensures ArmeniaDate(MonthStart(year, month)) == FirstDay(year, month)
  {
    hide CivilFromDay, DayFromYear, IsLeap;
    CivilOfDayOf(FirstDay(year, month));
  }

  /** The instants between two consecutive month starts share their year and month. */
  lemma SameMonth(t: int, u: int)
    requires var c := ArmeniaDate(t); MonthStart(c.year, c.month - 1) <= u < MonthStart(c.year, c.month)
    ensures ArmeniaDate(u).year == ArmeniaDate(t).year && ArmeniaDate(u).month == ArmeniaDate(t).month
  {
    hide CivilFromDay, MakeDay, MonthStart, DayOf;
    var c, e := ArmeniaDate(t), ArmeniaDate(u);
    MonthOfInstant(u);
    FirstOfMonth(c.year, c.month - 1);
    FirstOfMonth(c.year, c.month);
    FirstOfMonth(e.year, e.month - 1);
    FirstOfMonth(e.year, e.month);
    DateOrderIsDayOrder(FirstDay(c.year, c.month - 1), FirstDay(e.year, e.month));
    DateOrderIsDayOrder(FirstDay(e.year, e.month - 1), FirstDay(c.year, c.month));
  }

  /** The months tile time: the bounds of an instant are those of every instant within them, and the
      month after starts where this one ends. */
  lemma MonthsTileTime(t: int, u: int)
    requires ArmeniaDate(t).year >= 100
    ensures Within(u, GetArmeniaMonthBounds(t)) ==> GetArmeniaMonthBounds(u) == GetArmeniaMonthBounds(t)
    ensures GetArmeniaMonthBounds(GetArmeniaMonthBounds(t).end).start == GetArmeniaMonthBounds(t).end
  {
    hide CivilFromDay, MonthStart, GetArmeniaMonthBounds;
    var c := ArmeniaDate(t);
    MonthBoundsRead(t);
    if Within(u, GetArmeniaMonthBounds(t)) {
      SameMonth(t, u);
      MonthBoundsRead(u);
    }
    var next := GetArmeniaMonthBounds(t).end;
    FirstOfMonth(c.year, c.month);
    FirstOfMonth(ArmeniaDate(next).year, 0);
    MonthBoundsRead(next);
  }

  // ----- Bookings against the clock -----

  /** Whether a booking's start, given as a day number and a minute, has come. */
  predicate Started(day: int, minute: int, t: int) {
    day * MS_PER_DAY + minute * MS_PER_MINUTE - OFFSET_MS <= t
  }

  /** Hours and minutes of a count of minutes make the minute of its day. */
  lemma HoursAndMinutes(q: int)
    ensures q / 60 % 24 * 60 + q % 60 == q % 1440
  {
    var h := q / 60;
    assert q == 60 * (24 * (h / 24) + h % 24) + q % 60;
    assert 0 <= h % 24 * 60 + q % 60 < 1440;
    SameRemainder(q, h / 24, h % 24 * 60 + q % 60);
  }

  lemma SameRemainder(q: int, days: int, rest: int)
    requires q == 1440 * days + rest && 0 <= rest < 1440
    ensures q / 1440 == days && q % 1440 == rest
  {
  }

  lemma HoursOfMinutes(t: int)
    ensures t / 3600000 == t / MS_PER_MINUTE / 60
  {
  }

  /** The minutes of an instant, and those of its Armenian day. */
  lemma ShiftedMinutes(t: int)
    ensures (t + OFFSET_MS) / MS_PER_MINUTE == t / MS_PER_MINUTE + 240
  {
  }

  lemma MinutesOfDay(u: int)
    ensures (u - Day(u) * MS_PER_DAY) / MS_PER_MINUTE == u / MS_PER_MINUTE % 1440
  {
    var rest := u - Day(u) * MS_PER_DAY;
    assert 0 <= rest < MS_PER_DAY;
    assert u / MS_PER_MINUTE == 1440 * Day(u) + rest / MS_PER_MINUTE;
    SameRemainder(u / MS_PER_MINUTE, Day(u), rest / MS_PER_MINUTE);
  }

  lemma RemainderOfSum(q: int)
    ensures (q % 1440 + 240) % 1440 == (q + 240) % 1440
  {
  }

  /** The minute of day that `getArmeniaMinutesOfDay` computes from UTC fields. */
  lemma MinutesSinceMidnight(t: int)
    ensures GetArmeniaMinutesOfDay(t) == (t + OFFSET_MS - Day(t + OFFSET_MS) * MS_PER_DAY) / MS_PER_MINUTE
    ensures 0 <= GetArmeniaMinutesOfDay(t) < 24 * 60
  {
    hide Day;
    var q := t / MS_PER_MINUTE;
    HoursOfMinutes(t);
    HoursAndMinutes(q);
    RemainderOfSum(q);
    ShiftedMinutes(t);
    MinutesOfDay(t + OFFSET_MS);
  }

  /** In numbers: Armenia is 14,400,000 milliseconds ahead of UTC, and a booking starts at its minute of its
      day there. */
  lemma BookingInstant(date: string, time: string, t: int)
    ensures GetBookingDateTime(date, time).Some? <==> IsDateKey(date) && TimeToMinutes(time).Some?
    ensures GetBookingDateTime(date, time).Some? ==>
      GetBookingDateTime(date, time).value ==
        DayOf(ParseKey(date)) * 86_400_000 + TimeToMinutes(time).value * 60_000 - 14_400_000
    ensures GetArmeniaMinutesOfDay(t) == (t + 14_400_000) % 86_400_000 / 60_000
  {
    hide DayOf, IsDateKey, GetArmeniaMinutesOfDay, ParseKey, IsTimeKey;
    MinutesSinceMidnight(t);
    DayAndRest(t + OFFSET_MS);
  }

  lemma DayAndRest(u: int)
    ensures u - Day(u) * MS_PER_DAY == u % 86_400_000
  {
  }

  lemma StartedByParts(day: int, minute: int, t: int)
    requires 0 <= minute < 24 * 60
    ensures var today := Day(t + OFFSET_MS);
      Started(day, minute, t) <==> day < today || (day == today && minute <= GetArmeniaMinutesOfDay(t))
  {
    hide GetArmeniaMinutesOfDay;
    MinutesSinceMidnight(t);
  }

  /** A key against the key of an instant. */
  lemma KeyAgainstInstant(date: string, t: int)
    requires IsDateKey(date) && IsDateKey(GetArmeniaDateKey(t))
    ensures var day, today, key := DayOf(ParseKey(date)), Day(t + OFFSET_MS), GetArmeniaDateKey(t);
      && (StringLess(date, key) <==> day < today) && (StringLess(key, date) <==> today < day)
  {
    hide CivilFromDay, FormatKey, DayOf, StringLess;
    KeyOrderIsDayOrder(date, GetArmeniaDateKey(t));
    KeyOrderIsDayOrder(GetArmeniaDateKey(t), date);
    DayBoundsContainInstant(t);
    DateKeysAreDates(date, ArmeniaDate(t));
    CivilFromDayIsRight(Day(t + OFFSET_MS));
  }

  /** `isPastBookingTime` in terms of days and minutes, for its two readings of the clock. */
  lemma PastByParts(date: string, time: string, now: int, later: int)
    requires IsDateKey(date) && IsTimeKey(time) && IsDateKey(GetArmeniaDateKey(now))
    ensures var day, minute, today := DayOf(ParseKey(date)), TimeToMinutes(time).value, Day(now + OFFSET_MS);
      && GetBookingDateTime(date, time) == Some(day * MS_PER_DAY + minute * MS_PER_MINUTE - OFFSET_MS)
      && (IsPastBookingTime(date, time, now, later) <==>
            day < today || (day == today && minute <= GetArmeniaMinutesOfDay(later)))
  {
    hide CivilFromDay, FormatKey, DayOf, StringLess, GetArmeniaMinutesOfDay, GetArmeniaDateKey;
    KeyAgainstInstant(date, now);
  }

  /** With one reading of the clock, a booking time counts as past exactly when its instant has come. */
  lemma PastIsStarted(date: string, time: string, now: int)
    requires IsDateKey(date) && IsTimeKey(time) && IsDateKey(GetArmeniaDateKey(now))
    ensures GetBookingDateTime(date, time).Some?
    ensures IsPastBookingTime(date, time, now, now) <==> GetBookingDateTime(date, time).value <= now
  {
    hide GetArmeniaMinutesOfDay, GetArmeniaDateKey, IsPastBookingTime, DayOf;
    PastByParts(date, time, now, now);
    StartedByParts(DayOf(ParseKey(date)), TimeToMinutes(time).value, now);
  }

  /** The answer lies between the truths at the two readings. */
  predicate BetweenReadings(date: string, time: string, now: int, later: int) {
    var start := GetBookingDateTime(date, time);
    && start.Some?
    && (start.value <= now ==> IsPastBookingTime(date, time, now, later))
    && (IsPastBookingTime(date, time, now, later) ==> start.value <= later)
  }

  lemma AnswerBetweenReadings(date: string, time: string, now: int, later: int)
    requires IsDateKey(date) && IsTimeKey(time) && IsDateKey(GetArmeniaDateKey(now))
    requires now <= later && GetArmeniaMinutesOfDay(now) <= GetArmeniaMinutesOfDay(later)
    ensures BetweenReadings(date, time, now, later)
  {
    hide GetArmeniaMinutesOfDay, GetArmeniaDateKey, IsPastBookingTime, DayOf, GetBookingDateTime;
    PastByParts(date, time, now, later);
    StartedByParts(DayOf(ParseKey(date)), TimeToMinutes(time).value, now);
    StartedByParts(DayOf(ParseKey(date)), TimeToMinutes(time).value, later);
  }

  /** The code's two readings are harmless for every booking exactly when the minute of the day has not
      gone back between them. When it has, midnight has passed, and a time of the old day that had come
      counts as still ahead. */
  lemma TwoReadings(now: int, later: int)
    requires now <= later && IsDateKey(GetArmeniaDateKey(now))
    ensures (forall date, time :: IsDateKey(date) && IsTimeKey(time) ==> BetweenReadings(date, time, now, later))
            <==> GetArmeniaMinutesOfDay(now) <= GetArmeniaMinutesOfDay(later)
  {
    hide GetArmeniaMinutesOfDay, GetArmeniaDateKey, IsPastBookingTime, DayOf, IsDateKey, IsTimeKey, GetBookingDateTime;
    var minute := GetArmeniaMinutesOfDay(now);
    if minute <= GetArmeniaMinutesOfDay(later) {
      forall date, time | IsDateKey(date) && IsTimeKey(time) ensures BetweenReadings(date, time, now, later) {
        AnswerBetweenReadings(date, time, now, later);
      }
    } else {
      MinutesSinceMidnight(now);
      var date, time := GetArmeniaDateKey(now), MinutesToTime(minute);
      JustStarted(now, later);
      assert IsDateKey(date) && IsTimeKey(time) && !BetweenReadings(date, time, now, later);
    }
  }

  lemma JustStarted(now: int, later: int)
    requires IsDateKey(GetArmeniaDateKey(now)) && 0 <= GetArmeniaMinutesOfDay(now) < 24 * 60
    requires GetArmeniaMinutesOfDay(later) < GetArmeniaMinutesOfDay(now)
    ensures IsTimeKey(MinutesToTime(GetArmeniaMinutesOfDay(now)))
    ensures !BetweenReadings(GetArmeniaDateKey(now), MinutesToTime(GetArmeniaMinutesOfDay(now)), now, later)
  {
    hide GetArmeniaMinutesOfDay, GetArmeniaDateKey, IsPastBookingTime, DayOf, IsDateKey, MinutesToTime, StringLess;
    var minute, date := GetArmeniaMinutesOfDay(now), GetArmeniaDateKey(now);
    TimeKeysAreMinutes(minute, "");
    PastByParts(date, MinutesToTime(minute), now, later);
    StringLessTrichotomy(date, date);
    KeyAgainstInstant(date, now);
    StartedByParts(Day(now + OFFSET_MS), minute, now);
  }

  // ----- The horizon -----

  /** The last calendar date the horizon allows. */
  function LastDate(now: int): (c: Civil)
    ensures IsCivil(c)
  {
    CivilFromDay(Day(now + OFFSET_MS) + MAX_BOOKING_HORIZON_DAYS)
  }

  lemma DaysAhead(c: Civil, days: int)
    requires IsCivil(c) && c.year >= 100
    ensures ArmeniaDate(DateUtc(c.year, c.month - 1, c.day + days)) == CivilFromDay(DayOf(c) + days)
  {
    hide CivilFromDay, DayFromYear, DaysBefore;
    var d := MakeDay(c.year, c.month - 1, c.day + days);
    assert d == DayOf(c) + days;
    assert Day(d * MS_PER_DAY + OFFSET_MS) == d;
  }

  lemma HorizonKey(date: string, now: int)
    requires ArmeniaDate(now).year >= 100
    ensures IsBeyondBookingHorizon(date, now) <==>
      MatchesDatePattern(date) && StringLess(FormatKey(LastDate(now)), date)
  {
    hide CivilFromDay, FormatKey, Split, StringLess, DateUtc, MatchesDatePattern, Number, Digits, Padded, Day, DayOf,
      IsCivil;
    var c := ArmeniaDate(now);
    SplitKey(c);
    CivilFromDayIsRight(Day(now + OFFSET_MS));
    DaysAhead(c, MAX_BOOKING_HORIZON_DAYS);
  }

  lemma HorizonWithin(date: string, now: int)
    requires ArmeniaDate(now).year >= 1000 && LastDate(now).year <= 9999 && IsDateKey(date)
    ensures IsBeyondBookingHorizon(date, now) <==>
      DayOf(ParseKey(date)) > Day(now + OFFSET_MS) + MAX_BOOKING_HORIZON_DAYS
  {
    hide CivilFromDay, FormatKey, StringLess, IsBeyondBookingHorizon, DayOf, DayFromYear;
    HorizonKey(date, now);
    var today, last := ArmeniaDate(now), LastDate(now);
    CivilFromDayIsRight(Day(now + OFFSET_MS));
    CivilFromDayIsRight(Day(now + OFFSET_MS) + MAX_BOOKING_HORIZON_DAYS);
    DateOrderIsDayOrder(today, last);
    DateKeysAreDates(date, last);
    KeyOrderIsDayOrder(FormatKey(last), date);
  }

  /** A year of five digits sorts before the years it follows. */
  lemma LongYearSortsFirst(c: Civil)
    requires IsCivil(c) && c.year == 10000
    ensures HasKey(Civil(9999, 12, 31)) && StringLess(FormatKey(c), FormatKey(Civil(9999, 12, 31)))
  {
    assert Digits(10) == "10";
    assert Digits(100) == "100";
    assert Digits(1000) == "1000";
    assert Digits(10000) == "10000";
    assert Digits(99) == "99";
    assert Digits(999) == "999";
    assert Digits(9999) == "9999";
    assert FormatKey(c)[0] == '1' && FormatKey(Civil(9999, 12, 31))[0] == '9';
  }

  lemma HorizonPastLastKey(now: int)
    requires 1000 <= ArmeniaDate(now).year <= 9999 && LastDate(now).year > 9999
    ensures var date := FormatKey(Civil(9999, 12, 31));
      && IsDateKey(date) && IsBeyondBookingHorizon(date, now)
      && DayOf(ParseKey(date)) <= Day(now + OFFSET_MS) + MAX_BOOKING_HORIZON_DAYS
  {
    hide CivilFromDay, FormatKey, StringLess, IsBeyondBookingHorizon, DayFromYear, MakeDay;
    var c, last, end := ArmeniaDate(now), LastDate(now), Civil(9999, 12, 31);
    CivilFromDayIsRight(Day(now + OFFSET_MS));
    CivilFromDayIsRight(Day(now + OFFSET_MS) + MAX_BOOKING_HORIZON_DAYS);
    DayWithinYear(c);
    DayWithinYear(last);
    NextYear(10000);
    if last.year > 10001 { YearsIncrease(10001, last.year); }
    if c.year < 9999 { YearsIncrease(c.year + 1, 10000); }
    LongYearSortsFirst(last);
    LaterDateLaterDay(end, last);
    DateKeysAreDates(FormatKey(end), end);
    HorizonKey(FormatKey(end), now);
  }

  /** From a day of the years 1000 to 9999, a date lies beyond the horizon exactly when its day number
      exceeds today's by more than 180, for every date key, if and only if the horizon's last day still
      has a key, that is, a year of four digits. */
  lemma HorizonIsExact(now: int)
    requires 1000 <= ArmeniaDate(now).year <= 9999
    ensures (forall date :: IsDateKey(date) ==>
              (IsBeyondBookingHorizon(date, now) <==>
                DayOf(ParseKey(date)) > Day(now + 14_400_000) + 180))
            <==> LastDate(now).year <= 9999
  {
    hide CivilFromDay, FormatKey, StringLess, IsBeyondBookingHorizon, DayOf;
    if LastDate(now).year <= 9999 {
      forall date | IsDateKey(date)
        ensures IsBeyondBookingHorizon(date, now) <==>
          DayOf(ParseKey(date)) > Day(now + 14_400_000) + 180
      {
        HorizonWithin(date, now);
      }
    } else {
      HorizonPastLastKey(now);
    }
  }
}
