/** The earliest free slot today, from `barberCardAvailability.js`: per context a walk along a grid of
    ten minutes, across contexts the earliest time and then the first context. */
module SlotSearch {
  import opened Wrappers
  import opened Calendar
  import opened BookingDateTime
  import opened ArmeniaTime
  import opened ScheduleUtils
  import opened BookingUtils

  const SLOT_INTERVAL := 10

  datatype Hours = Hours(startTime: string, endTime: string, hasBreak: bool, breakStart: string, breakEnd: string)

  datatype Booking = Booking(status: string, bookingDate: string, dayKey: string, time: string, duration: Num)

  /** The active flag and duration of a service; `None` stands for a missing duration. */
  datatype Service = Service(active: bool, duration: Option<Num>)

  datatype Context = Context(schedule: Option<Schedule>, salonId: Option<string>, salonName: string)

  datatype Slot = Slot(dateKey: string, time: string, salonId: Option<string>, salonName: string)

  datatype Status = Ready | Unavailable
  datatype Reason = Available | NoServices | NoAvailabilityToday | ScheduleUnavailable
  datatype Outcome = Outcome(status: Status, slot: Option<Slot>, reason: Reason)

  /** What a search is for: the day, the time now, the length of the slot and the bookings to avoid. */
  datatype Query = Query(dateKey: string, nowTime: string, duration: real, bookings: seq<Booking>)

  /** A status in `blockingBookingStatuses` after `normalizeBookingStatus`. */
  predicate Blocks(booking: Booking) {
    (if booking.status == "confirmed" then "accepted" else booking.status) in ["pending", "accepted", "confirmed"]
  }

  function DateOf(booking: Booking): string { OrElse(booking.bookingDate, booking.dayKey) }

  // ----- What a free slot is -----

  function DayOfHours(hours: Hours): DaySchedule {
    DaySchedule(true, hours.startTime, hours.endTime, hours.breakStart, hours.breakEnd)
  }

  /** The starts the search considers. */
  predicate OnGrid(hours: Hours, start: int) {
    var from, to := TimeToMinutes(hours.startTime), TimeToMinutes(hours.endTime);
    && from.Some? && to.Some? && from.value <= start < to.value
    && (start - from.value) % SLOT_INTERVAL == 0
  }

  /** A blocking booking of the day that overlaps a slot starting at `start`. */
  predicate InTheWay(q: Query, b: Booking, start: int)
    requires 0 <= start < MINUTES_PER_DAY
  {
    Blocks(b) && DateOf(b) == q.dateKey && SlotOverlaps(b.time, b.duration, MinutesToTime(start), Finite(q.duration))
  }

  /** A start is free when it is still to come, the booking validator's hours check accepts it, and no
      blocking booking of that day overlaps it. */
  predicate Free(q: Query, hours: Hours, start: int)
    requires 0 <= start < MINUTES_PER_DAY
  {
    var now := TimeToMinutes(q.nowTime);
    && (now.Some? ==> now.value < start)
    && GetScheduleSlotError(DayOfHours(hours), MinutesToTime(start), Finite(q.duration)) == ""
    && forall b :: b in q.bookings ==> !InTheWay(q, b, start)
  }

  predicate Offers(q: Query, hours: Hours, start: int) {
    OnGrid(hours, start) && Free(q, hours, start)
  }

  /** The booking is pending, accepted or confirmed, its date is the day, and its minutes, where they can be
      read, meet those of a slot from `start`. */
  predicate Meets(b: Booking, day: string, start: int, d: real) {
    && b.status in {"pending", "accepted", "confirmed"}
    && day == (if b.bookingDate != "" then b.bookingDate else b.dayKey)
    && TimeToMinutes(b.time).Some? && b.duration.Finite?
    && var from := TimeToMinutes(b.time).value as real;
       start as real < from + b.duration.value && from < start as real + d
  }

  /** What is on offer, in numbers: the starts every ten minutes from the opening on, later than now, whose
      slot has a positive length, ends by closing time, keeps clear of the break, if both its ends are times,
      and meets no booking. */
  lemma OffersInNumbers(q: Query, hours: Hours, start: int)
    ensures var from, to := TimeToMinutes(hours.startTime), TimeToMinutes(hours.endTime);
      var breakFrom, breakTo := TimeToMinutes(hours.breakStart), TimeToMinutes(hours.breakEnd);
      var now, end := TimeToMinutes(q.nowTime), start as real + q.duration;
      Offers(q, hours, start) <==>
        && from.Some? && to.Some? && from.value <= start < to.value && (start - from.value) % 10 == 0
        && (now.Some? ==> now.value < start)
        && q.duration > 0.0 && end <= to.value as real
        && (breakFrom.Some? && breakTo.Some? ==> start >= breakTo.value || end <= breakFrom.value as real)
        && forall b :: b in q.bookings ==> !Meets(b, q.dateKey, start, q.duration)
  {
    hide TimeToMinutes, MinutesToTime;
    if 0 <= start < MINUTES_PER_DAY {
      TimeKeysAreMinutes(start, "");
      forall b ensures InTheWay(q, b, start) <==> Meets(b, q.dateKey, start, q.duration) { }
    }
  }

  // ----- The search of one day -----

  /** The test inside `bookings.some(...)`. */
  predicate Hits(q: Query, b: Booking, start: int) {
    var bookingStart := TimeToMinutes(b.time);
    && Blocks(b) && DateOf(b) == q.dateKey && bookingStart.Some? && b.duration.Finite?
    && start as real < bookingStart.value as real + b.duration.value
    && start as real + q.duration > bookingStart.value as real
  }

  method IsBooked(q: Query, start: int) returns (booked: bool)
    requires 0 <= start < MINUTES_PER_DAY
    ensures booked <==> exists b :: b in q.bookings && InTheWay(q, b, start)
  {
    hide TimeToMinutes, MinutesToTime, Blocks;
    TimeKeysAreMinutes(start, "");
    for i := 0 to |q.bookings|
      invariant forall b :: b in q.bookings[..i] ==> !InTheWay(q, b, start)
    {
      if Hits(q, q.bookings[i], start) {
        assert q.bookings[i] in q.bookings && InTheWay(q, q.bookings[i], start);
        return true;
      }
    }
    return false;
  }

  /** The code's own tests of a start. */
  predicate Passes(q: Query, hours: Hours, start: int)
    requires OnGrid(hours, start)
  {
    var now, to := TimeToMinutes(q.nowTime), TimeToMinutes(hours.endTime).value;
    var breakStart, breakEnd := TimeToMinutes(hours.breakStart), TimeToMinutes(hours.breakEnd);
    var end := start as real + q.duration;
    && !(now.Some? && start <= now.value)
    && !(end > to as real)
    && !(breakStart.Some? && breakEnd.Some? && start < breakEnd.value && end > breakStart.value as real)
    && !exists b :: b in q.bookings && InTheWay(q, b, start)
  }

  /** For a slot of positive length they say what `Free` says; the validator refuses any other. */
  lemma PassesIsFree(q: Query, hours: Hours, start: int)
    requires OnGrid(hours, start)
    ensures Free(q, hours, start) <==> q.duration > 0.0 && Passes(q, hours, start)
  {
    hide TimeToMinutes, MinutesToTime, Blocks;
    TimeKeysAreMinutes(start, "");
  }

  /** `slot` is the least start on the grid that passes, or nothing when none does. */
  ghost predicate IsLeastPassing(q: Query, hours: Hours, slot: Option<string>) {
    && (slot.Some? ==>
          && TimeToMinutes(slot.value).Some? && OnGrid(hours, TimeToMinutes(slot.value).value)
          && Passes(q, hours, TimeToMinutes(slot.value).value))
    && forall start :: OnGrid(hours, start) && Passes(q, hours, start) ==>
         slot.Some? && TimeToMinutes(slot.value).value <= start
  }

  /** `slot` is the least free start on the grid, or nothing when there is none. */
  ghost predicate IsEarliest(q: Query, hours: Hours, slot: Option<string>) {
    && (slot.Some? ==> TimeToMinutes(slot.value).Some? && Offers(q, hours, TimeToMinutes(slot.value).value))
    && forall start :: Offers(q, hours, start) ==> slot.Some? && TimeToMinutes(slot.value).value <= start
  }

  /** `findSlotForDate`. With a positive duration, the only kind its callers use, it finds the least free
      start. */
  method FindSlotForDate(q: Query, hours: Hours) returns (slot: Option<string>)
    ensures IsLeastPassing(q, hours, slot)
    ensures q.duration > 0.0 ==> IsEarliest(q, hours, slot)
  {
    hide TimeToMinutes, MinutesToTime, InTheWay, Free;
    var startMin, endMin := TimeToMinutes(hours.startTime), TimeToMinutes(hours.endTime);
    var breakStart, breakEnd := TimeToMinutes(hours.breakStart), TimeToMinutes(hours.breakEnd);
    var now := TimeToMinutes(q.nowTime);
    forall start | OnGrid(hours, start) ensures Free(q, hours, start) <==> q.duration > 0.0 && Passes(q, hours, start) {
      PassesIsFree(q, hours, start);
    }
    if startMin.None? || endMin.None? || endMin.value <= startMin.value { return None; }
    var slotStart := startMin.value;
    while slotStart < endMin.value
      invariant startMin.value <= slotStart && (slotStart - startMin.value) % SLOT_INTERVAL == 0
      invariant forall start :: start < slotStart && OnGrid(hours, start) ==> !Passes(q, hours, start)
    {
      var slotEnd := slotStart as real + q.duration;
      if !(now.Some? && slotStart <= now.value) && !(slotEnd > endMin.value as real)
        && !(breakStart.Some? && breakEnd.Some? && slotStart < breakEnd.value && slotEnd > breakStart.value as real)
      {
        var isBooked := IsBooked(q, slotStart);
        if !isBooked {
          TimeKeysAreMinutes(slotStart, "");
          return Some(MinutesToTime(slotStart));
        }
      }
      slotStart := slotStart + SLOT_INTERVAL;
    }
    return None;
  }

  /** A start that is free for a slot is free for a shorter one. */
  lemma ShorterFits(q: Query, d: real, hours: Hours, start: int)
    requires 0.0 < d <= q.duration && Offers(q, hours, start)
    ensures Offers(q.(duration := d), hours, start)
  {
    hide TimeToMinutes, MinutesToTime, Blocks;
    TimeKeysAreMinutes(start, "");
    forall b | b in q.bookings ensures !InTheWay(q.(duration := d), b, start) { assert !InTheWay(q, b, start); }
  }

  // ----- The search across contexts -----

  /** `getDayKeyFromDate`; day 0 was a Thursday. */
  function DayKeyOf(dateKey: string): string {
    if IsDateKey(dateKey) then DAY_KEYS[(DayOf(ParseKey(dateKey)) + 4) % 7] else ""
  }

  /** `hasMeaningfulDefaultSchedule` */
  predicate HasMeaningfulDefault(default: Option<Default>) {
    && default.Some?
    && TimeToMinutes(OrElse(default.value.startTime, default.value.from)).Some?
    && TimeToMinutes(OrElse(default.value.endTime, default.value.to)).Some?
  }

  /** `getContextHoursForDate`, given the day on which past dates are dropped. */
  function GetContextHours(schedule: Option<Schedule>, today: string, dateKey: string): Option<Hours> {
    if schedule.None? then None else
      var s, dayKey := NormalizeForAvailability(schedule.value, today), DayKeyOf(dateKey);
      var override := Lookup(s.dates.scheduleOverrides, dateKey);
      if override.Some? then
        var o := override.value;
        if !o.isWorking then None
        else Some(Hours(o.startTime, o.endTime, o.breakStart != "" && o.breakEnd != "", o.breakStart, o.breakEnd))
      else if dateKey in s.dates.nonWorkingDays then None
      else if !IsWeeklyDayExplicit(s, dayKey) && !HasMeaningfulDefault(s.default) then None
      else
        var day := GetScheduleForDate(s, dateKey, dayKey, s.default);
        if !day.working then None
        else Some(Hours(OrElse(day.from, DEFAULT_START), OrElse(day.to, DEFAULT_END),
                        day.breakFrom != "" && day.breakTo != "", day.breakFrom, day.breakTo))
  }

  const WEEK_FROM_EPOCH := ["thu", "fri", "sat", "sun", "mon", "tue", "wed"]

  /** The weekday of a date follows by counting days from 1970-01-01, day 0, a Thursday. */
  lemma WeekdaysCount(dateKey: string)
    requires IsDateKey(dateKey)
    ensures DayKeyOf(dateKey) == WEEK_FROM_EPOCH[DayOf(ParseKey(dateKey)) % 7]
    ensures forall key :: !IsDateKey(key) ==> DayKeyOf(key) == ""
    ensures IsDateKey("1970-01-01") && DayOf(ParseKey("1970-01-01")) == 0 && DayKeyOf("1970-01-01") == "thu"
  {
    EpochKey();
    EpochIsThursday();
    NoWeekday();
    hide *;
    WeekdayOf(dateKey);
    WeekdayOf("1970-01-01");
  }

  lemma NoWeekday()
    ensures forall key :: !IsDateKey(key) ==> DayKeyOf(key) == ""
  {
    hide IsDateKey, DayOf, ParseKey;
  }

  lemma EpochIsThursday()
    ensures WEEK_FROM_EPOCH[0] == "thu"
  {
  }

  lemma WeekdayOf(dateKey: string)
    requires IsDateKey(dateKey)
    ensures DayKeyOf(dateKey) == WEEK_FROM_EPOCH[DayOf(ParseKey(dateKey)) % 7]
  {
    hide DayOf, ParseKey, Number;
    FourDaysOn(DayOf(ParseKey(dateKey)));
  }

  lemma FourDaysOn(n: int)
    ensures DAY_KEYS[(n + 4) % 7] == WEEK_FROM_EPOCH[n % 7]
  {
    assert (n + 4) % 7 == (n % 7 + 4) % 7;
  }

  lemma EpochKey()
    ensures IsDateKey("1970-01-01") && DayOf(ParseKey("1970-01-01")) == 0
  {
    hide IsDateKey, Number, ParseKey;
    var s := "1970-01-01";
    assert s[..4] == "1970" && s[5..7] == "01" && s[8..] == "01";
    EpochNumbers();
    EpochDate();
    DateKeysAreDates(s, Civil(1970, 1, 1));
  }

  lemma EpochDate()
    ensures HasKey(Civil(1970, 1, 1)) && DayOf(Civil(1970, 1, 1)) == 0
  {
  }

  lemma EpochNumbers()
    ensures Number("1970") == 1970 && Number("01") == 1
  {
    assert "1970"[..3] == "197" && "197"[..2] == "19" && "19"[..1] == "1" && "1"[..0] == "";
    assert "01"[..1] == "0" && "0"[..0] == "";
    assert Number("0") == 0 && Number("1") == 1 && Number("19") == 19 && Number("197") == 197;
  }

  lemma EmptyIsNoTime()
    ensures TimeToMinutes("").None?
  {
  }

  /** What a weekday's entry, unless it stems from the all-closed default, says of a date. */
  function EntryOf(schedule: Schedule, weekday: string): Option<WeeklyDay> {
    if schedule.weekly.Some? && !AutoClosed(schedule.weekly) && weekday in schedule.weekly.value.days
    then Some(schedule.weekly.value.days[weekday]) else None
  }

  predicate CountsAsExplicit(schedule: Schedule, weekday: string) {
    match schedule.explicitWeeklyDays
    case Some(days) => weekday in days
    case None => EntryOf(schedule, weekday).Some?
  }

  predicate HasHours(day: WeeklyDay) {
    day.working == Some(true) && TimeToMinutes(day.from).Some? && TimeToMinutes(day.to).Some?
  }

  /** Start and end with a time each, under either name. */
  predicate IsUsable(default: Option<Default>) {
    && default.Some?
    && TimeToMinutes(if default.value.startTime != "" then default.value.startTime else default.value.from).Some?
    && TimeToMinutes(if default.value.endTime != "" then default.value.endTime else default.value.to).Some?
  }

  /** The break of an entry counts when both of its ends are given. */
  predicate AreHours(hours: Option<Hours>, from: string, to: string, breakFrom: string, breakTo: string) {
    && hours.Some? && hours.value.startTime == from && hours.value.endTime == to
    && hours.value.breakStart == breakFrom && hours.value.breakEnd == breakTo
    && (hours.value.hasBreak <==> breakFrom != "" && breakTo != "")
  }

  /** The hours searched on a date from today on, in terms of the stored schedule: those of the date's
      override if there is one; none on a day off; those of its weekday's entry, if that counts; else those
      of the default schedule, nine to six where it has none, provided that it is usable or the weekday
      counts as explicit. */
  lemma HoursOfDate(schedule: Schedule, today: string, dateKey: string)
    requires IsDateKey(dateKey) && !StringLess(dateKey, today)
    ensures var hours := GetContextHours(Some(schedule), today, dateKey);
      var weekday := WEEK_FROM_EPOCH[DayOf(ParseKey(dateKey)) % 7];
      var override, entry := Lookup(schedule.dates.scheduleOverrides, dateKey), EntryOf(schedule, weekday);
      var explicit := CountsAsExplicit(schedule, weekday);
      if override.Some? then
        var o := override.value;
        if o.isWorking then AreHours(hours, o.startTime, o.endTime, o.breakStart, o.breakEnd) else hours.None?
      else if dateKey in schedule.dates.nonWorkingDays then hours.None?
      else if explicit && entry.Some? && entry.value.working == Some(false) then hours.None?
      else if explicit && entry.Some? && HasHours(entry.value) then
        AreHours(hours, entry.value.from, entry.value.to, entry.value.breakFrom, entry.value.breakTo)
      else if !explicit && !IsUsable(schedule.default) then hours.None?
      else match schedule.default
        case None => AreHours(hours, "09:00", "18:00", "", "")
        case Some(d) =>
          AreHours(hours, if d.startTime != "" then d.startTime else "09:00",
                   if d.endTime != "" then d.endTime else "18:00",
                   if d.hasBreak then d.breakStart else "", if d.hasBreak then d.breakEnd else "")
  {
    hide Clean, CleanMap, CleanKeys, Lookup, DayKeyOf, AutoClosed, NormalizeAutoClosedWeekly, TimeToMinutes, IsDateKey,
      DayOf, StringLess, ParseKey;
    WeekdaysCount(dateKey);
    KeptFromToday(dateKey, today);
    CleanMapLooksUp(schedule.dates.scheduleOverrides, today, dateKey);
    CleanKeysKeep(schedule.dates.nonWorkingDays, today);
    AutoClosedIsEmptied(schedule.weekly);
    NormalizedFields(schedule, today);
    EmptyIsNoTime();
  }

  lemma KeptFromToday(dateKey: string, today: string)
    requires IsDateKey(dateKey) && !StringLess(dateKey, today)
    ensures Kept(dateKey, today)
  {
  }

  lemma NormalizedFields(schedule: Schedule, today: string)
    ensures var s := NormalizeForAvailability(schedule, today);
      && s.dates.scheduleOverrides == CleanMap(schedule.dates.scheduleOverrides, today)
      && s.dates.nonWorkingDays == CleanKeys(schedule.dates.nonWorkingDays, today)
      && OrEmpty(s.weekly) == NormalizeAutoClosedWeekly(schedule.weekly)
      && s.explicitWeeklyDays == schedule.explicitWeeklyDays && s.default == schedule.default
  {
    hide CleanMap, CleanKeys;
  }

  /** The search's choice of a day's hours against that of `validateBookingSlot`, which refuses days off
      and otherwise takes `getScheduleForDate`, both on the normalized schedule with its own defaults. A
      start that passes the hours check in one passes it in the other, except that the search lets an
      override win over a day off, and finds no hours where neither an override, nor an explicit weekday,
      nor a usable default gives them. */
  lemma SearchAgainstValidator(schedule: Schedule, today: string, dateKey: string, start: nat, duration: Num)
    requires start < MINUTES_PER_DAY
    ensures var s, dayKey, time := NormalizeForAvailability(schedule, today), DayKeyOf(dateKey), MinutesToTime(start);
      var hours := GetContextHours(Some(schedule), today, dateKey);
      var override := Lookup(s.dates.scheduleOverrides, dateKey);
      var day := GetScheduleForDate(s, dateKey, dayKey, s.default);
      hours.Some? && GetScheduleSlotError(DayOfHours(hours.value), time, duration) == "" <==>
        && (override.Some? || dateKey !in s.dates.nonWorkingDays)
        && (override.Some? || IsWeeklyDayExplicit(s, dayKey) || HasMeaningfulDefault(s.default))
        && day.working && GetScheduleSlotError(day, time, duration) == ""
  {
    hide NormalizeForAvailability, DayKeyOf, Lookup, Number;
  }

  /** `hasExactScheduleSource` */
  predicate HasExactSource(schedule: Option<Schedule>, today: string) {
    && schedule.Some?
    && var s := NormalizeForAvailability(schedule.value, today);
       || s.dates.scheduleOverrides != [] || s.dates.nonWorkingDays != []
       || (exists key :: key in OrEmpty(s.weekly).days && IsWeeklyDayExplicit(s, key)
            && (OrEmpty(s.weekly).days[key].working == Some(false) || IsMeaningfulDay(OrEmpty(s.weekly).days[key])))
       || HasMeaningfulDefault(s.default)
  }

  /** A schedule says something exactly when, from today on, it has an override or a day off, or has a
      weekday that counts and is either closed or has hours, or has a usable default. */
  lemma ExactSourceOfSchedule(schedule: Schedule, today: string)
    ensures HasExactSource(Some(schedule), today) <==>
      || (exists e :: e in schedule.dates.scheduleOverrides && IsDateKey(e.0) && !StringLess(e.0, today))
      || (exists key :: key in schedule.dates.nonWorkingDays && IsDateKey(key) && !StringLess(key, today))
      || (exists weekday :: EntryOf(schedule, weekday).Some? && CountsAsExplicit(schedule, weekday)
            && (EntryOf(schedule, weekday).value.working == Some(false) || HasHours(EntryOf(schedule, weekday).value)))
      || IsUsable(schedule.default)
  {
    hide Clean, CleanMap, CleanKeys, AutoClosed, NormalizeAutoClosedWeekly, TimeToMinutes, IsDateKey, StringLess;
    NormalizedFields(schedule, today);
    AutoClosedIsEmptied(schedule.weekly);
    CleanMapLeaves(schedule.dates.scheduleOverrides, today);
    CleanKeysKeep(schedule.dates.nonWorkingDays, today);
    var cleaned := CleanKeys(schedule.dates.nonWorkingDays, today);
    assert cleaned != [] ==> cleaned[0] in cleaned;
    var days := OrEmpty(NormalizeForAvailability(schedule, today).weekly).days;
    forall key ensures key in days <==> EntryOf(schedule, key).Some? { }
    forall key | key in days ensures EntryOf(schedule, key) == Some(days[key]) { }
  }

  /** `Number(service.duration || 20)`: zero and a value that is no number count as missing. */
  function DurationOf(service: Service): Num {
    if service.duration.None? || service.duration.value == NaN || service.duration.value == Finite(0.0)
    then Finite(20.0)
    else service.duration.value
  }

  /** The durations worth searching for. */
  predicate Wanted(services: seq<Service>, d: real) {
    d > 0.0 && exists s :: s in services && s.active && DurationOf(s) == Finite(d)
  }

  /** Active services with a positive duration; a missing duration, zero or no number means 20 minutes. */
  lemma WantedInNumbers(services: seq<Service>, d: real)
    ensures Wanted(services, d) <==>
      && d > 0.0
      && exists s :: s in services && s.active
           && (s.duration == Some(Finite(d)) || (d == 20.0 && s.duration in {None, Some(NaN), Some(Finite(0.0))}))
  {
    forall s: Service ensures d > 0.0 ==> (DurationOf(s) == Finite(d) <==>
      s.duration == Some(Finite(d)) || (d == 20.0 && s.duration in {None, Some(NaN), Some(Finite(0.0))})) { }
  }

  ghost predicate IsShortest(services: seq<Service>, d: real) {
    Wanted(services, d) && forall e :: Wanted(services, e) ==> d <= e
  }

  /** `Math.min(...durations)` over the durations worth searching for, if there are any. */
  method ShortestDuration(services: seq<Service>) returns (shortest: Option<real>)
    ensures shortest.Some? ==> shortest.value > 0.0 && IsShortest(services, shortest.value)
    ensures shortest.None? ==> forall d :: !Wanted(services, d)
  {
    hide DurationOf;
    shortest := None;
    for i := 0 to |services|
      invariant shortest.Some? ==> Wanted(services[..i], shortest.value)
      invariant forall d :: Wanted(services[..i], d) ==> shortest.Some? && shortest.value <= d
    {
      var d := DurationOf(services[i]);
      assert services[..i + 1] == services[..i] + [services[i]];
      assert forall e :: Wanted(services[..i + 1], e) ==>
        Wanted(services[..i], e) || (services[i].active && d == Finite(e));
      if services[i].active && d.Finite? && d.value > 0.0 && (shortest.None? || d.value < shortest.value) {
        shortest := Some(d.value);
      }
    }
    assert services[..|services|] == services;
  }

  /** A context offers a start to a query. */
  predicate ContextOffers(context: Context, q: Query, today: string, start: int) {
    var hours := GetContextHours(context.schedule, today, q.dateKey);
    hours.Some? && Offers(q, hours.value, start)
  }

  /** `start` is the earliest that the contexts offer, and `i` the first of them to offer it. */
  ghost predicate IsBest(contexts: seq<Context>, q: Query, today: string, i: int, start: int) {
    && 0 <= i < |contexts| && ContextOffers(contexts[i], q, today, start)
    && forall j, other :: 0 <= j < |contexts| && ContextOffers(contexts[j], q, today, other) ==>
         start < other || (start == other && i <= j)
  }

  ghost predicate NoOffer(contexts: seq<Context>, q: Query, today: string) {
    forall j, start :: 0 <= j < |contexts| ==> !ContextOffers(contexts[j], q, today, start)
  }

  ghost predicate IsBestSlot(slot: Slot, contexts: seq<Context>, q: Query, today: string) {
    && slot.dateKey == q.dateKey && TimeToMinutes(slot.time).Some?
    && exists i :: IsBest(contexts, q, today, i, TimeToMinutes(slot.time).value)
         && slot.salonId == contexts[i].salonId && slot.salonName == contexts[i].salonName
  }

  /** The outcome names the best slot; without one, it says whether some context had a schedule at all. */
  ghost predicate IsAnswer(outcome: Outcome, contexts: seq<Context>, q: Query, today: string) {
    if outcome.slot.Some? then
      outcome.status == Ready && outcome.reason == Available && IsBestSlot(outcome.slot.value, contexts, q, today)
    else
      && NoOffer(contexts, q, today)
      && if exists c :: c in contexts && HasExactSource(c.schedule, today)
         then outcome.status == Ready && outcome.reason == NoAvailabilityToday
         else outcome.status == Unavailable && outcome.reason == ScheduleUnavailable
  }

  /** The query made at an instant. */
  function QueryAt(now: int, duration: real, bookings: seq<Booking>): Query {
    MinutesSinceMidnight(now);
    Query(GetArmeniaDateKey(now), MinutesToTime(GetArmeniaMinutesOfDay(now)), duration, bookings)
  }

  /** `getTodayFirstAvailableSlot` for a list of contexts, with a slot of the shortest active service. */
  method GetTodayFirstAvailableSlot(contexts: seq<Context>, services: seq<Service>, bookings: seq<Booking>, now: int,
      today: string)
    returns (outcome: Outcome)
    ensures (forall d :: !Wanted(services, d)) ==> outcome == Outcome(Ready, None, NoServices)
    ensures forall d :: IsShortest(services, d) ==> IsAnswer(outcome, contexts, QueryAt(now, d, bookings), today)
  {
    hide GetArmeniaDateKey, GetArmeniaMinutesOfDay, IsAnswer, Wanted;
    var shortest := ShortestDuration(services);
    if shortest.None? {
      return Outcome(Ready, None, NoServices);
    }
    var q := QueryAt(now, shortest.value, bookings);
    outcome := SearchContexts(contexts, q, today);
  }

  /** One more context: a strictly earlier time takes the lead. */
  lemma Extend(prefix: seq<Context>, c: Context, q: Query, today: string, best: Option<Slot>, time: Option<string>)
    requires best.None? ==> NoOffer(prefix, q, today)
    requires best.Some? ==> IsBestSlot(best.value, prefix, q, today)
    requires var hours := GetContextHours(c.schedule, today, q.dateKey);
      if hours.Some? then IsEarliest(q, hours.value, time) else time.None?
    ensures var next := if time.Some? && (best.None? || StringLess(time.value, best.value.time))
                        then Some(Slot(q.dateKey, time.value, c.salonId, c.salonName)) else best;
      && (next.None? ==> NoOffer(prefix + [c], q, today))
      && (next.Some? ==> IsBestSlot(next.value, prefix + [c], q, today))
  {
    hide GetContextHours, Offers, StringLess, Number;
    var all, n := prefix + [c], |prefix|;
    assert forall j, start :: 0 <= j < |all| && ContextOffers(all[j], q, today, start) ==>
      if j < n then ContextOffers(prefix[j], q, today, start) else ContextOffers(c, q, today, start);
    if best.Some? {
      var i :| IsBest(prefix, q, today, i, TimeToMinutes(best.value.time).value)
        && best.value.salonId == prefix[i].salonId && best.value.salonName == prefix[i].salonName;
      if time.Some? {
        TimeOrderIsMinuteOrder(time.value, best.value.time);
      }
      if time.Some? && StringLess(time.value, best.value.time) {
        assert IsBest(all, q, today, n, TimeToMinutes(time.value).value);
      } else {
        assert IsBest(all, q, today, i, TimeToMinutes(best.value.time).value);
      }
    } else if time.Some? {
      assert IsBest(all, q, today, n, TimeToMinutes(time.value).value);
    }
  }

  lemma NothingOffered(q: Query, today: string)
    ensures NoOffer([], q, today)
  {
  }

  method SearchContexts(contexts: seq<Context>, q: Query, today: string) returns (outcome: Outcome)
    requires q.duration > 0.0
    ensures IsAnswer(outcome, contexts, q, today)
  {
    hide GetContextHours, HasExactSource, IsEarliest, IsBestSlot, NoOffer, StringLess;
    NothingOffered(q, today);
    if |contexts| == 0 {
      return Outcome(Unavailable, None, ScheduleUnavailable);
    }
    var bestSlot: Option<Slot>, bestIndex := None, -1;
    var hasExactSchedule := false;
    for i := 0 to |contexts|
      invariant bestSlot.None? ==> NoOffer(contexts[..i], q, today)
      invariant bestSlot.Some? ==> IsBestSlot(bestSlot.value, contexts[..i], q, today)
      invariant bestIndex < i
      invariant hasExactSchedule <==> exists c :: c in contexts[..i] && HasExactSource(c.schedule, today)
    {
      var context := contexts[i];
      if HasExactSource(context.schedule, today) {
        hasExactSchedule := true;
      }
      assert contexts[..i + 1] == contexts[..i] + [context];
      var hours := GetContextHours(context.schedule, today, q.dateKey);
      if hours.None? {
        Extend(contexts[..i], context, q, today, bestSlot, None);
      } else {
        var time := FindSlotForDate(q, hours.value);
        Extend(contexts[..i], context, q, today, bestSlot, time);
        if time.Some?
           && (bestSlot.None? || StringLess(time.value, bestSlot.value.time)
               || (time.value == bestSlot.value.time && i < bestIndex))
        {
          bestSlot := Some(Slot(q.dateKey, time.value, context.salonId, context.salonName));
          bestIndex := i;
        }
      }
    }
    assert contexts[..|contexts|] == contexts;
    if bestSlot.Some? {
      return Outcome(Ready, bestSlot, Available);
    }
    return if hasExactSchedule then Outcome(Ready, None, NoAvailabilityToday)
           else Outcome(Unavailable, None, ScheduleUnavailable);
  }

  /** An answer can be booked: it names a context and a minute later than now on Armenia's today that lies,
      with the slot's whole length, within that context's hours of the day, clear of its break and of every
      booking that counts. */
  lemma AnswerIsBookable(outcome: Outcome, contexts: seq<Context>, bookings: seq<Booking>, now: int, d: real,
      today: string)
    returns (i: nat, start: nat)
    requires IsAnswer(outcome, contexts, QueryAt(now, d, bookings), today) && outcome.slot.Some?
    ensures i < |contexts| && start < 24 * 60
    ensures outcome.slot.value ==
      Slot(GetArmeniaDateKey(now), outcome.slot.value.time, contexts[i].salonId, contexts[i].salonName)
    ensures TimeToMinutes(outcome.slot.value.time) == Some(start) && GetArmeniaMinutesOfDay(now) < start
    ensures var hours := GetContextHours(contexts[i].schedule, today, GetArmeniaDateKey(now));
      && hours.Some?
      && var from, to := TimeToMinutes(hours.value.startTime), TimeToMinutes(hours.value.endTime);
         var breakFrom, breakTo := TimeToMinutes(hours.value.breakStart), TimeToMinutes(hours.value.breakEnd);
         && from.Some? && to.Some? && from.value <= start && start as real + d <= to.value as real
         && (breakFrom.Some? && breakTo.Some? ==>
               start >= breakTo.value || start as real + d <= breakFrom.value as real)
    ensures forall b :: b in bookings ==> !Meets(b, GetArmeniaDateKey(now), start, d)
  {
    hide GetContextHours, GetArmeniaDateKey, GetArmeniaMinutesOfDay, HasExactSource, TimeToMinutes, MinutesToTime,
      Offers, Meets;
    var q := QueryAt(now, d, bookings);
    MinutesSinceMidnight(now);
    TimeKeysAreMinutes(GetArmeniaMinutesOfDay(now), "");
    start := TimeToMinutes(outcome.slot.value.time).value;
    i :| IsBest(contexts, q, today, i, start)
      && outcome.slot.value.salonId == contexts[i].salonId && outcome.slot.value.salonName == contexts[i].salonName;
    OffersInNumbers(q, GetContextHours(contexts[i].schedule, today, q.dateKey).value, start);
  }

  /** Searching with the shortest service misses nothing: whenever a slot for any active service is on
      offer today, the search answers with a time, and none later than that. */
  lemma ShortestMissesNothing(outcome: Outcome, contexts: seq<Context>, services: seq<Service>, bookings: seq<Booking>,
      now: int, today: string, shortest: real, d: real, j: nat, start: int)
    requires IsShortest(services, shortest) && IsAnswer(outcome, contexts, QueryAt(now, shortest, bookings), today)
    requires Wanted(services, d) && j < |contexts|
    requires ContextOffers(contexts[j], QueryAt(now, d, bookings), today, start)
    ensures outcome.slot.Some? && TimeToMinutes(outcome.slot.value.time).Some?
    ensures TimeToMinutes(outcome.slot.value.time).value <= start
  {
    hide GetArmeniaDateKey, GetArmeniaMinutesOfDay, GetContextHours, Offers, HasExactSource, TimeToMinutes, Blocks,
      DurationOf;
    var hours := GetContextHours(contexts[j].schedule, today, GetArmeniaDateKey(now)).value;
    ShorterFits(QueryAt(now, d, bookings), shortest, hours, start);
    assert ContextOffers(contexts[j], QueryAt(now, shortest, bookings), today, start);
  }
}
