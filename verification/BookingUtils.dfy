/** Slots against working hours and against each other, from `bookingUtils.js`. Durations are what
    `Number(duration)` yields. */
module BookingUtils {
  import opened Wrappers
  import opened BookingDateTime
  import opened ScheduleUtils

  const MINUTES_PER_DAY := 24 * 60

  const NOT_WORKING := "Barber is not working this day"
  const OUTSIDE_HOURS := "This time is outside working hours"
  const NOT_ENOUGH_TIME := "Not enough time for selected service"

  /** `getScheduleSlotError`: the empty string accepts the slot. */
  function GetScheduleSlotError(day: DaySchedule, time: string, duration: Num): string {
    if !day.working then NOT_WORKING else
      var start, end, slotStart := TimeToMinutes(day.from), TimeToMinutes(day.to), TimeToMinutes(time);
      if start.None? || end.None? || slotStart.None? || !duration.Finite? || duration.value <= 0.0 then OUTSIDE_HOURS
      else
        var slotEnd := slotStart.value as real + duration.value;
        var breakStart, breakEnd := TimeToMinutes(day.breakFrom), TimeToMinutes(day.breakTo);
        var crossesBreak := breakStart.Some? && breakEnd.Some?
          && slotStart.value < breakEnd.value && slotEnd > breakStart.value as real;
        if slotStart.value < start.value || slotStart.value >= end.value then OUTSIDE_HOURS
        else if slotEnd > end.value as real || crossesBreak then NOT_ENOUGH_TIME
        else ""
  }

  /** `slotOverlaps` */
  predicate SlotOverlaps(bookingTime: string, bookingDuration: Num, time: string, duration: Num) {
    var bookingStart, nextStart := TimeToMinutes(bookingTime), TimeToMinutes(time);
    && bookingStart.Some? && nextStart.Some? && bookingDuration.Finite? && duration.Finite?
    && nextStart.value as real < bookingStart.value as real + bookingDuration.value
    && nextStart.value as real + duration.value > bookingStart.value as real
  }

  /** `getBookingSlotMinutes`: the whole minutes of a slot that lie within its day. */
  function GetBookingSlotMinutes(time: string, duration: Num): seq<int> {
    var start := TimeToMinutes(time);
    if start.None? || !duration.Finite? || duration.value <= 0.0 then []
    else
      var length := duration.value.Floor;
      var kept := if start.value + length <= MINUTES_PER_DAY then length else MINUTES_PER_DAY - start.value;
      seq(kept, offset => start.value + offset)
  }

  /** The answers of the hours check, by what they are for: a day off; a slot that starts outside the opening
      hours, or whose times or duration make no sense; one that runs over closing time or into the break. */
  lemma SlotErrorExactly(day: DaySchedule, time: string, duration: Num)
    ensures var error := GetScheduleSlotError(day, time, duration);
      var from, to, start := TimeToMinutes(day.from), TimeToMinutes(day.to), TimeToMinutes(time);
      var breakFrom, breakTo := TimeToMinutes(day.breakFrom), TimeToMinutes(day.breakTo);
      if !day.working then error == "Barber is not working this day"
      else if !(from.Some? && to.Some? && start.Some? && duration.Finite? && duration.value > 0.0
                && from.value <= start.value < to.value) then
        error == "This time is outside working hours"
      else
        var end := start.value as real + duration.value;
        var fits := end <= to.value as real
          && (breakFrom.Some? && breakTo.Some? ==> start.value >= breakTo.value || end <= breakFrom.value as real);
        error == if fits then "" else "Not enough time for selected service"
  {
    hide TimeToMinutes;
  }

  /** The minutes of a slot are the whole ones it lasts, up to midnight. */
  lemma SlotMinutesExactly(time: string, duration: Num, m: int)
    ensures var start := TimeToMinutes(time);
      m in GetBookingSlotMinutes(time, duration) <==>
        && start.Some? && duration.Finite? && start.value <= m < 24 * 60
        && (m - start.value + 1) as real <= duration.value
  {
    hide TimeToMinutes;
    var start, minutes := TimeToMinutes(time), GetBookingSlotMinutes(time, duration);
    if start.Some? && duration.Finite? && start.value <= m < 24 * 60
       && (m - start.value + 1) as real <= duration.value
    {
      assert minutes[m - start.value] == m;
    }
  }

  /** A slot that the validator's hours check accepts lies within its day, so a slot of whole minutes
      keeps all of them; this is why the validator's own count of minutes never refuses one. */
  lemma AcceptedSlotKeepsItsMinutes(day: DaySchedule, time: string, duration: Num)
    requires GetScheduleSlotError(day, time, duration) == ""
    ensures var minutes := GetBookingSlotMinutes(time, duration);
      && (duration.value == duration.value.Floor as real <==> |minutes| as real == duration.value)
      && forall m :: m in minutes ==> TimeToMinutes(time).value <= m < TimeToMinutes(day.to).value
  {
    hide TimeToMinutes;
  }
}
