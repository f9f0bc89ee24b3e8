/** Stored schedules: dropping their past dates, undoing an old all-closed default, and reading the
    hours of one day. Objects keyed by date are entries in insertion order, as `JSON.stringify` and the
    database compare them. A missing date field reads as empty. */
module ScheduleUtils {
  import opened Wrappers
  import opened BookingDateTime

  datatype WeeklyDay = WeeklyDay(working: Option<bool>, from: string, to: string, breakFrom: string, breakTo: string)
  datatype Weekly = Weekly(days: map<string, WeeklyDay>, markedAllOff: bool)
  datatype Override =
    Override(isWorking: bool, startTime: string, endTime: string, breakStart: string, breakEnd: string)
  datatype Default = Default(startTime: string, endTime: string, from: string, to: string,
                             hasBreak: bool, breakStart: string, breakEnd: string)

  type DateMap<V> = seq<(string, V)>

  datatype Dates<V> = Dates(dateSchedules: DateMap<V>, scheduleOverrides: DateMap<V>, nonWorkingDays: seq<string>)

  datatype Schedule = Schedule(
    dates: Dates<Override>, weekly: Option<Weekly>, explicitWeeklyDays: Option<seq<string>>, default: Option<Default>)

  const DAY_KEYS := ["sun", "mon", "tue", "wed", "thu", "fri", "sat"]

  // ----- Dropping past dates -----

  /** The filter of both cleaners. */
  predicate Kept(key: string, today: string) { IsDateKey(key) && !StringLess(key, today) }

  function Insert(key: string, keys: seq<string>): seq<string> {
    if keys == [] || StringLess(key, keys[0]) then [key] + keys else [keys[0]] + Insert(key, keys[1..])
  }

  /** `keys.sort()` */
  function Sort(keys: seq<string>): seq<string> {
    if keys == [] then [] else Insert(keys[0], Sort(keys[1..]))
  }

  /** `Array.from(new Set(keys.filter(...)))` */
  function KeptKeys(keys: seq<string>, today: string): seq<string> {
    if keys == [] then [] else
      var front, last := KeptKeys(keys[..|keys| - 1], today), keys[|keys| - 1];
      if Kept(last, today) && last !in front then front + [last] else front
  }

  /** `cleanCurrentAndFutureDateKeys` */
  function CleanKeys(keys: seq<string>, today: string): seq<string> { Sort(KeptKeys(keys, today)) }

  /** What `cleanCurrentAndFutureDateMap` leaves. */
  function CleanMap<V>(entries: DateMap<V>, today: string): DateMap<V> {
    if entries == [] then [] else
      var front, last := CleanMap(entries[..|entries| - 1], today), entries[|entries| - 1];
      if Kept(last.0, today) then front + [last] else front
  }

  /** `object[key]` */
  function Lookup<V>(entries: DateMap<V>, key: string): Option<V> {
    if entries == [] then None
    else if entries[0].0 == key then Some(entries[0].1)
    else Lookup(entries[1..], key)
  }

  /** `object[key] = value` */
  function Put<V>(entries: DateMap<V>, key: string, value: V): DateMap<V> {
    if entries == [] then [(key, value)]
    else if entries[0].0 == key then [(key, value)] + entries[1..]
    else [entries[0]] + Put(entries[1..], key, value)
  }

  predicate UniqueKeys<V>(entries: DateMap<V>) {
    forall i, j :: 0 <= i < j < |entries| ==> entries[i].0 != entries[j].0
  }

  /** `cleanCurrentAndFutureDateMap`: fills a new object entry by entry. */
  method CleanCurrentAndFutureDateMap<V>(dateMap: DateMap<V>, today: string) returns (cleaned: DateMap<V>)
    requires UniqueKeys(dateMap)
    ensures cleaned == CleanMap(dateMap, today)
    ensures UniqueKeys(cleaned)
    ensures forall e :: e in cleaned <==> e in dateMap && Kept(e.0, today)
  {
    hide IsDateKey, StringLess;
    cleaned := [];
    for i := 0 to |dateMap|
      invariant cleaned == CleanMap(dateMap[..i], today)
      invariant UniqueKeys(cleaned)
      invariant forall e :: e in cleaned <==> e in dateMap[..i] && Kept(e.0, today)
    {
      var (key, value) := dateMap[i];
      assert dateMap[..i + 1][..i] == dateMap[..i];
      if !IsDateKey(key) || StringLess(key, today) { continue; }
      PutAppends(cleaned, key, value);
      cleaned := Put(cleaned, key, value);
    }
    assert dateMap[..|dateMap|] == dateMap;
  }

  lemma {:induction false} PutAppends<V>(entries: DateMap<V>, key: string, value: V)
    requires forall e :: e in entries ==> e.0 != key
    ensures Put(entries, key, value) == entries + [(key, value)]
  {
    if entries != [] {
      PutAppends(entries[1..], key, value);
      assert entries == [entries[0]] + entries[1..];
    }
  }

  /** `cleanPastScheduleDates` */
  function Clean<V>(dates: Dates<V>, today: string): Dates<V> {
    Dates(CleanMap(dates.dateSchedules, today), CleanMap(dates.scheduleOverrides, today),
          CleanKeys(dates.nonWorkingDays, today))
  }

  // ----- What cleaning keeps -----

  predicate StrictlySorted(keys: seq<string>) {
    forall i, j :: 0 <= i < j < |keys| ==> StringLess(keys[i], keys[j])
  }

  lemma {:induction false} InsertSorts(key: string, keys: seq<string>)
    requires StrictlySorted(keys) && key !in keys
    ensures StrictlySorted(Insert(key, keys))
    ensures forall k :: k in Insert(key, keys) <==> k == key || k in keys
  {
    hide StringLess;
    if keys != [] {
      StringLessTrichotomy(key, keys[0]);
      if StringLess(key, keys[0]) {
        forall j | 0 < j < |keys| ensures StringLess(key, keys[j]) { StringLessTransitive(key, keys[0], keys[j]); }
      } else {
        InsertSorts(key, keys[1..]);
        forall j | 0 <= j < |Insert(key, keys[1..])| ensures StringLess(keys[0], Insert(key, keys[1..])[j]) {
          assert Insert(key, keys[1..])[j] in Insert(key, keys[1..]);
        }
      }
      assert keys == [keys[0]] + keys[1..];
    }
  }

  lemma {:induction false} SortSorts(keys: seq<string>)
    requires forall i, j :: 0 <= i < j < |keys| ==> keys[i] != keys[j]
    ensures StrictlySorted(Sort(keys))
    ensures forall k :: k in Sort(keys) <==> k in keys
  {
    if keys != [] {
      SortSorts(keys[1..]);
      InsertSorts(keys[0], Sort(keys[1..]));
      assert keys == [keys[0]] + keys[1..];
    }
  }

  lemma {:induction false} KeptKeysKeep(keys: seq<string>, today: string)
    ensures forall i, j :: 0 <= i < j < |KeptKeys(keys, today)| ==> KeptKeys(keys, today)[i] != KeptKeys(keys, today)[j]
    ensures forall k :: k in KeptKeys(keys, today) <==> k in keys && Kept(k, today)
  {
    hide Kept;
    if keys != [] {
      KeptKeysKeep(keys[..|keys| - 1], today);
      assert keys == keys[..|keys| - 1] + [keys[|keys| - 1]];
    }
  }

  /** The cleaned keys are the kept ones, in strict order. */
  lemma CleanKeysKeep(keys: seq<string>, today: string)
    ensures StrictlySorted(CleanKeys(keys, today))
    ensures forall k :: k in CleanKeys(keys, today) <==> k in keys && Kept(k, today)
  {
    hide Kept;
    KeptKeysKeep(keys, today);
    SortSorts(KeptKeys(keys, today));
  }

  /** A strictly sorted list is determined by its members. */
  lemma {:induction false} SortedListIsItsSet(a: seq<string>, b: seq<string>)
    requires StrictlySorted(a) && StrictlySorted(b)
    requires forall k :: k in a <==> k in b
    ensures a == b
  {
    hide StringLess;
    assert forall i :: 0 <= i < |a| ==> a[i] in b;
    assert forall i :: 0 <= i < |b| ==> b[i] in a;
    if a != [] && b != [] {
      StringLessTrichotomy(a[0], b[0]);
      StringLessTrichotomy(a[0], a[0]);
      assert a == [a[0]] + a[1..] && b == [b[0]] + b[1..];
      assert a[0] !in a[1..] && b[0] !in b[1..];
      forall k ensures k in a[1..] <==> k in b[1..] {
        assert k in a[1..] <==> k in a && k != a[0];
        assert k in b[1..] <==> k in b && k != b[0];
      }
      SortedListIsItsSet(a[1..], b[1..]);
    }
  }

  /** The later of two days. */
  function Later(a: string, b: string): string { if StringLess(a, b) then b else a }

  lemma KeptByLater(key: string, a: string, b: string)
    ensures Kept(key, Later(a, b)) <==> Kept(key, a) && Kept(key, b)
  {
    hide StringLess, IsDateKey;
    StringLessTrichotomy(a, b);
    StringLessTrichotomy(key, a);
    StringLessTrichotomy(key, b);
    if StringLess(key, a) && StringLess(a, b) { StringLessTransitive(key, a, b); }
    if StringLess(key, b) && StringLess(b, a) { StringLessTransitive(key, b, a); }
  }

  lemma {:induction false} CleanMapTwice<V>(entries: DateMap<V>, a: string, b: string)
    ensures CleanMap(CleanMap(entries, a), b) == CleanMap(entries, Later(a, b))
  {
    hide Kept, Later;
    if entries != [] {
      var n := |entries| - 1;
      CleanMapTwice(entries[..n], a, b);
      KeptByLater(entries[n].0, a, b);
      var front := CleanMap(entries[..n], a);
      assert (front + [entries[n]])[..|front|] == front;
    }
  }

  /** The entries left of a map are its own, for kept dates, and all of those. */
  lemma {:induction false} CleanMapHolds<V>(entries: DateMap<V>, today: string)
    ensures forall e :: e in CleanMap(entries, today) <==> e in entries && Kept(e.0, today)
  {
    hide Kept;
    if entries != [] {
      var n := |entries| - 1;
      CleanMapHolds(entries[..n], today);
      assert entries == entries[..n] + [entries[n]];
    }
  }

  /** Something is left of a map exactly when it has an entry for a kept date. */
  lemma {:induction false} CleanMapLeaves<V>(entries: DateMap<V>, today: string)
    ensures CleanMap(entries, today) != [] <==> exists e :: e in entries && Kept(e.0, today)
  {
    hide Kept;
    if entries != [] {
      var n := |entries| - 1;
      CleanMapLeaves(entries[..n], today);
      assert entries == entries[..n] + [entries[n]];
    }
  }

  lemma CleanKeysTwice(keys: seq<string>, a: string, b: string)
    ensures CleanKeys(CleanKeys(keys, a), b) == CleanKeys(keys, Later(a, b))
  {
    hide Kept, Later, CleanKeys;
    CleanKeysKeep(keys, a);
    CleanKeysKeep(CleanKeys(keys, a), b);
    CleanKeysKeep(keys, Later(a, b));
    forall k ensures Kept(k, Later(a, b)) <==> Kept(k, a) && Kept(k, b) { KeptByLater(k, a, b); }
    SortedListIsItsSet(CleanKeys(CleanKeys(keys, a), b), CleanKeys(keys, Later(a, b)));
  }

  /** Cleaning on one day and then on another, in either order, is cleaning on the later day alone. */
  lemma CleanTwice<V>(dates: Dates<V>, a: string, b: string)
    ensures Clean(Clean(dates, a), b) == Clean(dates, Later(a, b))
    ensures !StringLess(b, a) ==> Clean(Clean(dates, a), b) == Clean(dates, b)
  {
    CleanMapTwice(dates.dateSchedules, a, b);
    CleanMapTwice(dates.scheduleOverrides, a, b);
    CleanKeysTwice(dates.nonWorkingDays, a, b);
    StringLessTrichotomy(a, b);
  }

  lemma {:induction false} LookupConcat<V>(front: DateMap<V>, last: (string, V), key: string)
    ensures Lookup(front + [last], key) ==
      if Lookup(front, key).Some? then Lookup(front, key) else if last.0 == key then Some(last.1) else None
  {
    if front != [] {
      LookupConcat(front[1..], last, key);
      assert (front + [last])[1..] == front[1..] + [last];
    }
  }

  /** Entries of kept dates survive as they are; the others are gone. */
  lemma {:induction false} CleanMapLooksUp<V>(entries: DateMap<V>, today: string, key: string)
    ensures Lookup(CleanMap(entries, today), key) == if Kept(key, today) then Lookup(entries, key) else None
  {
    hide Kept;
    if entries != [] {
      var n := |entries| - 1;
      CleanMapLooksUp(entries[..n], today, key);
      LookupConcat(entries[..n], entries[n], key);
      LookupConcat(CleanMap(entries[..n], today), entries[n], key);
      assert entries == entries[..n] + [entries[n]];
    }
  }

  // ----- Undoing the old all-closed default -----

  predicate ClosedDay(day: WeeklyDay) {
    day.working == Some(false) && day.from == "" && day.to == "" && day.breakFrom == "" && day.breakTo == ""
  }

  predicate HasAllDays(weekly: Option<Weekly>) {
    weekly.Some? && forall key :: key in DAY_KEYS ==> key in weekly.value.days
  }

  /** `isAllDaysOffShape` */
  predicate IsAllDaysOffShape(weekly: Option<Weekly>) {
    HasAllDays(weekly) && forall key :: key in DAY_KEYS ==> ClosedDay(weekly.value.days[key])
  }

  function OrEmpty(weekly: Option<Weekly>): Weekly {
    if weekly.Some? then weekly.value else Weekly(map[], false)
  }

  /** `normalizeAutoClosedWeeklySchedule` */
  function NormalizeAutoClosedWeekly(weekly: Option<Weekly>): Weekly {
    if weekly.Some? && weekly.value.markedAllOff && IsAllDaysOffShape(weekly) then weekly.value
    else if !HasAllDays(weekly) then OrEmpty(weekly)
    else if IsAllDaysOffShape(weekly) then Weekly(map[], false)
    else OrEmpty(weekly)
  }

  /** `normalizeScheduleForAvailability` */
  function NormalizeForAvailability(schedule: Schedule, today: string): Schedule {
    var weekly, dates := NormalizeAutoClosedWeekly(schedule.weekly), Clean(schedule.dates, today);
    if Some(weekly) == schedule.weekly && dates == schedule.dates then schedule
    else Schedule(dates, Some(weekly), schedule.explicitWeeklyDays, schedule.default)
  }

  // ----- The hours of one day -----

  datatype DaySchedule = DaySchedule(working: bool, from: string, to: string, breakFrom: string, breakTo: string)

  const DEFAULT_START := "09:00"
  const DEFAULT_END := "18:00"

  /** `text || fallback` */
  function OrElse(text: string, fallback: string): string { if text == "" then fallback else text }

  /** `getDayScheduleFromDefaultSchedule` */
  function FromDefaultSchedule(default: Option<Default>): DaySchedule {
    if default.None? then DaySchedule(true, DEFAULT_START, DEFAULT_END, "", "") else
      var d := default.value;
      DaySchedule(true, OrElse(d.startTime, DEFAULT_START), OrElse(d.endTime, DEFAULT_END),
                  if d.hasBreak then d.breakStart else "", if d.hasBreak then d.breakEnd else "")
  }

  /** `isMeaningfulWeeklyDay` */
  predicate IsMeaningfulDay(day: WeeklyDay) {
    day.working == Some(true) && TimeToMinutes(day.from).Some? && TimeToMinutes(day.to).Some?
  }

  /** `isWeeklyDayExplicit` */
  predicate IsWeeklyDayExplicit(schedule: Schedule, dayKey: string) {
    if schedule.explicitWeeklyDays.Some? then dayKey in schedule.explicitWeeklyDays.value
    else dayKey in OrEmpty(schedule.weekly).days
  }

  /** `getScheduleForDate` of `bookingUtils.js` */
  function GetScheduleForDate(schedule: Schedule, dateKey: string, dayKey: string, default: Option<Default>)
    : DaySchedule
  {
    var override := Lookup(schedule.dates.scheduleOverrides, dateKey);
    if override.Some? then
      var o := override.value;
      DaySchedule(o.isWorking, o.startTime, o.endTime, o.breakStart, o.breakEnd)
    else
      var days := OrEmpty(schedule.weekly).days;
      if IsWeeklyDayExplicit(schedule, dayKey) && dayKey in days && days[dayKey].working == Some(false) then
        var day := days[dayKey];
        DaySchedule(false, day.from, day.to, day.breakFrom, day.breakTo)
      else if IsWeeklyDayExplicit(schedule, dayKey) && dayKey in days && IsMeaningfulDay(days[dayKey]) then
        var day := days[dayKey];
        DaySchedule(true, day.from, day.to, day.breakFrom, day.breakTo)
      else FromDefaultSchedule(default)
  }

  // ----- What normalizing keeps -----

  /** Normalizing again on the same day changes nothing. */
  lemma NormalizeTwice(schedule: Schedule, today: string)
    ensures NormalizeForAvailability(NormalizeForAvailability(schedule, today), today) ==
      NormalizeForAvailability(schedule, today)
  {
    hide Clean;
    CleanTwice(schedule.dates, today, today);
    StringLessTrichotomy(today, today);
    assert "sun" in DAY_KEYS;
  }

  /** Every day closed, and no mark that the barber meant it. */
  predicate AutoClosed(weekly: Option<Weekly>) {
    IsAllDaysOffShape(weekly) && !weekly.value.markedAllOff
  }

  /** The unmarked all-closed week is the one with all seven days closed and without hours; normalizing
      empties it and leaves every other week as it is. */
  lemma AutoClosedIsEmptied(weekly: Option<Weekly>)
    ensures AutoClosed(weekly) <==>
      && weekly.Some? && !weekly.value.markedAllOff
      && forall key :: key in ["mon", "tue", "wed", "thu", "fri", "sat", "sun"] ==>
           && key in weekly.value.days
           && weekly.value.days[key] == WeeklyDay(Some(false), "", "", "", "")
    ensures NormalizeAutoClosedWeekly(weekly) ==
      if weekly.None? || AutoClosed(weekly) then Weekly(map[], false) else weekly.value
  {
    assert forall key :: key in DAY_KEYS <==> key in ["mon", "tue", "wed", "thu", "fri", "sat", "sun"];
  }

  /** For a date from today on, normalizing keeps membership in the days off, and it keeps the day's
      hours exactly unless no override exists, the weekly schedule is the unmarked all-closed one, and
      the weekday counts as explicit; then a closed day turns into one with the default hours. */
  lemma NormalizeKeepsDay(schedule: Schedule, today: string, dateKey: string, dayKey: string, default: Option<Default>)
    requires Kept(dateKey, today) && dayKey in DAY_KEYS
    ensures var after := NormalizeForAvailability(schedule, today);
      && (dateKey in after.dates.nonWorkingDays <==> dateKey in schedule.dates.nonWorkingDays)
      && (GetScheduleForDate(after, dateKey, dayKey, default) ==
            GetScheduleForDate(schedule, dateKey, dayKey, default) <==>
            || Lookup(schedule.dates.scheduleOverrides, dateKey).Some?
            || !AutoClosed(schedule.weekly)
            || !IsWeeklyDayExplicit(schedule, dayKey))
  {
    hide Kept, CleanMap, CleanKeys, Lookup, TimeToMinutes;
    CleanMapLooksUp(schedule.dates.scheduleOverrides, today, dateKey);
    CleanKeysKeep(schedule.dates.nonWorkingDays, today);
  }
}
