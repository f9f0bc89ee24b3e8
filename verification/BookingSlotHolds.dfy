/** The backfill of slot holds: one stored hold per minute of each active booking, planned from the
    bookings and the holds already there, refused when they contradict each other. */
module BookingSlotHolds {
  import opened Wrappers
  import opened BookingDateTime
  import opened BookingUtils

  datatype Booking = Booking(id: nat, barber: Option<nat>, date: string, time: string, duration: Num)

  /** A minute of a barber's day. The text keys that join its parts with `|` tell different ones apart,
      since neither an id nor a number contains that sign. */
  datatype Key = Key(barber: nat, date: string, minute: int)

  datatype Doc = Doc(booking: nat, key: Key)

  datatype Hold = Hold(id: nat, doc: Doc)

  /** What the plan reports instead of going ahead. */
  datatype Issue =
    | InvalidBooking(booking: nat)
    | BookingClash(booking: nat, other: nat, key: Key)
    | DuplicateHold(hold: nat, otherHold: nat, booking: nat)
    | HoldClash(hold: nat, booking: nat, other: nat, key: Key)

  /** `getStrictBookingSlotMinutes` */
  function StrictMinutes(b: Booking): seq<int> {
    var start := TimeToMinutes(b.time);
    if !IsDateKey(b.date) || start.None? || !b.duration.Finite? || b.duration.value != b.duration.value.Floor as real
       || b.duration.value <= 0.0 || start.value as real + b.duration.value > MINUTES_PER_DAY as real then []
    else seq(b.duration.value.Floor, offset => start.value + offset)
  }

  predicate IsValid(b: Booking) { b.barber.Some? && StrictMinutes(b) != [] }

  predicate Covers(b: Booking, k: Key) {
    IsValid(b) && k.barber == b.barber.value && k.date == b.date && k.minute in StrictMinutes(b)
  }

  // ----- What a safe state of affairs is -----

  predicate DistinctIds(bookings: seq<Booking>) {
    forall i, j :: 0 <= i < j < |bookings| ==> bookings[i].id != bookings[j].id
  }

  ghost predicate Apart(b: Booking, c: Booking) { forall k :: Covers(b, k) ==> !Covers(c, k) }

  ghost predicate BookingsSound(bookings: seq<Booking>) {
    && (forall b :: b in bookings ==> IsValid(b))
    && forall i, j :: 0 <= i < j < |bookings| ==> Apart(bookings[i], bookings[j])
  }

  function BookingKey(d: Doc): (nat, string, int) { (d.booking, d.key.date, d.key.minute) }

  /** No two holds share booking, date and minute: the second unique index. */
  predicate UniqueByBooking(holds: seq<Hold>) {
    forall i, j :: 0 <= i < j < |holds| ==> BookingKey(holds[i].doc) != BookingKey(holds[j].doc)
  }

  /** No two holds share barber, date and minute: the first unique index. */
  predicate UniqueBySlot(holds: seq<Hold>) {
    forall i, j :: 0 <= i < j < |holds| ==> holds[i].doc.key != holds[j].doc.key
  }

  /** No hold takes a booked minute for another booking. */
  predicate HoldsAgree(holds: seq<Hold>, bookings: seq<Booking>) {
    forall h, b :: h in holds && b in bookings && Covers(b, h.doc.key) ==> h.doc.booking == b.id
  }

  ghost predicate Sound(bookings: seq<Booking>, holds: seq<Hold>) {
    BookingsSound(bookings) && UniqueByBooking(holds) && HoldsAgree(holds, bookings)
  }

  /** Valid bookings of one barber share a minute exactly when they are on one day and overlap in the
      sense of `slotOverlaps`. */
  lemma ApartIsNoOverlap(b: Booking, c: Booking)
    requires IsValid(b) && IsValid(c)
    ensures Apart(b, c) <==>
      !(b.barber == c.barber && b.date == c.date && SlotOverlaps(b.time, b.duration, c.time, c.duration))
  {
    hide TimeToMinutes, IsDateKey;
    var s, t := TimeToMinutes(b.time).value, TimeToMinutes(c.time).value;
    var m, n := b.duration.value.Floor, c.duration.value.Floor;
    assert forall minute :: minute in StrictMinutes(b) <==> s <= minute < s + m by { MinutesOf(b); }
    assert forall minute :: minute in StrictMinutes(c) <==> t <= minute < t + n by { MinutesOf(c); }
    hide StrictMinutes;
    var both := Key(b.barber.value, b.date, if s < t then t else s);
    if b.barber == c.barber && b.date == c.date && t < s + m && t + n > s {
      assert Covers(b, both) && Covers(c, both);
    }
  }

  lemma MinutesOf(b: Booking)
    requires IsValid(b)
    ensures forall minute :: minute in StrictMinutes(b) <==>
      TimeToMinutes(b.time).value <= minute < TimeToMinutes(b.time).value + b.duration.value.Floor
    ensures TimeToMinutes(b.time).Some? && b.duration.Finite? && 0 < b.duration.value.Floor
    ensures b.duration.value == b.duration.value.Floor as real
    ensures forall i :: 0 <= i < |StrictMinutes(b)| ==> StrictMinutes(b)[i] == TimeToMinutes(b.time).value + i
  {
    hide TimeToMinutes, IsDateKey;
    var start, minutes := TimeToMinutes(b.time).value, StrictMinutes(b);
    forall minute | start <= minute < start + |minutes| ensures minute in minutes {
      assert minutes[minute - start] == minute;
    }
  }

  /** The booking occupies the minute: it names the barber and a real day and time, lasts a whole number of
      minutes within its day, and the minute is one of them. */
  predicate Occupies(b: Booking, k: Key) {
    && b.barber == Some(k.barber) && b.date == k.date && IsDateKey(b.date) && TimeToMinutes(b.time).Some?
    && b.duration.Finite? && b.duration.value == b.duration.value.Floor as real
    && var start := TimeToMinutes(b.time).value;
       start <= k.minute < start + b.duration.value.Floor <= 24 * 60
  }

  /** What is booked, in numbers; a booking is valid exactly when it occupies some minute. */
  lemma CoversInNumbers(b: Booking)
    ensures forall k :: Covers(b, k) <==> Occupies(b, k)
    ensures IsValid(b) <==> exists k :: Occupies(b, k)
  {
    hide TimeToMinutes, IsDateKey;
    if IsValid(b) {
      MinutesOf(b);
      var k := Key(b.barber.value, b.date, TimeToMinutes(b.time).value);
      assert Covers(b, k) && Occupies(b, k);
    }
    forall k ensures Covers(b, k) <==> Occupies(b, k) {
      if Occupies(b, k) {
        var start, n := TimeToMinutes(b.time).value, b.duration.value.Floor;
        assert StrictMinutes(b) == seq(n, offset => start + offset);
        assert StrictMinutes(b)[k.minute - start] == k.minute;
      }
    }
  }

  // ----- The plan -----

  /** The holds of one booking. */
  function DocsOf(b: Booking): seq<Doc> {
    if b.barber.None? then [] else
      var minutes := StrictMinutes(b);
      seq(|minutes|, i requires 0 <= i < |minutes| => Doc(b.id, Key(b.barber.value, b.date, minutes[i])))
  }

  /** The holds of all bookings. */
  function AllDocs(bookings: seq<Booking>): seq<Doc> {
    if bookings == [] then [] else AllDocs(bookings[..|bookings| - 1]) + DocsOf(bookings[|bookings| - 1])
  }

  lemma DocsCover(b: Booking, d: Doc)
    ensures d in DocsOf(b) <==> d.booking == b.id && Covers(b, d.key)
  {
    hide StrictMinutes;
    if d.booking == b.id && Covers(b, d.key) {
      var i :| 0 <= i < |StrictMinutes(b)| && StrictMinutes(b)[i] == d.key.minute;
      assert DocsOf(b)[i] == d;
    }
  }

  lemma {:induction false} AllDocsCover(bookings: seq<Booking>, d: Doc)
    ensures d in AllDocs(bookings) <==> exists b :: b in bookings && b.id == d.booking && Covers(b, d.key)
  {
    hide Covers, DocsOf;
    if bookings != [] {
      var n := |bookings| - 1;
      AllDocsCover(bookings[..n], d);
      DocsCover(bookings[n], d);
      assert bookings == bookings[..n] + [bookings[n]];
    }
  }

  /** Which booking each claimed minute was given to. */
  ghost predicate Owners(bookings: seq<Booking>, seen: map<Key, nat>) {
    && (forall b, k :: b in bookings && Covers(b, k) ==> k in seen)
    && forall k :: k in seen ==> exists b :: b in bookings && b.id == seen[k] && Covers(b, k)
  }

  /** What a reported issue says is so. */
  ghost predicate IsReal(bookings: seq<Booking>, holds: seq<Hold>, issue: Issue) {
    match issue
    case InvalidBooking(id) => exists b :: b in bookings && b.id == id && !IsValid(b)
    case BookingClash(id, other, k) =>
      && id != other && (exists b :: b in bookings && b.id == id && Covers(b, k))
      && exists c :: c in bookings && c.id == other && Covers(c, k)
    case DuplicateHold(id, other, booking) =>
      exists i, j :: 0 <= i < j < |holds| && holds[i].id == other && holds[j].id == id
        && BookingKey(holds[i].doc) == BookingKey(holds[j].doc) && holds[j].doc.booking == booking
    case HoldClash(id, booking, other, k) =>
      && booking != other && Hold(id, Doc(booking, k)) in holds
      && exists b :: b in bookings && b.id == other && Covers(b, k)
  }

  /** A minute of `b` that is already given to another booking. */
  predicate IsClash(b: Booking, seen: map<Key, nat>, issue: Issue) {
    && issue.BookingClash? && issue.booking == b.id
    && Covers(b, issue.key) && issue.key in seen && issue.other == seen[issue.key]
  }

  /** The inner loop: claims the minutes of one booking, keeping the first claim on each. */
  method PlaceMinutes(b: Booking, seen: map<Key, nat>, desired: seq<Doc>, overlaps: seq<Issue>)
    returns (seen': map<Key, nat>, desired': seq<Doc>, overlaps': seq<Issue>)
    requires IsValid(b) && forall k :: k in seen ==> seen[k] != b.id
    ensures forall k :: k in seen' <==> k in seen || Covers(b, k)
    ensures forall k :: k in seen' ==> seen'[k] == if k in seen then seen[k] else b.id
    ensures overlaps <= overlaps' && (overlaps' == overlaps <==> forall k :: Covers(b, k) ==> k !in seen)
    ensures overlaps' == overlaps ==> desired' == desired + DocsOf(b)
    ensures forall d :: d in desired' <==> d in desired || (d in DocsOf(b) && d.key !in seen)
    ensures forall issue :: issue in overlaps' ==> issue in overlaps || IsClash(b, seen, issue)
  {
    hide StrictMinutes;
    var minutes := StrictMinutes(b);
    ghost var docs := DocsOf(b);
    seen', desired', overlaps' := seen, desired, overlaps;
    for i := 0 to |minutes|
      invariant forall k :: k in seen' <==> k in seen || (Covers(b, k) && k.minute in minutes[..i])
      invariant forall k :: k in seen' ==> seen'[k] == if k in seen then seen[k] else b.id
      invariant overlaps <= overlaps' && (overlaps' == overlaps <==> forall d :: d in docs[..i] ==> d.key !in seen)
      invariant overlaps' == overlaps ==> desired' == desired + docs[..i]
      invariant forall d :: d in desired' <==> d in desired || (d in docs[..i] && d.key !in seen)
      invariant forall issue :: issue in overlaps' ==> issue in overlaps || IsClash(b, seen, issue)
    {
      var key := Key(b.barber.value, b.date, minutes[i]);
      assert docs[i] == Doc(b.id, key) && docs[..i + 1] == docs[..i] + [docs[i]];
      assert minutes[..i + 1] == minutes[..i] + [minutes[i]];
      if key in seen' && seen'[key] != b.id {
        overlaps' := overlaps' + [BookingClash(b.id, seen'[key], key)];
        continue;
      }
      seen' := seen'[key := b.id];
      desired' := desired' + [Doc(b.id, key)];
    }
    assert docs[..|docs|] == docs && minutes[..|minutes|] == minutes;
    forall k | Covers(b, k) ensures Doc(b.id, k) in docs { DocsCover(b, Doc(b.id, k)); }
    forall d | d in docs ensures Covers(b, d.key) { DocsCover(b, d); }
  }

  ghost predicate AllReal(bookings: seq<Booking>, holds: seq<Hold>, overlaps: seq<Issue>) {
    forall issue :: issue in overlaps ==> IsReal(bookings, holds, issue)
  }

  /** One more booking on top of a prefix whose claims are `seen`. */
  lemma OneMoreBooking(prefix: seq<Booking>, b: Booking, seen: map<Key, nat>, seen': map<Key, nat>)
    requires IsValid(b) && Owners(prefix, seen)
    requires forall k :: k in seen' <==> k in seen || Covers(b, k)
    requires forall k :: k in seen' ==> seen'[k] == if k in seen then seen[k] else b.id
    ensures Owners(prefix + [b], seen')
    ensures BookingsSound(prefix + [b]) <==> BookingsSound(prefix) && forall k :: Covers(b, k) ==> k !in seen
  {
    hide Covers, IsValid, BookingsSound;
    var all := prefix + [b];
    forall k | k in seen' ensures exists c :: c in all && c.id == seen'[k] && Covers(c, k) {
      if k in seen {
        var c :| c in prefix && c.id == seen[k] && Covers(c, k);
        assert c in all;
      } else {
        assert b in all;
      }
    }
    OneMoreIsSound(prefix, b, seen);
  }

  lemma OneMoreIsSound(prefix: seq<Booking>, b: Booking, seen: map<Key, nat>)
    requires IsValid(b) && Owners(prefix, seen)
    ensures BookingsSound(prefix + [b]) <==> BookingsSound(prefix) && forall k :: Covers(b, k) ==> k !in seen
  {
    hide Covers, IsValid;
    var all, n := prefix + [b], |prefix|;
    assert forall i :: 0 <= i < n ==> all[i] == prefix[i];
    if BookingsSound(all) {
      assert forall c :: c in prefix ==> c in all;
      assert forall i :: 0 <= i < n ==> Apart(all[i], all[n]);
    }
  }

  lemma InvalidIsUnsound(prefix: seq<Booking>, b: Booking)
    requires !IsValid(b)
    ensures !BookingsSound(prefix + [b])
  {
    assert b in prefix + [b];
  }

  lemma ClashesAreReal(bookings: seq<Booking>, holds: seq<Hold>, i: nat, seen: map<Key, nat>, issue: Issue)
    requires DistinctIds(bookings) && i < |bookings| && Owners(bookings[..i], seen) && IsClash(bookings[i], seen, issue)
    ensures IsReal(bookings, holds, issue)
  {
    hide Covers, IsValid;
    var c :| c in bookings[..i] && c.id == seen[issue.key] && Covers(c, issue.key);
    assert bookings[i] in bookings && c in bookings;
  }

  lemma ClaimsAreOthers(bookings: seq<Booking>, i: nat, seen: map<Key, nat>)
    requires DistinctIds(bookings) && i < |bookings| && Owners(bookings[..i], seen)
    ensures forall k :: k in seen ==> seen[k] != bookings[i].id
  {
    hide Covers;
  }

  /** The first half of `collectBookingSlotHoldBackfillPlan`: claims minutes booking by booking. */
  method PlanBookings(bookings: seq<Booking>, ghost holds: seq<Hold>)
    returns (desired: seq<Doc>, seen: map<Key, nat>, overlaps: seq<Issue>)
    requires DistinctIds(bookings)
    ensures Owners(bookings, seen) && AllReal(bookings, holds, overlaps)
    ensures overlaps == [] <==> BookingsSound(bookings)
    ensures overlaps == [] ==> desired == AllDocs(bookings)
  {
    hide DistinctIds, Owners, BookingsSound, IsReal, IsValid, Covers, DocsOf, IsClash;
    desired, seen, overlaps := [], map[], [];
    NoBookings();
    for i := 0 to |bookings|
      invariant Owners(bookings[..i], seen) && AllReal(bookings, holds, overlaps)
      invariant overlaps == [] <==> BookingsSound(bookings[..i])
      invariant overlaps == [] ==> desired == AllDocs(bookings[..i])
    {
      var b := bookings[i];
      assert bookings[..i + 1] == bookings[..i] + [b] && bookings[..i + 1][..i] == bookings[..i];
      if !IsValid(b) {
        InvalidIsUnsound(bookings[..i], b);
        InvalidIsReal(bookings, holds, i, seen);
        overlaps := overlaps + [InvalidBooking(b.id)];
        continue;
      }
      ClaimsAreOthers(bookings, i, seen);
      var seen', desired', overlaps' := PlaceMinutes(b, seen, desired, overlaps);
      OneMoreBooking(bookings[..i], b, seen, seen');
      forall issue | issue in overlaps' ensures IsReal(bookings, holds, issue) {
        if issue !in overlaps { ClashesAreReal(bookings, holds, i, seen, issue); }
      }
      desired, seen, overlaps := desired', seen', overlaps';
    }
    assert bookings[..|bookings|] == bookings;
  }

  lemma NoBookings()
    ensures Owners([], map[]) && BookingsSound([])
  {
  }

  lemma InvalidIsReal(bookings: seq<Booking>, holds: seq<Hold>, i: nat, seen: map<Key, nat>)
    requires i < |bookings| && !IsValid(bookings[i]) && Owners(bookings[..i], seen)
    ensures IsReal(bookings, holds, InvalidBooking(bookings[i].id))
    ensures Owners(bookings[..i] + [bookings[i]], seen)
  {
    hide StrictMinutes;
    assert bookings[i] in bookings;
    forall k | k in seen ensures exists b :: b in bookings[..i] + [bookings[i]] && b.id == seen[k] && Covers(b, k) {
      var b :| b in bookings[..i] && b.id == seen[k] && Covers(b, k);
      assert b in bookings[..i] + [bookings[i]];
    }
  }

  /** In a sound set of bookings, the claim on a minute is the one booking that covers it. */
  lemma OneOwner(bookings: seq<Booking>, seen: map<Key, nat>, b: Booking, k: Key)
    requires BookingsSound(bookings) && Owners(bookings, seen) && b in bookings && Covers(b, k)
    ensures k in seen && seen[k] == b.id
  {
    hide Covers, IsValid;
    var c :| c in bookings && c.id == seen[k] && Covers(c, k);
    var i :| 0 <= i < |bookings| && bookings[i] == b;
    var j :| 0 <= j < |bookings| && bookings[j] == c;
    assert Apart(bookings[i], bookings[j]) || Apart(bookings[j], bookings[i]) || i == j;
  }

  /** One more hold, checked against the claims. */
  lemma OneMoreHold(bookings: seq<Booking>, prefix: seq<Hold>, h: Hold, seen: map<Key, nat>)
    requires BookingsSound(bookings) && Owners(bookings, seen)
    ensures HoldsAgree(prefix + [h], bookings) <==>
      HoldsAgree(prefix, bookings) && (h.doc.key in seen ==> seen[h.doc.key] == h.doc.booking)
    ensures UniqueByBooking(prefix + [h]) <==>
      UniqueByBooking(prefix) && forall g :: g in prefix ==> BookingKey(g.doc) != BookingKey(h.doc)
  {
    var all, n, k := prefix + [h], |prefix|, h.doc.key;
    hide Covers, BookingsSound;
    forall b | b in bookings && Covers(b, k) ensures k in seen && seen[k] == b.id { OneOwner(bookings, seen, b, k); }
    assert h in all && forall g :: g in prefix ==> g in all;
    if k in seen {
      var c :| c in bookings && c.id == seen[k] && Covers(c, k);
    }
    assert all[n] == h && forall i :: 0 <= i < n ==> all[i] == prefix[i];
  }

  /** The holds seen so far, by booking, date and minute. */
  ghost predicate SeenHolds(holds: seq<Hold>, seen: map<(nat, string, int), nat>) {
    && (forall h :: h in holds ==> BookingKey(h.doc) in seen)
    && forall key :: key in seen ==> exists h :: h in holds && BookingKey(h.doc) == key && h.id == seen[key]
  }

  /** The second half: checks the stored holds against each other and against the claims. */
  method CheckHolds(bookings: seq<Booking>, holds: seq<Hold>, seenKeys: map<Key, nat>, start: seq<Issue>)
    returns (overlaps: seq<Issue>)
    requires Owners(bookings, seenKeys) && AllReal(bookings, holds, start)
    requires start == [] <==> BookingsSound(bookings)
    ensures AllReal(bookings, holds, overlaps)
    ensures overlaps == [] <==> Sound(bookings, holds)
  {
    hide Owners, BookingsSound, IsReal, SeenHolds, HoldsAgree, UniqueByBooking;
    var seenExisting: map<(nat, string, int), nat> := map[];
    overlaps := start;
    NoHolds(bookings);
    for j := 0 to |holds|
      invariant SeenHolds(holds[..j], seenExisting) && AllReal(bookings, holds, overlaps)
      invariant overlaps == [] <==> Sound(bookings, holds[..j])
    {
      var hold := holds[j];
      var bookingKey := BookingKey(hold.doc);
      assert holds[..j + 1] == holds[..j] + [hold];
      HoldStep(bookings, holds, j, seenKeys, seenExisting);
      if bookingKey in seenExisting {
        overlaps := overlaps + [DuplicateHold(hold.id, seenExisting[bookingKey], hold.doc.booking)];
      } else {
        seenExisting := seenExisting[bookingKey := hold.id];
      }
      var key := hold.doc.key;
      if key in seenKeys && seenKeys[key] != hold.doc.booking {
        overlaps := overlaps + [HoldClash(hold.id, hold.doc.booking, seenKeys[key], key)];
      }
    }
    assert holds[..|holds|] == holds;
  }

  lemma NoHolds(bookings: seq<Booking>)
    ensures SeenHolds([], map[]) && HoldsAgree([], bookings) && UniqueByBooking([])
  {
  }

  /** What one turn of the loop over the holds finds. */
  lemma HoldStep(bookings: seq<Booking>, holds: seq<Hold>, j: nat, seenKeys: map<Key, nat>,
      seen: map<(nat, string, int), nat>)
    requires j < |holds| && Owners(bookings, seenKeys) && SeenHolds(holds[..j], seen)
    ensures var hold := holds[j];
      var bookingKey, key := BookingKey(hold.doc), hold.doc.key;
      var clash := key in seenKeys && seenKeys[key] != hold.doc.booking;
      && SeenHolds(holds[..j] + [hold], if bookingKey in seen then seen else seen[bookingKey := hold.id])
      && (bookingKey in seen ==> IsReal(bookings, holds, DuplicateHold(hold.id, seen[bookingKey], hold.doc.booking)))
      && (clash ==> IsReal(bookings, holds, HoldClash(hold.id, hold.doc.booking, seenKeys[key], key)))
      && (BookingsSound(bookings) ==>
            (Sound(bookings, holds[..j] + [hold]) <==> Sound(bookings, holds[..j]) && bookingKey !in seen && !clash))
  {
    hide Covers, IsValid, Owners, BookingsSound, HoldsAgree, UniqueByBooking;
    var hold, prefix := holds[j], holds[..j];
    var bookingKey := BookingKey(hold.doc);
    if BookingsSound(bookings) {
      OneMoreHold(bookings, prefix, hold, seenKeys);
    }
    SeenStep(holds, j, seen);
    ClashIsReal(bookings, holds, j, seenKeys);
  }

  lemma ClashIsReal(bookings: seq<Booking>, holds: seq<Hold>, j: nat, seenKeys: map<Key, nat>)
    requires j < |holds| && Owners(bookings, seenKeys)
    ensures var hold, key := holds[j], holds[j].doc.key;
      key in seenKeys && seenKeys[key] != hold.doc.booking ==>
        IsReal(bookings, holds, HoldClash(hold.id, hold.doc.booking, seenKeys[key], key))
  {
    hide Covers, IsValid;
    assert Hold(holds[j].id, Doc(holds[j].doc.booking, holds[j].doc.key)) == holds[j];
  }

  lemma SeenStep(holds: seq<Hold>, j: nat, seen: map<(nat, string, int), nat>)
    requires j < |holds| && SeenHolds(holds[..j], seen)
    ensures var hold, key := holds[j], BookingKey(holds[j].doc);
      && SeenHolds(holds[..j] + [hold], if key in seen then seen else seen[key := hold.id])
      && (key in seen <==> exists g :: g in holds[..j] && BookingKey(g.doc) == key)
      && forall bookings :: key in seen ==> IsReal(bookings, holds, DuplicateHold(hold.id, seen[key], hold.doc.booking))
  {
    var hold, key := holds[j], BookingKey(holds[j].doc);
    var after := if key in seen then seen else seen[key := hold.id];
    forall k | k in after ensures exists h :: h in holds[..j] + [hold] && BookingKey(h.doc) == k && h.id == after[k] {
      if k in seen {
        var h :| h in holds[..j] && BookingKey(h.doc) == k && h.id == seen[k];
        assert h in holds[..j] + [hold];
      } else {
        assert hold in holds[..j] + [hold];
      }
    }
    if key in seen {
      var i :| 0 <= i < j && BookingKey(holds[..j][i].doc) == key && holds[..j][i].id == seen[key];
      assert holds[i] == holds[..j][i];
    }
  }

  datatype Plan = Plan(desired: seq<Doc>, desiredKeys: set<Key>, overlaps: seq<Issue>)

  /** `collectBookingSlotHoldBackfillPlan`: it reports nothing exactly when the bookings are valid and
      pairwise apart, no two holds repeat each other and none contradicts a booking; every report is true;
      and without one the plan is one hold per booked minute. */
  method CollectPlan(bookings: seq<Booking>, holds: seq<Hold>) returns (plan: Plan)
    requires DistinctIds(bookings)
    ensures plan.overlaps == [] <==> Sound(bookings, holds)
    ensures AllReal(bookings, holds, plan.overlaps)
    ensures plan.overlaps == [] ==> plan.desired == AllDocs(bookings)
    ensures plan.desiredKeys == set d | d in plan.desired :: d.key
  {
    hide *;
    var desired, seen, overlaps := PlanBookings(bookings, holds);
    var all := CheckHolds(bookings, holds, seen, overlaps);
    plan := Plan(desired, set d | d in desired :: d.key, all);
    SoundBookings(bookings, holds);
  }

  lemma SoundBookings(bookings: seq<Booking>, holds: seq<Hold>)
    ensures Sound(bookings, holds) ==> BookingsSound(bookings)
  {
  }

  // ----- Writing the holds -----

  predicate Has(holds: seq<Hold>, d: Doc) { exists h :: h in holds && h.doc == d }

  /** The holds left after `deleteMany` of those on no booked minute. */
  function WithoutStale(holds: seq<Hold>, keys: set<Key>): seq<Hold> {
    if holds == [] then [] else
      var front, last := WithoutStale(holds[..|holds| - 1], keys), holds[|holds| - 1];
      if last.doc.key in keys then front + [last] else front
  }

  /** `updateOne` with `$setOnInsert` and `upsert`: inserts the document unless one equals it. */
  function Upsert(holds: seq<Hold>, d: Doc, id: nat): seq<Hold> {
    if Has(holds, d) then holds else holds + [Hold(id, d)]
  }

  /** The ordered `bulkWrite`; `id` is the first id not yet used. */
  function UpsertAll(holds: seq<Hold>, docs: seq<Doc>, id: nat): seq<Hold> {
    if docs == [] then holds else
      var n := |docs| - 1;
      Upsert(UpsertAll(holds, docs[..n], id), docs[n], id + n)
  }

  /** What a run with `--write` leaves when the plan reports nothing. */
  function Backfilled(holds: seq<Hold>, bookings: seq<Booking>, id: nat): seq<Hold> {
    UpsertAll(WithoutStale(holds, set d | d in AllDocs(bookings) :: d.key), AllDocs(bookings), id)
  }

  class HoldCollection {
    var holds: seq<Hold>
    var nextId: nat

    constructor ()
      ensures holds == [] && nextId == 0
    {
      holds, nextId := [], 0;
    }

    /** `deleteMany` of the holds whose ids are listed; ids are those of the collection itself. */
    method DeleteStale(keys: set<Key>)
      modifies this`holds
      ensures holds == WithoutStale(old(holds), keys)
    {
      var kept: seq<Hold> := [];
      for i := 0 to |holds|
        invariant kept == WithoutStale(holds[..i], keys)
      {
        assert holds[..i + 1][..i] == holds[..i];
        if holds[i].doc.key in keys { kept := kept + [holds[i]]; }
      }
      assert holds[..|holds|] == holds;
      holds := kept;
    }

    method BulkUpsert(docs: seq<Doc>)
      modifies this
      ensures holds == UpsertAll(old(holds), docs, old(nextId)) && nextId == old(nextId) + |docs|
    {
      for i := 0 to |docs|
        invariant holds == UpsertAll(old(holds), docs[..i], old(nextId)) && nextId == old(nextId) + i
      {
        assert docs[..i + 1][..i] == docs[..i];
        holds := Upsert(holds, docs[i], nextId);
        nextId := nextId + 1;
      }
      assert docs[..|docs|] == docs;
    }

    /** The script's `main`: plans, refuses to write when anything is reported, else deletes and upserts. */
    method Backfill(bookings: seq<Booking>, shouldWrite: bool) returns (overlaps: seq<Issue>)
      requires DistinctIds(bookings)
      modifies this
      ensures overlaps == [] <==> Sound(bookings, old(holds))
      ensures AllReal(bookings, old(holds), overlaps)
      ensures holds == if shouldWrite && overlaps == [] then Backfilled(old(holds), bookings, old(nextId))
                       else old(holds)
    {
      hide DistinctIds, Sound, AllReal, UpsertAll, WithoutStale, AllDocs;
      var plan := CollectPlan(bookings, holds);
      overlaps := plan.overlaps;
      if overlaps != [] || !shouldWrite { return; }
      DeleteStale(plan.desiredKeys);
      BulkUpsert(plan.desired);
    }
  }

  // ----- Main results -----

  /** Every hold stands for a minute of the booking it names. */
  ghost predicate Faithful(holds: seq<Hold>, bookings: seq<Booking>) {
    forall h :: h in holds ==> h.doc in AllDocs(bookings)
  }

  lemma {:induction false} WithoutStaleKeeps(holds: seq<Hold>, keys: set<Key>)
    ensures forall h :: h in WithoutStale(holds, keys) <==> h in holds && h.doc.key in keys
    ensures UniqueByBooking(holds) ==> UniqueByBooking(WithoutStale(holds, keys))
  {
    if holds != [] {
      var n := |holds| - 1;
      WithoutStaleKeeps(holds[..n], keys);
      assert holds == holds[..n] + [holds[n]];
      if UniqueByBooking(holds) {
        var kept := WithoutStale(holds[..n], keys);
        forall i | 0 <= i < |kept| ensures BookingKey(kept[i].doc) != BookingKey(holds[n].doc) {
          assert kept[i] in holds[..n];
        }
      }
    }
  }

  /** Two planned holds on one minute are the same. */
  lemma PlannedOnce(bookings: seq<Booking>, d: Doc, e: Doc)
    requires BookingsSound(bookings) && d in AllDocs(bookings) && e in AllDocs(bookings)
    ensures d.key == e.key ==> d == e
    ensures DistinctIds(bookings) && BookingKey(d) == BookingKey(e) ==> d == e
  {
    hide AllDocs, StrictMinutes;
    AllDocsCover(bookings, d);
    AllDocsCover(bookings, e);
    var i :| 0 <= i < |bookings| && bookings[i].id == d.booking && Covers(bookings[i], d.key);
    var j :| 0 <= j < |bookings| && bookings[j].id == e.booking && Covers(bookings[j], e.key);
    assert i < j ==> Apart(bookings[i], bookings[j]);
    assert j < i ==> Apart(bookings[j], bookings[i]);
  }

  lemma FaithfulIsUnique(bookings: seq<Booking>, holds: seq<Hold>)
    requires BookingsSound(bookings) && DistinctIds(bookings) && Faithful(holds, bookings)
    ensures UniqueBySlot(holds) <==> UniqueByBooking(holds)
  {
    hide AllDocs, BookingsSound, DistinctIds;
    forall i, j | 0 <= i < j < |holds|
      ensures holds[i].doc.key == holds[j].doc.key <==> BookingKey(holds[i].doc) == BookingKey(holds[j].doc)
    {
      PlannedOnce(bookings, holds[i].doc, holds[j].doc);
    }
  }

  /** After the deletion only holds that stand for a planned one are left. */
  lemma KeptAreFaithful(bookings: seq<Booking>, holds: seq<Hold>)
    requires Sound(bookings, holds)
    ensures Faithful(WithoutStale(holds, set d | d in AllDocs(bookings) :: d.key), bookings)
  {
    hide AllDocs, BookingsSound, Covers, UniqueByBooking;
    var keys := set d | d in AllDocs(bookings) :: d.key;
    WithoutStaleKeeps(holds, keys);
    forall h | h in WithoutStale(holds, keys) ensures h.doc in AllDocs(bookings) {
      var d :| d in AllDocs(bookings) && d.key == h.doc.key;
      AllDocsCover(bookings, d);
      AllDocsCover(bookings, h.doc);
    }
  }

  /** Before and after each of the writes, all holds are faithful, both unique indexes hold, and the
      holds written so far are there. */
  lemma {:induction false} UpsertsKeepIndexes(bookings: seq<Booking>, holds: seq<Hold>, docs: seq<Doc>, id: nat)
    requires BookingsSound(bookings) && DistinctIds(bookings) && Faithful(holds, bookings) && UniqueBySlot(holds)
    requires forall d :: d in docs ==> d in AllDocs(bookings)
    ensures var after := UpsertAll(holds, docs, id);
      && Faithful(after, bookings) && UniqueBySlot(after) && UniqueByBooking(after)
      && forall d :: d in docs ==> Has(after, d)
  {
    hide AllDocs, BookingsSound, DistinctIds, UniqueByBooking;
    if docs != [] {
      var n := |docs| - 1;
      UpsertsKeepIndexes(bookings, holds, docs[..n], id);
      var before, after := UpsertAll(holds, docs[..n], id), UpsertAll(holds, docs, id);
      assert docs == docs[..n] + [docs[n]];
      forall h | h in before ensures h in after && (h.doc.key == docs[n].key ==> h.doc == docs[n]) {
        PlannedOnce(bookings, h.doc, docs[n]);
      }
      if !Has(before, docs[n]) {
        assert after[|before|] in after && after[|before|].doc == docs[n];
      }
    }
    FaithfulIsUnique(bookings, UpsertAll(holds, docs, id));
  }

  lemma {:induction false} UpsertsOfPresent(holds: seq<Hold>, docs: seq<Doc>, id: nat)
    requires forall d :: d in docs ==> Has(holds, d)
    ensures UpsertAll(holds, docs, id) == holds
  {
    if docs != [] {
      UpsertsOfPresent(holds, docs[..|docs| - 1], id);
      assert docs[|docs| - 1] in docs;
    }
  }

  lemma {:induction false} NothingStale(holds: seq<Hold>, keys: set<Key>)
    requires forall h :: h in holds ==> h.doc.key in keys
    ensures WithoutStale(holds, keys) == holds
  {
    if holds != [] {
      var n := |holds| - 1;
      NothingStale(holds[..n], keys);
      assert holds == holds[..n] + [holds[n]];
    }
  }

  lemma BackfillCovers(bookings: seq<Booking>, holds: seq<Hold>, id: nat, done: nat)
    requires DistinctIds(bookings) && Sound(bookings, holds) && done <= |AllDocs(bookings)|
    ensures var kept := WithoutStale(holds, set d | d in AllDocs(bookings) :: d.key);
      var during := UpsertAll(kept, AllDocs(bookings)[..done], id);
      Faithful(during, bookings) && UniqueBySlot(during) && UniqueByBooking(during)
    ensures var after := Backfilled(holds, bookings, id);
      && (forall h :: h in after ==> exists b :: b in bookings && b.id == h.doc.booking && Covers(b, h.doc.key))
      && (forall b, k :: b in bookings && Covers(b, k) ==> Has(after, Doc(b.id, k)))
      && UniqueBySlot(after) && UniqueByBooking(after)
  {
    hide DistinctIds, BookingsSound, HoldsAgree, UniqueBySlot, UniqueByBooking, Covers, WithoutStale, UpsertAll,
      AllDocs, Has;
    var docs := AllDocs(bookings);
    var kept := WithoutStale(holds, set d | d in docs :: d.key);
    KeptAreFaithful(bookings, holds);
    WithoutStaleKeeps(holds, set d | d in docs :: d.key);
    FaithfulIsUnique(bookings, kept);
    UpsertsKeepIndexes(bookings, kept, docs[..done], id);
    UpsertsKeepIndexes(bookings, kept, docs, id);
    var after := UpsertAll(kept, docs, id);
    forall h | h in after ensures exists b :: b in bookings && b.id == h.doc.booking && Covers(b, h.doc.key) {
      AllDocsCover(bookings, h.doc);
    }
    forall b, k | b in bookings && Covers(b, k) ensures Has(after, Doc(b.id, k)) {
      AllDocsCover(bookings, Doc(b.id, k));
    }
  }

  /** After a backfill the stored holds are exactly one per booked minute, under its booking, and both
      unique indexes hold; and each single upsert along the way already left them so. */
  lemma BackfillIsExact(bookings: seq<Booking>, holds: seq<Hold>, id: nat, done: nat)
    requires DistinctIds(bookings) && Sound(bookings, holds) && done <= |AllDocs(bookings)|
    ensures var kept := WithoutStale(holds, set d | d in AllDocs(bookings) :: d.key);
      var during := UpsertAll(kept, AllDocs(bookings)[..done], id);
      Faithful(during, bookings) && UniqueBySlot(during) && UniqueByBooking(during)
    ensures var after := Backfilled(holds, bookings, id);
      && (forall h :: h in after ==> exists b :: b in bookings && b.id == h.doc.booking && Occupies(b, h.doc.key))
      && (forall b, k :: b in bookings && Occupies(b, k) ==> exists h :: h in after && h.doc == Doc(b.id, k))
      && UniqueBySlot(after) && UniqueByBooking(after)
  {
    hide DistinctIds, Sound, UniqueBySlot, UniqueByBooking, Covers, Occupies, Backfilled, Faithful, AllDocs, UpsertAll,
      WithoutStale;
    BackfillCovers(bookings, holds, id, done);
    var after := Backfilled(holds, bookings, id);
    forall h | h in after ensures exists b :: b in bookings && b.id == h.doc.booking && Occupies(b, h.doc.key) {
      var b :| b in bookings && b.id == h.doc.booking && Covers(b, h.doc.key);
      CoversInNumbers(b);
    }
    forall b, k | b in bookings && Occupies(b, k) ensures exists h :: h in after && h.doc == Doc(b.id, k) {
      CoversInNumbers(b);
      assert Has(after, Doc(b.id, k));
    }
  }

  /** A second run on what a backfill left is accepted and changes nothing. */
  lemma SecondBackfillChangesNothing(bookings: seq<Booking>, holds: seq<Hold>, id: nat, later: nat)
    requires DistinctIds(bookings) && Sound(bookings, holds)
    ensures var after := Backfilled(holds, bookings, id);
      Sound(bookings, after) && Backfilled(after, bookings, later) == after
  {
    hide DistinctIds, BookingsSound, UniqueBySlot, UniqueByBooking, Covers, WithoutStale, UpsertAll, AllDocs, Has;
    var docs, after := AllDocs(bookings), Backfilled(holds, bookings, id);
    BackfillCovers(bookings, holds, id, 0);
    forall d | d in docs ensures Has(after, d) { AllDocsCover(bookings, d); }
    forall h | h in after ensures h.doc in docs && h.doc.key in set d | d in docs :: d.key {
      AllDocsCover(bookings, h.doc);
    }
    forall h, b | h in after && b in bookings && Covers(b, h.doc.key) ensures h.doc.booking == b.id {
      AllDocsCover(bookings, Doc(b.id, h.doc.key));
      PlannedOnce(bookings, h.doc, Doc(b.id, h.doc.key));
    }
    NothingStale(after, set d | d in docs :: d.key);
    UpsertsOfPresent(after, docs, later);
  }
}
