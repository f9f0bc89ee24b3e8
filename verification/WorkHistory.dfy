/** The work-history migration: makes the current entries of a barber's history those of the salons that
    approved the barber, without dropping an entry or moving a start date. */
module WorkHistory {
  import opened Wrappers

  /** Dates are instants; a missing salon reference or date is `None`. */
  datatype Entry =
    Entry(salon: Option<nat>, salonName: string, startDate: Option<int>, endDate: Option<int>, isCurrent: bool)

  datatype Membership = Membership(salon: Option<nat>, status: string, joinedAt: Option<int>)

  datatype Barber =
    Barber(salons: seq<Membership>, workHistory: seq<Entry>, createdAt: Option<int>, updatedAt: Option<int>)

  datatype Error =
    | MalformedMembership
    | UnresolvedHistory
    | DuplicateHistory(salon: nat)
    | NoStartDate
    | NoEndDate

  datatype Classified = Classified(changed: bool, next: seq<Entry>)

  /** `a || b` on dates. */
  function Or(a: Option<int>, b: Option<int>): Option<int> { if a.Some? then a else b }

  // ----- Approved memberships -----

  predicate WellFormed(approved: seq<Membership>) {
    && (forall i :: 0 <= i < |approved| ==> approved[i].salon.Some?)
    && forall i, j :: 0 <= i < j < |approved| ==> approved[i].salon != approved[j].salon
  }

  function Approved(salons: seq<Membership>): seq<Membership> {
    if salons == [] then [] else
      var front, last := Approved(salons[..|salons| - 1]), salons[|salons| - 1];
      if last.status == "approved" then front + [last] else front
  }

  /** `approvedSalonsFor` */
  method ApprovedSalonsFor(barber: Barber) returns (r: Result<seq<Membership>, Error>)
    ensures r == if WellFormed(Approved(barber.salons)) then Ok(Approved(barber.salons)) else Err(MalformedMembership)
  {
    var approved: seq<Membership>, ids: set<nat>, malformed := [], {}, false;
    for i := 0 to |barber.salons|
      invariant approved == Approved(barber.salons[..i])
      invariant malformed <==> !WellFormed(approved)
      invariant !malformed ==> forall id :: id in ids <==>
        exists j :: 0 <= j < |approved| && approved[j].salon == Some(id)
    {
      var entry := barber.salons[i];
      assert barber.salons[..i + 1][..i] == barber.salons[..i];
      if entry.status == "approved" {
        assert forall j :: 0 <= j < |approved| ==> (approved + [entry])[j] == approved[j];
        assert (approved + [entry])[|approved|] == entry;
        malformed := malformed || entry.salon.None? || entry.salon.value in ids;
        ids := if entry.salon.Some? then ids + {entry.salon.value} else ids;
        approved := approved + [entry];
      }
    }
    assert barber.salons[..|barber.salons|] == barber.salons;
    return if malformed then Err(MalformedMembership) else Ok(approved);
  }

  /** The approved memberships are those of the barber with that status. */
  lemma {:induction false} ApprovedAre(salons: seq<Membership>)
    ensures forall m :: m in Approved(salons) <==> m in salons && m.status == "approved"
  {
    if salons != [] {
      ApprovedAre(salons[..|salons| - 1]);
      assert salons == salons[..|salons| - 1] + [salons[|salons| - 1]];
    }
  }

  // ----- The corrected history -----

  function SalonIds(approved: seq<Membership>): set<nat> {
    set m | m in approved && m.salon.Some? :: m.salon.value
  }

  function HistoryIds(history: seq<Entry>): set<nat> {
    set e | e in history && e.salon.Some? :: e.salon.value
  }

  predicate UniqueSalons(history: seq<Entry>) {
    forall i, j :: 0 <= i < j < |history| ==> history[i].salon != history[j].salon
  }

  predicate Resolved(history: seq<Entry>, names: map<nat, string>) {
    forall e :: e in history ==> e.salon.Some? && e.salon.value in names
  }

  /** An entry of a salon that approved the barber becomes current and open-ended. */
  function Reopened(e: Entry): Entry { e.(isCurrent := true, endDate := None) }

  /** An entry that should not be current is closed, at `end` when it has no end date of its own. */
  function Closed(e: Entry, end: Option<int>): Entry {
    if e.isCurrent then e.(isCurrent := false, endDate := Or(e.endDate, end)) else e
  }

  /** The entry added for a salon without one. */
  function Added(m: Membership, names: map<nat, string>, createdAt: Option<int>): Entry {
    var name := if m.salon.Some? && m.salon.value in names then names[m.salon.value] else "";
    Entry(m.salon, if name == "" then "Salon" else name, Or(m.joinedAt, createdAt), None, true)
  }

  function AddedAll(approved: seq<Membership>, known: set<nat>, names: map<nat, string>,
      createdAt: Option<int>): seq<Entry> {
    if approved == [] then [] else
      var n := |approved| - 1;
      var front, m := AddedAll(approved[..n], known, names, createdAt), approved[n];
      if m.salon.Some? && m.salon.value in known then front else front + [Added(m, names, createdAt)]
  }

  predicate In(e: Entry, ids: set<nat>) { e.salon.Some? && e.salon.value in ids }

  /** The old entries with those of `open` reopened and, of the others, the first `closed` closed. */
  function Edited(history: seq<Entry>, open: set<nat>, closed: nat, end: Option<int>): (next: seq<Entry>)
    ensures |next| == |history|
  {
    seq(|history|, i requires 0 <= i < |history| =>
      if In(history[i], open) then Reopened(history[i]) else if i < closed then Closed(history[i], end) else history[i])
  }

  /** What the migration makes of a history. */
  function Corrected(barber: Barber, approved: seq<Membership>, names: map<nat, string>): seq<Entry> {
    var history := barber.workHistory;
    Edited(history, SalonIds(approved), |history|, Or(barber.updatedAt, barber.createdAt))
    + AddedAll(approved, HistoryIds(history), names, barber.createdAt)
  }

  predicate StartsKnown(barber: Barber, approved: seq<Membership>) {
    forall m :: m in approved && m.salon.Some? && m.salon.value !in HistoryIds(barber.workHistory) ==>
      Or(m.joinedAt, barber.createdAt).Some?
  }

  predicate EndsKnown(barber: Barber, approved: seq<Membership>) {
    forall e :: e in barber.workHistory && e.isCurrent && !In(e, SalonIds(approved)) ==>
      Or(e.endDate, Or(barber.updatedAt, barber.createdAt)).Some?
  }

  /** When the migration of one barber goes through. */
  predicate Correctable(barber: Barber, approved: seq<Membership>, names: map<nat, string>) {
    && Resolved(barber.workHistory, names) && UniqueSalons(barber.workHistory)
    && StartsKnown(barber, approved) && EndsKnown(barber, approved)
  }

  predicate IsDuplicate(history: seq<Entry>, error: Error) {
    && error.DuplicateHistory?
    && exists i, j :: 0 <= i < j < |history| && history[i].salon == history[j].salon == Some(error.salon)
  }

  /** The first loop of `classifyHistory`: indexes the entries by salon. */
  method IndexHistory(history: seq<Entry>, names: map<nat, string>) returns (r: Result<map<nat, Entry>, Error>)
    ensures r.Ok? <==> Resolved(history, names) && UniqueSalons(history)
    ensures r.Ok? ==> r.value.Keys == HistoryIds(history)
    ensures r.Ok? ==> forall e :: e in history ==>
      e.salon.Some? && e.salon.value in r.value && r.value[e.salon.value] == e
    ensures r.Err? ==> r.error == UnresolvedHistory || IsDuplicate(history, r.error)
  {
    var bySalon: map<nat, Entry> := map[];
    for i := 0 to |history|
      invariant Resolved(history[..i], names) && UniqueSalons(history[..i])
      invariant forall id :: id in bySalon ==> exists j :: 0 <= j < i && history[j].salon == Some(id)
      invariant forall j :: 0 <= j < i ==>
        history[j].salon.Some? && history[j].salon.value in bySalon && bySalon[history[j].salon.value] == history[j]
    {
      var entry := history[i];
      if entry.salon.None? || entry.salon.value !in names {
        assert entry in history;
        return Err(UnresolvedHistory);
      }
      if entry.salon.value in bySalon {
        ghost var j :| 0 <= j < i && history[j].salon == entry.salon;
        return Err(DuplicateHistory(entry.salon.value));
      }
      bySalon := bySalon[entry.salon.value := entry];
    }
    assert history[..|history|] == history;
    return Ok(bySalon);
  }

  /** `next.find(...)`: the entry of a salon. */
  method FindEntry(next: seq<Entry>, salon: nat) returns (i: nat)
    requires exists e :: e in next && e.salon == Some(salon)
    ensures i < |next| && next[i].salon == Some(salon)
    ensures forall j :: 0 <= j < i ==> next[j].salon != Some(salon)
  {
    i := 0;
    while next[i].salon != Some(salon)
      invariant i < |next| && forall j :: 0 <= j < i ==> next[j].salon != Some(salon)
      decreases |next| - i
    {
      i := i + 1;
    }
  }

  /** Reopening the entry of one more salon. */
  lemma ReopenOne(history: seq<Entry>, open: set<nat>, s: nat, end: Option<int>, i: nat)
    requires UniqueSalons(history) && i < |history| && history[i].salon == Some(s)
    ensures Edited(history, open + {s}, 0, end) == Edited(history, open, 0, end)[i := Reopened(history[i])]
  {
  }

  lemma ReopenNone(history: seq<Entry>, open: set<nat>, s: nat, end: Option<int>)
    requires s !in HistoryIds(history)
    ensures Edited(history, open + {s}, 0, end) == Edited(history, open, 0, end)
  {
    assert forall i :: 0 <= i < |history| ==> history[i] in history;
  }

  lemma OneMoreSalon(approved: seq<Membership>, k: nat)
    requires WellFormed(approved) && k < |approved|
    ensures SalonIds(approved[..k + 1]) == SalonIds(approved[..k]) + {approved[k].salon.value}
    ensures approved[k].salon.value !in SalonIds(approved[..k])
  {
    assert approved[..k + 1] == approved[..k] + [approved[k]];
  }

  /** The added entries are current and open-ended, of approved salons the history does not know. */
  lemma {:induction false} AddedAreApproved(approved: seq<Membership>, known: set<nat>, names: map<nat, string>,
      createdAt: Option<int>)
    requires WellFormed(approved)
    ensures forall e :: e in AddedAll(approved, known, names, createdAt) ==>
      In(e, SalonIds(approved)) && !In(e, known) && e.isCurrent && e.endDate.None?
    ensures UniqueSalons(AddedAll(approved, known, names, createdAt))
  {
    hide SalonIds;
    if approved != [] {
      var n := |approved| - 1;
      AddedAreApproved(approved[..n], known, names, createdAt);
      OneMoreSalon(approved, n);
      assert approved[..n + 1] == approved;
      var front := AddedAll(approved[..n], known, names, createdAt);
      assert forall i :: 0 <= i < |front| ==> front[i] in front;
    }
  }

  lemma {:induction false} MissingAreAdded(approved: seq<Membership>, known: set<nat>, names: map<nat, string>,
      createdAt: Option<int>, m: Membership)
    requires m in approved && m.salon.Some? && m.salon.value !in known
    ensures Added(m, names, createdAt) in AddedAll(approved, known, names, createdAt)
  {
    hide Added;
    var n := |approved| - 1;
    if m != approved[n] {
      assert approved == approved[..n] + [approved[n]];
      MissingAreAdded(approved[..n], known, names, createdAt, m);
    }
  }

  lemma NothingEdited(history: seq<Entry>)
    ensures Edited(history, SalonIds([]), 0, None) == history
  {
  }

  /** The entry of a salon not yet opened stands where it stood, and reopening it there opens the salon. */
  lemma OpenStep(history: seq<Entry>, open: set<nat>, added: seq<Entry>, s: nat) returns (at: nat)
    requires UniqueSalons(history) && s in HistoryIds(history) && s !in open
    ensures at < |history| && history[at].salon == Some(s)
    ensures var next := Edited(history, open, 0, None) + added;
      && next[at] == history[at]
      && (forall j :: 0 <= j <= at && next[j].salon == Some(s) ==> j == at)
      && Edited(history, open + {s}, 0, None) + added == next[at := Reopened(history[at])]
  {
    at :| 0 <= at < |history| && history[at].salon == Some(s);
    ReopenOne(history, open, s, None, at);
    var edited := Edited(history, open, 0, None);
    assert (edited + added)[at := Reopened(history[at])] == edited[at := Reopened(history[at])] + added;
  }

  /** What one more approved membership means for the specification. */
  lemma OneMoreMembership(barber: Barber, approved: seq<Membership>, names: map<nat, string>, k: nat)
    requires WellFormed(approved) && k < |approved|
    ensures var known, s := HistoryIds(barber.workHistory), approved[k].salon.value;
      && AddedAll(approved[..k + 1], known, names, barber.createdAt)
         == AddedAll(approved[..k], known, names, barber.createdAt)
            + (if s in known then [] else [Added(approved[k], names, barber.createdAt)])
      && (StartsKnown(barber, approved[..k + 1]) <==>
            StartsKnown(barber, approved[..k]) && (s in known || Or(approved[k].joinedAt, barber.createdAt).Some?))
      && (StartsKnown(barber, approved) ==> StartsKnown(barber, approved[..k + 1]))
  {
    hide HistoryIds;
    assert approved[..k + 1][..k] == approved[..k] && approved[..k + 1] == approved[..k] + [approved[k]];
  }

  /** The second loop: reopens the entries of approved salons and adds the missing ones. */
  method OpenApproved(barber: Barber, approved: seq<Membership>, names: map<nat, string>, bySalon: map<nat, Entry>)
    returns (r: Result<Classified, Error>)
    requires WellFormed(approved) && UniqueSalons(barber.workHistory) && bySalon.Keys == HistoryIds(barber.workHistory)
    requires forall e :: e in barber.workHistory ==>
      e.salon.Some? && e.salon.value in bySalon && bySalon[e.salon.value] == e
    ensures r == if StartsKnown(barber, approved) then
        var next := Edited(barber.workHistory, SalonIds(approved), 0, None)
          + AddedAll(approved, HistoryIds(barber.workHistory), names, barber.createdAt);
        Ok(Classified(next != barber.workHistory, next))
      else Err(NoStartDate)
  {
    hide Edited, UniqueSalons, SalonIds, HistoryIds, AddedAll, StartsKnown;
    var history := barber.workHistory;
    ghost var known := HistoryIds(history);
    var next, changed := history, false;
    NothingEdited(history);
    NothingAdded(barber, names);
    for k := 0 to |approved|
      invariant next == Edited(history, SalonIds(approved[..k]), 0, None)
        + AddedAll(approved[..k], known, names, barber.createdAt)
      invariant changed <==> next != history
      invariant StartsKnown(barber, approved[..k])
    {
      var m := approved[k];
      var salonId := m.salon.value;
      ghost var open, added := SalonIds(approved[..k]), AddedAll(approved[..k], known, names, barber.createdAt);
      OneMoreSalon(approved, k);
      OneMoreMembership(barber, approved, names, k);
      if salonId in bySalon {
        var existing := bySalon[salonId];
        ghost var at := OpenStep(history, open, added, salonId);
        if !existing.isCurrent || existing.endDate.Some? {
          var i := FindEntry(next, salonId);
          next := next[i := next[i].(isCurrent := true, endDate := None)];
          changed := true;
          assert next[at] != history[at];
        } else {
          assert next[at := Reopened(history[at])] == next;
        }
        continue;
      }
      ReopenNone(history, open, salonId, None);
      var startDate := Or(m.joinedAt, barber.createdAt);
      if startDate.None? { return Err(NoStartDate); }
      var name := if salonId in names then names[salonId] else "";
      next := next + [Entry(m.salon, if name == "" then "Salon" else name, startDate, None, true)];
      changed := true;
    }
    assert approved[..|approved|] == approved;
    return Ok(Classified(changed, next));
  }

  lemma NothingAdded(barber: Barber, names: map<nat, string>)
    ensures AddedAll([], HistoryIds(barber.workHistory), names, barber.createdAt) == [] && StartsKnown(barber, [])
  {
  }

  lemma CloseStep(history: seq<Entry>, ids: set<nat>, added: seq<Entry>, i: nat, end: Option<int>)
    requires i < |history|
    ensures var next := Edited(history, ids, i, end) + added;
      var after := Edited(history, ids, i + 1, end) + added;
      if history[i].isCurrent && !In(history[i], ids)
      then next[i] == history[i] && after == next[i := Closed(history[i], end)]
      else after == next && (next[i].isCurrent ==> In(next[i], ids))
  {
  }

  lemma NoneClosed(history: seq<Entry>, ids: set<nat>, end: Option<int>)
    ensures Edited(history, ids, 0, None) == Edited(history, ids, 0, end)
  {
  }

  /** The third loop: closes the current entries of other salons. */
  method CloseOthers(barber: Barber, approved: seq<Membership>, ghost added: seq<Entry>, start: Classified)
    returns (r: Result<Classified, Error>)
    requires start.next == Edited(barber.workHistory, SalonIds(approved), 0, None) + added
    requires start.changed <==> start.next != barber.workHistory
    requires forall e :: e in added ==> In(e, SalonIds(approved))
    ensures r == if EndsKnown(barber, approved) then
        var end := Or(barber.updatedAt, barber.createdAt);
        var next := Edited(barber.workHistory, SalonIds(approved), |barber.workHistory|, end) + added;
        Ok(Classified(next != barber.workHistory, next))
      else Err(NoEndDate)
  {
    hide Edited, SalonIds;
    var history, end, approvedIds := barber.workHistory, Or(barber.updatedAt, barber.createdAt), SalonIds(approved);
    var next, changed := start.next, start.changed;
    NoneClosed(history, approvedIds, end);
    for i := 0 to |next|
      invariant |next| == |start.next|
      invariant next == Edited(history, approvedIds, if i < |history| then i else |history|, end) + added
      invariant changed <==> next != history
      invariant forall j :: 0 <= j < i && j < |history| && history[j].isCurrent && !In(history[j], approvedIds) ==>
        Or(history[j].endDate, end).Some?
    {
      ghost var n := |history|;
      if i < n {
        CloseStep(history, approvedIds, added, i, end);
      } else {
        assert next[i] == added[i - n] && next[i] in added;
      }
      var entry := next[i];
      if entry.isCurrent && !In(entry, approvedIds) {
        var endDate := Or(entry.endDate, end);
        if endDate.None? {
          assert history[i] in history;
          return Err(NoEndDate);
        }
        next := next[i := entry.(isCurrent := false, endDate := endDate)];
        changed := true;
        assert next[i] != history[i];
      }
    }
    return Ok(Classified(changed, next));
  }

  /** `classifyHistory`: succeeds exactly when the history resolves, names no salon twice and every date it
      needs is known; then it reports the corrected history, and whether that differs. */
  method ClassifyHistory(barber: Barber, approved: seq<Membership>, names: map<nat, string>)
    returns (r: Result<Classified, Error>)
    requires WellFormed(approved) && SalonIds(approved) <= names.Keys
    ensures r.Ok? <==> Correctable(barber, approved, names)
    ensures r.Ok? ==>
      var next := Corrected(barber, approved, names);
      r.value == Classified(next != barber.workHistory, next)
    ensures r.Err? ==>
      (r.error.UnresolvedHistory? || r.error.DuplicateHistory? <==>
       !Resolved(barber.workHistory, names) || !UniqueSalons(barber.workHistory))
    ensures r.Err? && r.error.NoStartDate? ==> !StartsKnown(barber, approved)
    ensures r.Err? && r.error.NoEndDate? ==> !EndsKnown(barber, approved)
  {
    hide Resolved, UniqueSalons, StartsKnown, EndsKnown, Edited, AddedAll, SalonIds, HistoryIds;
    var indexed := IndexHistory(barber.workHistory, names);
    if indexed.Err? { return Err(indexed.error); }
    var reopened := OpenApproved(barber, approved, names, indexed.value);
    if reopened.Err? { return Err(reopened.error); }
    AddedAreApproved(approved, HistoryIds(barber.workHistory), names, barber.createdAt);
    ghost var added := AddedAll(approved, HistoryIds(barber.workHistory), names, barber.createdAt);
    r := CloseOthers(barber, approved, added, reopened.value);
  }

  // ----- Main results -----

  /** What becomes of the entry at `i`. */
  lemma CorrectedEntry(barber: Barber, approved: seq<Membership>, names: map<nat, string>, i: nat)
    requires i < |barber.workHistory|
    ensures var was, next := barber.workHistory[i], Corrected(barber, approved, names);
      && i < |next|
      && next[i] == if In(was, SalonIds(approved)) then Reopened(was)
                    else Closed(was, Or(barber.updatedAt, barber.createdAt))
  {
  }

  /** No entry is dropped, renamed or moved in time; entries that were past and stay so are untouched, and
      those closed now have an end date. */
  lemma NothingIsLost(barber: Barber, approved: seq<Membership>, names: map<nat, string>, i: nat)
    requires Correctable(barber, approved, names) && i < |barber.workHistory|
    ensures var was, next := barber.workHistory[i], Corrected(barber, approved, names);
      && |barber.workHistory| <= |next|
      && next[i].salon == was.salon && next[i].salonName == was.salonName && next[i].startDate == was.startDate
      && (In(was, SalonIds(approved)) ==> next[i] == was.(isCurrent := true, endDate := None))
      && (!was.isCurrent && !In(was, SalonIds(approved)) ==> next[i] == was)
      && (was.isCurrent && !In(was, SalonIds(approved)) ==>
            && !next[i].isCurrent && next[i].endDate.Some?
            && next[i].endDate == if was.endDate.Some? then was.endDate
                                  else if barber.updatedAt.Some? then barber.updatedAt else barber.createdAt)
  {
    hide SalonIds, Edited, AddedAll;
    CorrectedEntry(barber, approved, names, i);
    assert barber.workHistory[i] in barber.workHistory;
  }

  /** The entry added for an approved membership starts when the barber joined, or else was created, and
      carries the salon's name, if it has one. */
  predicate IsAddedFor(e: Entry, m: Membership, names: map<nat, string>, createdAt: Option<int>) {
    && m.salon.Some? && e.salon == m.salon && e.isCurrent && e.endDate.None?
    && e.startDate == (if m.joinedAt.Some? then m.joinedAt else createdAt)
    && e.salonName == (if m.salon.value in names && names[m.salon.value] != "" then names[m.salon.value] else "Salon")
  }

  lemma AddedSays(m: Membership, names: map<nat, string>, createdAt: Option<int>)
    requires m.salon.Some?
    ensures IsAddedFor(Added(m, names, createdAt), m, names, createdAt)
  {
  }

  lemma {:induction false} AddedStemsFrom(approved: seq<Membership>, known: set<nat>, names: map<nat, string>,
      createdAt: Option<int>, e: Entry) returns (m: Membership)
    requires (forall n :: n in approved ==> n.salon.Some?) && e in AddedAll(approved, known, names, createdAt)
    ensures m in approved && m.salon.value !in known && IsAddedFor(e, m, names, createdAt)
  {
    hide Added, IsAddedFor;
    var n := |approved| - 1;
    m := approved[n];
    AddedSays(m, names, createdAt);
    if e in AddedAll(approved[..n], known, names, createdAt) {
      m := AddedStemsFrom(approved[..n], known, names, createdAt, e);
    }
  }

  /** Every entry behind the old ones was added for an approved membership of a salon the history does not
      name. */
  lemma AddedForMembership(barber: Barber, approved: seq<Membership>, names: map<nat, string>, i: nat)
    returns (m: Membership)
    requires WellFormed(approved) && |barber.workHistory| <= i < |Corrected(barber, approved, names)|
    ensures m in approved && m.salon.Some? && m.salon.value !in HistoryIds(barber.workHistory)
    ensures IsAddedFor(Corrected(barber, approved, names)[i], m, names, barber.createdAt)
  {
    hide Added, IsAddedFor, HistoryIds, SalonIds;
    m := AddedStemsFrom(approved, HistoryIds(barber.workHistory), names, barber.createdAt,
                        Corrected(barber, approved, names)[i]);
  }

  /** And every such membership has its entry there. */
  lemma MembershipIsAdded(barber: Barber, approved: seq<Membership>, names: map<nat, string>, m: Membership)
    returns (i: nat)
    requires m in approved && m.salon.Some? && m.salon.value !in HistoryIds(barber.workHistory)
    ensures |barber.workHistory| <= i < |Corrected(barber, approved, names)|
    ensures IsAddedFor(Corrected(barber, approved, names)[i], m, names, barber.createdAt)
  {
    hide Added, IsAddedFor, HistoryIds, SalonIds;
    var known := HistoryIds(barber.workHistory);
    var added := AddedAll(approved, known, names, barber.createdAt);
    MissingAreAdded(approved, known, names, barber.createdAt, m);
    AddedSays(m, names, barber.createdAt);
    var k :| 0 <= k < |added| && added[k] == Added(m, names, barber.createdAt);
    i := |barber.workHistory| + k;
  }

  lemma CorrectedIsUnique(barber: Barber, approved: seq<Membership>, names: map<nat, string>)
    requires WellFormed(approved) && UniqueSalons(barber.workHistory)
    requires forall e :: e in barber.workHistory ==> e.salon.Some?
    ensures UniqueSalons(Corrected(barber, approved, names))
  {
    hide SalonIds, AddedAll;
    var history, next := barber.workHistory, Corrected(barber, approved, names);
    var added := AddedAll(approved, HistoryIds(history), names, barber.createdAt);
    AddedAreApproved(approved, HistoryIds(history), names, barber.createdAt);
    forall i, j | 0 <= i < j < |next| ensures next[i].salon != next[j].salon {
      if i < |history| { assert history[i] in history && next[i].salon == history[i].salon; }
      if j >= |history| { assert next[j] == added[j - |history|] && next[j] in added; }
    }
  }

  /** After the correction the salons with a current entry are exactly the approved ones, and current
      entries have no end date. */
  lemma CurrentIsApproved(barber: Barber, approved: seq<Membership>, names: map<nat, string>, s: nat)
    requires WellFormed(approved) && Correctable(barber, approved, names)
    ensures var next := Corrected(barber, approved, names);
      && (s in SalonIds(approved) <==> exists e :: e in next && e.salon == Some(s) && e.isCurrent)
      && forall e :: e in next && e.isCurrent ==> In(e, SalonIds(approved)) && e.endDate.None?
  {
    hide Edited, AddedAll;
    var history, next := barber.workHistory, Corrected(barber, approved, names);
    var known := HistoryIds(history);
    var added := AddedAll(approved, known, names, barber.createdAt);
    AddedAreApproved(approved, known, names, barber.createdAt);
    forall i | 0 <= i < |next| ensures next[i].isCurrent ==> In(next[i], SalonIds(approved)) && next[i].endDate.None? {
      if i < |history| {
        CorrectedEntry(barber, approved, names, i);
      } else {
        assert next[i] == added[i - |history|] && next[i] in added;
      }
    }
    if s in SalonIds(approved) {
      if s in known {
        var i :| 0 <= i < |history| && history[i].salon == Some(s);
        CorrectedEntry(barber, approved, names, i);
        assert next[i] in next;
      } else {
        var m :| m in approved && m.salon == Some(s);
        MissingAreAdded(approved, known, names, barber.createdAt, m);
        assert Added(m, names, barber.createdAt) in next;
      }
    }
  }

  lemma {:induction false} NothingMissing(approved: seq<Membership>, known: set<nat>, names: map<nat, string>,
      createdAt: Option<int>)
    requires SalonIds(approved) <= known && WellFormed(approved)
    ensures AddedAll(approved, known, names, createdAt) == []
  {
    if approved != [] {
      var n := |approved| - 1;
      OneMoreSalon(approved, n);
      assert approved[..n + 1] == approved;
      NothingMissing(approved[..n], known, names, createdAt);
    }
  }

  /** Once corrected, a history needs no further change, whatever the time of the save between. */
  lemma SecondRunChangesNothing(barber: Barber, approved: seq<Membership>, names: map<nat, string>,
      updatedAt: Option<int>)
    requires WellFormed(approved) && SalonIds(approved) <= names.Keys && Correctable(barber, approved, names)
    ensures var next := Corrected(barber, approved, names);
      var again := barber.(workHistory := next, updatedAt := updatedAt);
      Correctable(again, approved, names) && Corrected(again, approved, names) == next
  {
    hide AddedAll, SalonIds, UniqueSalons, StartsKnown;
    var next := Corrected(barber, approved, names);
    var again := barber.(workHistory := next, updatedAt := updatedAt);
    CorrectedResolves(barber, approved, names);
    forall s | s in SalonIds(approved) ensures s in HistoryIds(next) { CurrentIsApproved(barber, approved, names, s); }
    forall e | e in next && e.isCurrent ensures In(e, SalonIds(approved)) && e.endDate.None? {
      CurrentIsApproved(barber, approved, names, 0);
    }
    NothingMissing(approved, HistoryIds(next), names, barber.createdAt);
    AllStartsKnown(again, approved);
    OpenStaysOpen(barber, approved, names);
    assert Edited(next, SalonIds(approved), |next|, Or(updatedAt, barber.createdAt)) == next;
  }

  lemma AllStartsKnown(barber: Barber, approved: seq<Membership>)
    requires SalonIds(approved) <= HistoryIds(barber.workHistory)
    ensures StartsKnown(barber, approved)
  {
    forall m | m in approved && m.salon.Some? ensures m.salon.value in HistoryIds(barber.workHistory) {
      assert m.salon.value in SalonIds(approved);
    }
  }

  /** Entries of approved salons are current and open-ended in the corrected history. */
  lemma OpenStaysOpen(barber: Barber, approved: seq<Membership>, names: map<nat, string>)
    requires WellFormed(approved)
    ensures forall e :: e in Corrected(barber, approved, names) && In(e, SalonIds(approved)) ==> Reopened(e) == e
  {
    hide SalonIds, AddedAll;
    var known := HistoryIds(barber.workHistory);
    AddedAreApproved(approved, known, names, barber.createdAt);
  }

  lemma CorrectedResolves(barber: Barber, approved: seq<Membership>, names: map<nat, string>)
    requires WellFormed(approved) && SalonIds(approved) <= names.Keys && Correctable(barber, approved, names)
    ensures Resolved(Corrected(barber, approved, names), names) && UniqueSalons(Corrected(barber, approved, names))
  {
    hide SalonIds, AddedAll, UniqueSalons;
    var history, known := barber.workHistory, HistoryIds(barber.workHistory);
    AddedAreApproved(approved, known, names, barber.createdAt);
    CorrectedIsUnique(barber, approved, names);
  }
}
