/** The migration of legacy schedules, which name no salon, to one schedule per approved salon. It works
    one database write at a time and may stop after any of them; running it again must finish the job.
    Ids stand for the order in which the database lists the documents. */
module ScheduleMigration {
  import opened Wrappers

  /** The five copied fields, each as its canonical text, in which `same` compares them. */
  datatype Payload =
    Payload(weekly: string, dateSchedules: string, overrides: string, nonWorkingDays: string, default: string)

  /** A document may lack its salon field, hold null in it, or name a salon. */
  datatype SalonRef = Missing | Null | Salon(id: nat)

  datatype Doc = Doc(barber: nat, salon: SalonRef, payload: Payload, explicitWeeklyDays: Option<seq<string>>)

  datatype Membership = Membership(salon: Option<nat>, status: string, isPrimary: bool)

  datatype User = User(role: string, salons: seq<Membership>)

  /** What the migration only reads. */
  datatype People = People(users: map<nat, User>, salons: set<nat>)

  datatype Db = Db(docs: map<nat, Doc>, nextId: nat)

  predicate IsDb(db: Db) { forall id :: id in db.docs ==> id < db.nextId }

  datatype Error =
    | NoValidBarber
    | InvalidMembership
    | MultiplePrimaries
    | MissingSalons
    | DuplicateTarget
    | ConflictingTarget

  // ----- Checking one legacy schedule -----

  function Approved(salons: seq<Membership>): seq<Membership> {
    if salons == [] then []
    else (if salons[0].status == "approved" then [salons[0]] else []) + Approved(salons[1..])
  }

  function Primaries(approved: seq<Membership>): seq<Membership> {
    if approved == [] then []
    else (if approved[0].isPrimary then [approved[0]] else []) + Primaries(approved[1..])
  }

  predicate Distinct(ids: seq<nat>) { forall i, j :: 0 <= i < j < |ids| ==> ids[i] != ids[j] }

  /** The approved salons of a barber, and the one that takes over the legacy schedule. */
  datatype Targets = Targets(salons: seq<nat>, primary: nat)

  /** `approvedSalonsFor` */
  function ApprovedSalonsFor(user: User): (r: Result<Targets, Error>)
    ensures r.Ok? ==> r.value.salons != [] && Distinct(r.value.salons)
  {
    var approved := Approved(user.salons);
    if approved == [] || exists i :: 0 <= i < |approved| && approved[i].salon.None? then Err(InvalidMembership) else
      var ids := seq(|approved|, i requires 0 <= i < |approved| => approved[i].salon.value);
      if !Distinct(ids) then Err(InvalidMembership) else
        var primaries := Primaries(approved);
        if |primaries| > 1 then Err(MultiplePrimaries) else
          var primary := if primaries != [] then primaries[0] else approved[0];
          Ok(Targets(ids, if primary.salon.Some? then primary.salon.value else 0))
  }

  /** A schedule of the barber for one of the salons. */
  predicate IsTarget(doc: Doc, barber: nat, salons: seq<nat>) {
    doc.barber == barber && doc.salon.Salon? && doc.salon.id in salons
  }

  predicate HasDuplicate(docs: map<nat, Doc>, barber: nat, salons: seq<nat>) {
    exists i, j :: i in docs && j in docs && i != j
                   && IsTarget(docs[i], barber, salons) && IsTarget(docs[j], barber, salons)
                   && docs[i].salon == docs[j].salon
  }

  predicate HasConflict(docs: map<nat, Doc>, barber: nat, salons: seq<nat>, payload: Payload) {
    exists i :: i in docs && IsTarget(docs[i], barber, salons) && docs[i].payload != payload
  }

  /** All checks before the first write for the legacy schedule `x`. */
  function Check(db: Db, people: People, x: nat): Result<Targets, Error>
    requires x in db.docs
  {
    var legacy := db.docs[x];
    if legacy.barber !in people.users || people.users[legacy.barber].role != "barber" then Err(NoValidBarber) else
      var targets := ApprovedSalonsFor(people.users[legacy.barber]);
      if targets.Err? then targets
      else if exists s :: s in targets.value.salons && s !in people.salons then Err(MissingSalons)
      else if HasDuplicate(db.docs, legacy.barber, targets.value.salons) then Err(DuplicateTarget)
      else if HasConflict(db.docs, legacy.barber, targets.value.salons, legacy.payload) then Err(ConflictingTarget)
      else targets
  }

  // ----- Its writes -----

  /** A single write, with the legacy schedule it is for. */
  datatype Write = Create(x: nat, doc: Doc) | Delete(x: nat) | Retag(x: nat, salon: nat)

  function Apply(db: Db, w: Write): Db {
    match w
    case Create(_, doc) => Db(db.docs[db.nextId := doc], db.nextId + 1)
    case Delete(x) => db.(docs := db.docs - {x})
    case Retag(x, salon) => if x in db.docs then db.(docs := db.docs[x := db.docs[x].(salon := Salon(salon))]) else db
  }

  function ApplyAll(db: Db, ws: seq<Write>): Db
    decreases ws
  {
    if ws == [] then db else ApplyAll(Apply(db, ws[0]), ws[1..])
  }

  predicate Present(docs: map<nat, Doc>, barber: nat, salon: nat) {
    exists i :: i in docs && docs[i].barber == barber && docs[i].salon == Salon(salon)
  }

  /** The salons other than the primary one that still lack a schedule. */
  function MissingSecondary(docs: map<nat, Doc>, barber: nat, salons: seq<nat>, primary: nat): seq<nat> {
    if salons == [] then []
    else (if salons[0] != primary && !Present(docs, barber, salons[0]) then [salons[0]] else [])
         + MissingSecondary(docs, barber, salons[1..], primary)
  }

  function Copy(legacy: Doc, salon: nat): Doc { Doc(legacy.barber, Salon(salon), legacy.payload, None) }

  function Creates(x: nat, legacy: Doc, salons: seq<nat>): seq<Write> {
    seq(|salons|, i requires 0 <= i < |salons| => Create(x, Copy(legacy, salons[i])))
  }

  /** Copies for the missing salons first; last the legacy schedule itself gives way or becomes the
      primary salon's. */
  function WritesFor(db: Db, people: People, x: nat): Result<seq<Write>, Error>
    requires x in db.docs
  {
    var targets := Check(db, people, x);
    if targets.Err? then Err(targets.error) else
      var legacy, primary := db.docs[x], targets.value.primary;
      var last := if Present(db.docs, legacy.barber, primary) then Delete(x) else Retag(x, primary);
      Ok(Creates(x, legacy, MissingSecondary(db.docs, legacy.barber, targets.value.salons, primary)) + [last])
  }

  // ----- The whole migration -----

  predicate IsLegacy(db: Db, x: nat) { x in db.docs && db.docs[x].salon.Missing? }

  datatype Outcome = Done | Failed(x: nat, error: Error)

  datatype Run = Run(db: Db, outcome: Outcome, writes: seq<Write>)

  /** The loop over the legacy schedules from `x` on; the first error ends it. */
  function RunFrom(db: Db, people: People, x: nat, limit: nat): Run
    decreases limit - x
  {
    if x >= limit then Run(db, Done, [])
    else if !IsLegacy(db, x) then RunFrom(db, people, x + 1, limit)
    else
      var writes := WritesFor(db, people, x);
      if writes.Err? then Run(db, Failed(x, writes.error), []) else
        var rest := RunFrom(ApplyAll(db, writes.value), people, x + 1, limit);
        rest.(writes := writes.value + rest.writes)
  }

  /** `migrateScheduleToPerSalon` */
  function Migrate(db: Db, people: People): Run { RunFrom(db, people, 0, db.nextId) }

  datatype Counters = Counters(inspected: nat, migrated: nat, failed: nat)

  class ScheduleCollection {
    var docs: map<nat, Doc>
    var nextId: nat

    ghost function Abstract(): Db reads this { Db(docs, nextId) }

    constructor ()
      ensures Abstract() == Db(map[], 0)
    {
      docs, nextId := map[], 0;
    }

    method CreateOne(doc: Doc)
      modifies this
      ensures forall x :: Abstract() == Apply(old(Abstract()), Create(x, doc))
    {
      docs := docs[nextId := doc];
      nextId := nextId + 1;
    }

    /** The writes for one legacy schedule that passed its checks. */
    method MigrateOne(x: nat, targets: Targets)
      requires x in docs && x < nextId
      modifies this
      ensures var db := old(Abstract());
        var missing := MissingSecondary(db.docs, db.docs[x].barber, targets.salons, targets.primary);
        Abstract() == ApplyAll(db, Creates(x, db.docs[x], missing)
          + [if Present(db.docs, db.docs[x].barber, targets.primary) then Delete(x) else Retag(x, targets.primary)])
    {
      var legacy := docs[x];
      ghost var before := Abstract();
      var missing := MissingSecondary(docs, legacy.barber, targets.salons, targets.primary);
      var hasPrimary := Present(docs, legacy.barber, targets.primary);
      ghost var creates := Creates(x, legacy, missing);
      for i := 0 to |missing|
        invariant Abstract() == ApplyAll(before, creates[..i])
        invariant x in docs && docs[x] == legacy && x < nextId
      {
        ApplyAppend(before, creates[..i], [creates[i]]);
        assert creates[..i] + [creates[i]] == creates[..i + 1];
        CreateOne(Doc(legacy.barber, Salon(missing[i]), legacy.payload, None));
      }
      assert creates[..|creates|] == creates;
      ApplyAppend(before, creates, [if hasPrimary then Delete(x) else Retag(x, targets.primary)]);
      if hasPrimary {
        docs := docs - {x};
      } else {
        docs := docs[x := legacy.(salon := Salon(targets.primary))];
      }
    }

    /** The migration; a dry run checks and counts but writes nothing. */
    method MigrateScheduleToPerSalon(people: People, dryRun: bool) returns (outcome: Outcome, counters: Counters)
      requires IsDb(Abstract())
      modifies this
      ensures !dryRun ==>
        && Abstract() == Migrate(old(Abstract()), people).db
        && outcome == Migrate(old(Abstract()), people).outcome
      ensures dryRun ==> Abstract() == old(Abstract())
      ensures counters.inspected == counters.migrated + counters.failed
      ensures counters.failed == if outcome.Done? then 0 else 1
    {
      var limit := nextId;
      outcome, counters := Done, Counters(0, 0, 0);
      for x := 0 to limit
        invariant IsDb(Abstract()) && limit <= nextId
        invariant !dryRun ==> RunFrom(Abstract(), people, x, limit).db == Migrate(old(Abstract()), people).db
        invariant !dryRun ==> RunFrom(Abstract(), people, x, limit).outcome == Migrate(old(Abstract()), people).outcome
        invariant dryRun ==> Abstract() == old(Abstract())
        invariant counters.inspected == counters.migrated && counters.failed == 0
      {
        if !(x in docs && docs[x].salon.Missing?) { continue; }
        counters := counters.(inspected := counters.inspected + 1);
        var targets := Check(Db(docs, nextId), people, x);
        if targets.Err? {
          counters := counters.(failed := 1);
          return Failed(x, targets.error), counters;
        }
        if !dryRun {
          ApplyKeepsDb(Abstract(), WritesFor(Abstract(), people, x).value);
          MigrateOne(x, targets.value);
        }
        counters := counters.(migrated := counters.migrated + 1);
      }
    }
  }

  lemma {:induction false} ApplyAppend(db: Db, a: seq<Write>, b: seq<Write>)
    ensures ApplyAll(db, a + b) == ApplyAll(ApplyAll(db, a), b)
    decreases a
  {
    if a == [] {
      assert a + b == b;
    } else {
      ApplyAppend(Apply(db, a[0]), a[1..], b);
      assert (a + b)[1..] == a[1..] + b;
    }
  }

  lemma {:induction false} ApplyKeepsDb(db: Db, ws: seq<Write>)
    requires IsDb(db)
    ensures IsDb(ApplyAll(db, ws)) && ApplyAll(db, ws).nextId >= db.nextId
    decreases ws
  {
    if ws != [] { ApplyKeepsDb(Apply(db, ws[0]), ws[1..]); }
  }

  // ----- Stopping and starting again -----

  /** Where a salon stands among the missing ones once the first of them has got its copy. */
  lemma {:induction false} MissingShrinks(docs: map<nat, Doc>, more: map<nat, Doc>, barber: nat, salons: seq<nat>,
      primary: nat, s: nat)
    requires Distinct(salons)
    requires forall salon :: Present(more, barber, salon) <==> Present(docs, barber, salon) || salon == s
    ensures s !in salons ==>
      MissingSecondary(more, barber, salons, primary) == MissingSecondary(docs, barber, salons, primary)
    ensures var missing := MissingSecondary(docs, barber, salons, primary);
      missing != [] && missing[0] == s ==> MissingSecondary(more, barber, salons, primary) == missing[1..]
  {
    hide Present;
    if salons != [] {
      MissingShrinks(docs, more, barber, salons[1..], primary, s);
    }
  }

  lemma {:induction false} MissingAreAbsent(docs: map<nat, Doc>, barber: nat, salons: seq<nat>, primary: nat)
    ensures forall s :: s in MissingSecondary(docs, barber, salons, primary) <==>
      s in salons && s != primary && !Present(docs, barber, s)
    ensures MissingSecondary(docs, barber, salons, primary) == [] <==>
      forall s :: s in salons ==> s == primary || Present(docs, barber, s)
  {
    hide Present;
    if salons != [] {
      MissingAreAbsent(docs, barber, salons[1..], primary);
      assert salons == [salons[0]] + salons[1..];
    }
  }

  /** A copy for an absent salon of the barber breaks no check. */
  lemma CopyPassesChecks(db: Db, people: People, x: nat, s: nat)
    requires IsDb(db) && x in db.docs && Check(db, people, x).Ok? && s in Check(db, people, x).value.salons
    requires !Present(db.docs, db.docs[x].barber, s)
    ensures var after := Apply(db, Create(x, Copy(db.docs[x], s)));
      Check(after, people, x) == Check(db, people, x) && after.docs[x] == db.docs[x]
  {
    hide ApprovedSalonsFor, Present;
    assert forall i :: i in db.docs ==> i < db.nextId;
    var barber, salons := db.docs[x].barber, Check(db, people, x).value.salons;
    var after := Apply(db, Create(x, Copy(db.docs[x], s)));
    assert forall i :: i in db.docs ==> after.docs[i] == db.docs[i];
    NoneThere(db.docs, barber, s);
    assert !HasDuplicate(after.docs, barber, salons);
    assert !HasConflict(after.docs, barber, salons, db.docs[x].payload);
  }

  lemma NoneThere(docs: map<nat, Doc>, barber: nat, s: nat)
    requires !Present(docs, barber, s)
    ensures forall i :: i in docs && docs[i].barber == barber ==> docs[i].salon != Salon(s)
  {
  }

  lemma CreateIsPresent(db: Db, doc: Doc)
    requires IsDb(db) && doc.salon.Salon?
    ensures forall barber, s :: Present(db.docs[db.nextId := doc], barber, s) <==>
      Present(db.docs, barber, s) || (barber == doc.barber && doc.salon == Salon(s))
  {
    var after := db.docs[db.nextId := doc];
    forall barber, s | Present(db.docs, barber, s) ensures Present(after, barber, s) {
      var i :| i in db.docs && db.docs[i].barber == barber && db.docs[i].salon == Salon(s);
      assert i in after && after[i] == db.docs[i];
    }
    assert db.nextId in after && after[db.nextId] == doc;
  }

  /** After the first copy, what remains to be written is what remained. */
  lemma FirstWriteResumes(db: Db, people: People, x: nat)
    requires IsDb(db) && x in db.docs && WritesFor(db, people, x).Ok? && WritesFor(db, people, x).value[0].Create?
    ensures var ws := WritesFor(db, people, x).value;
      var after := Apply(db, ws[0]);
      && IsDb(after) && x in after.docs && after.docs[x] == db.docs[x]
      && Check(after, people, x) == Check(db, people, x) && WritesFor(after, people, x) == Ok(ws[1..])
  {
    hide Check, Present;
    var targets, legacy := Check(db, people, x).value, db.docs[x];
    var missing := MissingSecondary(db.docs, legacy.barber, targets.salons, targets.primary);
    MissingAreAbsent(db.docs, legacy.barber, targets.salons, targets.primary);
    var s := missing[0];
    assert s in missing;
    CopyPassesChecks(db, people, x, s);
    CreateIsPresent(db, Copy(legacy, s));
    var after := Apply(db, Create(x, Copy(legacy, s)));
    CheckedDistinct(db, people, x);
    MissingShrinks(db.docs, after.docs, legacy.barber, targets.salons, targets.primary, s);
    assert Creates(x, legacy, missing)[1..] == Creates(x, legacy, missing[1..]);
    var last := if Present(db.docs, legacy.barber, targets.primary) then Delete(x) else Retag(x, targets.primary);
    assert (Creates(x, legacy, missing) + [last])[1..] == Creates(x, legacy, missing)[1..] + [last];
  }

  lemma CheckedDistinct(db: Db, people: People, x: nat)
    requires x in db.docs && Check(db, people, x).Ok?
    ensures Distinct(Check(db, people, x).value.salons)
  {
  }

  lemma {:induction false} WritesResume(db: Db, people: People, x: nat, k: nat)
    requires IsDb(db) && x in db.docs && WritesFor(db, people, x).Ok? && k < |WritesFor(db, people, x).value|
    ensures var ws := WritesFor(db, people, x).value;
      var mid := ApplyAll(db, ws[..k]);
      && IsDb(mid) && x in mid.docs && mid.docs[x] == db.docs[x]
      && Check(mid, people, x) == Check(db, people, x) && WritesFor(mid, people, x) == Ok(ws[k..])
    decreases k
  {
    var ws := WritesFor(db, people, x).value;
    if k > 0 {
      WritesShape(db, people, x);
      FirstWriteResumes(db, people, x);
      WritesResume(Apply(db, ws[0]), people, x, k - 1);
      assert ws[..k][1..] == ws[1..][..k - 1];
    }
  }

  /** The writes for one legacy schedule: copies, then one that ends its being legacy. */
  lemma WritesShape(db: Db, people: People, x: nat)
    requires x in db.docs && WritesFor(db, people, x).Ok?
    ensures var ws := WritesFor(db, people, x).value;
      && ws != [] && (forall i :: 0 <= i < |ws| - 1 ==> ws[i].Create? && ws[i].x == x && ws[i].doc.salon.Salon?)
      && !ws[|ws| - 1].Create? && ws[|ws| - 1].x == x
  {
    hide Check;
  }

  /** Once all its writes are made, a schedule is legacy no more. */
  lemma LegacyEnds(db: Db, people: People, x: nat)
    requires IsDb(db) && x in db.docs && WritesFor(db, people, x).Ok?
    ensures !IsLegacy(ApplyAll(db, WritesFor(db, people, x).value), x)
  {
    hide Check, Present;
    var ws := WritesFor(db, people, x).value;
    var n := |ws| - 1;
    WritesShape(db, people, x);
    assert ws == ws[..n] + [ws[n]];
    ApplyAppend(db, ws[..n], [ws[n]]);
  }

  /** Ids beyond the old limit hold no legacy schedule, so looking at them adds nothing. */
  lemma {:induction false} NothingBeyond(db: Db, people: People, x: nat, limit: nat)
    requires forall i :: x <= i < limit ==> !IsLegacy(db, i)
    ensures RunFrom(db, people, x, limit) == Run(db, Done, [])
    decreases limit - x
  {
    if x < limit {
      NothingBeyond(db, people, x + 1, limit);
    }
  }

  lemma {:induction false} LaterLimit(db: Db, people: People, x: nat, limit: nat, later: nat)
    requires IsDb(db) && x <= limit <= later && limit <= db.nextId
    requires forall i :: limit <= i < later ==> !IsLegacy(db, i)
    ensures RunFrom(db, people, x, later) == RunFrom(db, people, x, limit)
    decreases limit - x
  {
    if x == limit {
      NothingBeyond(db, people, x, later);
    } else if !IsLegacy(db, x) {
      LaterLimit(db, people, x + 1, limit, later);
    } else if WritesFor(db, people, x).Ok? {
      var ws := WritesFor(db, people, x).value;
      WritesShape(db, people, x);
      var after := ApplyAll(db, ws);
      hide WritesFor, ApplyAll;
      WritesFollow(db, ws, x);
      forall i | limit <= i < later ensures !IsLegacy(after, i) { assert !IsLegacy(db, i); }
      LaterLimit(after, people, x + 1, limit, later);
    }
  }

  /** `mid` follows `db`: documents that are not legacy, or come before `x`, are as they were, and no new
      document is legacy. */
  ghost predicate Follows(db: Db, mid: Db, x: nat) {
    && IsDb(mid) && mid.nextId >= db.nextId
    && (forall i :: i in db.docs && (i < x || !IsLegacy(db, i)) ==> i in mid.docs && mid.docs[i] == db.docs[i])
    && (forall i :: i in mid.docs && i !in db.docs ==> i >= db.nextId && !IsLegacy(mid, i))
  }

  lemma FollowsTrans(a: Db, b: Db, c: Db, x: nat, y: nat)
    requires Follows(a, b, x) && Follows(b, c, y) && x <= y
    ensures Follows(a, c, x)
  {
    forall i | i in c.docs && i !in a.docs ensures i >= a.nextId && !IsLegacy(c, i) {
      if i in b.docs { assert !IsLegacy(b, i); }
    }
  }

  /** The writes for one legacy schedule touch no other document. */
  lemma {:induction false} WritesFollow(db: Db, ws: seq<Write>, x: nat)
    requires IsDb(db) && IsLegacy(db, x)
    requires forall i :: 0 <= i < |ws| ==>
      ws[i].x == x && (if ws[i].Create? then ws[i].doc.salon.Salon? else i == |ws| - 1)
    ensures Follows(db, ApplyAll(db, ws), x)
    decreases ws
  {
    if ws != [] {
      var after := Apply(db, ws[0]);
      if ws[0].Create? {
        WritesFollow(after, ws[1..], x);
        FollowsTrans(db, after, ApplyAll(db, ws), x, x);
      } else {
        assert ApplyAll(db, ws) == after;
      }
    }
  }

  /** The run from `x` on, unfolded once. */
  lemma RunStep(db: Db, people: People, x: nat, limit: nat)
    requires x < limit
    ensures !IsLegacy(db, x) ==> RunFrom(db, people, x, limit) == RunFrom(db, people, x + 1, limit)
    ensures IsLegacy(db, x) && WritesFor(db, people, x).Ok? ==>
      var ws := WritesFor(db, people, x).value;
      var rest := RunFrom(ApplyAll(db, ws), people, x + 1, limit);
      RunFrom(db, people, x, limit) == rest.(writes := ws + rest.writes)
    ensures IsLegacy(db, x) && WritesFor(db, people, x).Err? ==> RunFrom(db, people, x, limit).writes == []
  {
    hide WritesFor, ApplyAll, IsLegacy;
  }

  lemma FollowsOn(db: Db, ws: seq<Write>, rest: seq<Write>, x: nat, k: nat)
    requires |ws| <= k <= |ws| + |rest| && Follows(db, ApplyAll(db, ws), x)
    requires Follows(ApplyAll(db, ws), ApplyAll(ApplyAll(db, ws), rest[..k - |ws|]), x + 1)
    ensures Follows(db, ApplyAll(db, (ws + rest)[..k]), x)
  {
    hide Follows, ApplyAll;
    ApplyAppend(db, ws, rest[..k - |ws|]);
    assert (ws + rest)[..k] == ws + rest[..k - |ws|];
    FollowsTrans(db, ApplyAll(db, ws), ApplyAll(ApplyAll(db, ws), rest[..k - |ws|]), x, x + 1);
  }

  lemma FollowsEarlier(db: Db, mid: Db, x: nat)
    requires Follows(db, mid, x + 1)
    ensures Follows(db, mid, x)
  {
  }

  /** However far the writes for `x` have come. */
  lemma FirstWritesFollow(db: Db, people: People, x: nat, k: nat)
    requires IsDb(db) && IsLegacy(db, x) && WritesFor(db, people, x).Ok? && k <= |WritesFor(db, people, x).value|
    ensures Follows(db, ApplyAll(db, WritesFor(db, people, x).value[..k]), x)
  {
    WritesShape(db, people, x);
    hide WritesFor, Follows, ApplyAll;
    WritesFollow(db, WritesFor(db, people, x).value[..k], x);
  }

  /** However far a run from `x` on has come. */
  lemma {:induction false} RunFollows(db: Db, people: People, x: nat, limit: nat, k: nat)
    requires IsDb(db) && limit <= db.nextId && k <= |RunFrom(db, people, x, limit).writes|
    ensures Follows(db, ApplyAll(db, RunFrom(db, people, x, limit).writes[..k]), x)
    decreases limit - x
  {
    var writes := RunFrom(db, people, x, limit).writes;
    if x >= limit {
      NothingApplied(db, x);
    } else {
      RunStep(db, people, x, limit);
      hide RunFrom, WritesFor, Follows, ApplyAll;
      if !IsLegacy(db, x) {
        RunFollows(db, people, x + 1, limit, k);
        FollowsEarlier(db, ApplyAll(db, writes[..k]), x);
      } else if WritesFor(db, people, x).Err? {
        NothingApplied(db, x);
        assert writes[..k] == [];
      } else {
        var ws := WritesFor(db, people, x).value;
        if k < |ws| {
          FirstWritesFollow(db, people, x, k);
          assert writes[..k] == ws[..k];
        } else {
          var after := ApplyAll(db, ws);
          FirstWritesFollow(db, people, x, |ws|);
          assert ws[..|ws|] == ws;
          FollowsDb(db, after, x);
          RunFollows(after, people, x + 1, limit, k - |ws|);
          FollowsOn(db, ws, RunFrom(after, people, x + 1, limit).writes, x, k);
        }
      }
    }
  }

  lemma NothingApplied(db: Db, x: nat)
    requires IsDb(db)
    ensures ApplyAll(db, []) == db && Follows(db, db, x)
  {
  }

  lemma FollowsDb(db: Db, mid: Db, x: nat)
    requires Follows(db, mid, x)
    ensures IsDb(mid) && mid.nextId >= db.nextId
    ensures forall i :: 0 <= i < db.nextId && !IsLegacy(db, i) ==> !IsLegacy(mid, i)
    ensures forall i :: db.nextId <= i < mid.nextId ==> i in db.docs || !IsLegacy(mid, i)
  {
  }

  /** Starting again at `x`, after any number of the writes made from there, ends the same way. */
  lemma {:induction false} ResumesFrom(db: Db, people: People, x: nat, limit: nat, k: nat)
    requires IsDb(db) && limit <= db.nextId && k <= |RunFrom(db, people, x, limit).writes|
    ensures Resumed(db, people, x, limit, k)
    decreases limit - x
  {
    if x >= limit {
      assert k == 0;
    } else {
      RunStep(db, people, x, limit);
      hide RunFrom, WritesFor, IsLegacy, ApplyAll, Follows;
      if !IsLegacy(db, x) {
        ResumesFrom(db, people, x + 1, limit, k);
        RunFollows(db, people, x + 1, limit, k);
        FollowsDb(db, ApplyAll(db, RunFrom(db, people, x + 1, limit).writes[..k]), x + 1);
        RunStep(ApplyAll(db, RunFrom(db, people, x + 1, limit).writes[..k]), people, x, limit);
      } else if WritesFor(db, people, x).Ok? {
        var ws := WritesFor(db, people, x).value;
        if k < |ws| {
          ResumesWithin(db, people, x, limit, k);
        } else {
          WritesShape(db, people, x);
          WritesFollow(db, ws, x);
          FollowsDb(db, ApplyAll(db, ws), x);
          ResumesFrom(ApplyAll(db, ws), people, x + 1, limit, k - |ws|);
          ResumesAfter(db, people, x, limit, k);
        }
      } else {
        NothingApplied(db, x);
        assert RunFrom(db, people, x, limit).writes[..k] == [];
      }
    }
  }

  ghost predicate Resumed(db: Db, people: People, x: nat, limit: nat, k: nat)
    requires k <= |RunFrom(db, people, x, limit).writes|
  {
    var run := RunFrom(db, people, x, limit);
    var again := RunFrom(ApplyAll(db, run.writes[..k]), people, x, limit);
    again.db == run.db && again.outcome == run.outcome && again.writes == run.writes[k..]
  }

  /** Stopped among the writes of `x` itself. */
  lemma ResumesWithin(db: Db, people: People, x: nat, limit: nat, k: nat)
    requires IsDb(db) && x < limit <= db.nextId && IsLegacy(db, x) && WritesFor(db, people, x).Ok?
    requires k < |WritesFor(db, people, x).value|
    ensures k <= |RunFrom(db, people, x, limit).writes| && Resumed(db, people, x, limit, k)
  {
    hide WritesFor, ApplyAll, Apply, RunFrom;
    var ws := WritesFor(db, people, x).value;
    var rest := RunFrom(ApplyAll(db, ws), people, x + 1, limit).writes;
    RunStep(db, people, x, limit);
    WritesResume(db, people, x, k);
    RunStep(ApplyAll(db, ws[..k]), people, x, limit);
    assert (ws + rest)[..k] == ws[..k] && (ws + rest)[k..] == ws[k..] + rest;
    assert ws == ws[..k] + ws[k..];
    ApplyAppend(db, ws[..k], ws[k..]);
  }

  /** Stopped later than that. */
  lemma ResumesAfter(db: Db, people: People, x: nat, limit: nat, k: nat)
    requires IsDb(db) && x < limit <= db.nextId && IsLegacy(db, x) && WritesFor(db, people, x).Ok?
    requires |WritesFor(db, people, x).value| <= k <= |RunFrom(db, people, x, limit).writes|
    requires |RunFrom(db, people, x, limit).writes| ==
      |WritesFor(db, people, x).value|
        + |RunFrom(ApplyAll(db, WritesFor(db, people, x).value), people, x + 1, limit).writes|
    requires var ws := WritesFor(db, people, x).value; Resumed(ApplyAll(db, ws), people, x + 1, limit, k - |ws|)
    ensures Resumed(db, people, x, limit, k)
  {
    hide WritesFor, ApplyAll, Apply, RunFrom, Follows;
    var ws := WritesFor(db, people, x).value;
    var after, n := ApplyAll(db, ws), k - |ws|;
    var rest := RunFrom(after, people, x + 1, limit).writes;
    RunStep(db, people, x, limit);
    WritesShape(db, people, x);
    LegacyEnds(db, people, x);
    WritesFollow(db, ws, x);
    FollowsDb(db, after, x);
    RunFollows(after, people, x + 1, limit, n);
    FollowsDb(after, ApplyAll(after, rest[..n]), x + 1);
    RunStep(ApplyAll(after, rest[..n]), people, x, limit);
    assert (ws + rest)[..k] == ws + rest[..n] && (ws + rest)[k..] == rest[n..];
    ApplyAppend(db, ws, rest[..n]);
  }

  // ----- Main results -----

  /** Stopped after any single write and run again from the start, the migration ends with the very same
      documents and the same outcome as an uninterrupted run, and makes just the writes that were left. */
  lemma MigrationResumes(db: Db, people: People, k: nat)
    requires IsDb(db) && k <= |Migrate(db, people).writes|
    ensures var run := Migrate(db, people);
      var again := Migrate(ApplyAll(db, run.writes[..k]), people);
      again.db == run.db && again.outcome == run.outcome && again.writes == run.writes[k..]
  {
    var mid := ApplyAll(db, Migrate(db, people).writes[..k]);
    hide RunFrom, ApplyAll;
    ResumesFrom(db, people, 0, db.nextId, k);
    RunFollows(db, people, 0, db.nextId, k);
    FollowsDb(db, mid, 0);
    LaterLimit(mid, people, 0, db.nextId, mid.nextId);
  }

  /** The schedules of a barber are complete: for each of the salons exactly one, with the payload. */
  ghost predicate Complete(docs: map<nat, Doc>, barber: nat, salons: seq<nat>, payload: Payload) {
    && (forall s :: s in salons ==> Present(docs, barber, s))
    && !HasDuplicate(docs, barber, salons) && !HasConflict(docs, barber, salons, payload)
  }

  /** Writing a legacy schedule's writes completes its barber. */
  lemma WritesComplete(db: Db, people: People, x: nat)
    requires IsDb(db) && IsLegacy(db, x) && WritesFor(db, people, x).Ok?
    ensures Check(db, people, x).Ok?
    ensures var after := ApplyAll(db, WritesFor(db, people, x).value);
      Complete(after.docs, db.docs[x].barber, Check(db, people, x).value.salons, db.docs[x].payload)
  {
    var ws, targets := WritesFor(db, people, x).value, Check(db, people, x).value;
    hide Check, Complete;
    WritesShape(db, people, x);
    hide WritesFor;
    var n := |ws| - 1;
    WritesResume(db, people, x, n);
    var mid := ApplyAll(db, ws[..n]);
    assert ws == ws[..n] + [ws[n]];
    ApplyAppend(db, ws[..n], [ws[n]]);
    LastWriteCompletes(mid, people, x);
  }

  /** When only the last write is left, it completes the barber. */
  lemma LastWriteCompletes(db: Db, people: People, x: nat)
    requires IsDb(db) && IsLegacy(db, x) && WritesFor(db, people, x).Ok? && |WritesFor(db, people, x).value| == 1
    ensures Check(db, people, x).Ok?
    ensures var after := Apply(db, WritesFor(db, people, x).value[0]);
      Complete(after.docs, db.docs[x].barber, Check(db, people, x).value.salons, db.docs[x].payload)
  {
    var targets, legacy := Check(db, people, x).value, db.docs[x];
    var salons, primary, barber := targets.salons, targets.primary, legacy.barber;
    CheckedTargets(db, people, x);
    hide Check, Present, HasDuplicate, HasConflict;
    MissingAreAbsent(db.docs, barber, salons, primary);
    assert MissingSecondary(db.docs, barber, salons, primary) == [];
    assert forall s :: s in salons && s != primary ==> Present(db.docs, barber, s);
    if Present(db.docs, barber, primary) {
      DeleteKeepsTargets(db.docs, x, barber, salons, legacy.payload);
    } else {
      RetagAddsTarget(db.docs, x, salons, primary);
    }
  }

  lemma CheckedTargets(db: Db, people: People, x: nat)
    requires x in db.docs && Check(db, people, x).Ok?
    ensures var salons := Check(db, people, x).value.salons;
      !HasDuplicate(db.docs, db.docs[x].barber, salons)
        && !HasConflict(db.docs, db.docs[x].barber, salons, db.docs[x].payload)
  {
    hide HasDuplicate, HasConflict;
  }

  lemma DeleteKeepsTargets(docs: map<nat, Doc>, x: nat, barber: nat, salons: seq<nat>, payload: Payload)
    requires x in docs && docs[x].salon.Missing?
    requires !HasDuplicate(docs, barber, salons) && !HasConflict(docs, barber, salons, payload)
    ensures !HasDuplicate(docs - {x}, barber, salons) && !HasConflict(docs - {x}, barber, salons, payload)
    ensures forall s :: Present(docs, barber, s) ==> Present(docs - {x}, barber, s)
  {
    forall s | Present(docs, barber, s) ensures Present(docs - {x}, barber, s) {
      var i :| i in docs && docs[i].barber == barber && docs[i].salon == Salon(s);
      assert i in docs - {x};
    }
  }

  lemma RetagAddsTarget(docs: map<nat, Doc>, x: nat, salons: seq<nat>, primary: nat)
    requires x in docs && docs[x].salon.Missing? && !Present(docs, docs[x].barber, primary)
    requires !HasDuplicate(docs, docs[x].barber, salons) && !HasConflict(docs, docs[x].barber, salons, docs[x].payload)
    ensures var barber, after := docs[x].barber, docs[x := docs[x].(salon := Salon(primary))];
      && !HasDuplicate(after, barber, salons) && !HasConflict(after, barber, salons, docs[x].payload)
      && Present(after, barber, primary) && forall s :: Present(docs, barber, s) ==> Present(after, barber, s)
  {
    var barber, after := docs[x].barber, docs[x := docs[x].(salon := Salon(primary))];
    NoneThere(docs, barber, primary);
    assert x in after && after[x].salon == Salon(primary);
    forall s | Present(docs, barber, s) ensures Present(after, barber, s) {
      var i :| i in docs && docs[i].barber == barber && docs[i].salon == Salon(s);
      assert i in after && after[i] == docs[i];
    }
  }

  // ----- Success means complete -----

  /** The schedules a completeness check looks at are the same. */
  ghost predicate SameTargets(a: map<nat, Doc>, b: map<nat, Doc>, barber: nat, salons: seq<nat>) {
    && (forall i :: i in a && IsTarget(a[i], barber, salons) ==> i in b && b[i] == a[i])
    && (forall i :: i in b && IsTarget(b[i], barber, salons) ==> i in a && a[i] == b[i])
  }

  lemma CompleteBySameTargets(a: map<nat, Doc>, b: map<nat, Doc>, barber: nat, salons: seq<nat>, payload: Payload)
    requires Complete(a, barber, salons, payload) && SameTargets(a, b, barber, salons)
    ensures Complete(b, barber, salons, payload)
  {
    forall s | s in salons ensures Present(b, barber, s) {
      var i :| i in a && a[i].barber == barber && a[i].salon == Salon(s);
      assert IsTarget(a[i], barber, salons);
    }
  }

  /** Writes for a legacy schedule of another barber leave this barber's alone. */
  lemma {:induction false} OtherBarbersWrites(db: Db, ws: seq<Write>, y: nat, barber: nat, salons: seq<nat>)
    requires IsDb(db) && IsLegacy(db, y) && db.docs[y].barber != barber
    requires forall i :: 0 <= i < |ws| ==>
      ws[i].x == y && (if ws[i].Create? then ws[i].doc.salon.Salon? && ws[i].doc.barber != barber else i == |ws| - 1)
    ensures SameTargets(db.docs, ApplyAll(db, ws).docs, barber, salons)
    decreases ws
  {
    if ws != [] {
      if ws[0].Create? {
        OtherBarbersWrites(Apply(db, ws[0]), ws[1..], y, barber, salons);
      } else {
        assert ApplyAll(db, ws) == Apply(db, ws[0]);
      }
    }
  }

  /** The approved memberships: none of none, and one more comes last, if it has that status. */
  lemma {:induction false} ApprovedAppend(salons: seq<Membership>, m: Membership)
    ensures Approved([]) == []
    ensures Approved(salons + [m]) == Approved(salons) + if m.status == "approved" then [m] else []
  {
    if salons == [] {
      assert [m][1..] == [];
    } else {
      ApprovedAppend(salons[1..], m);
      assert (salons + [m])[1..] == salons[1..] + [m];
    }
  }

  ghost predicate TwoPrimaries(approved: seq<Membership>) {
    exists i, j :: 0 <= i < j < |approved| && approved[i].isPrimary && approved[j].isPrimary
  }

  lemma {:induction false} NoPrimary(approved: seq<Membership>)
    ensures Primaries(approved) == [] <==> forall i :: 0 <= i < |approved| ==> !approved[i].isPrimary
  {
    if approved != [] {
      NoPrimary(approved[1..]);
      assert forall i :: 0 <= i < |approved| - 1 ==> approved[1..][i] == approved[i + 1];
    }
  }

  lemma {:induction false} PrimariesCounted(approved: seq<Membership>)
    ensures |Primaries(approved)| > 1 <==> TwoPrimaries(approved)
  {
    if approved != [] {
      var rest := approved[1..];
      PrimariesCounted(rest);
      NoPrimary(rest);
      forall i | 0 <= i < |rest| ensures rest[i] == approved[i + 1] { }
      if i, j :| 0 <= i < j < |rest| && rest[i].isPrimary && rest[j].isPrimary {
        assert approved[i + 1].isPrimary && approved[j + 1].isPrimary;
      }
      if approved[0].isPrimary && Primaries(rest) != [] {
        var i :| 0 <= i < |rest| && rest[i].isPrimary;
        assert approved[i + 1].isPrimary;
      }
      if i, j :| 0 <= i < j < |approved| && approved[i].isPrimary && approved[j].isPrimary {
        assert rest[j - 1].isPrimary && (i > 0 ==> rest[i - 1].isPrimary);
      }
    }
  }

  /** The primary membership, or without one the first. */
  ghost predicate IsChosen(approved: seq<Membership>, k: int) {
    && 0 <= k < |approved|
    && (approved[k].isPrimary || (k == 0 && forall l :: 0 <= l < |approved| ==> !approved[l].isPrimary))
  }

  /** Targets are found exactly when some memberships are approved, each of those names a salon, no two the
      same, and at most one is primary. */
  lemma TargetsFoundExactly(user: User)
    ensures var approved := Approved(user.salons);
      ApprovedSalonsFor(user).Ok? <==>
        && approved != [] && (forall k :: 0 <= k < |approved| ==> approved[k].salon.Some?)
        && (forall k, l :: 0 <= k < l < |approved| ==> approved[k].salon != approved[l].salon)
        && !TwoPrimaries(approved)
  {
    hide Approved, Primaries, TwoPrimaries;
    var approved := Approved(user.salons);
    PrimariesCounted(approved);
    if approved != [] && forall k :: 0 <= k < |approved| ==> approved[k].salon.Some? {
      var ids := seq(|approved|, i requires 0 <= i < |approved| => approved[i].salon.value);
      assert forall k, l :: 0 <= k < l < |approved| ==> (ids[k] == ids[l] <==> approved[k].salon == approved[l].salon);
    }
  }

  /** The targets are the salons of the approved memberships, and the primary one is that of the primary
      membership, or without one that of the first. */
  lemma TargetsAreApproved(user: User)
    requires ApprovedSalonsFor(user).Ok?
    ensures var approved, targets := Approved(user.salons), ApprovedSalonsFor(user).value;
      && |targets.salons| == |approved|
      && (forall k :: 0 <= k < |approved| ==> approved[k].salon == Some(targets.salons[k]))
      && exists k :: IsChosen(approved, k) && targets.salons[k] == targets.primary
  {
    hide Approved, Distinct;
    var approved, targets := Approved(user.salons), ApprovedSalonsFor(user).value;
    NoPrimary(approved);
    PrimariesArePrimary(approved);
    if Primaries(approved) == [] {
      assert IsChosen(approved, 0);
    } else {
      var m := Primaries(approved)[0];
      assert m in Primaries(approved);
      var k :| 0 <= k < |approved| && approved[k] == m;
      assert IsChosen(approved, k);
    }
  }

  lemma {:induction false} PrimariesArePrimary(approved: seq<Membership>)
    ensures forall m :: m in Primaries(approved) ==> m in approved && m.isPrimary
  {
    if approved != [] { PrimariesArePrimary(approved[1..]); }
  }

  lemma PrimaryIsApproved(user: User)
    requires ApprovedSalonsFor(user).Ok?
    ensures ApprovedSalonsFor(user).value.primary in ApprovedSalonsFor(user).value.salons
  {
    TargetsAreApproved(user);
  }

  /** The checks pass exactly when the schedule's barber exists and is one, has targets, all of their salons
      exist, none has two schedules of the barber, and the schedules there agree with the legacy one; else the
      first check that fails names the error. */
  lemma CheckPassesExactly(db: Db, people: People, x: nat)
    requires x in db.docs
    ensures var legacy, r := db.docs[x], Check(db, people, x);
      var isBarber := legacy.barber in people.users && people.users[legacy.barber].role == "barber";
      if !isBarber then r == Err(NoValidBarber)
      else
        var targets := ApprovedSalonsFor(people.users[legacy.barber]);
        if targets.Err? then r == targets
        else
          var salons := targets.value.salons;
          if !(forall s :: s in salons ==> s in people.salons) then r == Err(MissingSalons)
          else if exists i, j, s :: IsFor(db, i, legacy.barber, s) && IsFor(db, j, legacy.barber, s) && i != j
                                    && s in salons then r == Err(DuplicateTarget)
          else if exists i, s :: IsFor(db, i, legacy.barber, s) && s in salons
                                 && db.docs[i].payload != legacy.payload then r == Err(ConflictingTarget)
          else r == targets
  {
    hide ApprovedSalonsFor;
    var legacy := db.docs[x];
    if legacy.barber in people.users && ApprovedSalonsFor(people.users[legacy.barber]).Ok? {
      var salons := ApprovedSalonsFor(people.users[legacy.barber]).value.salons;
      TargetsInTheWay(db, legacy.barber, salons, legacy.payload);
      hide HasDuplicate, HasConflict;
    }
  }

  /** The schedule of a barber for a salon. */
  predicate IsFor(db: Db, i: nat, barber: nat, s: nat) {
    i in db.docs && db.docs[i].barber == barber && db.docs[i].salon == Salon(s)
  }

  lemma TargetsInTheWay(db: Db, barber: nat, salons: seq<nat>, payload: Payload)
    ensures HasDuplicate(db.docs, barber, salons) <==>
      exists i, j, s :: IsFor(db, i, barber, s) && IsFor(db, j, barber, s) && i != j && s in salons
    ensures HasConflict(db.docs, barber, salons, payload) <==>
      exists i, s :: IsFor(db, i, barber, s) && s in salons && db.docs[i].payload != payload
  {
    if HasDuplicate(db.docs, barber, salons) {
      var i, j :| i in db.docs && j in db.docs && i != j && IsTarget(db.docs[i], barber, salons)
        && IsTarget(db.docs[j], barber, salons) && db.docs[i].salon == db.docs[j].salon;
      assert IsFor(db, i, barber, db.docs[i].salon.id) && IsFor(db, j, barber, db.docs[i].salon.id);
    }
    if i, j, s :| IsFor(db, i, barber, s) && IsFor(db, j, barber, s) && i != j && s in salons {
      assert IsTarget(db.docs[i], barber, salons) && IsTarget(db.docs[j], barber, salons);
    }
    if HasConflict(db.docs, barber, salons, payload) {
      var i :| i in db.docs && IsTarget(db.docs[i], barber, salons) && db.docs[i].payload != payload;
      assert IsFor(db, i, barber, db.docs[i].salon.id);
    }
    if i, s :| IsFor(db, i, barber, s) && s in salons && db.docs[i].payload != payload {
      assert IsTarget(db.docs[i], barber, salons);
    }
  }

  /** The salons of a barber, as the checks see them. */
  function SalonsOf(people: People, barber: nat): seq<nat> {
    if barber in people.users && ApprovedSalonsFor(people.users[barber]).Ok?
      then ApprovedSalonsFor(people.users[barber]).value.salons else []
  }

  lemma CheckedSalons(db: Db, people: People, x: nat)
    requires x in db.docs && Check(db, people, x).Ok?
    ensures Check(db, people, x).value.salons == SalonsOf(people, db.docs[x].barber) != []
    ensures Check(db, people, x).value.primary in SalonsOf(people, db.docs[x].barber)
  {
    hide ApprovedSalonsFor, HasDuplicate, HasConflict;
    PrimaryIsApproved(people.users[db.docs[x].barber]);
  }

  /** A second legacy schedule of a complete barber is only deleted. */
  lemma CompleteLeavesNothing(db: Db, people: People, y: nat, payload: Payload)
    requires IsDb(db) && IsLegacy(db, y) && WritesFor(db, people, y).Ok?
    requires Complete(db.docs, db.docs[y].barber, SalonsOf(people, db.docs[y].barber), payload)
    ensures WritesFor(db, people, y).value == [Delete(y)]
  {
    CheckedSalons(db, people, y);
    hide Check, SalonsOf, Present, HasDuplicate, HasConflict;
    var barber, targets := db.docs[y].barber, Check(db, people, y).value;
    MissingAreAbsent(db.docs, barber, targets.salons, targets.primary);
  }

  lemma WritesOfBarber(db: Db, people: People, y: nat)
    requires IsLegacy(db, y) && WritesFor(db, people, y).Ok?
    ensures forall w :: w in WritesFor(db, people, y).value && w.Create? ==>
      w.doc.barber == db.docs[y].barber && w.doc.explicitWeeklyDays.None? && w.doc.payload == db.docs[y].payload
  {
    hide Check, Present;
  }

  /** Completeness, once reached, survives the rest of the run. */
  lemma StepKeepsComplete(db: Db, people: People, y: nat, barber: nat, payload: Payload)
    requires IsDb(db) && IsLegacy(db, y) && WritesFor(db, people, y).Ok?
    requires Complete(db.docs, barber, SalonsOf(people, barber), payload)
    ensures Complete(ApplyAll(db, WritesFor(db, people, y).value).docs, barber, SalonsOf(people, barber), payload)
  {
    var ws, salons := WritesFor(db, people, y).value, SalonsOf(people, barber);
    WritesShape(db, people, y);
    WritesOfBarber(db, people, y);
    if db.docs[y].barber == barber {
      CompleteLeavesNothing(db, people, y, payload);
      hide WritesFor, SalonsOf, Complete;
      assert ApplyAll(db, ws) == Apply(db, Delete(y));
      assert SameTargets(db.docs, db.docs - {y}, barber, salons);
      CompleteBySameTargets(db.docs, db.docs - {y}, barber, salons, payload);
    } else {
      hide WritesFor, SalonsOf, Complete, SameTargets;
      OtherBarbersWrites(db, ws, y, barber, salons);
      CompleteBySameTargets(db.docs, ApplyAll(db, ws).docs, barber, salons, payload);
    }
  }

  lemma {:induction false} RunKeepsComplete(db: Db, people: People, x: nat, limit: nat, barber: nat, payload: Payload)
    requires IsDb(db) && limit <= db.nextId && Complete(db.docs, barber, SalonsOf(people, barber), payload)
    ensures Complete(RunFrom(db, people, x, limit).db.docs, barber, SalonsOf(people, barber), payload)
    decreases limit - x
  {
    hide SalonsOf, Complete, WritesFor;
    if x < limit {
      if !IsLegacy(db, x) {
        RunKeepsComplete(db, people, x + 1, limit, barber, payload);
      } else if WritesFor(db, people, x).Ok? {
        StepKeepsComplete(db, people, x, barber, payload);
        ApplyKeepsDb(db, WritesFor(db, people, x).value);
        RunKeepsComplete(ApplyAll(db, WritesFor(db, people, x).value), people, x + 1, limit, barber, payload);
      }
    }
  }

  /** The writes for one legacy schedule leave every other document as it is. */
  lemma {:induction false} OthersStay(db: Db, ws: seq<Write>, x: nat, y: nat)
    requires IsDb(db) && y in db.docs && x != y && forall i :: 0 <= i < |ws| ==> ws[i].x == x
    ensures var after := ApplyAll(db, ws); y in after.docs && after.docs[y] == db.docs[y]
    decreases ws
  {
    if ws != [] { OthersStay(Apply(db, ws[0]), ws[1..], x, y); }
  }

  lemma {:induction false} RunCompletes(db: Db, people: People, x: nat, limit: nat, y: nat)
    requires IsDb(db) && limit <= db.nextId && x <= y < limit && IsLegacy(db, y)
    requires RunFrom(db, people, x, limit).outcome.Done?
    ensures var after, barber := RunFrom(db, people, x, limit).db, db.docs[y].barber;
      SalonsOf(people, barber) != [] && Complete(after.docs, barber, SalonsOf(people, barber), db.docs[y].payload)
    decreases limit - x
  {
    hide SalonsOf, Complete;
    if !IsLegacy(db, x) {
      RunCompletes(db, people, x + 1, limit, y);
    } else {
      var ws := WritesFor(db, people, x).value;
      var after := ApplyAll(db, ws);
      WritesShape(db, people, x);
      ApplyKeepsDb(db, ws);
      if x == y {
        WritesComplete(db, people, x);
        CheckedSalons(db, people, x);
        RunKeepsComplete(after, people, x + 1, limit, db.docs[y].barber, db.docs[y].payload);
      } else {
        OthersStay(db, ws, x, y);
        hide WritesFor;
        RunCompletes(after, people, x + 1, limit, y);
      }
    }
  }

  lemma {:induction false} RunApplies(db: Db, people: People, x: nat, limit: nat)
    ensures RunFrom(db, people, x, limit).db == ApplyAll(db, RunFrom(db, people, x, limit).writes)
    decreases limit - x
  {
    hide WritesFor;
    if x < limit {
      if !IsLegacy(db, x) {
        RunApplies(db, people, x + 1, limit);
      } else if WritesFor(db, people, x).Ok? {
        var ws := WritesFor(db, people, x).value;
        RunApplies(ApplyAll(db, ws), people, x + 1, limit);
        ApplyAppend(db, ws, RunFrom(ApplyAll(db, ws), people, x + 1, limit).writes);
      }
    }
  }

  lemma RunFollowsWhole(db: Db, people: People, x: nat, limit: nat)
    requires IsDb(db) && limit <= db.nextId
    ensures Follows(db, RunFrom(db, people, x, limit).db, x)
  {
    hide RunFrom, Follows;
    var ws := RunFrom(db, people, x, limit).writes;
    RunApplies(db, people, x, limit);
    RunFollows(db, people, x, limit, |ws|);
    assert ws[..|ws|] == ws;
  }

  lemma {:induction false} NoneLeft(db: Db, people: People, x: nat, limit: nat, i: nat)
    requires IsDb(db) && limit <= db.nextId && x <= i < limit && RunFrom(db, people, x, limit).outcome.Done?
    ensures !IsLegacy(RunFrom(db, people, x, limit).db, i)
    decreases limit - x
  {
    if !IsLegacy(db, x) {
      if i == x {
        RunFollowsWhole(db, people, x + 1, limit);
        NoLegacyAppears(db, RunFrom(db, people, x + 1, limit).db, x + 1, i);
      } else {
        NoneLeft(db, people, x + 1, limit, i);
      }
    } else {
      var ws := WritesFor(db, people, x).value;
      var after := ApplyAll(db, ws);
      LegacyEnds(db, people, x);
      ApplyKeepsDb(db, ws);
      hide WritesFor, ApplyAll;
      if i == x {
        RunFollowsWhole(after, people, x + 1, limit);
        NoLegacyAppears(after, RunFrom(after, people, x + 1, limit).db, x + 1, i);
      } else {
        NoneLeft(after, people, x + 1, limit, i);
      }
    }
  }

  lemma NoLegacyAppears(db: Db, after: Db, x: nat, i: nat)
    requires Follows(db, after, x) && !IsLegacy(db, i)
    ensures !IsLegacy(after, i)
  {
  }

  /** When the migration succeeds, no legacy schedule is left, and for each that there was, its barber has
      exactly one schedule per approved salon, all with the legacy schedule's five fields. Documents that
      were not legacy are as they were. */
  lemma SuccessIsComplete(db: Db, people: People, y: nat)
    requires IsDb(db) && Migrate(db, people).outcome.Done? && IsLegacy(db, y)
    ensures var after, barber := Migrate(db, people).db, db.docs[y].barber;
      && (forall i :: i in after.docs ==> !IsLegacy(after, i))
      && SalonsOf(people, barber) != [] && Complete(after.docs, barber, SalonsOf(people, barber), db.docs[y].payload)
      && (forall i :: i in db.docs && !IsLegacy(db, i) ==> i in after.docs && after.docs[i] == db.docs[i])
  {
    hide RunFrom, SalonsOf, Complete;
    RunCompletes(db, people, 0, db.nextId, y);
    RunFollowsWhole(db, people, 0, db.nextId);
    var after := Migrate(db, people).db;
    forall i | i in after.docs ensures !IsLegacy(after, i) {
      if i in db.docs { NoneLeft(db, people, 0, db.nextId, i); }
    }
  }

  /** Once it has succeeded, running it again does nothing. */
  lemma SecondRunDoesNothing(db: Db, people: People)
    requires IsDb(db) && Migrate(db, people).outcome.Done?
    ensures var after := Migrate(db, people).db; Migrate(after, people) == Run(after, Done, [])
  {
    var ws, after := Migrate(db, people).writes, Migrate(db, people).db;
    MigrationResumes(db, people, |ws|);
    RunApplies(db, people, 0, db.nextId);
    assert ws[..|ws|] == ws && ws[|ws|..] == [];
  }

  /** A legacy schedule that fails its checks stops the run before any write for it: it is still there,
      unchanged, and all writes so far were for schedules before it. */
  lemma {:induction false} RejectedBeforeAnyWrite(db: Db, people: People, x: nat, limit: nat)
    requires IsDb(db) && limit <= db.nextId && RunFrom(db, people, x, limit).outcome.Failed?
    ensures var run := RunFrom(db, people, x, limit);
      var y := run.outcome.x;
      && y in db.docs && y in run.db.docs && run.db.docs[y] == db.docs[y] && IsLegacy(db, y)
      && Check(run.db, people, y) == Err(run.outcome.error)
      && x <= y && forall w :: w in run.writes ==> w.x < y
    decreases limit - x
  {
    hide Check;
    if !IsLegacy(db, x) {
      RejectedBeforeAnyWrite(db, people, x + 1, limit);
    } else if WritesFor(db, people, x).Ok? {
      var ws := WritesFor(db, people, x).value;
      WritesShape(db, people, x);
      ApplyKeepsDb(db, ws);
      WritesFollow(db, ws, x);
      hide WritesFor, ApplyAll;
      var after := ApplyAll(db, ws);
      RejectedBeforeAnyWrite(after, people, x + 1, limit);
      var y := RunFrom(after, people, x + 1, limit).outcome.x;
      assert y in db.docs;
      OthersStay(db, ws, x, y);
      assert forall w :: w in ws ==> w.x == x;
    }
  }

  lemma LegacyWasLegacy(db: Db, after: Db, x: nat, i: nat)
    requires Follows(db, after, x) && IsLegacy(after, i)
    ensures IsLegacy(db, i)
  {
  }

  /** Every new document copies a legacy schedule's barber and fields. It never carries
      `explicitWeeklyDays`, which is not one of the five fields, so it equals the legacy schedule but for
      the salon exactly when that has none. */
  lemma {:induction false} CopiesLackExplicitDays(db: Db, people: People, x: nat, limit: nat, w: Write)
    requires IsDb(db) && limit <= db.nextId && w in RunFrom(db, people, x, limit).writes && w.Create?
    ensures IsLegacy(db, w.x)
    ensures var legacy := db.docs[w.x];
      && w.doc.barber == legacy.barber && w.doc.payload == legacy.payload
      && (w.doc == legacy.(salon := w.doc.salon) <==> legacy.explicitWeeklyDays.None?)
    decreases limit - x
  {
    if !IsLegacy(db, x) {
      CopiesLackExplicitDays(db, people, x + 1, limit, w);
    } else {
      var ws := WritesFor(db, people, x).value;
      WritesShape(db, people, x);
      WritesOfBarber(db, people, x);
      LegacyEnds(db, people, x);
      WritesFollow(db, ws, x);
      RunStep(db, people, x, limit);
      hide WritesFor, ApplyAll, Follows, RunFrom;
      if w !in ws {
        var after := ApplyAll(db, ws);
        ApplyKeepsDb(db, ws);
        CopiesLackExplicitDays(after, people, x + 1, limit, w);
        LegacyWasLegacy(db, after, x, w.x);
        OthersStay(db, ws, x, w.x);
      }
    }
  }
}
