/** The backfill of salon memberships from a user's legacy fields: a fail-closed classifier shared by the
    audit and the backfill, and a guarded write of all eligible users in one transaction. */
module MembershipBackfill {
  import opened Wrappers

  /** The lower-case text of an object id; that it has 24 digits plays no part here. */
  type ObjectId = id: string | id != "" witness "0"

  /** A stored reference: absent, present but no object id, or an object id. */
  datatype Ref = NoRef | BadRef(text: string) | ObjectRef(id: ObjectId)

  /** `normalizeObjectId` */
  function Norm(ref: Ref): string { if ref.ObjectRef? then ref.id else "" }

  /** A membership. Missing texts read as empty, missing flags as `None`. */
  datatype Entry = Entry(salon: Ref, status: string, joinedAt: Option<int>, isPrimary: Option<bool>,
                         relationshipType: string, relationshipStatus: string, worksAsSpecialist: Option<bool>)

  /** The `salons` field of a user. */
  datatype Salons = NoSalons | NullSalons | OtherSalons(text: string) | Entries(entries: seq<Entry>)

  datatype User = User(id: Ref, version: Option<int>, createdAt: Option<int>, role: string,
                       salon: Ref, salonStatus: Option<string>, salons: Salons)

  datatype Salon = Salon(id: Ref, owner: Ref, admins: Option<seq<Ref>>)

  /** A join request; unreadable dates are `None`. */
  datatype Request =
    Request(id: Ref, barber: Ref, salon: Ref, status: string, createdAt: Option<int>, updatedAt: Option<int>)

  datatype State = Malformed | Skipped | Ambiguous | Orphan | Conflict | Eligible | Existing

  datatype Reason =
    | LegacyStatusWithoutSalon | NoLegacySalon | MalformedLegacySalonId | LegacyNoneCannotMigrate | InvalidLegacyStatus
    | NonBarberLegacyMembership | OrphanLegacySalonReference | LegacyOwnerBoundary | LegacyAdminBoundary
    | MalformedCanonicalMemberships | DuplicateOrMalformedCanonicalMembership | MultiplePrimaryApprovedMemberships
    | AmbiguousLatestJoinRequest | AcceptedJoinRequestMismatch | LatestJoinRequestStateMismatch
    | LegacyStateProven | CanonicalMembershipAlreadyExact | CanonicalStateConflictsWithLegacy

  /** The fields the write is guarded by. */
  datatype Snapshot =
    Snapshot(userId: Ref, version: Option<int>, salon: Ref, salonStatus: Option<string>, salons: Salons)

  datatype Decision = Decision(state: State, reason: Reason, membership: Option<Entry>, snapshot: Snapshot,
                               blockers: seq<Reason>, salonId: string, requestId: string)

  // ----- The latest join request -----

  /** Whether the comparator puts `a` strictly before `b`: later update, then later creation, then greater
      id. A missing date counts as 0 in its subtractions. */
  predicate Ahead(a: Request, b: Request) {
    if a.updatedAt.GetOr(0) != b.updatedAt.GetOr(0) then a.updatedAt.GetOr(0) > b.updatedAt.GetOr(0)
    else if a.createdAt.GetOr(0) != b.createdAt.GetOr(0) then a.createdAt.GetOr(0) > b.createdAt.GetOr(0)
    else StringLess(Norm(b.id), Norm(a.id))
  }

  /** The head of the stable sort: the first of the requests that none is ahead of. */
  function Leading(requests: seq<Request>): (r: Request)
    requires requests != []
    ensures r in requests
  {
    var n := |requests| - 1;
    if n == 0 then requests[0] else
      var front := Leading(requests[..n]);
      if Ahead(requests[n], front) then requests[n] else front
  }

  function Matching(requests: seq<Request>, userId: string, salonId: string): seq<Request> {
    if requests == [] then [] else
      (if Norm(requests[0].barber) == userId && Norm(requests[0].salon) == salonId then [requests[0]] else [])
      + Matching(requests[1..], userId, salonId)
  }

  function CountTwins(requests: seq<Request>, r: Request): nat {
    if requests == [] then 0 else
      (if requests[0].updatedAt == r.updatedAt && requests[0].createdAt == r.createdAt
          && Norm(requests[0].id) == Norm(r.id) then 1 else 0)
      + CountTwins(requests[1..], r)
  }

  const JOIN_REQUEST_STATUSES := {"pending", "accepted", "rejected", "cancelled"}
  const MIGRATION_STATUSES := {"pending", "approved", "rejected"}

  datatype Latest = NoRequest | Unclear | Found(request: Request)

  /** `latestRequestFor` */
  function LatestRequestFor(requests: seq<Request>, userId: string, salonId: string): Latest {
    var matching := Matching(requests, userId, salonId);
    if matching == [] then NoRequest else
      var first := Leading(matching);
      if first.updatedAt.None? || first.createdAt.None? || Norm(first.id) == "" || CountTwins(matching, first) != 1
         || first.status !in JOIN_REQUEST_STATUSES then Unclear
      else Found(first)
  }

  // ----- The classifier -----

  /** The join request's and the relationship's word for a membership status. */
  function AcceptedFor(status: string): string { if status == "approved" then "accepted" else status }

  /** `membershipForLegacy` */
  function MembershipForLegacy(user: User, salon: ObjectId, status: string): Entry {
    Entry(ObjectRef(salon), status, if status == "approved" then user.createdAt else None, Some(status == "approved"),
          "staff", AcceptedFor(status), Some(status != "rejected"))
  }

  /** `exactMembership`; the joining date is not compared. */
  predicate ExactMembership(entry: Entry, expected: Entry) {
    && Norm(entry.salon) == Norm(expected.salon)
    && entry.(salon := expected.salon, joinedAt := expected.joinedAt) == expected
  }

  function EntriesOf(user: User): seq<Entry> { if user.salons.Entries? then user.salons.entries else [] }

  predicate HasBadSalons(entries: seq<Entry>) {
    || (exists i :: 0 <= i < |entries| && Norm(entries[i].salon) == "")
    || exists i, j :: 0 <= i < j < |entries| && Norm(entries[i].salon) == Norm(entries[j].salon)
  }

  function CountPrimaries(entries: seq<Entry>): nat {
    if entries == [] then 0 else
      (if entries[0].status == "approved" && entries[0].isPrimary == Some(true) then 1 else 0)
      + CountPrimaries(entries[1..])
  }

  function FindSalon(salons: seq<Salon>, id: string): Option<Salon> {
    if salons == [] then None
    else if Norm(salons[0].id) == id then Some(salons[0])
    else FindSalon(salons[1..], id)
  }

  predicate IsAdmin(salon: Salon, userId: string) {
    salon.admins.Some? && exists i :: 0 <= i < |salon.admins.value| && Norm(salon.admins.value[i]) == userId
  }

  function If(condition: bool, reason: Reason): seq<Reason> { if condition then [reason] else [] }

  function RequestBlockers(latest: Latest, status: string): seq<Reason> {
    match latest
    case NoRequest => []
    case Unclear => [AmbiguousLatestJoinRequest]
    case Found(request) =>
      If(request.status != AcceptedFor(status),
         if request.status == "accepted" then AcceptedJoinRequestMismatch else LatestJoinRequestStateMismatch)
  }

  function BoundaryBlockers(user: User, salon: Salon): seq<Reason> {
    If(Norm(salon.owner) == Norm(user.id), LegacyOwnerBoundary)
    + If(IsAdmin(salon, Norm(user.id)), LegacyAdminBoundary)
  }

  function CanonicalBlockers(user: User): seq<Reason> {
    If(user.salons.OtherSalons?, MalformedCanonicalMemberships)
    + If(HasBadSalons(EntriesOf(user)), DuplicateOrMalformedCanonicalMembership)
    + If(CountPrimaries(EntriesOf(user)) > 1, MultiplePrimaryApprovedMemberships)
  }

  /** Everything that stands against a migration to an existing salon, in the order it is found. */
  function Blockers(user: User, salon: Salon, status: string, latest: Latest): seq<Reason> {
    BoundaryBlockers(user, salon) + CanonicalBlockers(user) + RequestBlockers(latest, status)
  }

  function TakeSnapshot(user: User): Snapshot {
    Snapshot(user.id, user.version, user.salon, user.salonStatus, user.salons)
  }

  /** A decision without a blocker list of its own reports its reason, unless it is not blocking. */
  function Decide(user: User, state: State, reason: Reason, membership: Option<Entry>, requestId: string): Decision {
    Decision(state, reason, membership, TakeSnapshot(user),
             if state in {Eligible, Existing, Skipped} then [] else [reason], Norm(user.salon), requestId)
  }

  /** `classifyLegacySalonMembership` */
  function Classify(user: User, salons: seq<Salon>, requests: seq<Request>): Decision {
    var status := if user.salonStatus.Some? then user.salonStatus.value else "";
    if user.salon.NoRef? then
      if status != "" && status != "none" then Decide(user, Malformed, LegacyStatusWithoutSalon, None, "")
      else Decide(user, Skipped, NoLegacySalon, None, "")
    else if user.salon.BadRef? then Decide(user, Malformed, MalformedLegacySalonId, None, "")
    else if status !in MIGRATION_STATUSES then
      Decide(user, Ambiguous, if status == "none" then LegacyNoneCannotMigrate else InvalidLegacyStatus, None, "")
    else if user.role != "barber" then Decide(user, Ambiguous, NonBarberLegacyMembership, None, "")
    else
      var salon := FindSalon(salons, user.salon.id);
      if salon.None? then Decide(user, Orphan, OrphanLegacySalonReference, None, "") else
        var latest := LatestRequestFor(requests, Norm(user.id), user.salon.id);
        var requestId := if latest.Found? then Norm(latest.request.id) else "";
        var blockers := Blockers(user, salon.value, status, latest);
        if blockers != [] then
          var conflicting := {DuplicateOrMalformedCanonicalMembership, AcceptedJoinRequestMismatch,
                              LatestJoinRequestStateMismatch};
          var state := if blockers[0] in conflicting then Conflict else Ambiguous;
          Decide(user, state, blockers[0], None, requestId).(blockers := blockers)
        else
          var membership, entries := MembershipForLegacy(user, user.salon.id, status), EntriesOf(user);
          if entries == [] then Decide(user, Eligible, LegacyStateProven, Some(membership), "")
          else if |entries| == 1 && ExactMembership(entries[0], membership) then
            Decide(user, Existing, CanonicalMembershipAlreadyExact, Some(membership), "")
          else Decide(user, Conflict, CanonicalStateConflictsWithLegacy, Some(membership), requestId)
  }

  // ----- What a membership says -----

  /** The membership of a user in the legacy salon, with the legacy status: primary and dated by the user's
      creation exactly when approved, of the staff, accepted when approved, and working as a specialist
      unless rejected. */
  predicate SaysWhatLegacySays(m: Entry, user: User) {
    && m.salon == user.salon && user.salonStatus == Some(m.status) && m.status in {"pending", "approved", "rejected"}
    && m.joinedAt == (if m.status == "approved" then user.createdAt else None)
    && m.isPrimary == Some(m.status == "approved")
    && m.relationshipType == "staff"
    && m.relationshipStatus == (match m.status case "approved" => "accepted" case other => other)
    && m.worksAsSpecialist == Some(m.status in {"pending", "approved"})
  }

  /** Every membership a decision carries says what the user's legacy fields say; an eligible or existing
      user's decision carries one. */
  lemma MembershipSaysWhatLegacySays(user: User, salons: seq<Salon>, requests: seq<Request>)
    ensures var d := Classify(user, salons, requests);
      && (d.membership.Some? ==> SaysWhatLegacySays(d.membership.value, user))
      && (d.state in {Eligible, Existing} ==> d.membership.Some?)
  {
    hide LatestRequestFor, FindSalon, Blockers;
  }

  // ----- Applying a decision makes it existing -----

  /** The update of a plan: the one membership, and a new version. */
  function Updated(user: User, membership: Entry): User {
    user.(salons := Entries([membership]), version := Some(user.version.GetOr(0) + 1))
  }

  lemma NoBlockers(user: User, salon: Salon, status: string, latest: Latest)
    ensures Blockers(user, salon, status, latest) == [] <==>
      && Norm(salon.owner) != Norm(user.id) && !IsAdmin(salon, Norm(user.id)) && !user.salons.OtherSalons?
      && !HasBadSalons(EntriesOf(user)) && CountPrimaries(EntriesOf(user)) <= 1 && RequestBlockers(latest, status) == []
  {
    hide RequestBlockers, HasBadSalons, CountPrimaries, IsAdmin;
  }

  lemma OneEntryIsSound(entry: Entry)
    requires Norm(entry.salon) != ""
    ensures !HasBadSalons([entry]) && CountPrimaries([entry]) <= 1
  {
    assert CountPrimaries([entry][1..]) == 0;
  }

  /** Once an eligible user is updated, classifying it again finds the very same membership in place. */
  lemma EligibleBecomesExisting(user: User, salons: seq<Salon>, requests: seq<Request>)
    requires Classify(user, salons, requests).state == Eligible
    ensures Classify(user, salons, requests).membership.Some?
    ensures var m := Classify(user, salons, requests).membership;
      var again := Classify(Updated(user, m.value), salons, requests);
      again.state == Existing && again.membership == m && again.blockers == []
  {
    hide LatestRequestFor, FindSalon, Blockers;
    var m := Classify(user, salons, requests).membership.value;
    var after := Updated(user, m);
    var status, salon := user.salonStatus.value, FindSalon(salons, user.salon.id).value;
    var latest := LatestRequestFor(requests, Norm(user.id), user.salon.id);
    NoBlockers(user, salon, status, latest);
    NoBlockers(after, salon, status, latest);
    OneEntryIsSound(m);
    assert EntriesOf(after) == [m];
    hide IsAdmin, RequestBlockers, HasBadSalons, CountPrimaries;
  }

  // ----- The order of requests does not matter -----

  predicate DistinctIds(requests: seq<Request>) {
    forall i, j :: 0 <= i < j < |requests| ==> Norm(requests[i].id) != Norm(requests[j].id)
  }

  lemma {:induction false} MatchingKeeps(requests: seq<Request>, userId: string, salonId: string)
    ensures forall r :: r in Matching(requests, userId, salonId) <==>
      r in requests && Norm(r.barber) == userId && Norm(r.salon) == salonId
    ensures DistinctIds(requests) ==> DistinctIds(Matching(requests, userId, salonId))
  {
    if requests != [] {
      MatchingKeeps(requests[1..], userId, salonId);
      assert requests == [requests[0]] + requests[1..];
      var rest := Matching(requests[1..], userId, salonId);
      assert forall i :: 0 <= i < |rest| ==> rest[i] in requests[1..];
    }
  }

  lemma AheadIsOrder(a: Request, b: Request, c: Request)
    ensures Ahead(a, b) && Ahead(b, c) ==> Ahead(a, c)
    ensures !(Ahead(a, b) && Ahead(b, a))
    ensures Norm(a.id) != Norm(b.id) ==> Ahead(a, b) || Ahead(b, a)
    ensures !Ahead(b, a) && !Ahead(c, b) ==> !Ahead(c, a)
  {
    hide StringLess;
    StringLessTrichotomy(Norm(a.id), Norm(b.id));
    StringLessTrichotomy(Norm(b.id), Norm(c.id));
    StringLessTrichotomy(Norm(a.id), Norm(c.id));
    if StringLess(Norm(b.id), Norm(a.id)) && StringLess(Norm(c.id), Norm(b.id)) {
      StringLessTransitive(Norm(c.id), Norm(b.id), Norm(a.id));
    }
    if StringLess(Norm(a.id), Norm(b.id)) && StringLess(Norm(b.id), Norm(c.id)) {
      StringLessTransitive(Norm(a.id), Norm(b.id), Norm(c.id));
    }
  }

  lemma {:induction false} NoneAheadOfLeading(requests: seq<Request>, r: Request)
    requires r in requests
    ensures !Ahead(r, Leading(requests))
  {
    hide Ahead;
    var n := |requests| - 1;
    var last := requests[n];
    AheadIsOrder(last, last, last);
    if n > 0 {
      var front := Leading(requests[..n]);
      AheadIsOrder(last, front, last);
      if r != last {
        assert r in requests[..n];
        NoneAheadOfLeading(requests[..n], r);
        AheadIsOrder(last, front, r);
      }
    }
  }

  lemma {:induction false} OneTwin(requests: seq<Request>, r: Request)
    requires DistinctIds(requests)
    ensures CountTwins(requests, r) <= 1
    ensures r in requests ==> CountTwins(requests, r) == 1
    ensures (forall q :: q in requests ==> Norm(q.id) != Norm(r.id)) ==> CountTwins(requests, r) == 0
  {
    if requests != [] {
      OneTwin(requests[1..], r);
      assert requests == [requests[0]] + requests[1..];
      if Norm(requests[0].id) == Norm(r.id) {
        assert forall q :: q in requests[1..] ==> Norm(q.id) != Norm(r.id);
      }
    }
  }

  /** Updated later; or then and created later; or that too, with the greater id. A missing date is 0. */
  predicate IsLater(q: Request, r: Request) {
    var u, v := q.updatedAt.GetOr(0), r.updatedAt.GetOr(0);
    var c, d := q.createdAt.GetOr(0), r.createdAt.GetOr(0);
    u > v || (u == v && (c > d || (c == d && StringLess(Norm(r.id), Norm(q.id)))))
  }

  predicate IsBetween(q: Request, userId: string, salonId: string) {
    Norm(q.barber) == userId && Norm(q.salon) == salonId
  }

  predicate IsLatest(r: Request, requests: seq<Request>, userId: string, salonId: string) {
    && IsBetween(r, userId, salonId)
    && forall q :: q in requests && IsBetween(q, userId, salonId) ==> !IsLater(q, r)
  }

  predicate IsReadable(r: Request) {
    && r.updatedAt.Some? && r.createdAt.Some? && r.id.ObjectRef?
    && r.status in {"pending", "accepted", "rejected", "cancelled"}
  }

  /** The request found is one between this user and salon, of a known status, fully dated and with an id,
      and none of them is later; with distinct ids, the latest one is found whenever it is all that. */
  lemma FoundIsLatest(requests: seq<Request>, userId: string, salonId: string)
    ensures match LatestRequestFor(requests, userId, salonId)
      case NoRequest => forall q :: q in requests ==> !IsBetween(q, userId, salonId)
      case Unclear => exists q :: q in requests && IsLatest(q, requests, userId, salonId)
                           && (DistinctIds(requests) ==> !IsReadable(q))
      case Found(r) => r in requests && IsLatest(r, requests, userId, salonId) && IsReadable(r)
  {
    MatchingKeeps(requests, userId, salonId);
    var matching := Matching(requests, userId, salonId);
    hide Ahead, Matching, Leading, CountTwins;
    if matching != [] {
      forall q | q in matching ensures !IsLater(q, Leading(matching)) {
        NoneAheadOfLeading(matching, q);
        AheadIsLater(q, Leading(matching));
      }
      assert Leading(matching) in matching;
      if DistinctIds(requests) { OneTwin(matching, Leading(matching)); }
    }
  }

  lemma AheadIsLater(q: Request, r: Request)
    ensures Ahead(q, r) <==> IsLater(q, r)
  {
  }

  /** No salon before this one has the id. */
  ghost predicate IsFirstWith(salons: seq<Salon>, i: int, id: ObjectId) {
    0 <= i < |salons| && salons[i].id == ObjectRef(id) && forall j :: 0 <= j < i ==> salons[j].id != ObjectRef(id)
  }

  /** The salon looked up is the first with this id. */
  lemma {:induction false} FindsTheSalon(salons: seq<Salon>, id: ObjectId)
    ensures match FindSalon(salons, id)
      case None => forall s :: s in salons ==> s.id != ObjectRef(id)
      case Some(salon) => exists i :: IsFirstWith(salons, i, id) && salons[i] == salon
  {
    if salons != [] {
      assert salons == [salons[0]] + salons[1..];
      if Norm(salons[0].id) == id {
        assert IsFirstWith(salons, 0, id);
      } else {
        FindsTheSalon(salons[1..], id);
        if FindSalon(salons[1..], id).Some? {
          var i :| IsFirstWith(salons[1..], i, id) && salons[1..][i] == FindSalon(salons[1..], id).value;
          forall j | 0 < j < i + 1 ensures salons[j].id != ObjectRef(id) { assert salons[j] == salons[1..][j - 1]; }
          assert IsFirstWith(salons, i + 1, id);
        }
      }
    }
  }

  /** More than one primary means two of them, at different places. */
  lemma {:induction false} PrimariesCounted(entries: seq<Entry>)
    ensures CountPrimaries(entries) > 0 <==> exists i :: 0 <= i < |entries| && IsPrimary(entries[i])
    ensures CountPrimaries(entries) > 1 <==>
      exists i, j :: 0 <= i < j < |entries| && IsPrimary(entries[i]) && IsPrimary(entries[j])
  {
    if entries != [] {
      var rest := entries[1..];
      PrimariesCounted(rest);
      forall i | 0 <= i < |rest| ensures rest[i] == entries[i + 1] { }
      if CountPrimaries(rest) > 0 {
        var i :| 0 <= i < |rest| && IsPrimary(rest[i]);
        assert IsPrimary(entries[i + 1]);
        if CountPrimaries(rest) > 1 {
          var j, k :| 0 <= j < k < |rest| && IsPrimary(rest[j]) && IsPrimary(rest[k]);
          assert IsPrimary(entries[j + 1]) && IsPrimary(entries[k + 1]);
        }
      }
    }
  }

  predicate IsPrimary(entry: Entry) { entry.status == "approved" && entry.isPrimary == Some(true) }

  predicate MayBeMember(salon: Option<Salon>, user: User) {
    && salon.Some? && Norm(salon.value.owner) != Norm(user.id)
    && (salon.value.admins.Some? ==> forall admin :: admin in salon.value.admins.value ==> Norm(admin) != Norm(user.id))
  }

  /** The join request, if there is one, agrees with the membership status: accepted with approved, else
      the same. */
  predicate Supports(latest: Latest, status: string) {
    || latest.NoRequest?
    || (latest.Found? && latest.request.status == match status case "approved" => "accepted" case other => other)
  }

  /** A barber with a legacy salon that exists and a legacy status that can be migrated. */
  predicate IsCandidate(user: User, salons: seq<Salon>) {
    && user.role == "barber" && user.salon.ObjectRef? && user.salonStatus.Some?
    && user.salonStatus.value in {"pending", "approved", "rejected"} && FindSalon(salons, user.salon.id).Some?
  }

  /** What a legacy membership must show to be migrated, and it is migrated whenever it shows it: a barber
      who neither owns nor administers the existing salon, a known status, no canonical membership, and
      no join request that says otherwise. */
  lemma EligibleExactlyWhenProven(user: User, salons: seq<Salon>, requests: seq<Request>)
    ensures Classify(user, salons, requests).state == Eligible <==>
      && IsCandidate(user, salons) && MayBeMember(FindSalon(salons, user.salon.id), user)
      && (user.salons.Entries? ==> user.salons.entries == []) && !user.salons.OtherSalons?
      && Supports(LatestRequestFor(requests, Norm(user.id), user.salon.id), user.salonStatus.value)
  {
    hide LatestRequestFor, FindSalon, IsAdmin, Blockers, MembershipForLegacy;
    OpenUser(user, salons, requests);
  }

  lemma AdminsAreAdmins(salon: Salon, user: User)
    ensures MayBeMember(Some(salon), user) <==>
      Norm(salon.owner) != Norm(user.id) && !IsAdmin(salon, Norm(user.id))
  {
    if salon.admins.Some? {
      var admins := salon.admins.value;
      assert IsAdmin(salon, Norm(user.id)) <==> exists admin :: admin in admins && Norm(admin) == Norm(user.id);
    }
  }

  lemma OpenUser(user: User, salons: seq<Salon>, requests: seq<Request>)
    ensures IsCandidate(user, salons) ==>
      var salon, status := FindSalon(salons, user.salon.id).value, user.salonStatus.value;
      var latest := LatestRequestFor(requests, Norm(user.id), user.salon.id);
      && (Blockers(user, salon, status, latest) == [] <==>
            && MayBeMember(Some(salon), user) && !user.salons.OtherSalons? && Supports(latest, status)
            && !HasBadSalons(EntriesOf(user)) && CountPrimaries(EntriesOf(user)) <= 1)
  {
    hide LatestRequestFor, FindSalon, IsAdmin, Blockers, MembershipForLegacy;
    if IsCandidate(user, salons) {
      var salon, status := FindSalon(salons, user.salon.id).value, user.salonStatus.value;
      AdminsAreAdmins(salon, user);
      NoBlockers(user, salon, status, LatestRequestFor(requests, Norm(user.id), user.salon.id));
    }
  }

  /** The user has the one membership the legacy fields tell of, whatever its date. */
  predicate HasWhatLegacySays(user: User) {
    && user.salons.Entries? && |user.salons.entries| == 1
    && var m := user.salons.entries[0];
       SaysWhatLegacySays(m.(joinedAt := if m.status == "approved" then user.createdAt else None), user)
  }

  /** Some membership names no salon, or two name the same. */
  predicate RepeatsSalon(entries: seq<Entry>) {
    || (exists e :: e in entries && !e.salon.ObjectRef?)
    || exists i, j :: 0 <= i < j < |entries| && entries[i].salon == entries[j].salon
  }

  predicate RepeatsPrimary(entries: seq<Entry>) {
    exists i, j :: 0 <= i < j < |entries| && IsPrimary(entries[i]) && IsPrimary(entries[j])
  }

  lemma RepeatsAreBad(entries: seq<Entry>)
    ensures HasBadSalons(entries) <==> RepeatsSalon(entries)
    ensures RepeatsPrimary(entries) <==> CountPrimaries(entries) > 1
  {
    PrimariesCounted(entries);
    if exists e :: e in entries && !e.salon.ObjectRef? {
      var i :| 0 <= i < |entries| && !entries[i].salon.ObjectRef?;
      assert Norm(entries[i].salon) == "";
    }
    assert forall i, j :: 0 <= i < j < |entries| && entries[i].salon == entries[j].salon ==>
      Norm(entries[i].salon) == Norm(entries[j].salon);
  }

  /** Of the blockers, the first decides: those of the boundary and the malformed field come first, then bad
      salons, repeated primaries, and the join request's. */
  lemma FirstBlocker(user: User, salon: Salon, status: string, latest: Latest)
    ensures var all, entries := Blockers(user, salon, status, latest), EntriesOf(user);
      all != [] && all[0] in {DuplicateOrMalformedCanonicalMembership, AcceptedJoinRequestMismatch,
                              LatestJoinRequestStateMismatch} <==>
        && MayBeMember(Some(salon), user) && !user.salons.OtherSalons?
        && (RepeatsSalon(entries) || (!RepeatsPrimary(entries) && latest.Found? && !Supports(latest, status)))
  {
    RepeatsAreBad(EntriesOf(user));
    AdminsAreAdmins(salon, user);
    hide IsAdmin, HasBadSalons, CountPrimaries, RepeatsSalon, RepeatsPrimary, MayBeMember;
  }

  lemma CandidateState(user: User, salons: seq<Salon>, requests: seq<Request>)
    requires IsCandidate(user, salons)
    ensures var salon, status := FindSalon(salons, user.salon.id).value, user.salonStatus.value;
      var blockers := Blockers(user, salon, status, LatestRequestFor(requests, Norm(user.id), user.salon.id));
      var state, entries := Classify(user, salons, requests).state, EntriesOf(user);
      if blockers != [] then
        (state == Conflict <==> blockers[0] in {DuplicateOrMalformedCanonicalMembership, AcceptedJoinRequestMismatch,
                                                LatestJoinRequestStateMismatch}) && (state in {Conflict, Ambiguous})
      else if entries == [] then state == Eligible
      else state == if HasWhatLegacySays(user) then Existing else Conflict
  {
    hide LatestRequestFor, FindSalon, Blockers;
  }

  lemma OneSound(user: User)
    requires user.salon.ObjectRef? && HasWhatLegacySays(user)
    ensures !RepeatsSalon(EntriesOf(user)) && !RepeatsPrimary(EntriesOf(user))
  {
  }

  /** Who is skipped, malformed or an orphan, in terms of the stored user. */
  lemma StatesExactly(user: User, salons: seq<Salon>, requests: seq<Request>)
    ensures var state, status := Classify(user, salons, requests).state, user.salonStatus.GetOr("");
      && (state == Skipped <==> user.salon.NoRef? && status in {"", "none"})
      && (state == Malformed <==> user.salon.BadRef? || (user.salon.NoRef? && status !in {"", "none"}))
      && (state == Orphan <==>
            && user.role == "barber" && user.salon.ObjectRef? && status in {"pending", "approved", "rejected"}
            && forall s :: s in salons ==> s.id != user.salon)
      && (state in {Eligible, Existing, Conflict} ==> IsCandidate(user, salons))
  {
    hide LatestRequestFor, FindSalon, Blockers, MembershipForLegacy, ExactMembership;
    if user.salon.ObjectRef? { FindsTheSalon(salons, user.salon.id); }
  }

  /** Who of the candidates is existing or in conflict; EligibleExactlyWhenProven says who is eligible, and
      the rest is ambiguous. */
  lemma CandidatesExactly(user: User, salons: seq<Salon>, requests: seq<Request>)
    requires IsCandidate(user, salons)
    ensures var state, entries := Classify(user, salons, requests).state, EntriesOf(user);
      var latest := LatestRequestFor(requests, Norm(user.id), user.salon.id);
      var mayBe := MayBeMember(FindSalon(salons, user.salon.id), user) && !user.salons.OtherSalons?;
      var supported := Supports(latest, user.salonStatus.value);
      && (state == Existing <==> mayBe && supported && HasWhatLegacySays(user))
      && (state == Conflict <==>
            && mayBe
            && (|| RepeatsSalon(entries)
                || (!RepeatsPrimary(entries)
                    && if supported then entries != [] && !HasWhatLegacySays(user) else latest.Found?)))
      && state in {Eligible, Existing, Conflict, Ambiguous}
  {
    hide Classify, LatestRequestFor, FindSalon, Blockers, HasWhatLegacySays, RepeatsSalon, RepeatsPrimary, MayBeMember,
      Supports;
    var salon, status := FindSalon(salons, user.salon.id).value, user.salonStatus.value;
    var latest := LatestRequestFor(requests, Norm(user.id), user.salon.id);
    FirstBlocker(user, salon, status, latest);
    CandidateState(user, salons, requests);
    OpenUser(user, salons, requests);
    RepeatsAreBad(EntriesOf(user));
    if HasWhatLegacySays(user) { OneSound(user); }
    NothingRepeats(user);
  }

  lemma NothingRepeats(user: User)
    ensures EntriesOf(user) == [] ==> !HasWhatLegacySays(user) && !RepeatsSalon(EntriesOf(user))
  {
  }

  /** What a reason says of the user. */
  ghost predicate IsTrueOf(reason: Reason, user: User, salons: seq<Salon>, requests: seq<Request>) {
    var status, state := user.salonStatus.GetOr(""), Classify(user, salons, requests).state;
    match reason
    case LegacyStatusWithoutSalon => user.salon.NoRef? && status !in {"", "none"}
    case NoLegacySalon => user.salon.NoRef? && status in {"", "none"}
    case MalformedLegacySalonId => user.salon.BadRef?
    case LegacyNoneCannotMigrate => user.salon.ObjectRef? && status == "none"
    case InvalidLegacyStatus => user.salon.ObjectRef? && status !in {"none", "pending", "approved", "rejected"}
    case NonBarberLegacyMembership => user.salon.ObjectRef? && user.role != "barber"
    case OrphanLegacySalonReference => user.salon.ObjectRef? && forall s :: s in salons ==> s.id != user.salon
    case LegacyStateProven => state == Eligible
    case CanonicalMembershipAlreadyExact => state == Existing
    case CanonicalStateConflictsWithLegacy => state == Conflict
    case _ => IsCandidate(user, salons) && StandsInTheWay(reason, user, FindSalon(salons, user.salon.id).value,
                LatestRequestFor(requests, Norm(user.id), user.salon.id))
  }

  /** What stands against a candidate with this salon and latest join request. */
  ghost predicate StandsInTheWay(reason: Reason, user: User, salon: Salon, latest: Latest) {
    match reason
    case LegacyOwnerBoundary => Norm(salon.owner) == Norm(user.id)
    case LegacyAdminBoundary =>
      salon.admins.Some? && exists admin :: admin in salon.admins.value && Norm(admin) == Norm(user.id)
    case MalformedCanonicalMemberships => user.salons.OtherSalons?
    case DuplicateOrMalformedCanonicalMembership => RepeatsSalon(EntriesOf(user))
    case MultiplePrimaryApprovedMemberships => RepeatsPrimary(EntriesOf(user))
    case AmbiguousLatestJoinRequest => latest.Unclear?
    case AcceptedJoinRequestMismatch =>
      latest.Found? && latest.request.status == "accepted" && user.salonStatus != Some("approved")
    case LatestJoinRequestStateMismatch =>
      latest.Found? && latest.request.status != "accepted" && !Supports(latest, user.salonStatus.GetOr(""))
    case _ => false
  }

  /** The blockers found are exactly what stands in the way. */
  lemma BlockersAreTrue(user: User, salon: Salon, status: string, latest: Latest, reason: Reason)
    requires user.salonStatus == Some(status) && status in {"pending", "approved", "rejected"}
    ensures reason in Blockers(user, salon, status, latest) <==> StandsInTheWay(reason, user, salon, latest)
  {
    hide RepeatsSalon, RepeatsPrimary, HasBadSalons, CountPrimaries, IsAdmin;
    RepeatsAreBad(EntriesOf(user));
    AdminAmongAdmins(salon, user);
  }

  lemma AdminAmongAdmins(salon: Salon, user: User)
    ensures IsAdmin(salon, Norm(user.id)) <==>
      salon.admins.Some? && exists admin :: admin in salon.admins.value && Norm(admin) == Norm(user.id)
  {
    if salon.admins.Some? {
      var admins := salon.admins.value;
      if admin :| admin in admins && Norm(admin) == Norm(user.id) {
        var i :| 0 <= i < |admins| && admins[i] == admin;
      }
    }
  }

  /** The reason of a decision is true and heads its blockers, if it has any; the blockers of a candidate are
      all that stands in its way; and a decision cites the latest join request exactly when it leaves a
      candidate in conflict or ambiguous. */
  lemma ReasonsAreTrue(user: User, salons: seq<Salon>, requests: seq<Request>)
    ensures var d := Classify(user, salons, requests);
      && IsTrueOf(d.reason, user, salons, requests)
      && (d.blockers != [] ==> d.blockers[0] == d.reason)
      && d.salonId == Norm(user.salon)
      && d.requestId == (if IsCandidate(user, salons) && d.state in {Conflict, Ambiguous} then
                           match LatestRequestFor(requests, Norm(user.id), user.salon.id)
                           case Found(request) => Norm(request.id)
                           case _ => ""
                         else "")
    ensures IsCandidate(user, salons) && Classify(user, salons, requests).blockers != [] ==>
      var d, salon := Classify(user, salons, requests), FindSalon(salons, user.salon.id).value;
      var latest := LatestRequestFor(requests, Norm(user.id), user.salon.id);
      || d.blockers == [CanonicalStateConflictsWithLegacy]
      || forall reason :: reason in d.blockers <==> StandsInTheWay(reason, user, salon, latest)
  {
    hide LatestRequestFor, FindSalon, Blockers, StandsInTheWay, MembershipForLegacy, ExactMembership;
    if user.salon.ObjectRef? {
      FindsTheSalon(salons, user.salon.id);
      if IsCandidate(user, salons) {
        var salon, status := FindSalon(salons, user.salon.id).value, user.salonStatus.value;
        var latest := LatestRequestFor(requests, Norm(user.id), user.salon.id);
        var blockers := Blockers(user, salon, status, latest);
        forall reason ensures reason in blockers <==> StandsInTheWay(reason, user, salon, latest) {
          BlockersAreTrue(user, salon, status, latest, reason);
        }
        NeverInTheWay(user, salon, latest);
        assert blockers != [] ==> blockers[0] in blockers;
      }
    }
  }

  lemma NeverInTheWay(user: User, salon: Salon, latest: Latest)
    ensures forall reason :: StandsInTheWay(reason, user, salon, latest) ==>
      reason in {LegacyOwnerBoundary, LegacyAdminBoundary, MalformedCanonicalMemberships,
                 DuplicateOrMalformedCanonicalMembership, MultiplePrimaryApprovedMemberships,
                 AmbiguousLatestJoinRequest, AcceptedJoinRequestMismatch, LatestJoinRequestStateMismatch}
  {
  }

  /** With distinct request ids, the classifier's decision does not depend on the order of the requests. */
  lemma RequestOrderIsIrrelevant(user: User, salons: seq<Salon>, requests: seq<Request>, others: seq<Request>)
    requires DistinctIds(requests) && DistinctIds(others) && forall r :: r in requests <==> r in others
    ensures Classify(user, salons, requests) == Classify(user, salons, others)
  {
    hide LatestRequestFor, Blockers, FindSalon, MembershipForLegacy, ExactMembership, EntriesOf, Decide, DistinctIds;
    SameLatest(requests, others, Norm(user.id), Norm(user.salon));
  }

  lemma SameLatest(requests: seq<Request>, others: seq<Request>, userId: string, salonId: string)
    requires DistinctIds(requests) && DistinctIds(others) && forall r :: r in requests <==> r in others
    ensures LatestRequestFor(requests, userId, salonId) == LatestRequestFor(others, userId, salonId)
  {
    MatchingKeeps(requests, userId, salonId);
    MatchingKeeps(others, userId, salonId);
    var a, b := Matching(requests, userId, salonId), Matching(others, userId, salonId);
    assert forall i :: 0 <= i < |a| ==> a[i] in b;
    assert forall i :: 0 <= i < |b| ==> b[i] in a;
    hide Matching, Ahead, Leading, CountTwins;
    if a != [] && b != [] {
      var p, q := Leading(a), Leading(b);
      NoneAheadOfLeading(a, q);
      NoneAheadOfLeading(b, p);
      AheadIsOrder(p, q, p);
      SameIdSame(a, p, q);
      OneTwin(a, p);
      OneTwin(b, q);
    }
  }

  lemma SameIdSame(requests: seq<Request>, p: Request, q: Request)
    requires DistinctIds(requests) && p in requests && q in requests && Norm(p.id) == Norm(q.id)
    ensures p == q
  {
  }

  /** `if (condition) add(reason)`: a reason is listed once. */
  function AddIf(blockers: seq<Reason>, condition: bool, reason: Reason): (r: seq<Reason>)
    ensures reason !in blockers ==> r == blockers + If(condition, reason)
    ensures forall x :: x in r ==> x in blockers || x == reason
  {
    if condition && reason !in blockers then blockers + [reason] else blockers
  }

  /** The part of the classifier that collects what stands in the way. */
  method CollectBlockers(user: User, salon: Salon, status: string, latest: Latest) returns (blockers: seq<Reason>)
    ensures blockers == Blockers(user, salon, status, latest)
  {
    hide HasBadSalons, CountPrimaries, IsAdmin, Norm, AddIf, If, RequestBlockers;
    blockers := AddIf([], Norm(salon.owner) == Norm(user.id), LegacyOwnerBoundary);
    blockers := AddIf(blockers, IsAdmin(salon, Norm(user.id)), LegacyAdminBoundary);
    assert blockers == BoundaryBlockers(user, salon);
    assert forall x :: x in blockers ==> x.LegacyOwnerBoundary? || x.LegacyAdminBoundary?;
    blockers := CollectCanonical(user, blockers);
    blockers := CollectRequest(latest, status, blockers);
  }

  method CollectCanonical(user: User, start: seq<Reason>) returns (blockers: seq<Reason>)
    requires forall x :: x in start ==> x.LegacyOwnerBoundary? || x.LegacyAdminBoundary?
    ensures blockers == start + CanonicalBlockers(user)
    ensures forall x :: x in blockers ==>
      x in start || x.MalformedCanonicalMemberships? || x.DuplicateOrMalformedCanonicalMembership?
      || x.MultiplePrimaryApprovedMemberships?
  {
    hide HasBadSalons, CountPrimaries, AddIf, If;
    blockers := AddIf(start, user.salons.OtherSalons?, MalformedCanonicalMemberships);
    blockers := AddIf(blockers, HasBadSalons(EntriesOf(user)), DuplicateOrMalformedCanonicalMembership);
    blockers := AddIf(blockers, CountPrimaries(EntriesOf(user)) > 1, MultiplePrimaryApprovedMemberships);
  }

  method CollectRequest(latest: Latest, status: string, start: seq<Reason>) returns (blockers: seq<Reason>)
    requires forall x :: x in start ==>
      !x.AmbiguousLatestJoinRequest? && !x.AcceptedJoinRequestMismatch? && !x.LatestJoinRequestStateMismatch?
    ensures blockers == start + RequestBlockers(latest, status)
  {
    blockers := start;
    match latest {
      case NoRequest =>
      case Unclear => blockers := AddIf(blockers, true, AmbiguousLatestJoinRequest);
      case Found(request) =>
        var reason :=
          if request.status == "accepted" then AcceptedJoinRequestMismatch else LatestJoinRequestStateMismatch;
        blockers := AddIf(blockers, request.status != AcceptedFor(status), reason);
    }
  }

  // ----- Counting -----

  datatype Counters =
    Counters(scanned: nat, eligible: nat, existing: nat, skipped: nat, malformed: nat, orphan: nat, ambiguous: nat,
      conflicts: nat)

  function CountState(users: seq<User>, salons: seq<Salon>, requests: seq<Request>, state: State): nat {
    if users == [] then 0 else
      var n := |users| - 1;
      CountState(users[..n], salons, requests, state)
      + if Classify(users[n], salons, requests).state == state then 1 else 0
  }

  /** How many of the users are in each state. */
  function CountAll(users: seq<User>, salons: seq<Salon>, requests: seq<Request>): Counters {
    Counters(|users|,
             CountState(users, salons, requests, Eligible), CountState(users, salons, requests, Existing),
             CountState(users, salons, requests, Skipped), CountState(users, salons, requests, Malformed),
             CountState(users, salons, requests, Orphan), CountState(users, salons, requests, Ambiguous),
             CountState(users, salons, requests, Conflict))
  }

  function Counted(c: Counters, state: State): Counters {
    var more := c.(scanned := c.scanned + 1);
    match state
    case Eligible => more.(eligible := c.eligible + 1)
    case Existing => more.(existing := c.existing + 1)
    case Skipped => more.(skipped := c.skipped + 1)
    case Malformed => more.(malformed := c.malformed + 1)
    case Orphan => more.(orphan := c.orphan + 1)
    case Ambiguous => more.(ambiguous := c.ambiguous + 1)
    case Conflict => more.(conflicts := c.conflicts + 1)
  }

  /** The eligible users' decisions, in the order of the users. */
  function Plans(users: seq<User>, salons: seq<Salon>, requests: seq<Request>): seq<Decision> {
    if users == [] then [] else
      var n := |users| - 1;
      var d := Classify(users[n], salons, requests);
      Plans(users[..n], salons, requests) + if d.state == Eligible then [d] else []
  }

  /** `buildBackfillPlan` */
  method BuildBackfillPlan(users: seq<User>, salons: seq<Salon>, requests: seq<Request>)
    returns (counters: Counters, wouldCreate: nat, plans: seq<Decision>)
    ensures counters == CountAll(users, salons, requests) && plans == Plans(users, salons, requests)
    ensures wouldCreate == counters.eligible == |plans|
  {
    hide Classify;
    counters, wouldCreate, plans := Counters(0, 0, 0, 0, 0, 0, 0, 0), 0, [];
    for i := 0 to |users|
      invariant counters == CountAll(users[..i], salons, requests) && plans == Plans(users[..i], salons, requests)
      invariant wouldCreate == counters.eligible == |plans|
    {
      assert users[..i + 1][..i] == users[..i];
      var decision := Classify(users[i], salons, requests);
      counters := Counted(counters, decision.state);
      if decision.state == Eligible {
        wouldCreate := wouldCreate + 1;
        plans := plans + [decision];
      }
    }
    assert users[..|users|] == users;
  }

  /** What the audit lists of one user. */
  datatype Blocked = Blocked(userId: Ref, salonId: string, requestId: string, reasons: seq<Reason>)

  /** `buildLegacySalonMigrationAudit`, with its list of blocked users in the order of the scan. */
  method BuildMigrationAudit(users: seq<User>, salons: seq<Salon>, requests: seq<Request>)
    returns (summary: Counters, hasBlockingIssues: bool, blocked: seq<Blocked>)
    ensures summary == CountAll(users, salons, requests)
    ensures hasBlockingIssues <==> blocked != []
    ensures hasBlockingIssues <==>
      exists u :: u in users && Classify(u, salons, requests).state !in {Eligible, Existing, Skipped}
  {
    hide Classify;
    summary, blocked := Counters(0, 0, 0, 0, 0, 0, 0, 0), [];
    for i := 0 to |users|
      invariant summary == CountAll(users[..i], salons, requests)
      invariant |blocked| == summary.malformed + summary.orphan + summary.ambiguous + summary.conflicts
      invariant blocked != [] <==>
        exists u :: u in users[..i] && Classify(u, salons, requests).state !in {Eligible, Existing, Skipped}
    {
      assert users[..i + 1][..i] == users[..i] && users[..i + 1] == users[..i] + [users[i]];
      var decision := Classify(users[i], salons, requests);
      BlockedHaveBlockers(users[i], salons, requests);
      summary := Counted(summary, decision.state);
      if decision.blockers != [] {
        blocked := blocked + [Blocked(users[i].id, decision.salonId, decision.requestId, decision.blockers)];
      }
    }
    assert users[..|users|] == users;
    hasBlockingIssues := summary.malformed + summary.orphan + summary.ambiguous + summary.conflicts > 0;
  }

  /** A decision lists blockers exactly when its state is a blocking one. */
  lemma BlockedHaveBlockers(user: User, salons: seq<Salon>, requests: seq<Request>)
    ensures Classify(user, salons, requests).blockers != [] <==>
      Classify(user, salons, requests).state !in {Eligible, Existing, Skipped}
  {
    hide LatestRequestFor, FindSalon, Blockers;
  }

  /** Nobody counts nothing, and each user counts once, under the name of their state. */
  lemma EachUserCountsOnce(users: seq<User>, u: User, salons: seq<Salon>, requests: seq<Request>)
    ensures CountAll([], salons, requests) == Counters(0, 0, 0, 0, 0, 0, 0, 0)
    ensures var c, d, state := CountAll(users, salons, requests), CountAll(users + [u], salons, requests),
                               Classify(u, salons, requests).state;
      && d.scanned == c.scanned + 1
      && d.eligible == c.eligible + (if state == Eligible then 1 else 0)
      && d.existing == c.existing + (if state == Existing then 1 else 0)
      && d.skipped == c.skipped + (if state == Skipped then 1 else 0)
      && d.malformed == c.malformed + (if state == Malformed then 1 else 0)
      && d.orphan == c.orphan + (if state == Orphan then 1 else 0)
      && d.ambiguous == c.ambiguous + (if state == Ambiguous then 1 else 0)
      && d.conflicts == c.conflicts + (if state == Conflict then 1 else 0)
  {
    hide Classify;
    assert (users + [u])[..|users|] == users;
  }

  /** The states partition the users, so the counts the audit and the backfill share add up. */
  lemma {:induction false} CountsPartition(users: seq<User>, salons: seq<Salon>, requests: seq<Request>)
    ensures var c := CountAll(users, salons, requests);
      c.scanned == c.eligible + c.existing + c.skipped + c.malformed + c.orphan + c.ambiguous + c.conflicts
  {
    hide Classify;
    if users != [] {
      CountsPartition(users[..|users| - 1], salons, requests);
    }
  }

  // ----- The guarded write -----

  /** `snapshotFilter`: a snapshot that had null for the memberships also matches their absence. */
  predicate Matches(user: User, s: Snapshot) {
    && user.id == s.userId && user.version == s.version && user.salon == s.salon && user.salonStatus == s.salonStatus
    && (user.salons == s.salons || (s.salons.NullSalons? && user.salons.NoSalons?))
  }

  /** The users of the collection, by id. */
  type Users = map<Ref, User>

  datatype Trial = Completed(users: Users) | Changed | Interrupted(done: nat)

  /** One attempt at the transaction: the updates one by one, given up at the first that does not match,
      or after `failAfter` of them by a passing fault. */
  function Attempt(users: Users, plans: seq<Decision>, failAfter: Option<nat>): Trial
    requires forall p :: p in plans ==> p.membership.Some?
    decreases plans
  {
    if failAfter == Some(0) then Interrupted(0)
    else if plans == [] then Completed(users) else
      var id := plans[0].snapshot.userId;
      if !(id in users && Matches(users[id], plans[0].snapshot)) then Changed else
        var rest := Attempt(users[id := Updated(users[id], plans[0].membership.value)], plans[1..],
                            if failAfter.Some? then Some(failAfter.value - 1) else None);
        if rest.Interrupted? then Interrupted(rest.done + 1) else rest
  }

  datatype WriteError = ConcurrentChanged | GaveUp

  /** What an attempt meets: the users as others have left them by then, and where it is interrupted. */
  datatype Occasion = Occasion(users: Users, failAfter: Option<nat>)

  /** `withTransaction` makes attempts until one is not interrupted, and gives up when it may make no
      more. The count of writes is declared outside and keeps what interrupted attempts added. */
  function RunAttempts(users: Users, plans: seq<Decision>, occasions: seq<Occasion>, writes: nat)
    : (Result<nat, WriteError>, Users)
    requires forall p :: p in plans ==> p.membership.Some?
    decreases occasions
  {
    if occasions == [] then (Err(GaveUp), users) else
      match Attempt(occasions[0].users, plans, occasions[0].failAfter)
      case Interrupted(done) => RunAttempts(occasions[0].users, plans, occasions[1..], writes + done)
      case Changed => (Err(ConcurrentChanged), occasions[0].users)
      case Completed(after) => (Ok(writes + |plans|), after)
  }

  class UserCollection {
    var users: Users

    constructor (users: Users)
      ensures this.users == users
    {
      this.users := users;
    }

    /** `writeBackfillPlan` */
    method WriteBackfillPlan(plans: seq<Decision>, occasions: seq<Occasion>) returns (r: Result<nat, WriteError>)
      requires forall p :: p in plans ==> p.membership.Some?
      modifies this
      ensures (r, users) == if plans == [] then (Ok(0), old(users)) else RunAttempts(old(users), plans, occasions, 0)
    {
      if plans == [] { return Ok(0); }
      var writes := 0;
      for i := 0 to |occasions|
        invariant RunAttempts(users, plans, occasions[i..], writes) == RunAttempts(old(users), plans, occasions, 0)
      {
        assert occasions[i..][1..] == occasions[i + 1..];
        var trial := Attempt(occasions[i].users, plans, occasions[i].failAfter);
        match trial {
          case Interrupted(done) =>
            users := occasions[i].users;
            writes := writes + done;
          case Changed =>
            users := occasions[i].users;
            return Err(ConcurrentChanged);
          case Completed(after) =>
            users := after;
            return Ok(writes + |plans|);
        }
      }
      return Err(GaveUp);
    }
  }

  lemma {:induction false} CompletedUninterrupted(users: Users, plans: seq<Decision>, failAfter: Option<nat>)
    requires (forall p :: p in plans ==> p.membership.Some?) && Attempt(users, plans, failAfter).Completed?
    ensures Attempt(users, plans, None) == Attempt(users, plans, failAfter)
    decreases plans
  {
    if plans != [] {
      var id := plans[0].snapshot.userId;
      CompletedUninterrupted(users[id := Updated(users[id], plans[0].membership.value)], plans[1..],
                             if failAfter.Some? then Some(failAfter.value - 1) else None);
    }
  }

  /** Which attempt decided. */
  ghost predicate DecidedAt(plans: seq<Decision>, occasions: seq<Occasion>, k: int, failed: bool)
    requires forall p :: p in plans ==> p.membership.Some?
  {
    0 <= k < |occasions| && var trial := Attempt(occasions[k].users, plans, occasions[k].failAfter);
      if failed then trial.Changed? else trial.Completed?
  }

  /** How many updates the interrupted attempts had made. */
  function Interruptions(occasions: seq<Occasion>): nat {
    if occasions == [] then 0 else occasions[0].failAfter.GetOr(0) + Interruptions(occasions[1..])
  }

  /** An attempt is interrupted after just as many updates as its fault allows, each of a matching user. */
  lemma {:induction false} InterruptedWhere(users: Users, plans: seq<Decision>, failAfter: Option<nat>)
    requires (forall p :: p in plans ==> p.membership.Some?) && Attempt(users, plans, failAfter).Interrupted?
    ensures failAfter == Some(Attempt(users, plans, failAfter).done) && failAfter.value <= |plans|
    decreases plans
  {
    if failAfter != Some(0) && plans != [] {
      var id := plans[0].snapshot.userId;
      InterruptedWhere(users[id := Updated(users[id], plans[0].membership.value)], plans[1..],
                       if failAfter.Some? then Some(failAfter.value - 1) else None);
    }
  }

  /** Whatever interruptions there are: on success the users are what one whole application of the plans
      makes of them as some attempt found them; on failure they are as the others left them. The
      returned count is the number of plans and of the updates that interrupted attempts had made. */
  lemma {:induction false} WriteIsAllOrNothing(users: Users, plans: seq<Decision>, occasions: seq<Occasion>,
      writes: nat)
    requires forall p :: p in plans ==> p.membership.Some?
    ensures var (r, after) := RunAttempts(users, plans, occasions, writes);
      && (r.Ok? ==>
            && exists k :: DecidedAt(plans, occasions, k, false)
                           && Attempt(occasions[k].users, plans, None) == Completed(after)
                           && r.value == writes + Interruptions(occasions[..k]) + |plans|)
      && (r == Err(ConcurrentChanged) ==>
            exists k :: DecidedAt(plans, occasions, k, true) && after == occasions[k].users)
      && (r == Err(GaveUp) ==> after == if occasions == [] then users else occasions[|occasions| - 1].users)
      && (r.Ok? && Attempt(occasions[0].users, plans, occasions[0].failAfter).Completed? ==>
            r.value == writes + |plans|)
    decreases occasions
  {
    if occasions != [] {
      var trial := Attempt(occasions[0].users, plans, occasions[0].failAfter);
      if trial.Completed? {
        CompletedUninterrupted(occasions[0].users, plans, occasions[0].failAfter);
        assert DecidedAt(plans, occasions, 0, false) && occasions[..0] == [];
      } else if trial.Changed? {
        assert DecidedAt(plans, occasions, 0, true);
      } else {
        var rest := occasions[1..];
        WriteIsAllOrNothing(occasions[0].users, plans, rest, writes + trial.done);
        InterruptedWhere(occasions[0].users, plans, occasions[0].failAfter);
        forall k, failed | DecidedAt(plans, rest, k, failed) ensures DecidedAt(plans, occasions, k + 1, failed) { }
        forall k | 0 <= k <= |rest|
          ensures Interruptions(occasions[..k + 1]) == trial.done + Interruptions(rest[..k])
        {
          assert occasions[..k + 1][1..] == rest[..k];
        }
      }
    }
  }

  predicate DistinctUsers(plans: seq<Decision>) {
    forall i, j :: 0 <= i < j < |plans| ==> plans[i].snapshot.userId != plans[j].snapshot.userId
  }

  /** The user still has what the snapshot took of it, where null memberships may also be none. */
  predicate StillHas(user: User, s: Snapshot) {
    && user.id == s.userId && user.version == s.version && user.salon == s.salon && user.salonStatus == s.salonStatus
    && match s.salons
       case NullSalons => user.salons in {NullSalons, NoSalons}
       case _ => user.salons == s.salons
  }

  /** A transaction completes exactly when every plan's user still has what its snapshot took; then exactly the
      users of the plans have their one new membership, and every other user is as before. */
  lemma {:induction false} AllOrNothing(users: Users, plans: seq<Decision>)
    requires (forall p :: p in plans ==> p.membership.Some?) && DistinctUsers(plans)
    ensures var trial := Attempt(users, plans, None);
      && (trial.Completed? <==>
            forall p :: p in plans ==> p.snapshot.userId in users && StillHas(users[p.snapshot.userId], p.snapshot))
      && (!trial.Completed? ==> trial.Changed?)
      && (trial.Completed? ==>
            && trial.users.Keys == users.Keys
            && (forall p :: p in plans ==>
                  trial.users[p.snapshot.userId] == Updated(users[p.snapshot.userId], p.membership.value))
            && forall id :: id in users && (forall p :: p in plans ==> p.snapshot.userId != id) ==>
              trial.users[id] == users[id])
    decreases plans
  {
    hide Matches, StillHas, Updated;
    if plans != [] {
      var id, rest := plans[0].snapshot.userId, plans[1..];
      assert plans == [plans[0]] + rest;
      assert forall p :: p in rest ==> p.snapshot.userId != id;
      if id in users { MatchesIsStillHas(users[id], plans[0].snapshot); }
      if id in users && Matches(users[id], plans[0].snapshot) {
        var after := users[id := Updated(users[id], plans[0].membership.value)];
        AllOrNothing(after, rest);
      } else {
        assert plans[0] in plans;
      }
    }
  }

  lemma MatchesIsStillHas(user: User, s: Snapshot)
    ensures Matches(user, s) <==> StillHas(user, s)
  {
  }

  /** The plans are the eligible decisions: each is that of some scanned user. */
  lemma {:induction false} PlansAreEligible(users: seq<User>, salons: seq<Salon>, requests: seq<Request>)
    ensures forall p :: p in Plans(users, salons, requests) ==>
      p.membership.Some? && p.state == Eligible && exists u :: u in users && Classify(u, salons, requests) == p
    ensures forall u :: u in users && Classify(u, salons, requests).state == Eligible ==>
      Classify(u, salons, requests) in Plans(users, salons, requests)
  {
    hide Classify;
    if users != [] {
      var n := |users| - 1;
      PlansAreEligible(users[..n], salons, requests);
      EligibleHasMembership(users[n], salons, requests);
      assert users == users[..n] + [users[n]];
    }
  }

  lemma EligibleHasMembership(user: User, salons: seq<Salon>, requests: seq<Request>)
    ensures Classify(user, salons, requests).state == Eligible ==> Classify(user, salons, requests).membership.Some?
    ensures Classify(user, salons, requests).snapshot == TakeSnapshot(user)
  {
    hide LatestRequestFor, FindSalon, Blockers;
  }

  predicate DistinctUserIds(users: seq<User>) {
    forall i, j :: 0 <= i < j < |users| ==> users[i].id != users[j].id
  }

  lemma {:induction false} PlansAreDistinct(users: seq<User>, salons: seq<Salon>, requests: seq<Request>)
    requires DistinctUserIds(users)
    ensures DistinctUsers(Plans(users, salons, requests))
    ensures forall p :: p in Plans(users, salons, requests) ==> exists u :: u in users && u.id == p.snapshot.userId
  {
    hide Classify;
    if users != [] {
      var n := |users| - 1;
      PlansAreDistinct(users[..n], salons, requests);
      EligibleHasMembership(users[n], salons, requests);
      assert users == users[..n] + [users[n]];
      var front := Plans(users[..n], salons, requests);
      assert forall i :: 0 <= i < |front| ==> front[i] in front;
    }
  }

  /** Every scanned user as the collection holds it now. */
  ghost predicate Holds(db: Users, users: seq<User>) {
    forall u :: u in users ==> u.id in db && db[u.id] == u
  }

  /** Backfilling users that have not changed since the scan succeeds, gives each eligible one its
      membership and leaves the others; a second scan of them then finds none eligible, so that a second
      backfill writes nothing. */
  lemma SecondBackfillWritesNothing(db: Users, users: seq<User>, salons: seq<Salon>, requests: seq<Request>, u: User)
    requires Holds(db, users) && DistinctUserIds(users) && u in users
    ensures forall p :: p in Plans(users, salons, requests) ==> p.membership.Some?
    ensures var plans := Plans(users, salons, requests);
      var trial := Attempt(db, plans, None);
      var before := Classify(u, salons, requests);
      && trial.Completed? && u.id in trial.users
      && var after := Classify(trial.users[u.id], salons, requests);
         if before.state == Eligible then after.state == Existing && after.membership == before.membership
         else trial.users[u.id] == u && after.state != Eligible
  {
    hide Plans, Attempt, Classify, Updated;
    PlansAreEligible(users, salons, requests);
    PlansAreDistinct(users, salons, requests);
    var plans := Plans(users, salons, requests);
    forall p | p in plans ensures p.snapshot.userId in db && StillHas(db[p.snapshot.userId], p.snapshot) {
      var v :| v in users && Classify(v, salons, requests) == p;
      EligibleHasMembership(v, salons, requests);
    }
    AllOrNothing(db, plans);
    EligibleHasMembership(u, salons, requests);
    if Classify(u, salons, requests).state == Eligible {
      EligibleBecomesExisting(u, salons, requests);
    } else {
      NotPlanned(users, salons, requests, u);
    }
  }

  /** After a backfill of users that have not changed since the scan, each eligible user has just the one
      membership its legacy fields tell of, and a new version; nothing else of it, and no other user, has
      changed. */
  lemma BackfillWritesWhatLegacySays(db: Users, users: seq<User>, salons: seq<Salon>, requests: seq<Request>, u: User)
    requires Holds(db, users) && DistinctUserIds(users) && u in users
    ensures forall p :: p in Plans(users, salons, requests) ==> p.membership.Some?
    ensures var trial := Attempt(db, Plans(users, salons, requests), None);
      && trial.Completed? && u.id in trial.users
      && var after := trial.users[u.id];
         if Classify(u, salons, requests).state == Eligible then
           && after.salons.Entries? && |after.salons.entries| == 1
           && SaysWhatLegacySays(after.salons.entries[0], u)
           && after.version == Some(if u.version.Some? then u.version.value + 1 else 1)
           && after == u.(salons := after.salons, version := after.version)
         else after == u
  {
    hide Plans, Attempt, Classify, Updated;
    PlansAreEligible(users, salons, requests);
    PlansAreDistinct(users, salons, requests);
    SecondBackfillWritesNothing(db, users, salons, requests, u);
    MembershipSaysWhatLegacySays(u, salons, requests);
    AllOrNothing(db, Plans(users, salons, requests));
    EligibleHasMembership(u, salons, requests);
    if Classify(u, salons, requests).state == Eligible {
      UpdatedFields(u, Classify(u, salons, requests).membership.value);
    }
  }

  lemma UpdatedFields(user: User, membership: Entry)
    ensures var after := Updated(user, membership);
      && after.salons == Entries([membership])
      && after.version == Some(if user.version.Some? then user.version.value + 1 else 1)
      && after == user.(salons := after.salons, version := after.version)
  {
  }

  lemma NotPlanned(users: seq<User>, salons: seq<Salon>, requests: seq<Request>, u: User)
    requires DistinctUserIds(users) && u in users && Classify(u, salons, requests).state != Eligible
    ensures forall p :: p in Plans(users, salons, requests) ==> p.snapshot.userId != u.id
  {
    hide Plans, Classify;
    PlansAreEligible(users, salons, requests);
    forall p | p in Plans(users, salons, requests) ensures p.snapshot.userId != u.id {
      var v :| v in users && Classify(v, salons, requests) == p;
      EligibleHasMembership(v, salons, requests);
    }
  }
}
