/** backend/src/services/serviceCategoryReferenceIntegrity.js: services refer to custom categories, and
    every transaction that adds a reference, edits a category or deletes one also touches the category
    document. Transactions read a snapshot, buffer their writes, and commit only if no document they
    wrote has been committed to since (first committer wins); otherwise they run again. */
module CategoryIntegrity {
  import opened Wrappers

  datatype OwnerType = BarberOwner | SalonOwner | UnknownOwner

  datatype Category = Category(source: string, ownerType: OwnerType, ownerId: nat, active: bool, name: string)

  datatype Service = Service(customCategoryId: Option<nat>, details: string)

  /** `managers` says who may manage each existing salon. */
  datatype Db = Db(categories: map<nat, Category>, services: map<nat, Service>, managers: map<nat, set<nat>>)

  datatype Error = Error(statusCode: int, message: string)

  datatype Updates = Updates(active: Option<bool>, name: Option<string>)

  datatype Operation =
    | Persist(categoryId: nat, barberId: nat, allowExistingInactive: bool, serviceId: nat, isNew: bool, details: string)
    | UpdateCategory(categoryId: nat, updates: Updates)
    | DeleteCategory(categoryId: nat)

  datatype Outcome =
    | Saved(service: Service)
    | Updated(category: Category)
    | Deleted(category: Category, softDeleted: bool)

  /** What a transaction writes: at most one category document (None deletes it) and one service. */
  datatype Effect = Effect(category: Option<(nat, Option<Category>)>, service: Option<(nat, Service)>, outcome: Outcome)

  function CategoryOwnerError(db: Db, category: Category, barberId: nat): Option<Error> {
    match category.ownerType
    case BarberOwner =>
      if category.ownerId != barberId then Some(Error(403, "Not authorized to use this custom category")) else None
    case SalonOwner =>
      if category.ownerId !in db.managers || barberId !in db.managers[category.ownerId]
      then Some(Error(403, "Not authorized to use this custom category")) else None
    case UnknownOwner => Some(Error(400, "Invalid custom category"))
  }

  function LockCategory(db: Db, categoryId: nat, barberId: nat, allowExistingInactive: bool): Result<Category, Error> {
    if categoryId !in db.categories || db.categories[categoryId].source != "custom" then
      Err(Error(400, "Invalid custom category"))
    else
      var category := db.categories[categoryId];
      match CategoryOwnerError(db, category, barberId)
      case Some(error) => Err(error)
      case None =>
        if !category.active && !allowExistingInactive then Err(Error(400, "Invalid custom category")) else Ok(category)
  }

  function WithUpdates(category: Category, updates: Updates): Category {
    category.(active := if updates.active.Some? then updates.active.value else category.active,
              name := if updates.name.Some? then updates.name.value else category.name)
  }

  predicate Referenced(services: map<nat, Service>, categoryId: nat) {
    exists s :: s in services && services[s].customCategoryId == Some(categoryId)
  }

  /** The body of each transaction, as a function of the snapshot it reads. With `touch` false it is the
      same code without the line that writes the category when only a reference is added. */
  function Body(db: Db, op: Operation, touch: bool): Result<Effect, Error> {
    match op
    case Persist(categoryId, barberId, allowExistingInactive, serviceId, isNew, details) =>
      (match LockCategory(db, categoryId, barberId, allowExistingInactive)
       case Err(error) => Err(error)
       case Ok(category) =>
         if isNew == (serviceId in db.services) then Err(Error(404, "Service not found"))
         else
           var service := Service(Some(categoryId), details);
           var touched := if touch then Some((categoryId, Some(category))) else None;
           Ok(Effect(touched, Some((serviceId, service)), Saved(service))))
    case UpdateCategory(categoryId, updates) =>
      if categoryId !in db.categories || db.categories[categoryId].source != "custom" then
        Err(Error(404, "Category not found"))
      else
        var updated := WithUpdates(db.categories[categoryId], updates);
        Ok(Effect(Some((categoryId, Some(updated))), None, Updated(updated)))
    case DeleteCategory(categoryId) =>
      if categoryId !in db.categories || db.categories[categoryId].source != "custom" then
        Err(Error(404, "Category not found"))
      else
        var category := db.categories[categoryId];
        if Referenced(db.services, categoryId) then
          var disabled := category.(active := false);
          Ok(Effect(Some((categoryId, Some(disabled))), None, Deleted(disabled, true)))
        else
          Ok(Effect(Some((categoryId, None)), None, Deleted(category, false)))
  }

  function Apply(db: Db, effect: Effect): Db {
    var categories := match effect.category
      case None => db.categories
      case Some((c, None)) => db.categories - {c}
      case Some((c, Some(category))) => db.categories[c := category];
    var services := match effect.service
      case None => db.services
      case Some((s, service)) => db.services[s := service];
    db.(categories := categories, services := services)
  }

  // ----- The transaction bodies as the source writes them -----

  /** A session: the snapshot it started from, overlaid with its own writes. */
  class Session {
    var categories: map<nat, Category>
    var services: map<nat, Service>
    const managers: map<nat, set<nat>>
    var wroteCategory: set<nat>
    var wroteService: set<nat>

    function View(): Db
      reads this
    {
      Db(categories, services, managers)
    }

    constructor (snapshot: Db)
      ensures View() == snapshot && wroteCategory == {} && wroteService == {}
    {
      categories, services, managers := snapshot.categories, snapshot.services, snapshot.managers;
      wroteCategory, wroteService := {}, {};
    }

    /** updateOne({_id, source: "custom", active?}, {$currentDate}): the number of documents matched. */
    method Touch(categoryId: nat, activeOnly: bool) returns (matched: nat)
      modifies this`wroteCategory
      ensures matched ==
        if categoryId in categories && categories[categoryId].source == "custom"
           && (activeOnly ==> categories[categoryId].active) then 1 else 0
      ensures wroteCategory == old(wroteCategory) + if matched == 1 then {categoryId} else {}
    {
      matched := 0;
      if categoryId in categories && categories[categoryId].source == "custom"
         && (activeOnly ==> categories[categoryId].active)
      {
        wroteCategory := wroteCategory + {categoryId};
        matched := 1;
      }
    }

    method LockCategoryForReference(categoryId: nat, barberId: nat, allowExistingInactive: bool)
      returns (r: Result<Category, Error>)
      modifies this`wroteCategory
      ensures r == LockCategory(View(), categoryId, barberId, allowExistingInactive)
      ensures wroteCategory == old(wroteCategory) + if r.Ok? then {categoryId} else {}
    {
      if categoryId !in categories || categories[categoryId].source != "custom" {
        return Err(Error(400, "Invalid custom category"));
      }
      var category := categories[categoryId];
      var ownerError := CategoryOwnerError(View(), category, barberId);
      if ownerError.Some? {
        return Err(ownerError.value);
      }
      if !category.active && !allowExistingInactive {
        return Err(Error(400, "Invalid custom category"));
      }
      var matched := Touch(categoryId, !allowExistingInactive);
      if matched != 1 {
        return Err(Error(400, "Invalid custom category"));
      }
      return Ok(category);
    }

    /** Each body leaves in its session exactly the effect of the specification, and marks as written
        exactly the documents that effect names. */
    ghost predicate Leaves(before: Db, op: Operation, r: Result<Outcome, Error>)
      reads this
    {
      match Body(before, op, true)
      case Err(error) => r == Err(error)
      case Ok(effect) =>
        && r == Ok(effect.outcome) && View() == Apply(before, effect)
        && wroteCategory == (if effect.category.Some? then {effect.category.value.0} else {})
        && wroteService == (if effect.service.Some? then {effect.service.value.0} else {})
    }

    method PersistServiceWithCategoryReference(categoryId: nat, barberId: nat, allowExistingInactive: bool,
        serviceId: nat, isNew: bool, details: string)
      returns (r: Result<Outcome, Error>)
      requires wroteCategory == {} && wroteService == {}
      modifies this
      ensures Leaves(old(View()), Persist(categoryId, barberId, allowExistingInactive, serviceId, isNew, details), r)
    {
      var locked := LockCategoryForReference(categoryId, barberId, allowExistingInactive);
      if locked.Err? {
        return Err(locked.error);
      }
      if isNew == (serviceId in services) {
        return Err(Error(404, "Service not found"));
      }
      var service := Service(Some(categoryId), details);
      services := services[serviceId := service];
      wroteService := wroteService + {serviceId};
      assert categories == old(categories)[categoryId := locked.value];
      return Ok(Saved(service));
    }

    method UpdateCategoryWithReferenceIntegrity(categoryId: nat, updates: Updates) returns (r: Result<Outcome, Error>)
      requires wroteCategory == {} && wroteService == {}
      modifies this
      ensures Leaves(old(View()), UpdateCategory(categoryId, updates), r)
    {
      if categoryId !in categories || categories[categoryId].source != "custom" {
        return Err(Error(404, "Category not found"));
      }
      var matched := Touch(categoryId, false);
      if matched != 1 {
        return Err(Error(404, "Category not found"));
      }
      var updated := WithUpdates(categories[categoryId], updates);
      categories := categories[categoryId := updated];
      return Ok(Updated(updated));
    }

    method DeleteCategoryWithReferenceIntegrity(categoryId: nat) returns (r: Result<Outcome, Error>)
      requires wroteCategory == {} && wroteService == {}
      modifies this
      ensures Leaves(old(View()), DeleteCategory(categoryId), r)
    {
      if categoryId !in categories {
        return Err(Error(404, "Category not found"));
      }
      var category := categories[categoryId];
      var matched := Touch(categoryId, false);
      if matched != 1 {
        return Err(Error(404, "Category not found"));
      }
      if Referenced(services, categoryId) {
        var disabled := category.(active := false);
        categories := categories[categoryId := disabled];
        return Ok(Deleted(disabled, true));
      }
      categories := categories - {categoryId};
      return Ok(Deleted(category, false));
    }
  }

  // ----- Concurrent transactions -----

  datatype Doc = CategoryDoc(id: nat) | ServiceDoc(id: nat)

  /** `stamps` holds, for documents ever written, the number of the commit that last wrote them. */
  datatype Store = Store(db: Db, commits: nat, stamps: map<Doc, nat>)

  datatype Transaction = Transaction(op: Operation, snapshot: Db, start: nat)

  datatype World = World(store: Store, running: map<nat, Transaction>, finished: map<nat, Result<Outcome, Error>>)

  datatype Step =
    | Begin(id: nat, op: Operation)
    | Commit(id: nat)
    | Retry(id: nat)
    | Fail(id: nat)
    // Writes by the rest of the program, one document at a time.
    | CreateCategory(c: nat, category: Category)
    | SaveCategory(c: nat, category: Category)
    | SaveServiceWithoutCategory(s: nat, service: Service)
    | EditService(s: nat, details: string)
    | DeleteService(s: nat)

  function Stamp(store: Store, doc: Doc): nat {
    if doc in store.stamps then store.stamps[doc] else 0
  }

  function WriteSet(effect: Effect): set<Doc> {
    (if effect.category.Some? then {CategoryDoc(effect.category.value.0)} else {})
    + (if effect.service.Some? then {ServiceDoc(effect.service.value.0)} else {})
  }

  function Write(store: Store, effect: Effect): Store {
    var n := store.commits + 1;
    Store(Apply(store.db, effect), n, store.stamps + map doc | doc in WriteSet(effect) :: n)
  }

  predicate Conflicts(store: Store, t: Transaction, effect: Effect) {
    exists doc :: doc in WriteSet(effect) && Stamp(store, doc) > t.start
  }

  /** An edit that leaves the service the category it has at that moment, if any. */
  function EditEffect(w: World, s: nat, details: string): Effect
    requires s in w.store.db.services
  {
    var service := w.store.db.services[s].(details := details);
    Effect(None, Some((s, service)), Saved(service))
  }

  predicate Enabled(w: World, step: Step, touch: bool) {
    match step
    case Begin(id, _) => id !in w.running && id !in w.finished
    case Commit(id) => id in w.running && Body(w.running[id].snapshot, w.running[id].op, touch).Ok?
      && !Conflicts(w.store, w.running[id], Body(w.running[id].snapshot, w.running[id].op, touch).value)
    case Retry(id) => id in w.running
    case Fail(id) => id in w.running && Body(w.running[id].snapshot, w.running[id].op, touch).Err?
    case CreateCategory(c, _) => c !in w.store.db.categories && Stamp(w.store, CategoryDoc(c)) == 0
    case SaveCategory(c, category) => c in w.store.db.categories && category.source == w.store.db.categories[c].source
    case SaveServiceWithoutCategory(s, service) => service.customCategoryId.None?
    case EditService(s, _) => s in w.store.db.services
    case DeleteService(s) => true
  }

  function Take(w: World, step: Step, touch: bool): World
    requires Enabled(w, step, touch)
  {
    match step
    case Begin(id, op) => w.(running := w.running[id := Transaction(op, w.store.db, w.store.commits)])
    case Commit(id) =>
      var effect := Body(w.running[id].snapshot, w.running[id].op, touch).value;
      World(Write(w.store, effect), w.running - {id}, w.finished[id := Ok(effect.outcome)])
    case Retry(id) => w.(running := w.running[id := Transaction(w.running[id].op, w.store.db, w.store.commits)])
    case Fail(id) =>
      var error := Body(w.running[id].snapshot, w.running[id].op, touch).error;
      w.(running := w.running - {id}, finished := w.finished[id := Err(error)])
    case CreateCategory(c, category) =>
      w.(store := Write(w.store, Effect(Some((c, Some(category))), None, Updated(category))))
    case SaveCategory(c, category) =>
      w.(store := Write(w.store, Effect(Some((c, Some(category))), None, Updated(category))))
    case SaveServiceWithoutCategory(s, service) =>
      w.(store := Write(w.store, Effect(None, Some((s, service)), Saved(service))))
    case EditService(s, details) => w.(store := Write(w.store, EditEffect(w, s, details)))
    case DeleteService(s) =>
      w.(store := Store(w.store.db.(services := w.store.db.services - {s}), w.store.commits + 1,
                        w.store.stamps[ServiceDoc(s) := w.store.commits + 1]))
  }

  ghost predicate IsRun(worlds: seq<World>, steps: seq<Step>, touch: bool) {
    && |worlds| == |steps| + 1
    && forall i :: 0 <= i < |steps| ==>
      Enabled(worlds[i], steps[i], touch) && worlds[i + 1] == Take(worlds[i], steps[i], touch)
  }

  /** No service points at a category that does not exist. */
  ghost predicate ReferencesResolve(db: Db) {
    forall s :: s in db.services && db.services[s].customCategoryId.Some? ==>
      var c := db.services[s].customCategoryId.value;
      c in db.categories && db.categories[c].source == "custom"
  }

  ghost predicate Initial(w: World) {
    w.running == map[] && ReferencesResolve(w.store.db) && forall doc :: Stamp(w.store, doc) <= w.store.commits
  }

  /** A document not written since the transaction began is still as its snapshot shows it, and a
      reference the snapshot does not show was committed together with a write to its category. */
  ghost predicate SnapshotOk(store: Store, t: Transaction) {
    t.start <= store.commits && CategoriesSeen(store, t) && ServicesSeen(store, t) && ReferencesSeen(store, t)
  }

  ghost predicate CategoriesSeen(store: Store, t: Transaction) {
    forall c :: Stamp(store, CategoryDoc(c)) <= t.start ==>
      && (c in store.db.categories <==> c in t.snapshot.categories)
      && (c in store.db.categories ==> store.db.categories[c] == t.snapshot.categories[c])
  }

  ghost predicate ServicesSeen(store: Store, t: Transaction) {
    forall s :: Stamp(store, ServiceDoc(s)) <= t.start ==>
      && (s in store.db.services <==> s in t.snapshot.services)
      && (s in store.db.services ==> store.db.services[s] == t.snapshot.services[s])
  }

  ghost predicate ReferencesSeen(store: Store, t: Transaction) {
    forall s :: s in store.db.services && store.db.services[s].customCategoryId.Some? ==>
      var c := store.db.services[s].customCategoryId;
      || (s in t.snapshot.services && t.snapshot.services[s].customCategoryId == c)
      || Stamp(store, CategoryDoc(c.value)) > t.start
  }

  ghost predicate Inv(w: World) {
    && ReferencesResolve(w.store.db)
    && (forall doc :: Stamp(w.store, doc) <= w.store.commits)
    && (forall id :: id in w.running ==> SnapshotOk(w.store, w.running[id]))
  }

  /** An effect written over a store in which its category has not moved since the snapshot. */
  lemma CommitResolves(store: Store, t: Transaction, effect: Effect)
    requires ReferencesResolve(store.db) && SnapshotOk(store, t)
    requires Body(t.snapshot, t.op, true) == Ok(effect) && !Conflicts(store, t, effect)
    ensures ReferencesResolve(Apply(store.db, effect))
  {
    hide ServicesSeen;
    var c := effect.category.value.0;
    assert CategoryDoc(c) in WriteSet(effect);
    assert Stamp(store, CategoryDoc(c)) <= t.start;
    var db' := Apply(store.db, effect);
    forall s | s in db'.services && db'.services[s].customCategoryId.Some?
      ensures db'.services[s].customCategoryId.value in db'.categories
        && db'.categories[db'.services[s].customCategoryId.value].source == "custom"
    {
    }
  }

  /** A reference the service does not have already is added only together with a write to its category. */
  predicate AddsWithCategory(store: Store, effect: Effect) {
    effect.service.Some? && effect.service.value.1.customCategoryId.Some? ==>
      var (s, service) := effect.service.value;
      || (effect.category.Some? && effect.category.value.0 == service.customCategoryId.value)
      || (s in store.db.services && store.db.services[s].customCategoryId == service.customCategoryId)
  }

  /** Writing an effect keeps every other transaction's snapshot sound. */
  lemma WriteKeepsSnapshot(store: Store, t: Transaction, effect: Effect)
    requires SnapshotOk(store, t)
    requires AddsWithCategory(store, effect)
    ensures SnapshotOk(Write(store, effect), t)
  {
    hide CategoriesSeen, ServicesSeen, ReferencesSeen;
    WriteKeepsSeen(store, t, effect);
    WriteKeepsReferences(store, t, effect);
  }

  lemma WriteKeepsSeen(store: Store, t: Transaction, effect: Effect)
    requires SnapshotOk(store, t)
    ensures CategoriesSeen(Write(store, effect), t) && ServicesSeen(Write(store, effect), t)
  {
    hide ReferencesSeen;
  }

  lemma WriteKeepsReferences(store: Store, t: Transaction, effect: Effect)
    requires SnapshotOk(store, t) && AddsWithCategory(store, effect)
    ensures ReferencesSeen(Write(store, effect), t)
  {
    hide CategoriesSeen, ServicesSeen;
  }

  lemma StampsBounded(store: Store, effect: Effect)
    requires forall doc :: Stamp(store, doc) <= store.commits
    ensures forall doc :: Stamp(Write(store, effect), doc) <= Write(store, effect).commits
  {
    forall doc ensures Stamp(Write(store, effect), doc) <= Write(store, effect).commits {
      assert Stamp(store, doc) <= store.commits;
    }
  }

  lemma WriteKeepsInv(w: World, effect: Effect, v: World)
    requires Inv(w) && v.store == Write(w.store, effect) && ReferencesResolve(v.store.db)
    requires forall id :: id in v.running ==> id in w.running && v.running[id] == w.running[id]
    requires AddsWithCategory(w.store, effect)
    ensures Inv(v)
  {
    StampsBounded(w.store, effect);
    forall j | j in v.running ensures SnapshotOk(v.store, v.running[j]) {
      WriteKeepsSnapshot(w.store, w.running[j], effect);
    }
  }

  lemma DeleteServiceKeepsInv(w: World, s: nat)
    requires Inv(w)
    ensures Inv(Take(w, DeleteService(s), true))
  {
    var v := Take(w, DeleteService(s), true);
    forall doc ensures Stamp(v.store, doc) <= v.store.commits { assert Stamp(w.store, doc) <= w.store.commits; }
    forall j | j in v.running ensures SnapshotOk(v.store, v.running[j]) {
      assert SnapshotOk(w.store, w.running[j]);
      assert forall c :: Stamp(v.store, CategoryDoc(c)) == Stamp(w.store, CategoryDoc(c));
    }
  }

  /** With the touch, every effect writes its category, and a service only ever refers to that one. */
  lemma BodyTouches(db: Db, op: Operation, effect: Effect)
    requires Body(db, op, true) == Ok(effect)
    ensures effect.category.Some?
    ensures (effect.service.Some? ==> effect.service.value.1.customCategoryId == Some(effect.category.value.0))
  {
  }

  lemma EffectKeepsInv(w: World, id: nat, effect: Effect, v: World)
    requires Inv(w) && id in w.running && Body(w.running[id].snapshot, w.running[id].op, true) == Ok(effect)
    requires !Conflicts(w.store, w.running[id], effect) && v.store == Write(w.store, effect)
    requires v.running == w.running - {id}
    ensures Inv(v)
  {
    CommitResolves(w.store, w.running[id], effect);
    BodyTouches(w.running[id].snapshot, w.running[id].op, effect);
    WriteKeepsInv(w, effect, v);
  }

  lemma CommitKeepsInv(w: World, id: nat)
    requires Inv(w) && Enabled(w, Commit(id), true)
    ensures Inv(Take(w, Commit(id), true))
  {
    EffectKeepsInv(w, id, Body(w.running[id].snapshot, w.running[id].op, true).value, Take(w, Commit(id), true));
  }

  /** A write by the rest of the program that keeps categories in place and adds no reference. */
  lemma OtherWriteKeepsInv(w: World, effect: Effect)
    requires Inv(w)
    requires effect.service.Some? ==> effect.service.value.1.customCategoryId.None?
    requires effect.category.Some? ==>
      && effect.category.value.1.Some?
      && (effect.category.value.0 in w.store.db.categories ==>
            effect.category.value.1.value.source == w.store.db.categories[effect.category.value.0].source)
    ensures Inv(w.(store := Write(w.store, effect)))
  {
    WriteKeepsInv(w, effect, w.(store := Write(w.store, effect)));
  }

  lemma EditKeepsInv(w: World, s: nat, details: string)
    requires Inv(w) && s in w.store.db.services
    ensures Inv(Take(w, EditService(s, details), true))
  {
    WriteKeepsInv(w, EditEffect(w, s, details), Take(w, EditService(s, details), true));
  }

  lemma StepKeepsInv(w: World, step: Step)
    requires Inv(w) && Enabled(w, step, true)
    ensures Inv(Take(w, step, true))
  {
    match step {
      case Commit(id) => CommitKeepsInv(w, id);
      case CreateCategory(c, category) =>
        OtherWriteKeepsInv(w, Effect(Some((c, Some(category))), None, Updated(category)));
      case SaveCategory(c, category) =>
        OtherWriteKeepsInv(w, Effect(Some((c, Some(category))), None, Updated(category)));
      case SaveServiceWithoutCategory(s, service) =>
        OtherWriteKeepsInv(w, Effect(None, Some((s, service)), Saved(service)));
      case EditService(s, details) => EditKeepsInv(w, s, details);
      case DeleteService(s) => DeleteServiceKeepsInv(w, s);
      case _ =>
    }
  }

  // ----- Main results -----

  lemma {:induction false} RunKeepsInv(worlds: seq<World>, steps: seq<Step>, i: nat)
    requires IsRun(worlds, steps, true) && Initial(worlds[0]) && i < |worlds|
    ensures Inv(worlds[i])
  {
    if i > 0 {
      RunKeepsInv(worlds, steps, i - 1);
      StepKeepsInv(worlds[i - 1], steps[i - 1]);
    }
  }

  /** In every interleaving, no committed state has a service that points at a deleted category. */
  lemma NoDanglingReference(worlds: seq<World>, steps: seq<Step>, i: nat)
    requires IsRun(worlds, steps, true) && Initial(worlds[0]) && i < |worlds|
    ensures ReferencesResolve(worlds[i].store.db)
  {
    RunKeepsInv(worlds, steps, i);
  }

  /** Whether nothing but these documents differs. */
  predicate OnlyDiffersAt(before: Db, after: Db, category: nat, service: Option<nat>) {
    && before.categories - {category} == after.categories - {category}
    && before.services - (if service.Some? then {service.value} else {})
       == after.services - (if service.Some? then {service.value} else {})
  }

  /** Whether an outcome is true of the states before and after its commit: a saved reference points at an
      existing category, active unless the caller allowed an inactive one, and its service was there exactly if
      it was not to be new; an updated category has the new values and else its old ones; a deleted one is gone
      and unreferenced; a disabled one is still there, inactive and else as it was. */
  ghost predicate IsTrueOf(outcome: Outcome, op: Operation, before: Db, after: Db) {
    match op
    case Persist(c, _, allowExistingInactive, s, isNew, details) =>
      && (isNew <==> s !in before.services) && s in after.services && outcome == Saved(after.services[s])
      && after.services[s].customCategoryId == Some(c) && after.services[s].details == details
      && c in before.categories && c in after.categories && after.categories[c] == before.categories[c]
      && (!allowExistingInactive ==> after.categories[c].active)
    case UpdateCategory(c, updates) =>
      && c in before.categories && c in after.categories && outcome == Updated(after.categories[c])
      && var was, now := before.categories[c], after.categories[c];
         && (if updates.active.Some? then now.active == updates.active.value else now.active == was.active)
         && (if updates.name.Some? then now.name == updates.name.value else now.name == was.name)
         && now.source == was.source && now.ownerType == was.ownerType && now.ownerId == was.ownerId
    case DeleteCategory(c) =>
      && outcome.Deleted? && c in before.categories
      && (!outcome.softDeleted ==>
            && outcome.category == before.categories[c] && c !in after.categories
            && forall s :: s in after.services ==> after.services[s].customCategoryId != Some(c))
      && (outcome.softDeleted ==>
            && c in after.categories && outcome.category == after.categories[c]
            && after.categories[c] == before.categories[c].(active := false))
  }

  /** An effect written where its category is as the transaction read it. */
  lemma EffectIsTrue(before: Db, t: Transaction, effect: Effect)
    requires Body(t.snapshot, t.op, true) == Ok(effect)
    requires t.op.categoryId in before.categories && t.op.categoryId in t.snapshot.categories
    requires before.categories[t.op.categoryId] == t.snapshot.categories[t.op.categoryId]
    requires !Referenced(t.snapshot.services, t.op.categoryId) ==> !Referenced(before.services, t.op.categoryId)
    requires t.op.Persist? ==> (t.op.serviceId in before.services <==> t.op.serviceId in t.snapshot.services)
    ensures IsTrueOf(effect.outcome, t.op, before, Apply(before, effect))
    ensures OnlyDiffersAt(before, Apply(before, effect), t.op.categoryId,
                          if t.op.Persist? then Some(t.op.serviceId) else None)
  {
  }

  /** In every run, what a commit reports is true of the very state it produces, and it changes nothing it
      does not report. */
  lemma CommitReportsTheTruth(worlds: seq<World>, steps: seq<Step>, i: nat)
    requires IsRun(worlds, steps, true) && Initial(worlds[0]) && i < |steps| && steps[i].Commit?
    ensures var op, outcome := worlds[i].running[steps[i].id].op, worlds[i + 1].finished[steps[i].id];
      && outcome.Ok?
      && IsTrueOf(outcome.value, op, worlds[i].store.db, worlds[i + 1].store.db)
      && OnlyDiffersAt(worlds[i].store.db, worlds[i + 1].store.db, op.categoryId,
                       if op.Persist? then Some(op.serviceId) else None)
  {
    hide IsTrueOf, OnlyDiffersAt;
    RunKeepsInv(worlds, steps, i);
    var w, t := worlds[i], worlds[i].running[steps[i].id];
    var effect := Body(t.snapshot, t.op, true).value;
    assert CategoryDoc(effect.category.value.0) in WriteSet(effect);
    assert t.op.Persist? ==> ServiceDoc(t.op.serviceId) in WriteSet(effect);
    assert SnapshotOk(w.store, t);
    EffectIsTrue(w.store.db, t, effect);
  }

  // ----- Who may refer to a category -----

  /** The category is the barber's own, or that of an existing salon the barber manages. */
  predicate BelongsTo(db: Db, category: Category, barberId: nat) {
    || (category.ownerType == BarberOwner && category.ownerId == barberId)
    || (category.ownerType == SalonOwner && category.ownerId in db.managers
        && barberId in db.managers[category.ownerId])
  }

  /** The barber may refer to the category: it is a custom one that belongs to them, and is active unless an
      inactive one will do. */
  predicate MayRefer(db: Db, categoryId: nat, barberId: nat, inactiveWillDo: bool) {
    && categoryId in db.categories && db.categories[categoryId].source == "custom"
    && BelongsTo(db, db.categories[categoryId], barberId)
    && (db.categories[categoryId].active || inactiveWillDo)
  }

  /** The lock refuses exactly the barbers who may not refer to the category; a stranger to an existing
      custom category is told so with 403, whether or not it is active. */
  lemma LockedExactlyForItsOwners(db: Db, categoryId: nat, barberId: nat, allowExistingInactive: bool)
    ensures var r := LockCategory(db, categoryId, barberId, allowExistingInactive);
      && (r.Ok? <==> MayRefer(db, categoryId, barberId, allowExistingInactive))
      && (r.Ok? ==> r.value == db.categories[categoryId])
      && (r.Err? ==> (r.error.statusCode == 403 <==>
                        && categoryId in db.categories && db.categories[categoryId].source == "custom"
                        && !db.categories[categoryId].ownerType.UnknownOwner?
                        && !BelongsTo(db, db.categories[categoryId], barberId)))
      && (r.Err? ==> r.error in {Error(400, "Invalid custom category"),
                                 Error(403, "Not authorized to use this custom category")})
  {
  }

  /** Each operation is refused exactly when it should be: a reference also for a service that is there when
      it should be new, or not there when it should not; an update or a deletion with 404, for want of the
      custom category. */
  lemma RefusedExactlyWhen(db: Db, op: Operation)
    ensures var r := Body(db, op, true);
      match op
      case Persist(c, barberId, inactiveWillDo, s, isNew, _) =>
        && (r.Err? <==> !MayRefer(db, c, barberId, inactiveWillDo) || (isNew <==> s in db.services))
        && (r.Err? && MayRefer(db, c, barberId, inactiveWillDo) ==> r.error == Error(404, "Service not found"))
      case UpdateCategory(c, _) =>
        && (r.Err? <==> c !in db.categories || db.categories[c].source != "custom")
        && (r.Err? ==> r.error == Error(404, "Category not found"))
      case DeleteCategory(c) =>
        && (r.Err? <==> c !in db.categories || db.categories[c].source != "custom")
        && (r.Err? ==> r.error == Error(404, "Category not found"))
  {
    if op.Persist? { LockedExactlyForItsOwners(db, op.categoryId, op.barberId, op.allowExistingInactive); }
  }

  /** The snapshots in use are states the run has been through. */
  ghost predicate SnapshotsSeen(worlds: seq<World>, i: nat)
    requires i < |worlds|
  {
    forall id :: id in worlds[i].running ==>
      exists k :: 0 <= k <= i && worlds[k].store.db == worlds[i].running[id].snapshot
  }

  lemma {:induction false} SnapshotsAreSeen(worlds: seq<World>, steps: seq<Step>, i: nat)
    requires IsRun(worlds, steps, true) && worlds[0].running == map[] && i < |worlds|
    ensures SnapshotsSeen(worlds, i)
  {
    hide Body, Write, Conflicts;
    if i > 0 {
      SnapshotsAreSeen(worlds, steps, i - 1);
      forall id | id in worlds[i].running
        ensures exists k :: 0 <= k <= i && worlds[k].store.db == worlds[i].running[id].snapshot
      {
        if (steps[i - 1].Begin? || steps[i - 1].Retry?) && steps[i - 1].id == id {
          assert worlds[i - 1].store.db == worlds[i].running[id].snapshot;
        } else {
          var k :| 0 <= k <= i - 1 && worlds[k].store.db == worlds[i - 1].running[id].snapshot;
          assert worlds[k].store.db == worlds[i].running[id].snapshot;
        }
      }
    }
  }

  /** In every run, a reference is committed only by a barber who might make it in the state the
      transaction read, and the category it names is still that of this state when the commit lands. */
  lemma CommittedReferenceIsAuthorized(worlds: seq<World>, steps: seq<Step>, i: nat) returns (k: nat)
    requires IsRun(worlds, steps, true) && Initial(worlds[0]) && i < |steps|
    requires steps[i].Commit? && worlds[i].running[steps[i].id].op.Persist?
    ensures var op := worlds[i].running[steps[i].id].op;
      && k <= i && MayRefer(worlds[k].store.db, op.categoryId, op.barberId, op.allowExistingInactive)
      && op.categoryId in worlds[i + 1].store.db.categories
      && worlds[i + 1].store.db.categories[op.categoryId] == worlds[k].store.db.categories[op.categoryId]
  {
    RunKeepsInv(worlds, steps, i);
    SnapshotsAreSeen(worlds, steps, i);
    var w, t := worlds[i], worlds[i].running[steps[i].id];
    k :| 0 <= k <= i && worlds[k].store.db == t.snapshot;
    LockedExactlyForItsOwners(t.snapshot, t.op.categoryId, t.op.barberId, t.op.allowExistingInactive);
    assert CategoryDoc(t.op.categoryId) in WriteSet(Body(t.snapshot, t.op, true).value);
    assert SnapshotOk(w.store, t);
  }

  /** A transaction that fails leaves the documents as they are and is over, with its error for an answer. */
  lemma FailureChangesNothing(worlds: seq<World>, steps: seq<Step>, i: nat)
    requires IsRun(worlds, steps, true) && i < |steps| && steps[i].Fail?
    ensures var w, v, id := worlds[i], worlds[i + 1], steps[i].id;
      && v.store == w.store && id in w.running && v.running == w.running - {id}
      && id in v.finished && v.finished[id].Err? && v.finished - {id} == w.finished - {id}
  {
  }

  /** In every run, a committed deletion keeps the category, disabled, exactly when some service referred to
      it in the state the transaction read. */
  lemma DisabledExactlyWhenReferenced(worlds: seq<World>, steps: seq<Step>, i: nat) returns (k: nat)
    requires IsRun(worlds, steps, true) && Initial(worlds[0]) && i < |steps|
    requires steps[i].Commit? && worlds[i].running[steps[i].id].op.DeleteCategory?
    ensures var c, outcome := worlds[i].running[steps[i].id].op.categoryId, worlds[i + 1].finished[steps[i].id];
      && k <= i && outcome.Ok? && outcome.value.Deleted?
      && var services := worlds[k].store.db.services;
         outcome.value.softDeleted <==> exists s :: s in services && services[s].customCategoryId == Some(c)
  {
    SnapshotsAreSeen(worlds, steps, i);
    k :| 0 <= k <= i && worlds[k].store.db == worlds[i].running[steps[i].id].snapshot;
  }

  /** What the two transactions of the example write, from one snapshot. */
  lemma SkewBodies(db: Db, category: Category)
    requires db == Db(map[1 := category], map[], map[]) && category == Category("custom", BarberOwner, 7, true, "Cuts")
    ensures var service := Service(Some(1), "");
      Body(db, Persist(1, 7, false, 5, true, ""), false) == Ok(Effect(None, Some((5, service)), Saved(service)))
    ensures Body(db, DeleteCategory(1), false) == Ok(Effect(Some((1, None)), None, Deleted(category, false)))
  {
  }

  lemma CommitTakes(w: World, id: nat, effect: Effect)
    requires id in w.running && Body(w.running[id].snapshot, w.running[id].op, false) == Ok(effect)
    requires !Conflicts(w.store, w.running[id], effect)
    ensures Enabled(w, Commit(id), false)
    ensures Take(w, Commit(id), false) ==
      World(Write(w.store, effect), w.running - {id}, w.finished[id := Ok(effect.outcome)])
  {
  }

  lemma BeginTakes(w: World, id: nat, op: Operation)
    requires id !in w.running && id !in w.finished
    ensures Enabled(w, Begin(id, op), false)
    ensures Take(w, Begin(id, op), false) ==
      w.(running := w.running[id := Transaction(op, w.store.db, w.store.commits)])
  {
  }

  /** A store as new conflicts with nothing; one that only a service was written to, with no write to a
      category alone. */
  lemma DisjointWrites(store: Store, t: Transaction, added: Effect, removed: Effect)
    requires store.stamps == map[] && store.commits == 0 && t.start == 0
    requires added.category.None? && removed.service.None?
    ensures !Conflicts(store, t, added) && !Conflicts(Write(store, added), t, removed)
  {
  }

  /** Without the touch, adding a reference and deleting the category write different documents, and
      both can commit: the reference is left dangling. */
  lemma WriteSkewWithoutTouch() returns (worlds: seq<World>, steps: seq<Step>)
    ensures |steps| == 4 && IsRun(worlds, steps, false) && Initial(worlds[0])
    ensures !ReferencesResolve(worlds[4].store.db)
  {
    hide Body, Take, Enabled, Conflicts, Write;
    var category := Category("custom", BarberOwner, 7, true, "Cuts");
    var add, remove := Persist(1, 7, false, 5, true, ""), DeleteCategory(1);
    var added := Effect(None, Some((5, Service(Some(1), ""))), Saved(Service(Some(1), "")));
    var removed := Effect(Some((1, None)), None, Deleted(category, false));
    var store := Store(Db(map[1 := category], map[], map[]), 0, map[]);
    steps := [Begin(0, add), Begin(1, remove), Commit(0), Commit(1)];
    var w0 := World(store, map[], map[]);
    SkewBodies(store.db, category);
    BeginTakes(w0, 0, add);
    var w1 := Take(w0, steps[0], false);
    BeginTakes(w1, 1, remove);
    var w2 := Take(w1, steps[1], false);
    DisjointWrites(store, Transaction(add, store.db, 0), added, removed);
    DisjointWrites(store, Transaction(remove, store.db, 0), added, removed);
    CommitTakes(w2, 0, added);
    var w3 := Take(w2, steps[2], false);
    CommitTakes(w3, 1, removed);
    var w4 := Take(w3, steps[3], false);
    worlds := [w0, w1, w2, w3, w4];
    BothApplied(store, category, added, removed);
  }

  lemma BothApplied(store: Store, category: Category, added: Effect, removed: Effect)
    requires store.db == Db(map[1 := category], map[], map[])
    requires added.category.None? && added.service == Some((5, Service(Some(1), "")))
    requires removed.service.None? && removed.category == Some((1, None))
    ensures !ReferencesResolve(Write(Write(store, added), removed).db)
  {
    var db := Write(Write(store, added), removed).db;
    assert db.services[5].customCategoryId == Some(1) && 1 !in db.categories;
  }

  /** With it, whichever of the two commits second is told of a conflict. */
  lemma TouchMakesThemConflict(store: Store, add: Transaction, remove: Transaction, first: Effect, second: Effect)
    requires add.op.Persist? && remove.op.DeleteCategory? && add.op.categoryId == remove.op.categoryId
    requires add.start <= store.commits && remove.start <= store.commits
    requires Body(add.snapshot, add.op, true) == Ok(first) && Body(remove.snapshot, remove.op, true) == Ok(second)
    ensures Conflicts(Write(store, first), remove, second) && Conflicts(Write(store, second), add, first)
  {
    var doc := CategoryDoc(add.op.categoryId);
    assert doc in WriteSet(first) && doc in WriteSet(second);
    assert Stamp(Write(store, first), doc) == store.commits + 1
      && Stamp(Write(store, second), doc) == store.commits + 1;
  }
}
