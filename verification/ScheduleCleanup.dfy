/** The nightly cleanup of past schedule dates against concurrent edits: each execution reads schedules,
    computes their cleaned fields, and writes them back only where the stored fields are still the ones
    it read. Any number of executions and edits interleave, one database operation at a time. */
module ScheduleCleanup {
  import opened Wrappers
  import opened BookingDateTime
  import opened ScheduleUtils

  /** The three date fields of a stored schedule; a document may lack any of them. */
  datatype Stored<V> =
    Stored(dateSchedules: Option<DateMap<V>>, scheduleOverrides: Option<DateMap<V>>,
      nonWorkingDays: Option<seq<string>>)

  function OrNone<T>(field: Option<seq<T>>): seq<T> { if field.Some? then field.value else [] }

  /** The fields as the cleaner reads them. */
  function Read<V>(doc: Stored<V>): Dates<V> {
    Dates(OrNone(doc.dateSchedules), OrNone(doc.scheduleOverrides), OrNone(doc.nonWorkingDays))
  }

  function Whole<V>(dates: Dates<V>): Stored<V> {
    Stored(Some(dates.dateSchedules), Some(dates.scheduleOverrides), Some(dates.nonWorkingDays))
  }

  /** The query that picks the schedules to look at: some date field is there and not empty. */
  predicate Selected<V(==)>(doc: Stored<V>) {
    OrNone(doc.nonWorkingDays) != [] || OrNone(doc.scheduleOverrides) != [] || OrNone(doc.dateSchedules) != []
  }

  /** `hasChanges`. A missing list of days off prints as `{}` and never equals the cleaned `[]`. */
  predicate HasChanges<V(==)>(cleaned: Dates<V>, doc: Stored<V>) {
    || doc.nonWorkingDays != Some(cleaned.nonWorkingDays)
    || cleaned.scheduleOverrides != OrNone(doc.scheduleOverrides)
    || cleaned.dateSchedules != OrNone(doc.dateSchedules)
  }

  /** `updateScheduleCleanupFields`: the update applies only where every stored field equals what was read. */
  function GuardedUpdate<V(==)>(stored: Option<Stored<V>>, read: Stored<V>, cleaned: Dates<V>): Option<Stored<V>> {
    if stored == Some(Whole(Read(read))) then Some(Whole(cleaned)) else stored
  }

  // ----- Executions and edits -----

  /** An execution of the job: the day it cleans for, and the documents it has read and not yet handled. */
  datatype Execution<V> = Execution(today: string, found: seq<(nat, Stored<V>)>)

  datatype World<V> = World(docs: map<nat, Stored<V>>, jobs: map<nat, Execution<V>>)

  datatype Step<V> =
    | Save(id: nat, doc: Stored<V>)
    | EditDates(id: nat, edit: Stored<V>)
    | Delete(id: nat)
    | StartJob(job: nat, today: string)
    | Find(job: nat, id: nat)
    | Handle(job: nat)

  predicate Enabled<V(==)>(w: World<V>, step: Step<V>) {
    match step
    case Save(id, doc) => true
    case EditDates(id, edit) => id in w.docs
    case Delete(id) => id in w.docs
    case StartJob(job, today) => job !in w.jobs
    case Find(job, id) => job in w.jobs && id in w.docs && Selected(w.docs[id])
    case Handle(job) => job in w.jobs && w.jobs[job].found != []
  }

  /** An edit sets some of the date fields and leaves the others. */
  function Edited<V>(doc: Stored<V>, edit: Stored<V>): Stored<V> {
    Stored(if edit.dateSchedules.Some? then edit.dateSchedules else doc.dateSchedules,
           if edit.scheduleOverrides.Some? then edit.scheduleOverrides else doc.scheduleOverrides,
           if edit.nonWorkingDays.Some? then edit.nonWorkingDays else doc.nonWorkingDays)
  }

  function DocAt<V>(w: World<V>, id: nat): Option<Stored<V>> { if id in w.docs then Some(w.docs[id]) else None }

  /** The document after an execution handles what it read of it. */
  function Handled<V(==)>(stored: Option<Stored<V>>, read: Stored<V>, today: string): Option<Stored<V>> {
    var cleaned := Clean(Read(read), today);
    if HasChanges(cleaned, read) then GuardedUpdate(stored, read, cleaned) else stored
  }

  function Take<V(==)>(w: World<V>, step: Step<V>): World<V>
    requires Enabled(w, step)
  {
    match step
    case Save(id, doc) => w.(docs := w.docs[id := doc])
    case EditDates(id, edit) => w.(docs := w.docs[id := Edited(w.docs[id], edit)])
    case Delete(id) => w.(docs := w.docs - {id})
    case StartJob(job, today) => w.(jobs := w.jobs[job := Execution(today, [])])
    case Find(job, id) => w.(jobs := w.jobs[job := w.jobs[job].(found := w.jobs[job].found + [(id, w.docs[id])])])
    case Handle(job) =>
      var execution := w.jobs[job];
      var (id, read) := execution.found[0];
      var after := Handled(DocAt(w, id), read, execution.today);
      World(if after.Some? then w.docs[id := after.value] else w.docs,
            w.jobs[job := execution.(found := execution.found[1..])])
  }

  // ----- Main results -----

  /** A guarded write is a no-op, or it replaces the date fields by exactly what cleaning makes of the
      document at that very moment. */
  lemma HandleCleansTheCurrentDocument<V>(w: World<V>, job: nat)
    requires Enabled(w, Handle(job))
    ensures var id, after := w.jobs[job].found[0].0, Take(w, Handle(job));
      || after.docs == w.docs
      || (id in w.docs && after.docs == w.docs[id := Whole(Clean(Read(w.docs[id]), w.jobs[job].today))])
  {
    var (id, read) := w.jobs[job].found[0];
    var execution := w.jobs[job];
    if id in w.docs && w.docs[id] == Whole(Read(read)) {
      assert Read(w.docs[id]) == Read(read);
      if !HasChanges(Clean(Read(read), execution.today), read) {
        assert w.docs[id := w.docs[id]] == w.docs;
      }
    } else if id in w.docs {
      assert w.docs[id := w.docs[id]] == w.docs;
    }
  }

  /** No date before the day is left: not in the days off, and with no entry in either map. */
  ghost predicate NothingPast<V(!new)>(doc: Stored<V>, today: string) {
    var dates := Read(doc);
    && (forall key :: key in dates.nonWorkingDays ==> IsDateKey(key) && !StringLess(key, today))
    && (forall e :: e in dates.scheduleOverrides ==> IsDateKey(e.0) && !StringLess(e.0, today))
    && (forall e :: e in dates.dateSchedules ==> IsDateKey(e.0) && !StringLess(e.0, today))
  }

  lemma CleanedIsNothingPast<V(!new)>(dates: Dates<V>, today: string)
    ensures NothingPast(Whole(Clean(dates, today)), today)
  {
    hide IsDateKey, StringLess;
    CleanKeysKeep(dates.nonWorkingDays, today);
    CleanMapHolds(dates.scheduleOverrides, today);
    CleanMapHolds(dates.dateSchedules, today);
  }

  /** The stored document is still the one the execution read, with no date field missing. */
  predicate StillAsRead<V(==)>(w: World<V>, job: nat)
    requires Enabled(w, Handle(job))
  {
    var (id, read) := w.jobs[job].found[0];
    && id in w.docs && w.docs[id].dateSchedules == Some(OrNone(read.dateSchedules))
    && w.docs[id].scheduleOverrides == Some(OrNone(read.scheduleOverrides))
    && w.docs[id].nonWorkingDays == Some(OrNone(read.nonWorkingDays))
  }

  /** A document that is still as it was read is cleaned: nothing past is left of it, and what is left are
      its own dates from the day on. */
  lemma HandleCleans<V(!new)>(w: World<V>, job: nat)
    requires Enabled(w, Handle(job)) && StillAsRead(w, job)
    ensures var id, today, after := w.jobs[job].found[0].0, w.jobs[job].today, Take(w, Handle(job));
      && id in after.docs && NothingPast(after.docs[id], today)
      && after.docs == w.docs[id := after.docs[id]]
      && var now, was := Read(after.docs[id]), Read(w.docs[id]);
         && (forall key :: Kept(key, today) ==> (key in now.nonWorkingDays <==> key in was.nonWorkingDays))
         && (forall key :: Kept(key, today) ==>
               Lookup(now.scheduleOverrides, key) == Lookup(was.scheduleOverrides, key))
         && (forall key :: Kept(key, today) ==> Lookup(now.dateSchedules, key) == Lookup(was.dateSchedules, key))
  {
    var (id, read) := w.jobs[job].found[0];
    var today := w.jobs[job].today;
    var was := Read(w.docs[id]);
    assert was == Read(read) && w.docs[id] == Whole(was);
    CleanedIsNothingPast(was, today);
    CleanKeysKeep(was.nonWorkingDays, today);
    forall key ensures Kept(key, today) ==>
      && Lookup(CleanMap(was.scheduleOverrides, today), key) == Lookup(was.scheduleOverrides, key)
      && Lookup(CleanMap(was.dateSchedules, today), key) == Lookup(was.dateSchedules, key)
    {
      CleanMapLooksUp(was.scheduleOverrides, today, key);
      CleanMapLooksUp(was.dateSchedules, today, key);
    }
    hide CleanMap, CleanKeys, IsDateKey, StringLess;
    HandleOutcome(w, job);
  }

  /** Nothing is written exactly when the document is no longer as it was read, or cleaning would leave it
      as it is. */
  lemma HandleOutcome<V(!new)>(w: World<V>, job: nat)
    requires Enabled(w, Handle(job))
    ensures var id, today := w.jobs[job].found[0].0, w.jobs[job].today;
      && (Take(w, Handle(job)).docs == w.docs <==>
            !StillAsRead(w, job) || Clean(Read(w.docs[id]), today) == Read(w.docs[id]))
      && (StillAsRead(w, job) ==>
            Take(w, Handle(job)).docs == w.docs[id := Whole(Clean(Read(w.docs[id]), today))])
  {
    hide Clean;
    var (id, read) := w.jobs[job].found[0];
    if id in w.docs {
      assert w.docs[id := w.docs[id]] == w.docs;
      if StillAsRead(w, job) { assert Read(w.docs[id]) == Read(read) && w.docs[id] == Whole(Read(read)); }
    }
  }

  /** An execution passes over exactly the documents with nothing in any date field, which have nothing past to
      lose. */
  lemma PassedOverIsClean<V(!new)>(w: World<V>, job: nat, id: nat, today: string)
    requires job in w.jobs && id in w.docs
    ensures !Enabled(w, Find(job, id)) <==>
      && w.docs[id].nonWorkingDays in {None, Some([])}
      && (w.docs[id].scheduleOverrides.Some? ==> w.docs[id].scheduleOverrides.value == [])
      && (w.docs[id].dateSchedules.Some? ==> w.docs[id].dateSchedules.value == [])
    ensures Enabled(w, Find(job, id)) || NothingPast(w.docs[id], today)
  {
  }

  // ----- One execution that nobody disturbs -----

  ghost predicate Moves<V(!new)>(worlds: seq<World<V>>, steps: seq<Step<V>>) {
    && |worlds| == |steps| + 1
    && forall i :: 0 <= i < |steps| ==> Enabled(worlds[i], steps[i]) && worlds[i + 1] == Take(worlds[i], steps[i])
  }

  lemma Prepend<V(!new)>(w: World<V>, step: Step<V>, worlds: seq<World<V>>, steps: seq<Step<V>>)
    requires Enabled(w, step) && Moves(worlds, steps) && worlds[0] == Take(w, step)
    ensures Moves([w] + worlds, [step] + steps)
  {
    hide Take, Enabled;
    var all, more := [w] + worlds, [step] + steps;
    forall i | 0 <= i < |more| ensures Enabled(all[i], more[i]) && all[i + 1] == Take(all[i], more[i]) {
      if i > 0 { assert all[i] == worlds[i - 1] && more[i] == steps[i - 1] && all[i + 1] == worlds[i]; }
    }
  }

  predicate DistinctIds(ids: seq<nat>) { forall i, j :: 0 <= i < j < |ids| ==> ids[i] != ids[j] }

  /** The execution has read these documents, as they are stored. */
  ghost predicate HasFound<V(!new)>(w: World<V>, job: nat, ids: seq<nat>) {
    && job in w.jobs && |w.jobs[job].found| == |ids| && (forall k :: 0 <= k < |ids| ==> ids[k] in w.docs)
    && forall k :: 0 <= k < |ids| ==> w.jobs[job].found[k] == (ids[k], w.docs[ids[k]])
  }

  /** Reading one document after the other. */
  lemma {:induction false} FindsAll<V(!new)>(w: World<V>, job: nat, before: seq<nat>, ids: seq<nat>)
    returns (worlds: seq<World<V>>, steps: seq<Step<V>>)
    requires HasFound(w, job, before) && forall k :: 0 <= k < |ids| ==> ids[k] in w.docs && Selected(w.docs[ids[k]])
    ensures Moves(worlds, steps) && worlds[0] == w && worlds[|steps|].docs == w.docs
    ensures steps == seq(|ids|, k requires 0 <= k < |ids| => Find(job, ids[k]))
    ensures HasFound(worlds[|steps|], job, before + ids)
    ensures worlds[|steps|].jobs[job].today == w.jobs[job].today
    decreases |ids|
  {
    if ids == [] {
      worlds, steps := [w], [];
      assert before + ids == before;
    } else {
      var v := Take(w, Find(job, ids[0]));
      assert HasFound(v, job, before + [ids[0]]);
      worlds, steps := FindsAll(v, job, before + [ids[0]], ids[1..]);
      assert (before + [ids[0]]) + ids[1..] == before + ids;
      Prepend(w, Find(job, ids[0]), worlds, steps);
      worlds, steps := [w] + worlds, [Find(job, ids[0])] + steps;
    }
  }

  predicate IsWhole<V(==)>(doc: Stored<V>) {
    doc.dateSchedules.Some? && doc.scheduleOverrides.Some? && doc.nonWorkingDays.Some?
  }

  lemma HandleMoves<V(!new)>(w: World<V>, job: nat, id: nat)
    requires Enabled(w, Handle(job)) && id in w.docs && w.jobs[job].found[0] == (id, w.docs[id])
    ensures var v := Take(w, Handle(job));
      && v.docs.Keys == w.docs.Keys
      && (forall other :: other in w.docs && other != id ==> v.docs[other] == w.docs[other])
      && job in v.jobs && v.jobs[job] == Execution(w.jobs[job].today, w.jobs[job].found[1..])
  {
    hide Handled;
  }

  lemma WholeIsAsRead<V(!new)>(w: World<V>, job: nat, id: nat)
    requires Enabled(w, Handle(job)) && id in w.docs && w.jobs[job].found[0] == (id, w.docs[id]) && IsWhole(w.docs[id])
    ensures StillAsRead(w, job)
  {
  }

  /** Handling one document leaves the others, and those yet to be handled, as they were read. */
  lemma HandlesOne<V(!new)>(w: World<V>, job: nat, ids: seq<nat>) returns (v: World<V>)
    requires HasFound(w, job, ids) && ids != [] && DistinctIds(ids)
    ensures Enabled(w, Handle(job)) && v == Take(w, Handle(job)) && v.docs.Keys == w.docs.Keys
    ensures HasFound(v, job, ids[1..]) && v.jobs[job].today == w.jobs[job].today
    ensures forall id :: id in w.docs && id != ids[0] ==> v.docs[id] == w.docs[id]
    ensures IsWhole(w.docs[ids[0]]) ==> NothingPast(v.docs[ids[0]], w.jobs[job].today)
  {
    hide NothingPast, Clean, Handled, IsWhole, StillAsRead, Take;
    v := Take(w, Handle(job));
    assert w.jobs[job].found[0] == (ids[0], w.docs[ids[0]]);
    HandleMoves(w, job, ids[0]);
    if IsWhole(w.docs[ids[0]]) {
      WholeIsAsRead(w, job, ids[0]);
      HandleCleans(w, job);
    }
    forall k | 0 <= k < |ids| - 1 ensures v.jobs[job].found[k] == (ids[1..][k], v.docs[ids[1..][k]]) {
      assert w.jobs[job].found[k + 1] == (ids[k + 1], w.docs[ids[k + 1]]);
    }
  }

  lemma {:induction false} HandlesAll<V(!new)>(w: World<V>, job: nat, ids: seq<nat>)
    returns (worlds: seq<World<V>>, steps: seq<Step<V>>)
    requires HasFound(w, job, ids) && DistinctIds(ids)
    ensures Moves(worlds, steps) && worlds[0] == w && steps == seq(|ids|, k => Handle(job))
    ensures var v := worlds[|steps|];
      && v.docs.Keys == w.docs.Keys && (forall id :: id in w.docs && id !in ids ==> v.docs[id] == w.docs[id])
      && forall id :: id in ids && IsWhole(w.docs[id]) ==> NothingPast(v.docs[id], w.jobs[job].today)
    decreases |ids|
  {
    hide NothingPast, Take, Enabled, IsWhole;
    if ids == [] {
      worlds, steps := [w], [];
    } else {
      assert ids == [ids[0]] + ids[1..];
      assert ids[0] !in ids[1..];
      var v := HandlesOne(w, job, ids);
      worlds, steps := HandlesAll(v, job, ids[1..]);
      Prepend(w, Handle(job), worlds, steps);
      worlds, steps := [w] + worlds, [Handle(job)] + steps;
    }
  }

  /** An execution that nobody disturbs does its job: it starts, reads the documents the query selects, in any order,
      and handles each; afterwards no stored document with all its date fields has a past date left. */
  lemma UndisturbedJobCleansAll<V(!new)>(w: World<V>, job: nat, today: string, ids: seq<nat>)
    returns (worlds: seq<World<V>>, steps: seq<Step<V>>)
    requires job !in w.jobs && DistinctIds(ids)
    requires forall id :: id in ids <==> id in w.docs && Selected(w.docs[id])
    ensures Moves(worlds, steps) && worlds[0] == w
    ensures steps == [StartJob(job, today)] + seq(|ids|, k requires 0 <= k < |ids| => Find(job, ids[k]))
                     + seq(|ids|, k => Handle(job))
    ensures worlds[|steps|].docs.Keys == w.docs.Keys
    ensures forall id :: id in w.docs && IsWhole(w.docs[id]) ==> NothingPast(worlds[|steps|].docs[id], today)
  {
    var v := Take(w, StartJob(job, today));
    assert HasFound(v, job, []) && v.docs == w.docs && v.jobs[job].today == today && Enabled(w, StartJob(job, today));
    hide NothingPast, Take, Enabled, Selected, IsWhole, HasFound, Moves;
    assert forall k :: 0 <= k < |ids| ==> ids[k] in ids;
    var found, finds := FindsAll(v, job, [], ids);
    assert [] + ids == ids;
    forall id | id in w.docs && id !in ids ensures NothingPast(w.docs[id], today) {
      UnselectedIsClean(w.docs[id], today);
    }
    var handled, handles := HandlesAll(found[|finds|], job, ids);
    Joined(found, finds, handled, handles);
    Prepend(w, StartJob(job, today), found + handled[1..], finds + handles);
    worlds, steps := [w] + (found + handled[1..]), [StartJob(job, today)] + (finds + handles);
  }

  lemma UnselectedIsClean<V(!new)>(doc: Stored<V>, today: string)
    requires !Selected(doc)
    ensures NothingPast(doc, today)
  {
  }

  lemma Joined<V(!new)>(worlds: seq<World<V>>, steps: seq<Step<V>>, later: seq<World<V>>, more: seq<Step<V>>)
    requires Moves(worlds, steps) && Moves(later, more) && worlds[|steps|] == later[0]
    ensures Moves(worlds + later[1..], steps + more)
    ensures (worlds + later[1..])[|steps| + |more|] == later[|more|]
  {
    hide Take, Enabled;
    var all, both := worlds + later[1..], steps + more;
    forall i | 0 <= i < |both| ensures Enabled(all[i], both[i]) && all[i + 1] == Take(all[i], both[i]) {
      if i >= |steps| { assert all[i] == later[i - |steps|] && all[i + 1] == later[i + 1 - |steps|]; }
    }
  }

  // ----- Whole runs, against the same edits without the job -----

  /** What a step does to the documents in a program that never runs the cleanup. */
  function UserOnly<V>(docs: map<nat, Stored<V>>, step: Step<V>): map<nat, Stored<V>> {
    match step
    case Save(id, doc) => docs[id := doc]
    case EditDates(id, edit) => if id in docs then docs[id := Edited(docs[id], edit)] else docs
    case Delete(id) => docs - {id}
    case _ => docs
  }

  ghost predicate IsRun<V(!new)>(worlds: seq<World<V>>, users: seq<map<nat, Stored<V>>>, steps: seq<Step<V>>) {
    && |worlds| == |users| == |steps| + 1
    && worlds[0].jobs == map[] && users[0] == worlds[0].docs
    && forall i :: 0 <= i < |steps| ==>
         && Enabled(worlds[i], steps[i])
         && worlds[i + 1] == Take(worlds[i], steps[i])
         && users[i + 1] == UserOnly(users[i], steps[i])
  }

  /** The days the executions so far clean for. */
  ghost predicate CleaningDay<V(!new)>(w: World<V>, day: string) {
    exists job :: job in w.jobs && w.jobs[job].today == day
  }

  /** A map of dates is as the users left it, or that cleaned for one of the days. */
  ghost predicate MapOk<V(!new)>(w: World<V>, now: Option<DateMap<V>>, user: Option<DateMap<V>>) {
    now == user || (user.Some? && exists day :: CleaningDay(w, day) && now == Some(CleanMap(user.value, day)))
  }

  ghost predicate KeysOk<V(!new)>(w: World<V>, now: Option<seq<string>>, user: Option<seq<string>>) {
    now == user || (user.Some? && exists day :: CleaningDay(w, day) && now == Some(CleanKeys(user.value, day)))
  }

  ghost predicate DocOk<V(!new)>(w: World<V>, now: Stored<V>, user: Stored<V>) {
    && MapOk(w, now.dateSchedules, user.dateSchedules)
    && MapOk(w, now.scheduleOverrides, user.scheduleOverrides)
    && KeysOk(w, now.nonWorkingDays, user.nonWorkingDays)
  }

  ghost predicate Inv<V(!new)>(w: World<V>, users: map<nat, Stored<V>>) {
    w.docs.Keys == users.Keys && forall id :: id in users ==> DocOk(w, w.docs[id], users[id])
  }

  /** Cleaning once more for a day of the job keeps a field in shape. */
  lemma CleanedMapOk<V(!new)>(w: World<V>, now: DateMap<V>, user: Option<DateMap<V>>, today: string)
    requires MapOk(w, Some(now), user) && CleaningDay(w, today)
    ensures MapOk(w, Some(CleanMap(now, today)), user)
  {
    hide CleaningDay, CleanMap;
    if Some(now) != user {
      var day :| CleaningDay(w, day) && now == CleanMap(user.value, day);
      CleanMapTwice(user.value, day, today);
      assert CleaningDay(w, Later(day, today));
    }
  }

  lemma CleanedKeysOk<V(!new)>(w: World<V>, now: seq<string>, user: Option<seq<string>>, today: string)
    requires KeysOk(w, Some(now), user) && CleaningDay(w, today)
    ensures KeysOk(w, Some(CleanKeys(now, today)), user)
  {
    hide CleaningDay, CleanKeys;
    if Some(now) != user {
      var day :| CleaningDay(w, day) && now == CleanKeys(user.value, day);
      CleanKeysTwice(user.value, day, today);
      assert CleaningDay(w, Later(day, today));
    }
  }

  /** More days can only help. */
  lemma DocOkGrows<V(!new)>(w: World<V>, v: World<V>, now: Stored<V>, user: Stored<V>)
    requires DocOk(w, now, user) && forall day :: CleaningDay(w, day) ==> CleaningDay(v, day)
    ensures DocOk(v, now, user)
  {
    hide CleaningDay, CleanKeys, CleanMap;
  }

  lemma DaysGrow<V(!new)>(w: World<V>, step: Step<V>)
    requires Enabled(w, step)
    ensures forall day :: CleaningDay(w, day) ==> CleaningDay(Take(w, step), day)
  {
    hide Handled, Edited;
    forall day | CleaningDay(w, day) ensures CleaningDay(Take(w, step), day) {
      var job :| job in w.jobs && w.jobs[job].today == day;
      assert job in Take(w, step).jobs && Take(w, step).jobs[job].today == day;
    }
  }

  /** The same edit, applied to a document and to its users' version, keeps them related. */
  lemma EditOk<V(!new)>(w: World<V>, now: Stored<V>, user: Stored<V>, edit: Stored<V>)
    requires DocOk(w, now, user)
    ensures DocOk(w, Edited(now, edit), Edited(user, edit))
  {
  }

  lemma UserStepKeepsInv<V(!new)>(w: World<V>, users: map<nat, Stored<V>>, step: Step<V>)
    requires Inv(w, users) && Enabled(w, step) && !step.Handle?
    ensures Inv(Take(w, step), UserOnly(users, step))
  {
    hide DocOk, Edited, CleaningDay, Selected;
    var v, after := Take(w, step), UserOnly(users, step);
    DaysGrow(w, step);
    forall id | id in after ensures DocOk(v, v.docs[id], after[id]) {
      if id in users { DocOkGrows(w, v, w.docs[id], users[id]); }
      if step.Save? && id == step.id { SameDocOk(v, step.doc); }
      if step.EditDates? && id == step.id { EditOk(v, w.docs[id], users[id], step.edit); }
    }
  }

  lemma SameDocOk<V(!new)>(w: World<V>, doc: Stored<V>)
    ensures DocOk(w, doc, doc)
  {
  }

  lemma HandleKeepsInv<V(!new)>(w: World<V>, users: map<nat, Stored<V>>, job: nat)
    requires Inv(w, users) && Enabled(w, Handle(job))
    ensures Inv(Take(w, Handle(job)), users)
  {
    hide DocOk, Handled, CleaningDay, Clean;
    var v, today := Take(w, Handle(job)), w.jobs[job].today;
    var target := w.jobs[job].found[0].0;
    DaysGrow(w, Handle(job));
    HandleCleansTheCurrentDocument(w, job);
    forall id | id in users ensures DocOk(v, v.docs[id], users[id]) {
      DocOkGrows(w, v, w.docs[id], users[id]);
      if v.docs[id] != w.docs[id] {
        OnlyWholeDocumentsChange(w, job);
        HandledOk(v, w.docs[id], users[id], job);
      }
    }
  }

  /** A document that lacks a date field is never rewritten. */
  lemma OnlyWholeDocumentsChange<V>(w: World<V>, job: nat)
    requires Enabled(w, Handle(job))
    ensures var id := w.jobs[job].found[0].0;
      Take(w, Handle(job)).docs != w.docs ==> id in w.docs && w.docs[id] == Whole(Read(w.docs[id]))
  {
    var id := w.jobs[job].found[0].0;
    if id in w.docs {
      assert w.docs[id := w.docs[id]] == w.docs;
    }
  }

  lemma HandledOk<V(!new)>(w: World<V>, now: Stored<V>, user: Stored<V>, job: nat)
    requires DocOk(w, now, user) && now == Whole(Read(now)) && job in w.jobs
    ensures DocOk(w, Whole(Clean(Read(now), w.jobs[job].today)), user)
  {
    hide MapOk, KeysOk, CleanMap, CleanKeys;
    var today := w.jobs[job].today;
    assert CleaningDay(w, today);
    CleanedMapOk(w, now.dateSchedules.value, user.dateSchedules, today);
    CleanedMapOk(w, now.scheduleOverrides.value, user.scheduleOverrides, today);
    CleanedKeysOk(w, now.nonWorkingDays.value, user.nonWorkingDays, today);
  }

  lemma {:induction false} RunKeepsInv<V(!new)>(worlds: seq<World<V>>, users: seq<map<nat, Stored<V>>>,
      steps: seq<Step<V>>, i: nat)
    requires IsRun(worlds, users, steps) && i < |worlds|
    ensures Inv(worlds[i], users[i])
  {
    hide Take, Enabled, DocOk;
    if i == 0 {
      forall id | id in users[0] ensures DocOk(worlds[0], worlds[0].docs[id], users[0][id]) {
        SameDocOk(worlds[0], users[0][id]);
      }
    } else {
      RunKeepsInv(worlds, users, steps, i - 1);
      if steps[i - 1].Handle? {
        HandleKeepsInv(worlds[i - 1], users[i - 1], steps[i - 1].job);
      } else {
        UserStepKeepsInv(worlds[i - 1], users[i - 1], steps[i - 1]);
      }
    }
  }

  /** In every interleaving of edits with any number of cleanups, whatever their days: the same schedules
      exist as without the cleanup, each date field of each is the users' own or that cleaned for one of
      the days, and so nothing dated on or after all those days is lost, altered or brought back. */
  lemma NoEditIsLost<V(!new)>(worlds: seq<World<V>>, users: seq<map<nat, Stored<V>>>, steps: seq<Step<V>>, i: nat,
      id: nat, key: string)
    requires IsRun(worlds, users, steps) && i < |worlds| && id in users[i]
    ensures id in worlds[i].docs && DocOk(worlds[i], worlds[i].docs[id], users[i][id])
    ensures (forall day :: CleaningDay(worlds[i], day) ==> Kept(key, day)) ==>
      var now, user := Read(worlds[i].docs[id]), Read(users[i][id]);
      && Lookup(now.dateSchedules, key) == Lookup(user.dateSchedules, key)
      && Lookup(now.scheduleOverrides, key) == Lookup(user.scheduleOverrides, key)
      && (key in now.nonWorkingDays <==> key in user.nonWorkingDays)
  {
    RunKeepsInv(worlds, users, steps, i);
    hide IsRun, Kept, CleanMap, CleanKeys, Lookup, CleaningDay;
    var now, user := worlds[i].docs[id], users[i][id];
    if forall day :: CleaningDay(worlds[i], day) ==> Kept(key, day) {
      MapKeepsEntry(worlds[i], now.dateSchedules, user.dateSchedules, key);
      MapKeepsEntry(worlds[i], now.scheduleOverrides, user.scheduleOverrides, key);
      if now.nonWorkingDays != user.nonWorkingDays {
        var day :| CleaningDay(worlds[i], day) && now.nonWorkingDays == Some(CleanKeys(user.nonWorkingDays.value, day));
        CleanKeysKeep(user.nonWorkingDays.value, day);
      }
    }
  }

  lemma MapKeepsEntry<V(!new)>(w: World<V>, now: Option<DateMap<V>>, user: Option<DateMap<V>>, key: string)
    requires MapOk(w, now, user) && forall day :: CleaningDay(w, day) ==> Kept(key, day)
    ensures Lookup(OrNone(now), key) == Lookup(OrNone(user), key)
  {
    hide Kept, CleanMap, Lookup, CleaningDay;
    if now != user {
      var day :| CleaningDay(w, day) && now == Some(CleanMap(user.value, day));
      CleanMapLooksUp(user.value, day, key);
    }
  }
}
