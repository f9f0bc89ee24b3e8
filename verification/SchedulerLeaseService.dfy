/** backend/src/services/schedulerLeaseService.js: the lease documents, the conditional
    writes the service sends to them, and how it reads the replies. */
module SchedulerLeaseService {
  import opened Wrappers

  const MAX_TOKEN_LENGTH := 200
  const MAX_SAFE_INTEGER := 9_007_199_254_740_991
  const MAX_TIME_VALUE := 8_640_000_000_000_000

  // ----- Documents as stored, and as the service accepts them -----

  /** A stored document; its key is the (unique) jobKey it is filed under. */
  datatype StoredLease =
    StoredLease(ownerToken: string, leaseExpiresAt: int, fencingToken: int, writeSequence: Option<int>)

  type Leases = map<string, StoredLease>

  datatype Lease =
    Lease(jobKey: string, ownerToken: string, leaseExpiresAt: int, fencingToken: int, writeSequence: int)

  predicate IsTrimmable(c: char) {
    c in {'\t', '\n', '\U{0B}', '\U{0C}', '\r', ' ', '\U{A0}', '\U{1680}', '\U{2028}', '\U{2029}',
          '\U{202F}', '\U{205F}', '\U{3000}', '\U{FEFF}'}
    || '\U{2000}' <= c <= '\U{200A}'
  }

  predicate ValidToken(value: string) {
    0 < |value| <= MAX_TOKEN_LENGTH && !IsTrimmable(value[0]) && !IsTrimmable(value[|value| - 1])
  }

  predicate PositiveSafe(n: int) { 0 < n <= MAX_SAFE_INTEGER }

  predicate ValidDate(t: int) { -MAX_TIME_VALUE <= t <= MAX_TIME_VALUE }

  /** writeSequence is missing on documents written before it existed. */
  function SequenceOf(doc: StoredLease): int {
    match doc.writeSequence case None => 0 case Some(n) => n
  }

  function NormalizeLease(jobKey: string, document: Option<StoredLease>): Option<Lease> {
    match document
    case None => None
    case Some(doc) =>
      if ValidToken(jobKey) && ValidToken(doc.ownerToken) && ValidDate(doc.leaseExpiresAt)
         && PositiveSafe(doc.fencingToken) && 0 <= SequenceOf(doc) <= MAX_SAFE_INTEGER
      then Some(Lease(jobKey, doc.ownerToken, doc.leaseExpiresAt, doc.fencingToken, SequenceOf(doc)))
      else None
  }

  /** Blanks as ECMA-262 trims them, by code. */
  predicate IsBlank(c: char) {
    c as int in {9, 10, 11, 12, 13, 32, 160, 5760, 8232, 8233, 8239, 8287, 12288, 65279} || 8192 <= c as int <= 8202
  }

  /** What the service accepts, in numbers. */
  lemma AcceptedInNumbers(value: string, n: int, t: int)
    ensures ValidToken(value) <==>
      1 <= |value| <= 200 && !IsBlank(value[0]) && !IsBlank(value[|value| - 1])
    ensures PositiveSafe(n) <==> 1 <= n <= 0x1F_FFFF_FFFF_FFFF
    ensures ValidDate(t) <==> -8_640_000_000_000_000 <= t <= 8_640_000_000_000_000
  {
  }

  /** A stored document is readable exactly when its owner, expiry and token are acceptable and its sequence, 0
      where it is missing, is a safe integer; it reads as it is. */
  lemma ReadableExactly(key: string, doc: StoredLease)
    ensures var sequence, lease := doc.writeSequence.GetOr(0), NormalizeLease(key, Some(doc));
      && (lease.Some? <==>
            && ValidToken(key) && ValidToken(doc.ownerToken) && ValidDate(doc.leaseExpiresAt)
            && PositiveSafe(doc.fencingToken) && 0 <= sequence <= 0x1F_FFFF_FFFF_FFFF)
      && (lease.Some? ==>
            lease.value == Lease(key, doc.ownerToken, doc.leaseExpiresAt, doc.fencingToken, sequence))
  {
  }

  predicate IsExactLease(lease: Option<Lease>, jobKey: string, ownerToken: string, fencingToken: int) {
    lease.Some? && lease.value.jobKey == jobKey && lease.value.ownerToken == ownerToken
    && lease.value.fencingToken == fencingToken
  }

  // ----- Atomic writes on one document -----

  datatype ExpiryFilter = AnyExpiry | After(t: int) | AtOrBefore(t: int)

  datatype Command =
    | Insert(doc: StoredLease)
    | UpdateOne(ownerToken: string, fencingToken: int, expiry: ExpiryFilter, update: Update)

  datatype Update =
    | TakeOver(newOwner: string, expiresAt: int)
    | SetExpiry(expiresAt: int)
    | BumpSequence

  predicate Matches(doc: StoredLease, command: Command)
    requires command.UpdateOne?
  {
    && doc.ownerToken == command.ownerToken
    && doc.fencingToken == command.fencingToken
    && match command.expiry
       case AnyExpiry => true
       case After(t) => doc.leaseExpiresAt > t
       case AtOrBefore(t) => doc.leaseExpiresAt <= t
  }

  function Updated(doc: StoredLease, update: Update): StoredLease {
    match update
    case TakeOver(newOwner, expiresAt) =>
      doc.(ownerToken := newOwner, leaseExpiresAt := expiresAt, fencingToken := doc.fencingToken + 1)
    case SetExpiry(expiresAt) => doc.(leaseExpiresAt := expiresAt)
    case BumpSequence => doc.(writeSequence := Some(SequenceOf(doc) + 1))
  }

  /** Whether the command takes effect on these documents. */
  predicate Applies(docs: Leases, key: string, command: Command) {
    match command
    case Insert(_) => key !in docs
    case UpdateOne(_, _, _, _) => key in docs && Matches(docs[key], command)
  }

  /** The document the command leaves, for a command that applies; it is also the reply. */
  function Written(docs: Leases, key: string, command: Command): StoredLease
    requires Applies(docs, key, command)
  {
    match command
    case Insert(doc) => doc
    case UpdateOne(_, _, _, update) => Updated(docs[key], update)
  }

  function Execute(docs: Leases, key: string, command: Command): Leases {
    if Applies(docs, key, command) then docs[key := Written(docs, key, command)] else docs
  }

  function Reply(docs: Leases, key: string, command: Command): Option<StoredLease> {
    if Applies(docs, key, command) then Some(Written(docs, key, command)) else None
  }

  // ----- The commands each operation sends -----

  function CreateCommand(ownerToken: string, expiresAt: int): Command {
    Insert(StoredLease(ownerToken, expiresAt, 1, Some(0)))
  }

  function TakeoverCommand(seen: Lease, ownerToken: string, now: int, expiresAt: int): Command {
    UpdateOne(seen.ownerToken, seen.fencingToken, AtOrBefore(now), TakeOver(ownerToken, expiresAt))
  }

  function RenewCommand(ownerToken: string, fencingToken: int, now: int, expiresAt: int): Command {
    UpdateOne(ownerToken, fencingToken, After(now), SetExpiry(expiresAt))
  }

  function ReleaseCommand(ownerToken: string, fencingToken: int, now: int): Command {
    UpdateOne(ownerToken, fencingToken, AnyExpiry, SetExpiry(now))
  }

  function FenceCommand(ownerToken: string, fencingToken: int, now: int): Command {
    UpdateOne(ownerToken, fencingToken, After(now), BumpSequence)
  }

  // ----- acquire, cut at its two round trips -----

  datatype AcquireReply = Acquired(lease: Lease) | NotAcquired(reason: string)

  /** What acquire does once it has read the document: give up, or send a write that should
      leave it holding `token`. */
  datatype AcquirePlan = GiveUp(reason: string) | Send(command: Command, token: int)

  function PlanAcquire(key: string, owner: string, now: int, expiresAt: int, seen: Option<StoredLease>): AcquirePlan {
    if seen.None? then Send(CreateCommand(owner, expiresAt), 1)
    else match NormalizeLease(key, seen)
      case None => GiveUp("invalid_storage_result")
      case Some(lease) =>
        if lease.leaseExpiresAt > now then GiveUp("active")
        else Send(TakeoverCommand(lease, owner, now, expiresAt), lease.fencingToken + 1)
  }

  function FinishAcquire(key: string, owner: string, token: int, command: Command, reply: Option<StoredLease>)
    : AcquireReply
  {
    var lease := NormalizeLease(key, reply);
    if IsExactLease(lease, key, owner, token) then Acquired(lease.value)
    else if command.Insert? && reply.Some? then NotAcquired("invalid_storage_result")
    else NotAcquired("contended")
  }

  /** What renew and release tell their caller. */
  datatype UpdateReply = Done(lease: Lease) | Refused(reason: string)

  /** renew and release read their reply the same way. */
  function FinishUpdate(key: string, owner: string, token: int, reply: Option<StoredLease>): Option<Lease> {
    var lease := NormalizeLease(key, reply);
    if IsExactLease(lease, key, owner, token) then lease else None
  }

  /** The check withFencedWrite makes on the document its own transaction updated. */
  predicate FenceHolds(key: string, owner: string, token: int, now: int, reply: Option<StoredLease>) {
    var lease := NormalizeLease(key, reply);
    IsExactLease(lease, key, owner, token) && lease.value.writeSequence > 0 && lease.value.leaseExpiresAt > now
  }

  /** A round trip may fail without effect, or take effect and lose its reply. */
  datatype Fault = Delivered | FailsBefore | ReplyLost

  /** An acquired lease is the stored document, held by the caller for ttl from its clock, under a
      token no earlier document of the key carried. Nothing else in the collection moved. */
  ghost predicate AcquiredFrom(before: Leases, after: Leases, key: string, owner: string, expiresAt: int, now: int,
      lease: Lease) {
    && key in after
    && lease == Lease(key, owner, expiresAt, after[key].fencingToken, SequenceOf(after[key]))
    && after[key].ownerToken == owner && after[key].leaseExpiresAt == expiresAt
    && after == before[key := after[key]]
    && (if key in before
        then before[key].leaseExpiresAt <= now && lease.fencingToken == before[key].fencingToken + 1
             && lease.writeSequence == SequenceOf(before[key])
        else lease.fencingToken == 1 && lease.writeSequence == 0)
  }

  /** A readable lease of the key that has not expired. */
  predicate HeldPast(docs: Leases, key: string, now: int) {
    key in docs && NormalizeLease(key, Some(docs[key])).Some? && docs[key].leaseExpiresAt > now
  }

  /** No lease of the key, or a readable one that has expired and whose token can still grow. */
  predicate Free(docs: Leases, key: string, now: int) {
    key in docs ==>
      && NormalizeLease(key, Some(docs[key])).Some? && docs[key].leaseExpiresAt <= now
      && docs[key].fencingToken < MAX_SAFE_INTEGER
  }

  /** Free when read, and the same document still when written. */
  predicate FreeThroughout(read: Leases, written: Leases, key: string, now: int) {
    Free(read, key, now) && (key in read <==> key in written) && (key in read ==> read[key] == written[key])
  }

  /** The arguments renew and release share. */
  predicate ValidUpdate(key: string, owner: string, token: int, now: int) {
    ValidToken(key) && ValidToken(owner) && PositiveSafe(token) && ValidDate(now)
  }

  predicate Owns(docs: Leases, key: string, owner: string, token: int) {
    key in docs && docs[key].ownerToken == owner && docs[key].fencingToken == token
  }

  /** The answer to an update of a lease that was, or was not, the caller's: the stored document when it
      is readable, a refusal for want of ownership, or the news that the round trip failed. */
  function UpdateAnswer(fault: Fault, owned: bool, after: Leases, key: string): UpdateReply {
    if fault != Delivered then Refused("storage_error")
    else if owned && key in after && NormalizeLease(key, Some(after[key])).Some?
    then Done(NormalizeLease(key, Some(after[key])).value)
    else Refused("not_owner")
  }

  class LeaseCollection {
    var docs: Leases

    constructor ()
      ensures docs == map[]
    {
      docs := map[];
    }

    method FindOne(key: string) returns (r: Option<StoredLease>)
      ensures r == if key in docs then Some(docs[key]) else None
    {
      r := if key in docs then Some(docs[key]) else None;
    }

    method Run(key: string, command: Command) returns (reply: Option<StoredLease>)
      modifies this
      ensures docs == Execute(old(docs), key, command)
      ensures reply == Reply(old(docs), key, command)
    {
      reply := None;
      if Applies(docs, key, command) {
        reply := Some(Written(docs, key, command));
        docs := docs[key := reply.value];
      }
    }

    /** `meanwhile` is whatever other clients do to the collection between the read and the write. */
    method Acquire(key: string, owner: string, ttl: int, now: int, meanwhile: Leases -> Leases,
                   readFault: Fault, writeFault: Fault) returns (r: Result<AcquireReply, string>)
      modifies this
      ensures r.Err? <==>
        !(ValidToken(key) && ValidToken(owner) && PositiveSafe(ttl) && ValidDate(now) && ValidDate(now + ttl))
      ensures r.Err? ==> docs == old(docs)
      ensures r.Ok? && r.value.Acquired? ==>
        AcquiredFrom(meanwhile(old(docs)), docs, key, owner, now + ttl, now, r.value.lease)
      ensures r.Ok? && readFault == Delivered ==>
        (r.value == NotAcquired("active") <==> HeldPast(old(docs), key, now))
      ensures r.Ok? && r.value.NotAcquired? ==>
        r.value.reason ==
          if readFault != Delivered then "storage_error"
          else if key in old(docs) && NormalizeLease(key, Some(old(docs)[key])).None? then "invalid_storage_result"
          else if HeldPast(old(docs), key, now) then "active"
          else if writeFault != Delivered then "storage_error"
          else "contended"
      ensures r.Ok? && readFault == Delivered && writeFault == Delivered ==>
        (FreeThroughout(old(docs), meanwhile(old(docs)), key, now) ==> r.value.Acquired?)
      ensures r.Ok? ==>
        var plan := PlanAcquire(key, owner, now, now + ttl, if key in old(docs) then Some(old(docs)[key]) else None);
        docs == if readFault != Delivered || plan.GiveUp? then old(docs)
                else if writeFault == FailsBefore then meanwhile(old(docs))
                else Execute(meanwhile(old(docs)), key, plan.command)
    {
      if !(ValidToken(key) && ValidToken(owner) && PositiveSafe(ttl) && ValidDate(now) && ValidDate(now + ttl)) {
        return Err("TypeError");
      }
      var expiresAt := now + ttl;
      if readFault != Delivered {
        return Ok(NotAcquired("storage_error"));
      }
      var seen := FindOne(key);
      var plan := PlanAcquire(key, owner, now, expiresAt, seen);
      if plan.GiveUp? {
        return Ok(NotAcquired(plan.reason));
      }
      docs := meanwhile(docs);
      if writeFault == FailsBefore {
        return Ok(NotAcquired("storage_error"));
      }
      var reply := Run(key, plan.command);
      if writeFault == ReplyLost {
        return Ok(NotAcquired("storage_error"));
      }
      return Ok(FinishAcquire(key, owner, plan.token, plan.command, reply));
    }

    /** renew reports success exactly when the caller still owned an unexpired lease. */
    method Renew(key: string, owner: string, token: int, ttl: int, now: int, fault: Fault)
      returns (r: Result<UpdateReply, string>)
      modifies this
      ensures r.Err? <==>
        !(ValidUpdate(key, owner, token, now) && PositiveSafe(ttl) && ValidDate(now + ttl))
      ensures var owned := Owns(old(docs), key, owner, token) && old(docs)[key].leaseExpiresAt > now;
        && (r.Err? || fault == FailsBefore || !owned ==> docs == old(docs))
        && (r.Ok? && fault != FailsBefore && owned ==>
              docs == old(docs)[key := old(docs)[key].(leaseExpiresAt := now + ttl)])
        && (r.Ok? ==> r.value == UpdateAnswer(fault, owned, docs, key))
    {
      if !(ValidUpdate(key, owner, token, now) && PositiveSafe(ttl) && ValidDate(now + ttl)) {
        return Err("TypeError");
      }
      if fault == FailsBefore {
        return Ok(Refused("storage_error"));
      }
      var reply := Run(key, RenewCommand(owner, token, now, now + ttl));
      if fault == ReplyLost {
        return Ok(Refused("storage_error"));
      }
      var lease := FinishUpdate(key, owner, token, reply);
      return Ok(if lease.Some? then Done(lease.value) else Refused("not_owner"));
    }

    /** release needs exact ownership but not an unexpired lease, and never frees another owner's. */
    method Release(key: string, owner: string, token: int, now: int, fault: Fault)
      returns (r: Result<UpdateReply, string>)
      modifies this
      ensures r.Err? <==> !ValidUpdate(key, owner, token, now)
      ensures var owned := Owns(old(docs), key, owner, token);
        && (r.Err? || fault == FailsBefore || !owned ==> docs == old(docs))
        && (r.Ok? && fault != FailsBefore && owned ==>
              docs == old(docs)[key := old(docs)[key].(leaseExpiresAt := now)])
        && (r.Ok? ==> r.value == UpdateAnswer(fault, owned, docs, key))
    {
      if !ValidUpdate(key, owner, token, now) {
        return Err("TypeError");
      }
      if fault == FailsBefore {
        return Ok(Refused("storage_error"));
      }
      var reply := Run(key, ReleaseCommand(owner, token, now));
      if fault == ReplyLost {
        return Ok(Refused("storage_error"));
      }
      var lease := FinishUpdate(key, owner, token, reply);
      return Ok(if lease.Some? then Done(lease.value) else Refused("not_owner"));
    }
  }

  // ----- withFencedWrite: a retried transaction, then its after-commit callbacks -----

  type Callback = nat

  /** What the job's write returns. */
  type WriteResult = nat

  /** How an attempt ended. The fence update may fail by itself, before the job's write; a commit whose
      outcome is unknown is sent again by the driver until it is known, and counts as what it comes to. */
  datatype Ending =
    | FenceThrows(transient: bool)
    | WriteThrows(transient: bool)
    | CommitConflicts
    | CommitFails
    | Commits

  /** One run of the transaction function: the documents its snapshot shows, its clock reading, what
      the job passed to afterCommit (None for anything but a function), what its write returned, and how
      the attempt ended. */
  datatype Attempt =
    Attempt(docs: Leases, now: int, registered: seq<Option<Callback>>, result: WriteResult, ending: Ending)

  datatype FencedError =
    | BadArgument
    | LeaseLost(reason: string)
    | StorageFailed
    | JobFailed
    | CommitFailed
    | TimedOut
    | CallbackThrew(callback: Callback)

  function Functions(registered: seq<Option<Callback>>): seq<Callback> {
    if registered == [] then []
    else (if registered[0].Some? then [registered[0].value] else []) + Functions(registered[1..])
  }

  /** The driver runs the function again after a conflict or a transient error, and only then. */
  predicate Retried(a: Attempt, key: string, owner: string, token: int) {
    || a.ending == FenceThrows(true)
    || (FenceHolds(key, owner, token, a.now, Reply(a.docs, key, FenceCommand(owner, token, a.now)))
        && (a.ending == WriteThrows(true) || a.ending == CommitConflicts))
  }

  predicate Committed(a: Attempt, key: string, owner: string, token: int) {
    FenceHolds(key, owner, token, a.now, Reply(a.docs, key, FenceCommand(owner, token, a.now))) && a.ending == Commits
  }

  /** Attempt c is the one whose effects become durable. */
  ghost predicate CommitsAt(attempts: seq<Attempt>, c: int, key: string, owner: string, token: int) {
    0 <= c < |attempts| && Committed(attempts[c], key, owner, token)
    && forall i :: 0 <= i < c ==> Retried(attempts[i], key, owner, token)
  }

  /** Why the transaction gives up: the arguments are refused before any attempt; or attempt c is the first that
      is not retried, and fails in its own way; or every attempt was retried until time ran out. */
  ghost predicate GivesUp(attempts: seq<Attempt>, c: int, key: string, owner: string, token: int, error: FencedError) {
    if !(ValidToken(key) && ValidToken(owner) && PositiveSafe(token)) then error == BadArgument
    else
      && 0 <= c <= |attempts| && (forall i :: 0 <= i < c ==> Retried(attempts[i], key, owner, token))
      && if c == |attempts| then error == TimedOut
         else
           var a := attempts[c];
           match error
           case StorageFailed => a.ending == FenceThrows(false)
           case LeaseLost(reason) =>
             && reason == "not_owner" && !a.ending.FenceThrows?
             && !FenceHolds(key, owner, token, a.now, Reply(a.docs, key, FenceCommand(owner, token, a.now)))
           case JobFailed => a.ending == WriteThrows(false)
           case CommitFailed => a.ending == CommitFails
           case _ => false
  }

  lemma {:induction false} FunctionsAppend(registered: seq<Option<Callback>>, next: Option<Callback>)
    ensures Functions(registered + [next]) == Functions(registered) + (if next.Some? then [next.value] else [])
  {
    var all := registered + [next];
    if registered == [] {
      assert all == [next] && all[1..] == [];
    } else {
      FunctionsAppend(registered[1..], next);
      assert all[0] == registered[0] && all[1..] == registered[1..] + [next];
      var first := if registered[0].Some? then [registered[0].value] else [];
      var last := if next.Some? then [next.value] else [];
      assert first + (Functions(registered[1..]) + last) == (first + Functions(registered[1..])) + last;
    }
  }

  /** The callbacks are the registered functions and no others; registering one more adds it at the end. */
  lemma {:induction false} FunctionsAreRegistered(registered: seq<Option<Callback>>)
    ensures Functions([]) == [] && |Functions(registered)| <= |registered|
    ensures forall f :: f in Functions(registered) <==> Some(f) in registered
    ensures registered != [] ==>
      var front, last := registered[..|registered| - 1], registered[|registered| - 1];
      Functions(registered) == if last.Some? then Functions(front) + [last.value] else Functions(front)
  {
    if registered != [] {
      var n := |registered| - 1;
      FunctionsAppend(registered[..n], registered[n]);
      FunctionsAreRegistered(registered[..n]);
      assert registered == registered[..n] + [registered[n]];
    }
  }

  /** What a committed attempt makes durable: the sequence number advanced by one, on a document its
      caller owned, under its token, unexpired by its own clock. */
  ghost predicate DurableLease(a: Attempt, key: string, owner: string, token: int, lease: Lease) {
    && key in a.docs && a.docs[key].ownerToken == owner && a.docs[key].fencingToken == token
    && a.now < a.docs[key].leaseExpiresAt
    && lease == Lease(key, owner, a.docs[key].leaseExpiresAt, token, SequenceOf(a.docs[key]) + 1)
  }

  lemma CommittedIsDurable(a: Attempt, key: string, owner: string, token: int)
    requires Committed(a, key, owner, token)
    ensures ValidToken(key) && ValidToken(owner) && PositiveSafe(token)
    ensures var lease := NormalizeLease(key, Reply(a.docs, key, FenceCommand(owner, token, a.now)));
      lease.Some? && DurableLease(a, key, owner, token, lease.value)
  {
  }

  /** The fence lets an attempt through exactly when its caller owns the stored lease under its token, the lease
      has not expired by the attempt's clock, and the next sequence number can be read. */
  lemma FencePassesExactly(a: Attempt, key: string, owner: string, token: int)
    ensures FenceHolds(key, owner, token, a.now, Reply(a.docs, key, FenceCommand(owner, token, a.now))) <==>
      && key in a.docs && a.docs[key].ownerToken == owner && a.docs[key].fencingToken == token
      && a.now < a.docs[key].leaseExpiresAt
      && ValidToken(key) && ValidToken(owner) && PositiveSafe(token) && ValidDate(a.docs[key].leaseExpiresAt)
      && 1 <= a.docs[key].writeSequence.GetOr(0) + 1 <= 0x1F_FFFF_FFFF_FFFF
  {
  }

  /** What the transaction hands on from the attempt that committed. */
  datatype Durable = Durable(lease: Lease, result: WriteResult, afterCommitCallbacks: seq<Callback>)

  /** The transaction: run the function until an attempt commits, or fail. The result and the callbacks
      handed on are those of the committed attempt alone. */
  method RunTransaction(key: string, owner: string, token: int, attempts: seq<Attempt>)
    returns (r: Result<Durable, FencedError>, c: nat)
    ensures r.Ok? ==>
      && CommitsAt(attempts, c, key, owner, token)
      && DurableLease(attempts[c], key, owner, token, r.value.lease)
      && r.value.result == attempts[c].result
      && r.value.afterCommitCallbacks == Functions(attempts[c].registered)
    ensures r.Err? ==>
      && GivesUp(attempts, c, key, owner, token, r.error)
      && !r.error.CallbackThrew? && forall c' :: !CommitsAt(attempts, c', key, owner, token)
  {
    c := 0;
    if !(ValidToken(key) && ValidToken(owner) && PositiveSafe(token)) {
      forall c' | CommitsAt(attempts, c', key, owner, token) ensures false {
        CommittedIsDurable(attempts[c'], key, owner, token);
      }
      return Err(BadArgument), c;
    }
    while c < |attempts|
      invariant 0 <= c <= |attempts|
      invariant forall j :: 0 <= j < c ==> Retried(attempts[j], key, owner, token)
    {
      var a := attempts[c];
      if a.ending == FenceThrows(false) {
        return Err(StorageFailed), c;
      }
      if a.ending != FenceThrows(true) {
        var reply := Reply(a.docs, key, FenceCommand(owner, token, a.now));
        if !FenceHolds(key, owner, token, a.now, reply) {
          return Err(LeaseLost("not_owner")), c;
        }
        var afterCommitCallbacks := CollectCallbacks(a.registered);
        match a.ending {
          case WriteThrows(transient) => if !transient { return Err(JobFailed), c; }
          case CommitConflicts =>
          case CommitFails => return Err(CommitFailed), c;
          case Commits =>
            CommittedIsDurable(a, key, owner, token);
            return Ok(Durable(NormalizeLease(key, reply).value, a.result, afterCommitCallbacks)), c;
          case FenceThrows(_) =>
        }
      }
      c := c + 1;
    }
    return Err(TimedOut), c;
  }

  method CollectCallbacks(registered: seq<Option<Callback>>) returns (afterCommitCallbacks: seq<Callback>)
    ensures afterCommitCallbacks == Functions(registered)
  {
    afterCommitCallbacks := [];
    for k := 0 to |registered|
      invariant afterCommitCallbacks == Functions(registered[..k])
    {
      FunctionsAppend(registered[..k], registered[k]);
      assert registered[..k + 1] == registered[..k] + [registered[k]];
      if registered[k].Some? {
        afterCommitCallbacks := afterCommitCallbacks + [registered[k].value];
      }
    }
    assert registered[..|registered|] == registered;
  }

  /** Callbacks are awaited one after the other, up to the first that throws. */
  ghost predicate RanInOrder(ran: seq<Callback>, callbacks: seq<Callback>, throws: Callback -> bool, threw: bool) {
    && ran <= callbacks
    && (forall i :: 0 <= i < |ran| - 1 ==> !throws(ran[i]))
    && (threw <==> exists f :: f in callbacks && throws(f))
    && (threw ==> |ran| > 0 && throws(ran[|ran| - 1]))
    && (!threw ==> ran == callbacks)
  }

  /** The caller gets what the committed attempt's write returned, unless a callback throws. `committed`
      is the lease of that attempt, whatever the call returns after it; `ran` are the callbacks that were
      called: only those it registered. */
  method WithFencedWrite(key: string, owner: string, token: int, attempts: seq<Attempt>, throws: Callback -> bool)
    returns (r: Result<WriteResult, FencedError>, committed: Option<Lease>, ran: seq<Callback>)
    ensures committed.Some? ==> exists c ::
      && CommitsAt(attempts, c, key, owner, token)
      && DurableLease(attempts[c], key, owner, token, committed.value)
      && RanInOrder(ran, Functions(attempts[c].registered), throws, r.Err?)
      && r == if r.Err? then Err(CallbackThrew(ran[|ran| - 1])) else Ok(attempts[c].result)
    ensures committed.None? ==>
      && ran == [] && r.Err? && !r.error.CallbackThrew?
      && (exists c :: GivesUp(attempts, c, key, owner, token, r.error))
      && forall c :: !CommitsAt(attempts, c, key, owner, token)
  {
    hide CommitsAt, DurableLease, Functions;
    committed, ran := None, [];
    hide GivesUp;
    var outcome, c := RunTransaction(key, owner, token, attempts);
    if outcome.Err? {
      assert GivesUp(attempts, c, key, owner, token, outcome.error);
      return Err(outcome.error), None, [];
    }
    committed := Some(outcome.value.lease);
    var callbacks := outcome.value.afterCommitCallbacks;
    for n := 0 to |callbacks|
      invariant ran == callbacks[..n]
      invariant forall f :: f in ran ==> !throws(f)
    {
      ran := ran + [callbacks[n]];
      if throws(callbacks[n]) {
        assert callbacks[n] in callbacks;
        assert RanInOrder(ran, callbacks, throws, true);
        return Err(CallbackThrew(callbacks[n])), committed, ran;
      }
    }
    assert RanInOrder(ran, callbacks, throws, false);
    return Ok(outcome.value.result), committed, ran;
  }
}
