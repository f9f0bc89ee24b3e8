/** Every interleaving of any number of lease-service calls on one collection, with clocks that
    need not agree, calls that never finish, and replies that get lost. */
module LeaseProtocol {
  import opened Wrappers
  import opened SchedulerLeaseService

  /** A call in progress, cut at its round trips to the database. A caller that gave up on a call
      whose command is still under way is a Sent call that is delivered late and never returns. */
  datatype Call =
    | AboutToRead(owner: string, now: int, expiresAt: int)
    | Sent(purpose: Purpose, owner: string, token: int, command: Command)
    | Answered(purpose: Purpose, owner: string, token: int, command: Command, reply: Option<StoredLease>)
    | AcquireReturned(outcome: AcquireReply)
    | Returned

  datatype Purpose = ForAcquire | ForRenew | ForRelease

  /** A fenced write: outside a transaction, or inside one that saw and updated the document. */
  datatype Fenced =
    | Begun(owner: string, token: int)
    | InTransaction(owner: string, token: int, before: StoredLease, after: StoredLease)
    | Ended

  datatype FencedWrite = FencedWrite(key: string, token: int, writeSequence: int)

  datatype System = System(
    docs: Leases,
    calls: map<nat, (string, Call)>,
    fenced: map<nat, (string, Fenced)>,
    log: seq<FencedWrite>)

  datatype Step =
    | StartAcquire(id: nat, key: string, owner: string, now: int, expiresAt: int)
    | Read(id: nat)
    | StartRenew(id: nat, key: string, owner: string, token: int, now: int, expiresAt: int)
    | StartRelease(id: nat, key: string, owner: string, token: int, now: int)
    | Deliver(id: nat)
    | Return(id: nat)
    | Lose(id: nat)
    | BeginFenced(id: nat, key: string, owner: string, token: int)
    | Fence(id: nat, now: int)
    | Commit(id: nat)
    | Retry(id: nat)
    | Abandon(id: nat)

  predicate Enabled(s: System, step: Step) {
    match step
    case StartAcquire(id, _, _, _, _) => id !in s.calls
    case Read(id) => id in s.calls && s.calls[id].1.AboutToRead?
    case StartRenew(id, _, _, _, _, _) => id !in s.calls
    case StartRelease(id, _, _, _, _) => id !in s.calls
    case Deliver(id) => id in s.calls && s.calls[id].1.Sent?
    case Return(id) => id in s.calls && s.calls[id].1.Answered?
    case Lose(id) => id in s.calls && !s.calls[id].1.AcquireReturned?
    case BeginFenced(id, _, _, _) => id !in s.fenced
    case Fence(id, _) => id in s.fenced && s.fenced[id].1.Begun?
    // First committer wins: a transaction commits only over the document it saw.
    case Commit(id) => id in s.fenced && s.fenced[id].1.InTransaction?
                       && s.fenced[id].0 in s.docs && s.docs[s.fenced[id].0] == s.fenced[id].1.before
    case Retry(id) => id in s.fenced && s.fenced[id].1.InTransaction?
    case Abandon(id) => id in s.fenced
  }

  function Take(s: System, step: Step): System
    requires Enabled(s, step)
  {
    match step
    case StartAcquire(id, key, owner, now, expiresAt) =>
      s.(calls := s.calls[id := (key, AboutToRead(owner, now, expiresAt))])
    case Read(id) =>
      var (key, call) := s.calls[id];
      var seen := if key in s.docs then Some(s.docs[key]) else None;
      var next := match PlanAcquire(key, call.owner, call.now, call.expiresAt, seen)
        case GiveUp(reason) => AcquireReturned(NotAcquired(reason))
        case Send(command, token) => Sent(ForAcquire, call.owner, token, command);
      s.(calls := s.calls[id := (key, next)])
    case StartRenew(id, key, owner, token, now, expiresAt) =>
      s.(calls := s.calls[id := (key, Sent(ForRenew, owner, token, RenewCommand(owner, token, now, expiresAt)))])
    case StartRelease(id, key, owner, token, now) =>
      s.(calls := s.calls[id := (key, Sent(ForRelease, owner, token, ReleaseCommand(owner, token, now)))])
    case Deliver(id) =>
      var (key, call) := s.calls[id];
      var reply := Reply(s.docs, key, call.command);
      s.(docs := Execute(s.docs, key, call.command),
         calls := s.calls[id := (key, Answered(call.purpose, call.owner, call.token, call.command, reply))])
    case Return(id) =>
      var (key, call) := s.calls[id];
      var next := if call.purpose == ForAcquire
        then AcquireReturned(FinishAcquire(key, call.owner, call.token, call.command, call.reply)) else Returned;
      s.(calls := s.calls[id := (key, next)])
    case Lose(id) =>
      s.(calls := s.calls[id := (s.calls[id].0, Returned)])
    case BeginFenced(id, key, owner, token) =>
      s.(fenced := s.fenced[id := (key, Begun(owner, token))])
    case Fence(id, now) =>
      var (key, f) := s.fenced[id];
      var command := FenceCommand(f.owner, f.token, now);
      var next := if FenceHolds(key, f.owner, f.token, now, Reply(s.docs, key, command))
        then InTransaction(f.owner, f.token, s.docs[key], Written(s.docs, key, command)) else Ended;
      s.(fenced := s.fenced[id := (key, next)])
    case Commit(id) =>
      var (key, f) := s.fenced[id];
      s.(docs := s.docs[key := f.after],
         fenced := s.fenced[id := (key, Ended)],
         log := s.log + [FencedWrite(key, f.token, SequenceOf(f.after))])
    case Retry(id) =>
      var (key, f) := s.fenced[id];
      s.(fenced := s.fenced[id := (key, Begun(f.owner, f.token))])
    case Abandon(id) =>
      s.(fenced := s.fenced[id := (s.fenced[id].0, Ended)])
  }

  ghost predicate IsRun(states: seq<System>, steps: seq<Step>) {
    && |states| == |steps| + 1
    && forall i :: 0 <= i < |steps| ==> Enabled(states[i], steps[i]) && states[i + 1] == Take(states[i], steps[i])
  }

  /** A service process starts with no call in progress, over whatever documents it finds. */
  predicate Initial(s: System) { s.calls == map[] && s.fenced == map[] && s.log == [] }

  // ----- What every step keeps -----

  /** The token a call has been granted: its write took effect, whether or not it knows yet. */
  function Granted(call: Call): Option<int> {
    match call
    case Answered(ForAcquire, _, token, _, Some(doc)) => Some(doc.fencingToken)
    case AcquireReturned(Acquired(lease)) => Some(lease.fencingToken)
    case _ => None
  }

  ghost predicate CallOk(docs: Leases, key: string, call: Call) {
    && (Granted(call).Some? ==> key in docs && Granted(call).value <= docs[key].fencingToken)
    && (call.Sent? && call.purpose == ForAcquire ==>
          if call.command.Insert? then call.command.doc.fencingToken == 1 && SequenceOf(call.command.doc) == 0
          else call.command.update.TakeOver?)
    && (call.Sent? && call.purpose != ForAcquire ==> call.command.UpdateOne? && call.command.update.SetExpiry?)
  }

  ghost predicate FencedOk(f: Fenced) {
    f.InTransaction? ==> f.before.fencingToken == f.token && f.after == Updated(f.before, BumpSequence)
  }

  /** Two calls on one key granted the same token. */
  predicate SameGrant(calls: map<nat, (string, Call)>, i: nat, j: nat) {
    i in calls && j in calls && i != j && calls[i].0 == calls[j].0
    && Granted(calls[i].1).Some? && Granted(calls[i].1) == Granted(calls[j].1)
  }

  ghost predicate Inv(s: System) {
    && (forall id :: id in s.calls ==> CallOk(s.docs, s.calls[id].0, s.calls[id].1))
    && (forall id :: id in s.fenced ==> FencedOk(s.fenced[id].1))
    && (forall i, j :: !SameGrant(s.calls, i, j))
  }

  /** Documents are never removed, tokens never go down, and a document only changes owner by moving
      to the next token. */
  ghost predicate Grows(before: Leases, after: Leases) {
    forall key | key in before ::
      && key in after && before[key].fencingToken <= after[key].fencingToken
      && (before[key].fencingToken == after[key].fencingToken ==> before[key].ownerToken == after[key].ownerToken)
  }

  lemma StepGrows(s: System, step: Step)
    requires Inv(s) && Enabled(s, step)
    ensures Grows(s.docs, Take(s, step).docs)
  {
    if step.Deliver? {
      assert CallOk(s.docs, s.calls[step.id].0, s.calls[step.id].1);
    } else if step.Commit? {
      assert FencedOk(s.fenced[step.id].1);
    }
  }

  lemma StepKeepsCalls(s: System, step: Step, id: nat)
    requires Inv(s) && Enabled(s, step) && id in Take(s, step).calls
    ensures CallOk(Take(s, step).docs, Take(s, step).calls[id].0, Take(s, step).calls[id].1)
  {
    StepGrows(s, step);
    if id in s.calls {
      assert CallOk(s.docs, s.calls[id].0, s.calls[id].1);
    }
  }

  lemma StepKeepsFenced(s: System, step: Step, id: nat)
    requires Inv(s) && Enabled(s, step) && id in Take(s, step).fenced
    ensures FencedOk(Take(s, step).fenced[id].1)
  {
    if id in s.fenced {
      assert FencedOk(s.fenced[id].1);
    }
  }

  lemma StepKeepsGrantsDistinct(s: System, step: Step, i: nat, j: nat)
    requires Inv(s) && Enabled(s, step)
    ensures !SameGrant(Take(s, step).calls, i, j)
  {
    assert !SameGrant(s.calls, i, j);
    if step.Deliver? {
      assert CallOk(s.docs, s.calls[step.id].0, s.calls[step.id].1);
      if i in s.calls { assert CallOk(s.docs, s.calls[i].0, s.calls[i].1); }
      if j in s.calls { assert CallOk(s.docs, s.calls[j].0, s.calls[j].1); }
    }
  }

  lemma StepKeepsInv(s: System, step: Step)
    requires Inv(s) && Enabled(s, step)
    ensures Inv(Take(s, step))
  {
    var t := Take(s, step);
    forall id | id in t.calls ensures CallOk(t.docs, t.calls[id].0, t.calls[id].1) { StepKeepsCalls(s, step, id); }
    forall id | id in t.fenced ensures FencedOk(t.fenced[id].1) { StepKeepsFenced(s, step, id); }
    forall i, j ensures !SameGrant(t.calls, i, j) { StepKeepsGrantsDistinct(s, step, i, j); }
  }

  function WritesFor(log: seq<FencedWrite>, key: string): seq<FencedWrite> {
    if log == [] then []
    else WritesFor(log[..|log| - 1], key) + (if log[|log| - 1].key == key then [log[|log| - 1]] else [])
  }

  function Sequence(docs: Leases, key: string): int {
    if key in docs then SequenceOf(docs[key]) else 0
  }

  /** The writes committed to `key` between two states, against the documents at both ends. */
  ghost predicate LogAgrees(first: System, last: System, key: string) {
    var before, after := WritesFor(first.log, key), WritesFor(last.log, key);
    && before <= after
    && Sequence(last.docs, key) == Sequence(first.docs, key) + |after| - |before|
    && (forall i :: |before| <= i < |after| ==>
          && after[i].writeSequence == Sequence(first.docs, key) + i + 1 - |before|
          && key in last.docs && after[i].token <= last.docs[key].fencingToken
          && (key in first.docs ==> first.docs[key].fencingToken <= after[i].token))
    && (forall i, j :: |before| <= i < j < |after| ==> after[i].token <= after[j].token)
  }

  lemma CommitExtendsLog(first: System, s: System, id: nat, key: string)
    requires Enabled(s, Commit(id)) && FencedOk(s.fenced[id].1) && LogAgrees(first, s, key) && Grows(first.docs, s.docs)
    ensures LogAgrees(first, Take(s, Commit(id)), key)
  {
    var t := Take(s, Commit(id));
    var (k, f) := s.fenced[id];
    var entry := FencedWrite(k, f.token, SequenceOf(f.after));
    var before, w, v := WritesFor(first.log, key), WritesFor(s.log, key), WritesFor(t.log, key);
    assert t.log[..|t.log| - 1] == s.log && t.log[|t.log| - 1] == entry;
    assert v == if k == key then w + [entry] else w;
    forall i | |before| <= i < |v|
      ensures v[i].writeSequence == Sequence(first.docs, key) + i + 1 - |before|
        && v[i].token <= t.docs[key].fencingToken
        && (key in first.docs ==> first.docs[key].fencingToken <= v[i].token)
    {
      if i < |w| { assert v[i] == w[i]; } else { assert v[i] == entry; }
    }
  }

  lemma StepExtendsLog(first: System, s: System, step: Step, key: string)
    requires Inv(s) && Enabled(s, step) && LogAgrees(first, s, key) && Grows(first.docs, s.docs)
    ensures LogAgrees(first, Take(s, step), key)
  {
    if step.Commit? {
      assert FencedOk(s.fenced[step.id].1);
      CommitExtendsLog(first, s, step.id, key);
    } else {
      StepGrows(s, step);
      assert Take(s, step).log == s.log;
      if step.Deliver? {
        assert CallOk(s.docs, s.calls[step.id].0, s.calls[step.id].1);
      }
    }
  }

  lemma {:induction false} RunKeepsInv(states: seq<System>, steps: seq<Step>)
    requires IsRun(states, steps) && Inv(states[0])
    ensures forall i :: 0 <= i < |states| ==> Inv(states[i])
    decreases |steps|
  {
    if steps != [] {
      var n := |steps| - 1;
      RunKeepsInv(states[..n + 1], steps[..n]);
      StepKeepsInv(states[n], steps[n]);
      assert states[n] == states[..n + 1][n];
      assert states[..n + 1] + [states[n + 1]] == states;
    }
  }

  // ----- Main results -----

  /** In every run, for every key: the writes committed along it carry consecutive sequence numbers and
      nondecreasing fencing tokens, none below the token stored when the run began. */
  lemma {:induction false} CommittedWritesAreFenced(states: seq<System>, steps: seq<Step>, key: string)
    requires IsRun(states, steps) && Inv(states[0])
    ensures LogAgrees(states[0], states[|steps|], key) && Grows(states[0].docs, states[|steps|].docs)
    decreases |steps|
  {
    if steps != [] {
      var n := |steps| - 1;
      var states', steps' := states[..n + 1], steps[..n];
      CommittedWritesAreFenced(states', steps', key);
      RunKeepsInv(states', steps');
      StepExtendsLog(states'[0], states'[n], steps[n], key);
      StepGrows(states'[n], steps[n]);
    }
  }

  /** From a fresh start over empty storage, the k-th committed write to a key has writeSequence k. */
  lemma KthWriteHasSequenceK(states: seq<System>, steps: seq<Step>, key: string)
    requires IsRun(states, steps) && Initial(states[0]) && states[0].docs == map[]
    ensures var w := WritesFor(states[|steps|].log, key);
      && (forall k :: 0 <= k < |w| ==> w[k].writeSequence == k + 1)
      && (forall i, j :: 0 <= i < j < |w| ==> w[i].token <= w[j].token)
  {
    CommittedWritesAreFenced(states, steps, key);
  }

  /** Once a larger token is stored, no write holding a smaller one is ever committed again. */
  lemma StaleTokenNeverCommits(states: seq<System>, steps: seq<Step>, i: nat, token: int, key: string)
    requires IsRun(states, steps) && Initial(states[0])
    requires i <= |steps| && key in states[i].docs && token < states[i].docs[key].fencingToken
    ensures var w := WritesFor(states[|steps|].log, key);
      forall k :: |WritesFor(states[i].log, key)| <= k < |w| ==> w[k].token != token
  {
    RunKeepsInv(states, steps);
    var states', steps' := states[i..], steps[i..];
    forall j | 0 <= j < |steps'|
      ensures Enabled(states'[j], steps'[j]) && states'[j + 1] == Take(states'[j], steps'[j])
    {
      assert states'[j] == states[i + j] && states'[j + 1] == states[i + j + 1] && steps'[j] == steps[i + j];
    }
    CommittedWritesAreFenced(states', steps', key);
  }

  /** No two successful acquires of a key return the same fencing token. */
  lemma AcquiredTokensAreDistinct(states: seq<System>, steps: seq<Step>, i: nat, j: nat)
    requires IsRun(states, steps) && Initial(states[0])
    requires var calls := states[|steps|].calls;
      && i in calls && j in calls && i != j && calls[i].0 == calls[j].0
      && calls[i].1.AcquireReturned? && calls[i].1.outcome.Acquired?
      && calls[j].1.AcquireReturned? && calls[j].1.outcome.Acquired?
    ensures var calls := states[|steps|].calls;
      calls[i].1.outcome.lease.fencingToken != calls[j].1.outcome.lease.fencingToken
  {
    RunKeepsInv(states, steps);
    var calls := states[|steps|].calls;
    assert Inv(states[|steps|]);
    assert !SameGrant(calls, i, j);
  }

  /** The fence is not bought with refusals: the owner of an unexpired stored lease can always begin a fenced write,
      pass the fence and commit, and the log then has its write with the next sequence number. */
  lemma OwnerCanCommit(s: System, id: nat, key: string, owner: string, token: int, now: int)
    returns (states: seq<System>, steps: seq<Step>)
    requires id !in s.fenced && key in s.docs && NormalizeLease(key, Some(s.docs[key])).Some?
    requires s.docs[key].ownerToken == owner && s.docs[key].fencingToken == token && now < s.docs[key].leaseExpiresAt
    requires SequenceOf(s.docs[key]) < MAX_SAFE_INTEGER
    ensures steps == [BeginFenced(id, key, owner, token), Fence(id, now), Commit(id)]
    ensures IsRun(states, steps) && states[0] == s
    ensures states[3].log == s.log + [FencedWrite(key, token, SequenceOf(s.docs[key]) + 1)]
    ensures states[3].docs == s.docs[key := s.docs[key].(writeSequence := Some(SequenceOf(s.docs[key]) + 1))]
  {
    var s1 := Take(s, BeginFenced(id, key, owner, token));
    var s2 := Take(s1, Fence(id, now));
    var s3 := Take(s2, Commit(id));
    states, steps := [s, s1, s2, s3], [BeginFenced(id, key, owner, token), Fence(id, now), Commit(id)];
  }

  /** Nor is a conflict the end of it: the driver runs the transaction again, which then commits over whatever the
      document has become, as long as the lease is still its owner's. */
  lemma RetriedWriteCanCommit(s: System, id: nat, now: int) returns (states: seq<System>, steps: seq<Step>)
    requires id in s.fenced && s.fenced[id].1.InTransaction? && s.fenced[id].0 in s.docs
    requires var doc := s.docs[s.fenced[id].0];
      && NormalizeLease(s.fenced[id].0, Some(doc)).Some? && SequenceOf(doc) < MAX_SAFE_INTEGER
      && doc.ownerToken == s.fenced[id].1.owner && doc.fencingToken == s.fenced[id].1.token && now < doc.leaseExpiresAt
    ensures steps == [Retry(id), Fence(id, now), Commit(id)]
    ensures IsRun(states, steps) && states[0] == s
    ensures var (key, f) := s.fenced[id];
      states[3].log == s.log + [FencedWrite(key, f.token, SequenceOf(s.docs[key]) + 1)]
  {
    var s1 := Take(s, Retry(id));
    var s2 := Take(s1, Fence(id, now));
    var s3 := Take(s2, Commit(id));
    states, steps := [s, s1, s2, s3], [Retry(id), Fence(id, now), Commit(id)];
  }

  /** A call or fenced write that is answered, lost or given up is over, and its end touches no document. */
  lemma EndsAreQuiet(s: System, step: Step)
    requires Enabled(s, step)
    requires step.Lose? || step.Abandon? || (step.Return? && s.calls[step.id].1.purpose != ForAcquire)
    ensures var t := Take(s, step);
      && t.docs == s.docs && t.log == s.log
      && (step.Abandon? ==> t.fenced[step.id].1 == Ended && t.fenced - {step.id} == s.fenced - {step.id})
      && (!step.Abandon? ==> t.calls[step.id].1 == Returned && t.calls - {step.id} == s.calls - {step.id})
  {
  }

  /** After a takeover the previous owner's renewals, releases and fenced writes have no effect, ever. */
  lemma SupersededOwnerIsPowerless(states: seq<System>, steps: seq<Step>, i: nat, owner: string, token: int,
      key: string, command: Command)
    requires IsRun(states, steps) && Initial(states[0])
    requires i <= |steps| && key in states[i].docs && token < states[i].docs[key].fencingToken
    requires command.UpdateOne? && command.ownerToken == owner && command.fencingToken == token
    ensures !Applies(states[|steps|].docs, key, command)
  {
    RunKeepsInv(states, steps);
    var states', steps' := states[i..], steps[i..];
    forall j | 0 <= j < |steps'|
      ensures Enabled(states'[j], steps'[j]) && states'[j + 1] == Take(states'[j], steps'[j])
    {
      assert states'[j] == states[i + j] && states'[j + 1] == states[i + j + 1] && steps'[j] == steps[i + j];
    }
    CommittedWritesAreFenced(states', steps', key);
  }
}
