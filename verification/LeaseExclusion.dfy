/** Any number of runners of one job over one lease document, with one clock and one ttl. Every runner
    is the machine of LeaseRunner, every call it makes a call of LeaseProtocol; the network may delay,
    lose or deliver late anything, and a runner may give up on any call while it is still under way. Jobs
    await the fenced writes they start. */
module LeaseExclusion {
  import opened Wrappers
  import opened SchedulerLeaseService
  import P = LeaseProtocol
  import R = LeaseRunner

  /** A runner with the calls it is waiting for. Its fenced writes go by their protocol ids. */
  datatype Client = Client(runner: R.Runner, acquireCall: Option<nat>, renewCall: Option<nat>)

  datatype World = World(key: string, ttl: int, clock: int, sys: P.System, clients: map<nat, Client>)

  datatype Step =
    | ClockAdvances(now: int)
    | Network(step: P.Step)
    | Local(c: nat, local: R.Step)
    | BeginTick(c: nat, tick: nat, id: nat)
    | AcquireAnswered(c: nat, tick: nat)
    | AcquireFails(c: nat, tick: nat)
    | TimerFires(c: nat, id: nat)
    | RenewAnswered(c: nat)
    | RenewFails(c: nat)
    | Drained(c: nat, tick: nat, id: nat)
    | RequestFenced(c: nat, id: nat, tick: nat)
    | FencedCallback(c: nat, id: nat)
    | FencedSettles(c: nat, id: nat, leaseLost: bool)

  /** What the database and the service do with calls already made. */
  predicate IsNetworkStep(w: World, step: P.Step)
    requires P.Enabled(w.sys, step)
  {
    match step
    case Read(_) => true
    case Deliver(_) => true
    case Return(id) => w.sys.calls[id].1.purpose == P.ForAcquire
    case Fence(_, now) => now <= w.clock
    case Commit(_) => true
    case Retry(_) => true
    case Abandon(_) => true
    case _ => false
  }

  /** Steps of a runner that neither send a call nor consume a reply. */
  predicate IsLocalStep(step: R.Step) {
    step.Start? || step.CallStop? || step.TaskStopped? || step.StopSettles?
    || step.OwnershipCheckFails? || step.JobEnds? || step.ReleaseReturns?
  }

  function AcquireOutcome(call: P.Call): Option<Lease> {
    match call
    case AcquireReturned(Acquired(lease)) => Some(lease)
    case _ => None
  }

  /** The runner's own part of a step; None for steps that are not a runner's. */
  function RunnerStep(w: World, step: Step): Option<(nat, R.Step)> {
    match step
    case ClockAdvances(_) => None
    case Network(_) => None
    case Local(c, local) => Some((c, local))
    case BeginTick(c, tick, _) => Some((c, R.RunTick(tick)))
    case AcquireAnswered(c, tick) =>
      var outcome :=
        if c in w.clients && w.clients[c].acquireCall.Some? && w.clients[c].acquireCall.value in w.sys.calls
        then AcquireOutcome(w.sys.calls[w.clients[c].acquireCall.value].1) else None;
      Some((c, R.AcquireReturns(tick, outcome, w.clock)))
    case AcquireFails(c, tick) => Some((c, R.AcquireReturns(tick, None, w.clock)))
    case TimerFires(c, _) => Some((c, R.TimerFires))
    case RenewAnswered(c) =>
      var outcome := if c in w.clients && w.clients[c].renewCall.Some? && w.clients[c].renewCall.value in w.sys.calls
                        && w.sys.calls[w.clients[c].renewCall.value].1.Answered?
        then
          var call := w.sys.calls[w.clients[c].renewCall.value].1;
          FinishUpdate(w.key, call.owner, call.token, call.reply)
        else None;
      Some((c, R.RenewReturns(outcome, w.clock)))
    case RenewFails(c) => Some((c, R.RenewReturns(None, w.clock)))
    case Drained(c, tick, _) => Some((c, R.Drained(tick)))
    case RequestFenced(c, id, tick) => Some((c, R.RequestFenced(id, tick)))
    case FencedCallback(c, id) =>
      var updated := if id in w.sys.fenced && w.sys.fenced[id].1.InTransaction?
        then NormalizeLease(w.key, Some(w.sys.fenced[id].1.after)) else None;
      if updated.Some? then Some((c, R.FencedCallback(id, updated.value, w.clock))) else None
    case FencedSettles(c, id, leaseLost) => Some((c, R.FencedSettles(id, leaseLost)))
  }

  /** The call a step makes, if any. */
  function ProtocolStep(w: World, step: Step): Option<P.Step> {
    match step
    case Network(step) => Some(step)
    case BeginTick(c, _, id) =>
      if c !in w.clients then None
      else Some(P.StartAcquire(id, w.key, w.clients[c].runner.setup.ownerToken, w.clock, w.clock + w.ttl))
    case TimerFires(c, id) =>
      if c in w.clients && w.clients[c].runner.lease.current.Some?
      then var lease := w.clients[c].runner.lease.current.value;
           Some(P.StartRenew(id, w.key, lease.ownerToken, lease.fencingToken, w.clock, w.clock + w.ttl))
      else None
    case Drained(c, _, id) =>
      if c in w.clients && w.clients[c].runner.lease.current.Some?
      then var lease := w.clients[c].runner.lease.current.value;
           Some(P.StartRelease(id, w.key, lease.ownerToken, lease.fencingToken, w.clock))
      else None
    case RequestFenced(c, id, tick) =>
      if c in w.clients && w.clients[c].runner.lease.current.Some?
      then var lease := w.clients[c].runner.lease.current.value;
           Some(P.BeginFenced(id, w.key, lease.ownerToken, lease.fencingToken))
      else None
    case _ => None
  }

  predicate Enabled(w: World, step: Step) {
    && (RunnerStep(w, step).Some? ==>
          var (c, local) := RunnerStep(w, step).value;
          && c in w.clients && R.Enabled(w.clients[c].runner, local)
          && R.Disciplined(w.clients[c].runner, local) && R.Awaits(w.clients[c].runner, local))
    && (ProtocolStep(w, step).Some? ==> P.Enabled(w.sys, ProtocolStep(w, step).value))
    && match step
       case ClockAdvances(now) => w.clock <= now
       case Network(step) => IsNetworkStep(w, step)
       case Local(_, local) => IsLocalStep(local)
       case BeginTick(c, _, _) =>
         && w.clients[c].runner.control.active && !w.clients[c].runner.control.stopping
         && !w.clients[c].runner.work.isRunning
       case AcquireAnswered(c, _) => w.clients[c].acquireCall.Some? && w.clients[c].acquireCall.value in w.sys.calls
                                     && w.sys.calls[w.clients[c].acquireCall.value].1.AcquireReturned?
       case AcquireFails(c, _) => true
       case TimerFires(c, _) => ProtocolStep(w, step).Some?
       case RenewAnswered(c) => w.clients[c].renewCall.Some? && w.clients[c].renewCall.value in w.sys.calls
                                && w.sys.calls[w.clients[c].renewCall.value].1.Answered?
       case RenewFails(c) => true
       case Drained(c, _, _) => ProtocolStep(w, step).Some?
       case RequestFenced(c, id, tick) => ProtocolStep(w, step).Some? && tick !in w.clients[c].runner.aborted
       case FencedCallback(c, id) => RunnerStep(w, step).Some?
       case FencedSettles(c, id, _) => id in w.sys.fenced && w.sys.fenced[id].1.Ended?
  }

  function Take(w: World, step: Step): World
    requires Enabled(w, step)
  {
    var sys := match ProtocolStep(w, step) case Some(s) => P.Take(w.sys, s) case None => w.sys;
    var clock := if step.ClockAdvances? then step.now else w.clock;
    match RunnerStep(w, step)
    case None => w.(sys := sys, clock := clock)
    case Some((c, local)) =>
      var client := w.clients[c];
      var moved := client.(runner := R.Take(client.runner, local));
      var linked := match step
        case BeginTick(_, _, id) => moved.(acquireCall := Some(id))
        case AcquireAnswered(_, _) => moved.(acquireCall := None)
        case AcquireFails(_, _) => moved.(acquireCall := None)
        case TimerFires(_, id) => moved.(renewCall := Some(id))
        case RenewAnswered(_) => moved.(renewCall := None)
        case RenewFails(_) => moved.(renewCall := None)
        case _ => moved;
      w.(sys := sys, clock := clock, clients := w.clients[c := linked])
  }

  ghost predicate Initial(w: World) {
    && P.Initial(w.sys)
    && 0 < w.ttl
    && (w.key in w.sys.docs ==> w.sys.docs[w.key].leaseExpiresAt <= w.clock + w.ttl)
    && (forall c :: c in w.clients ==>
          var setup := w.clients[c].runner.setup;
          w.clients[c] == Client(R.Idle(R.Setup(setup.variant, w.key, setup.ownerToken)), None, None))
    && (forall c, d :: c in w.clients && d in w.clients && c != d ==>
          w.clients[c].runner.setup.ownerToken != w.clients[d].runner.setup.ownerToken)
  }

  ghost predicate IsRun(worlds: seq<World>, steps: seq<Step>) {
    && |worlds| == |steps| + 1
    && forall i :: 0 <= i < |steps| ==> Enabled(worlds[i], steps[i]) && worlds[i + 1] == Take(worlds[i], steps[i])
  }

  // ----- The invariant -----

  /** A lease copy whose expiry is still ahead is backed by the stored document. */
  ghost predicate Backed(w: World, owner: string, token: int, expiresAt: int) {
    expiresAt <= w.clock
    || (w.key in w.sys.docs && w.sys.docs[w.key].ownerToken == owner && w.sys.docs[w.key].fencingToken == token
        && expiresAt <= w.sys.docs[w.key].leaseExpiresAt)
  }

  ghost predicate Issued(w: World, token: int) {
    w.key in w.sys.docs && token <= w.sys.docs[w.key].fencingToken
  }

  ghost predicate CommandOk(w: World, purpose: P.Purpose, owner: string, token: int, command: Command) {
    match purpose
    case ForAcquire =>
      if command.Insert? then
        && command.doc.ownerToken == owner && command.doc.fencingToken == token
        && command.doc.leaseExpiresAt <= w.clock + w.ttl
      else command.expiry.AtOrBefore? && command.expiry.t <= w.clock && command.fencingToken + 1 == token
           && command.update.TakeOver? && command.update.newOwner == owner
           && command.update.expiresAt <= w.clock + w.ttl
    case ForRenew =>
      && command.UpdateOne? && command.ownerToken == owner && command.fencingToken == token
      && command.update.SetExpiry? && command.update.expiresAt <= w.clock + w.ttl && Issued(w, token)
      && (w.sys.docs[w.key].ownerToken == owner && w.sys.docs[w.key].fencingToken == token ==>
            w.sys.docs[w.key].leaseExpiresAt <= R.Max(command.update.expiresAt, w.clock))
    case ForRelease =>
      && command.UpdateOne? && command.ownerToken == owner && command.fencingToken == token
      && command.update.SetExpiry? && command.update.expiresAt <= w.clock && Issued(w, token)
  }

  ghost predicate CallOk(w: World, id: nat)
    requires id in w.sys.calls
  {
    && w.sys.calls[id].0 == w.key
    && match w.sys.calls[id].1
       case AboutToRead(_, now, expiresAt) => now <= w.clock && expiresAt == now + w.ttl
       case Sent(purpose, owner, token, command) => CommandOk(w, purpose, owner, token, command)
       case _ => true
  }

  ghost predicate AcquireCallOk(w: World, owner: string, call: P.Call) {
    match call
    case AboutToRead(o, _, _) => o == owner
    case Sent(p, o, _, _) => o == owner && p == P.ForAcquire
    case Answered(p, o, _, _, reply) => o == owner && p == P.ForAcquire
      && (reply.Some? ==>
            && reply.value.ownerToken == owner
            && Backed(w, owner, reply.value.fencingToken, reply.value.leaseExpiresAt)
            && Issued(w, reply.value.fencingToken))
    case AcquireReturned(outcome) => outcome.Acquired? ==>
      && outcome.lease.ownerToken == owner
      && Backed(w, owner, outcome.lease.fencingToken, outcome.lease.leaseExpiresAt)
      && Issued(w, outcome.lease.fencingToken)
    case Returned => false
  }

  ghost predicate RenewCallOk(w: World, lease: Lease, call: P.Call) {
    match call
    case Sent(p, o, t, _) => p == P.ForRenew && o == lease.ownerToken && t == lease.fencingToken
    case Answered(p, o, t, _, reply) => p == P.ForRenew && o == lease.ownerToken && t == lease.fencingToken
      && (reply.Some? ==>
            && reply.value.ownerToken == o && reply.value.fencingToken == t
            && Backed(w, o, t, reply.value.leaseExpiresAt))
    case _ => false
  }

  ghost predicate FencedOk(w: World, lease: Lease, id: nat) {
    && id in w.sys.fenced && w.sys.fenced[id].0 == w.key
    && match w.sys.fenced[id].1
       case Begun(o, t) => o == lease.ownerToken && t == lease.fencingToken
       case InTransaction(o, t, _, after) => o == lease.ownerToken && t == lease.fencingToken
         && after.ownerToken == o && after.fencingToken == t && Backed(w, o, t, after.leaseExpiresAt)
       case Ended => true
  }

  ghost predicate HoldingOk(w: World, client: Client) {
    client.runner.lease.current.Some? ==>
      && Backed(w, client.runner.setup.ownerToken, client.runner.lease.current.value.fencingToken,
                client.runner.lease.current.value.leaseExpiresAt)
      && Issued(w, client.runner.lease.current.value.fencingToken)
  }

  ghost predicate AcquiringOk(w: World, client: Client) {
    client.acquireCall.Some? ==>
      && client.runner.work.activeTick.Some? && client.runner.work.activeTick.value in client.runner.work.ticks
      && client.runner.work.ticks[client.runner.work.activeTick.value] == R.Acquiring
      && client.acquireCall.value in w.sys.calls
      && AcquireCallOk(w, client.runner.setup.ownerToken, w.sys.calls[client.acquireCall.value].1)
  }

  ghost predicate RenewingOk(w: World, client: Client) {
    client.renewCall.Some? ==>
      && client.runner.lease.renewal && client.runner.lease.current.Some? && client.renewCall.value in w.sys.calls
      && RenewCallOk(w, client.runner.lease.current.value, w.sys.calls[client.renewCall.value].1)
  }

  ghost predicate FencingOk(w: World, client: Client) {
    forall id :: id in client.runner.fenced ==>
      client.runner.lease.current.Some? && FencedOk(w, client.runner.lease.current.value, id)
  }

  ghost predicate ClientOk(w: World, client: Client) {
    R.Inv(client.runner) && client.runner.setup.jobKey == w.key
    && HoldingOk(w, client) && AcquiringOk(w, client) && RenewingOk(w, client) && FencingOk(w, client)
  }

  /** The token a runner is waiting to be told it holds. */
  function PendingGrant(w: World, client: Client): Option<int> {
    if client.acquireCall.Some? && client.acquireCall.value in w.sys.calls
    then P.Granted(w.sys.calls[client.acquireCall.value].1) else None
  }

  /** Releases under way are for tokens their owner no longer holds; a renewal under way for the token
      its owner does hold is the one it awaits, unless it has stopped renewing; and both are for older
      tokens than one the owner is about to be granted. */
  ghost predicate SentOk(w: World, client: Client, id: nat)
    requires id in w.sys.calls
  {
    var call := w.sys.calls[id].1;
    var lease := client.runner.lease;
    call.Sent? && call.owner == client.runner.setup.ownerToken && call.purpose != P.ForAcquire ==>
      && (PendingGrant(w, client).Some? ==> call.token < PendingGrant(w, client).value)
      && (lease.current.Some? && call.purpose == P.ForRelease ==> call.token < lease.current.value.fencingToken)
      && (lease.current.Some? && call.purpose == P.ForRenew && call.token == lease.current.value.fencingToken ==>
            client.renewCall == Some(id) || !lease.active)
  }

  ghost predicate SameRenewal(calls: map<nat, (string, P.Call)>, i: nat, j: nat) {
    i in calls && j in calls && i != j && calls[i].1.Sent? && calls[j].1.Sent?
    && calls[i].1.purpose == P.ForRenew && calls[j].1.purpose == P.ForRenew
    && calls[i].1.owner == calls[j].1.owner && calls[i].1.token == calls[j].1.token
  }

  ghost predicate Inv(w: World) {
    && P.Inv(w.sys)
    && 0 < w.ttl
    && (w.key in w.sys.docs ==> w.sys.docs[w.key].leaseExpiresAt <= w.clock + w.ttl)
    && (forall c, d :: c in w.clients && d in w.clients && c != d ==>
          w.clients[c].runner.setup.ownerToken != w.clients[d].runner.setup.ownerToken)
    && (forall id :: id in w.sys.calls ==> CallOk(w, id))
    && (forall c :: c in w.clients ==> ClientOk(w, w.clients[c]))
    && (forall c, id :: c in w.clients && id in w.sys.calls ==> SentOk(w, w.clients[c], id))
    && (forall i, j :: !SameRenewal(w.sys.calls, i, j))
  }

  /** A runner that holds a local lease copy whose expiry is still in the future. */
  predicate HoldsLive(w: World, c: nat)
    requires c in w.clients
  {
    w.clients[c].runner.lease.current.Some? && w.clients[c].runner.lease.current.value.leaseExpiresAt > w.clock
  }

  lemma LiveHoldersAgree(w: World, c: nat, d: nat)
    requires Inv(w) && c in w.clients && d in w.clients && HoldsLive(w, c) && HoldsLive(w, d)
    ensures c == d
  {
    assert ClientOk(w, w.clients[c]) && ClientOk(w, w.clients[d]);
  }

  // ----- What the rest of the system does to one client -----

  /** The system moves from w to v by at most one protocol step, for which the invariant held. */
  ghost predicate Moves(w: World, step: Option<P.Step>, v: World) {
    && v.key == w.key && v.ttl == w.ttl && 0 < w.ttl && w.clock <= v.clock
    && (w.key in w.sys.docs ==> w.sys.docs[w.key].leaseExpiresAt <= w.clock + w.ttl)
    && (step.None? ==> v.sys == w.sys)
    && (step.Some? ==> P.Enabled(w.sys, step.value) && !step.value.Lose? && v.sys == P.Take(w.sys, step.value))
    && (step.Some? && step.value.Deliver? ==> CallOk(w, step.value.id))
    && (step.Some? && step.value.Read? ==> CallOk(w, step.value.id))
    && (step.Some? && step.value.Return? ==> w.sys.calls[step.value.id].1.purpose == P.ForAcquire)
    && (step.Some? && step.value.Commit? ==> P.FencedOk(w.sys.fenced[step.value.id].1))
  }

  predicate DeliversRelease(w: World, step: Option<P.Step>, owner: string, token: int) {
    step.Some? && step.value.Deliver? && step.value.id in w.sys.calls && w.sys.calls[step.value.id].1.Sent?
    && w.sys.calls[step.value.id].1.purpose == P.ForRelease && w.sys.calls[step.value.id].1.owner == owner
    && w.sys.calls[step.value.id].1.token == token
  }

  lemma BackedKept(w: World, step: Option<P.Step>, v: World, owner: string, token: int, expiresAt: int)
    requires Moves(w, step, v) && Backed(w, owner, token, expiresAt)
    requires DeliversRelease(w, step, owner, token) ==> expiresAt <= w.clock
    ensures Backed(v, owner, token, expiresAt)
  {
  }

  lemma IssuedKept(w: World, step: Option<P.Step>, v: World, token: int)
    requires Moves(w, step, v) && Issued(w, token)
    ensures Issued(v, token)
  {
  }

  lemma ExpiryKept(w: World, step: Option<P.Step>, v: World)
    requires Moves(w, step, v)
    requires step.Some? && step.value.Deliver? ==> w.sys.calls[step.value.id].1.Sent?
    ensures w.key in v.sys.docs ==> v.sys.docs[w.key].leaseExpiresAt <= v.clock + v.ttl
  {
  }

  lemma OldCallKept(w: World, step: Option<P.Step>, v: World, id: nat)
    requires Moves(w, step, v) && id in w.sys.calls && CallOk(w, id) && v.sys.calls[id] == w.sys.calls[id]
    requires step.Some? && step.value.Deliver? ==> !SameRenewal(w.sys.calls, id, step.value.id) && step.value.id != id
    ensures CallOk(v, id)
  {
  }

  /** A release being delivered is not for a token this client holds or is about to be told it holds. */
  ghost predicate Undisturbed(w: World, step: Option<P.Step>, client: Client) {
    step.Some? && step.value.Deliver? && step.value.id in w.sys.calls ==> SentOk(w, client, step.value.id)
  }

  lemma HoldingKept(w: World, step: Option<P.Step>, v: World, client: Client)
    requires Moves(w, step, v) && Undisturbed(w, step, client) && HoldingOk(w, client)
    ensures HoldingOk(v, client)
  {
    if client.runner.lease.current.Some? {
      var lease := client.runner.lease.current.value;
      BackedKept(w, step, v, client.runner.setup.ownerToken, lease.fencingToken, lease.leaseExpiresAt);
      IssuedKept(w, step, v, lease.fencingToken);
    }
  }

  lemma AcquireCallKept(w: World, step: Option<P.Step>, v: World, owner: string, call: P.Call)
    requires Moves(w, step, v) && AcquireCallOk(w, owner, call)
    requires forall t :: P.Granted(call) == Some(t) ==> !DeliversRelease(w, step, owner, t)
    ensures AcquireCallOk(v, owner, call)
  {
    match call
    case Answered(_, _, _, _, Some(doc)) =>
      assert P.Granted(call) == Some(doc.fencingToken);
      BackedKept(w, step, v, owner, doc.fencingToken, doc.leaseExpiresAt);
      IssuedKept(w, step, v, doc.fencingToken);
    case AcquireReturned(Acquired(lease)) =>
      assert P.Granted(call) == Some(lease.fencingToken);
      BackedKept(w, step, v, owner, lease.fencingToken, lease.leaseExpiresAt);
      IssuedKept(w, step, v, lease.fencingToken);
    case _ =>
  }

  /** The awaited acquire itself moves: it is read, delivered or returned. */
  lemma AcquireCallMoves(w: World, step: P.Step, v: World, owner: string)
    requires Moves(w, Some(step), v) && (step.Read? || step.Deliver? || step.Return?)
    requires AcquireCallOk(w, owner, w.sys.calls[step.id].1) && CallOk(w, step.id)
    ensures AcquireCallOk(v, owner, v.sys.calls[step.id].1)
  {
  }

  lemma AcquiringKept(w: World, step: Option<P.Step>, v: World, client: Client)
    requires Moves(w, step, v) && Undisturbed(w, step, client) && AcquiringOk(w, client)
    requires client.acquireCall.Some? ==> CallOk(w, client.acquireCall.value)
    ensures AcquiringOk(v, client)
  {
    if client.acquireCall.Some? {
      var id := client.acquireCall.value;
      if v.sys.calls[id] == w.sys.calls[id] {
        AcquireCallKept(w, step, v, client.runner.setup.ownerToken, w.sys.calls[id].1);
      } else {
        AcquireCallMoves(w, step.value, v, client.runner.setup.ownerToken);
      }
    }
  }

  lemma RenewingKept(w: World, step: Option<P.Step>, v: World, client: Client)
    requires Moves(w, step, v) && Undisturbed(w, step, client) && RenewingOk(w, client) && R.LeaseOk(client.runner)
    requires client.renewCall.Some? ==> CallOk(w, client.renewCall.value)
    ensures RenewingOk(v, client)
  {
    if client.renewCall.Some? {
      match w.sys.calls[client.renewCall.value].1 {
        case Answered(_, owner, token, _, Some(doc)) => BackedKept(w, step, v, owner, token, doc.leaseExpiresAt);
        case _ =>
      }
    }
  }

  lemma FencedKept(w: World, step: Option<P.Step>, v: World, client: Client, id: nat)
    requires Moves(w, step, v) && Undisturbed(w, step, client) && R.LeaseOk(client.runner)
    requires client.runner.lease.current.Some? && FencedOk(w, client.runner.lease.current.value, id)
    ensures FencedOk(v, client.runner.lease.current.value, id)
  {
    match w.sys.fenced[id].1 {
      case InTransaction(owner, token, _, after) => BackedKept(w, step, v, owner, token, after.leaseExpiresAt);
      case _ =>
    }
  }

  lemma SentKept(w: World, step: Option<P.Step>, v: World, client: Client, id: nat)
    requires Moves(w, step, v) && AcquiringOk(w, client)
    requires id in w.sys.calls && CallOk(w, id) && SentOk(w, client, id)
    ensures SentOk(v, client, id)
  {
  }

  lemma UniqueRenewalKept(w: World, step: Option<P.Step>, v: World, i: nat, j: nat)
    requires Moves(w, step, v) && !SameRenewal(w.sys.calls, i, j)
    requires step.Some? && step.value.StartRenew? ==> forall k :: k in w.sys.calls ==>
      !(w.sys.calls[k].1.Sent? && w.sys.calls[k].1.purpose == P.ForRenew
        && w.sys.calls[k].1.owner == step.value.owner && w.sys.calls[k].1.token == step.value.token)
    ensures !SameRenewal(v.sys.calls, i, j)
  {
  }

  // ----- What a step does to the client that takes it -----

  lemma TakeMoves(w: World, step: Step)
    requires Inv(w) && Enabled(w, step)
    ensures Moves(w, ProtocolStep(w, step), Take(w, step))
  {
    match ProtocolStep(w, step)
    case Some(Deliver(id)) => assert CallOk(w, id);
    case Some(Read(id)) => assert CallOk(w, id);
    case Some(Commit(id)) => assert P.FencedOk(w.sys.fenced[id].1);
    case _ =>
  }

  /** All that the invariant says of one client. */
  ghost predicate Settled(w: World, client: Client) {
    ClientOk(w, client) && forall id :: id in w.sys.calls ==> SentOk(w, client, id)
  }

  /** Nothing that the invariant says of the client depends on what changed. */
  lemma SettledKept(w: World, client: Client, client': Client)
    requires Settled(w, client) && R.Inv(client'.runner) && client'.runner.setup == client.runner.setup
    requires client'.acquireCall == client.acquireCall && client'.renewCall == client.renewCall
    requires client'.runner.lease.current == client.runner.lease.current
    requires client'.runner.fenced == client.runner.fenced
    requires client'.runner.lease.renewal == client.runner.lease.renewal
    requires client'.runner.lease.active ==> client.runner.lease.active
    requires AcquiringOk(w, client')
    ensures Settled(w, client')
  {
    forall id | id in w.sys.calls ensures SentOk(w, client', id) { assert SentOk(w, client, id); }
  }

  /** A local step moves no lease copy, no renewal and no fenced write, and ends no acquire. */
  lemma LocalStepEffect(r: R.Runner, local: R.Step)
    requires R.WorkOk(r) && R.Enabled(r, local) && IsLocalStep(local)
    ensures var q := R.Take(r, local);
      && q.setup == r.setup && q.lease.current == r.lease.current && q.fenced == r.fenced
      && q.lease.renewal == r.lease.renewal
      && (q.lease.active ==> r.lease.active)
      && (r.work.activeTick.Some? && r.work.activeTick.value in r.work.ticks
          && r.work.ticks[r.work.activeTick.value] == R.Acquiring ==>
            q.work.activeTick == r.work.activeTick && q.work.ticks == r.work.ticks)
  {
  }

  lemma LocalStepSettles(w: World, client: Client, local: R.Step)
    requires Settled(w, client) && IsLocalStep(local)
    requires R.Enabled(client.runner, local) && R.Disciplined(client.runner, local) && R.Awaits(client.runner, local)
    ensures Settled(w, client.(runner := R.Take(client.runner, local)))
  {
    R.StepKeepsInv(client.runner, local);
    LocalStepEffect(client.runner, local);
    SettledKept(w, client, client.(runner := R.Take(client.runner, local)));
  }

  lemma BeginTickSettles(w: World, client: Client, tick: nat, id: nat, now: int)
    requires Settled(w, client) && tick !in client.runner.work.ticks && tick !in client.runner.aborted
    requires client.runner.control.active && !client.runner.control.stopping && !client.runner.work.isRunning
    requires id in w.sys.calls && w.sys.calls[id].1 == P.AboutToRead(client.runner.setup.ownerToken, now, now + w.ttl)
    requires R.Inv(R.TakeRunTick(client.runner, tick))
    ensures Settled(w, client.(runner := R.TakeRunTick(client.runner, tick), acquireCall := Some(id)))
  {
    var client' := client.(runner := R.TakeRunTick(client.runner, tick), acquireCall := Some(id));
    assert client.runner.lease.current.None? && client.runner.fenced == map[] by {
      assert forall f :: f !in client.runner.fenced;
    }
    forall i | i in w.sys.calls ensures SentOk(w, client', i) { assert SentOk(w, client, i); }
  }

  /** acquire answered: the copy the runner takes is the one the invariant already backs. */
  lemma AcquireSettles(w: World, client: Client, tick: nat, outcome: Option<Lease>)
    requires Settled(w, client) && tick in client.runner.work.ticks && client.runner.work.ticks[tick] == R.Acquiring
    requires outcome.Some? ==>
      && client.acquireCall.Some? && client.acquireCall.value in w.sys.calls
      && w.sys.calls[client.acquireCall.value].1 == P.AcquireReturned(Acquired(outcome.value))
    ensures var after := R.TakeAcquireReturns(client.runner, tick, outcome, w.clock);
      Settled(w, client.(runner := after, acquireCall := None))
  {
    R.AcquireKeepsWork(client.runner, tick, outcome, w.clock);
    var client' := client.(runner := R.TakeAcquireReturns(client.runner, tick, outcome, w.clock), acquireCall := None);
    assert R.SameStops(client.runner, client'.runner);
    R.SameStopsKeepsStops(client.runner, client'.runner);
    forall i | i in w.sys.calls ensures SentOk(w, client', i) { assert SentOk(w, client, i); }
  }

  /** Everything but what it says of the call the client has just made. */
  ghost predicate SettledExcept(w: World, client: Client, id: nat) {
    ClientOk(w, client) && forall i :: i in w.sys.calls && i != id ==> SentOk(w, client, i)
  }

  lemma TimerSettles(w: World, client: Client, id: nat, command: Command)
    requires SettledExcept(w, client, id) && client.runner.lease.timer && client.runner.lease.current.Some?
    requires id in w.sys.calls && w.sys.calls[id].1 ==
      P.Sent(P.ForRenew, client.runner.setup.ownerToken, client.runner.lease.current.value.fencingToken, command)
    ensures Settled(w, client.(runner := R.TakeTimerFires(client.runner), renewCall := Some(id)))
  {
    R.TimerKeepsWork(client.runner);
    var client' := client.(runner := R.TakeTimerFires(client.runner), renewCall := Some(id));
    R.SameStopsKeepsStops(client.runner, client'.runner);
    forall i | i in w.sys.calls ensures SentOk(w, client', i) { if i != id { assert SentOk(w, client, i); } }
  }

  lemma RenewSettles(w: World, client: Client, outcome: Option<Lease>)
    requires Settled(w, client) && client.runner.lease.renewal
    requires outcome.Some? ==>
      && client.renewCall.Some? && client.renewCall.value in w.sys.calls
      && w.sys.calls[client.renewCall.value].1.Answered?
      && var call := w.sys.calls[client.renewCall.value].1;
         outcome == FinishUpdate(w.key, call.owner, call.token, call.reply)
    ensures Settled(w, client.(runner := R.TakeRenewReturns(client.runner, outcome, w.clock), renewCall := None))
  {
    R.RenewKeepsWork(client.runner, outcome, w.clock);
    var client' := client.(runner := R.TakeRenewReturns(client.runner, outcome, w.clock), renewCall := None);
    R.SameStopsKeepsStops(client.runner, client'.runner);
    forall i | i in client'.runner.fenced ensures FencedOk(w, client'.runner.lease.current.value, i) {
      assert FencedOk(w, client.runner.lease.current.value, i);
    }
    forall i | i in w.sys.calls ensures SentOk(w, client', i) { assert SentOk(w, client, i); }
  }

  lemma DrainSettles(w: World, client: Client, tick: nat, id: nat)
    requires SettledExcept(w, client, id) && client.runner.lease.current.Some?
    requires tick in client.runner.work.ticks && client.runner.work.ticks[tick] == R.Draining
    requires !client.runner.lease.renewal
    ensures Settled(w, client.(runner := R.TakeDrained(client.runner, tick)))
  {
    R.DrainKeepsWork(client.runner, tick);
    var client' := client.(runner := R.TakeDrained(client.runner, tick));
    R.SameStopsKeepsStops(client.runner, client'.runner);
    assert client.runner.fenced == map[] by { assert forall f :: f !in client.runner.fenced; }
    forall i | i in w.sys.calls ensures SentOk(w, client', i) { if i != id { assert SentOk(w, client, i); } }
  }

  lemma RequestSettles(w: World, client: Client, id: nat, tick: nat)
    requires Settled(w, client) && tick in client.runner.work.ticks && client.runner.work.ticks[tick] == R.Running
    requires client.runner.lease.current.Some? && id in w.sys.fenced && w.sys.fenced[id] ==
      (w.key, P.Begun(client.runner.lease.current.value.ownerToken, client.runner.lease.current.value.fencingToken))
    ensures Settled(w, client.(runner := R.TakeRequestFenced(client.runner, id, tick)))
  {
    R.RequestKeepsWork(client.runner, id, tick);
    var client' := client.(runner := R.TakeRequestFenced(client.runner, id, tick));
    R.SameStopsKeepsStops(client.runner, client'.runner);
    forall i | i in client'.runner.fenced ensures FencedOk(w, client'.runner.lease.current.value, i) {
      if i != id { assert FencedOk(w, client.runner.lease.current.value, i); }
    }
    forall i | i in w.sys.calls ensures SentOk(w, client', i) { assert SentOk(w, client, i); }
  }

  lemma CallbackSettles(w: World, client: Client, id: nat, updated: Lease)
    requires Settled(w, client) && id in client.runner.fenced && id in w.sys.fenced && w.sys.fenced[id].1.InTransaction?
    requires NormalizeLease(w.key, Some(w.sys.fenced[id].1.after)) == Some(updated)
    ensures Settled(w, client.(runner := R.TakeFencedCallback(client.runner, updated, w.clock)))
  {
    assert FencedOk(w, client.runner.lease.current.value, id);
    R.CallbackKeepsWork(client.runner, updated, w.clock);
    var client' := client.(runner := R.TakeFencedCallback(client.runner, updated, w.clock));
    R.SameStopsKeepsStops(client.runner, client'.runner);
    forall i | i in client'.runner.fenced ensures FencedOk(w, client'.runner.lease.current.value, i) {
      assert FencedOk(w, client.runner.lease.current.value, i);
    }
    forall i | i in w.sys.calls ensures SentOk(w, client', i) { assert SentOk(w, client, i); }
  }

  lemma FencedSettlesSettles(w: World, client: Client, id: nat, leaseLost: bool)
    requires Settled(w, client) && id in client.runner.fenced
    ensures Settled(w, client.(runner := R.TakeFencedSettles(client.runner, id, leaseLost)))
  {
    R.SettleKeepsWork(client.runner, id, leaseLost);
    var client' := client.(runner := R.TakeFencedSettles(client.runner, id, leaseLost));
    R.SameStopsKeepsStops(client.runner, client'.runner);
    forall i | i in client'.runner.fenced ensures FencedOk(w, client'.runner.lease.current.value, i) {
      assert FencedOk(w, client.runner.lease.current.value, i);
    }
    forall i | i in w.sys.calls ensures SentOk(w, client', i) { assert SentOk(w, client, i); }
  }

  // ----- Every step keeps the invariant -----

  lemma SystemKeepsClient(w: World, step: Option<P.Step>, v: World, client: Client)
    requires Moves(w, step, v) && Settled(w, client) && (forall id :: id in w.sys.calls ==> CallOk(w, id))
    ensures ClientOk(v, client) && forall id :: id in w.sys.calls ==> SentOk(v, client, id)
  {
    HoldingKept(w, step, v, client);
    AcquiringKept(w, step, v, client);
    RenewingKept(w, step, v, client);
    forall id | id in client.runner.fenced ensures FencedOk(v, client.runner.lease.current.value, id) {
      assert FencedOk(w, client.runner.lease.current.value, id);
      FencedKept(w, step, v, client, id);
    }
    forall id | id in w.sys.calls ensures SentOk(v, client, id) { SentKept(w, step, v, client, id); }
  }

  /** A call that was not there before is the one the step makes. */
  lemma NewCall(s: P.System, step: P.Step, id: nat)
    requires P.Enabled(s, step) && id in P.Take(s, step).calls && id !in s.calls
    ensures P.Take(s, step).calls[id] == match step
      case StartAcquire(_, key, owner, now, expiresAt) => (key, P.AboutToRead(owner, now, expiresAt))
      case StartRenew(_, key, owner, token, now, expiresAt) =>
        (key, P.Sent(P.ForRenew, owner, token, RenewCommand(owner, token, now, expiresAt)))
      case StartRelease(_, key, owner, token, now) =>
        (key, P.Sent(P.ForRelease, owner, token, ReleaseCommand(owner, token, now)))
      case _ => P.Take(s, step).calls[id]
    ensures (step.StartAcquire? || step.StartRenew? || step.StartRelease?) && step.id == id
  {
  }

  /** What the step's own client, as it was, contributes to a step that makes a call. */
  lemma CallMade(w: World, step: Step, id: nat)
    requires Enabled(w, step) && ProtocolStep(w, step).Some? && id in P.Take(w.sys, ProtocolStep(w, step).value).calls
    requires id !in w.sys.calls
    ensures step.BeginTick? || step.TimerFires? || step.Drained?
    ensures step.c in w.clients && step.id == id
  {
    NewCall(w.sys, ProtocolStep(w, step).value, id);
  }

  lemma SpectatorSettled(w: World, step: Step, c: nat)
    requires Inv(w) && Enabled(w, step) && c in w.clients
    requires RunnerStep(w, step).Some? ==> RunnerStep(w, step).value.0 != c
    ensures Settled(Take(w, step), w.clients[c])
  {
    var v := Take(w, step);
    TakeMoves(w, step);
    SystemKeepsClient(w, ProtocolStep(w, step), v, w.clients[c]);
    forall id | id in v.sys.calls ensures SentOk(v, w.clients[c], id) {
      if id !in w.sys.calls {
        CallMade(w, step, id);
        NewCall(w.sys, ProtocolStep(w, step).value, id);
        assert ClientOk(w, w.clients[step.c]);
      }
    }
  }

  /** Before its own move, the actor is settled in the new system but for the call it has just made. */
  lemma ActorBefore(w: World, step: Step, v: World, c: nat)
    requires Inv(w) && Enabled(w, step) && c in w.clients && v == Take(w, step)
    ensures Ready(w, step, v, w.clients[c])
  {
    TakeMoves(w, step);
    SystemKeepsClient(w, ProtocolStep(w, step), v, w.clients[c]);
    forall id | id in v.sys.calls
      ensures SentOk(v, w.clients[c], id) || ((step.TimerFires? || step.Drained?) && step.id == id)
    {
      if id !in w.sys.calls {
        CallMade(w, step, id);
        NewCall(w.sys, ProtocolStep(w, step).value, id);
      }
    }
  }

  /** What ActorBefore concludes. */
  ghost predicate Ready(w: World, step: Step, v: World, client: Client) {
    && ClientOk(v, client)
    && forall id :: id in v.sys.calls ==>
      SentOk(v, client, id) || ((step.TimerFires? || step.Drained?) && step.id == id)
  }

  lemma ReadyIsSettled(w: World, step: Step, v: World, client: Client)
    requires Ready(w, step, v, client) && !step.TimerFires? && !step.Drained?
    ensures Settled(v, client) && R.Inv(client.runner)
  {
  }

  lemma TickActorSettled(w: World, step: Step, v: World)
    requires Enabled(w, step) && v == Take(w, step)
    requires step.Local? || step.BeginTick? || step.AcquireAnswered? || step.AcquireFails?
    requires Ready(w, step, v, w.clients[step.c])
    ensures Settled(v, v.clients[step.c])
  {
    hide Ready, Settled;
    var client := w.clients[step.c];
    ReadyIsSettled(w, step, v, client);
    match step
    case Local(_, local) => LocalStepSettles(v, client, local);
    case BeginTick(_, tick, id) =>
      R.StepKeepsInv(client.runner, R.RunTick(tick));
      BeginTickSettles(v, client, tick, id, w.clock);
    case AcquireAnswered(_, tick) => AcquireSettles(v, client, tick, RunnerStep(w, step).value.1.lease);
    case AcquireFails(_, tick) => AcquireSettles(v, client, tick, None);
  }

  lemma TimerActorSettled(w: World, step: Step, v: World)
    requires Enabled(w, step) && v == Take(w, step) && step.TimerFires? && Ready(w, step, v, w.clients[step.c])
    ensures Settled(v, v.clients[step.c])
  {
    assert SettledExcept(v, w.clients[step.c], step.id);
    TimerSettles(v, w.clients[step.c], step.id, v.sys.calls[step.id].1.command);
  }

  lemma RenewActorSettled(w: World, step: Step, v: World)
    requires Enabled(w, step) && v == Take(w, step) && (step.RenewAnswered? || step.RenewFails?)
    requires Ready(w, step, v, w.clients[step.c])
    ensures Settled(v, v.clients[step.c])
  {
    RenewSettles(v, w.clients[step.c], RunnerStep(w, step).value.1.lease);
  }

  lemma DrainActorSettled(w: World, step: Step, v: World)
    requires Enabled(w, step) && v == Take(w, step) && step.Drained? && Ready(w, step, v, w.clients[step.c])
    ensures Settled(v, v.clients[step.c])
  {
    DrainSettles(v, w.clients[step.c], step.tick, step.id);
  }

  lemma RequestActorSettled(w: World, step: Step, v: World)
    requires Enabled(w, step) && v == Take(w, step) && step.RequestFenced? && Ready(w, step, v, w.clients[step.c])
    ensures Settled(v, v.clients[step.c])
  {
    RequestSettles(v, w.clients[step.c], step.id, step.tick);
  }

  lemma CallbackActorSettled(w: World, step: Step, v: World)
    requires Enabled(w, step) && v == Take(w, step) && step.FencedCallback? && Ready(w, step, v, w.clients[step.c])
    ensures Settled(v, v.clients[step.c])
  {
    CallbackSettles(v, w.clients[step.c], step.id, RunnerStep(w, step).value.1.updated);
  }

  lemma SettleActorSettled(w: World, step: Step, v: World)
    requires Enabled(w, step) && v == Take(w, step) && step.FencedSettles? && Ready(w, step, v, w.clients[step.c])
    ensures Settled(v, v.clients[step.c])
  {
    FencedSettlesSettles(v, w.clients[step.c], step.id, step.leaseLost);
  }

  lemma MovedCallOk(w: World, step: P.Step, v: World)
    requires Moves(w, Some(step), v) && (step.Read? || step.Deliver? || step.Return?) && CallOk(w, step.id)
    ensures CallOk(v, step.id)
  {
  }

  lemma MadeCallOk(w: World, step: Step, v: World, id: nat)
    requires Enabled(w, step) && v == Take(w, step) && id in v.sys.calls && id !in w.sys.calls
    requires 0 < w.ttl && (w.key in w.sys.docs ==> w.sys.docs[w.key].leaseExpiresAt <= w.clock + w.ttl)
    requires RunnerStep(w, step).Some? ==> HoldingOk(w, w.clients[RunnerStep(w, step).value.0])
    ensures CallOk(v, id)
  {
    CallMade(w, step, id);
    NewCall(w.sys, ProtocolStep(w, step).value, id);
  }

  lemma CallsKept(w: World, step: Step, v: World, id: nat)
    requires Inv(w) && Enabled(w, step) && v == Take(w, step) && id in v.sys.calls
    ensures CallOk(v, id)
  {
    if id !in w.sys.calls {
      if RunnerStep(w, step).Some? { assert ClientOk(w, w.clients[RunnerStep(w, step).value.0]); }
      MadeCallOk(w, step, v, id);
    } else {
      TakeMoves(w, step);
      assert CallOk(w, id);
      OldOrMovedCallOk(w, ProtocolStep(w, step), v, id);
    }
  }

  lemma OldOrMovedCallOk(w: World, step: Option<P.Step>, v: World, id: nat)
    requires Moves(w, step, v) && id in w.sys.calls && id in v.sys.calls && CallOk(w, id)
    requires forall j :: !SameRenewal(w.sys.calls, id, j)
    ensures CallOk(v, id)
  {
    if step.Some? && (step.value.Read? || step.value.Deliver? || step.value.Return?) && step.value.id == id {
      MovedCallOk(w, step.value, v);
    } else {
      OldCallKept(w, step, v, id);
    }
  }

  /** While a renewal timer is pending no renewal for the token is under way, not even a forgotten one. */
  lemma TimerHasNoRival(w: World, client: Client, id: nat)
    requires R.LeaseOk(client.runner) && RenewingOk(w, client) && client.runner.lease.timer
    requires client.runner.lease.current.Some?
    requires id in w.sys.calls && SentOk(w, client, id)
    ensures var call, lease := w.sys.calls[id].1, client.runner.lease.current.value;
      !(call.Sent? && call.purpose == P.ForRenew && call.owner == lease.ownerToken && call.token == lease.fencingToken)
  {
  }

  lemma RenewalsStayUnique(w: World, step: Step, v: World, i: nat, j: nat)
    requires Enabled(w, step) && Moves(w, ProtocolStep(w, step), v) && !SameRenewal(w.sys.calls, i, j)
    requires step.TimerFires? ==> Settled(w, w.clients[step.c])
    ensures !SameRenewal(v.sys.calls, i, j)
  {
    if step.TimerFires? {
      var client := w.clients[step.c];
      forall k | k in w.sys.calls ensures var call, lease := w.sys.calls[k].1, client.runner.lease.current.value;
        !(call.Sent? && call.purpose == P.ForRenew
          && call.owner == lease.ownerToken && call.token == lease.fencingToken)
      {
        TimerHasNoRival(w, client, k);
      }
    }
    UniqueRenewalKept(w, ProtocolStep(w, step), v, i, j);
  }

  lemma ActorSettled(w: World, step: Step, v: World)
    requires Inv(w) && Enabled(w, step) && v == Take(w, step) && RunnerStep(w, step).Some?
    ensures Settled(v, v.clients[step.c])
  {
    ActorBefore(w, step, v, step.c);
    match step
    case RequestFenced(_, _, _) => RequestActorSettled(w, step, v);
    case FencedCallback(_, _) => CallbackActorSettled(w, step, v);
    case FencedSettles(_, _, _) => SettleActorSettled(w, step, v);
    case TimerFires(_, _) => TimerActorSettled(w, step, v);
    case RenewAnswered(_) => RenewActorSettled(w, step, v);
    case RenewFails(_) => RenewActorSettled(w, step, v);
    case Drained(_, _, _) => DrainActorSettled(w, step, v);
    case _ => TickActorSettled(w, step, v);
  }

  lemma ClientsKept(w: World, step: Step, v: World, c: nat)
    requires Inv(w) && Enabled(w, step) && v == Take(w, step) && c in w.clients
    ensures Settled(v, v.clients[c])
  {
    hide Inv, Settled, P.Take, R.Take, ProtocolStep;
    if RunnerStep(w, step).Some? && RunnerStep(w, step).value.0 == c {
      ActorSettled(w, step, v);
    } else {
      SpectatorSettled(w, step, c);
    }
  }

  lemma SetupKept(r: R.Runner, step: R.Step)
    requires R.Enabled(r, step)
    ensures R.Take(r, step).setup == r.setup
  {
  }

  lemma SetupsKept(w: World, step: Step, v: World, c: nat)
    requires Enabled(w, step) && v == Take(w, step)
    ensures c in v.clients <==> c in w.clients
    ensures c in w.clients ==> v.clients[c].runner.setup == w.clients[c].runner.setup
  {
    if RunnerStep(w, step).Some? && RunnerStep(w, step).value.0 == c {
      SetupKept(w.clients[c].runner, RunnerStep(w, step).value.1);
    }
  }

  lemma StepKeepsInv(w: World, step: Step)
    requires Inv(w) && Enabled(w, step)
    ensures Inv(Take(w, step))
  {
    var v := Take(w, step);
    TakeMoves(w, step);
    if ProtocolStep(w, step).Some? { P.StepKeepsInv(w.sys, ProtocolStep(w, step).value); }
    ExpiryKept(w, ProtocolStep(w, step), v);
    forall id | id in v.sys.calls ensures CallOk(v, id) { CallsKept(w, step, v, id); }
    forall c | c in v.clients ensures Settled(v, v.clients[c]) {
      SetupsKept(w, step, v, c);
      ClientsKept(w, step, v, c);
    }
    forall c, d | c in v.clients && d in v.clients && c != d
      ensures v.clients[c].runner.setup.ownerToken != v.clients[d].runner.setup.ownerToken
    {
      SetupsKept(w, step, v, c);
      SetupsKept(w, step, v, d);
    }
    if step.TimerFires? { assert Settled(w, w.clients[step.c]); }
    forall i, j ensures !SameRenewal(v.sys.calls, i, j) {
      assert !SameRenewal(w.sys.calls, i, j);
      RenewalsStayUnique(w, step, v, i, j);
    }
  }

  // ----- Main result -----

  lemma InitialInv(w: World)
    requires Initial(w)
    ensures Inv(w)
  {
  }

  lemma {:induction false} RunKeepsInv(worlds: seq<World>, steps: seq<Step>, i: nat)
    requires IsRun(worlds, steps) && Initial(worlds[0]) && i < |worlds|
    ensures Inv(worlds[i])
  {
    if i == 0 {
      InitialInv(worlds[0]);
    } else {
      RunKeepsInv(worlds, steps, i - 1);
      StepKeepsInv(worlds[i - 1], steps[i - 1]);
    }
  }

  /** In every run no two runners of a job both hold a local lease copy that has not expired. */
  lemma AtMostOneLiveHolder(worlds: seq<World>, steps: seq<Step>, i: nat, c: nat, d: nat)
    requires IsRun(worlds, steps) && Initial(worlds[0]) && i < |worlds|
    requires c in worlds[i].clients && d in worlds[i].clients && HoldsLive(worlds[i], c) && HoldsLive(worlds[i], d)
    ensures c == d
  {
    RunKeepsInv(worlds, steps, i);
    LiveHoldersAgree(worlds[i], c, d);
  }

  /** A runner that is started and idle, with a fresh tick and call to use, and acceptable names and times. */
  predicate ReadyToTick(w: World, c: nat, tick: nat, id: nat) {
    && c in w.clients && id !in w.sys.calls
    && var r := w.clients[c].runner;
       && r.control.active && !r.control.stopping && !r.work.isRunning && r.work.ticks == map[] && !R.AnyDue(r)
       && R.IsFresh(r, tick)
       && ValidToken(w.key) && ValidToken(r.setup.ownerToken) && ValidDate(w.clock) && ValidDate(w.clock + w.ttl)
       && r.setup.jobKey == w.key && 0 < w.ttl
  }

  /** The state after a tick has begun. */
  lemma Begins(w: World, c: nat, tick: nat, id: nat)
    requires ReadyToTick(w, c, tick, id)
    ensures Enabled(w, BeginTick(c, tick, id))
    ensures var v, r := Take(w, BeginTick(c, tick, id)), w.clients[c].runner;
      && v.key == w.key && v.clock == w.clock && v.sys.docs == w.sys.docs && c in v.clients
      && id in v.sys.calls
      && v.sys.calls[id] == (w.key, P.AboutToRead(r.setup.ownerToken, w.clock, w.clock + w.ttl))
      && v.clients[c].acquireCall == Some(id)
      && v.clients[c].runner == r.(work := R.Work(true, Some(tick), map[tick := R.Acquiring]))
      && !R.AnyDue(v.clients[c].runner)
  {
    var r := w.clients[c].runner;
    forall s | s in r.control.stops ensures !r.control.stops[s].phase.AwaitingTick? { assert !R.IsDue(r, s); }
    var q := R.Take(r, R.RunTick(tick));
    forall s | s in q.control.stops ensures !R.IsDue(q, s) { }
  }

  /** What the database and the service do with the call, one step after the other. */
  lemma Acquires(s: P.System, id: nat, key: string, owner: string, now: int, expiresAt: int)
    returns (s1: P.System, s2: P.System, s3: P.System, lease: Lease)
    requires id in s.calls && s.calls[id] == (key, P.AboutToRead(owner, now, expiresAt)) && Free(s.docs, key, now)
    requires ValidToken(key) && ValidToken(owner) && ValidDate(expiresAt)
    ensures P.Enabled(s, P.Read(id)) && s1 == P.Take(s, P.Read(id))
    ensures P.Enabled(s1, P.Deliver(id)) && s2 == P.Take(s1, P.Deliver(id))
    ensures P.Enabled(s2, P.Return(id)) && s2.calls[id].1.purpose == P.ForAcquire && s3 == P.Take(s2, P.Return(id))
    ensures id in s3.calls && s3.calls[id] == (key, P.AcquireReturned(Acquired(lease)))
    ensures AcquiredFrom(s.docs, s3.docs, key, owner, expiresAt, now, lease)
  {
    s1 := P.Take(s, P.Read(id));
    s2 := P.Take(s1, P.Deliver(id));
    s3 := P.Take(s2, P.Return(id));
    lease := NormalizeLease(key, Some(s3.docs[key])).value;
  }

  lemma NetworkTakes(w: World, step: P.Step)
    requires P.Enabled(w.sys, step) && IsNetworkStep(w, step)
    ensures Enabled(w, Network(step)) && Take(w, Network(step)) == w.(sys := P.Take(w.sys, step))
  {
  }

  lemma AnswerTakes(w: World, c: nat, tick: nat, id: nat, lease: Lease)
    requires c in w.clients && w.clients[c].acquireCall == Some(id) && id in w.sys.calls
    requires w.sys.calls[id].1 == P.AcquireReturned(Acquired(lease))
    requires var r := w.clients[c].runner;
      !R.AnyDue(r) && R.IsPhase(r, tick, R.Acquiring) && r.work.activeTick == Some(tick)
      && R.IsOwnLive(r, Some(lease), w.clock)
    ensures Enabled(w, AcquireAnswered(c, tick))
    ensures var v := Take(w, AcquireAnswered(c, tick));
      && v.sys == w.sys && v.clock == w.clock && v.key == w.key && c in v.clients
      && v.clients[c].runner.lease.current == Some(lease) && R.RunsUnharmed(v.clients[c].runner, tick)
      && v.clients[c].runner.lease.timer
  {
  }

  /** Exclusion is not bought with idleness: wherever the stored lease is free, a started, idle runner can begin a
      tick and, once its call has been read, written and answered, runs its job as the live holder of the
      stored lease, under a token greater by one than any before. */
  lemma FreeLeaseCanBeTaken(w: World, c: nat, tick: nat, id: nat) returns (worlds: seq<World>, steps: seq<Step>)
    requires ReadyToTick(w, c, tick, id) && Free(w.sys.docs, w.key, w.clock)
    ensures steps == [BeginTick(c, tick, id), Network(P.Read(id)), Network(P.Deliver(id)), Network(P.Return(id)),
                      AcquireAnswered(c, tick)]
    ensures IsRun(worlds, steps) && worlds[0] == w
    ensures var v := worlds[5];
      && c in v.clients && HoldsLive(v, c) && R.RunsUnharmed(v.clients[c].runner, tick)
      && v.clients[c].runner.lease.timer
      && AcquiredFrom(w.sys.docs, v.sys.docs, w.key, w.clients[c].runner.setup.ownerToken, w.clock + w.ttl, w.clock,
                      v.clients[c].runner.lease.current.value)
  {
    hide Enabled, Take, P.Enabled, P.Take, R.Take, Free, R.AnyDue, AcquiredFrom;
    Begins(w, c, tick, id);
    var w1 := Take(w, BeginTick(c, tick, id));
    var owner := w.clients[c].runner.setup.ownerToken;
    var s1, s2, s3, lease := Acquires(w1.sys, id, w.key, owner, w.clock, w.clock + w.ttl);
    NetworkTakes(w1, P.Read(id));
    var w2 := Take(w1, Network(P.Read(id)));
    NetworkTakes(w2, P.Deliver(id));
    var w3 := Take(w2, Network(P.Deliver(id)));
    NetworkTakes(w3, P.Return(id));
    var w4 := Take(w3, Network(P.Return(id)));
    AcquiredIsLive(w.sys.docs, s3.docs, w, c, lease);
    AnswerTakes(w4, c, tick, id, lease);
    var w5 := Take(w4, AcquireAnswered(c, tick));
    worlds := [w, w1, w2, w3, w4, w5];
    steps := [BeginTick(c, tick, id), Network(P.Read(id)), Network(P.Deliver(id)), Network(P.Return(id)),
              AcquireAnswered(c, tick)];
  }

  /** A lease whose holder stays silent changes hands: once the clock has reached its expiry, an idle runner can
      take it as above. */
  lemma ExpiredLeaseChangesHands(w: World, c: nat, tick: nat, id: nat) returns (worlds: seq<World>, steps: seq<Step>)
    requires w.key in w.sys.docs && NormalizeLease(w.key, Some(w.sys.docs[w.key])).Some?
    requires w.clock <= w.sys.docs[w.key].leaseExpiresAt && w.sys.docs[w.key].fencingToken < MAX_SAFE_INTEGER
    requires ReadyToTick(w.(clock := w.sys.docs[w.key].leaseExpiresAt), c, tick, id)
    ensures IsRun(worlds, steps) && worlds[0] == w && |steps| == 6
    ensures steps[0] == ClockAdvances(w.sys.docs[w.key].leaseExpiresAt)
    ensures c in worlds[6].clients && HoldsLive(worlds[6], c)
    ensures worlds[6].clients[c].runner.lease.current.value.fencingToken == w.sys.docs[w.key].fencingToken + 1
  {
    var later := w.(clock := w.sys.docs[w.key].leaseExpiresAt);
    var rest, more := FreeLeaseCanBeTaken(later, c, tick, id);
    worlds, steps := [w] + rest, [ClockAdvances(later.clock)] + more;
    assert Take(w, steps[0]) == later;
    hide Take, Enabled;
    forall i | 0 <= i < |steps| ensures Enabled(worlds[i], steps[i]) && worlds[i + 1] == Take(worlds[i], steps[i]) {
      if i > 0 { assert worlds[i] == rest[i - 1] && steps[i] == more[i - 1] && worlds[i + 1] == rest[i]; }
    }
  }

  /** A running job with the timer of its renewal set, over the stored lease it holds. */
  predicate ReadyToRenew(w: World, c: nat, tick: nat, id: nat) {
    && c in w.clients && id !in w.sys.calls && w.key in w.sys.docs
    && var r, doc := w.clients[c].runner, w.sys.docs[w.key];
       && R.RunsUnharmed(r, tick) && r.lease.active && r.lease.timer && !R.AnyDue(r) && r.lease.current.Some?
       && r.lease.current.value.ownerToken == doc.ownerToken == r.setup.ownerToken
       && r.lease.current.value.fencingToken == doc.fencingToken && w.clock < doc.leaseExpiresAt
       && NormalizeLease(w.key, Some(doc)).Some? && ValidDate(w.clock) && ValidDate(w.clock + w.ttl)
       && r.setup.jobKey == w.key && 0 < w.ttl
  }

  lemma TimerTakes(w: World, c: nat, tick: nat, id: nat)
    requires ReadyToRenew(w, c, tick, id)
    ensures Enabled(w, TimerFires(c, id))
    ensures var v, r, doc := Take(w, TimerFires(c, id)), w.clients[c].runner, w.sys.docs[w.key];
      var q := v.clients[c].runner;
      && v.key == w.key && v.clock == w.clock && v.ttl == w.ttl && v.sys.docs == w.sys.docs && c in v.clients
      && v.clients[c].renewCall == Some(id) && id in v.sys.calls
      && v.sys.calls[id] == (w.key, P.Sent(P.ForRenew, doc.ownerToken, doc.fencingToken,
           RenewCommand(doc.ownerToken, doc.fencingToken, w.clock, w.clock + w.ttl)))
      && q == r.(lease := r.lease.(timer := false, renewal := true)) && !R.AnyDue(q)
  {
    var r := w.clients[c].runner;
    forall s | s in r.control.stops ensures !R.IsDue(R.TakeTimerFires(r), s) { assert !R.IsDue(r, s); }
  }

  lemma RenewalTakes(w: World, c: nat, tick: nat, id: nat)
    requires c in w.clients && w.clients[c].renewCall == Some(id) && id in w.sys.calls && w.sys.calls[id].1.Answered?
    requires var r, call := w.clients[c].runner, w.sys.calls[id].1;
      && r.lease.renewal && r.lease.active && R.RunsUnharmed(r, tick) && !R.AnyDue(r)
      && R.IsOwnLive(r, FinishUpdate(w.key, call.owner, call.token, call.reply), w.clock)
    ensures Enabled(w, RenewAnswered(c))
    ensures var v, call := Take(w, RenewAnswered(c)), w.sys.calls[id].1;
      && v.sys == w.sys && v.clock == w.clock && v.key == w.key && c in v.clients
      && v.clients[c].runner.lease.current == FinishUpdate(w.key, call.owner, call.token, call.reply)
      && R.RunsUnharmed(v.clients[c].runner, tick) && v.clients[c].runner.lease.timer
  {
  }

  lemma Renews(s: P.System, id: nat, key: string, owner: string, token: int, now: int, expiresAt: int)
    returns (s1: P.System)
    requires id in s.calls
    requires s.calls[id] == (key, P.Sent(P.ForRenew, owner, token, RenewCommand(owner, token, now, expiresAt)))
    requires key in s.docs && s.docs[key].ownerToken == owner && s.docs[key].fencingToken == token
    requires now < s.docs[key].leaseExpiresAt && NormalizeLease(key, Some(s.docs[key])).Some? && ValidDate(expiresAt)
    ensures P.Enabled(s, P.Deliver(id)) && s1 == P.Take(s, P.Deliver(id))
    ensures s1.docs == s.docs[key := s.docs[key].(leaseExpiresAt := expiresAt)]
    ensures id in s1.calls && s1.calls[id].1.Answered? && s1.calls[id].1.owner == owner && s1.calls[id].1.token == token
    ensures FinishUpdate(key, owner, token, s1.calls[id].1.reply) ==
      Some(Lease(key, owner, expiresAt, token, SequenceOf(s.docs[key])))
  {
    s1 := P.Take(s, P.Deliver(id));
  }

  /** And a holder can keep it: when the timer of its renewal fires, and the call is written and answered, the job
      goes on with the stored lease, good for another ttl from then, and the next timer set. */
  lemma HeldLeaseCanBeRenewed(w: World, c: nat, tick: nat, id: nat) returns (worlds: seq<World>, steps: seq<Step>)
    requires ReadyToRenew(w, c, tick, id)
    ensures steps == [TimerFires(c, id), Network(P.Deliver(id)), RenewAnswered(c)]
    ensures IsRun(worlds, steps) && worlds[0] == w
    ensures var v, doc := worlds[3], w.sys.docs[w.key];
      && v.sys.docs == w.sys.docs[w.key := doc.(leaseExpiresAt := w.clock + w.ttl)]
      && c in v.clients && R.RunsUnharmed(v.clients[c].runner, tick) && v.clients[c].runner.lease.timer
      && v.clients[c].runner.lease.current ==
           Some(Lease(w.key, doc.ownerToken, w.clock + w.ttl, doc.fencingToken, SequenceOf(doc)))
  {
    hide Enabled, Take, P.Enabled, P.Take, R.Take, R.AnyDue, FinishUpdate, RenewCommand;
    var doc := w.sys.docs[w.key];
    TimerTakes(w, c, tick, id);
    var w1 := Take(w, TimerFires(c, id));
    var s1 := Renews(w1.sys, id, w.key, doc.ownerToken, doc.fencingToken, w.clock, w.clock + w.ttl);
    NetworkTakes(w1, P.Deliver(id));
    var w2 := Take(w1, Network(P.Deliver(id)));
    RenewalTakes(w2, c, tick, id);
    var w3 := Take(w2, RenewAnswered(c));
    worlds, steps := [w, w1, w2, w3], [TimerFires(c, id), Network(P.Deliver(id)), RenewAnswered(c)];
  }

  lemma DrainTakes(w: World, c: nat, tick: nat, id: nat)
    requires c in w.clients && id !in w.sys.calls && w.clients[c].runner.lease.current.Some?
    requires var r := w.clients[c].runner;
      R.IsPhase(r, tick, R.Draining) && !r.lease.renewal && !R.AnyDue(r)
    ensures Enabled(w, Drained(c, tick, id))
    ensures var v, lease := Take(w, Drained(c, tick, id)), w.clients[c].runner.lease.current.value;
      && v.key == w.key && v.clock == w.clock && v.sys.docs == w.sys.docs && c in v.clients
      && v.clients[c].runner.lease.current.None? && id in v.sys.calls
      && v.sys.calls[id] == (w.key, P.Sent(P.ForRelease, lease.ownerToken, lease.fencingToken,
           ReleaseCommand(lease.ownerToken, lease.fencingToken, w.clock)))
  {
  }

  lemma Releases(s: P.System, id: nat, key: string, now: int)
    requires id in s.calls && key in s.docs && s.calls[id].0 == key
    requires s.calls[id].1 == P.Sent(P.ForRelease, s.docs[key].ownerToken, s.docs[key].fencingToken,
      ReleaseCommand(s.docs[key].ownerToken, s.docs[key].fencingToken, now))
    requires NormalizeLease(key, Some(s.docs[key])).Some? && s.docs[key].fencingToken < MAX_SAFE_INTEGER
    requires ValidDate(now)
    ensures P.Enabled(s, P.Deliver(id))
    ensures var t := P.Take(s, P.Deliver(id));
      t.docs == s.docs[key := s.docs[key].(leaseExpiresAt := now)] && Free(t.docs, key, now)
  {
  }

  /** And it gives it back: once a tick has drained and its release is written, the lease is free for all. */
  lemma ReleaseFreesTheLease(w: World, c: nat, tick: nat, id: nat) returns (worlds: seq<World>, steps: seq<Step>)
    requires c in w.clients && id !in w.sys.calls && w.key in w.sys.docs
    requires var r, doc := w.clients[c].runner, w.sys.docs[w.key];
      && R.IsPhase(r, tick, R.Draining) && !r.lease.renewal && !R.AnyDue(r) && r.lease.current.Some?
      && r.lease.current.value.ownerToken == doc.ownerToken && r.lease.current.value.fencingToken == doc.fencingToken
      && NormalizeLease(w.key, Some(doc)).Some? && doc.fencingToken < MAX_SAFE_INTEGER && ValidDate(w.clock)
    ensures steps == [Drained(c, tick, id), Network(P.Deliver(id))] && IsRun(worlds, steps) && worlds[0] == w
    ensures worlds[2].sys.docs == w.sys.docs[w.key := w.sys.docs[w.key].(leaseExpiresAt := w.clock)]
    ensures Free(worlds[2].sys.docs, w.key, w.clock)
    ensures c in worlds[2].clients && worlds[2].clients[c].runner.lease.current.None?
  {
    hide P.Take, P.Enabled, R.Take, R.AnyDue, Enabled, Take;
    DrainTakes(w, c, tick, id);
    var w1 := Take(w, Drained(c, tick, id));
    Releases(w1.sys, id, w.key, w.clock);
    NetworkTakes(w1, P.Deliver(id));
    var w2 := Take(w1, Network(P.Deliver(id)));
    worlds, steps := [w, w1, w2], [Drained(c, tick, id), Network(P.Deliver(id))];
  }

  lemma AcquiredIsLive(before: Leases, after: Leases, w: World, c: nat, lease: Lease)
    requires c in w.clients && before == w.sys.docs && Free(before, w.key, w.clock)
    requires var r := w.clients[c].runner;
      && AcquiredFrom(before, after, w.key, r.setup.ownerToken, w.clock + w.ttl, w.clock, lease)
      && ValidDate(w.clock) && ValidDate(w.clock + w.ttl) && r.setup.jobKey == w.key && 0 < w.ttl
    ensures R.IsOwnLive(w.clients[c].runner, Some(lease), w.clock)
  {
  }

  /** And a live copy always names the stored owner and token, so its fenced writes can still commit. */
  lemma LiveHolderIsStoredOwner(worlds: seq<World>, steps: seq<Step>, i: nat, c: nat)
    requires IsRun(worlds, steps) && Initial(worlds[0]) && i < |worlds|
    requires c in worlds[i].clients && HoldsLive(worlds[i], c)
    ensures var w := worlds[i]; var lease := w.clients[c].runner.lease.current.value;
      && w.key in w.sys.docs && w.sys.docs[w.key].ownerToken == lease.ownerToken
      && w.sys.docs[w.key].fencingToken == lease.fencingToken
      && lease.leaseExpiresAt <= w.sys.docs[w.key].leaseExpiresAt
  {
    RunKeepsInv(worlds, steps, i);
    assert ClientOk(worlds[i], worlds[i].clients[c]);
  }
}
