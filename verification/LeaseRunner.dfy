/** backend/src/services/cronLeaseRunner.js and schedulerLeaseRunner.js: one runner, cut at every
    await. Each step below is the code that runs, uninterrupted, between two awaits; whatever is
    awaited (the lease service, the job, timers) may answer anything at any time. Jobs may go on using
    their context after they have ended; what needs them not to says so with `Awaits`. */
module LeaseRunner {
  import opened Wrappers
  import opened SchedulerLeaseService

  /** The two runners differ in how they start and stop. */
  datatype Variant = Cron | Interval

  datatype Tick = Acquiring | Running | Draining | Releasing

  datatype StopPhase = StoppingTask | AwaitingTick(tick: nat) | AwaitingRenewal

  datatype Stop = Stop(phase: StopPhase, task: nat)

  datatype LeaseState = LeaseState(
    active: bool,
    current: Option<Lease>,
    timer: bool,
    renewal: bool,
    controller: Option<nat>,
    lostError: bool)

  const NOOP_LEASE := LeaseState(false, None, false, false, None, false)

  datatype Setup = Setup(variant: Variant, jobKey: string, ownerToken: string)

  /** The start and stop fields of `state`, and the calls of stop in progress. */
  datatype Control =
    Control(active: bool, stopping: bool, task: Option<nat>, stopPromise: Option<nat>, stops: map<nat, Stop>)

  /** The tick fields of `state`, and the calls of runTick in progress. */
  datatype Work = Work(isRunning: bool, activeTick: Option<nat>, ticks: map<nat, Tick>)

  /** The runner's `state`, the ticks whose signal is aborted, and the fenced writes in progress by the
      tick that awaits them. */
  datatype Runner =
    Runner(setup: Setup, control: Control, work: Work, lease: LeaseState, aborted: set<nat>, fenced: map<nat, nat>)

  function Idle(setup: Setup): Runner {
    Runner(setup, Control(false, false, None, None, map[]), Work(false, None, map[]), NOOP_LEASE, {}, map[])
  }

  predicate IsValidAcquiredLease(r: Runner, lease: Lease, now: int) {
    && ValidDate(now)
    && lease.jobKey == r.setup.jobKey && lease.ownerToken == r.setup.ownerToken
    && PositiveSafe(lease.fencingToken) && ValidDate(lease.leaseExpiresAt)
    && lease.leaseExpiresAt > now
  }

  // ----- The helpers every step is made of -----

  function AbortLease(r: Runner): Runner {
    r.(lease := r.lease.(lostError := true, active := false, timer := false),
       aborted := r.aborted + (if r.lease.controller.Some? then {r.lease.controller.value} else {}))
  }

  /** The part of stopRenewalLoop before it awaits a renewal in flight. */
  function StopRenewals(r: Runner): Runner {
    r.(lease := r.lease.(active := false, timer := false))
  }

  function ScheduleRenewal(r: Runner): Runner {
    if !r.lease.active || r.lease.current.None? then r else r.(lease := r.lease.(timer := true))
  }

  function EndTick(r: Runner, tick: nat): Runner {
    r.(work := Work(false, None, r.work.ticks - {tick}))
  }

  function WithTick(r: Runner, tick: nat, phase: Tick): Runner {
    r.(work := r.work.(ticks := r.work.ticks[tick := phase]))
  }

  function WithStop(r: Runner, id: nat, stop: Stop): Runner {
    r.(control := r.control.(stops := r.control.stops[id := stop]))
  }

  /** What stop does once its timer no longer fires. */
  function AwaitWork(r: Runner, id: nat, task: nat): Runner {
    match r.work.activeTick
    case Some(tick) => WithStop(r, id, Stop(AwaitingTick(tick), task))
    case None => WithStop(StopRenewals(r), id, Stop(AwaitingRenewal, task))
  }

  // ----- Steps -----

  datatype Step =
    | Start(task: nat)
    | CallStop(id: nat)
    | TaskStopped(id: nat)
    | StopSettles(id: nat)
    | RunTick(tick: nat)
    | AcquireReturns(tick: nat, lease: Option<Lease>, now: int)
    | TimerFires
    | RenewReturns(lease: Option<Lease>, now: int)
    | OwnershipCheckFails(tick: nat)
    | RequestFenced(id: nat, tick: nat)
    | FencedCallback(id: nat, updated: Lease, now: int)
    | FencedSettles(id: nat, leaseLost: bool)
    | JobEnds(tick: nat)
    | Drained(tick: nat)
    | ReleaseReturns(tick: nat)

  predicate AwaitIsOver(r: Runner, phase: StopPhase) {
    match phase
    case StoppingTask => false
    case AwaitingTick(tick) => tick !in r.work.ticks
    case AwaitingRenewal => !r.lease.renewal
  }

  /** The stop awaits a tick that is over. */
  predicate IsDue(r: Runner, id: nat) {
    id in r.control.stops && r.control.stops[id].phase.AwaitingTick? && AwaitIsOver(r, r.control.stops[id].phase)
  }

  /** Both the tick itself and the stops that await it react to the end of its promise, the tick first,
      in reactions queued one after the other: nothing else runs until the last of them has. */
  predicate AnyDue(r: Runner) { exists id :: id in r.control.stops && IsDue(r, id) }

  predicate IsPhase(r: Runner, tick: nat, phase: Tick) { tick in r.work.ticks && r.work.ticks[tick] == phase }

  /** The tick is new: no call, signal or write belongs to it. */
  predicate IsFresh(r: Runner, tick: nat) {
    && tick !in r.work.ticks && tick !in r.aborted && r.lease.controller != Some(tick)
    && forall id :: id in r.fenced ==> r.fenced[id] != tick
  }

  predicate Enabled(r: Runner, step: Step) {
    && (AnyDue(r) ==> step.StopSettles? && IsDue(r, step.id))
    && match step
       case Start(_) => true
       case CallStop(id) => id !in r.control.stops
       case TaskStopped(id) => id in r.control.stops && r.control.stops[id].phase == StoppingTask
       case StopSettles(id) => id in r.control.stops && AwaitIsOver(r, r.control.stops[id].phase)
       case RunTick(tick) => IsFresh(r, tick)
       case AcquireReturns(tick, _, _) => IsPhase(r, tick, Acquiring)
       case TimerFires => r.lease.timer
       case RenewReturns(_, _) => r.lease.renewal
       case OwnershipCheckFails(tick) => !IsPhase(r, tick, Acquiring)
       case RequestFenced(id, tick) => id !in r.fenced && !IsPhase(r, tick, Acquiring)
       case FencedCallback(id, _, _) => id in r.fenced
       case FencedSettles(id, _) => id in r.fenced
       case JobEnds(tick) => IsPhase(r, tick, Running)
       case Drained(tick) => IsPhase(r, tick, Draining) && !r.lease.renewal
       case ReleaseReturns(tick) => IsPhase(r, tick, Releasing)
  }

  predicate NoneOutstanding(r: Runner, tick: nat) { forall id :: id in r.fenced ==> r.fenced[id] != tick }

  /** The job awaits what it starts: it ends with no fenced write outstanding, and uses its context only
      while it runs. */
  predicate Awaits(r: Runner, step: Step) {
    match step
    case JobEnds(tick) => NoneOutstanding(r, tick)
    case OwnershipCheckFails(tick) => IsPhase(r, tick, Running)
    case RequestFenced(_, tick) => IsPhase(r, tick, Running)
    case _ => true
  }

  function TakeStart(r: Runner, task: nat): Runner {
    if r.control.task.Some? then r
    else
      var stopPromise := match r.setup.variant case Cron => r.control.stopPromise case Interval => None;
      r.(control := r.control.(active := true, stopping := false, task := Some(task), stopPromise := stopPromise))
  }

  function TakeCallStop(r: Runner, id: nat): Runner {
    if r.control.stopPromise.Some? || r.control.task.None? then r
    else
      var task := r.control.task.value;
      var stopping := r.control.(stopping := true, active := false, stopPromise := Some(id));
      match r.setup.variant
      case Cron => WithStop(r.(control := stopping), id, Stop(StoppingTask, task))
      case Interval => AwaitWork(r.(control := stopping.(task := None)), id, task)
  }

  function TakeStopSettles(r: Runner, id: nat): Runner
    requires id in r.control.stops
  {
    var stops := r.control.stops - {id};
    var guarded := r.control.task == Some(r.control.stops[id].task) && r.control.stopPromise == Some(id);
    if r.setup.variant.Cron? && !guarded then r.(control := r.control.(stops := stops))
    else
      // The interval runner has already forgotten its task; it does not check that this is still its stop.
      var task := if r.setup.variant.Cron? then None else r.control.task;
      r.(work := r.work.(isRunning := false), control := Control(r.control.active, false, task, None, stops))
  }

  function TakeRunTick(r: Runner, tick: nat): Runner {
    if !r.control.active || r.control.stopping || r.work.isRunning then r
    else r.(work := Work(true, Some(tick), r.work.ticks[tick := Acquiring]))
  }

  function TakeAcquireReturns(r: Runner, tick: nat, lease: Option<Lease>, now: int): Runner {
    if lease.None? || !IsValidAcquiredLease(r, lease.value, now) then EndTick(r, tick)
    else
      ScheduleRenewal(WithTick(r, tick, Running).(
        lease := r.lease.(active := true, current := lease, controller := Some(tick), lostError := false)))
  }

  function TakeTimerFires(r: Runner): Runner {
    r.(lease := r.lease.(timer := false, renewal := true))
  }

  function TakeRenewReturns(r: Runner, lease: Option<Lease>, now: int): Runner {
    var answered :=
      if lease.None? || !IsValidAcquiredLease(r, lease.value, now) then AbortLease(r)
      else ScheduleRenewal(r.(lease := r.lease.(current := lease)));
    answered.(lease := answered.lease.(renewal := false))
  }

  function TakeRequestFenced(r: Runner, id: nat, tick: nat): Runner {
    if tick in r.aborted then r else r.(fenced := r.fenced[id := tick])
  }

  /** The wrapper around the job's write; the job's own write starts only if WriteStarts. */
  function TakeFencedCallback(r: Runner, lease: Lease, now: int): Runner {
    if !IsValidAcquiredLease(r, lease, now) then AbortLease(r)
    else r.(lease := r.lease.(current := Some(lease)))
  }

  predicate WriteStarts(r: Runner, id: nat, lease: Lease, now: int)
    requires id in r.fenced
  {
    IsValidAcquiredLease(r, lease, now) && r.fenced[id] !in r.aborted
  }

  function TakeFencedSettles(r: Runner, id: nat, leaseLost: bool): Runner {
    var settled := if leaseLost then AbortLease(r) else r;
    settled.(fenced := r.fenced - {id})
  }

  function TakeJobEnds(r: Runner, tick: nat): Runner {
    WithTick(StopRenewals(r), tick, Draining)
  }

  function TakeDrained(r: Runner, tick: nat): Runner {
    WithTick(r.(lease := r.lease.(current := None)), tick, Releasing)
  }

  function Take(r: Runner, step: Step): Runner
    requires Enabled(r, step)
  {
    match step
    case Start(task) => TakeStart(r, task)
    case CallStop(id) => TakeCallStop(r, id)
    case TaskStopped(id) => AwaitWork(r, id, r.control.stops[id].task)
    case StopSettles(id) => TakeStopSettles(r, id)
    case RunTick(tick) => TakeRunTick(r, tick)
    case AcquireReturns(tick, lease, now) => TakeAcquireReturns(r, tick, lease, now)
    case TimerFires => TakeTimerFires(r)
    case RenewReturns(lease, now) => TakeRenewReturns(r, lease, now)
    case OwnershipCheckFails(_) => AbortLease(r)
    case RequestFenced(id, tick) => TakeRequestFenced(r, id, tick)
    case FencedCallback(_, lease, now) => TakeFencedCallback(r, lease, now)
    case FencedSettles(id, leaseLost) => TakeFencedSettles(r, id, leaseLost)
    case JobEnds(tick) => TakeJobEnds(r, tick)
    case Drained(tick) => TakeDrained(r, tick)
    case ReleaseReturns(tick) => EndTick(r, tick)
  }

  // ----- What every step keeps -----

  predicate HoldsLease(r: Runner) {
    && r.work.activeTick.Some? && r.work.activeTick.value in r.work.ticks
    && r.work.ticks[r.work.activeTick.value] in {Running, Draining}
  }

  predicate JobRuns(r: Runner) {
    && r.work.activeTick.Some? && r.work.activeTick.value in r.work.ticks
    && r.work.ticks[r.work.activeTick.value] == Running
  }

  ghost predicate TicksOk(r: Runner) {
    && (r.work.isRunning <==> r.work.activeTick.Some?)
    && (forall t :: t in r.work.ticks <==> r.work.activeTick == Some(t))
  }

  ghost predicate LeaseOk(r: Runner) {
    && (HoldsLease(r) ==> r.lease.current.Some?)
    && (r.lease.active ==> JobRuns(r) && r.work.activeTick.value !in r.aborted)
    && (r.lease.timer ==> r.lease.active && !r.lease.renewal)
    && (r.lease.renewal ==> HoldsLease(r))
    && (JobRuns(r) && !r.lease.lostError ==> r.lease.active && (r.lease.timer || r.lease.renewal))
    && (forall t :: IsPhase(r, t, Acquiring) ==> t !in r.aborted && r.lease.controller != Some(t))
    && (HoldsLease(r) ==>
          r.lease.controller == r.work.activeTick && (r.lease.lostError <==> r.work.activeTick.value in r.aborted))
    && (r.lease.current.Some? ==>
          && r.lease.current.value.jobKey == r.setup.jobKey
          && r.lease.current.value.ownerToken == r.setup.ownerToken)
  }

  /** What awaiting adds: a lease copy only while a tick holds one, and fenced writes only of the job
      that runs. */
  ghost predicate Awaited(r: Runner) {
    && (r.lease.current.Some? ==> HoldsLease(r))
    && (forall id :: id in r.fenced ==> JobRuns(r) && r.fenced[id] == r.work.activeTick.value)
  }

  ghost predicate StopOk(r: Runner, stop: Stop) {
    && (r.setup.variant.Cron? ==> r.control.task == Some(stop.task))
    && (r.setup.variant.Interval? ==> !stop.phase.StoppingTask?)
    && match stop.phase
       case StoppingTask => true
       case AwaitingTick(t) => r.work.activeTick.None? || r.work.activeTick == Some(t)
       case AwaitingRenewal => r.work.activeTick.None? && (r.setup.variant.Interval? ==> r.control.task.None?)
  }

  ghost predicate StopsOk(r: Runner) {
    && (r.control.stopping <==> r.control.stopPromise.Some?)
    && (r.control.stopPromise.Some? ==> r.control.stopPromise.value in r.control.stops)
    && (r.setup.variant.Cron? ==> forall id :: id in r.control.stops ==> r.control.stopPromise == Some(id))
    && (r.setup.variant.Interval? && r.control.stopping ==> r.control.task.None?)
    && (r.control.active <==> r.control.task.Some? && !r.control.stopping)
    && (r.work.activeTick.Some? && r.control.stops == map[] ==> r.control.task.Some?)
    && (forall id :: id in r.control.stops ==> StopOk(r, r.control.stops[id]))
  }

  ghost predicate WorkOk(r: Runner) { TicksOk(r) && LeaseOk(r) }

  ghost predicate Base(r: Runner) { WorkOk(r) && StopsOk(r) }

  ghost predicate Inv(r: Runner) { Base(r) && Awaited(r) }

  /** Whether start may be called: not while a stop is pending with no tick in progress. */
  predicate MayStart(r: Runner) { r.control.stops == map[] || r.work.activeTick.Some? }

  /** The one thing the interval runner needs of its caller. */
  predicate Disciplined(r: Runner, step: Step) {
    r.setup.variant.Interval? && step.Start? ==> MayStart(r)
  }

  lemma AbortKeepsWork(r: Runner)
    requires WorkOk(r)
    ensures WorkOk(AbortLease(r)) && (Awaited(r) ==> Awaited(AbortLease(r)))
  {
  }

  lemma StopRenewalsKeepsWork(r: Runner)
    requires WorkOk(r) && !JobRuns(r)
    ensures WorkOk(StopRenewals(r)) && (Awaited(r) ==> Awaited(StopRenewals(r)))
  {
  }

  lemma EndTickKeepsWork(r: Runner, tick: nat)
    requires WorkOk(r)
    requires IsPhase(r, tick, Acquiring) || IsPhase(r, tick, Releasing)
    ensures WorkOk(EndTick(r, tick)) && (Awaited(r) ==> Awaited(EndTick(r, tick)))
  {
  }

  lemma RunTickKeepsWork(r: Runner, tick: nat)
    requires WorkOk(r) && IsFresh(r, tick)
    ensures WorkOk(TakeRunTick(r, tick)) && (Awaited(r) ==> Awaited(TakeRunTick(r, tick)))
  {
  }

  lemma AcquireKeepsWork(r: Runner, tick: nat, lease: Option<Lease>, now: int)
    requires WorkOk(r) && IsPhase(r, tick, Acquiring)
    ensures var q := TakeAcquireReturns(r, tick, lease, now); WorkOk(q) && (Awaited(r) ==> Awaited(q))
  {
    if lease.None? || !IsValidAcquiredLease(r, lease.value, now) { EndTickKeepsWork(r, tick); }
  }

  lemma TimerKeepsWork(r: Runner)
    requires WorkOk(r) && r.lease.timer
    ensures WorkOk(TakeTimerFires(r)) && (Awaited(r) ==> Awaited(TakeTimerFires(r)))
  {
  }

  lemma RenewKeepsWork(r: Runner, lease: Option<Lease>, now: int)
    requires WorkOk(r) && r.lease.renewal
    ensures var q := TakeRenewReturns(r, lease, now); WorkOk(q) && (Awaited(r) ==> Awaited(q))
  {
    if lease.None? || !IsValidAcquiredLease(r, lease.value, now) { AbortKeepsWork(r); }
  }

  lemma RequestKeepsWork(r: Runner, id: nat, tick: nat)
    requires WorkOk(r)
    ensures WorkOk(TakeRequestFenced(r, id, tick))
    ensures Awaited(r) && IsPhase(r, tick, Running) ==> Awaited(TakeRequestFenced(r, id, tick))
  {
  }

  lemma CallbackKeepsWork(r: Runner, lease: Lease, now: int)
    requires WorkOk(r)
    ensures WorkOk(TakeFencedCallback(r, lease, now))
    ensures Awaited(r) && HoldsLease(r) ==> Awaited(TakeFencedCallback(r, lease, now))
  {
    if !IsValidAcquiredLease(r, lease, now) { AbortKeepsWork(r); }
  }

  lemma SettleKeepsWork(r: Runner, id: nat, leaseLost: bool)
    requires WorkOk(r)
    ensures WorkOk(TakeFencedSettles(r, id, leaseLost))
    ensures Awaited(r) ==> Awaited(TakeFencedSettles(r, id, leaseLost))
  {
    if leaseLost { AbortKeepsWork(r); }
  }

  lemma JobEndKeepsWork(r: Runner, tick: nat)
    requires WorkOk(r) && IsPhase(r, tick, Running)
    ensures WorkOk(TakeJobEnds(r, tick))
    ensures Awaited(r) && NoneOutstanding(r, tick) ==> Awaited(TakeJobEnds(r, tick))
  {
  }

  lemma DrainKeepsWork(r: Runner, tick: nat)
    requires WorkOk(r) && IsPhase(r, tick, Draining) && !r.lease.renewal
    ensures WorkOk(TakeDrained(r, tick)) && (Awaited(r) ==> Awaited(TakeDrained(r, tick)))
  {
  }

  lemma AwaitKeepsWork(r: Runner, id: nat, task: nat)
    requires WorkOk(r)
    ensures WorkOk(AwaitWork(r, id, task)) && (Awaited(r) ==> Awaited(AwaitWork(r, id, task)))
  {
    if r.work.activeTick.None? { StopRenewalsKeepsWork(r); }
  }

  lemma StepKeepsWork(r: Runner, step: Step)
    requires Base(r) && Enabled(r, step)
    ensures WorkOk(Take(r, step)) && (Awaited(r) && Awaits(r, step) ==> Awaited(Take(r, step)))
  {
    match step
    case Start(_) =>
    case CallStop(id) =>
      if r.control.stopPromise.None? && r.control.task.Some? && r.setup.variant.Interval? {
        var control := r.control.(stopping := true, active := false, stopPromise := Some(id), task := None);
        AwaitKeepsWork(r.(control := control), id, r.control.task.value);
      }
    case TaskStopped(id) => AwaitKeepsWork(r, id, r.control.stops[id].task);
    case StopSettles(id) => assert StopOk(r, r.control.stops[id]);
    case RunTick(tick) => RunTickKeepsWork(r, tick);
    case AcquireReturns(tick, lease, now) => AcquireKeepsWork(r, tick, lease, now);
    case TimerFires => TimerKeepsWork(r);
    case RenewReturns(lease, now) => RenewKeepsWork(r, lease, now);
    case OwnershipCheckFails(_) => AbortKeepsWork(r);
    case RequestFenced(id, tick) => RequestKeepsWork(r, id, tick);
    case FencedCallback(_, lease, now) => CallbackKeepsWork(r, lease, now);
    case FencedSettles(id, leaseLost) => SettleKeepsWork(r, id, leaseLost);
    case JobEnds(tick) => JobEndKeepsWork(r, tick);
    case Drained(tick) => DrainKeepsWork(r, tick);
    case ReleaseReturns(tick) => EndTickKeepsWork(r, tick);
  }

  lemma StopStepKeepsStops(r: Runner, step: Step)
    requires StopsOk(r) && TicksOk(r) && Enabled(r, step) && Disciplined(r, step)
    requires step.Start? || step.CallStop? || step.TaskStopped? || step.StopSettles?
    ensures StopsOk(Take(r, step))
  {
    forall id | id in r.control.stops ensures StopOk(r, r.control.stops[id]) && !(IsDue(r, id) && step.Start?) { }
    var q := Take(r, step);
    forall id | id in q.control.stops && id in r.control.stops ensures StopOk(r, r.control.stops[id]) { }
  }

  /** The stop fields stay, and a new tick begins only on an active runner without one, with no stop due. */
  predicate SameStops(r: Runner, q: Runner) {
    && q.setup == r.setup && q.control == r.control
    && (q.work.activeTick == r.work.activeTick || q.work.activeTick.None? ||
          (r.work.activeTick.None? && r.control.active && !AnyDue(r)))
  }

  lemma SameStopsKeepsStops(r: Runner, q: Runner)
    requires StopsOk(r) && TicksOk(r) && SameStops(r, q)
    ensures StopsOk(q)
  {
    forall id | id in q.control.stops ensures StopOk(q, q.control.stops[id]) {
      assert StopOk(r, r.control.stops[id]);
      assert !AnyDue(r) ==> !IsDue(r, id);
    }
  }

  lemma OtherStepsLeaveStops(r: Runner, step: Step)
    requires TicksOk(r) && Enabled(r, step)
    requires !(step.Start? || step.CallStop? || step.TaskStopped? || step.StopSettles?)
    ensures SameStops(r, Take(r, step))
  {
  }

  lemma SignalsStayAborted(r: Runner, step: Step)
    requires Enabled(r, step)
    ensures r.aborted <= Take(r, step).aborted
  {
  }

  /** Without anything asked of the jobs. */
  lemma StepKeepsBase(r: Runner, step: Step)
    requires Base(r) && Enabled(r, step) && Disciplined(r, step)
    ensures Base(Take(r, step))
  {
    StepKeepsWork(r, step);
    if step.Start? || step.CallStop? || step.TaskStopped? || step.StopSettles? {
      StopStepKeepsStops(r, step);
    } else {
      OtherStepsLeaveStops(r, step);
      SameStopsKeepsStops(r, Take(r, step));
    }
  }

  lemma StepKeepsInv(r: Runner, step: Step)
    requires Inv(r) && Enabled(r, step) && Disciplined(r, step) && Awaits(r, step)
    ensures Inv(Take(r, step))
  {
    StepKeepsWork(r, step);
    StepKeepsBase(r, step);
  }

  // ----- Runs -----

  ghost predicate IsRun(states: seq<Runner>, steps: seq<Step>) {
    && |states| == |steps| + 1
    && forall i :: 0 <= i < |steps| ==>
         && Enabled(states[i], steps[i]) && Disciplined(states[i], steps[i])
         && states[i + 1] == Take(states[i], steps[i])
  }

  ghost predicate FromIdle(states: seq<Runner>) {
    |states| > 0 && states[0] == Idle(states[0].setup)
  }

  /** Every job of the run awaits what it starts. */
  ghost predicate JobsAwait(states: seq<Runner>, steps: seq<Step>)
    requires |states| == |steps| + 1
  {
    forall i :: 0 <= i < |steps| ==> Awaits(states[i], steps[i])
  }

  lemma IdleIsOk(setup: Setup)
    ensures Inv(Idle(setup))
  {
  }

  lemma {:induction false} RunKeepsBase(states: seq<Runner>, steps: seq<Step>, i: nat, j: nat)
    requires IsRun(states, steps) && Base(states[0]) && i <= j < |states|
    ensures Base(states[j]) && states[i].aborted <= states[j].aborted
    decreases j
  {
    hide Base, Take, Enabled;
    if j > 0 {
      if i < j { RunKeepsBase(states, steps, i, j - 1); } else { RunKeepsBase(states, steps, j - 1, j - 1); }
      StepKeepsBase(states[j - 1], steps[j - 1]);
      SignalsStayAborted(states[j - 1], steps[j - 1]);
    }
  }

  lemma {:induction false} RunKeepsInv(states: seq<Runner>, steps: seq<Step>, i: nat)
    requires IsRun(states, steps) && JobsAwait(states, steps) && Inv(states[0]) && i < |states|
    ensures Inv(states[i])
  {
    hide Inv, Take, Enabled, Awaits;
    if i > 0 {
      RunKeepsInv(states, steps, i - 1);
      StepKeepsInv(states[i - 1], steps[i - 1]);
    }
  }

  // ----- One execution at a time -----

  ghost predicate OneTick(r: Runner) { forall t, u :: t in r.work.ticks && u in r.work.ticks ==> t == u }

  /** At most one tick, and so one job execution, is in progress at any point of any run, whatever the
      jobs do; nor is there ever a renewal timer pending while a renewal is in flight. */
  lemma OneExecutionAtATime(states: seq<Runner>, steps: seq<Step>, i: nat)
    requires IsRun(states, steps) && FromIdle(states) && i < |states|
    ensures OneTick(states[i]) && !(states[i].lease.timer && states[i].lease.renewal)
  {
    IdleIsOk(states[0].setup);
    RunKeepsBase(states, steps, i, i);
  }

  lemma {:induction false} Above(used: set<nat>) returns (bound: nat)
    ensures forall n :: n in used ==> n < bound
  {
    bound := 0;
    if used != {} {
      var n :| n in used;
      var rest := Above(used - {n});
      assert forall m :: m in used ==> m == n || m in used - {n};
      bound := if rest <= n then n + 1 else rest;
    }
  }

  /** Two ticks that have not been used. */
  lemma FreshTicks(r: Runner) returns (a: nat, b: nat)
    ensures IsFresh(r, a) && IsFresh(r, b) && a != b
  {
    var controller := if r.lease.controller.Some? then {r.lease.controller.value} else {};
    a := Above(r.work.ticks.Keys + r.aborted + controller + r.fenced.Values);
    b := a + 1;
    forall id | id in r.fenced ensures r.fenced[id] < a { assert r.fenced[id] in r.fenced.Values; }
    assert forall t :: t in r.work.ticks ==> t in r.work.ticks.Keys;
  }

  /** Started while a stop is pending with no tick in progress, the interval runner runs its job twice at
      once: that stop still resets `isRunning`, without checking whose it is. */
  lemma RestartOverlaps(r: Runner, id: nat, task: nat, a: nat, b: nat) returns (states: seq<Runner>, steps: seq<Step>)
    requires Base(r) && r.setup.variant.Interval? && Enabled(r, Start(task))
    requires id in r.control.stops && r.work.activeTick.None?
    requires IsFresh(r, a) && IsFresh(r, b) && a != b
    ensures steps == [RunTick(a), StopSettles(id), RunTick(b)] && IsRun(states, steps)
    ensures states[0] == Take(r, Start(task))
    ensures a in states[3].work.ticks && b in states[3].work.ticks
  {
    assert StopOk(r, r.control.stops[id]) && !IsDue(r, id);
    forall k | k in r.control.stops ensures r.control.stops[k].phase.AwaitingRenewal? {
      assert StopOk(r, r.control.stops[k]) && !IsDue(r, k);
    }
    steps := [RunTick(a), StopSettles(id), RunTick(b)];
    var s0 := Take(r, Start(task));
    var s1 := Take(s0, RunTick(a));
    var s2 := Take(s1, StopSettles(id));
    var s3 := Take(s2, RunTick(b));
    states := [s0, s1, s2, s3];
  }

  /** Every run from here keeps to one tick. */
  ghost predicate StaysSingle(r: Runner) {
    forall states: seq<Runner>, steps: seq<Step> :: IsRun(states, steps) && states[0] == r ==>
      forall i :: 0 <= i < |states| ==> OneTick(states[i])
  }

  /** Starting the interval runner, in any state a run can reach, keeps every continuation to one execution
      at a time exactly when no stop is pending or a tick is in progress: then the pending stops await that
      tick and are over before another begins. */
  lemma StartIsSafeExactlyWhen(states: seq<Runner>, steps: seq<Step>, task: nat)
    requires IsRun(states, steps) && FromIdle(states) && states[0].setup.variant.Interval?
    requires Enabled(states[|steps|], Start(task))
    ensures StaysSingle(Take(states[|steps|], Start(task))) <==> MayStart(states[|steps|])
  {
    var r := states[|steps|];
    IdleIsOk(states[0].setup);
    RunKeepsBase(states, steps, |steps|, |steps|);
    SetupStays(states, steps, |steps|);
    var q := Take(r, Start(task));
    if MayStart(r) {
      StepKeepsBase(r, Start(task));
      forall later: seq<Runner>, rest: seq<Step> | IsRun(later, rest) && later[0] == q
        ensures forall i :: 0 <= i < |later| ==> OneTick(later[i])
      {
        forall i | 0 <= i < |later| ensures OneTick(later[i]) { RunKeepsBase(later, rest, i, i); }
      }
    } else {
      var id :| id in r.control.stops;
      var a, b := FreshTicks(r);
      var later, rest := RestartOverlaps(r, id, task, a, b);
      assert IsRun(later, rest) && !OneTick(later[3]);
    }
  }

  lemma {:induction false} SetupStays(states: seq<Runner>, steps: seq<Step>, i: nat)
    requires IsRun(states, steps) && i < |states|
    ensures states[i].setup == states[0].setup
  {
    if i > 0 { SetupStays(states, steps, i - 1); }
  }

  /** Such a state is reached at once: start, stop, start, and a tick before the stop has resolved. */
  lemma RestartDuringStopOverlaps(jobKey: string, ownerToken: string) returns (states: seq<Runner>, steps: seq<Step>)
    ensures |states| == |steps| + 1 && states[0] == Idle(Setup(Interval, jobKey, ownerToken))
    ensures forall i :: 0 <= i < |steps| ==> Enabled(states[i], steps[i]) && states[i + 1] == Take(states[i], steps[i])
    ensures !OneTick(states[|steps|])
    ensures forall i :: 0 <= i < |steps| ==> (Disciplined(states[i], steps[i]) <==> i != 2)
  {
    var s0 := Idle(Setup(Interval, jobKey, ownerToken));
    var s1 := Take(s0, Start(0));
    var s2 := Take(s1, CallStop(0));
    IdleIsOk(s0.setup);
    StepKeepsBase(s0, Start(0));
    StepKeepsBase(s1, CallStop(0));
    var later, rest := RestartOverlaps(s2, 0, 1, 0, 1);
    states, steps := [s0, s1, s2] + later, [Start(0), CallStop(0), Start(1)] + rest;
    assert 0 in states[6].work.ticks && 1 in states[6].work.ticks;
  }

  // ----- A running job's lease is renewed -----

  /** The job of this tick runs, and no loss of its lease has been recorded. */
  predicate RunsUnharmed(r: Runner, tick: nat) {
    r.work.activeTick == Some(tick) && tick in r.work.ticks && r.work.ticks[tick] == Running && !r.lease.lostError
  }

  /** The lease names this job and this process, has a proper token, and has not expired. */
  predicate IsOwnLive(r: Runner, lease: Option<Lease>, now: int) {
    && lease.Some? && lease.value.jobKey == r.setup.jobKey && lease.value.ownerToken == r.setup.ownerToken
    && 0 < lease.value.fencingToken <= MAX_SAFE_INTEGER
    && ValidDate(now) && ValidDate(lease.value.leaseExpiresAt) && now < lease.value.leaseExpiresAt
  }

  /** In every run, as long as a job runs without a recorded loss, it has a lease copy and a signal that is
      not aborted, and either the timer of its next renewal is set or that renewal is in flight. */
  lemma RenewalIsComing(states: seq<Runner>, steps: seq<Step>, i: nat, tick: nat)
    requires IsRun(states, steps) && FromIdle(states) && i < |states| && RunsUnharmed(states[i], tick)
    ensures var r := states[i];
      && r.lease.current.Some? && r.lease.controller == Some(tick) && tick !in r.aborted
      && (r.lease.timer <==> !r.lease.renewal)
  {
    IdleIsOk(states[0].setup);
    RunKeepsBase(states, steps, i, i);
  }

  /** The answer to acquire starts the job exactly with a live lease of its own, which becomes the lease
      copy, with the timer of its first renewal set; with any other answer the tick is over. */
  lemma JobStartsWithItsLease(states: seq<Runner>, steps: seq<Step>, i: nat)
    requires IsRun(states, steps) && FromIdle(states) && i < |steps| && steps[i].AcquireReturns?
    ensures var r, q, step := states[i], states[i + 1], steps[i];
      if IsOwnLive(r, step.lease, step.now) then
        RunsUnharmed(q, step.tick) && q.lease.current == step.lease && q.lease.timer && !q.lease.renewal
      else q.work.ticks == map[] && !q.work.isRunning && q.work.activeTick.None? && q.lease == r.lease
  {
    IdleIsOk(states[0].setup);
    RunKeepsBase(states, steps, i, i);
  }

  /** The answer to a renewal, while the job runs unharmed, keeps it so exactly with a live lease of its
      own: that is the new lease copy, and the timer of the next renewal is set. With any other answer the
      loss is recorded, the job's signal is aborted and its renewals are over. */
  lemma RenewalIsTakenOver(states: seq<Runner>, steps: seq<Step>, i: nat, tick: nat)
    requires IsRun(states, steps) && FromIdle(states) && i < |steps| && steps[i].RenewReturns?
    requires RunsUnharmed(states[i], tick)
    ensures var r, q, step := states[i], states[i + 1], steps[i];
      && q.work == r.work && !q.lease.renewal
      && if IsOwnLive(r, step.lease, step.now) then
           RunsUnharmed(q, tick) && q.lease.current == step.lease && q.lease.timer
         else q.lease.lostError && tick in q.aborted && !q.lease.timer && !q.lease.active
  {
    IdleIsOk(states[0].setup);
    RunKeepsBase(states, steps, i, i);
  }

  /** The step leaves a running job its lease. */
  predicate LeavesLease(r: Runner, step: Step) {
    match step
    case JobEnds(_) => false
    case RenewReturns(lease, now) => IsOwnLive(r, lease, now)
    case FencedCallback(_, updated, now) => IsOwnLive(r, Some(updated), now)
    case FencedSettles(_, leaseLost) => !leaseLost
    case OwnershipCheckFails(_) => false
    case _ => true
  }

  /** A job goes on unharmed through every step of the runner but its own end, a renewal or a fenced update
      that does not come back with a live lease of its own, a write that failed for the lost lease, and a
      failed check of ownership; and each of these last four records the loss at once, aborts the job's
      signal and ends its renewals. */
  lemma LossIsRecordedExactly(states: seq<Runner>, steps: seq<Step>, i: nat, tick: nat)
    requires IsRun(states, steps) && FromIdle(states) && i < |steps| && RunsUnharmed(states[i], tick)
    ensures var r, q, step := states[i], states[i + 1], steps[i];
      && (RunsUnharmed(q, tick) <==> LeavesLease(r, step))
      && (!LeavesLease(r, step) && !step.JobEnds? ==>
            && q.work == r.work && q.lease.lostError && tick in q.aborted && !q.lease.timer && !q.lease.active)
      && (step.JobEnds? ==> step.tick == tick && q.work.ticks == map[tick := Draining] && !q.lease.timer)
  {
    IdleIsOk(states[0].setup);
    RunKeepsBase(states, steps, i, i);
    hide TakeStart, TakeCallStop, StopsOk, Disciplined;
    UnharmedStep(states[i], steps[i], tick);
  }

  lemma UnharmedStep(r: Runner, step: Step, tick: nat)
    requires WorkOk(r) && Enabled(r, step) && RunsUnharmed(r, tick)
    requires step.StopSettles? ==> !IsDue(r, step.id) && r.work.activeTick.None?
    ensures var q := Take(r, step);
      && (RunsUnharmed(q, tick) <==> LeavesLease(r, step))
      && (!LeavesLease(r, step) && !step.JobEnds? ==>
            && q.work == r.work && q.lease.lostError && tick in q.aborted && !q.lease.timer && !q.lease.active)
      && (step.JobEnds? ==> step.tick == tick && q.work.ticks == map[tick := Draining] && !q.lease.timer)
  {
  }

  /** A fenced write is let through exactly as long as its tick's signal is not aborted: it is not sent
      otherwise; and once sent, its callback starts the job's own write exactly with a live lease of its own
      and without an abort meanwhile, taking that lease over. */
  lemma FencedWritesExactly(r: Runner, step: Step)
    requires Enabled(r, step)
    ensures step.RequestFenced? ==>
      && (step.id in Take(r, step).fenced <==> step.tick !in r.aborted)
      && Take(r, step) == r.(fenced := Take(r, step).fenced) && Take(r, step).fenced - {step.id} == r.fenced
    ensures step.FencedCallback? ==>
      && (WriteStarts(r, step.id, step.updated, step.now) <==>
            IsOwnLive(r, Some(step.updated), step.now) && r.fenced[step.id] !in r.aborted)
      && (IsOwnLive(r, Some(step.updated), step.now) ==>
            Take(r, step) == r.(lease := r.lease.(current := Some(step.updated))))
    ensures step.FencedSettles? ==> Take(r, step).fenced == r.fenced - {step.id}
  {
  }

  // ----- Lost leases and resolved stops -----

  /** Once a tick has recorded a lost lease, no write callback of its job is ever started again, not even
      one that outlives the job. */
  lemma NoWriteAfterLoss(states: seq<Runner>, steps: seq<Step>, i: nat, j: nat, tick: nat)
    requires IsRun(states, steps) && FromIdle(states) && i <= j < |steps|
    requires HoldsLease(states[i]) && states[i].work.activeTick == Some(tick) && states[i].lease.lostError
    requires steps[j].FencedCallback? && states[j].fenced[steps[j].id] == tick
    ensures !WriteStarts(states[j], steps[j].id, steps[j].updated, steps[j].now)
  {
    IdleIsOk(states[0].setup);
    RunKeepsBase(states, steps, i, i);
    RunKeepsBase(states, steps, i, j);
  }

  /** Nothing runs, no renewal is pending or in flight, and no lease is held. */
  predicate Quiet(r: Runner) {
    && r.work == Work(false, None, map[]) && r.fenced == map[]
    && !r.lease.timer && !r.lease.renewal && !r.lease.active && r.lease.current.None?
    && !r.control.stopping && r.control.stopPromise.None?
  }

  lemma SettledIsQuiet(r: Runner, id: nat)
    requires Inv(r) && Enabled(r, StopSettles(id))
    ensures Quiet(Take(r, StopSettles(id)))
    ensures r.setup.variant.Cron? ==> Take(r, StopSettles(id)).control.task.None?
    ensures r.setup.variant.Interval? ==> Take(r, StopSettles(id)).control.task == r.control.task
  {
    assert StopOk(r, r.control.stops[id]);
    assert forall t :: t !in r.work.ticks;
    assert forall f :: f !in r.fenced;
  }

  lemma {:induction false} StaysWithoutTask(states: seq<Runner>, steps: seq<Step>, c: nat, i: nat)
    requires IsRun(states, steps) && c <= i < |states| && states[c].control.task.None?
    requires forall k :: c <= k < i ==> !steps[k].Start?
    ensures states[i].control.task.None?
  {
    if c < i { StaysWithoutTask(states, steps, c, i - 1); }
  }

  /** When a stop resolves the runner is quiet, and it is stopped, so that start may be called again, unless
      the interval runner was started again in the meantime. */
  lemma StopResolvesQuiescent(states: seq<Runner>, steps: seq<Step>, c: nat, i: nat)
    requires IsRun(states, steps) && FromIdle(states) && JobsAwait(states, steps)
    requires c < i < |steps| && steps[c].CallStop? && steps[i] == StopSettles(steps[c].id)
    requires states[c].control.stopPromise.None? && states[c].control.task.Some?
    ensures Quiet(states[i + 1])
    ensures states[0].setup.variant.Cron? || (forall k :: c < k < i ==> !steps[k].Start?) ==>
      !states[i + 1].control.active && states[i + 1].control.task.None?
  {
    hide Quiet;
    IdleIsOk(states[0].setup);
    SetupStays(states, steps, c);
    SetupStays(states, steps, i);
    RunKeepsInv(states, steps, i);
    RunKeepsInv(states, steps, i + 1);
    SettledIsQuiet(states[i], steps[c].id);
    if states[0].setup.variant.Interval? && forall k :: c < k < i ==> !steps[k].Start? {
      StaysWithoutTask(states, steps, c + 1, i);
    }
  }

  /** A pending stop is never stuck: some step of a stop or of the work it awaits can be taken. */
  lemma PendingStopCanProceed(states: seq<Runner>, steps: seq<Step>, i: nat, id: nat) returns (next: Step)
    requires IsRun(states, steps) && FromIdle(states) && i < |states| && id in states[i].control.stops
    ensures Enabled(states[i], next) && Awaits(states[i], next)
    ensures next == TaskStopped(id) || next.StopSettles? || next.AcquireReturns? || next.FencedSettles?
      || next.JobEnds? || next.RenewReturns? || next.Drained? || next.ReleaseReturns?
  {
    IdleIsOk(states[0].setup);
    RunKeepsBase(states, steps, i, i);
    var r := states[i];
    assert StopOk(r, r.control.stops[id]);
    if due :| due in r.control.stops && IsDue(r, due) { return StopSettles(due); }
    if r.control.stops[id].phase.StoppingTask? { return TaskStopped(id); }
    if AwaitIsOver(r, r.control.stops[id].phase) { return StopSettles(id); }
    var t := r.work.activeTick.value;
    match r.work.ticks[t]
    case Acquiring => return AcquireReturns(t, None, 0);
    case Running =>
      if f :| f in r.fenced && r.fenced[f] == t { return FencedSettles(f, false); }
      return JobEnds(t);
    case Draining => if r.lease.renewal { return RenewReturns(None, 0); } else { return Drained(t); }
    case Releasing => return ReleaseReturns(t);
  }

  // ----- A job that does not await -----

  /** One more step of a run. */
  lemma Snoc(states: seq<Runner>, steps: seq<Step>, step: Step) returns (states': seq<Runner>, steps': seq<Step>)
    requires IsRun(states, steps) && JobsAwait(states, steps) && Base(states[|steps|])
    requires Enabled(states[|steps|], step) && Disciplined(states[|steps|], step) && Awaits(states[|steps|], step)
    ensures IsRun(states', steps') && JobsAwait(states', steps') && steps' == steps + [step]
    ensures states'[0] == states[0] && states'[|steps'|] == Take(states[|steps|], step) && Base(states'[|steps'|])
  {
    StepKeepsBase(states[|steps|], step);
    hide Take, Enabled, Disciplined, Awaits, Base;
    states', steps' := states + [Take(states[|steps|], step)], steps + [step];
    forall i | 0 <= i < |steps'|
      ensures && Enabled(states'[i], steps'[i]) && Disciplined(states'[i], steps'[i]) && Awaits(states'[i], steps'[i])
              && states'[i + 1] == Take(states'[i], steps'[i])
    {
      if i < |steps| { assert states'[i] == states[i] && steps'[i] == steps[i] && states'[i + 1] == states[i + 1]; }
    }
  }

  ghost predicate Ends(states: seq<Runner>, steps: seq<Step>, first: Runner, last: Runner) {
    IsRun(states, steps) && JobsAwait(states, steps) && states[0] == first && states[|steps|] == last && Base(last)
  }

  /** What the steps of a tick's end leave alone. */
  lemma TickEndEffects(r: Runner, step: Step, tick: nat)
    requires Enabled(r, step) && (step == RenewReturns(None, 0) || step == Drained(tick) || step == JobEnds(tick))
    requires tick in r.work.ticks
    ensures var q := Take(r, step);
      && q.control == r.control && q.setup == r.setup && q.fenced == r.fenced && !AnyDue(q)
      && (step.JobEnds? ==> IsPhase(q, tick, Draining) && q.lease.renewal == r.lease.renewal)
      && (step.RenewReturns? ==> q.work == r.work && !q.lease.renewal)
      && (step.Drained? ==> IsPhase(q, tick, Releasing) && !q.lease.renewal)
  {
    assert forall id :: id in r.control.stops ==> !IsDue(r, id);
  }

  lemma LateCallbackEffects(r: Runner, id: nat, tick: nat)
    requires Base(r) && id in r.fenced && !AnyDue(r) && IsPhase(r, tick, Releasing) && !r.lease.renewal
    ensures var step := FencedCallback(id, Lease(r.setup.jobKey, r.setup.ownerToken, 1, 1, 1), 0);
      && Enabled(r, step) && Enabled(Take(r, step), ReleaseReturns(tick))
      && var z := Take(Take(r, step), ReleaseReturns(tick));
         && z.control == r.control && z.setup == r.setup && z.work.activeTick.None? && !z.lease.renewal
         && z.lease.current.Some?
  {
    assert forall k :: k in r.control.stops ==> !IsDue(r, k);
  }

  /** A job has ended with a fenced write outstanding: its callback runs after the tick has given up its
      lease copy, and leaves the runner holding one. */
  lemma LateCallback(r: Runner, tick: nat, id: nat) returns (states: seq<Runner>, steps: seq<Step>)
    requires Base(r) && Enabled(r, JobEnds(tick)) && id in r.fenced
    ensures |states| == |steps| + 1 && Ends(states, steps, Take(r, JobEnds(tick)), states[|steps|])
    ensures var z := states[|steps|];
      && z.control == r.control && z.setup == r.setup && z.work.activeTick.None? && !z.lease.renewal
      && z.lease.current.Some?
  {
    hide Take, AnyDue, Base;
    StepKeepsBase(r, JobEnds(tick));
    TickEndEffects(r, JobEnds(tick), tick);
    states, steps := [Take(r, JobEnds(tick))], [];
    if r.lease.renewal {
      TickEndEffects(states[|steps|], RenewReturns(None, 0), tick);
      states, steps := Snoc(states, steps, RenewReturns(None, 0));
    }
    TickEndEffects(states[|steps|], Drained(tick), tick);
    states, steps := Snoc(states, steps, Drained(tick));
    LateCallbackEffects(states[|steps|], id, tick);
    states, steps := Snoc(states, steps, FencedCallback(id, Lease(r.setup.jobKey, r.setup.ownerToken, 1, 1, 1), 0));
    states, steps := Snoc(states, steps, ReleaseReturns(tick));
  }

  lemma StopEffects(r: Runner, id: nat)
    requires Base(r) && r.work.activeTick.None? && !r.lease.renewal && !AnyDue(r)
    ensures r.control.stops == map[] && r.control.task.Some? ==>
      Enabled(r, CallStop(id)) && id in Take(r, CallStop(id)).control.stops && !AnyDue(Take(r, CallStop(id)))
      && Take(r, CallStop(id)).work == r.work && !Take(r, CallStop(id)).lease.renewal
      && Take(r, CallStop(id)).lease.current == r.lease.current
    ensures id in r.control.stops && r.control.stops[id].phase.StoppingTask? ==>
      Enabled(r, TaskStopped(id)) && Enabled(Take(r, TaskStopped(id)), StopSettles(id))
      && Take(r, TaskStopped(id)).lease.current == r.lease.current
    ensures id in r.control.stops && !r.control.stops[id].phase.StoppingTask? ==> Enabled(r, StopSettles(id))
  {
    if id in r.control.stops { assert StopOk(r, r.control.stops[id]) && !IsDue(r, id); }
    assert forall k :: k in r.control.stops ==> !IsDue(r, k);
  }

  lemma SettleKeepsLease(r: Runner, id: nat)
    requires Enabled(r, StopSettles(id))
    ensures Take(r, StopSettles(id)).lease == r.lease
  {
  }

  /** From a runner left so, some stop resolves with the lease copy still there. */
  lemma StopWithLease(z: Runner, first: Runner, states: seq<Runner>, steps: seq<Step>)
    returns (states': seq<Runner>, steps': seq<Step>)
    requires |states| == |steps| + 1 && Ends(states, steps, first, z)
    requires z.work.activeTick.None? && !z.lease.renewal && z.lease.current.Some?
    requires z.control.stops != map[] || z.control.task.Some?
    ensures |states'| == |steps'| + 1 && Ends(states', steps', first, states'[|steps'|])
    ensures |steps'| > 0 && steps'[|steps'| - 1].StopSettles? && states'[|steps'|].lease.current.Some?
  {
    states', steps' := states, steps;
    var id := 0;
    if due :| due in z.control.stops && IsDue(z, due) {
      id := due;
      assert AnyDue(z);
    } else {
      hide Take, Enabled, Base, IsDue;
      if k :| k in z.control.stops {
        id := k;
      } else {
        StopEffects(z, id);
        states', steps' := Snoc(states', steps', CallStop(id));
      }
      var r := states'[|steps'|];
      StopEffects(r, id);
      if r.control.stops[id].phase.StoppingTask? { states', steps' := Snoc(states', steps', TaskStopped(id)); }
    }
    SettleKeepsLease(states'[|steps'|], id);
    states', steps' := Snoc(states', steps', StopSettles(id));
  }

  /** Every stop that resolves in a run from here, of jobs that await, leaves the runner quiet. */
  ghost predicate StopsQuietly(r: Runner) {
    forall states: seq<Runner>, steps: seq<Step> ::
      IsRun(states, steps) && states[0] == r && JobsAwait(states, steps) ==>
      forall i :: 0 <= i < |steps| && steps[i].StopSettles? ==> Quiet(states[i + 1])
  }

  /** As far as all jobs have awaited so far, a job's end leaves every later stop to resolve quietly exactly
      when no fenced write outlives the job. */
  lemma QuietExactlyWhenAwaited(states: seq<Runner>, steps: seq<Step>, tick: nat)
    requires IsRun(states, steps) && FromIdle(states) && JobsAwait(states, steps)
    requires Enabled(states[|steps|], JobEnds(tick))
    ensures StopsQuietly(Take(states[|steps|], JobEnds(tick))) <==> NoneOutstanding(states[|steps|], tick)
  {
    var r := states[|steps|];
    IdleIsOk(states[0].setup);
    RunKeepsInv(states, steps, |steps|);
    var q := Take(r, JobEnds(tick));
    if NoneOutstanding(r, tick) {
      StepKeepsInv(r, JobEnds(tick));
      hide Inv, Take, Enabled, Quiet;
      forall later: seq<Runner>, rest: seq<Step> | IsRun(later, rest) && later[0] == q && JobsAwait(later, rest)
        ensures forall i :: 0 <= i < |rest| && rest[i].StopSettles? ==> Quiet(later[i + 1])
      {
        forall i | 0 <= i < |rest| && rest[i].StopSettles? ensures Quiet(later[i + 1]) {
          RunKeepsInv(later, rest, i);
          SettledIsQuiet(later[i], rest[i].id);
        }
      }
    } else {
      var id :| id in r.fenced && r.fenced[id] == tick;
      var later, rest := LateCallback(r, tick, id);
      later, rest := StopWithLease(later[|rest|], q, later, rest);
      assert IsRun(later, rest) && later[0] == q && JobsAwait(later, rest) && !Quiet(later[|rest|]);
    }
  }

  // ----- Renewal delay -----

  const DEFAULT_RENEWAL_LEAD_MS := 5_000
  const DEFAULT_RENEWAL_MIN_DELAY_MS := 1_000

  function Max(a: int, b: int): int { if a < b then b else a }
  function Min(a: int, b: int): int { if a < b then a else b }

  function ToDelayMs(ttlMs: int, renewalLeadMs: int): int {
    Max(DEFAULT_RENEWAL_MIN_DELAY_MS, Min(ttlMs - 1, ttlMs - renewalLeadMs))
  }

  /** A renewal is due before the lease it renews expires exactly when the ttl exceeds one second,
      although any ttl above one millisecond is accepted. */
  lemma RenewalDueBeforeExpiry(ttlMs: int, leadMs: int)
    requires 1 < ttlMs
    ensures var lead := if leadMs < 1 then 1 else leadMs;
      ToDelayMs(ttlMs, leadMs) == if lead + 1_000 <= ttlMs then ttlMs - lead else 1_000
    ensures var delay := ToDelayMs(ttlMs, DEFAULT_RENEWAL_LEAD_MS);
      && (delay < ttlMs <==> 1_000 < ttlMs)
      && (delay <= ttlMs - 5_000 <==> 6_000 <= ttlMs)
      && (6_000 <= ttlMs ==> delay == ttlMs - 5_000)
  {
  }

  // ----- The runner as the object the source creates -----

  class RunnerProcess {
    const variant: Variant
    const jobKey: string
    const ownerToken: string
    var active: bool
    var stopping: bool
    var isRunning: bool
    var task: Option<nat>
    var activeTick: Option<nat>
    var stopPromise: Option<nat>
    var leaseActive: bool
    var current: Option<Lease>
    var timer: bool
    var renewal: bool
    var controller: Option<nat>
    var lostError: bool
    var ticks: map<nat, Tick>
    var aborted: set<nat>
    var fenced: map<nat, nat>
    var stops: map<nat, Stop>

    function State(): Runner
      reads this
    {
      Runner(Setup(variant, jobKey, ownerToken), Control(active, stopping, task, stopPromise, stops),
             Work(isRunning, activeTick, ticks),
             LeaseState(leaseActive, current, timer, renewal, controller, lostError),
             aborted, fenced)
    }

    constructor (variant: Variant, jobKey: string, ownerToken: string)
      ensures State() == Idle(Setup(variant, jobKey, ownerToken))
    {
      this.variant, this.jobKey, this.ownerToken := variant, jobKey, ownerToken;
      active, stopping, isRunning := false, false, false;
      task, activeTick, stopPromise := None, None, None;
      leaseActive, current, timer, renewal, controller, lostError := false, None, false, false, None, false;
      ticks, aborted, fenced, stops := map[], {}, map[], map[];
    }

    method ClearRenewalTimer()
      modifies this
      ensures State() == old(State()).(lease := old(State()).lease.(timer := false))
    {
      if timer {
        timer := false;
      }
    }

    method Abort()
      modifies this
      ensures State() == AbortLease(old(State()))
    {
      if !lostError {
        lostError := true;
      }
      leaseActive := false;
      ClearRenewalTimer();
      if controller.Some? && controller.value !in aborted {
        aborted := aborted + {controller.value};
      }
      assert controller.Some? ==> aborted == old(aborted) + {controller.value};
    }

    method StopRenewalLoop()
      modifies this
      ensures State() == StopRenewals(old(State()))
    {
      leaseActive := false;
      ClearRenewalTimer();
    }

    method Schedule()
      modifies this
      ensures State() == ScheduleRenewal(old(State()))
    {
      if !leaseActive || current.None? {
        return;
      }
      timer := true;
    }

    method FinishTick(tick: nat)
      modifies this
      ensures State() == EndTick(old(State()), tick)
    {
      ticks := ticks - {tick};
      activeTick := None;
      isRunning := false;
    }

    method Start(handle: nat)
      requires Enabled(State(), Step.Start(handle))
      modifies this
      ensures State() == Take(old(State()), Step.Start(handle))
    {
      if task.Some? {
        return;
      }
      active := true;
      stopping := false;
      if variant.Interval? {
        stopPromise := None;
      }
      task := Some(handle);
    }

    method AwaitCurrentWork(id: nat, handle: nat)
      modifies this
      ensures State() == AwaitWork(old(State()), id, handle)
    {
      if activeTick.Some? {
        stops := stops[id := Stop(AwaitingTick(activeTick.value), handle)];
      } else {
        StopRenewalLoop();
        stops := stops[id := Stop(AwaitingRenewal, handle)];
      }
    }

    method CallStop(id: nat)
      requires Enabled(State(), Step.CallStop(id))
      modifies this
      ensures State() == Take(old(State()), Step.CallStop(id))
    {
      if stopPromise.Some? || task.None? {
        return;
      }
      stopping := true;
      active := false;
      stopPromise := Some(id);
      var handle := task.value;
      match variant
      case Cron => stops := stops[id := Stop(StoppingTask, handle)];
      case Interval =>
        task := None;
        AwaitCurrentWork(id, handle);
    }

    method StopSettles(id: nat)
      requires Enabled(State(), Step.StopSettles(id))
      modifies this
      ensures State() == Take(old(State()), Step.StopSettles(id))
    {
      hide TakeStart, TakeCallStop, TakeAcquireReturns, TakeRunTick, TakeRenewReturns, TakeFencedCallback, TakeJobEnds;
      var stopped := stops[id];
      stops := stops - {id};
      if variant.Interval? || (task == Some(stopped.task) && stopPromise == Some(id)) {
        isRunning := false;
        stopping := false;
        stopPromise := None;
        if variant.Cron? {
          task := None;
        }
      }
    }

    method RunTick(tick: nat)
      requires Enabled(State(), Step.RunTick(tick))
      modifies this
      ensures State() == Take(old(State()), Step.RunTick(tick))
    {
      if !active || stopping {
        return;
      }
      if isRunning {
        return;
      }
      isRunning := true;
      ticks := ticks[tick := Acquiring];
      activeTick := Some(tick);
    }

    method AcquireReturns(tick: nat, lease: Option<Lease>, now: int)
      requires Enabled(State(), Step.AcquireReturns(tick, lease, now))
      modifies this
      ensures State() == Take(old(State()), Step.AcquireReturns(tick, lease, now))
    {
      hide IsValidAcquiredLease, TakeStart, TakeCallStop, TakeStopSettles, TakeRunTick, TakeRenewReturns,
        TakeFencedCallback, TakeJobEnds;
      if lease.None? || !IsValidAcquiredLease(State(), lease.value, now) {
        FinishTick(tick);
        return;
      }
      leaseActive := true;
      current := lease;
      controller := Some(tick);
      lostError := false;
      ticks := ticks[tick := Running];
      Schedule();
    }

    method TimerFires()
      requires Enabled(State(), Step.TimerFires)
      modifies this
      ensures State() == Take(old(State()), Step.TimerFires)
    {
      timer := false;
      renewal := true;
    }

    method RenewReturns(lease: Option<Lease>, now: int)
      requires Enabled(State(), Step.RenewReturns(lease, now))
      modifies this
      ensures State() == Take(old(State()), Step.RenewReturns(lease, now))
    {
      if lease.None? || !IsValidAcquiredLease(State(), lease.value, now) {
        Abort();
      } else {
        current := lease;
        Schedule();
      }
      renewal := false;
    }

    method RequestFenced(id: nat, tick: nat)
      requires Enabled(State(), Step.RequestFenced(id, tick))
      modifies this
      ensures State() == Take(old(State()), Step.RequestFenced(id, tick))
    {
      if tick in aborted {
        return;
      }
      fenced := fenced[id := tick];
    }

    method FencedCallback(id: nat, lease: Lease, now: int) returns (writeStarts: bool)
      requires Enabled(State(), Step.FencedCallback(id, lease, now))
      modifies this
      ensures State() == Take(old(State()), Step.FencedCallback(id, lease, now))
      ensures writeStarts == WriteStarts(old(State()), id, lease, now)
    {
      if !IsValidAcquiredLease(State(), lease, now) {
        Abort();
        return false;
      }
      current := Some(lease);
      if fenced[id] in aborted {
        return false;
      }
      return true;
    }

    method FencedSettles(id: nat, leaseLost: bool)
      requires Enabled(State(), Step.FencedSettles(id, leaseLost))
      modifies this
      ensures State() == Take(old(State()), Step.FencedSettles(id, leaseLost))
    {
      if leaseLost {
        Abort();
      }
      fenced := fenced - {id};
    }

    method JobEnds(tick: nat)
      requires Enabled(State(), Step.JobEnds(tick))
      modifies this
      ensures State() == Take(old(State()), Step.JobEnds(tick))
    {
      StopRenewalLoop();
      ticks := ticks[tick := Draining];
    }

    method Drained(tick: nat) returns (leaseToRelease: Option<Lease>)
      requires Enabled(State(), Step.Drained(tick))
      modifies this
      ensures State() == Take(old(State()), Step.Drained(tick))
      ensures leaseToRelease == old(State()).lease.current
    {
      leaseToRelease := current;
      current := None;
      ticks := ticks[tick := Releasing];
    }

    method ReleaseReturns(tick: nat)
      requires Enabled(State(), Step.ReleaseReturns(tick))
      modifies this
      ensures State() == Take(old(State()), Step.ReleaseReturns(tick))
    {
      FinishTick(tick);
    }
  }
}
