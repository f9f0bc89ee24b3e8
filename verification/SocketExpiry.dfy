/** The timer that ends a socket's connection when its access token expires. Delays longer than a timer
    can hold are cut, and the callback arms the next stretch. One socket; several lifecycles may follow
    each other on it, and callbacks may come at any time, also those of cleared timers. */
module SocketExpiry {
  import opened Wrappers

  const MAX_TIMEOUT_MS := 0x7fffffff
  const MAX_SAFE_INTEGER := 9007199254740991

  /** `_authExpiryLifecycle`; `timer` is an index into the timers ever set. */
  datatype Lifecycle = Lifecycle(completed: bool, generation: nat, timer: Option<nat>)

  /** A timer: whose callback, for which generation, set when and for how long; `live` until it fires or
      is cleared. */
  datatype Timer = Timer(lifecycle: nat, generation: nat, setAt: int, delay: int, live: bool)

  /** A disconnect for expiry: of which lifecycle, when, and what expiry the socket had then. */
  datatype Disconnect = Disconnect(lifecycle: nat, at: int, expiry: Option<int>)

  /** `accessTokenExpiresAt` (nothing when it is no integer), the current lifecycle, and all lifecycles,
      timers and disconnects so far. */
  datatype State =
    State(expiry: Option<int>, current: Option<nat>, lifecycles: seq<Lifecycle>, timers: seq<Timer>,
      disconnects: seq<Disconnect>)

  /** `normalizeSocketExpiry` */
  function NormalizeExpiry(value: Option<int>): Option<int> {
    if value.Some? && 0 < value.value <= MAX_SAFE_INTEGER then value else None
  }

  predicate InRange(s: State) {
    && (s.current.Some? ==> s.current.value < |s.lifecycles|)
    && (forall l :: 0 <= l < |s.lifecycles| && s.lifecycles[l].timer.Some? ==> s.lifecycles[l].timer.value < |s.timers|)
    && forall t :: 0 <= t < |s.timers| ==> s.timers[t].lifecycle < |s.lifecycles|
  }

  // ----- The functions, as changes of state -----

  function Complete(s: State, l: nat): State
    requires l < |s.lifecycles|
  {
    s.(lifecycles := s.lifecycles[l := s.lifecycles[l].(completed := true)])
  }

  /** `clearSocketExpiryTimer`: clears the timer of the current lifecycle. */
  function Clear(s: State): (r: State)
    requires InRange(s)
    ensures InRange(r) && |r.lifecycles| == |s.lifecycles| && |r.timers| == |s.timers|
  {
    if s.current.None? || s.lifecycles[s.current.value].timer.None? then s else
      var l := s.current.value;
      var t := s.lifecycles[l].timer.value;
      s.(timers := s.timers[t := s.timers[t].(live := false)],
         lifecycles := s.lifecycles[l := s.lifecycles[l].(timer := None)])
  }

  /** `disconnectSocketForAuthExpiry` */
  function DisconnectForExpiry(s: State, l: nat, now: int): (r: State)
    requires InRange(s) && l < |s.lifecycles|
    ensures InRange(r)
  {
    if s.lifecycles[l].completed then s else
      Clear(Complete(s, l)).(disconnects := s.disconnects + [Disconnect(l, now, s.expiry)])
  }

  function Min(a: int, b: int): int { if a < b then a else b }

  /** `armSocketExpiryTimer` */
  function Arm(s: State, l: nat, now: int): (r: State)
    requires InRange(s) && l < |s.lifecycles|
    ensures InRange(r)
  {
    if s.lifecycles[l].completed then s else
      var cleared, expiresAt := Clear(s), NormalizeExpiry(s.expiry);
      if expiresAt.None? || expiresAt.value - now <= 0 then DisconnectForExpiry(cleared, l, now)
      else Set(cleared, l, now, Min(expiresAt.value - now, MAX_TIMEOUT_MS))
  }

  /** Sets the timer of a new generation. */
  function Set(s: State, l: nat, now: int, delay: int): (r: State)
    requires InRange(s) && l < |s.lifecycles|
    ensures InRange(r)
  {
    var generation := s.lifecycles[l].generation + 1;
    s.(timers := s.timers + [Timer(l, generation, now, delay, true)],
       lifecycles := s.lifecycles[l := s.lifecycles[l].(generation := generation, timer := Some(|s.timers|))])
  }

  /** A timer's callback: only the one of the current lifecycle's current generation arms again. */
  function Fire(s: State, t: nat, now: int): (r: State)
    requires InRange(s) && t < |s.timers|
    ensures InRange(r)
  {
    var timer := s.timers[t];
    var fired := s.(timers := s.timers[t := timer.(live := false)]);
    if s.current != Some(timer.lifecycle) || s.lifecycles[timer.lifecycle].completed
       || s.lifecycles[timer.lifecycle].generation != timer.generation then fired
    else Arm(fired, timer.lifecycle, now)
  }

  /** The listener of the socket's own `disconnect` event. */
  function OnDisconnect(s: State): (r: State)
    requires InRange(s)
    ensures InRange(r)
  {
    if s.current.None? then s else Clear(Complete(s, s.current.value))
  }

  /** `installAuthenticatedSocketLifecycle`: retires the lifecycle there is and arms a new one. */
  function Install(s: State, now: int): (r: State)
    requires InRange(s)
    ensures InRange(r)
  {
    var retired, l := OnDisconnect(s), |s.lifecycles|;
    Arm(retired.(lifecycles := retired.lifecycles + [Lifecycle(false, 0, None)], current := Some(l)), l, now)
  }

  /** A socket with its lifecycles; each method does what the function of its name says. */
  class AuthSocket {
    var expiry: Option<int>
    var current: Option<nat>
    var lifecycles: seq<Lifecycle>
    var timers: seq<Timer>
    var disconnects: seq<Disconnect>

    ghost function Abstract(): State reads this { State(expiry, current, lifecycles, timers, disconnects) }

    constructor (expiry: Option<int>)
      ensures Abstract() == State(expiry, None, [], [], [])
    {
      this.expiry, current, lifecycles, timers, disconnects := expiry, None, [], [], [];
    }

    method ClearSocketExpiryTimer()
      requires InRange(Abstract())
      modifies this`timers, this`lifecycles
      ensures Abstract() == Clear(old(Abstract()))
    {
      if current.None? || lifecycles[current.value].timer.None? { return; }
      var l := current.value;
      var t := lifecycles[l].timer.value;
      timers := timers[t := timers[t].(live := false)];
      lifecycles := lifecycles[l := lifecycles[l].(timer := None)];
    }

    method DisconnectSocketForAuthExpiry(l: nat, now: int) returns (disconnected: bool)
      requires InRange(Abstract()) && l < |lifecycles|
      modifies this`timers, this`lifecycles, this`disconnects
      ensures Abstract() == DisconnectForExpiry(old(Abstract()), l, now)
      ensures disconnected <==> !old(lifecycles[l]).completed
    {
      if lifecycles[l].completed { return false; }
      lifecycles := lifecycles[l := lifecycles[l].(completed := true)];
      ClearSocketExpiryTimer();
      disconnects := disconnects + [Disconnect(l, now, expiry)];
      return true;
    }

    method ArmSocketExpiryTimer(l: nat, now: int)
      requires InRange(Abstract()) && l < |lifecycles|
      modifies this`timers, this`lifecycles, this`disconnects
      ensures Abstract() == Arm(old(Abstract()), l, now)
    {
      if lifecycles[l].completed { return; }
      ClearSocketExpiryTimer();
      var expiresAt := NormalizeExpiry(expiry);
      if expiresAt.None? {
        var _ := DisconnectSocketForAuthExpiry(l, now);
        return;
      }
      var remaining := expiresAt.value - now;
      if remaining <= 0 {
        var _ := DisconnectSocketForAuthExpiry(l, now);
        return;
      }
      var generation, delay := lifecycles[l].generation + 1, Min(remaining, MAX_TIMEOUT_MS);
      lifecycles := lifecycles[l := lifecycles[l].(generation := generation, timer := Some(|timers|))];
      timers := timers + [Timer(l, generation, now, delay, true)];
    }

    method TimerFired(t: nat, now: int)
      requires InRange(Abstract()) && t < |timers|
      modifies this`timers, this`lifecycles, this`disconnects
      ensures Abstract() == Fire(old(Abstract()), t, now)
    {
      var timer := timers[t];
      timers := timers[t := timer.(live := false)];
      if current != Some(timer.lifecycle) || lifecycles[timer.lifecycle].completed
         || lifecycles[timer.lifecycle].generation != timer.generation
      {
        return;
      }
      ArmSocketExpiryTimer(timer.lifecycle, now);
    }

    method Disconnected()
      requires InRange(Abstract())
      modifies this`timers, this`lifecycles
      ensures Abstract() == OnDisconnect(old(Abstract()))
    {
      if current.None? { return; }
      lifecycles := lifecycles[current.value := lifecycles[current.value].(completed := true)];
      ClearSocketExpiryTimer();
    }

    method InstallAuthenticatedSocketLifecycle(now: int) returns (installed: bool)
      requires InRange(Abstract())
      modifies this`timers, this`lifecycles, this`disconnects, this`current
      ensures Abstract() == Install(old(Abstract()), now)
      ensures current == Some(|old(lifecycles)|) && |lifecycles| == |old(lifecycles)| + 1
      ensures installed <==> !lifecycles[|old(lifecycles)|].completed
    {
      Disconnected();
      var l := |lifecycles|;
      lifecycles := lifecycles + [Lifecycle(false, 0, None)];
      current := Some(l);
      ArmSocketExpiryTimer(l, now);
      return !lifecycles[l].completed;
    }
  }

  // ----- The invariant -----

  /** A live timer is the one timer of the current lifecycle, which is not completed. */
  predicate LiveOk(s: State, t: nat)
    requires InRange(s) && t < |s.timers|
  {
    var l := s.timers[t].lifecycle;
    s.timers[t].live ==> s.current == Some(l) && !s.lifecycles[l].completed && s.lifecycles[l].timer == Some(t)
  }

  /** No timer has a generation its lifecycle has not reached, and no two share one. */
  predicate GenerationsOk(s: State)
    requires InRange(s)
  {
    && (forall t :: 0 <= t < |s.timers| ==> s.timers[t].generation <= s.lifecycles[s.timers[t].lifecycle].generation)
    && forall t, u :: 0 <= t < u < |s.timers| && s.timers[t].lifecycle == s.timers[u].lifecycle ==>
      s.timers[t].generation != s.timers[u].generation
  }

  /** Unless it is the one in hand, an uncompleted lifecycle is the current one and waits for a live timer
      of its latest generation. */
  predicate WaitsOk(s: State, l: nat)
    requires InRange(s) && l < |s.lifecycles|
  {
    !s.lifecycles[l].completed ==>
      && s.current == Some(l) && s.lifecycles[l].timer.Some?
      && var t := s.lifecycles[l].timer.value;
         s.timers[t].live && s.timers[t].lifecycle == l && s.timers[t].generation == s.lifecycles[l].generation
  }

  /** A disconnect came once, of a completed lifecycle, and not before a valid expiry. */
  predicate DisconnectsOk(s: State) {
    && (forall i :: 0 <= i < |s.disconnects| ==>
          var d := s.disconnects[i];
          && d.lifecycle < |s.lifecycles| && s.lifecycles[d.lifecycle].completed
          && (NormalizeExpiry(d.expiry).Some? ==> d.expiry.value <= d.at))
    && forall i, j :: 0 <= i < j < |s.disconnects| ==> s.disconnects[i].lifecycle != s.disconnects[j].lifecycle
  }

  predicate DelaysOk(s: State) {
    forall t :: 0 <= t < |s.timers| ==> 1 <= s.timers[t].delay <= MAX_TIMEOUT_MS
  }

  /** The part of the invariant that also holds while a function is at work on lifecycle `hand`. */
  predicate Sound(s: State, hand: Option<nat>) {
    && InRange(s) && GenerationsOk(s) && DisconnectsOk(s) && DelaysOk(s)
    && (forall t :: 0 <= t < |s.timers| ==> LiveOk(s, t))
    && forall l :: 0 <= l < |s.lifecycles| && hand != Some(l) ==> WaitsOk(s, l)
  }

  predicate Inv(s: State) { Sound(s, None) }

  lemma ClearIsSound(s: State)
    requires Sound(s, s.current) && s.current.Some?
    ensures Sound(Clear(s), s.current) && forall t :: 0 <= t < |s.timers| ==> !Clear(s).timers[t].live
  {
    hide WaitsOk, DisconnectsOk, GenerationsOk, DelaysOk;
    var r := Clear(s);
    forall t | 0 <= t < |s.timers| ensures !r.timers[t].live { assert LiveOk(s, t); }
    ClearKeepsOthers(s);
  }

  lemma ClearKeepsOthers(s: State)
    requires Sound(s, s.current) && s.current.Some?
    ensures GenerationsOk(Clear(s)) && DisconnectsOk(Clear(s)) && DelaysOk(Clear(s))
    ensures forall l :: 0 <= l < |s.lifecycles| && s.current != Some(l) ==> WaitsOk(Clear(s), l)
  {
    hide LiveOk;
    forall l | 0 <= l < |s.lifecycles| && s.current != Some(l) ensures WaitsOk(Clear(s), l) { assert WaitsOk(s, l); }
  }

  /** Without live timers, completing the current lifecycle leaves nothing in hand. */
  lemma CompleteIsSound(s: State, l: nat)
    requires Sound(s, s.current) && s.current == Some(l) && forall t :: 0 <= t < |s.timers| ==> !s.timers[t].live
    ensures Sound(Complete(s, l), None)
  {
    var r := Complete(s, l);
    forall k | 0 <= k < |s.lifecycles| ensures WaitsOk(r, k) { if k != l { assert WaitsOk(s, k); } }
  }

  lemma CompletedIsSound(s: State, l: nat)
    requires Sound(s, s.current) && s.current == Some(l)
    ensures Sound(Clear(Complete(s, l)), None)
  {
    assert Clear(Complete(s, l)) == Complete(Clear(s), l);
    ClearKeeps(s);
    ClearIsSound(s);
    hide Clear, Sound, Complete;
    CompleteIsSound(Clear(s), l);
  }

  lemma DisconnectIsSound(s: State, l: nat, now: int)
    requires Sound(s, s.current) && s.current == Some(l) && !s.lifecycles[l].completed
    requires NormalizeExpiry(s.expiry).Some? ==> s.expiry.value <= now
    ensures Sound(DisconnectForExpiry(s, l, now), None)
  {
    hide Clear, LiveOk, WaitsOk, GenerationsOk, DelaysOk;
    CompletedIsSound(s, l);
    ClearKeeps(Complete(s, l));
    OneMoreDisconnect(s, l, now);
    RecordIsSound(Clear(Complete(s, l)), DisconnectForExpiry(s, l, now));
  }

  lemma OneMoreDisconnect(s: State, l: nat, now: int)
    requires Sound(s, s.current) && s.current == Some(l) && !s.lifecycles[l].completed
    requires NormalizeExpiry(s.expiry).Some? ==> s.expiry.value <= now
    ensures DisconnectsOk(DisconnectForExpiry(s, l, now))
    ensures var r, q := DisconnectForExpiry(s, l, now), Clear(Complete(s, l)); r == q.(disconnects := r.disconnects)
  {
    hide Clear, LiveOk, WaitsOk, GenerationsOk, DelaysOk;
    ClearKeeps(Complete(s, l));
  }

  /** Adding to the record of disconnects touches nothing else. */
  lemma RecordIsSound(s: State, r: State)
    requires Sound(s, None) && r == s.(disconnects := r.disconnects) && DisconnectsOk(r)
    ensures Sound(r, None)
  {
    hide DisconnectsOk;
    forall t | 0 <= t < |s.timers| ensures LiveOk(r, t) { assert LiveOk(s, t); }
    forall l | 0 <= l < |s.lifecycles| ensures WaitsOk(r, l) { assert WaitsOk(s, l); }
  }

  lemma ClearKeeps(s: State)
    requires InRange(s)
    ensures Clear(s).disconnects == s.disconnects && Clear(s).expiry == s.expiry && Clear(s).current == s.current
    ensures forall l :: 0 <= l < |s.lifecycles| ==>
      && Clear(s).lifecycles[l].completed == s.lifecycles[l].completed
      && Clear(s).lifecycles[l].generation == s.lifecycles[l].generation
  {
  }

  lemma SetIsSound(s: State, l: nat, now: int, delay: int)
    requires Sound(s, s.current) && s.current == Some(l) && !s.lifecycles[l].completed
    requires forall t :: 0 <= t < |s.timers| ==> !s.timers[t].live
    requires 1 <= delay <= MAX_TIMEOUT_MS
    ensures Sound(Set(s, l, now, delay), None)
  {
  }

  lemma ArmIsSound(s: State, l: nat, now: int)
    requires Sound(s, s.current) && s.current == Some(l) && !s.lifecycles[l].completed
    ensures Sound(Arm(s, l, now), None)
  {
    hide LiveOk, WaitsOk, GenerationsOk, DisconnectsOk, DelaysOk, Clear, Set, DisconnectForExpiry;
    ClearIsSound(s);
    ClearKeeps(s);
    var cleared, expiresAt := Clear(s), NormalizeExpiry(s.expiry);
    if expiresAt.None? || expiresAt.value - now <= 0 {
      DisconnectIsSound(cleared, l, now);
    } else {
      SetIsSound(cleared, l, now, Min(expiresAt.value - now, MAX_TIMEOUT_MS));
    }
  }

  /** A callback finds its timer live exactly when it is to act; a stale one changes nothing at all. */
  lemma StaleCallbackIsInert(s: State, t: nat, now: int)
    requires Inv(s) && t < |s.timers|
    ensures var timer := s.timers[t];
      var stale := s.current != Some(timer.lifecycle) || s.lifecycles[timer.lifecycle].completed
        || s.lifecycles[timer.lifecycle].generation != timer.generation;
      (stale <==> !timer.live) && (stale ==> Fire(s, t, now) == s)
  {
    hide DisconnectsOk, DelaysOk, Arm;
    var timer := s.timers[t];
    assert LiveOk(s, t) && WaitsOk(s, timer.lifecycle);
    if !timer.live { assert s.timers[t := timer.(live := false)] == s.timers; }
  }

  /** With its timer spent, the lifecycle is in hand. */
  lemma SpentIsSound(s: State, t: nat)
    requires Inv(s) && t < |s.timers| && s.timers[t].live
    ensures Sound(s.(timers := s.timers[t := s.timers[t].(live := false)]), s.current)
  {
    var r := s.(timers := s.timers[t := s.timers[t].(live := false)]);
    forall u | 0 <= u < |s.timers| ensures LiveOk(r, u) { assert LiveOk(s, u) && LiveOk(s, t); }
    forall l | 0 <= l < |s.lifecycles| && s.current != Some(l) ensures WaitsOk(r, l) {
      assert WaitsOk(s, l) && LiveOk(s, t);
    }
  }

  lemma FireKeepsInv(s: State, t: nat, now: int)
    requires Inv(s) && t < |s.timers|
    ensures Inv(Fire(s, t, now))
  {
    StaleCallbackIsInert(s, t, now);
    if s.timers[t].live {
      SpentIsSound(s, t);
      hide Arm, Sound, InRange;
      ArmIsSound(s.(timers := s.timers[t := s.timers[t].(live := false)]), s.timers[t].lifecycle, now);
    }
  }

  /** After a disconnect every lifecycle is completed and no timer is live. */
  lemma OnDisconnectKeepsInv(s: State)
    requires Inv(s)
    ensures Inv(OnDisconnect(s))
    ensures var r := OnDisconnect(s);
      (forall l :: 0 <= l < |r.lifecycles| ==> r.lifecycles[l].completed)
        && (forall t :: 0 <= t < |r.timers| ==> !r.timers[t].live)
  {
    var r := OnDisconnect(s);
    if s.current.Some? {
      hide LiveOk, WaitsOk, GenerationsOk, DisconnectsOk, DelaysOk, Clear;
      CompletedIsSound(s, s.current.value);
      ClearKeeps(Complete(s, s.current.value));
    }
    NoneOpen(r);
  }

  lemma NoneOpen(s: State)
    requires Inv(s) && (s.current.Some? ==> s.lifecycles[s.current.value].completed)
    ensures forall l :: 0 <= l < |s.lifecycles| ==> s.lifecycles[l].completed
    ensures forall t :: 0 <= t < |s.timers| ==> !s.timers[t].live
  {
    forall l | 0 <= l < |s.lifecycles| ensures s.lifecycles[l].completed { assert WaitsOk(s, l); }
    forall t | 0 <= t < |s.timers| ensures !s.timers[t].live { assert LiveOk(s, t); }
  }

  lemma NewLifecycleIsSound(s: State)
    requires Inv(s)
    requires forall l :: 0 <= l < |s.lifecycles| ==> s.lifecycles[l].completed
    requires forall t :: 0 <= t < |s.timers| ==> !s.timers[t].live
    ensures var l := |s.lifecycles|;
      Sound(s.(lifecycles := s.lifecycles + [Lifecycle(false, 0, None)], current := Some(l)), Some(l))
  {
  }

  lemma InstallKeepsInv(s: State, now: int)
    requires Inv(s)
    ensures Inv(Install(s, now))
  {
    var retired, l := OnDisconnect(s), |s.lifecycles|;
    OnDisconnectKeepsInv(s);
    NewLifecycleIsSound(retired);
    ArmIsSound(retired.(lifecycles := retired.lifecycles + [Lifecycle(false, 0, None)], current := Some(l)), l, now);
  }

  // ----- Runs -----

  datatype Step = SetExpiry(value: Option<int>) | Installed | Fired(t: nat) | Disconnected

  function Take(s: State, step: Step, now: int): State
    requires InRange(s) && (step.Fired? ==> step.t < |s.timers|)
  {
    match step
    case SetExpiry(value) => s.(expiry := value)
    case Installed => Install(s, now)
    case Fired(t) => Fire(s, t, now)
    case Disconnected => OnDisconnect(s)
  }

  /** A run: states, steps, and the clock at each step, which does not go back. */
  ghost predicate IsRun(states: seq<State>, steps: seq<Step>, clock: seq<int>) {
    && |states| == |steps| + 1 && |clock| == |steps|
    && states[0] == State(states[0].expiry, None, [], [], [])
    && (forall i, j :: 0 <= i < j < |clock| ==> clock[i] <= clock[j])
    && forall i :: 0 <= i < |steps| ==>
         && InRange(states[i]) && (steps[i].Fired? ==> steps[i].t < |states[i].timers|)
         && states[i + 1] == Take(states[i], steps[i], clock[i])
  }

  lemma StepKeepsInv(s: State, step: Step, now: int)
    requires Inv(s) && (step.Fired? ==> step.t < |s.timers|)
    ensures Inv(Take(s, step, now))
  {
    match step {
      case SetExpiry(value) => ExpiryKeepsInv(s, value);
      case Installed => InstallKeepsInv(s, now);
      case Fired(t) => FireKeepsInv(s, t, now);
      case Disconnected => OnDisconnectKeepsInv(s);
    }
  }

  lemma ExpiryKeepsInv(s: State, value: Option<int>)
    requires Inv(s)
    ensures Inv(s.(expiry := value))
  {
    var r := s.(expiry := value);
    forall t | 0 <= t < |s.timers| ensures LiveOk(r, t) { assert LiveOk(s, t); }
    forall l | 0 <= l < |s.lifecycles| ensures WaitsOk(r, l) { assert WaitsOk(s, l); }
  }

  lemma {:induction false} RunKeepsInv(states: seq<State>, steps: seq<Step>, clock: seq<int>, i: nat)
    requires IsRun(states, steps, clock) && i < |states|
    ensures Inv(states[i])
  {
    if i > 0 {
      hide Take, Inv;
      RunKeepsInv(states, steps, clock, i - 1);
      StepKeepsInv(states[i - 1], steps[i - 1], clock[i - 1]);
    }
  }

  // ----- Main results -----

  /** At most one timer is live, it is one of the current lifecycle, every delay fits, and while a
      lifecycle is not completed its timer is live, so an expiry is never forgotten. */
  lemma OneTimerAndItFits(states: seq<State>, steps: seq<Step>, clock: seq<int>, i: nat)
    requires IsRun(states, steps, clock) && i < |states|
    ensures var s := states[i];
      && (forall t, u :: 0 <= t < |s.timers| && 0 <= u < |s.timers| && s.timers[t].live && s.timers[u].live ==> t == u)
      && (forall t :: 0 <= t < |s.timers| ==> 1 <= s.timers[t].delay <= 2_147_483_647)
      && (forall l :: 0 <= l < |s.lifecycles| && !s.lifecycles[l].completed ==>
            s.current == Some(l) && exists t :: 0 <= t < |s.timers| && s.timers[t].live && s.timers[t].lifecycle == l)
  {
    RunKeepsInv(states, steps, clock, i);
    var s := states[i];
    hide GenerationsOk, DisconnectsOk, IsRun;
    forall t, u | 0 <= t < |s.timers| && 0 <= u < |s.timers| && s.timers[t].live && s.timers[u].live ensures t == u {
      assert LiveOk(s, t) && LiveOk(s, u);
    }
    forall l | 0 <= l < |s.lifecycles| && !s.lifecycles[l].completed
      ensures s.current == Some(l) && exists t :: 0 <= t < |s.timers| && s.timers[t].live && s.timers[t].lifecycle == l
    {
      assert WaitsOk(s, l);
    }
  }

  /** A lifecycle disconnects for expiry at most once, is completed from then on, and never does so while
      a valid expiry still lies ahead. */
  lemma DisconnectsOnceAndNotEarly(states: seq<State>, steps: seq<Step>, clock: seq<int>, i: nat)
    requires IsRun(states, steps, clock) && i < |states|
    ensures var s := states[i];
      && (forall j :: 0 <= j < |s.disconnects| ==>
            var d := s.disconnects[j];
            && d.lifecycle < |s.lifecycles| && s.lifecycles[d.lifecycle].completed
            && !LiesAhead(d.expiry, d.at))
      && forall j, k :: 0 <= j < k < |s.disconnects| ==> s.disconnects[j].lifecycle != s.disconnects[k].lifecycle
  {
    RunKeepsInv(states, steps, clock, i);
  }

  /** A safe integer later than now. */
  predicate LiesAhead(expiry: Option<int>, now: int) {
    expiry.Some? && 0 < expiry.value <= 9_007_199_254_740_991 && now < expiry.value
  }

  /** Whether the state follows from `s` by the connection of lifecycle `l` going on: it has a new live timer,
      of the next generation, that runs out at the expiry or after 2^31 - 1 milliseconds, whichever is
      earlier, and no disconnect is added. */
  ghost predicate GoesOn(s: State, r: State, l: nat, generation: nat, now: int) {
    && s.expiry.Some? && l < |r.lifecycles| && !r.lifecycles[l].completed && r.current == Some(l)
    && r.disconnects == s.disconnects && |r.timers| == |s.timers| + 1
    && var delay := if s.expiry.value - now < 2_147_483_647 then s.expiry.value - now else 2_147_483_647;
       r.timers[|s.timers|] == Timer(l, generation, now, delay, true)
  }

  /** Whether it follows by lifecycle `l` being ended for expiry: completed, without a timer, and with one more
      disconnect. */
  ghost predicate Ends(s: State, r: State, l: nat, now: int) {
    && l < |r.lifecycles| && r.lifecycles[l].completed && r.lifecycles[l].timer.None? && r.current == Some(l)
    && r.disconnects == s.disconnects + [Disconnect(l, now, s.expiry)]
    && |r.timers| == |s.timers| && forall t :: 0 <= t < |r.timers| ==> !r.timers[t].live
  }

  /** A connection goes on exactly while its expiry is a safe integer that lies ahead: that is decided when
      its lifecycle is installed, and again whenever its live timer fires; otherwise it ends there. */
  lemma GoesOnExactlyWhileValid(states: seq<State>, steps: seq<Step>, clock: seq<int>, i: nat)
    requires IsRun(states, steps, clock) && i < |steps|
    ensures var s, r, now := states[i], states[i + 1], clock[i];
      match steps[i]
      case Installed =>
        var l := |s.lifecycles|;
        && |r.lifecycles| == l + 1 && (forall k :: 0 <= k < l ==> r.lifecycles[k].completed)
        && if LiesAhead(s.expiry, now) then GoesOn(s, r, l, 1, now) else Ends(s, r, l, now)
      case Fired(t) =>
        var l, generation := s.timers[t].lifecycle, s.timers[t].generation;
        s.timers[t].live ==>
          if LiesAhead(s.expiry, now) then GoesOn(s, r, l, generation + 1, now) else Ends(s, r, l, now)
      case Disconnected =>
        && r.disconnects == s.disconnects
        && (s.current.Some? ==>
              s.current.value < |r.lifecycles| && r.lifecycles[s.current.value].completed
              && r.lifecycles[s.current.value].timer.None?)
      case SetExpiry(value) => r == s.(expiry := value)
  {
    RunKeepsInv(states, steps, clock, i);
    RunKeepsInv(states, steps, clock, i + 1);
    var s, r, now := states[i], states[i + 1], clock[i];
    hide Inv, GoesOn, Ends, LiesAhead, Install, Fire, OnDisconnect;
    match steps[i] {
      case SetExpiry(_) =>
      case Disconnected => ClearKeepsDisconnects(s);
      case Installed => InstallOutcome(s, now);
      case Fired(t) => if s.timers[t].live { FireOutcome(s, t, now); }
    }
  }

  lemma InstallOutcome(s: State, now: int)
    requires Inv(s) && Inv(Install(s, now))
    ensures var r, l := Install(s, now), |s.lifecycles|;
      && |r.lifecycles| == l + 1 && (forall k :: 0 <= k < l ==> r.lifecycles[k].completed)
      && if LiesAhead(s.expiry, now) then GoesOn(s, r, l, 1, now) else Ends(s, r, l, now)
  {
    hide GenerationsOk, DisconnectsOk, DelaysOk, Arm, OnDisconnect;
    var r, retired, l := Install(s, now), OnDisconnect(s), |s.lifecycles|;
    ClearKeepsDisconnects(s);
    ArmOutcome(retired.(lifecycles := retired.lifecycles + [Lifecycle(false, 0, None)], current := Some(l)), l, now);
    forall k | 0 <= k < l ensures r.lifecycles[k].completed { assert WaitsOk(r, k); }
    if !LiesAhead(s.expiry, now) { NoneOpen(r); }
  }

  lemma FireOutcome(s: State, t: nat, now: int)
    requires Inv(s) && t < |s.timers| && s.timers[t].live && Inv(Fire(s, t, now))
    ensures var r, l := Fire(s, t, now), s.timers[t].lifecycle;
      if LiesAhead(s.expiry, now) then GoesOn(s, r, l, s.timers[t].generation + 1, now) else Ends(s, r, l, now)
  {
    hide GenerationsOk, DisconnectsOk, DelaysOk, Arm;
    assert LiveOk(s, t) && WaitsOk(s, s.timers[t].lifecycle);
    ArmOutcome(s.(timers := s.timers[t := s.timers[t].(live := false)]), s.timers[t].lifecycle, now);
    if !LiesAhead(s.expiry, now) { NoneOpen(Fire(s, t, now)); }
  }

  lemma ClearKeepsDisconnects(s: State)
    requires InRange(s)
    ensures OnDisconnect(s).disconnects == s.disconnects && OnDisconnect(s).expiry == s.expiry
    ensures |OnDisconnect(s).lifecycles| == |s.lifecycles| && |OnDisconnect(s).timers| == |s.timers|
    ensures s.current.Some? ==>
      var lifecycle := OnDisconnect(s).lifecycles[s.current.value]; lifecycle.completed && lifecycle.timer.None?
  {
  }

  lemma ArmOutcome(s: State, l: nat, now: int)
    requires InRange(s) && l < |s.lifecycles| && s.current == Some(l) && !s.lifecycles[l].completed
    ensures var r := Arm(s, l, now);
      if LiesAhead(s.expiry, now) then GoesOn(s, r, l, s.lifecycles[l].generation + 1, now)
      else
        && l < |r.lifecycles| && r.lifecycles[l].completed && r.lifecycles[l].timer.None? && r.current == Some(l)
        && r.disconnects == s.disconnects + [Disconnect(l, now, s.expiry)] && |r.timers| == |s.timers|
    ensures |Arm(s, l, now).lifecycles| == |s.lifecycles|
  {
  }

  // ----- Arming again ends -----

  /** A run in which the expiry stays as it was and no timer fires before its time. */
  ghost predicate IsPunctual(states: seq<State>, steps: seq<Step>, clock: seq<int>) {
    && IsRun(states, steps, clock)
    && forall i :: 0 <= i < |steps| ==>
         && !steps[i].SetExpiry?
         && (steps[i].Fired? ==> var timer := states[i].timers[steps[i].t]; timer.setAt + timer.delay <= clock[i])
  }

  /** A timer either runs out at the expiry or is of full length, and one that is not the first of its
      lifecycle was set after the full length of the one before. */
  ghost predicate Paced(s: State, t: int)
    requires 0 <= t < |s.timers|
  {
    var timer := s.timers[t];
    && s.expiry.Some? && 1 <= timer.generation
    && timer.setAt + timer.delay <= s.expiry.value
    && (timer.setAt + timer.delay == s.expiry.value || timer.delay == MAX_TIMEOUT_MS)
    && (timer.generation > 1 ==> exists u :: IsBefore(s, u, t))
  }

  ghost predicate IsBefore(s: State, u: int, t: int) {
    && 0 <= u < |s.timers| && 0 <= t < |s.timers|
    && s.timers[u].lifecycle == s.timers[t].lifecycle && s.timers[u].generation + 1 == s.timers[t].generation
    && s.timers[u].setAt + MAX_TIMEOUT_MS <= s.timers[t].setAt
  }

  ghost predicate AllPaced(s: State) { forall t :: 0 <= t < |s.timers| ==> Paced(s, t) }

  /** Whether a state has the timers of an earlier one, up to liveness, and its expiry. */
  ghost predicate Extends(s: State, r: State) {
    && r.expiry == s.expiry && |s.timers| <= |r.timers|
    && forall t :: 0 <= t < |s.timers| ==> r.timers[t] == s.timers[t].(live := r.timers[t].live)
  }

  lemma PacedExtends(s: State, r: State, t: nat)
    requires Extends(s, r) && t < |s.timers| && Paced(s, t)
    ensures Paced(r, t)
  {
    if s.timers[t].generation > 1 {
      var u :| IsBefore(s, u, t);
      assert IsBefore(r, u, t);
    }
  }

  /** What a call of `armSocketExpiryTimer` adds. */
  lemma ArmAdds(s: State, l: nat, now: int)
    requires InRange(s) && l < |s.lifecycles|
    ensures var r := Arm(s, l, now);
      && Extends(s, r)
      && (|r.timers| == |s.timers| ||
           (|r.timers| == |s.timers| + 1 && NormalizeExpiry(s.expiry).Some? && now < s.expiry.value
            && r.timers[|s.timers|] ==
              Timer(l, s.lifecycles[l].generation + 1, now, Min(s.expiry.value - now, MAX_TIMEOUT_MS), true)))
  {
    ClearKeeps(s);
  }

  lemma FireIsPaced(s: State, t: nat, now: int)
    requires Inv(s) && AllPaced(s) && t < |s.timers| && s.timers[t].setAt + s.timers[t].delay <= now
    ensures AllPaced(Fire(s, t, now))
  {
    StaleCallbackIsInert(s, t, now);
    if s.timers[t].live {
      var timer := s.timers[t];
      var fired := s.(timers := s.timers[t := timer.(live := false)]);
      ArmAdds(fired, timer.lifecycle, now);
      var r := Fire(s, t, now);
      hide Arm, Inv, Fire;
      assert Extends(s, r);
      forall u | 0 <= u < |r.timers| ensures Paced(r, u) {
        if u < |s.timers| {
          PacedExtends(s, r, u);
        } else {
          assert Paced(s, t);
          assert IsBefore(r, t, u);
        }
      }
    }
  }

  lemma InstallIsPaced(s: State, now: int)
    requires Inv(s) && AllPaced(s)
    ensures AllPaced(Install(s, now))
  {
    var retired, l := OnDisconnect(s), |s.lifecycles|;
    var anew := retired.(lifecycles := retired.lifecycles + [Lifecycle(false, 0, None)], current := Some(l));
    ArmAdds(anew, l, now);
    var r := Install(s, now);
    DisconnectExtends(s);
    hide Arm, Inv, OnDisconnect, Install;
    forall u | 0 <= u < |r.timers| ensures Paced(r, u) { if u < |s.timers| { PacedExtends(s, r, u); } }
  }

  lemma DisconnectExtends(s: State)
    requires InRange(s)
    ensures Extends(s, OnDisconnect(s)) && |OnDisconnect(s).timers| == |s.timers|
    ensures |OnDisconnect(s).lifecycles| == |s.lifecycles|
  {
  }

  lemma {:induction false} RunIsPaced(states: seq<State>, steps: seq<Step>, clock: seq<int>, i: nat)
    requires IsPunctual(states, steps, clock) && i < |states|
    ensures AllPaced(states[i])
  {
    if i > 0 {
      RunIsPaced(states, steps, clock, i - 1);
      RunKeepsInv(states, steps, clock, i - 1);
      var s, now := states[i - 1], clock[i - 1];
      hide AllPaced, Inv, Fire, Install, OnDisconnect;
      match steps[i - 1] {
        case Installed => InstallIsPaced(s, now);
        case Fired(t) => FireIsPaced(s, t, now);
        case Disconnected => DisconnectIsPaced(s);
      }
    }
  }

  lemma DisconnectIsPaced(s: State)
    requires InRange(s) && AllPaced(s)
    ensures AllPaced(OnDisconnect(s))
  {
    DisconnectExtends(s);
    forall u | 0 <= u < |s.timers| ensures Paced(OnDisconnect(s), u) { PacedExtends(s, OnDisconnect(s), u); }
  }

  /** From a timer back to the first of its lifecycle. */
  lemma {:induction false} FirstTimer(s: State, t: nat) returns (first: nat)
    requires AllPaced(s) && t < |s.timers|
    ensures first < |s.timers| && s.timers[first].lifecycle == s.timers[t].lifecycle && s.timers[first].generation == 1
    ensures s.timers[first].setAt + (s.timers[t].generation - 1) * MAX_TIMEOUT_MS <= s.timers[t].setAt
    decreases s.timers[t].generation
  {
    assert Paced(s, t);
    if s.timers[t].generation == 1 {
      first := t;
    } else {
      var u :| IsBefore(s, u, t);
      first := FirstTimer(s, u);
    }
  }

  /** Arming again ends: a lifecycle whose first timer was set with `remaining` milliseconds to go sets at
      most `remaining / (2^31 - 1)`, rounded up, timers in all, for each one but the last took away its
      full length. */
  lemma RearmingEnds(states: seq<State>, steps: seq<Step>, clock: seq<int>, i: nat, t: nat)
    requires IsPunctual(states, steps, clock) && i < |states| && t < |states[i].timers|
    ensures var s := states[i];
      exists first :: 0 <= first < |s.timers|
        && s.timers[first].lifecycle == s.timers[t].lifecycle && s.timers[first].generation == 1
        && s.expiry.Some? && (s.timers[t].generation - 1) * 2_147_483_647 < s.expiry.value - s.timers[first].setAt
  {
    RunIsPaced(states, steps, clock, i);
    RunKeepsInv(states, steps, clock, i);
    var s := states[i];
    var first := FirstTimer(s, t);
    assert Paced(s, t) && 1 <= s.timers[t].delay;
  }
}
