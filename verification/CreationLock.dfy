/** `withBookingCreationLock`: a queue of promises per key. A call waits for the promise its key had on
    entry, then runs its task, then lets the next one go; every pause is a point where other calls and
    tasks may move. */
module CreationLock {
  import opened Wrappers

  /** How a task ended; both ways pass through the `finally` block. */
  datatype Outcome = Returned(result: int) | Threw(error: string)

  datatype Phase = Waiting | Running | Done(outcome: Outcome)

  /** One call: its key, the call whose promise it found under the key, and how far it got. */
  datatype Call = Call(key: string, previous: Option<nat>, phase: Phase)

  /** All calls in the order they were made, and the lock map: for a key, the call that set its promise. */
  datatype State = State(calls: seq<Call>, locks: map<string, nat>)

  /** A call's promise, `previousLock.then(() => currentLock, ...)`: settled when the promise before it is
      settled and the call has released its own. It never rejects. */
  predicate Settled(calls: seq<Call>, i: nat)
    requires i < |calls|
  {
    && calls[i].phase.Done?
    && (calls[i].previous.Some? && calls[i].previous.value < i ==> Settled(calls, calls[i].previous.value))
  }

  /** The promise a call waits for is settled. */
  predicate MayStart(calls: seq<Call>, i: nat)
    requires i < |calls|
  {
    && calls[i].phase.Waiting?
    && (calls[i].previous.Some? && calls[i].previous.value < |calls| ==> Settled(calls, calls[i].previous.value))
  }

  datatype Step = Enter(key: string) | Start(i: nat) | Finish(i: nat, outcome: Outcome)

  predicate Enabled(s: State, step: Step) {
    match step
    case Enter(_) => true
    case Start(i) => i < |s.calls| && MayStart(s.calls, i)
    case Finish(i, _) => i < |s.calls| && s.calls[i].phase.Running?
  }

  function SetPhase(calls: seq<Call>, i: nat, phase: Phase): seq<Call>
    requires i < |calls|
  {
    calls[i := calls[i].(phase := phase)]
  }

  function Get(locks: map<string, nat>, key: string): Option<nat> { if key in locks then Some(locks[key]) else None }

  function Take(s: State, step: Step): State
    requires Enabled(s, step)
  {
    match step
    case Enter(key) => State(s.calls + [Call(key, Get(s.locks, key), Waiting)], s.locks[key := |s.calls|])
    case Start(i) => s.(calls := SetPhase(s.calls, i, Running))
    case Finish(i, outcome) =>
      var key := s.calls[i].key;
      State(SetPhase(s.calls, i, Done(outcome)), if Get(s.locks, key) == Some(i) then s.locks - {key} else s.locks)
  }

  /** The module-level map and the calls that share it. */
  class BookingCreationLocks {
    var calls: seq<Call>
    var locks: map<string, nat>

    ghost function Abstract(): State reads this { State(calls, locks) }

    constructor ()
      ensures Abstract() == State([], map[])
    {
      calls, locks := [], map[];
    }

    /** The part of a call up to its first pause. */
    method Enter(key: string) returns (i: nat)
      modifies this
      ensures i == |old(calls)| && Abstract() == Take(old(Abstract()), Step.Enter(key))
    {
      i := |calls|;
      var previousLock := Get(locks, key);
      locks := locks[key := i];
      calls := calls + [Call(key, previousLock, Waiting)];
    }

    /** The wait is over and the call starts its task. */
    method Start(i: nat)
      requires Enabled(Abstract(), Step.Start(i))
      modifies this`calls
      ensures Abstract() == Take(old(Abstract()), Step.Start(i))
    {
      calls := SetPhase(calls, i, Running);
    }

    /** The call's own task ends, either way: release, and forget the key if no later call has taken it over. */
    method Finish(i: nat, outcome: Outcome)
      requires Enabled(Abstract(), Step.Finish(i, outcome))
      modifies this
      ensures Abstract() == Take(old(Abstract()), Step.Finish(i, outcome))
    {
      calls := SetPhase(calls, i, Done(outcome));
      var key := calls[i].key;
      if Get(locks, key) == Some(i) {
        locks := locks - {key};
      }
    }
  }

  ghost predicate IsRun(states: seq<State>, steps: seq<Step>) {
    && |states| == |steps| + 1 && states[0] == State([], map[])
    && forall i :: 0 <= i < |steps| ==> Enabled(states[i], steps[i]) && states[i + 1] == Take(states[i], steps[i])
  }

  // ----- The invariant -----

  /** A call waits for the call before it on its key; where it found no promise, all those are done. */
  ghost predicate Linked(calls: seq<Call>, i: nat)
    requires i < |calls|
  {
    match calls[i].previous
    case None => forall j :: 0 <= j < i && calls[j].key == calls[i].key ==> calls[j].phase.Done?
    case Some(p) => p < i && calls[p].key == calls[i].key && forall j :: p < j < i ==> calls[j].key != calls[i].key
  }

  /** Whoever has started finds every earlier call on its key done. */
  ghost predicate InTurn(calls: seq<Call>, i: nat)
    requires i < |calls|
  {
    !calls[i].phase.Waiting? ==> forall j :: 0 <= j < i && calls[j].key == calls[i].key ==> calls[j].phase.Done?
  }

  /** The map names the last call on a key, as long as it is not done. */
  ghost predicate LockOk(s: State, key: string) {
    if key in s.locks then
      && s.locks[key] < |s.calls| && s.calls[s.locks[key]].key == key && !s.calls[s.locks[key]].phase.Done?
      && forall j :: s.locks[key] < j < |s.calls| ==> s.calls[j].key != key
    else forall j :: 0 <= j < |s.calls| && s.calls[j].key == key ==> s.calls[j].phase.Done?
  }

  ghost predicate Inv(s: State) {
    && (forall i :: 0 <= i < |s.calls| ==> Linked(s.calls, i) && InTurn(s.calls, i))
    && forall key :: LockOk(s, key)
  }

  lemma EnterKeepsInv(s: State, key: string)
    requires Inv(s)
    ensures Inv(Take(s, Enter(key)))
  {
    var t := Take(s, Enter(key));
    assert LockOk(s, key);
    forall i | 0 <= i < |t.calls| ensures Linked(t.calls, i) && InTurn(t.calls, i) {
      if i < |s.calls| { assert Linked(s.calls, i) && InTurn(s.calls, i); }
    }
    forall other ensures LockOk(t, other) { assert LockOk(s, other); }
  }

  lemma StartKeepsInv(s: State, i: nat)
    requires Inv(s) && Enabled(s, Start(i))
    ensures Inv(Take(s, Start(i)))
  {
    var t := Take(s, Start(i));
    assert Linked(s.calls, i);
    if s.calls[i].previous.Some? { assert InTurn(s.calls, s.calls[i].previous.value); }
    forall j | 0 <= j < |t.calls| ensures Linked(t.calls, j) && InTurn(t.calls, j) {
      assert Linked(s.calls, j) && InTurn(s.calls, j);
    }
    forall key ensures LockOk(t, key) { assert LockOk(s, key); }
  }

  lemma FinishKeepsInv(s: State, i: nat, outcome: Outcome)
    requires Inv(s) && Enabled(s, Finish(i, outcome))
    ensures Inv(Take(s, Finish(i, outcome)))
  {
    var t := Take(s, Finish(i, outcome));
    assert InTurn(s.calls, i) && LockOk(s, s.calls[i].key);
    forall j | 0 <= j < |t.calls| ensures Linked(t.calls, j) && InTurn(t.calls, j) {
      assert Linked(s.calls, j) && InTurn(s.calls, j);
    }
    forall key ensures LockOk(t, key) { assert LockOk(s, key); }
  }

  lemma {:induction false} RunKeepsInv(states: seq<State>, steps: seq<Step>, i: nat)
    requires IsRun(states, steps) && i < |states|
    ensures Inv(states[i])
  {
    if i > 0 {
      hide Take, Enabled, Inv;
      RunKeepsInv(states, steps, i - 1);
      match steps[i - 1] {
        case Enter(key) => EnterKeepsInv(states[i - 1], key);
        case Start(j) => StartKeepsInv(states[i - 1], j);
        case Finish(j, outcome) => FinishKeepsInv(states[i - 1], j, outcome);
      }
    } else {
      assert Inv(State([], map[]));
    }
  }

  // ----- Main results -----

  /** Tasks on one key never overlap, and they start and end in the order of the calls, also when they
      throw: once a call has started, every earlier call on its key has ended and no later one has
      started while it runs. */
  lemma OneAtATimeInOrder(states: seq<State>, steps: seq<Step>, n: nat, i: nat, j: nat)
    requires IsRun(states, steps) && n < |states|
    requires i < j < |states[n].calls| && states[n].calls[i].key == states[n].calls[j].key
    ensures !states[n].calls[j].phase.Waiting? ==> states[n].calls[i].phase.Done?
    ensures states[n].calls[i].phase.Running? ==> states[n].calls[j].phase.Waiting?
  {
    RunKeepsInv(states, steps, n);
    assert InTurn(states[n].calls, j);
  }

  /** The map has an entry for a key exactly while a task on it is queued or running. */
  lemma EntryWhileBusy(states: seq<State>, steps: seq<Step>, n: nat, key: string)
    requires IsRun(states, steps) && n < |states|
    ensures key in states[n].locks <==>
      exists i :: 0 <= i < |states[n].calls| && states[n].calls[i].key == key && !states[n].calls[i].phase.Done?
  {
    RunKeepsInv(states, steps, n);
    assert LockOk(states[n], key);
  }

  lemma {:induction false} DoneIsSettled(s: State, i: nat)
    requires Inv(s) && i < |s.calls| && s.calls[i].phase.Done?
    ensures Settled(s.calls, i)
  {
    assert Linked(s.calls, i) && InTurn(s.calls, i);
    if s.calls[i].previous.Some? {
      DoneIsSettled(s, s.calls[i].previous.value);
    }
  }

  lemma {:induction false} FirstUnfinished(s: State, i: nat) returns (j: nat)
    requires Inv(s) && i < |s.calls| && !s.calls[i].phase.Done?
    ensures j <= i && s.calls[j].key == s.calls[i].key && (s.calls[j].phase.Running? || MayStart(s.calls, j))
  {
    assert Linked(s.calls, i) && InTurn(s.calls, i);
    j := i;
    if s.calls[i].phase.Waiting? && s.calls[i].previous.Some? {
      var p := s.calls[i].previous.value;
      if s.calls[p].phase.Done? {
        DoneIsSettled(s, p);
      } else {
        j := FirstUnfinished(s, p);
      }
    }
  }

  /** A continuation in which no new call is made. */
  ghost predicate Continues(s: State, states: seq<State>, steps: seq<Step>) {
    && |states| == |steps| + 1 && states[0] == s
    && forall i :: 0 <= i < |steps| ==>
         !steps[i].Enter? && Enabled(states[i], steps[i]) && states[i + 1] == Take(states[i], steps[i])
  }

  /** One more step of a continuation. */
  lemma Snoc(s: State, states: seq<State>, steps: seq<Step>, step: Step)
    requires Continues(s, states, steps) && !step.Enter? && Enabled(states[|steps|], step)
    ensures Continues(s, states + [Take(states[|steps|], step)], steps + [step])
  {
    hide Take, Enabled;
  }

  /** What the two steps of a call do to the calls. */
  lemma CallMoves(s: State, i: nat, outcome: Outcome)
    requires Inv(s) && i < |s.calls|
    ensures MayStart(s.calls, i) ==>
      var t := Take(s, Start(i)); Inv(t) && t.calls == s.calls[i := s.calls[i].(phase := Running)]
    ensures s.calls[i].phase.Running? ==>
      var t := Take(s, Finish(i, outcome)); Inv(t) && t.calls == s.calls[i := s.calls[i].(phase := Done(outcome))]
  {
    if MayStart(s.calls, i) { StartKeepsInv(s, i); }
    if s.calls[i].phase.Running? { FinishKeepsInv(s, i, outcome); }
  }

  lemma {:induction false} Finishes(s: State, i: nat, outcome: Outcome) returns (states: seq<State>, steps: seq<Step>)
    requires Inv(s) && i < |s.calls|
    ensures Continues(s, states, steps) && Inv(states[|steps|]) && |states[|steps|].calls| == |s.calls|
    ensures states[|steps|].calls[i].phase == if s.calls[i].phase.Done? then s.calls[i].phase else Done(outcome)
    ensures forall j :: i < j < |s.calls| ==> states[|steps|].calls[j] == s.calls[j]
    decreases i
  {
    states, steps := [s], [];
    if s.calls[i].phase.Done? { return; }
    if s.calls[i].phase.Waiting? {
      assert Linked(s.calls, i);
      if s.calls[i].previous.Some? {
        states, steps := Finishes(s, s.calls[i].previous.value, outcome);
        DoneIsSettled(states[|steps|], s.calls[i].previous.value);
      }
      hide Take, Inv, Settled, Continues;
      CallMoves(states[|steps|], i, outcome);
      Snoc(s, states, steps, Start(i));
      states, steps := states + [Take(states[|steps|], Start(i))], steps + [Start(i)];
    }
    hide Take, Inv, MayStart, Continues;
    CallMoves(states[|steps|], i, outcome);
    Snoc(s, states, steps, Finish(i, outcome));
    states, steps := states + [Take(states[|steps|], Finish(i, outcome))], steps + [Finish(i, outcome)];
  }

  /** Every call can be brought to its end, with whatever outcome its task has, by starting and finishing calls
      alone: those before it on its key, one by one, and then itself. */
  lemma EveryCallCanFinish(states: seq<State>, steps: seq<Step>, n: nat, i: nat, outcome: Outcome)
    returns (later: seq<State>, more: seq<Step>)
    requires IsRun(states, steps) && n < |states| && i < |states[n].calls| && !states[n].calls[i].phase.Done?
    ensures Continues(states[n], later, more)
    ensures |later[|more|].calls| == |states[n].calls| && later[|more|].calls[i].phase == Done(outcome)
  {
    RunKeepsInv(states, steps, n);
    later, more := Finishes(states[n], i, outcome);
  }

  /** A new call waits behind the others, and its place among them is its own. */
  lemma NewCallWaits(s: State, key: string)
    ensures var t := Take(s, Enter(key));
      |t.calls| == |s.calls| + 1 && t.calls[..|s.calls|] == s.calls
      && t.calls[|s.calls|].key == key && t.calls[|s.calls|].phase == Waiting && key in t.locks
  {
  }

  /** No call waits forever behind tasks that end: as long as one is unfinished, some call on its key, no
      later than it, is running or free to start. */
  lemma NoDeadlock(states: seq<State>, steps: seq<Step>, n: nat, i: nat)
    requires IsRun(states, steps) && n < |states| && i < |states[n].calls| && !states[n].calls[i].phase.Done?
    ensures exists j :: 0 <= j <= i && states[n].calls[j].key == states[n].calls[i].key
              && (states[n].calls[j].phase.Running? || MayStart(states[n].calls, j))
  {
    RunKeepsInv(states, steps, n);
    var j := FirstUnfinished(states[n], i);
  }
}
