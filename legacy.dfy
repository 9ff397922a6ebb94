/**
 * The older engine of jquery.maenulabs.simula.js. Observable, the event
 * descriptors, EventSimulator and the Simulation builder behave as in the
 * current engine; what differs is modelled here: a Simulator without
 * `stop` whose `execute` refuses with another message, a SimulatorQueue
 * that advances and finishes through `proceed`, and a TimeSimulator whose
 * timer cannot be cancelled.
 */
module Legacy {
  import opened Basics
  import opened Engine

  /** What the older `execute` throws when the simulator is already running. */
  const LEGACY_ALREADY_RUNNING: string := "SimulatorQueue is already running"

  /** The older Simulator: `execute` and `finish`, and no `stop`. */
  class LegacySimulator {
    const kind: Kind
    const observable: Observable
    var running: bool

    ghost predicate Valid()
      reads this, observable
    {
      observable.Valid()
    }

    constructor (kind: Kind)
      ensures Valid() && this.kind == kind && !running
      ensures fresh(observable) && observable.observers == []
    {
      this.kind := kind;
      observable := new Observable();
      running := false;
    }

    /** `execute`: refuse when already running, otherwise start running. */
    method Execute() returns (error: Option<Error>)
      modifies this
      ensures running
      ensures error == if old(running) then Some(AlreadyRunning(LEGACY_ALREADY_RUNNING)) else None
    {
      if running {
        return Some(AlreadyRunning(LEGACY_ALREADY_RUNNING));
      }
      running := true;
      error := None;
    }

    /** `finish`: stop running and tell every observer 'finish'. */
    method Finish() returns (calls: seq<Call>)
      modifies this
      ensures !running
      ensures calls == Broadcast(observable.observers, this, Finished)
    {
      running := false;
      calls := observable.UpdateObservers(this, Finished);
    }
  }

  /**
   * The older SimulatorQueue: `proceed` moves to the next simulator and,
   * once past the last one, resets the position and finishes.
   */
  class LegacyQueue {
    const base: LegacySimulator
    var simulators: seq<LegacySimulator>
    /** The position of the running simulator, or -1. */
    var currentIndex: int

    ghost predicate Valid()
      reads this, base, base.observable
    {
      base.Valid() && base.kind == Sequence &&
      (if base.running then 0 <= currentIndex < |simulators| else currentIndex == -1)
    }

    /** `(observable, args)` is the 'finish' of the simulator running now. */
    predicate IsCurrentFinish(observable: object, args: Payload)
      reads this
    {
      args == Finished && 0 <= currentIndex < |simulators| && observable == simulators[currentIndex]
    }

    constructor (simulators: seq<LegacySimulator>)
      ensures Valid() && this.simulators == simulators && !base.running
      ensures fresh(base) && fresh(base.observable) && base.observable.observers == []
    {
      this.simulators := simulators;
      base := new LegacySimulator(Sequence);
      currentIndex := -1;
    }

    /**
     * `proceed`: step the position; past the last simulator, reset it to
     * -1 and finish, otherwise observe and execute the simulator there.
     * It is called only while the queue runs, from before the first
     * simulator or from a simulator that has just finished.
     */
    method Proceed() returns (calls: seq<Call>)
      requires base.Valid() && base.kind == Sequence && base.running
      requires -1 <= currentIndex < |simulators|
      modifies this, base
      ensures Valid() && simulators == old(simulators)
      ensures old(currentIndex) + 1 < |simulators| ==>
                base.running && currentIndex == old(currentIndex) + 1 &&
                calls == [Subscribe(simulators[currentIndex]), Run(simulators[currentIndex])]
      ensures old(currentIndex) + 1 == |simulators| ==>
                !base.running && currentIndex == -1 &&
                calls == Broadcast(base.observable.observers, base, Finished)
    {
      currentIndex := currentIndex + 1;
      if currentIndex == |simulators| {
        currentIndex := -1;
        calls := base.Finish();
        return;
      }
      var simulator := simulators[currentIndex];
      calls := [Subscribe(simulator), Run(simulator)];
    }

    /** `execute`: refuse when running, otherwise `proceed` from before the first simulator. */
    method Execute() returns (r: Result<seq<Call>, Error>)
      requires Valid()
      modifies this, base
      ensures Valid() && simulators == old(simulators)
      ensures old(base.running) ==>
                r == Err(AlreadyRunning(LEGACY_ALREADY_RUNNING)) && base.running && currentIndex == old(currentIndex)
      ensures !old(base.running) && |simulators| > 0 ==>
                base.running && currentIndex == 0 && r == Ok([Subscribe(simulators[0]), Run(simulators[0])])
      ensures !old(base.running) && |simulators| == 0 ==>
                !base.running && currentIndex == -1 && r == Ok(Broadcast(base.observable.observers, base, Finished))
    {
      var error := base.Execute();
      if error.Some? {
        return Err(error.value);
      }
      var calls := Proceed();
      r := Ok(calls);
    }

    /**
     * `updateObservable(observable, args)`: only the running simulator's
     * 'finish' counts; it is unobserved and the queue proceeds.
     */
    method UpdateObservable(observable: object, args: Payload) returns (calls: seq<Call>)
      requires Valid()
      modifies this, base
      ensures Valid() && simulators == old(simulators)
      ensures !old(IsCurrentFinish(observable, args)) ==>
                calls == [] && currentIndex == old(currentIndex) && base.running == old(base.running)
      ensures old(IsCurrentFinish(observable, args)) && old(currentIndex) < |simulators| - 1 ==>
                base.running && currentIndex == old(currentIndex) + 1 &&
                calls == [Unsubscribe(observable), Subscribe(simulators[currentIndex]), Run(simulators[currentIndex])]
      ensures old(IsCurrentFinish(observable, args)) && old(currentIndex) == |simulators| - 1 ==>
                !base.running && currentIndex == -1 &&
                calls == [Unsubscribe(observable)] + Broadcast(base.observable.observers, base, Finished)
    {
      if args != Finished || currentIndex < 0 || currentIndex >= |simulators| || observable != simulators[currentIndex] {
        return [];
      }
      var next := Proceed();
      calls := [Unsubscribe(observable)] + next;
    }
  }

  /** The older TimeSimulator: finishes `time` milliseconds after it is executed; nothing cancels it. */
  class LegacyTimeSimulator {
    const base: LegacySimulator
    const time: nat
    /** The timeout armed by `execute` has not fired yet. */
    ghost var timerPending: bool

    ghost predicate Valid()
      reads this, base, base.observable
    {
      base.Valid() && base.kind == Delay(time) && timerPending == base.running
    }

    constructor (time: nat)
      ensures Valid() && this.time == time && !base.running
      ensures fresh(base) && fresh(base.observable) && base.observable.observers == []
    {
      this.time := time;
      base := new LegacySimulator(Delay(time));
      timerPending := false;
    }

    /** `execute`: start running and arm a timeout of `time` ms. */
    method Execute() returns (r: Result<seq<Call>, Error>)
      requires Valid()
      modifies this, base
      ensures Valid() && base.running && timerPending
      ensures r == if old(base.running) then Err(AlreadyRunning(LEGACY_ALREADY_RUNNING)) else Ok([SetTimeout(time)])
    {
      var error := base.Execute();
      if error.Some? {
        return Err(error.value);
      }
      timerPending := true;
      r := Ok([SetTimeout(time)]);
    }

    /** The timeout fires: `finish`. */
    method Expire() returns (calls: seq<Call>)
      requires Valid() && timerPending
      modifies this, base
      ensures Valid() && !base.running && !timerPending
      ensures calls == Broadcast(base.observable.observers, base, Finished)
    {
      timerPending := false;
      calls := base.Finish();
    }
  }

  /**
   * A host that delivers each child's 'finish' as soon as the child is
   * executed: the older queue also runs its children strictly in order,
   * finishes after the last and ends reset.
   */
  method LegacyRunToEnd(q: LegacyQueue) returns (trace: seq<Call>)
    requires q.Valid() && !q.base.running
    modifies q, q.base
    ensures q.Valid() && !q.base.running && q.currentIndex == -1 && q.simulators == old(q.simulators)
    ensures trace == InOrder(q.simulators) + Broadcast(q.base.observable.observers, q.base, Finished)
  {
    var started := q.Execute();
    trace := started.value;
    if |q.simulators| == 0 {
      return;
    }
    while q.base.running
      invariant q.Valid() && q.simulators == old(q.simulators)
      invariant q.base.running ==>
                  trace == InOrder(q.simulators[..q.currentIndex]) +
                           [Subscribe(q.simulators[q.currentIndex]), Run(q.simulators[q.currentIndex])]
      invariant !q.base.running ==>
                  trace == InOrder(q.simulators) + Broadcast(q.base.observable.observers, q.base, Finished)
      decreases if q.base.running then |q.simulators| - q.currentIndex else 0
    {
      var i := q.currentIndex;
      var child := q.simulators[i];
      assert q.simulators[..i + 1][..i] == q.simulators[..i];
      var calls := q.UpdateObservable(child, Finished);
      trace := trace + calls;
      if i + 1 == |q.simulators| {
        assert q.simulators[..i + 1] == q.simulators;
      }
    }
  }

  /** Each run of the older queue executes every child exactly once, in order, and a second run replays the first. */
  method LegacyRerunReplays(q: LegacyQueue) returns (first: seq<Call>, second: seq<Call>)
    requires q.Valid() && !q.base.running
    modifies q, q.base
    ensures first == second
    ensures Runs(first) == old(q.simulators)
  {
    first := LegacyRunToEnd(q);
    second := LegacyRunToEnd(q);
    InOrderRunsEach(q.simulators);
    RunsAppend(InOrder(q.simulators), Broadcast(q.base.observable.observers, q.base, Finished));
    NoRunsInBroadcast(q.base.observable.observers, q.base, Finished);
  }
}
