/**
 * The simulator engine: Observable, the Simulator state machine and its
 * three concrete simulators (TimeSimulator, EventSimulator,
 * SimulatorQueue). Everything a simulator would do to another object or to
 * the browser (notify an observer, start a child, arm a timer, dispatch a
 * native event) is handed back to the caller as a `Call`, in the order the
 * source performs it; the caller plays the part of the host and delivers
 * those calls.
 */
module Engine {
  import opened Basics
  import opened Dom
  import opened Events

  /**
   * The `args` an Observable passes to its observers: 'finish', 'stop' or
   * any other string. `PayloadOf` reads a string this way, so `Other`
   * never holds "finish" or "stop".
   */
  datatype Payload = Finished | Stopped | Other(text: string)

  /** The `args` string as the observers compare it (`args != 'finish'`). */
  function PayloadOf(args: string): (p: Payload)
    ensures p == Finished <==> args == "finish"
    ensures p == Stopped <==> args == "stop"
    ensures p.Other? ==> p.text == args && args != "finish" && args != "stop"
  {
    if args == "finish" then Finished else if args == "stop" then Stopped else Other(args)
  }

  /** What `execute` throws when the simulator is already running. */
  datatype Error = AlreadyRunning(message: string)

  const ALREADY_RUNNING: string := "Simulator is already running"

  /**
   * A native W3C MouseEvent built from a descriptor
   * (`document.createEvent` + `initMouseEvent`). It is an object, so the
   * event an EventSimulator dispatched can be told apart from any other.
   */
  class NativeEvent {
    const init: MouseEvent

    constructor (init: MouseEvent)
      ensures this.init == init
    {
      this.init := init;
    }
  }

  /** A call a simulator makes on another object or on the browser. */
  datatype Call =
    | Notify(observer: object, source: object, args: Payload)      // observer.updateObservable(source, args)
    | Subscribe(child: object)                                     // child.addObserver(this)
    | Unsubscribe(child: object)                                   // child.removeObserver(this)
    | Run(child: object)                                           // child.execute()
    | Halt(child: object)                                          // child.stop()
    | SetTimeout(delay: nat)                                       // setTimeout(finish, delay)
    | ClearTimeout                                                 // clearTimeout(timeoutId)
    | AddListener(target: Elem, eventType: Option<EventType>)      // addEventListener(type, listener, false)
    | RemoveListener(target: Elem, eventType: Option<EventType>)   // removeEventListener(type, listener, false)
    | DispatchNative(target: Elem, event: NativeEvent)             // dispatchEvent(event)

  /** The calls `updateObservers(source, args)` makes: one notification per observer, in order. */
  function Broadcast(observers: seq<object>, source: object, args: Payload): (calls: seq<Call>)
    ensures |calls| == |observers|
    ensures forall i :: 0 <= i < |observers| ==> calls[i] == Notify(observers[i], source, args)
  {
    seq(|observers|, i requires 0 <= i < |observers| => Notify(observers[i], source, args))
  }

  /** No element of `s` occurs twice. */
  predicate Distinct<T(==)>(s: seq<T>) {
    forall i, j :: 0 <= i < j < |s| ==> s[i] != s[j]
  }

  /** The position of the first `x` in `s`, or `|s|` when there is none. */
  function IndexOf<T(==)>(s: seq<T>, x: T): (i: nat)
    ensures i <= |s| && x !in s[..i]
    ensures i < |s| ==> s[i] == x
    ensures i == |s| <==> x !in s
  {
    if s == [] then 0
    else if s[0] == x then 0
    else
      var i := 1 + IndexOf(s[1..], x);
      assert s[..i] == [s[0]] + s[1..][..i - 1];
      i
  }

  /**
   * `s` with the first occurrence of `x` spliced out, or `s` itself when
   * `x` does not occur.
   */
  function Without<T(==)>(s: seq<T>, x: T): (r: seq<T>)
    ensures x !in s ==> r == s
    ensures x in s ==> |r| == |s| - 1
    ensures multiset(r) == multiset(s) - multiset{x}
  {
    var i := IndexOf(s, x);
    if i == |s| then s
    else
      assert s == s[..i] + [x] + s[i + 1..];
      s[..i] + s[i + 1..]
  }

  /** Splicing out position `i` shifts every later element down by one. */
  lemma SpliceAt<T>(s: seq<T>, i: nat, k: nat)
    requires i < |s| && k < |s| - 1
    ensures (s[..i] + s[i + 1..])[k] == s[if k < i then k else k + 1]
  {
  }

  /** Splicing a position out of a list without duplicates leaves none. */
  lemma SpliceDistinct<T>(s: seq<T>, i: nat)
    requires Distinct(s) && i < |s|
    ensures Distinct(s[..i] + s[i + 1..])
  {
    var r := s[..i] + s[i + 1..];
    forall a, b | 0 <= a < b < |r|
      ensures r[a] != r[b]
    {
      SpliceAt(s, i, a);
      SpliceAt(s, i, b);
    }
  }

  /** Splicing position `i` out of a list without duplicates removes exactly `s[i]`. */
  lemma SpliceMembers<T>(s: seq<T>, i: nat)
    requires Distinct(s) && i < |s|
    ensures forall y :: y in s[..i] + s[i + 1..] <==> y in s && y != s[i]
  {
    var r := s[..i] + s[i + 1..];
    forall y
      ensures y in r <==> y in s && y != s[i]
    {
      if y in s && y != s[i] {
        var k :| 0 <= k < |s| && s[k] == y;
        if k < i {
          SpliceAt(s, i, k);
        } else {
          SpliceAt(s, i, k - 1);
        }
      }
      if y in r {
        var k :| 0 <= k < |r| && r[k] == y;
        SpliceAt(s, i, k);
      }
    }
  }

  /** Removing an element from a list without duplicates leaves none, and keeps all others. */
  lemma WithoutDistinct<T>(s: seq<T>, x: T)
    requires Distinct(s)
    ensures Distinct(Without(s, x))
    ensures forall y :: y in Without(s, x) <==> y in s && y != x
  {
    var i := IndexOf(s, x);
    if i < |s| {
      SpliceDistinct(s, i);
      SpliceMembers(s, i);
    }
  }

  /**
   * Observable: a list of observers without duplicates, each told of every
   * update in the order it subscribed.
   */
  class Observable {
    var observers: seq<object>

    ghost predicate Valid()
      reads this
    {
      Distinct(observers)
    }

    constructor ()
      ensures Valid() && observers == []
    {
      observers := [];
    }

    /** `addObserver`: append `observer` unless it is already subscribed. */
    method AddObserver(observer: object)
      requires Valid()
      modifies this
      ensures Valid()
      ensures observer in old(observers) ==> observers == old(observers)
      ensures observer !in old(observers) ==> observers == old(observers) + [observer]
    {
      for i := 0 to |observers|
        invariant observer !in observers[..i]
      {
        if observers[i] == observer {
          return;
        }
      }
      assert observers[..|observers|] == observers;
      observers := observers + [observer];
    }

    /** `removeObserver`: splice `observer` out of the list, if it is there. */
    method RemoveObserver(observer: object)
      requires Valid()
      modifies this
      ensures Valid()
      ensures observers == Without(old(observers), observer)
    {
      WithoutDistinct(observers, observer);
      for i := 0 to |observers|
        invariant observer !in observers[..i]
      {
        if observers[i] == observer {
          observers := observers[..i] + observers[i + 1..];
          return;
        }
      }
      assert observers[..|observers|] == observers;
    }

    /** `updateObservers(observable, args)`: notify every observer, in subscription order. */
    method UpdateObservers(source: object, args: Payload) returns (calls: seq<Call>)
      ensures |calls| == |observers|
      ensures forall i :: 0 <= i < |observers| ==> calls[i] == Notify(observers[i], source, args)
    {
      calls := [];
      for i := 0 to |observers|
        invariant |calls| == i
        invariant forall k :: 0 <= k < i ==> calls[k] == Notify(observers[k], source, args)
      {
        calls := calls + [Notify(observers[i], source, args)];
      }
    }
  }

  /** What a simulator does once executed. */
  datatype Kind =
    | Delay(time: nat)                          // TimeSimulator: finish after `time` ms
    | Dispatch(target: Elem, event: MouseEvent) // EventSimulator: dispatch `event` on `target`
    | Sequence                                  // SimulatorQueue
    | Gesture                                   // Simulation

  /**
   * Simulator: the running flag shared by every simulator, with
   * execute / finish / stop. Each concrete simulator holds one as `base`.
   */
  class Simulator {
    const kind: Kind
    const observable: Observable
    var running: bool

    ghost predicate Valid()
      reads this, observable
    {
      observable.Valid()
    }

    constructor (kind: Kind)
      ensures Valid() && this.kind == kind && !running
      ensures fresh(observable) && observable.observers == []
    {
      this.kind := kind;
      observable := new Observable();
      running := false;
    }

    /** `execute`: refuse when already running, otherwise start running. */
    method Execute() returns (error: Option<Error>)
      modifies this
      ensures running
      ensures error == if old(running) then Some(AlreadyRunning(ALREADY_RUNNING)) else None
    {
      if running {
        return Some(AlreadyRunning(ALREADY_RUNNING));
      }
      running := true;
      error := None;
    }

    /** `finish`: stop running and tell every observer 'finish'. */
    method Finish() returns (calls: seq<Call>)
      modifies this
      ensures !running
      ensures calls == Broadcast(observable.observers, this, Finished)
    {
      running := false;
      calls := observable.UpdateObservers(this, Finished);
    }

    /** `stop`: when running, stop and tell every observer 'stop'; otherwise do nothing. */
    method Stop() returns (calls: seq<Call>)
      modifies this
      ensures !running
      ensures calls == if old(running) then Broadcast(observable.observers, this, Stopped) else []
    {
      calls := [];
      if running {
        running := false;
        calls := observable.UpdateObservers(this, Stopped);
      }
    }
  }

  /** TimeSimulator: finishes `time` milliseconds after it is executed. */
  class TimeSimulator {
    const base: Simulator
    const time: nat
    /** A timeout is armed (`timeoutId` names a live timer). */
    var timerPending: bool

    ghost predicate Valid()
      reads this, base, base.observable
    {
      base.Valid() && base.kind == Delay(time) && timerPending == base.running
    }

    constructor (time: nat)
      ensures Valid() && this.time == time && !base.running
      ensures fresh(base) && fresh(base.observable) && base.observable.observers == []
    {
      this.time := time;
      base := new Simulator(Delay(time));
      timerPending := false;
    }

    /** `execute`: start running and arm a timeout of `time` ms. */
    method Execute() returns (r: Result<seq<Call>, Error>)
      requires Valid()
      modifies this, base
      ensures Valid() && base.running && timerPending
      ensures r == if old(base.running) then Err(AlreadyRunning(ALREADY_RUNNING)) else Ok([SetTimeout(time)])
    {
      var error := base.Execute();
      if error.Some? {
        return Err(error.value);
      }
      timerPending := true;
      r := Ok([SetTimeout(time)]);
    }

    /** The timeout fires: `finish`. The host fires only an armed timeout. */
    method Expire() returns (calls: seq<Call>)
      requires Valid() && timerPending
      modifies this, base
      ensures Valid() && !base.running && !timerPending
      ensures calls == Broadcast(base.observable.observers, base, Finished)
    {
      timerPending := false;
      calls := base.Finish();
    }

    /**
     * `stop`: when running, cancel the timeout and stop. Afterwards no
     * timeout is armed, so this simulator will not finish by itself.
     */
    method Stop() returns (calls: seq<Call>)
      requires Valid()
      modifies this, base
      ensures Valid() && !base.running && !timerPending
      ensures calls == if old(base.running) then [ClearTimeout] + Broadcast(base.observable.observers, base, Stopped) else []
    {
      calls := [];
      if base.running {
        calls := [ClearTimeout];
        timerPending := false;
      }
      var stopped := base.Stop();
      calls := calls + stopped;
    }
  }

  /**
   * EventSimulator: dispatches one native event on its target and finishes
   * when that very event reaches the listener it installed.
   */
  class EventSimulator {
    const base: Simulator
    const target: Elem
    const simulaEvent: MouseEvent
    /** The native event last dispatched, until it has been handled. */
    var event: NativeEvent?
    /** `listener` is the installed proxy rather than the initial no-op. */
    var listening: bool

    ghost predicate Valid()
      reads this, base, base.observable
    {
      base.Valid() && base.kind == Dispatch(target, simulaEvent) &&
      (listening <==> event != null) && (base.running ==> listening)
    }

    constructor (target: Elem, simulaEvent: MouseEvent)
      ensures Valid() && this.target == target && this.simulaEvent == simulaEvent
      ensures !base.running && event == null
      ensures fresh(base) && fresh(base.observable) && base.observable.observers == []
    {
      this.target := target;
      this.simulaEvent := simulaEvent;
      base := new Simulator(Dispatch(target, simulaEvent));
      event := null;
      listening := false;
    }

    /** The type the listener is registered for. */
    function ListenType(): Option<EventType> {
      simulaEvent.ui.event.eventType
    }

    /**
     * `execute`: build a fresh native event from the descriptor, listen for
     * its type on the target, then dispatch it there.
     */
    method Execute() returns (r: Result<seq<Call>, Error>)
      requires Valid()
      modifies this, base
      ensures Valid() && base.running
      ensures old(base.running) ==> r == Err(AlreadyRunning(ALREADY_RUNNING)) && event == old(event)
      ensures !old(base.running) ==>
                event != null && fresh(event) && event.init == simulaEvent &&
                r == Ok([AddListener(target, ListenType()), DispatchNative(target, event)])
    {
      var error := base.Execute();
      if error.Some? {
        return Err(error.value);
      }
      var e := new NativeEvent(simulaEvent);
      event := e;
      listening := true;
      r := Ok([AddListener(target, ListenType()), DispatchNative(target, e)]);
    }

    /**
     * `handleEvent(e)`: only the event this simulator dispatched finishes it
     * (removing the listener first); any other event is ignored.
     */
    method HandleEvent(e: NativeEvent) returns (calls: seq<Call>)
      requires Valid()
      modifies this, base
      ensures Valid()
      ensures e == old(event) ==>
                event == null && !listening && !base.running &&
                calls == [RemoveListener(target, ListenType())] + Broadcast(base.observable.observers, base, Finished)
      ensures e != old(event) ==>
                event == old(event) && listening == old(listening) && base.running == old(base.running) && calls == []
    {
      if e != event {
        return [];
      }
      calls := [RemoveListener(target, ListenType())];
      listening := false;
      event := null;
      var finished := base.Finish();
      calls := calls + finished;
    }

    /**
     * `stop` (inherited from Simulator): stops running but leaves the
     * listener and the pending event in place.
     */
    method Stop() returns (calls: seq<Call>)
      requires Valid()
      modifies base
      ensures Valid() && !base.running
      ensures calls == if old(base.running) then Broadcast(base.observable.observers, base, Stopped) else []
    {
      calls := base.Stop();
    }
  }

  /**
   * SimulatorQueue: executes its simulators one after another, each when
   * the one before it reports 'finish', and finishes after the last.
   */
  class SimulatorQueue {
    const base: Simulator
    var simulators: seq<Simulator>
    /** The position of the running simulator, or -1. */
    var currentIndex: int

    ghost predicate Valid()
      reads this, base, base.observable
    {
      base.Valid() && base.kind == Sequence &&
      (if base.running then 0 <= currentIndex < |simulators| else currentIndex == -1)
    }

    /** `(observable, args)` is the 'finish' of the simulator running now. */
    predicate IsCurrentFinish(observable: object, args: Payload)
      reads this
    {
      args == Finished && 0 <= currentIndex < |simulators| && observable == simulators[currentIndex]
    }

    constructor (simulators: seq<Simulator>)
      ensures Valid() && this.simulators == simulators && !base.running
      ensures fresh(base) && fresh(base.observable) && base.observable.observers == []
    {
      this.simulators := simulators;
      base := new Simulator(Sequence);
      currentIndex := -1;
    }

    /** `proceed`: move to the next simulator, observe it and execute it. */
    method Proceed() returns (calls: seq<Call>)
      requires -1 <= currentIndex < |simulators| - 1
      modifies this
      ensures simulators == old(simulators) && currentIndex == old(currentIndex) + 1
      ensures calls == [Subscribe(simulators[currentIndex]), Run(simulators[currentIndex])]
    {
      currentIndex := currentIndex + 1;
      var simulator := simulators[currentIndex];
      calls := [Subscribe(simulator), Run(simulator)];
    }

    /** `finish`: forget the position and finish. */
    method Finish() returns (calls: seq<Call>)
      modifies this, base
      ensures Valid() <== old(base.Valid()) && base.kind == Sequence
      ensures simulators == old(simulators) && currentIndex == -1 && !base.running
      ensures calls == Broadcast(base.observable.observers, base, Finished)
    {
      currentIndex := -1;
      calls := base.Finish();
    }

    /**
     * `execute`: refuse when running; start the first simulator, or finish
     * at once when there is none.
     */
    method Execute() returns (r: Result<seq<Call>, Error>)
      requires Valid()
      modifies this, base
      ensures Valid() && simulators == old(simulators)
      ensures old(base.running) ==> r == Err(AlreadyRunning(ALREADY_RUNNING)) && base.running && currentIndex == old(currentIndex)
      ensures !old(base.running) && |simulators| > 0 ==>
                base.running && currentIndex == 0 && r == Ok([Subscribe(simulators[0]), Run(simulators[0])])
      ensures !old(base.running) && |simulators| == 0 ==>
                !base.running && r == Ok(Broadcast(base.observable.observers, base, Finished))
    {
      var error := base.Execute();
      if error.Some? {
        return Err(error.value);
      }
      if |simulators| > 0 {
        var calls := Proceed();
        r := Ok(calls);
      } else {
        var calls := Finish();
        r := Ok(calls);
      }
    }

    /**
     * `updateObservable(observable, args)`: only the running simulator's
     * 'finish' counts. It is unsubscribed, then the next one is started, or
     * the queue finishes after the last.
     */
    method UpdateObservable(observable: object, args: Payload) returns (calls: seq<Call>)
      requires Valid()
      modifies this, base
      ensures Valid() && simulators == old(simulators)
      ensures !old(IsCurrentFinish(observable, args)) ==>
                calls == [] && currentIndex == old(currentIndex) && base.running == old(base.running)
      ensures old(IsCurrentFinish(observable, args)) && old(currentIndex) < |simulators| - 1 ==>
                base.running && currentIndex == old(currentIndex) + 1 &&
                calls == [Unsubscribe(observable), Subscribe(simulators[currentIndex]), Run(simulators[currentIndex])]
      ensures old(IsCurrentFinish(observable, args)) && old(currentIndex) == |simulators| - 1 ==>
                !base.running && currentIndex == -1 &&
                calls == [Unsubscribe(observable)] + Broadcast(base.observable.observers, base, Finished)
    {
      if args != Finished || currentIndex < 0 || currentIndex >= |simulators| || observable != simulators[currentIndex] {
        return [];
      }
      calls := [Unsubscribe(observable)];
      if currentIndex < |simulators| - 1 {
        var next := Proceed();
        calls := calls + next;
      } else {
        var finished := Finish();
        calls := calls + finished;
      }
    }

    /**
     * `stop`: when running, stop the running simulator and forget the
     * position; then stop the queue itself.
     */
    method Stop() returns (calls: seq<Call>)
      requires Valid()
      modifies this, base
      ensures Valid() && simulators == old(simulators) && currentIndex == -1 && !base.running
      ensures calls == if old(base.running)
                       then [Halt(old(simulators[currentIndex]))] + Broadcast(base.observable.observers, base, Stopped)
                       else []
    {
      calls := [];
      if base.running {
        calls := [Halt(simulators[currentIndex])];
        currentIndex := -1;
      }
      var stopped := base.Stop();
      calls := calls + stopped;
    }
  }

  /**
   * The calls a queue makes over a complete run of `simulators` when each
   * child reports 'finish' as soon as it is executed: every child is
   * observed, executed and unobserved in turn.
   */
  function InOrder(simulators: seq<object>): (calls: seq<Call>)
    ensures |calls| == 3 * |simulators|
  {
    if simulators == [] then []
    else
      var last := simulators[|simulators| - 1];
      InOrder(simulators[..|simulators| - 1]) + [Subscribe(last), Run(last), Unsubscribe(last)]
  }

  /** The children a list of calls executes, in order. */
  function Runs(calls: seq<Call>): seq<object> {
    if calls == [] then []
    else Runs(calls[..|calls| - 1]) + (if calls[|calls| - 1].Run? then [calls[|calls| - 1].child] else [])
  }

  lemma {:induction false} RunsAppend(a: seq<Call>, b: seq<Call>)
    ensures Runs(a + b) == Runs(a) + Runs(b)
    decreases |b|
  {
    if b == [] {
      assert a + b == a;
    } else {
      var ab := a + b;
      var last := b[|b| - 1];
      assert ab[..|ab| - 1] == a + b[..|b| - 1];
      assert ab[|ab| - 1] == last;
      RunsAppend(a, b[..|b| - 1]);
      var tail := if last.Run? then [last.child] else [];
      calc {
        Runs(ab);
        Runs(a + b[..|b| - 1]) + tail;
        Runs(a) + Runs(b[..|b| - 1]) + tail;
        Runs(a) + (Runs(b[..|b| - 1]) + tail);
      }
    }
  }

  /** One child's turn executes exactly that child. */
  lemma RunsOfStep(child: object)
    ensures Runs([Subscribe(child), Run(child), Unsubscribe(child)]) == [child]
  {
    var s := [Subscribe(child), Run(child), Unsubscribe(child)];
    var s2 := [Subscribe(child), Run(child)];
    var s1 := [Subscribe(child)];
    assert s[..2] == s2 && s2[..1] == s1 && s1[..0] == [];
    assert Runs(s1) == [];
    assert Runs(s2) == [child];
  }

  /** Over a complete run every child is executed exactly once, in queue order. */
  lemma {:induction false} InOrderRunsEach(simulators: seq<object>)
    ensures Runs(InOrder(simulators)) == simulators
  {
    if simulators != [] {
      var n := |simulators|;
      var last := simulators[n - 1];
      InOrderRunsEach(simulators[..n - 1]);
      RunsAppend(InOrder(simulators[..n - 1]), [Subscribe(last), Run(last), Unsubscribe(last)]);
      RunsOfStep(last);
      assert simulators[..n - 1] + [last] == simulators;
    }
  }

  /**
   * A host that delivers each child's 'finish' as soon as the child is
   * executed, driving a queue from execute to its own 'finish'. The queue
   * runs its children strictly in order and ends reset, ready to run again.
   */
  method RunToEnd(q: SimulatorQueue) returns (trace: seq<Call>)
    requires q.Valid() && !q.base.running
    modifies q, q.base
    ensures q.Valid() && !q.base.running && q.currentIndex == -1 && q.simulators == old(q.simulators)
    ensures trace == InOrder(q.simulators) + Broadcast(q.base.observable.observers, q.base, Finished)
  {
    var started := q.Execute();
    trace := started.value;
    if |q.simulators| == 0 {
      return;
    }
    while q.base.running
      invariant q.Valid() && q.simulators == old(q.simulators)
      invariant q.base.running ==>
                  trace == InOrder(q.simulators[..q.currentIndex]) +
                           [Subscribe(q.simulators[q.currentIndex]), Run(q.simulators[q.currentIndex])]
      invariant !q.base.running ==>
                  trace == InOrder(q.simulators) + Broadcast(q.base.observable.observers, q.base, Finished)
      decreases if q.base.running then |q.simulators| - q.currentIndex else 0
    {
      var i := q.currentIndex;
      var child := q.simulators[i];
      assert q.simulators[..i + 1][..i] == q.simulators[..i];
      var calls := q.UpdateObservable(child, Finished);
      trace := trace + calls;
      if i + 1 == |q.simulators| {
        assert q.simulators[..i + 1] == q.simulators;
      }
    }
  }

  /**
   * After a complete run the queue can be executed again and replays the
   * same calls.
   */
  method RerunReplays(q: SimulatorQueue) returns (first: seq<Call>, second: seq<Call>)
    requires q.Valid() && !q.base.running
    modifies q, q.base
    ensures first == second
    ensures Runs(first) == old(q.simulators)
  {
    first := RunToEnd(q);
    second := RunToEnd(q);
    InOrderRunsEach(q.simulators);
    RunsAppend(InOrder(q.simulators), Broadcast(q.base.observable.observers, q.base, Finished));
    NoRunsInBroadcast(q.base.observable.observers, q.base, Finished);
  }

  /** Notifications execute nothing. */
  lemma {:induction false} NoRunsInBroadcast(observers: seq<object>, source: object, args: Payload)
    ensures Runs(Broadcast(observers, source, args)) == []
    decreases |observers|
  {
    if observers != [] {
      var n := |observers|;
      NoRunsInBroadcast(observers[..n - 1], source, args);
      assert Broadcast(observers, source, args)[..n - 1] == Broadcast(observers[..n - 1], source, args);
    }
  }

  /**
   * Once a queue is stopped, a late 'finish' from the simulator that was
   * running is ignored: nothing further is executed.
   */
  method LateFinishIgnored(q: SimulatorQueue) returns (calls: seq<Call>)
    requires q.Valid() && q.base.running
    modifies q, q.base
    ensures q.Valid() && !q.base.running && calls == []
  {
    var child := q.simulators[q.currentIndex];
    var stopped := q.Stop();
    calls := q.UpdateObservable(child, Finished);
  }
}
