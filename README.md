# jquery-simula in Dafny

jquery-simula simulates a user's mouse in a web page. A `Simulation` is
a builder. Each call queues one or more simulators:
- `wait`: a `TimeSimulator`.
- `mousemove`, `mouseover`, `mouseout`, `mousedown`, `mouseup` and
  `mouseclick`: one `EventSimulator` each.
- `move`, `enter`, `leave`, `press`, `release` and `click`: gestures built
  from the calls above.

While it builds, the Simulation keeps a cursor: the element the pointer is
over and the pointer's position relative to that element. Executing the
Simulation runs its `SimulatorQueue`, which runs the simulators one after
another. Each simulator reports 'finish' to its observers (the Observable
pattern), and the queue starts the next one when the current one finishes.

The Dafny project models this:
- `Basics`: Option and Result.
- `Dom`: elements as paths of child indices from the root element. It
  also holds the jQuery extensions `equals` and `isParentOf`, and the
  parents walk that `enter` uses.
- `Events`: the SimulaEvent, SimulaUiEvent and SimulaMouseEvent
  descriptors and their defaults.
- `Engine`: Observable, Simulator, TimeSimulator, EventSimulator and
  SimulatorQueue, all as classes with mutable fields. A call one object
  makes on another, or on the browser, is returned as a `Call` value, in
  source order. The caller plays the host and delivers those calls.
- `Gestures`: specification functions for the builders:
  - how `move` plans its 15 ms steps;
  - what each step queues;
  - which mouseout and mouseover crossings `enter` and `leave` produce.
- `Traversal`: specification functions for everything `enter` and
  `leave` queue, level by level: the glides, each mouseover or mouseout
  with its client point and related target, and which event gets the
  caller's options.
- `Simulations`: the `Simulation` class. Its builder methods append to
  the queue and update the cursor. A ghost `script` keeps the kind of each
  queued simulator, and every builder is proved against the `Gestures`
  and `Traversal` functions.
- `Legacy`: the older engine in `src/main/jquery.maenulabs.simula.js`:
  - a Simulator without `stop` whose `execute` refuses with "SimulatorQueue
    is already running";
  - a queue that finishes from `proceed`;
  - a TimeSimulator whose timer cannot be cancelled.

## Model

| member | source | states |
|---|---|---|
| Dom.Parent | lib/jquery.maenulabs.extensions.js:90-96 | only the root element has no parent; a parent is one level up and strictly contains the element |
| Dom.Parents | src/main/js/jquery-simula.js:1206-1209 | `.parents()` lists every strict ancestor, nearest first, one level apart |
| Dom.Equals | src/main/js/jquery-simula.js:65-67 | two selections are equal exactly when both are empty or their first elements are the same (the older extensions file compares the same way) |
| Dom.IsParentOf | src/main/js/jquery-simula.js:81-87 | the upward walk returns true exactly when the child is non-empty and strictly inside self (an empty self contains every non-empty child); the older extensions file walks the same way |
| Dom.ChildToward | src/main/js/jquery-simula.js:1205-1214 | popping the parents list past the anchor yields the anchor's child on the path to the target, falling back to the target; the older empty-bodied pop loop yields the same child |
| Dom.AncestorAsymmetric | lib/jquery.maenulabs.extensions.js:90-96 | no element contains itself, and containment never goes both ways |
| Dom.SiblingsUnrelated | lib/jquery.maenulabs.extensions.js:90-96 | two different children of one parent do not contain each other |
| Dom.AncestorTransitive | lib/jquery.maenulabs.extensions.js:90-96 | containment is transitive |
| Events.SimulaEventOf | src/main/js/jquery-simula.js:183-258 | the type is kept as given; bubbles and cancelable default to true |
| Events.UiEventOf | src/main/js/jquery-simula.js:259-301 | extends the SimulaEvent with view (default window) and detail (default 0) |
| Events.MouseEventOf | src/main/js/jquery-simula.js:302-506 | extends the UiEvent with defaults: screen and client coordinates 0, every modifier key false, button LEFT, relatedTarget the document |
| Events.BuilderEvent | src/main/js/jquery-simula.js:946-1103 | a builder forces the event type; mousemove is never cancelable; mousedown, mouseup and click default the button to LEFT; every other field (bubbles, view, detail, screen and client coordinates, the four modifier keys, relatedTarget) is the caller's option or its default |
| Events.BuilderOverridesCaller | src/main/js/jquery-simula.js:1163-1175 | the coordinates and relatedTarget a gesture adds override whatever the caller passed; the caller's button survives |
| Engine.Broadcast | src/main/js/jquery-simula.js:131-135 | one notification per observer, in subscription order |
| Engine.PayloadOf | src/main/js/jquery-simula.js:607-612 | the `args` string reads as 'finish' exactly when it is "finish", as 'stop' exactly when it is "stop", and as itself otherwise |
| Engine.IndexOf | src/main/js/jquery-simula.js:161-169 | returns the first position holding the observer, or the length when it is absent |
| Engine.Without | src/main/js/jquery-simula.js:161-169 | splicing removes exactly one occurrence when there is one, and changes nothing otherwise |
| Engine.WithoutDistinct | src/main/js/jquery-simula.js:144-169 | on a duplicate-free list, removal keeps the list duplicate-free and drops only that observer |
| Engine.Observable.AddObserver | src/main/js/jquery-simula.js:144-152 | appends an observer only when it is not registered yet, so the list stays duplicate-free |
| Engine.Observable.RemoveObserver | src/main/js/jquery-simula.js:161-169 | removes the first occurrence of the observer, and nothing else |
| Engine.Observable.UpdateObservers | src/main/js/jquery-simula.js:131-135 | notifies each observer registered when it starts once, in order, with the source and the args; the list is unchanged |
| Engine.Simulator.Execute | src/main/js/jquery-simula.js:547-552 | refuses with "Simulator is already running" when running; otherwise starts running |
| Engine.Simulator.Finish | src/main/js/jquery-simula.js:535-538 | stops running, then tells every observer 'finish' |
| Engine.Simulator.Stop | src/main/js/jquery-simula.js:558-563 | a running simulator stops and tells every observer 'stop'; one that is not running does nothing |
| Engine.TimeSimulator.Execute | src/main/js/jquery-simula.js:686-691 | starts running and arms one timeout of `time` ms, or refuses when already running |
| Engine.TimeSimulator.Expire | src/main/js/jquery-simula.js:688-690 | the armed timeout finishes the simulator |
| Engine.TimeSimulator.Stop | src/main/js/jquery-simula.js:692-697 | a running simulator clears its timeout and then reports 'stop'; no timeout is left armed |
| Engine.EventSimulator.Execute | src/main/js/jquery-simula.js:797-805 | builds a fresh native event from the descriptor, listens for its type on the target, then dispatches it there |
| Engine.EventSimulator.HandleEvent | src/main/js/jquery-simula.js:781-788 | only the event it dispatched removes the listener and finishes the simulator; any other event changes nothing |
| Engine.EventSimulator.Stop | src/main/js/jquery-simula.js:558-563 | the inherited stop: running ends and 'stop' is reported |
| Engine.SimulatorQueue.Proceed | src/main/js/jquery-simula.js:646-651 | moves to the next simulator, observes it, then executes it |
| Engine.SimulatorQueue.Finish | src/main/js/jquery-simula.js:621-624 | resets the position to -1, then finishes |
| Engine.SimulatorQueue.Execute | src/main/js/jquery-simula.js:625-632 | refuses when running; otherwise starts the first simulator, or finishes at once when the queue is empty |
| Engine.SimulatorQueue.UpdateObservable | src/main/js/jquery-simula.js:607-620 | only the current simulator's 'finish' counts: that simulator is unobserved, then the queue proceeds, or finishes after the last one |
| Engine.SimulatorQueue.Stop | src/main/js/jquery-simula.js:633-640 | a running queue stops its current simulator, resets its position and reports 'stop' |
| Engine.InOrder | src/main/js/jquery-simula.js:607-651 | a complete run makes three calls per simulator |
| Engine.RunsAppend | src/main/js/jquery-simula.js:646-651 | the simulators a trace executes are those of its parts, in order |
| Engine.RunsOfStep | src/main/js/jquery-simula.js:646-651 | one queue step executes exactly its child |
| Engine.InOrderRunsEach | src/main/js/jquery-simula.js:586-651 | a complete run executes every simulator exactly once, in queue order |
| Engine.NoRunsInBroadcast | src/main/js/jquery-simula.js:131-135 | notifications execute no simulator |
| Engine.RunToEnd | src/main/js/jquery-simula.js:607-651 | when each child finishes as soon as it runs, a queue runs its children strictly in order and finishes after the last, reset to -1 |
| Engine.RerunReplays | src/main/js/jquery-simula.js:621-632 | a finished queue can be executed again, and the second run replays the first |
| Engine.LateFinishIgnored | src/main/js/jquery-simula.js:607-640 | once a queue is stopped, a late 'finish' from the child that was running starts nothing |
| Gestures.WaitDuration | src/main/js/jquery-simula.js:927-934 | a wait is never zero: the given duration, or 50 ms by default |
| Gestures.TotalWaitAppend | src/main/js/jquery-simula.js:1135-1149 | the wait of two step lists together is the sum of their waits |
| Gestures.FullStepsWait | src/main/js/jquery-simula.js:1137-1143 | full steps wait 15 ms each |
| Gestures.PlanTakesDuration | src/main/js/jquery-simula.js:1135-1149 | the planned steps of a move wait exactly its duration in total |
| Gestures.PlanArrives | src/main/js/jquery-simula.js:1135-1149 | one step per full 15 ms plus one for any remainder; no steps only when the duration is 0; the last step reaches the target |
| Gestures.Intermediate | src/main/js/jquery-simula.js:1135-1149 | the step-collecting loop builds exactly the plan |
| Gestures.StepResultParts | src/main/js/jquery-simula.js:1155-1184 | one pass waits, then crosses into the element under the pointer when automatic and different, then queues a mousemove on the (new) anchor |
| Gestures.MoveResultWalk | src/main/js/jquery-simula.js:1121-1188 | a move is its planned steps walked from the pointer's page position |
| Gestures.CrossingsAppend | src/main/js/jquery-simula.js:1154-1185 | the crossings of a queue are the crossings of its parts, in order |
| Gestures.CrossingsSingle | src/main/js/jquery-simula.js:1163-1175 | a single queued mouseover or mouseout is its one crossing |
| Gestures.CrossingRule | src/main/js/jquery-simula.js:1160-1178 | automatic mode gives only a mouseover into a descendant, only a mouseout back to an ancestor, and a mouseout then a mouseover between unrelated elements |
| Gestures.QuietCrossesNothing | src/main/js/jquery-simula.js:1158-1182 | waits and mousemoves dispatch no mouseover or mouseout |
| Gestures.QuietStep | src/main/js/jquery-simula.js:1155-1184 | outside automatic mode a step queues a wait and a mousemove on the anchor, and keeps the anchor |
| Gestures.WalkSnoc | src/main/js/jquery-simula.js:1154-1185 | walking a list walks all but the last step, then the last step |
| Gestures.WalkExtend | src/main/js/jquery-simula.js:1154-1185 | walking one more step extends the walk of the steps before it |
| Gestures.QuietWalkCursor | src/main/js/jquery-simula.js:1154-1185 | outside automatic mode the anchor is kept, each step queues two simulators, and the cursor ends at the last step's point |
| Gestures.QuietWalkScript | src/main/js/jquery-simula.js:1154-1185 | outside automatic mode each step queues exactly a wait and then a mousemove on the anchor |
| Gestures.QuietWalkIsQuiet | src/main/js/jquery-simula.js:1154-1185 | outside automatic mode a move queues only waits and mousemoves |
| Gestures.QuietWalkCrossesNothing | src/main/js/jquery-simula.js:1154-1185 | outside automatic mode a move dispatches no mouseover or mouseout |
| Gestures.MoveInPlace | src/main/js/jquery-simula.js:1121-1149 | a move to where the pointer already is, without a duration, has duration 0, so it plans no step and queues nothing |
| Gestures.QuietMove | src/main/js/jquery-simula.js:1121-1188 | a non-automatic move keeps the anchor, crosses nothing, and ends at the target, or stays put when it takes no time |
| Gestures.MoveArrives | src/main/js/jquery-simula.js:1127-1149 | on a page whose travel time is positive for every nonzero displacement (as `Math.sqrt` is), a non-automatic move always ends at the target on the same anchor |
| Gestures.Meet | src/main/js/jquery-simula.js:1200-1238 | the deepest ancestor-or-self of the anchor that contains or is the target: that one does, the one a level deeper does not, and it is the anchor itself exactly when the anchor contains or is the target |
| Traversal.GlideIsQuiet | src/main/js/jquery-simula.js:1215-1219 | the glide between levels queues only waits and mousemoves |
| Traversal.EnterChildShape | src/main/js/jquery-simula.js:1215-1224 | everything one level of `enter` queues before its mouseover only waits or moves |
| Traversal.LeaveParentShape | src/main/js/jquery-simula.js:1259-1270 | everything one level of `leave` queues before its mouseout only waits or moves |
| Traversal.EnterChildLast | src/main/js/jquery-simula.js:1215-1224 | one level of `enter` ends with a mouseover on the child at the child's page centre, related to the old anchor and carrying the caller's options |
| Traversal.LeaveParentLast | src/main/js/jquery-simula.js:1259-1270 | one level of `leave` ends with a mouseout on the anchor at its parent's page centre, related to the parent and carrying the caller's options |
| Traversal.EnterChildParts | src/main/js/jquery-simula.js:1215-1224 | a glide by the source's pX and pY followed by the mouseover is one level of `enter` |
| Traversal.LeaveParentParts | src/main/js/jquery-simula.js:1259-1270 | a glide by the source's pX and pY followed by the mouseout is one level of `leave` |
| Traversal.EnterChildCrossings | src/main/js/jquery-simula.js:1215-1224 | one level of `enter` makes exactly one crossing: over the child from the anchor |
| Traversal.LeaveParentCrossings | src/main/js/jquery-simula.js:1259-1270 | one level of `leave` makes exactly one crossing: out of the anchor toward its parent |
| Traversal.EnterChildQueued | src/main/js/jquery-simula.js:1215-1224 | what the builder queues for one level of `enter` is that level's script, with its one crossing and its last event |
| Traversal.LeaveParentQueued | src/main/js/jquery-simula.js:1259-1270 | what the builder queues for one level of `leave` is that level's script, with its one crossing and its last event |
| Traversal.QuietOrCrossingAppend | src/main/js/jquery-simula.js:1200-1285 | two scripts that only wait, move or cross join into another |
| Traversal.EnterChildIsQuietOrCrossing | src/main/js/jquery-simula.js:1215-1224 | one level of `enter` only waits, moves or crosses |
| Traversal.LeaveParentIsQuietOrCrossing | src/main/js/jquery-simula.js:1259-1270 | one level of `leave` only waits, moves or crosses |
| Traversal.EnterIsQuietOrCrossing | src/main/js/jquery-simula.js:1200-1238 | besides waits and mousemoves, `enter` queues only mouseovers and mouseouts |
| Traversal.LeaveIsQuietOrCrossing | src/main/js/jquery-simula.js:1250-1285 | besides waits and mousemoves, `leave` queues only mouseouts and mouseovers |
| Traversal.EnterChildOptionsLast | src/main/js/jquery-simula.js:1215-1224 | the caller's options change only the last event of one level of `enter` |
| Traversal.LeaveParentOptionsLast | src/main/js/jquery-simula.js:1259-1270 | the caller's options change only the last event of one level of `leave` |
| Traversal.EnterOptionsOnce | src/main/js/jquery-simula.js:1200-1238 | the recursive calls pass no options, so the caller's options reach only the first mouseover, and only when the target is inside the anchor; everything else is as without options |
| Traversal.LeaveOptionsOnce | src/main/js/jquery-simula.js:1250-1285 | the caller's options reach only the first mouseout, and only when the anchor is inside or is the target; everything else is as without options |
| Gestures.OutsLength | src/main/js/jquery-simula.js:1250-1285 | leaving up to depth k gives one mouseout per level below k |
| Gestures.OversLength | src/main/js/jquery-simula.js:1200-1238 | entering down from depth k gives one mouseover per level below k |
| Gestures.EnterCrossingsCount | src/main/js/jquery-simula.js:1200-1238 | `enter` makes one crossing per level it climbs or descends |
| Gestures.EnterFromAncestor | src/main/js/jquery-simula.js:1204-1231 | from an ancestor, `enter` only descends: one mouseover per level, each entered from its parent, ending on the target |
| Gestures.OversFrom | src/main/js/jquery-simula.js:1219-1223 | the k-th mouseover enters the next element on the path, from its parent |
| Gestures.EnterDown | src/main/js/jquery-simula.js:1204-1231 | `enter`'s base case: a mouseover on the child toward the target, then `enter` from that child at lower cost |
| Gestures.EnterUp | src/main/js/jquery-simula.js:1232-1236 | `enter` from outside the target's ancestry: a mouseout to the anchor's parent, then `enter` from there at lower cost |
| Gestures.LeaveUp | src/main/js/jquery-simula.js:1257-1278 | `leave`'s base case: a mouseout to the parent, repeated until the target itself has been left |
| Gestures.LeaveSelf | src/main/js/jquery-simula.js:1257-1278 | leaving the anchor itself is one mouseout toward its parent |
| Gestures.LeaveAround | src/main/js/jquery-simula.js:1279-1283 | `leave` from outside the target: enter the target first, then leave it |
| Simulations.Simulation.Execute | src/main/js/jquery-simula.js:913-917 | starts running, observes the queue (adding the simulation only when it is not an observer yet) and executes it; when the simulation is already running it refuses before touching anything, so the queue's running flag, position and observers are unchanged; when only the queue is running, the queue's refusal leaves its run and position as they were |
| Simulations.Simulation.UpdateObservable | src/main/js/jquery-simula.js:906-912 | only the queue's 'finish' finishes the simulation and splices it, and only it, out of the queue's observers; anything else changes nothing |
| Simulations.Simulation.Stop | src/main/js/jquery-simula.js:558-563 | the inherited stop: running ends and 'stop' is reported; the queue is untouched |
| Simulations.Simulation.Wait | src/main/js/jquery-simula.js:927-934 | queues one pause of the wait duration; the cursor and the queue's position are unchanged (every builder keeps the queue's position) |
| Simulations.Simulation.Mouse | src/main/js/jquery-simula.js:946-1103 | queues one event of the given type on the target (default the anchor), built from the caller's options; the cursor and the queue's position are unchanged |
| Simulations.Simulation.Move | src/main/js/jquery-simula.js:1121-1188 | queues exactly what the move's plan walks to, and leaves the cursor there; outside automatic mode the anchor is kept, nothing is crossed, and the pointer ends at the target |
| Simulations.Simulation.FollowPlan | src/main/js/jquery-simula.js:1154-1185 | the step loop queues the walk of the planned steps and leaves the cursor where the walk ends |
| Simulations.Simulation.StepOnce | src/main/js/jquery-simula.js:1155-1184 | one loop pass queues exactly what one step of the walk queues, and moves the cursor there |
| Simulations.Simulation.Cross | src/main/js/jquery-simula.js:1160-1176 | automatic mode queues a mouseout unless the new element is inside the anchor, then a mouseover unless it contains the anchor |
| Simulations.Simulation.Glide | src/main/js/jquery-simula.js:1219 | the plain `move([pX, pY])` between levels queues exactly the glide script, crosses nothing and keeps the anchor |
| Simulations.Simulation.GlideThenDispatch | src/main/js/jquery-simula.js:1215-1224 | queues the glide, then one event of the given type on the given element with the given options |
| Simulations.Simulation.GlideAndOver | src/main/js/jquery-simula.js:1215-1224 | queues exactly one level of `enter`'s script: its one crossing is over the child from the anchor, and its last event is the mouseover at the child's centre with the caller's options |
| Simulations.Simulation.GlideAndOut | src/main/js/jquery-simula.js:1259-1270 | queues exactly one level of `leave`'s script: its one crossing is out of the anchor toward its parent, and its last event is the mouseout at the parent's centre with the caller's options |
| Simulations.Simulation.EnterChild | src/main/js/jquery-simula.js:1215-1227 | queues exactly one level of `enter`'s script (glide, then the mouseover on the child at its centre, related to the anchor, with the caller's options); that is its one crossing; the child becomes the anchor with the pointer at its centre |
| Simulations.Simulation.LeaveToParent | src/main/js/jquery-simula.js:1259-1274 | queues exactly one level of `leave`'s script (glide, then the mouseout on the anchor at the parent's centre, related to the parent, with the caller's options); that is its one crossing; the parent becomes the anchor with the pointer at its centre |
| Simulations.Simulation.Enter | src/main/js/jquery-simula.js:1200-1238 | queues exactly `enter`'s script, which only waits, moves or crosses; its crossings are exactly the mouseouts up to the join, then the mouseovers down to the target; ends on the centre of the target |
| Simulations.Simulation.Leave | src/main/js/jquery-simula.js:1250-1285 | queues exactly `leave`'s script, which only waits, moves or crosses; its crossings are exactly those of leaving the target, entering it first when needed; ends on the centre of the target's parent |
| Simulations.Simulation.EnterUnlessOn | src/main/js/jquery-simula.js:1304-1306 | queues nothing when the pointer is on the target already; otherwise queues exactly `enter`'s script without options and ends on the target's centre |
| Simulations.Simulation.Press | src/main/js/jquery-simula.js:1297-1313 | queues `enter`'s script unless the pointer is already on the target, then a mousedown there at the pointer's client point with the caller's options |
| Simulations.Simulation.Release | src/main/js/jquery-simula.js:1325-1341 | queues `enter`'s script unless the pointer is already on the target, then a mouseup there at the pointer's client point with the caller's options |
| Simulations.Simulation.Click | src/main/js/jquery-simula.js:1353-1370 | queues `enter`'s script unless already on the target, then mousedown, 5 ms, mouseup, 5 ms, click at the pointer's client point; only the click carries the caller's options |
| Simulations.Simulation.FinishClick | src/main/js/jquery-simula.js:1361-1367 | after the press: wait 5 ms, a mouseup on the anchor, wait 5 ms, then the click with the caller's options; the cursor is unchanged |
| Legacy.LegacySimulator.Execute | src/main/jquery.maenulabs.simula.js:286-291 | refuses with "SimulatorQueue is already running" when running; otherwise starts running |
| Legacy.LegacySimulator.Finish | src/main/jquery.maenulabs.simula.js:275-278 | stops running, then tells every observer 'finish' |
| Legacy.LegacyQueue.Proceed | src/main/jquery.maenulabs.simula.js:341-351 | steps the position; past the last simulator it resets to -1 and finishes, otherwise it observes and executes the next one |
| Legacy.LegacyQueue.Execute | src/main/jquery.maenulabs.simula.js:334-337 | refuses when running; otherwise proceeds, so an empty queue finishes at once |
| Legacy.LegacyQueue.UpdateObservable | src/main/jquery.maenulabs.simula.js:323-333 | only the current simulator's 'finish' counts: it is unobserved and the queue proceeds or finishes |
| Legacy.LegacyTimeSimulator.Execute | src/main/jquery.maenulabs.simula.js:369-378 | starts running and arms a timeout of `time` ms that nothing cancels, or refuses when already running |
| Legacy.LegacyTimeSimulator.Expire | src/main/jquery.maenulabs.simula.js:372-376 | the timeout finishes the simulator |
| Legacy.LegacyRunToEnd | src/main/jquery.maenulabs.simula.js:323-351 | the older queue also runs its children strictly in order, finishes after the last, and ends reset to -1 |
| Legacy.LegacyRerunReplays | src/main/jquery.maenulabs.simula.js:334-351 | each run of the older queue executes every child exactly once, in order, and a second run replays the first |

## Left out

- `$.elementFromPoint` and its browser-quirk detection are not modelled. The element under a client point is a total function of the page (`Page.hit`), so a `null` hit is not modelled.
- Page geometry (`offset()`, `width()`, `height()`) is a set of abstract functions of the page. Each is read when the builder runs, and layout changes while the queue runs are not modelled.
- Gestures.MoveDuration: a missing duration becomes `Math.sqrt(dX² + dY²)` in the source. The model keeps the zero displacement exact (duration 0, see `Gestures.MoveInPlace`) and otherwise uses the page's `travel` function in whole milliseconds, so fractional durations and the exact square root are not modelled.
- Engine.Observable.UpdateObservers: the source loops over the live `observers` array, so an observer that unsubscribes while it is notified (as a queue or a Simulation does on 'finish') shifts the array and the observer after it is skipped. The model notifies the list as it was when the notification started. The same holds for `Engine.Broadcast`, every `Finish` and `Stop` that notifies, and the older file's `updateObservers` (src/main/jquery.maenulabs.simula.js:39-43).
- Gestures.MoveResult: coordinates are exact `real` numbers, where the source computes with IEEE doubles. The step points `time / duration * dX` and the relative positions `clientX - offset().left` are therefore exact in the model, and `Simulations.Simulation.Move`, `Gestures.QuietMove` and `Gestures.MoveArrives` prove arrival at exactly the target; the source arrives only up to rounding.
- Simulations.Simulation.Wait: durations are natural numbers, so an explicit negative duration is not modelled. In the source a negative duration is truthy: `wait(-5)` keeps -5, and `move(p, -5)` plans one step that waits -5 ms. The same holds for `Simulations.Simulation.Move`.
- Real time, `setTimeout` and `clearTimeout` are not modelled. A timer is a `SetTimeout` call, and its firing is the `Expire` method, which the host calls.
- The native W3C plumbing is not modelled: `document.createEvent`, `initMouseEvent`, and the `W3CMouseEventSimulator` subclass with its build, listen and dispatch methods. Building an event is a fresh `NativeEvent`, and listening and dispatching are `Call` values.
- Exceptions thrown by a child's `execute` inside a running queue are not modelled. The model's children are started by the host through `Run` calls.
- Engine.EventSimulator.Stop: as in the source, stop leaves the listener and the pending event in place. A later matching event would still finish the stopped simulator. This follows the code.
- Simulations.Simulation.Stop: as in the source, stopping a Simulation does not stop its queue.
- The document node above the root element is not modelled. Enter and Leave therefore require a non-root target, and `leave` of the root element is left out.
- An option set explicitly to `null` is not modelled: `$.extend` keeps it over the default, and the model's options hold either a value or nothing.
- `Observer` (an empty base class) and the `$.simula` entry point are not modelled. `isRunning` is not modelled as a member of its own: the model reads the `running` field directly.
- Legacy: the older file's Observable, event descriptors and Simulation builders behave as the current ones. They are modelled once, by the members of `Dom`, `Events`, `Engine`, `Gestures`, `Traversal` and `Simulations`. The older EventSimulator and Simulation are not modelled as classes of their own: they inherit the older Simulator, so their `execute` refuses with "SimulatorQueue is already running" (src/main/jquery.maenulabs.simula.js:286-291, 453-454, 551-552) as `Legacy.LegacySimulator.Execute` does, and they have no `stop`. The older `move`, `enter`, `leave`, `press`, `release` and `click` (src/main/jquery.maenulabs.simula.js:793-1104) queue the same simulators as the current ones.
- The test suites, the build file and the API documentation are not modelled.
