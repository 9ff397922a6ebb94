/**
 * Simulation: a simulator that owns a SimulatorQueue and a cursor (the
 * element the pointer is over and the pointer's position relative to it),
 * with builder methods that append simulators to the queue while keeping
 * the cursor where the queued events will leave the real pointer.
 */
module Simulations {
  import opened Basics
  import opened Dom
  import opened Events
  import opened Engine
  import opened Gestures
  import opened Traversal

  /** The mousedown, mouseup and click `click` queues on `t` at `p`, with its two 5 ms waits. */
  function ClickTail(page: Page, t: Elem, p: Point, options: Options): seq<Kind> {
    [Dispatch(t, BuilderEvent(MouseDown, WithClient(NoOptions, page.left(t) + p.x, page.top(t) + p.y)))] +
    ReleaseAndClick(page, t, p, options)
  }

  /** What `click` queues once the button is down: wait, mouseup, wait, then the click with the caller's options. */
  function ReleaseAndClick(page: Page, t: Elem, p: Point, options: Options): seq<Kind> {
    var x := page.left(t) + p.x;
    var y := page.top(t) + p.y;
    [Delay(5),
     Dispatch(t, BuilderEvent(MouseUp, WithClient(NoOptions, x, y))),
     Delay(5),
     Dispatch(t, BuilderEvent(Click, WithClient(options, x, y)))]
  }

  /** A press at `p` on `t` followed by the rest of the click queues `ClickTail`. */
  lemma ClickQueued(page: Page, t: Elem, p: Point, options: Options, s0: seq<Kind>, entered: seq<Kind>, pressed: seq<Kind>, s: seq<Kind>)
    requires pressed == s0 + entered + [Dispatch(t, BuilderEvent(MouseDown, WithClient(NoOptions, page.left(t) + p.x, page.top(t) + p.y)))]
    requires s == pressed + ReleaseAndClick(page, t, p, options)
    ensures s == s0 + entered + ClickTail(page, t, p, options)
  {
    Associative(s0 + entered, [Dispatch(t, BuilderEvent(MouseDown, WithClient(NoOptions, page.left(t) + p.x, page.top(t) + p.y)))],
                ReleaseAndClick(page, t, p, options));
  }

  /** The kind of each simulator, in queue order. */
  function KindsOf(simulators: seq<Simulator>): seq<Kind> {
    if simulators == [] then [] else KindsOf(simulators[..|simulators| - 1]) + [simulators[|simulators| - 1].kind]
  }

  lemma Associative<T>(a: seq<T>, b: seq<T>, c: seq<T>)
    ensures (a + b) + c == a + (b + c)
  {
  }

  class Simulation {
    const base: Simulator
    const queue: SimulatorQueue
    /** `$element`: the element the pointer is over. */
    var anchor: Elem
    /** `elementPosition`: the pointer relative to `anchor`. */
    var position: Point
    /** What the queue will do, in order: the kind of each queued simulator. */
    ghost var script: seq<Kind>

    ghost predicate Valid()
      reads this`script, base, base.observable, queue, queue.base, queue.base.observable
    {
      base.Valid() && base.kind == Gesture && queue.Valid() && base.observable != queue.base.observable &&
      script == KindsOf(queue.simulators)
    }

    constructor (anchor: Elem, position: Point)
      ensures Valid() && this.anchor == anchor && this.position == position
      ensures !base.running && !queue.base.running && script == []
      ensures base.observable.observers == [] && queue.base.observable.observers == []
    {
      base := new Simulator(Gesture);
      queue := new SimulatorQueue([]);
      this.anchor := anchor;
      this.position := position;
      script := [];
    }

    /**
     * `execute`: start running, observe the queue and execute it. Throws
     * when this simulation, or its queue, is already running.
     */
    method Execute() returns (r: Result<seq<Call>, Error>)
      requires Valid()
      modifies base, queue, queue.base, queue.base.observable
      ensures Valid() && queue.simulators == old(queue.simulators) && base.running
      ensures old(base.running) ==>
                r == Err(AlreadyRunning(ALREADY_RUNNING)) &&
                queue.base.running == old(queue.base.running) && queue.currentIndex == old(queue.currentIndex) &&
                queue.base.observable.observers == old(queue.base.observable.observers)
      ensures !old(base.running) ==>
                queue.base.observable.observers ==
                  old(queue.base.observable.observers) + (if this in old(queue.base.observable.observers) then [] else [this])
      ensures !old(base.running) && old(queue.base.running) ==> queue.base.running && queue.currentIndex == old(queue.currentIndex)
      ensures !old(base.running) && old(queue.base.running) ==> r == Err(AlreadyRunning(ALREADY_RUNNING))
      ensures !old(base.running) && !old(queue.base.running) && |queue.simulators| > 0 ==>
                queue.base.running && r == Ok([Subscribe(queue.simulators[0]), Run(queue.simulators[0])])
      ensures !old(base.running) && !old(queue.base.running) && |queue.simulators| == 0 ==>
                !queue.base.running && r == Ok(Broadcast(queue.base.observable.observers, queue.base, Finished))
    {
      var error := base.Execute();
      if error.Some? {
        return Err(error.value);
      }
      queue.base.observable.AddObserver(this);
      r := queue.Execute();
    }

    /** `updateObservable`: the queue's 'finish' finishes the simulation; anything else is ignored. */
    method UpdateObservable(observable: object, args: Payload) returns (calls: seq<Call>)
      requires Valid()
      modifies base, queue.base.observable
      ensures Valid()
      ensures args == Finished && observable == queue.base ==>
                !base.running && this !in queue.base.observable.observers &&
                queue.base.observable.observers == Without(old(queue.base.observable.observers), this) &&
                calls == Broadcast(base.observable.observers, base, Finished)
      ensures !(args == Finished && observable == queue.base) ==>
                calls == [] && base.running == old(base.running) &&
                queue.base.observable.observers == old(queue.base.observable.observers)
    {
      if args != Finished || observable != queue.base {
        return [];
      }
      WithoutDistinct(queue.base.observable.observers, this);
      queue.base.observable.RemoveObserver(this);
      calls := base.Finish();
    }

    /** `stop` (inherited from Simulator): the queue is left as it is. */
    method Stop() returns (calls: seq<Call>)
      requires Valid()
      modifies base
      ensures Valid() && !base.running
      ensures calls == if old(base.running) then Broadcast(base.observable.observers, base, Stopped) else []
    {
      calls := base.Stop();
    }

    /** `wait(duration)`: queue a pause; no duration means 50 ms. */
    method Wait(duration: nat)
      requires Valid()
      modifies this, queue
      ensures Valid() && anchor == old(anchor) && position == old(position)
      ensures queue.currentIndex == old(queue.currentIndex)
      ensures old(queue.simulators) <= queue.simulators
      ensures script == old(script) + [Delay(WaitDuration(duration))]
    {
      var simulator := new TimeSimulator(WaitDuration(duration));
      assert (queue.simulators + [simulator.base])[..|queue.simulators|] == queue.simulators;
      queue.simulators := queue.simulators + [simulator.base];
      script := script + [simulator.base.kind];
    }

    /**
     * `mousemove`, `mouseover`, `mouseout`, `mousedown`, `mouseup` and
     * `mouseclick`: queue one event of type `t` on `target`, by default the
     * anchor.
     */
    method Mouse(t: EventType, target: Option<Elem>, options: Options)
      requires Valid()
      modifies this, queue
      ensures Valid() && anchor == old(anchor) && position == old(position)
      ensures queue.currentIndex == old(queue.currentIndex)
      ensures old(queue.simulators) <= queue.simulators
      ensures script == old(script) + [Dispatch(target.GetOr(anchor), BuilderEvent(t, options))]
    {
      var simulator := new EventSimulator(target.GetOr(anchor), BuilderEvent(t, options));
      assert (queue.simulators + [simulator.base])[..|queue.simulators|] == queue.simulators;
      queue.simulators := queue.simulators + [simulator.base];
      script := script + [simulator.base.kind];
    }

    /**
     * `move(to, duration, options, auto)`: move the pointer to `to`
     * (relative to the anchor) in steps of 15 ms. Without a duration the
     * page's travel time is used (none for no displacement). In automatic mode the anchor follows the
     * element under the pointer.
     */
    method Move(page: Page, to: Point, duration: nat, options: Options, auto: bool)
      requires Valid()
      modifies this, queue
      ensures queue.currentIndex == old(queue.currentIndex)
      ensures Valid() && old(script) <= script
      ensures var r := MoveResult(page, Cursor(old(anchor), old(position)), to, duration, options, auto);
              script == old(script) + r.1 && Cursor(anchor, position) == r.0
      ensures !auto ==> anchor == old(anchor) && Crossings(script[|old(script)|..]) == []
      ensures !auto ==>
                position == if MoveDuration(page, Cursor(old(anchor), old(position)), to, duration) == 0 then old(position) else to
    {
      var dX := to.x - position.x;
      var dY := to.y - position.y;
      var d := if duration != 0 then duration else if to == position then 0 else page.travel(dX, dY);
      var moves := Intermediate(d, dX, dY);
      var start := Point(page.left(anchor) + position.x, page.top(anchor) + position.y);
      ghost var c0 := Cursor(anchor, position);
      ghost var script0 := script;
      MoveResultWalk(page, c0, to, duration, start, moves, options, auto);
      FollowPlan(page, start, moves, options, auto);
      if !auto {
        QuietMove(page, c0, to, duration, options);
        assert script[|script0|..] == MoveResult(page, c0, to, duration, options, auto).1;
      }
    }

    /** `move`'s second loop: one StepOnce per planned step, in order. */
    method FollowPlan(page: Page, start: Point, moves: seq<Step>, options: Options, auto: bool)
      requires Valid()
      modifies this, queue
      ensures queue.currentIndex == old(queue.currentIndex)
      ensures Valid()
      ensures var w := Walk(page, Cursor(old(anchor), old(position)), start, moves, options, auto);
              script == old(script) + w.1 && Cursor(anchor, position) == w.0
    {
      ghost var c0 := Cursor(anchor, position);
      ghost var script0 := script;
      for i := 0 to |moves|
        invariant Valid() && queue.currentIndex == old(queue.currentIndex)
        invariant script == script0 + Walk(page, c0, start, moves[..i], options, auto).1
        invariant Cursor(anchor, position) == Walk(page, c0, start, moves[..i], options, auto).0
      {
        ghost var before := Walk(page, c0, start, moves[..i], options, auto);
        ghost var step := StepResult(page, before.0, start, moves[i], options, auto);
        WalkExtend(page, c0, start, moves, i, options, auto);
        StepOnce(page, start, moves[i], options, auto);
        Associative(script0, before.1, step.1);
      }
      assert moves[..|moves|] == moves;
    }

    /**
     * One pass of `move`'s second loop: wait, follow the pointer into the
     * element under it in automatic mode, then a mousemove on the anchor.
     */
    method StepOnce(page: Page, start: Point, move: Step, options: Options, auto: bool)
      requires Valid()
      modifies this, queue
      ensures queue.currentIndex == old(queue.currentIndex)
      ensures Valid() && old(script) <= script
      ensures var r := StepResult(page, Cursor(old(anchor), old(position)), start, move, options, auto);
              script == old(script) + r.1 && Cursor(anchor, position) == r.0
    {
      ghost var script0 := script;
      ghost var c0 := Cursor(anchor, position);
      var clientX := start.x + move.dx;
      var clientY := start.y + move.dy;
      Wait(move.wait);
      ghost var crossing: seq<Kind> := [];
      var under := page.hit(clientX, clientY);
      if auto && !Equals(Some(anchor), Some(under)) {
        crossing := CrossingScript(anchor, under, clientX, clientY, options);
        Cross(under, clientX, clientY, options);
        anchor := under;
      }
      ghost var script1 := script;
      Mouse(MouseMove, Some(anchor), WithClient(options, clientX, clientY));
      position := Point(clientX - page.left(anchor), clientY - page.top(anchor));
      StepResultParts(page, c0, start, move, options, auto, clientX, clientY, under, anchor, crossing);
      ghost var added := [Delay(WaitDuration(move.wait))] + crossing + [MoveAt(anchor, clientX, clientY, options)];
      assert script == script0 + added by {
        Associative(script0, [Delay(WaitDuration(move.wait))], crossing);
        Associative(script0, [Delay(WaitDuration(move.wait))] + crossing, [MoveAt(anchor, clientX, clientY, options)]);
      }
    }

    /**
     * Automatic mode, pointer now over `under`: a mouseout on the anchor
     * unless `under` is inside it, then a mouseover on `under` unless
     * `under` contains the anchor.
     */
    method Cross(under: Elem, clientX: real, clientY: real, options: Options)
      requires Valid()
      modifies this, queue
      ensures queue.currentIndex == old(queue.currentIndex)
      ensures Valid() && old(script) <= script && anchor == old(anchor) && position == old(position)
      ensures script == old(script) + CrossingScript(anchor, under, clientX, clientY, options)
    {
      ghost var script0 := script;
      var underContainsAnchor := IsParentOf(Some(under), Some(anchor));
      var anchorContainsUnder := IsParentOf(Some(anchor), Some(under));
      ghost var outs: seq<Kind> := [];
      if underContainsAnchor || !anchorContainsUnder {
        Mouse(MouseOut, Some(anchor), WithRelated(options, clientX, clientY, under));
        outs := [Dispatch(anchor, BuilderEvent(MouseOut, WithRelated(options, clientX, clientY, under)))];
      }
      assert script == script0 + outs;
      ghost var script1 := script;
      if anchorContainsUnder || !underContainsAnchor {
        Mouse(MouseOver, Some(under), WithRelated(options, clientX, clientY, anchor));
      }
    }

    /**
     * The plain `move(to)` that `enter` and `leave` make between levels:
     * default duration and options, not automatic. Returns what it queued,
     * which holds no crossing.
     */
    method Glide(page: Page, to: Point) returns (ghost added: seq<Kind>)
      requires Valid()
      modifies this, queue
      ensures queue.currentIndex == old(queue.currentIndex)
      ensures Valid() && anchor == old(anchor) && script == old(script) + added && Crossings(added) == []
      ensures added == GlideScript(page, Cursor(old(anchor), old(position)), to)
    {
      ghost var c0 := Cursor(anchor, position);
      Move(page, to, 0, NoOptions, false);
      added := MoveResult(page, c0, to, 0, NoOptions, false).1;
      QuietMove(page, c0, to, 0, NoOptions);
    }

    /**
     * A plain move to `to`, then an event of type `kind` on `t`: what one
     * level of `enter` or `leave` queues.
     */
    method GlideThenDispatch(page: Page, to: Point, kind: EventType, t: Elem, options: Options) returns (ghost added: seq<Kind>)
      requires Valid()
      modifies this, queue
      ensures queue.currentIndex == old(queue.currentIndex)
      ensures Valid() && anchor == old(anchor) && script == old(script) + added
      ensures added == GlideScript(page, Cursor(old(anchor), old(position)), to) + [Dispatch(t, BuilderEvent(kind, options))]
    {
      ghost var script0 := script;
      ghost var moved := Glide(page, to);
      Mouse(kind, Some(t), options);
      added := moved + [Dispatch(t, BuilderEvent(kind, options))];
      Associative(script0, moved, [Dispatch(t, BuilderEvent(kind, options))]);
    }

    /**
     * `enter`'s base case for one level: move (without automatic mode) to
     * the centre of `child`, queue a mouseover on it from the anchor, and
     * make it the anchor.
     */
    method EnterChild(page: Page, child: Elem, options: Options) returns (ghost added: seq<Kind>)
      requires Valid() && child != [] && ParentOf(child) == anchor
      modifies this, queue
      ensures queue.currentIndex == old(queue.currentIndex)
      ensures Valid() && anchor == child && position == Center(page, child)
      ensures script == old(script) + added && Crossings(added) == [Over(child, Element(old(anchor)))]
      ensures added == EnterChildScript(page, Cursor(old(anchor), old(position)), child, options)
      ensures added[|added| - 1] ==
                Dispatch(child, BuilderEvent(MouseOver, WithRelated(options, PageCenter(page, child).x, PageCenter(page, child).y, old(anchor))))
    {
      added := GlideAndOver(page, child, options);
      anchor := child;
      position := Center(page, child);
    }

    /** What `EnterChild` queues, before the anchor moves to the child. */
    method GlideAndOver(page: Page, child: Elem, options: Options) returns (ghost added: seq<Kind>)
      requires Valid()
      modifies this, queue
      ensures queue.currentIndex == old(queue.currentIndex)
      ensures Valid() && anchor == old(anchor)
      ensures script == old(script) + added && Crossings(added) == [Over(child, Element(old(anchor)))]
      ensures added == EnterChildScript(page, Cursor(old(anchor), old(position)), child, options)
      ensures added[|added| - 1] ==
                Dispatch(child, BuilderEvent(MouseOver, WithRelated(options, PageCenter(page, child).x, PageCenter(page, child).y, old(anchor))))
    {
      ghost var c0 := Cursor(anchor, position);
      var pX := page.left(child) - page.left(anchor) + page.width(child) / 2.0;
      var pY := page.top(child) - page.top(anchor) + page.height(child) / 2.0;
      var related := WithRelated(options, page.left(anchor) + pX, page.top(anchor) + pY, anchor);
      added := GlideThenDispatch(page, Point(pX, pY), MouseOver, child, related);
      EnterChildQueued(page, c0, child, options, Point(pX, pY), added);
    }

    /**
     * `leave`'s base case for one level: move (without automatic mode) to
     * the centre of the anchor's parent, queue a mouseout on the anchor
     * towards it, and make the parent the anchor.
     */
    method LeaveToParent(page: Page, options: Options) returns (ghost added: seq<Kind>)
      requires Valid() && anchor != []
      modifies this, queue
      ensures queue.currentIndex == old(queue.currentIndex)
      ensures Valid() && anchor == ParentOf(old(anchor)) && position == Center(page, anchor)
      ensures script == old(script) + added && Crossings(added) == [Out(old(anchor), Element(anchor))]
      ensures added == LeaveParentScript(page, Cursor(old(anchor), old(position)), options)
      ensures added[|added| - 1] ==
                Dispatch(old(anchor), BuilderEvent(MouseOut, WithRelated(options, PageCenter(page, anchor).x, PageCenter(page, anchor).y, anchor)))
    {
      var parent := ParentOf(anchor);
      added := GlideAndOut(page, options);
      anchor := parent;
      position := Center(page, parent);
    }

    /** What `LeaveToParent` queues, before the anchor moves to its parent. */
    method GlideAndOut(page: Page, options: Options) returns (ghost added: seq<Kind>)
      requires Valid() && anchor != []
      modifies this, queue
      ensures queue.currentIndex == old(queue.currentIndex)
      ensures Valid() && anchor == old(anchor)
      ensures script == old(script) + added && Crossings(added) == [Out(old(anchor), Element(ParentOf(old(anchor))))]
      ensures added == LeaveParentScript(page, Cursor(old(anchor), old(position)), options)
      ensures added[|added| - 1] ==
                Dispatch(old(anchor), BuilderEvent(MouseOut, WithRelated(options, PageCenter(page, ParentOf(old(anchor))).x,
                                                                         PageCenter(page, ParentOf(old(anchor))).y, ParentOf(old(anchor)))))
    {
      ghost var c0 := Cursor(anchor, position);
      var toLeave := anchor;
      var parent := ParentOf(anchor);
      var pX := page.width(parent) / 2.0 - (page.left(toLeave) - page.left(parent));
      var pY := page.height(parent) / 2.0 - (page.top(toLeave) - page.top(parent));
      var related := WithRelated(options, page.left(toLeave) + pX, page.top(toLeave) + pY, parent);
      added := GlideThenDispatch(page, Point(pX, pY), MouseOut, toLeave, related);
      LeaveParentQueued(page, c0, options, Point(pX, pY), added);
    }

    /**
     * `enter(t)`: bring the pointer onto the centre of `t`, one level at a
     * time, leaving the anchor's ancestry first when `t` is not inside it.
     * Every crossing is dispatched as a mouseout or mouseover.
     */
    method Enter(page: Page, t: Elem, options: Options) returns (ghost added: seq<Kind>)
      requires Valid() && t != []
      modifies this, queue
      ensures queue.currentIndex == old(queue.currentIndex)
      ensures Valid() && anchor == t && position == Center(page, t)
      ensures script == old(script) + added && Crossings(added) == EnterCrossings(old(anchor), t)
      ensures added == EnterScript(page, Cursor(old(anchor), old(position)), t, options) && QuietOrCrossing(added)
      decreases EnterCost(anchor, t)
    {
      EnterIsQuietOrCrossing(page, Cursor(anchor, position), t, options);
      ghost var a0 := anchor;
      ghost var script0 := script;
      var inside := IsParentOf(Some(anchor), Some(t));
      if inside {
        var child := ChildToward(anchor, t);
        EnterDown(anchor, t);
        added := EnterChild(page, child, options);
        if !Equals(Some(anchor), Some(t)) {
          ghost var rest := Enter(page, t, NoOptions);
          Associative(script0, added, rest);
          CrossingsAppend(added, rest);
          added := added + rest;
        }
      } else {
        EnterUp(anchor, t);
        LeaveSelf(a0);
        added := Leave(page, Some(anchor), NoOptions);
        ghost var rest := Enter(page, t, NoOptions);
        Associative(script0, added, rest);
        CrossingsAppend(added, rest);
        added := added + rest;
      }
    }

    /**
     * `leave(t)`: move the pointer out of `t` (by default the anchor) onto
     * the centre of `t`'s parent, one level at a time, entering `t` first
     * when the anchor is not inside it.
     */
    method Leave(page: Page, target: Option<Elem>, options: Options) returns (ghost added: seq<Kind>)
      requires Valid() && target.GetOr(anchor) != []
      modifies this, queue
      ensures queue.currentIndex == old(queue.currentIndex)
      ensures var t := target.GetOr(old(anchor));
              Valid() && anchor == ParentOf(t) && position == Center(page, ParentOf(t))
      ensures script == old(script) + added && Crossings(added) == LeaveCrossings(old(anchor), target.GetOr(old(anchor)))
      ensures added == LeaveScript(page, Cursor(old(anchor), old(position)), target.GetOr(old(anchor)), options) && QuietOrCrossing(added)
      decreases LeaveCost(anchor, target.GetOr(anchor))
    {
      LeaveIsQuietOrCrossing(page, Cursor(anchor, position), target.GetOr(anchor), options);
      var t := target.GetOr(anchor);
      ghost var script0 := script;
      var contains := IsParentOf(Some(t), Some(anchor));
      if contains || Equals(Some(t), Some(anchor)) {
        LeaveUp(anchor, t);
        added := LeaveToParent(page, options);
        if !Equals(Some(anchor), Parent(t)) {
          ghost var rest := Leave(page, Some(t), NoOptions);
          Associative(script0, added, rest);
          CrossingsAppend(added, rest);
          added := added + rest;
        }
      } else {
        LeaveAround(anchor, t);
        added := Enter(page, t, NoOptions);
        ghost var rest := Leave(page, Some(t), NoOptions);
        Associative(script0, added, rest);
        CrossingsAppend(added, rest);
        added := added + rest;
      }
    }

    /**
     * The step `press`, `release` and `click` share: enter `t` unless the
     * pointer is already on it. Returns what that queued.
     */
    method EnterUnlessOn(page: Page, t: Elem) returns (ghost entered: seq<Kind>)
      requires Valid() && (t != anchor ==> t != [])
      modifies this, queue
      ensures queue.currentIndex == old(queue.currentIndex)
      ensures Valid() && anchor == t && script == old(script) + entered
      ensures t == old(anchor) ==> position == old(position) && entered == []
      ensures t != old(anchor) ==> position == Center(page, t) && Crossings(entered) == EnterCrossings(old(anchor), t)
      ensures t != old(anchor) ==> entered == EnterScript(page, Cursor(old(anchor), old(position)), t, NoOptions)
    {
      entered := [];
      if !Equals(Some(anchor), Some(t)) {
        entered := Enter(page, t, NoOptions);
      }
    }

    /**
     * `press(t)`: enter `t` (by default the anchor) unless the pointer is
     * already on it, then queue a mousedown there at the pointer.
     */
    method Press(page: Page, target: Option<Elem>, options: Options) returns (ghost entered: seq<Kind>)
      requires Valid() && (target.GetOr(anchor) != anchor ==> target.GetOr(anchor) != [])
      modifies this, queue
      ensures queue.currentIndex == old(queue.currentIndex)
      ensures var t := target.GetOr(old(anchor));
              Valid() && anchor == t &&
              script == old(script) + entered +
                [Dispatch(t, BuilderEvent(MouseDown, WithClient(options, page.left(t) + position.x, page.top(t) + position.y)))]
      ensures var t := target.GetOr(old(anchor));
              t == old(anchor) ==> position == old(position) && entered == []
      ensures var t := target.GetOr(old(anchor));
              t != old(anchor) ==> position == Center(page, t) && Crossings(entered) == EnterCrossings(old(anchor), t)
      ensures var t := target.GetOr(old(anchor));
              t != old(anchor) ==> entered == EnterScript(page, Cursor(old(anchor), old(position)), t, NoOptions)
    {
      entered := EnterUnlessOn(page, target.GetOr(anchor));
      Mouse(MouseDown, Some(anchor), WithClient(options, page.left(anchor) + position.x, page.top(anchor) + position.y));
    }

    /**
     * `release(t)`: enter `t` (by default the anchor) unless the pointer is
     * already on it, then queue a mouseup there at the pointer.
     */
    method Release(page: Page, target: Option<Elem>, options: Options) returns (ghost entered: seq<Kind>)
      requires Valid() && (target.GetOr(anchor) != anchor ==> target.GetOr(anchor) != [])
      modifies this, queue
      ensures queue.currentIndex == old(queue.currentIndex)
      ensures var t := target.GetOr(old(anchor));
              Valid() && anchor == t &&
              script == old(script) + entered +
                [Dispatch(t, BuilderEvent(MouseUp, WithClient(options, page.left(t) + position.x, page.top(t) + position.y)))]
      ensures var t := target.GetOr(old(anchor));
              t == old(anchor) ==> position == old(position) && entered == []
      ensures var t := target.GetOr(old(anchor));
              t != old(anchor) ==> position == Center(page, t) && Crossings(entered) == EnterCrossings(old(anchor), t)
      ensures var t := target.GetOr(old(anchor));
              t != old(anchor) ==> entered == EnterScript(page, Cursor(old(anchor), old(position)), t, NoOptions)
    {
      entered := EnterUnlessOn(page, target.GetOr(anchor));
      Mouse(MouseUp, Some(anchor), WithClient(options, page.left(anchor) + position.x, page.top(anchor) + position.y));
    }

    /**
     * `click(t)`: press on `t` (by default the anchor), wait 5 ms, release,
     * wait 5 ms, then queue the click; only the click carries the caller's
     * options.
     */
    method Click(page: Page, target: Option<Elem>, options: Options) returns (ghost entered: seq<Kind>)
      requires Valid() && (target.GetOr(anchor) != anchor ==> target.GetOr(anchor) != [])
      modifies this, queue
      ensures queue.currentIndex == old(queue.currentIndex)
      ensures var t := target.GetOr(old(anchor));
              Valid() && anchor == t && script == old(script) + entered + ClickTail(page, t, position, options)
      ensures var t := target.GetOr(old(anchor));
              t == old(anchor) ==> position == old(position) && entered == []
      ensures var t := target.GetOr(old(anchor));
              t != old(anchor) ==> position == Center(page, t) && Crossings(entered) == EnterCrossings(old(anchor), t)
      ensures var t := target.GetOr(old(anchor));
              t != old(anchor) ==> entered == EnterScript(page, Cursor(old(anchor), old(position)), t, NoOptions)
    {
      ghost var script0 := script;
      entered := Press(page, target, NoOptions);
      ghost var pressed := script;
      FinishClick(page, options);
      ClickQueued(page, anchor, position, options, script0, entered, pressed, script);
    }

    /** The rest of `click` once the button is down: wait, release on the anchor, wait, click. */
    method FinishClick(page: Page, options: Options)
      requires Valid()
      modifies this, queue
      ensures queue.currentIndex == old(queue.currentIndex)
      ensures Valid() && anchor == old(anchor) && position == old(position)
      ensures script == old(script) + ReleaseAndClick(page, anchor, position, options)
    {
      var x := page.left(anchor) + position.x;
      var y := page.top(anchor) + position.y;
      Wait(5);
      ghost var released := Release(page, Some(anchor), NoOptions);
      Wait(5);
      Mouse(EventType.Click, Some(anchor), WithClient(options, x, y));
      assert released == [];
    }
  }
}
