/**
 * The specification side of a Simulation's composite builders: how `move`
 * splits a displacement into timed steps, what one step adds to the queue,
 * and which mouseover / mouseout crossings `enter` and `leave` produce.
 */
module Gestures {
  import opened Basics
  import opened Dom
  import opened Events
  import opened Engine

  /** A pair of coordinates in pixels. */
  datatype Point = Point(x: real, y: real)

  /**
   * The page as the browser reports it: each element's document offset and
   * size, the element under a client point, and the default duration for a
   * displacement (the source uses its Euclidean length).
   */
  datatype Page = Page(
    left: Elem -> real,
    top: Elem -> real,
    width: Elem -> real,
    height: Elem -> real,
    hit: (real, real) -> Elem,
    travel: (real, real) -> nat)

  /** The centre of `e`, relative to `e`. */
  function Center(page: Page, e: Elem): Point {
    Point(page.width(e) / 2.0, page.height(e) / 2.0)
  }

  /** `wait` without a duration waits 50 ms. */
  const DEFAULT_WAIT: nat := 50

  /** The time a `wait(duration)` waits. */
  function WaitDuration(duration: nat): (r: nat)
    ensures r > 0
    ensures duration > 0 ==> r == duration
    ensures duration == 0 ==> r == DEFAULT_WAIT
  {
    if duration == 0 then DEFAULT_WAIT else duration
  }

  /** `move` emits a step every 15 ms. */
  const STEP: nat := 15

  /** One intermediate move: wait, then be at `(dx, dy)` from the start. */
  datatype Step = Step(wait: nat, dx: real, dy: real)

  /** The k-th full step of a move of `duration` ms: `time / duration` of the way, at `time = 15 (k + 1)`. */
  function RegularStep(k: nat, duration: nat, dX: real, dY: real): Step
    requires duration > 0
  {
    var fraction := ((k + 1) * STEP) as real / duration as real;
    Step(STEP, fraction * dX, fraction * dY)
  }

  /**
   * The steps of a move of `duration` ms by `(dX, dY)`: one every 15 ms,
   * then a final shorter one to the target when 15 does not divide the
   * duration.
   */
  function Plan(duration: nat, dX: real, dY: real): seq<Step> {
    seq(duration / STEP, k requires 0 <= k < duration / STEP => RegularStep(k, duration, dX, dY)) +
    (if duration % STEP != 0 then [Step(duration % STEP, dX, dY)] else [])
  }

  /** The total time a list of steps waits. */
  function TotalWait(steps: seq<Step>): nat {
    if steps == [] then 0 else TotalWait(steps[..|steps| - 1]) + steps[|steps| - 1].wait
  }

  lemma {:induction false} TotalWaitAppend(a: seq<Step>, b: seq<Step>)
    ensures TotalWait(a + b) == TotalWait(a) + TotalWait(b)
    decreases |b|
  {
    if b == [] {
      assert a + b == a;
    } else {
      assert (a + b)[..|a + b| - 1] == a + b[..|b| - 1];
      TotalWaitAppend(a, b[..|b| - 1]);
    }
  }

  /** Steps of 15 ms each wait 15 ms apiece. */
  lemma {:induction false} FullStepsWait(steps: seq<Step>)
    requires forall k :: 0 <= k < |steps| ==> steps[k].wait == STEP
    ensures TotalWait(steps) == STEP * |steps|
    decreases |steps|
  {
    if steps != [] {
      FullStepsWait(steps[..|steps| - 1]);
    }
  }

  /** The steps of a move take exactly its duration. */
  lemma PlanTakesDuration(duration: nat, dX: real, dY: real)
    ensures TotalWait(Plan(duration, dX, dY)) == duration
  {
    var regular := seq(duration / STEP, k requires 0 <= k < duration / STEP => RegularStep(k, duration, dX, dY));
    var rest := if duration % STEP != 0 then [Step(duration % STEP, dX, dY)] else [];
    assert Plan(duration, dX, dY) == regular + rest;
    FullStepsWait(regular);
    TotalWaitAppend(regular, rest);
    if rest != [] {
      assert TotalWait(rest) == TotalWait(rest[..0]) + duration % STEP;
    }
  }

  /**
   * A move has one step per full 15 ms plus one for any remainder, and,
   * unless it takes no time at all, its last step reaches the target.
   */
  lemma PlanArrives(duration: nat, dX: real, dY: real)
    ensures |Plan(duration, dX, dY)| == duration / STEP + (if duration % STEP != 0 then 1 else 0)
    ensures Plan(duration, dX, dY) == [] <==> duration == 0
    ensures duration > 0 ==>
              Plan(duration, dX, dY)[|Plan(duration, dX, dY)| - 1].dx == dX &&
              Plan(duration, dX, dY)[|Plan(duration, dX, dY)| - 1].dy == dY
  {
    var p := Plan(duration, dX, dY);
    if duration > 0 && duration % STEP == 0 {
      var n := duration / STEP;
      assert n * STEP == duration;
      assert (n * STEP) as real / duration as real == 1.0;
      assert p[n - 1] == RegularStep(n - 1, duration, dX, dY);
    }
  }

  /**
   * The first loop of `move`: collect the steps for `duration` ms, one for
   * each multiple of 15 up to the duration, then the remainder.
   */
  method Intermediate(duration: nat, dX: real, dY: real) returns (moves: seq<Step>)
    ensures moves == Plan(duration, dX, dY)
  {
    moves := [];
    var time := STEP;
    while time <= duration
      invariant time == STEP * (|moves| + 1)
      invariant |moves| <= duration / STEP
      invariant forall k :: 0 <= k < |moves| ==> duration > 0 && moves[k] == RegularStep(k, duration, dX, dY)
      decreases duration - |moves| * STEP
    {
      moves := moves + [Step(STEP, time as real / duration as real * dX, time as real / duration as real * dY)];
      time := time + STEP;
    }
    if duration % STEP != 0 {
      moves := moves + [Step(duration % STEP, dX, dY)];
    }
  }

  /** The element the pointer is over and the pointer's position relative to it. */
  datatype Cursor = Cursor(anchor: Elem, position: Point)

  /**
   * The mouseout / mouseover pair `move` adds in automatic mode when the
   * pointer passes from `from` into `into` at `(x, y)`.
   */
  function CrossingScript(from: Elem, into: Elem, x: real, y: real, options: Options): seq<Kind> {
    (if IsAncestor(into, from) || !IsAncestor(from, into)
     then [Dispatch(from, BuilderEvent(MouseOut, WithRelated(options, x, y, into)))]
     else []) +
    (if IsAncestor(from, into) || !IsAncestor(into, from)
     then [Dispatch(into, BuilderEvent(MouseOver, WithRelated(options, x, y, from)))]
     else [])
  }

  /**
   * One pass of `move`'s second loop: wait, then in automatic mode follow
   * the pointer into the element under it, then a mousemove on the anchor.
   * Returns the new cursor and what is added to the queue.
   */
  function StepResult(page: Page, c: Cursor, start: Point, s: Step, options: Options, auto: bool): (Cursor, seq<Kind>) {
    var x := start.x + s.dx;
    var y := start.y + s.dy;
    var under := page.hit(x, y);
    var crosses := auto && c.anchor != under;
    var a := if crosses then under else c.anchor;
    (Cursor(a, Point(x - page.left(a), y - page.top(a))),
     [Delay(WaitDuration(s.wait))] +
     (if crosses then CrossingScript(c.anchor, under, x, y, options) else []) +
     [MoveAt(a, x, y, options)])
  }

  /** `StepResult` in terms of the pointer's client point, the element under it and the anchor it ends on. */
  lemma StepResultParts(page: Page, c: Cursor, start: Point, s: Step, options: Options, auto: bool,
                        x: real, y: real, under: Elem, a: Elem, crossing: seq<Kind>)
    requires x == start.x + s.dx && y == start.y + s.dy && under == page.hit(x, y)
    requires a == if auto && c.anchor != under then under else c.anchor
    requires crossing == if auto && c.anchor != under then CrossingScript(c.anchor, under, x, y, options) else []
    ensures StepResult(page, c, start, s, options, auto) ==
            (Cursor(a, Point(x - page.left(a), y - page.top(a))), [Delay(WaitDuration(s.wait))] + crossing + [MoveAt(a, x, y, options)])
  {
  }

  /** The mousemove `move` queues on `a` at client point `(x, y)`. */
  function MoveAt(a: Elem, x: real, y: real, options: Options): Kind {
    Dispatch(a, BuilderEvent(MouseMove, WithClient(options, x, y)))
  }

  /** `move`'s second loop over `steps`, from cursor `c0` at page point `start`. */
  function Walk(page: Page, c0: Cursor, start: Point, steps: seq<Step>, options: Options, auto: bool): (Cursor, seq<Kind>)
    decreases |steps|
  {
    if steps == [] then (c0, [])
    else
      var before := Walk(page, c0, start, steps[..|steps| - 1], options, auto);
      var last := StepResult(page, before.0, start, steps[|steps| - 1], options, auto);
      (last.0, before.1 + last.1)
  }

  /**
   * The duration `move` uses: the given one or, without one, the page's
   * travel time for the displacement, which is 0 for no displacement (the
   * length of a zero vector).
   */
  function MoveDuration(page: Page, c: Cursor, to: Point, duration: nat): nat {
    if duration != 0 then duration
    else if to == c.position then 0
    else page.travel(to.x - c.position.x, to.y - c.position.y)
  }

  /**
   * What `move(to, duration, options, auto)` does from cursor `c`: the steps
   * of its plan walked from the pointer's page position.
   */
  function MoveResult(page: Page, c: Cursor, to: Point, duration: nat, options: Options, auto: bool): (Cursor, seq<Kind>) {
    var dX := to.x - c.position.x;
    var dY := to.y - c.position.y;
    var start := Point(page.left(c.anchor) + c.position.x, page.top(c.anchor) + c.position.y);
    Walk(page, c, start, Plan(MoveDuration(page, c, to, duration), dX, dY), options, auto)
  }

  /** `MoveResult` is the walk of the plan for the move's duration and displacement from the pointer's page position. */
  lemma MoveResultWalk(page: Page, c: Cursor, to: Point, duration: nat, start: Point, steps: seq<Step>, options: Options, auto: bool)
    requires start == Point(page.left(c.anchor) + c.position.x, page.top(c.anchor) + c.position.y)
    requires steps == Plan(MoveDuration(page, c, to, duration), to.x - c.position.x, to.y - c.position.y)
    ensures MoveResult(page, c, to, duration, options, auto) == Walk(page, c, start, steps, options, auto)
  {
  }

  /** A mouseover or mouseout, with the element entered or left and the element the pointer came from or went to. */
  datatype Crossing = Over(target: Elem, related: Related) | Out(target: Elem, related: Related)

  /** The crossing a queued simulator dispatches, if any. */
  function CrossingOf(k: Kind): seq<Crossing> {
    match k
    case Dispatch(t, e) =>
      if e.ui.event.eventType == Some(MouseOver) then [Over(t, e.relatedTarget)]
      else if e.ui.event.eventType == Some(MouseOut) then [Out(t, e.relatedTarget)]
      else []
    case _ => []
  }

  /** The mouseover and mouseout events in a queue, in order. */
  function Crossings(script: seq<Kind>): seq<Crossing> {
    if script == [] then [] else Crossings(script[..|script| - 1]) + CrossingOf(script[|script| - 1])
  }

  lemma {:induction false} CrossingsAppend(a: seq<Kind>, b: seq<Kind>)
    ensures Crossings(a + b) == Crossings(a) + Crossings(b)
    decreases |b|
  {
    if b == [] {
      assert a + b == a;
    } else {
      var init := b[..|b| - 1];
      var x := b[|b| - 1];
      var front := a + init;
      assert a + b == front + [x] by {
        assert b == init + [x];
      }
      assert (front + [x])[..|front|] == front;
      assert Crossings(a + b) == Crossings(front) + CrossingOf(x);
      CrossingsAppend(a, init);
      assert Crossings(b) == Crossings(init) + CrossingOf(x);
    }
  }

  lemma CrossingsSingle(k: Kind)
    ensures Crossings([k]) == CrossingOf(k)
  {
    assert [k][..0] == [];
  }

  /**
   * Automatic mode across one boundary: entering a descendant gives only a
   * mouseover, returning to an ancestor only a mouseout, and moving between
   * unrelated elements a mouseout followed by a mouseover.
   */
  lemma CrossingRule(from: Elem, into: Elem, x: real, y: real, options: Options)
    requires from != into
    ensures IsAncestor(from, into) ==>
              Crossings(CrossingScript(from, into, x, y, options)) == [Over(into, Element(from))]
    ensures IsAncestor(into, from) ==>
              Crossings(CrossingScript(from, into, x, y, options)) == [Out(from, Element(into))]
    ensures !IsAncestor(from, into) && !IsAncestor(into, from) ==>
              Crossings(CrossingScript(from, into, x, y, options)) == [Out(from, Element(into)), Over(into, Element(from))]
  {
    var out := Dispatch(from, BuilderEvent(MouseOut, WithRelated(options, x, y, into)));
    var over := Dispatch(into, BuilderEvent(MouseOver, WithRelated(options, x, y, from)));
    CrossingsSingle(out);
    CrossingsSingle(over);
    CrossingsAppend([out], [over]);
  }

  /** A queued simulator that only waits or moves the pointer. */
  predicate Quiet(k: Kind) {
    k.Delay? || (k.Dispatch? && k.event.ui.event.eventType == Some(MouseMove))
  }

  /** Waits and mousemoves cross nothing. */
  lemma {:induction false} QuietCrossesNothing(script: seq<Kind>)
    requires forall i :: 0 <= i < |script| ==> Quiet(script[i])
    ensures Crossings(script) == []
    decreases |script|
  {
    if script != [] {
      QuietCrossesNothing(script[..|script| - 1]);
    }
  }

  /** Without automatic mode one step adds a wait and a mousemove on the anchor. */
  lemma QuietStep(page: Page, c: Cursor, start: Point, s: Step, options: Options)
    ensures StepResult(page, c, start, s, options, false) ==
            (Cursor(c.anchor, Point(start.x + s.dx - page.left(c.anchor), start.y + s.dy - page.top(c.anchor))),
             [Delay(WaitDuration(s.wait)), MoveAt(c.anchor, start.x + s.dx, start.y + s.dy, options)])
  {
    var wait := Delay(WaitDuration(s.wait));
    var move := MoveAt(c.anchor, start.x + s.dx, start.y + s.dy, options);
    assert [wait] + [] + [move] == [wait, move];
  }

  /** `Walk` over a non-empty list is the walk over all but the last step, then the last step. */
  lemma WalkSnoc(page: Page, c0: Cursor, start: Point, steps: seq<Step>, options: Options, auto: bool)
    requires steps != []
    ensures var before := Walk(page, c0, start, steps[..|steps| - 1], options, auto);
            var last := StepResult(page, before.0, start, steps[|steps| - 1], options, auto);
            Walk(page, c0, start, steps, options, auto) == (last.0, before.1 + last.1)
  {
  }

  /** Walking one more step of a list extends the walk over the steps before it. */
  lemma WalkExtend(page: Page, c0: Cursor, start: Point, steps: seq<Step>, i: nat, options: Options, auto: bool)
    requires i < |steps|
    ensures var before := Walk(page, c0, start, steps[..i], options, auto);
            var last := StepResult(page, before.0, start, steps[i], options, auto);
            Walk(page, c0, start, steps[..i + 1], options, auto) == (last.0, before.1 + last.1)
  {
    assert steps[..i + 1][..i] == steps[..i];
    WalkSnoc(page, c0, start, steps[..i + 1], options, auto);
  }

  /**
   * Without automatic mode the pointer stays on its anchor and the cursor
   * ends at the last step's point.
   */
  lemma {:induction false} QuietWalkCursor(page: Page, c0: Cursor, start: Point, steps: seq<Step>, options: Options)
    ensures Walk(page, c0, start, steps, options, false).0.anchor == c0.anchor
    ensures |Walk(page, c0, start, steps, options, false).1| == 2 * |steps|
    ensures steps == [] ==> Walk(page, c0, start, steps, options, false).0 == c0
    ensures steps != [] ==>
              Walk(page, c0, start, steps, options, false).0.position ==
              Point(start.x + steps[|steps| - 1].dx - page.left(c0.anchor), start.y + steps[|steps| - 1].dy - page.top(c0.anchor))
    decreases |steps|
  {
    if steps != [] {
      var init := steps[..|steps| - 1];
      QuietWalkCursor(page, c0, start, init, options);
      WalkSnoc(page, c0, start, steps, options, false);
      QuietStep(page, Walk(page, c0, start, init, options, false).0, start, steps[|steps| - 1], options);
    }
  }

  /** A wait and a mousemove on `a` for each step, in order. */
  function QuietScript(a: Elem, start: Point, steps: seq<Step>, options: Options): seq<Kind>
    decreases |steps|
  {
    if steps == [] then []
    else
      var s := steps[|steps| - 1];
      QuietScript(a, start, steps[..|steps| - 1], options) +
      [Delay(WaitDuration(s.wait)), MoveAt(a, start.x + s.dx, start.y + s.dy, options)]
  }

  /**
   * Without automatic mode every step adds a wait and then a mousemove on
   * the anchor at the step's point, and nothing else.
   */
  lemma {:induction false} QuietWalkScript(page: Page, c0: Cursor, start: Point, steps: seq<Step>, options: Options)
    ensures Walk(page, c0, start, steps, options, false).1 == QuietScript(c0.anchor, start, steps, options)
    decreases |steps|
  {
    if steps != [] {
      var init := steps[..|steps| - 1];
      QuietWalkScript(page, c0, start, init, options);
      QuietWalkCursor(page, c0, start, init, options);
      WalkSnoc(page, c0, start, steps, options, false);
      QuietStep(page, Walk(page, c0, start, init, options, false).0, start, steps[|steps| - 1], options);
    }
  }

  /** Without automatic mode a move queues only waits and mousemoves. */
  lemma {:induction false} QuietWalkIsQuiet(page: Page, c0: Cursor, start: Point, steps: seq<Step>, options: Options)
    ensures forall i :: 0 <= i < |Walk(page, c0, start, steps, options, false).1| ==>
              Quiet(Walk(page, c0, start, steps, options, false).1[i])
    decreases |steps|
  {
    if steps != [] {
      var init := steps[..|steps| - 1];
      QuietWalkIsQuiet(page, c0, start, init, options);
      var before := Walk(page, c0, start, init, options, false);
      WalkSnoc(page, c0, start, steps, options, false);
      QuietStep(page, before.0, start, steps[|steps| - 1], options);
      var s := steps[|steps| - 1];
      var tail := [Delay(WaitDuration(s.wait)), MoveAt(before.0.anchor, start.x + s.dx, start.y + s.dy, options)];
      assert Quiet(tail[0]) && Quiet(tail[1]);
      assert Walk(page, c0, start, steps, options, false).1 == before.1 + tail;
    }
  }

  /** Without automatic mode a move produces no mouseover or mouseout. */
  lemma QuietWalkCrossesNothing(page: Page, c0: Cursor, start: Point, steps: seq<Step>, options: Options)
    ensures Crossings(Walk(page, c0, start, steps, options, false).1) == []
  {
    QuietWalkIsQuiet(page, c0, start, steps, options);
    QuietCrossesNothing(Walk(page, c0, start, steps, options, false).1);
  }

  /**
   * A move outside automatic mode keeps the anchor, dispatches no mouseover
   * or mouseout, and leaves the pointer at `to`, or where it was when the
   * move takes no time.
   */
  lemma QuietMove(page: Page, c: Cursor, to: Point, duration: nat, options: Options)
    ensures var r := MoveResult(page, c, to, duration, options, false);
            r.0.anchor == c.anchor && Crossings(r.1) == [] &&
            r.0.position == if MoveDuration(page, c, to, duration) == 0 then c.position else to
  {
    var d := MoveDuration(page, c, to, duration);
    var dX := to.x - c.position.x;
    var dY := to.y - c.position.y;
    var start := Point(page.left(c.anchor) + c.position.x, page.top(c.anchor) + c.position.y);
    var steps := Plan(d, dX, dY);
    MoveResultWalk(page, c, to, duration, start, steps, options, false);
    QuietWalkCursor(page, c, start, steps, options);
    QuietWalkCrossesNothing(page, c, start, steps, options);
    PlanArrives(d, dX, dY);
  }

  /** A page whose travel time is positive for every nonzero displacement, as a Euclidean length is. */
  ghost predicate Realistic(page: Page) {
    forall dx: real, dy: real :: (dx != 0.0 || dy != 0.0) ==> page.travel(dx, dy) > 0
  }

  /**
   * On such a page a move outside automatic mode always ends with the
   * pointer at `to` on the same anchor, whatever the duration.
   */
  lemma MoveArrives(page: Page, c: Cursor, to: Point, duration: nat, options: Options)
    requires Realistic(page)
    ensures MoveResult(page, c, to, duration, options, false).0 == Cursor(c.anchor, to)
  {
    QuietMove(page, c, to, duration, options);
    if duration == 0 && to != c.position {
      assert to.x - c.position.x != 0.0 || to.y - c.position.y != 0.0;
    }
  }

  /**
   * A `move` to where the pointer already is, without a duration, takes no
   * time and queues nothing.
   */
  lemma MoveInPlace(page: Page, c: Cursor, options: Options, auto: bool)
    ensures MoveResult(page, c, c.position, 0, options, auto) == (c, [])
  {
    PlanArrives(0, 0.0, 0.0);
  }

  /** How deep `a` and `t` agree: the depth of the deepest ancestor-or-self of `a` that contains-or-is `t`. */
  function Meet(a: Elem, t: Elem): (k: nat)
    ensures k <= |a| && k <= |t| && IsAncestorOrSelf(a[..k], t)
    ensures k == |a| <==> IsAncestorOrSelf(a, t)
    ensures k < |a| ==> !IsAncestorOrSelf(a[..k + 1], t)
  {
    if IsAncestorOrSelf(a, t) then |a|
    else
      var p := ParentOf(a);
      var k := Meet(p, t);
      assert a[..k] == p[..k];
      assert a[..k + 1] == if k < |p| then p[..k + 1] else a;
      k
  }

  /**
   * The depth of the deepest element `enter(t)` does not leave: the
   * deepest common ancestor-or-self of the anchor `a` and `t`, but never
   * `t` itself, which is always entered.
   */
  function Join(a: Elem, t: Elem): nat
    requires t != []
  {
    if Meet(a, t) < |t| - 1 then Meet(a, t) else |t| - 1
  }

  /** A mouseout on `a` and each of its ancestors deeper than `k`, innermost first, each towards its parent. */
  function Outs(a: Elem, k: nat): seq<Crossing>
    decreases |a|
  {
    if |a| <= k then [] else [Out(a, Element(ParentOf(a)))] + Outs(ParentOf(a), k)
  }

  /** A mouseover on each ancestor-or-self of `t` deeper than `k`, outermost first, each from its parent. */
  function Overs(t: Elem, k: nat): seq<Crossing>
    decreases |t| - k
  {
    if |t| <= k then [] else [Over(t[..k + 1], Element(t[..k]))] + Overs(t, k + 1)
  }

  /** The crossings `enter(t)` produces from anchor `a`: out up to the join, then over down to `t`. */
  function EnterCrossings(a: Elem, t: Elem): seq<Crossing>
    requires t != []
  {
    Outs(a, Join(a, t)) + Overs(t, Join(a, t))
  }

  /** The crossings `leave(t)` produces from anchor `a`: out up to and including `t`, entering `t` first if needed. */
  function LeaveCrossings(a: Elem, t: Elem): seq<Crossing>
    requires t != []
  {
    if IsAncestorOrSelf(t, a) then Outs(a, |t| - 1)
    else EnterCrossings(a, t) + [Out(t, Element(ParentOf(t)))]
  }

  /** The number of crossings `enter` makes, which bounds its recursion. */
  function EnterCost(a: Elem, t: Elem): nat
    requires t != []
  {
    |a| - Join(a, t) + (|t| - Join(a, t))
  }

  /** The number of crossings `leave` makes, which bounds its recursion. */
  function LeaveCost(a: Elem, t: Elem): nat
    requires t != []
  {
    if IsAncestorOrSelf(t, a) then |a| - |t| + 1 else EnterCost(a, t) + 1
  }

  lemma {:induction false} OutsLength(a: Elem, k: nat)
    ensures |Outs(a, k)| == if |a| <= k then 0 else |a| - k
    decreases |a|
  {
    if |a| > k {
      OutsLength(ParentOf(a), k);
    }
  }

  lemma {:induction false} OversLength(t: Elem, k: nat)
    ensures |Overs(t, k)| == if |t| <= k then 0 else |t| - k
    decreases |t| - k
  {
    if |t| > k {
      OversLength(t, k + 1);
    }
  }

  /** `enter` produces one crossing per unit of its cost: mouseouts up to the join, mouseovers down from it. */
  lemma EnterCrossingsCount(a: Elem, t: Elem)
    requires t != []
    ensures |EnterCrossings(a, t)| == EnterCost(a, t)
  {
    OutsLength(a, Join(a, t));
    OversLength(t, Join(a, t));
  }

  /**
   * From an ancestor, `enter(t)` only descends: one mouseover per level
   * below the anchor, each element entered from its parent, ending on `t`.
   */
  lemma {:induction false} EnterFromAncestor(a: Elem, t: Elem)
    requires IsAncestor(a, t)
    ensures |EnterCrossings(a, t)| == |t| - |a|
    ensures forall i :: 0 <= i < |t| - |a| ==>
              EnterCrossings(a, t)[i] == Over(t[..|a| + i + 1], Element(t[..|a| + i]))
  {
    assert Join(a, t) == |a|;
    assert Outs(a, |a|) == [];
    OversFrom(t, |a|);
  }

  lemma {:induction false} OversFrom(t: Elem, k: nat)
    requires k <= |t|
    ensures |Overs(t, k)| == |t| - k
    ensures forall i :: 0 <= i < |t| - k ==> Overs(t, k)[i] == Over(t[..k + i + 1], Element(t[..k + i]))
    decreases |t| - k
  {
    if k < |t| {
      OversFrom(t, k + 1);
      var rest := Overs(t, k + 1);
      assert Overs(t, k) == [Over(t[..k + 1], Element(t[..k]))] + rest;
      forall i | 0 < i < |t| - k
        ensures Overs(t, k)[i] == Over(t[..k + i + 1], Element(t[..k + i]))
      {
        assert Overs(t, k)[i] == rest[i - 1];
      }
    }
  }

  /** `enter`'s base case: from an ancestor, enter the child towards `t`, then carry on from there. */
  lemma EnterDown(a: Elem, t: Elem)
    requires IsAncestor(a, t)
    ensures var child := t[..|a| + 1];
            EnterCrossings(a, t) == [Over(child, Element(a))] + (if child == t then [] else EnterCrossings(child, t))
    ensures t[..|a| + 1] != t ==> EnterCost(t[..|a| + 1], t) < EnterCost(a, t)
  {
    var child := t[..|a| + 1];
    assert Meet(a, t) == |a|;
    assert Join(a, t) == |a|;
    assert Outs(a, |a|) == [];
    assert t[..|a|] == a;
    if child != t {
      assert Meet(child, t) == |child|;
      assert Join(child, t) == |a| + 1;
      assert Outs(child, |a| + 1) == [];
    } else {
      assert Overs(t, |a| + 1) == [];
    }
  }

  /** `enter` from outside `t`'s ancestry: leave the anchor for its parent, then enter from there. */
  lemma EnterUp(a: Elem, t: Elem)
    requires t != [] && !IsAncestor(a, t)
    ensures a != []
    ensures EnterCrossings(a, t) == [Out(a, Element(ParentOf(a)))] + EnterCrossings(ParentOf(a), t)
    ensures EnterCost(ParentOf(a), t) + 1 == EnterCost(a, t) && EnterCost(a, t) >= 2
  {
    if a == t {
      assert Meet(ParentOf(a), t) == |a| - 1;
    } else {
      assert !IsAncestorOrSelf(a, t);
      assert Meet(a, t) == Meet(ParentOf(a), t);
    }
    assert Join(a, t) < |a|;
    assert Join(ParentOf(a), t) == Join(a, t);
  }

  /** `leave`'s base case: leave the anchor for its parent, then carry on until `t` has been left. */
  lemma LeaveUp(a: Elem, t: Elem)
    requires t != [] && IsAncestorOrSelf(t, a)
    ensures a != []
    ensures LeaveCrossings(a, t) ==
              [Out(a, Element(ParentOf(a)))] + (if ParentOf(a) == ParentOf(t) then [] else LeaveCrossings(ParentOf(a), t))
    ensures ParentOf(a) != ParentOf(t) ==> IsAncestorOrSelf(t, ParentOf(a)) && LeaveCost(ParentOf(a), t) < LeaveCost(a, t)
  {
    var p := ParentOf(a);
    if p != ParentOf(t) {
      assert |a| > |t|;
      assert p[..|t|] == a[..|t|];
    } else {
      assert Outs(p, |t| - 1) == [];
    }
  }

  /** Leaving the anchor itself is a single mouseout towards its parent. */
  lemma LeaveSelf(a: Elem)
    requires a != []
    ensures LeaveCrossings(a, a) == [Out(a, Element(ParentOf(a)))]
  {
    assert Outs(ParentOf(a), |a| - 1) == [];
  }

  /** `leave(t)` when the anchor is not inside `t`: enter `t` first, then leave it. */
  lemma LeaveAround(a: Elem, t: Elem)
    requires t != [] && !IsAncestorOrSelf(t, a)
    ensures LeaveCrossings(a, t) == EnterCrossings(a, t) + LeaveCrossings(t, t)
    ensures EnterCost(a, t) < LeaveCost(a, t) && LeaveCost(t, t) < LeaveCost(a, t)
  {
    LeaveSelf(t);
  }
}
