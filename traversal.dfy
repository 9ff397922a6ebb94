/**
 * Everything `enter` and `leave` queue, and not only their crossings: the
 * glides between levels, the mouseover or mouseout at each level and its
 * client point, and where the caller's options go (to the first level's
 * event only, because the recursive calls pass none).
 */
module Traversal {
  import opened Dom
  import opened Events
  import opened Engine
  import opened Gestures

  /** The centre of `e` in page coordinates. */
  function PageCenter(page: Page, e: Elem): Point {
    Point(page.left(e) + page.width(e) / 2.0, page.top(e) + page.height(e) / 2.0)
  }

  /** The plain `move(to)` made between levels: default duration and options, not automatic. */
  function GlideScript(page: Page, c: Cursor, to: Point): seq<Kind> {
    MoveResult(page, c, to, 0, NoOptions, false).1
  }

  /** Every queued simulator waits, moves the pointer, or is a mouseover or mouseout. */
  predicate QuietOrCrossing(s: seq<Kind>) {
    forall i :: 0 <= i < |s| ==> Quiet(s[i]) || CrossingOf(s[i]) != []
  }

  /**
   * One level of `enter` from cursor `c` into `child`: glide to the centre
   * of `child`, then a mouseover on it from the anchor.
   */
  function EnterChildScript(page: Page, c: Cursor, child: Elem, options: Options): seq<Kind> {
    var to := Point(page.left(child) - page.left(c.anchor) + page.width(child) / 2.0,
                    page.top(child) - page.top(c.anchor) + page.height(child) / 2.0);
    GlideScript(page, c, to) +
    [Dispatch(child, BuilderEvent(MouseOver, WithRelated(options, page.left(c.anchor) + to.x, page.top(c.anchor) + to.y, c.anchor)))]
  }

  /**
   * One level of `leave` from cursor `c`: glide to the centre of the
   * anchor's parent, then a mouseout on the anchor towards it.
   */
  function LeaveParentScript(page: Page, c: Cursor, options: Options): seq<Kind>
    requires c.anchor != []
  {
    var p := ParentOf(c.anchor);
    var to := Point(page.width(p) / 2.0 - (page.left(c.anchor) - page.left(p)),
                    page.height(p) / 2.0 - (page.top(c.anchor) - page.top(p)));
    GlideScript(page, c, to) +
    [Dispatch(c.anchor, BuilderEvent(MouseOut, WithRelated(options, page.left(c.anchor) + to.x, page.top(c.anchor) + to.y, p)))]
  }

  /**
   * What `enter(t, options)` queues from cursor `c`: level by level down
   * from an ancestor, otherwise leave the anchor first. Only the first
   * level's event carries `options`.
   */
  function EnterScript(page: Page, c: Cursor, t: Elem, options: Options): seq<Kind>
    requires t != []
    decreases EnterCost(c.anchor, t), 1
  {
    if IsAncestor(c.anchor, t) then
      var child := t[..|c.anchor| + 1];
      EnterDown(c.anchor, t);
      EnterChildScript(page, c, child, options) +
      (if child == t then [] else EnterScript(page, Cursor(child, Center(page, child)), t, NoOptions))
    else
      EnterUp(c.anchor, t);
      var p := ParentOf(c.anchor);
      LeaveScript(page, c, c.anchor, NoOptions) + EnterScript(page, Cursor(p, Center(page, p)), t, NoOptions)
  }

  /**
   * What `leave(t, options)` queues from cursor `c`: level by level up
   * until `t` is left, entering `t` first when the anchor is outside it.
   * Only the first level's event carries `options`.
   */
  function LeaveScript(page: Page, c: Cursor, t: Elem, options: Options): seq<Kind>
    requires t != []
    decreases LeaveCost(c.anchor, t), 1
  {
    if IsAncestorOrSelf(t, c.anchor) then
      LeaveUp(c.anchor, t);
      var p := ParentOf(c.anchor);
      LeaveParentScript(page, c, options) +
      (if p == ParentOf(t) then [] else LeaveScript(page, Cursor(p, Center(page, p)), t, NoOptions))
    else
      LeaveAround(c.anchor, t);
      EnterScript(page, c, t, NoOptions) + LeaveScript(page, Cursor(t, Center(page, t)), t, NoOptions)
  }

  /** A glide queues only waits and mousemoves. */
  lemma GlideIsQuiet(page: Page, c: Cursor, to: Point)
    ensures forall i :: 0 <= i < |GlideScript(page, c, to)| ==> Quiet(GlideScript(page, c, to)[i])
  {
    var dX := to.x - c.position.x;
    var dY := to.y - c.position.y;
    var start := Point(page.left(c.anchor) + c.position.x, page.top(c.anchor) + c.position.y);
    var steps := Plan(MoveDuration(page, c, to, 0), dX, dY);
    MoveResultWalk(page, c, to, 0, start, steps, NoOptions, false);
    QuietWalkIsQuiet(page, c, start, steps, NoOptions);
  }

  /**
   * One level of `enter` ends with a mouseover on the child at the child's
   * centre, from the old anchor and with the caller's options.
   */
  lemma EnterChildLast(page: Page, c: Cursor, child: Elem, options: Options)
    ensures var s := EnterChildScript(page, c, child, options);
            |s| > 0 &&
            s[|s| - 1] == Dispatch(child, BuilderEvent(MouseOver,
                            WithRelated(options, PageCenter(page, child).x, PageCenter(page, child).y, c.anchor)))
  {
    var to := Point(page.left(child) - page.left(c.anchor) + page.width(child) / 2.0,
                    page.top(child) - page.top(c.anchor) + page.height(child) / 2.0);
    assert page.left(c.anchor) + to.x == PageCenter(page, child).x;
    assert page.top(c.anchor) + to.y == PageCenter(page, child).y;
  }

  /**
   * One level of `leave` ends with a mouseout on the anchor at its
   * parent's centre, towards the parent and with the caller's options.
   */
  lemma LeaveParentLast(page: Page, c: Cursor, options: Options)
    requires c.anchor != []
    ensures var s := LeaveParentScript(page, c, options);
            var p := ParentOf(c.anchor);
            |s| > 0 &&
            s[|s| - 1] == Dispatch(c.anchor, BuilderEvent(MouseOut,
                            WithRelated(options, PageCenter(page, p).x, PageCenter(page, p).y, p)))
  {
    var p := ParentOf(c.anchor);
    var to := Point(page.width(p) / 2.0 - (page.left(c.anchor) - page.left(p)),
                    page.height(p) / 2.0 - (page.top(c.anchor) - page.top(p)));
    assert page.left(c.anchor) + to.x == PageCenter(page, p).x;
    assert page.top(c.anchor) + to.y == PageCenter(page, p).y;
  }

  /** Everything one level of `enter` queues before its mouseover only waits or moves. */
  lemma EnterChildShape(page: Page, c: Cursor, child: Elem, options: Options)
    ensures var s := EnterChildScript(page, c, child, options);
            forall i :: 0 <= i < |s| - 1 ==> Quiet(s[i])
  {
    var to := Point(page.left(child) - page.left(c.anchor) + page.width(child) / 2.0,
                    page.top(child) - page.top(c.anchor) + page.height(child) / 2.0);
    GlideIsQuiet(page, c, to);
  }

  /** Everything one level of `leave` queues before its mouseout only waits or moves. */
  lemma LeaveParentShape(page: Page, c: Cursor, options: Options)
    requires c.anchor != []
    ensures var s := LeaveParentScript(page, c, options);
            forall i :: 0 <= i < |s| - 1 ==> Quiet(s[i])
  {
    var p := ParentOf(c.anchor);
    var to := Point(page.width(p) / 2.0 - (page.left(c.anchor) - page.left(p)),
                    page.height(p) / 2.0 - (page.top(c.anchor) - page.top(p)));
    GlideIsQuiet(page, c, to);
  }

  /** One level of `enter`, written as the source builds it (a glide to the point `to`, then the mouseover), is `EnterChildScript`. */
  lemma EnterChildParts(page: Page, c: Cursor, child: Elem, options: Options, to: Point, added: seq<Kind>)
    requires to == Point(page.left(child) - page.left(c.anchor) + page.width(child) / 2.0,
                         page.top(child) - page.top(c.anchor) + page.height(child) / 2.0)
    requires added == GlideScript(page, c, to) +
                      [Dispatch(child, BuilderEvent(MouseOver, WithRelated(options, page.left(c.anchor) + to.x, page.top(c.anchor) + to.y, c.anchor)))]
    ensures added == EnterChildScript(page, c, child, options)
  {
  }

  /**
   * What one level of `enter` queues, as the source builds it, is
   * `EnterChildScript`: it crosses once, into the child, and ends with the
   * mouseover at the child's centre.
   */
  lemma EnterChildQueued(page: Page, c: Cursor, child: Elem, options: Options, to: Point, added: seq<Kind>)
    requires to == Point(page.left(child) - page.left(c.anchor) + page.width(child) / 2.0,
                         page.top(child) - page.top(c.anchor) + page.height(child) / 2.0)
    requires added == GlideScript(page, c, to) +
                      [Dispatch(child, BuilderEvent(MouseOver, WithRelated(options, page.left(c.anchor) + to.x, page.top(c.anchor) + to.y, c.anchor)))]
    ensures added == EnterChildScript(page, c, child, options)
    ensures Crossings(added) == [Over(child, Element(c.anchor))]
    ensures added[|added| - 1] ==
              Dispatch(child, BuilderEvent(MouseOver, WithRelated(options, PageCenter(page, child).x, PageCenter(page, child).y, c.anchor)))
  {
    EnterChildParts(page, c, child, options, to, added);
    EnterChildCrossings(page, c, child, options);
    EnterChildLast(page, c, child, options);
  }

  /** One level of `leave`, written as the source builds it (a glide to the point `to`, then the mouseout), is `LeaveParentScript`. */
  lemma LeaveParentParts(page: Page, c: Cursor, options: Options, to: Point, added: seq<Kind>)
    requires c.anchor != []
    requires to == Point(page.width(ParentOf(c.anchor)) / 2.0 - (page.left(c.anchor) - page.left(ParentOf(c.anchor))),
                         page.height(ParentOf(c.anchor)) / 2.0 - (page.top(c.anchor) - page.top(ParentOf(c.anchor))))
    requires added == GlideScript(page, c, to) +
                      [Dispatch(c.anchor, BuilderEvent(MouseOut,
                         WithRelated(options, page.left(c.anchor) + to.x, page.top(c.anchor) + to.y, ParentOf(c.anchor))))]
    ensures added == LeaveParentScript(page, c, options)
  {
  }

  /**
   * What one level of `leave` queues, as the source builds it, is
   * `LeaveParentScript`: it crosses once, out of the anchor, and ends with
   * the mouseout at the parent's centre.
   */
  lemma LeaveParentQueued(page: Page, c: Cursor, options: Options, to: Point, added: seq<Kind>)
    requires c.anchor != []
    requires to == Point(page.width(ParentOf(c.anchor)) / 2.0 - (page.left(c.anchor) - page.left(ParentOf(c.anchor))),
                         page.height(ParentOf(c.anchor)) / 2.0 - (page.top(c.anchor) - page.top(ParentOf(c.anchor))))
    requires added == GlideScript(page, c, to) +
                      [Dispatch(c.anchor, BuilderEvent(MouseOut,
                         WithRelated(options, page.left(c.anchor) + to.x, page.top(c.anchor) + to.y, ParentOf(c.anchor))))]
    ensures added == LeaveParentScript(page, c, options)
    ensures Crossings(added) == [Out(c.anchor, Element(ParentOf(c.anchor)))]
    ensures added[|added| - 1] ==
              Dispatch(c.anchor, BuilderEvent(MouseOut,
                WithRelated(options, PageCenter(page, ParentOf(c.anchor)).x, PageCenter(page, ParentOf(c.anchor)).y, ParentOf(c.anchor))))
  {
    LeaveParentParts(page, c, options, to, added);
    LeaveParentCrossings(page, c, options);
    LeaveParentLast(page, c, options);
  }

  /** One level of `enter` crosses once: into the child, from the anchor. */
  lemma EnterChildCrossings(page: Page, c: Cursor, child: Elem, options: Options)
    ensures Crossings(EnterChildScript(page, c, child, options)) == [Over(child, Element(c.anchor))]
  {
    var to := Point(page.left(child) - page.left(c.anchor) + page.width(child) / 2.0,
                    page.top(child) - page.top(c.anchor) + page.height(child) / 2.0);
    var over := Dispatch(child, BuilderEvent(MouseOver, WithRelated(options, page.left(c.anchor) + to.x, page.top(c.anchor) + to.y, c.anchor)));
    var moved := GlideScript(page, c, to);
    assert EnterChildScript(page, c, child, options) == moved + [over];
    GlideIsQuiet(page, c, to);
    QuietCrossesNothing(moved);
    CrossingsSingle(over);
    CrossingsAppend(moved, [over]);
  }

  /** One level of `leave` crosses once: out of the anchor, towards its parent. */
  lemma LeaveParentCrossings(page: Page, c: Cursor, options: Options)
    requires c.anchor != []
    ensures Crossings(LeaveParentScript(page, c, options)) == [Out(c.anchor, Element(ParentOf(c.anchor)))]
  {
    var p := ParentOf(c.anchor);
    var to := Point(page.width(p) / 2.0 - (page.left(c.anchor) - page.left(p)),
                    page.height(p) / 2.0 - (page.top(c.anchor) - page.top(p)));
    var out := Dispatch(c.anchor, BuilderEvent(MouseOut, WithRelated(options, page.left(c.anchor) + to.x, page.top(c.anchor) + to.y, p)));
    var moved := GlideScript(page, c, to);
    assert LeaveParentScript(page, c, options) == moved + [out];
    GlideIsQuiet(page, c, to);
    QuietCrossesNothing(moved);
    CrossingsSingle(out);
    CrossingsAppend(moved, [out]);
  }

  /** Joining two scripts that only wait, move or cross gives another. */
  lemma QuietOrCrossingAppend(a: seq<Kind>, b: seq<Kind>)
    requires QuietOrCrossing(a) && QuietOrCrossing(b)
    ensures QuietOrCrossing(a + b)
  {
    forall i | 0 <= i < |a + b|
      ensures Quiet((a + b)[i]) || CrossingOf((a + b)[i]) != []
    {
      if i >= |a| {
        assert (a + b)[i] == b[i - |a|];
      }
    }
  }

  /** One level of `enter` only waits, moves, or crosses. */
  lemma EnterChildIsQuietOrCrossing(page: Page, c: Cursor, child: Elem, options: Options)
    ensures QuietOrCrossing(EnterChildScript(page, c, child, options))
  {
    var s := EnterChildScript(page, c, child, options);
    EnterChildShape(page, c, child, options);
    EnterChildLast(page, c, child, options);
    forall i | 0 <= i < |s|
      ensures Quiet(s[i]) || CrossingOf(s[i]) != []
    {
    }
  }

  /** One level of `leave` only waits, moves, or crosses. */
  lemma LeaveParentIsQuietOrCrossing(page: Page, c: Cursor, options: Options)
    requires c.anchor != []
    ensures QuietOrCrossing(LeaveParentScript(page, c, options))
  {
    var s := LeaveParentScript(page, c, options);
    LeaveParentShape(page, c, options);
    LeaveParentLast(page, c, options);
    forall i | 0 <= i < |s|
      ensures Quiet(s[i]) || CrossingOf(s[i]) != []
    {
    }
  }

  /** Besides waits and mousemoves, `enter` queues only mouseovers and mouseouts. */
  lemma {:induction false} EnterIsQuietOrCrossing(page: Page, c: Cursor, t: Elem, options: Options)
    requires t != []
    ensures QuietOrCrossing(EnterScript(page, c, t, options))
    decreases EnterCost(c.anchor, t), 0
  {
    if IsAncestor(c.anchor, t) {
      var child := t[..|c.anchor| + 1];
      EnterDown(c.anchor, t);
      var first := EnterChildScript(page, c, child, options);
      var rest := if child == t then [] else EnterScript(page, Cursor(child, Center(page, child)), t, NoOptions);
      assert EnterScript(page, c, t, options) == first + rest;
      EnterChildIsQuietOrCrossing(page, c, child, options);
      if child != t {
        EnterIsQuietOrCrossing(page, Cursor(child, Center(page, child)), t, NoOptions);
      }
      QuietOrCrossingAppend(first, rest);
    } else {
      EnterUp(c.anchor, t);
      var p := ParentOf(c.anchor);
      var before := LeaveScript(page, c, c.anchor, NoOptions);
      var after := EnterScript(page, Cursor(p, Center(page, p)), t, NoOptions);
      assert EnterScript(page, c, t, options) == before + after;
      LeaveIsQuietOrCrossing(page, c, c.anchor, NoOptions);
      EnterIsQuietOrCrossing(page, Cursor(p, Center(page, p)), t, NoOptions);
      QuietOrCrossingAppend(before, after);
    }
  }

  /** Besides waits and mousemoves, `leave` queues only mouseouts and mouseovers. */
  lemma {:induction false} LeaveIsQuietOrCrossing(page: Page, c: Cursor, t: Elem, options: Options)
    requires t != []
    ensures QuietOrCrossing(LeaveScript(page, c, t, options))
    decreases LeaveCost(c.anchor, t), 0
  {
    if IsAncestorOrSelf(t, c.anchor) {
      LeaveUp(c.anchor, t);
      var p := ParentOf(c.anchor);
      var first := LeaveParentScript(page, c, options);
      var rest := if p == ParentOf(t) then [] else LeaveScript(page, Cursor(p, Center(page, p)), t, NoOptions);
      assert LeaveScript(page, c, t, options) == first + rest;
      LeaveParentIsQuietOrCrossing(page, c, options);
      if p != ParentOf(t) {
        LeaveIsQuietOrCrossing(page, Cursor(p, Center(page, p)), t, NoOptions);
      }
      QuietOrCrossingAppend(first, rest);
    } else {
      LeaveAround(c.anchor, t);
      var before := EnterScript(page, c, t, NoOptions);
      var after := LeaveScript(page, Cursor(t, Center(page, t)), t, NoOptions);
      assert LeaveScript(page, c, t, options) == before + after;
      EnterIsQuietOrCrossing(page, c, t, NoOptions);
      LeaveIsQuietOrCrossing(page, Cursor(t, Center(page, t)), t, NoOptions);
      QuietOrCrossingAppend(before, after);
    }
  }

  /** The caller's options change only the mouseover of one level of `enter`. */
  lemma EnterChildOptionsLast(page: Page, c: Cursor, child: Elem, options: Options)
    ensures var s := EnterChildScript(page, c, child, options);
            var n := EnterChildScript(page, c, child, NoOptions);
            |s| == |n| > 0 && s[..|s| - 1] == n[..|n| - 1]
  {
    var to := Point(page.left(child) - page.left(c.anchor) + page.width(child) / 2.0,
                    page.top(child) - page.top(c.anchor) + page.height(child) / 2.0);
    var moved := GlideScript(page, c, to);
    var s := EnterChildScript(page, c, child, options);
    var n := EnterChildScript(page, c, child, NoOptions);
    assert s[..|s| - 1] == moved;
    assert n[..|n| - 1] == moved;
  }

  /** The caller's options change only the mouseout of one level of `leave`. */
  lemma LeaveParentOptionsLast(page: Page, c: Cursor, options: Options)
    requires c.anchor != []
    ensures var s := LeaveParentScript(page, c, options);
            var n := LeaveParentScript(page, c, NoOptions);
            |s| == |n| > 0 && s[..|s| - 1] == n[..|n| - 1]
  {
    var p := ParentOf(c.anchor);
    var to := Point(page.width(p) / 2.0 - (page.left(c.anchor) - page.left(p)),
                    page.height(p) / 2.0 - (page.top(c.anchor) - page.top(p)));
    var moved := GlideScript(page, c, to);
    var s := LeaveParentScript(page, c, options);
    var n := LeaveParentScript(page, c, NoOptions);
    assert s[..|s| - 1] == moved;
    assert n[..|n| - 1] == moved;
  }

  /** Two sequences equal but for their last element, each followed by `rest`, differ at that index only. */
  lemma DifferOnlyAt<T>(a: seq<T>, b: seq<T>, rest: seq<T>)
    requires |a| == |b| > 0 && a[..|a| - 1] == b[..|b| - 1]
    ensures |a + rest| == |b + rest|
    ensures forall i :: 0 <= i < |a + rest| && i != |a| - 1 ==> (a + rest)[i] == (b + rest)[i]
  {
    forall i | 0 <= i < |a + rest| && i != |a| - 1
      ensures (a + rest)[i] == (b + rest)[i]
    {
      if i < |a| - 1 {
        assert a[i] == a[..|a| - 1][i];
        assert b[i] == b[..|b| - 1][i];
      }
    }
  }

  /**
   * The caller's options reach one event of `enter` only: the mouseover
   * into the first child when `t` is inside the anchor, and no event at
   * all otherwise. Every other simulator is the same as without options.
   */
  lemma EnterOptionsOnce(page: Page, c: Cursor, t: Elem, options: Options)
    requires t != []
    ensures |EnterScript(page, c, t, options)| == |EnterScript(page, c, t, NoOptions)|
    ensures !IsAncestor(c.anchor, t) ==> EnterScript(page, c, t, options) == EnterScript(page, c, t, NoOptions)
    ensures IsAncestor(c.anchor, t) ==>
              var child := t[..|c.anchor| + 1];
              var k := |EnterChildScript(page, c, child, options)| - 1;
              0 <= k < |EnterScript(page, c, t, options)| &&
              EnterScript(page, c, t, options)[k] ==
                Dispatch(child, BuilderEvent(MouseOver, WithRelated(options, PageCenter(page, child).x, PageCenter(page, child).y, c.anchor))) &&
              forall i :: 0 <= i < |EnterScript(page, c, t, options)| && i != k ==>
                EnterScript(page, c, t, options)[i] == EnterScript(page, c, t, NoOptions)[i]
  {
    if IsAncestor(c.anchor, t) {
      var child := t[..|c.anchor| + 1];
      EnterDown(c.anchor, t);
      var first := EnterChildScript(page, c, child, options);
      var plain := EnterChildScript(page, c, child, NoOptions);
      var rest := if child == t then [] else EnterScript(page, Cursor(child, Center(page, child)), t, NoOptions);
      assert EnterScript(page, c, t, options) == first + rest;
      assert EnterScript(page, c, t, NoOptions) == plain + rest;
      EnterChildLast(page, c, child, options);
      EnterChildOptionsLast(page, c, child, options);
      DifferOnlyAt(first, plain, rest);
    }
  }

  /**
   * The caller's options reach one event of `leave` only: the mouseout of
   * the anchor when the anchor is inside `t` (or is `t`), and no event at
   * all otherwise. Every other simulator is the same as without options.
   */
  lemma LeaveOptionsOnce(page: Page, c: Cursor, t: Elem, options: Options)
    requires t != []
    ensures |LeaveScript(page, c, t, options)| == |LeaveScript(page, c, t, NoOptions)|
    ensures !IsAncestorOrSelf(t, c.anchor) ==> LeaveScript(page, c, t, options) == LeaveScript(page, c, t, NoOptions)
    ensures IsAncestorOrSelf(t, c.anchor) ==>
              var p := ParentOf(c.anchor);
              var k := |LeaveParentScript(page, c, options)| - 1;
              0 <= k < |LeaveScript(page, c, t, options)| &&
              LeaveScript(page, c, t, options)[k] ==
                Dispatch(c.anchor, BuilderEvent(MouseOut, WithRelated(options, PageCenter(page, p).x, PageCenter(page, p).y, p))) &&
              forall i :: 0 <= i < |LeaveScript(page, c, t, options)| && i != k ==>
                LeaveScript(page, c, t, options)[i] == LeaveScript(page, c, t, NoOptions)[i]
  {
    if IsAncestorOrSelf(t, c.anchor) {
      LeaveUp(c.anchor, t);
      var p := ParentOf(c.anchor);
      var first := LeaveParentScript(page, c, options);
      var plain := LeaveParentScript(page, c, NoOptions);
      var rest := if p == ParentOf(t) then [] else LeaveScript(page, Cursor(p, Center(page, p)), t, NoOptions);
      assert LeaveScript(page, c, t, options) == first + rest;
      assert LeaveScript(page, c, t, NoOptions) == plain + rest;
      LeaveParentLast(page, c, options);
      LeaveParentOptionsLast(page, c, options);
      DifferOnlyAt(first, plain, rest);
    }
  }
}
