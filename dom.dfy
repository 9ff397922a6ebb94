/**
 * The document tree as the simulator sees it. An element is identified by
 * its path of child indices from the root element (`[]`), so the parent of
 * an element drops the last index and containment is the strict-prefix
 * order. The document node above the root element is not part of the model.
 */
module Dom {
  import opened Basics

  type Elem = seq<nat>

  /** `a` lies on the path from the root element to `d` (or is `d`). */
  predicate IsAncestorOrSelf(a: Elem, d: Elem) {
    |a| <= |d| && d[..|a|] == a
  }

  /** `a` strictly contains `d`: the relation `$.fn.isParentOf` decides. */
  predicate IsAncestor(a: Elem, d: Elem) {
    |a| < |d| && d[..|a|] == a
  }

  /** jQuery's `.parent()`; the root element has none in this model. */
  function Parent(e: Elem): (p: Option<Elem>)
    ensures p.None? <==> e == []
    ensures p.Some? ==> |p.value| + 1 == |e| && IsAncestor(p.value, e)
  {
    if e == [] then None else Some(e[..|e| - 1])
  }

  /** The parent of a non-root element. */
  function ParentOf(e: Elem): (p: Elem)
    requires e != []
    ensures Parent(e) == Some(p)
  {
    e[..|e| - 1]
  }

  /**
   * jQuery's `.parents()`: every strict ancestor, nearest first, ending at
   * the root element (the document itself is not listed).
   */
  function Parents(e: Elem): (ps: seq<Elem>)
    ensures |ps| == |e|
    ensures forall i :: 0 <= i < |ps| ==> IsAncestor(ps[i], e) && |ps[i]| == |e| - 1 - i
  {
    seq(|e|, i requires 0 <= i < |e| => e[..|e| - 1 - i])
  }

  /**
   * `$.fn.equals`: the first elements of the two selections are the same
   * object. Two empty selections compare equal (`undefined == undefined`).
   */
  function Equals(a: Option<Elem>, b: Option<Elem>): (r: bool)
    ensures r <==> (a.None? && b.None?) || (a.Some? && b.Some? && a.value == b.value)
  {
    a == b
  }

  /**
   * `$.fn.isParentOf`: walk up from `child` until the chain runs out or
   * reaches `self`. For a non-empty `self` this is the strict-ancestor test;
   * an empty `self` matches the exhausted chain, so it "contains" every
   * non-empty selection.
   */
  method IsParentOf(self: Option<Elem>, child: Option<Elem>) returns (r: bool)
    ensures r <==> child.Some? && (self.None? || IsAncestor(self.value, child.value))
  {
    var current := child;
    while current.Some? && !Equals(self, current)
      invariant current.Some? ==> child.Some? && IsAncestorOrSelf(current.value, child.value)
      invariant self.Some? && child.Some? && IsAncestorOrSelf(self.value, child.value)
                ==> current.Some? && |self.value| <= |current.value|
      decreases if current.Some? then |current.value| + 1 else 0
    {
      current := Parent(current.value);
    }
    r := !Equals(self, child) && Equals(self, current);
  }

  /**
   * The child of `anchor` on the way down to `target`, found as the source
   * does: pop the list of `target`'s parents (root element first) until the
   * anchor comes off, then pop once more, falling back to `target` itself.
   */
  method ChildToward(anchor: Elem, target: Elem) returns (toEnter: Elem)
    requires IsAncestor(anchor, target)
    ensures toEnter == target[..|anchor| + 1]
    ensures Parent(toEnter) == Some(anchor) && IsAncestorOrSelf(toEnter, target)
  {
    var parents := Parents(target);
    var popped := parents[|parents| - 1];
    parents := parents[..|parents| - 1];
    while popped != anchor
      invariant |parents| < |target|
      invariant parents == Parents(target)[..|parents|]
      invariant popped == target[..|target| - 1 - |parents|]
      invariant |popped| <= |anchor|
      decreases |parents|
    {
      popped := parents[|parents| - 1];
      parents := parents[..|parents| - 1];
    }
    if |parents| > 0 {
      toEnter := parents[|parents| - 1];
    } else {
      toEnter := target;
    }
    assert toEnter[..|anchor|] == target[..|anchor|];
  }

  /** Containment is irreflexive and antisymmetric. */
  lemma AncestorAsymmetric(a: Elem, b: Elem)
    ensures !IsAncestor(a, a)
    ensures IsAncestor(a, b) ==> !IsAncestor(b, a)
  {
  }

  /** Two different children of one parent do not contain each other. */
  lemma SiblingsUnrelated(a: Elem, b: Elem)
    requires a != [] && b != [] && a != b && ParentOf(a) == ParentOf(b)
    ensures !IsAncestor(a, b) && !IsAncestor(b, a)
  {
  }

  /** Containment is transitive along the parent chain. */
  lemma AncestorTransitive(a: Elem, b: Elem, c: Elem)
    requires IsAncestor(a, b) && IsAncestor(b, c)
    ensures IsAncestor(a, c)
  {
    assert c[..|b|][..|a|] == c[..|a|];
  }
}
