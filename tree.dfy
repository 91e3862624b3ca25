/*
 * The view tree and the parts of ConstraintView+Extensions.swift that the
 * maker needs: `commonSuperview`, `removeConstraints` and the `wayne_*`
 * item accessors. (`makeConstraints`, `updateConstraints` and
 * `remakeConstraints` are in module Lifecycle, which builds on Makers.)
 *
 * The tree is a `superview` map. It is acyclic, which a ghost `rank` map
 * witnesses: a view's superview, when it has one of its own, has a lower
 * rank. The engine's per-view constraint lists are a `constraints` map, and
 * the views still alive (for weak references) are the `live` set.
 */
module ViewTree {
  import opened LayoutEngine
  import opened ConstraintAttributes
  import opened Descriptions

  ghost predicate Acyclic(superview: map<Box, Box>, rank: map<Box, nat>) {
    forall b :: b in superview ==>
      b in rank && (superview[b] in superview ==> superview[b] in rank && rank[superview[b]] < rank[b])
  }

  /** How far a view is from the root of its tree, as the rank bounds it. */
  ghost function Depth(superview: map<Box, Box>, rank: map<Box, nat>, b: Box): nat
    requires Acyclic(superview, rank)
  {
    if b in superview then rank[b] + 1 else 0
  }

  /**
   * UIKit's `isDescendant(of:)`: `b` is `ancestor` or lies below it. This is
   * the engine's tree query; the DSL only calls it.
   */
  function IsDescendant(superview: map<Box, Box>, ghost rank: map<Box, nat>, b: Box, ancestor: Box): bool
    requires Acyclic(superview, rank)
    decreases Depth(superview, rank, b)
  {
    b == ancestor || (b in superview && IsDescendant(superview, rank, superview[b], ancestor))
  }

  /**
   * The walk of `commonSuperview`, from `current` upward: the first view on
   * the way that `other` descends from, or nothing once the root is passed.
   */
  function CommonFrom(superview: map<Box, Box>, ghost rank: map<Box, nat>, current: Box, other: Box): Option<Box>
    requires Acyclic(superview, rank)
    decreases Depth(superview, rank, current)
  {
    if IsDescendant(superview, rank, other, current) then Some(current)
    else if current in superview then CommonFrom(superview, rank, superview[current], other)
    else Option.None
  }

  /** Descent is transitive. */
  lemma {:induction false} DescendantTransitive(superview: map<Box, Box>, rank: map<Box, nat>, a: Box, b: Box, c: Box)
    requires Acyclic(superview, rank)
    requires IsDescendant(superview, rank, a, b) && IsDescendant(superview, rank, b, c)
    ensures IsDescendant(superview, rank, a, c)
    decreases Depth(superview, rank, a)
  {
    if a != b {
      DescendantTransitive(superview, rank, superview[a], b, c);
    }
  }

  /** A proper ancestor has a strictly smaller depth. */
  lemma {:induction false} DescendantDepth(superview: map<Box, Box>, rank: map<Box, nat>, a: Box, b: Box)
    requires Acyclic(superview, rank)
    requires IsDescendant(superview, rank, a, b)
    ensures a != b ==> Depth(superview, rank, b) < Depth(superview, rank, a)
    decreases Depth(superview, rank, a)
  {
    if a != b {
      var p := superview[a];
      if p != b {
        DescendantDepth(superview, rank, p, b);
      }
    }
  }

  /** Descent is antisymmetric: the tree has no cycles. */
  lemma DescendantAntisymmetric(superview: map<Box, Box>, rank: map<Box, nat>, a: Box, b: Box)
    requires Acyclic(superview, rank)
    requires IsDescendant(superview, rank, a, b) && IsDescendant(superview, rank, b, a)
    ensures a == b
  {
    DescendantDepth(superview, rank, a, b);
    DescendantDepth(superview, rank, b, a);
  }

  /** Whatever the walk returns is above both the walk's start and `other`. */
  lemma {:induction false} CommonFromSound(superview: map<Box, Box>, rank: map<Box, nat>, current: Box, other: Box)
    requires Acyclic(superview, rank)
    requires CommonFrom(superview, rank, current, other).Some?
    ensures var c := CommonFrom(superview, rank, current, other).value;
      IsDescendant(superview, rank, current, c) && IsDescendant(superview, rank, other, c)
    decreases Depth(superview, rank, current)
  {
    if !IsDescendant(superview, rank, other, current) {
      CommonFromSound(superview, rank, superview[current], other);
    }
  }

  /**
   * If `a` is above both the walk's start and `other`, the walk finds a view
   * that `a` is above too: it never misses a common ancestor, and what it
   * finds is the lowest one.
   */
  lemma {:induction false} CommonFromLowest(superview: map<Box, Box>, rank: map<Box, nat>, current: Box, other: Box, a: Box)
    requires Acyclic(superview, rank)
    requires IsDescendant(superview, rank, current, a) && IsDescendant(superview, rank, other, a)
    ensures CommonFrom(superview, rank, current, other).Some?
    ensures IsDescendant(superview, rank, CommonFrom(superview, rank, current, other).value, a)
    decreases Depth(superview, rank, current)
  {
    if !IsDescendant(superview, rank, other, current) {
      assert current != a;
      CommonFromLowest(superview, rank, superview[current], other, a);
    }
  }

  /**
   * The walk from `view` finds the lowest common ancestor of `view` and
   * `other`: a view above both, below every other view above both; it finds
   * nothing exactly when no view is above both; and it stops at `view`
   * itself when `other` is `view` or lies below it.
   */
  lemma CommonSuperviewIsLowestCommonAncestor(superview: map<Box, Box>, rank: map<Box, nat>, view: Box, other: Box)
    requires Acyclic(superview, rank)
    ensures var r := CommonFrom(superview, rank, view, other);
      && (r.Some? ==> IsDescendant(superview, rank, view, r.value) && IsDescendant(superview, rank, other, r.value))
      && (r.Some? ==> forall a :: IsDescendant(superview, rank, view, a) && IsDescendant(superview, rank, other, a) ==>
                                 IsDescendant(superview, rank, r.value, a))
      && (r.None? ==> forall a :: !(IsDescendant(superview, rank, view, a) && IsDescendant(superview, rank, other, a)))
      && ((forall a :: !(IsDescendant(superview, rank, view, a) && IsDescendant(superview, rank, other, a))) ==> r.None?)
      && (IsDescendant(superview, rank, other, view) ==> r == Some(view))
  {
    var r := CommonFrom(superview, rank, view, other);
    if r.Some? {
      CommonFromSound(superview, rank, view, other);
      assert IsDescendant(superview, rank, view, r.value) && IsDescendant(superview, rank, other, r.value);
    }
    forall a | IsDescendant(superview, rank, view, a) && IsDescendant(superview, rank, other, a)
      ensures r.Some? && IsDescendant(superview, rank, r.value, a)
    {
      CommonFromLowest(superview, rank, view, other, a);
    }
  }

  /**
   * Walking from the subject or from the target gives the same view: in a
   * tree the lowest common ancestor is unique, so the subject-first walk of
   * the source is no tie-break at all.
   */
  lemma CommonSuperviewSymmetric(superview: map<Box, Box>, rank: map<Box, nat>, a: Box, b: Box)
    requires Acyclic(superview, rank)
    ensures CommonFrom(superview, rank, a, b) == CommonFrom(superview, rank, b, a)
  {
    var r1 := CommonFrom(superview, rank, a, b);
    var r2 := CommonFrom(superview, rank, b, a);
    if r1.Some? {
      CommonFromSound(superview, rank, a, b);
      CommonFromLowest(superview, rank, b, a, r1.value);
      CommonFromSound(superview, rank, b, a);
      CommonFromLowest(superview, rank, a, b, r2.value);
      DescendantAntisymmetric(superview, rank, r1.value, r2.value);
    } else if r2.Some? {
      CommonFromSound(superview, rank, b, a);
      CommonFromLowest(superview, rank, a, b, r2.value);
    }
  }

  /** The constraint list the engine keeps on view `b` (`b.constraints`). */
  function StoreOf(store: map<Box, seq<Constraint>>, b: Box): seq<Constraint> {
    if b in store then store[b] else []
  }

  /** The engine's `addConstraint`: append `c` to `owner`'s list. */
  function Added(store: map<Box, seq<Constraint>>, owner: Box, c: Constraint): map<Box, seq<Constraint>> {
    store[owner := StoreOf(store, owner) + [c]]
  }

  /**
   * The records of `s` that do not mention `view`, in their order: what is
   * left after `removeConstraints(s.filter { mentions view })`.
   */
  function Unrelated(s: seq<Constraint>, view: Box): seq<Constraint>
  {
    if s == [] then []
    else (if Mentions(s[0], view) then [] else [s[0]]) + Unrelated(s[1..], view)
  }

  /**
   * The filter keeps exactly the records that do not name `view`, never
   * lengthens the list, and changes nothing when no record names `view`.
   */
  lemma {:induction false} UnrelatedMembers(s: seq<Constraint>, view: Box)
    ensures |Unrelated(s, view)| <= |s|
    ensures forall c :: c in Unrelated(s, view) <==> c in s && !Mentions(c, view)
    ensures (forall c <- s :: !Mentions(c, view)) ==> Unrelated(s, view) == s
    decreases |s|
  {
    if s != [] {
      UnrelatedMembers(s[1..], view);
      assert s == [s[0]] + s[1..];
      var rest := Unrelated(s[1..], view);
      if !Mentions(s[0], view) {
        assert ([s[0]] + rest)[1..] == rest;
      }
    }
  }

  /** Filtering twice is filtering once. */
  lemma UnrelatedIdempotent(s: seq<Constraint>, view: Box)
    ensures Unrelated(Unrelated(s, view), view) == Unrelated(s, view)
  {
    UnrelatedMembers(s, view);
    UnrelatedMembers(Unrelated(s, view), view);
  }

  /** Dropping the records that name `view` works list piece by list piece. */
  lemma {:induction false} UnrelatedAppend(x: seq<Constraint>, y: seq<Constraint>, view: Box)
    ensures Unrelated(x + y, view) == Unrelated(x, view) + Unrelated(y, view)
    decreases |x|
  {
    if x == [] {
      assert x + y == y;
    } else {
      var head := if Mentions(x[0], view) then [] else [x[0]];
      assert (x + y)[0] == x[0] && (x + y)[1..] == x[1..] + y;
      assert Unrelated(x + y, view) == head + Unrelated(x[1..] + y, view);
      UnrelatedAppend(x[1..], y, view);
      assert Unrelated(x, view) == head + Unrelated(x[1..], view);
    }
  }

  /** Filter `b`'s list, if `b` has one. */
  function Stripped(store: map<Box, seq<Constraint>>, b: Box, view: Box): map<Box, seq<Constraint>> {
    if b in store then store[b := Unrelated(store[b], view)] else store
  }

  /** The stores after `removeConstraints` on `view`: its own list, then its superview's. */
  function Removed(store: map<Box, seq<Constraint>>, superview: map<Box, Box>, view: Box): map<Box, seq<Constraint>> {
    var own := Stripped(store, view, view);
    if view in superview then Stripped(own, superview[view], view) else own
  }

  /**
   * Removal is symmetric and confined: afterwards no record in `view`'s list
   * or its superview's names `view` as first or second item; every record
   * there that does not name it stays, in order; every other view's list is
   * untouched, so without a superview only `view`'s own list changes.
   */
  lemma RemovedSpec(store: map<Box, seq<Constraint>>, superview: map<Box, Box>, view: Box, b: Box)
    ensures var touched := b == view || (view in superview && b == superview[view]);
      && StoreOf(Removed(store, superview, view), b)
         == (if touched then Unrelated(StoreOf(store, b), view) else StoreOf(store, b))
      && (touched ==> forall c <- StoreOf(Removed(store, superview, view), b) :: !Mentions(c, view))
      && (touched ==> forall c <- StoreOf(store, b) :: !Mentions(c, view) ==> c in StoreOf(Removed(store, superview, view), b))
  {
    UnrelatedMembers(StoreOf(store, b), view);
    UnrelatedIdempotent(StoreOf(store, b), view);
  }

  /** `wayne_left` … `wayne_firstBaseline`: an item for one of this view's attributes. */
  function WayneLeft(view: Box): Item { Item(Some(view), ConstraintAttribute.Left) }
  function WayneTop(view: Box): Item { Item(Some(view), ConstraintAttribute.Top) }
  function WayneRight(view: Box): Item { Item(Some(view), ConstraintAttribute.Right) }
  function WayneBottom(view: Box): Item { Item(Some(view), ConstraintAttribute.Bottom) }
  function WayneLeading(view: Box): Item { Item(Some(view), ConstraintAttribute.Leading) }
  function WayneTrailing(view: Box): Item { Item(Some(view), ConstraintAttribute.Trailing) }
  function WayneWidth(view: Box): Item { Item(Some(view), ConstraintAttribute.Width) }
  function WayneHeight(view: Box): Item { Item(Some(view), ConstraintAttribute.Height) }
  function WayneCenterX(view: Box): Item { Item(Some(view), ConstraintAttribute.CenterX) }
  function WayneCenterY(view: Box): Item { Item(Some(view), ConstraintAttribute.CenterY) }
  function WayneLastBaseline(view: Box): Item { Item(Some(view), ConstraintAttribute.LastBaseline) }
  function WayneFirstBaseline(view: Box): Item { Item(Some(view), ConstraintAttribute.FirstBaseline) }

  /** The `wayne_*` accessor named after a primitive attribute. */
  function WayneItem(view: Box, a: ConstraintAttribute): Item
    requires a.IsPrimitive()
  {
    match a
    case Left => WayneLeft(view)
    case Top => WayneTop(view)
    case Right => WayneRight(view)
    case Bottom => WayneBottom(view)
    case Leading => WayneLeading(view)
    case Trailing => WayneTrailing(view)
    case Width => WayneWidth(view)
    case Height => WayneHeight(view)
    case CenterX => WayneCenterX(view)
    case CenterY => WayneCenterY(view)
    case LastBaseline => WayneLastBaseline(view)
    case FirstBaseline => WayneFirstBaseline(view)
  }

  /**
   * Each `wayne_*` accessor targets the view it is called on, at the
   * attribute it is named after; so relating a description to a view (the
   * view form) is relating it to that view's same-named `wayne_*` item.
   */
  lemma WayneItemTargetsSelf(view: Box, a: ConstraintAttribute, d: Draft, r: ConstraintRelations.ConstraintRelation)
    requires a.IsPrimitive()
    ensures WayneItem(view, a).target == Some(view) && WayneItem(view, a).attribute == a
    ensures d.item.attribute == a ==>
      Apply(d, Relate(r, ToView(view))) == Apply(d, Relate(r, ToItem(WayneItem(view, a))))
  {
  }

  /**
   * The engine's view tree and per-view constraint lists, and the view
   * properties the DSL writes. Only `constraints` and `translatesMask`
   * ever change here; the tree and liveness are set up by the caller.
   */
  class Hierarchy {
    const platform: Platform
    var superview: map<Box, Box>
    ghost var rank: map<Box, nat>
    /** `view.constraints`, per view. */
    var constraints: map<Box, seq<Constraint>>
    /** The views that still exist; a weak reference to any other reads as nil. */
    var live: set<Box>
    /** The views whose `translatesAutoresizingMaskIntoConstraints` is true. */
    var translatesMask: set<Box>

    ghost predicate Valid()
      reads this
    {
      Acyclic(superview, rank)
    }

    /**
     * A world of views on `platform`, arranged by `superview`, none of which
     * holds a constraint yet. Every view starts with its autoresizing mask
     * translated, as a view created in code does.
     */
    constructor (platform: Platform, superview: map<Box, Box>, ghost rank: map<Box, nat>, live: set<Box>)
      requires Acyclic(superview, rank)
      ensures Valid()
      ensures this.platform == platform && this.superview == superview && this.rank == rank && this.live == live
      ensures constraints == map[] && translatesMask == live
    {
      this.platform := platform;
      this.superview := superview;
      this.rank := rank;
      this.live := live;
      constraints := map[];
      translatesMask := live;
    }

    /** The engine's `addConstraint` on view `owner`. */
    method AddConstraint(owner: Box, c: Constraint)
      modifies this`constraints
      ensures constraints == Added(old(constraints), owner, c)
    {
      constraints := constraints[owner := StoreOf(constraints, owner) + [c]];
    }

    /**
     * `view.commonSuperview(with: other)`: climb from `view`, testing each
     * view on the way (itself first) with `other.isDescendant(of:)`.
     */
    method CommonSuperview(view: Box, other: Box) returns (r: Option<Box>)
      requires Valid()
      ensures r == CommonFrom(superview, rank, view, other)
      ensures r.Some? ==> IsDescendant(superview, rank, view, r.value) && IsDescendant(superview, rank, other, r.value)
      ensures r.Some? ==> forall a :: IsDescendant(superview, rank, view, a) && IsDescendant(superview, rank, other, a) ==>
                                      IsDescendant(superview, rank, r.value, a)
      ensures r.None? ==> forall a :: !(IsDescendant(superview, rank, view, a) && IsDescendant(superview, rank, other, a))
      ensures (forall a :: !(IsDescendant(superview, rank, view, a) && IsDescendant(superview, rank, other, a))) ==> r.None?
    {
      CommonSuperviewIsLowestCommonAncestor(superview, rank, view, other);
      var current: Option<Box> := Some(view);
      while current.Some?
        invariant CommonFrom(superview, rank, view, other)
                  == if current.Some? then CommonFrom(superview, rank, current.value, other) else Option.None
        decreases if current.Some? then Depth(superview, rank, current.value) + 1 else 0
      {
        if IsDescendant(superview, rank, other, current.value) {
          return current;
        }
        current := if current.value in superview then Some(superview[current.value]) else Option.None;
      }
      return Option.None;
    }

    /**
     * `view.removeConstraints()`: drop every record naming `view` from its
     * own list, then from its superview's list when it has a superview.
     */
    method RemoveConstraints(view: Box)
      modifies this`constraints
      ensures constraints == Removed(old(constraints), superview, view)
    {
      if view in constraints {
        constraints := constraints[view := Unrelated(constraints[view], view)];
      }
      if view in superview {
        var parent := superview[view];
        if parent in constraints {
          constraints := constraints[parent := Unrelated(constraints[parent], view)];
        }
      }
    }
  }
}
