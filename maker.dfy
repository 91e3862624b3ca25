/*
 * ConstraintMaker (ConstraintMaker.swift): the per-view session that hands
 * out one description per attribute accessed, remembers them in order, and
 * on `install` finalises them and hands each record to the view that
 * should own it.
 */
module Makers {
  import opened LayoutEngine
  import opened ConstraintAttributes
  import opened Descriptions
  import opened ViewTree

  /** An accessor of the maker: a single attribute, or one of the composites. */
  datatype Accessor = Attr(attribute: ConstraintAttribute) | Edges | Size | Center

  /** The attributes an accessor adds descriptions for, in order. */
  function Expansion(a: Accessor): (r: seq<ConstraintAttribute>)
    ensures a.Attr? ==> r == [a.attribute]
    ensures !a.Attr? ==> 2 <= |r| <= 4 && forall x <- r :: x.IsPrimitive()
  {
    match a
    case Attr(x) => [x]
    case Edges => [ConstraintAttribute.Top, ConstraintAttribute.Left, ConstraintAttribute.Bottom, ConstraintAttribute.Right]
    case Size => [ConstraintAttribute.Width, ConstraintAttribute.Height]
    case Center => [ConstraintAttribute.CenterX, ConstraintAttribute.CenterY]
  }

  /** Unconfigured descriptions of `view`, one per attribute. */
  function FreshDrafts(view: Box, attributes: seq<ConstraintAttribute>): (r: seq<Draft>)
    ensures |r| == |attributes|
    ensures forall i :: 0 <= i < |r| ==> r[i] == Fresh(Item(Some(view), attributes[i]))
  {
    if attributes == [] then [] else [Fresh(Item(Some(view), attributes[0]))] + FreshDrafts(view, attributes[1..])
  }

  /** `ds` holds, in order, descriptions whose fields are `drafts`. */
  ghost predicate Describes(ds: seq<ConstraintDescription>, drafts: seq<Draft>)
    reads ds
  {
    |ds| == |drafts| && forall i :: 0 <= i < |ds| ==> ds[i].State() == drafts[i]
  }

  /** None of `ds` has built a record yet. */
  ghost predicate Unbuilt(ds: seq<ConstraintDescription>)
    reads ds
  {
    forall i :: 0 <= i < |ds| ==> ds[i].constraint == Option.None
  }

  /** `compactMap { $0.makeConstraint() }` on description values. */
  function Builds(drafts: seq<Draft>, live: set<Box>, platform: Platform): seq<Constraint>
    decreases |drafts|
  {
    if drafts == [] then []
    else
      var last := Build(drafts[|drafts| - 1], live, platform);
      Builds(drafts[..|drafts| - 1], live, platform) + (if last.Some? then [last.value] else [])
  }

  /** `compactMap { $0.constraint }`: the records the descriptions have cached. */
  function Cached(ds: seq<ConstraintDescription>): seq<Constraint>
    reads ds
    decreases |ds|
  {
    if ds == [] then []
    else
      var last := ds[|ds| - 1].constraint;
      Cached(ds[..|ds| - 1]) + (if last.Some? then [last.value] else [])
  }

  /**
   * The view that `install` adds record `c` of `view`'s session to: `view`
   * itself when there is no second view, otherwise the common superview of
   * `view` and the second view, or nothing when they share no ancestor.
   */
  ghost function Owner(superview: map<Box, Box>, rank: map<Box, nat>, view: Box, c: Constraint): Option<Box>
    requires Acyclic(superview, rank)
  {
    if c.secondItem.Some? then CommonFrom(superview, rank, view, c.secondItem.value) else Some(view)
  }

  /** The stores after `install` has placed `cs`, in order. */
  ghost function Installed(store: map<Box, seq<Constraint>>, superview: map<Box, Box>, rank: map<Box, nat>,
                           view: Box, cs: seq<Constraint>): map<Box, seq<Constraint>>
    requires Acyclic(superview, rank)
    decreases |cs|
  {
    if cs == [] then store
    else
      var placed := Installed(store, superview, rank, view, cs[..|cs| - 1]);
      var c := cs[|cs| - 1];
      var owner := Owner(superview, rank, view, c);
      if owner.Some? then Added(placed, owner.value, c) else placed
  }

  /** The records of `cs` that `install` gives to view `b`, in order. */
  ghost function OwnedBy(superview: map<Box, Box>, rank: map<Box, nat>, view: Box, cs: seq<Constraint>, b: Box): seq<Constraint>
    requires Acyclic(superview, rank)
    decreases |cs|
  {
    if cs == [] then []
    else
      var c := cs[|cs| - 1];
      OwnedBy(superview, rank, view, cs[..|cs| - 1], b) + (if Owner(superview, rank, view, c) == Some(b) then [c] else [])
  }

  /**
   * What `install` does to one view's list: it keeps every record it had and
   * appends, in session order, exactly the records that view owns. A record
   * whose views share no ancestor lands nowhere.
   */
  lemma {:induction false} InstalledStore(store: map<Box, seq<Constraint>>, superview: map<Box, Box>, rank: map<Box, nat>,
                                          view: Box, cs: seq<Constraint>, b: Box)
    requires Acyclic(superview, rank)
    ensures StoreOf(Installed(store, superview, rank, view, cs), b) == StoreOf(store, b) + OwnedBy(superview, rank, view, cs, b)
    decreases |cs|
  {
    if cs != [] {
      InstalledStore(store, superview, rank, view, cs[..|cs| - 1], b);
    }
  }

  /** A record owned by `b` is one of the session's records whose owner is `b`. */
  lemma {:induction false} OwnedByMembers(superview: map<Box, Box>, rank: map<Box, nat>, view: Box, cs: seq<Constraint>, b: Box)
    requires Acyclic(superview, rank)
    ensures forall c :: c in OwnedBy(superview, rank, view, cs, b) <==> c in cs && Owner(superview, rank, view, c) == Some(b)
    decreases |cs|
  {
    if cs != [] {
      OwnedByMembers(superview, rank, view, cs[..|cs| - 1], b);
      assert cs == cs[..|cs| - 1] + [cs[|cs| - 1]];
    }
  }

  /** Ownership is decided record by record, so it distributes over concatenation. */
  lemma {:induction false} OwnedByAppend(superview: map<Box, Box>, rank: map<Box, nat>, view: Box,
                                         xs: seq<Constraint>, ys: seq<Constraint>, b: Box)
    requires Acyclic(superview, rank)
    ensures OwnedBy(superview, rank, view, xs + ys, b) == OwnedBy(superview, rank, view, xs, b) + OwnedBy(superview, rank, view, ys, b)
    decreases |ys|
  {
    if ys == [] {
      assert xs + ys == xs;
    } else {
      assert (xs + ys)[..|xs + ys| - 1] == xs + ys[..|ys| - 1];
      assert (xs + ys)[|xs + ys| - 1] == ys[|ys| - 1];
      OwnedByAppend(superview, rank, view, xs, ys[..|ys| - 1], b);
    }
  }

  /**
   * Installing one record between `view` and `other` puts it in the list of
   * their lowest common ancestor and nowhere else; with no second view it
   * goes to `view`'s own list.
   */
  lemma InstallOne(store: map<Box, seq<Constraint>>, superview: map<Box, Box>, rank: map<Box, nat>,
                   view: Box, c: Constraint, b: Box)
    requires Acyclic(superview, rank)
    ensures c.secondItem.None? ==>
      StoreOf(Installed(store, superview, rank, view, [c]), b)
        == StoreOf(store, b) + (if b == view then [c] else [])
    ensures c.secondItem.Some? ==>
      var lca := CommonFrom(superview, rank, view, c.secondItem.value);
      StoreOf(Installed(store, superview, rank, view, [c]), b)
        == StoreOf(store, b) + (if lca == Some(b) then [c] else [])
  {
    InstalledStore(store, superview, rank, view, [c], b);
    assert [c][..0] == [];
  }

  /** Building one description gives its record, if it builds one. */
  lemma BuildsOne(d: Draft, live: set<Box>, platform: Platform)
    ensures Builds([d], live, platform) == if Build(d, live, platform).Some? then [Build(d, live, platform).value] else []
  {
    assert [d][..0] == [];
  }

  /**
   * Records built from descriptions of `view` whose subject is alive: one
   * per description, in order, each with `view` as first item.
   */
  lemma {:induction false} BuildsOfSubject(drafts: seq<Draft>, view: Box, live: set<Box>, platform: Platform)
    requires forall d <- drafts :: d.item.target == Some(view)
    ensures view in live ==> |Builds(drafts, live, platform)| == |drafts|
    ensures view in live ==> forall i :: 0 <= i < |drafts| ==>
      Build(drafts[i], live, platform) == Some(Builds(drafts, live, platform)[i])
    ensures view !in live ==> Builds(drafts, live, platform) == []
    ensures forall c <- Builds(drafts, live, platform) :: c.firstItem == view
    decreases |drafts|
  {
    if drafts != [] {
      BuildsOfSubject(drafts[..|drafts| - 1], view, live, platform);
    }
  }

  /** Building is done description by description, so it distributes over concatenation. */
  lemma {:induction false} BuildsAppend(a: seq<Draft>, b: seq<Draft>, live: set<Box>, platform: Platform)
    ensures Builds(a + b, live, platform) == Builds(a, live, platform) + Builds(b, live, platform)
    decreases |b|
  {
    if b == [] {
      assert a + b == a;
    } else {
      assert (a + b)[..|a + b| - 1] == a + b[..|b| - 1];
      assert (a + b)[|a + b| - 1] == b[|b| - 1];
      BuildsAppend(a, b[..|b| - 1], live, platform);
    }
  }

  /** Once every description has cached what it builds, the cache is the built list. */
  lemma {:induction false} CachedIsBuilds(ds: seq<ConstraintDescription>, drafts: seq<Draft>, live: set<Box>, platform: Platform)
    requires Describes(ds, drafts)
    requires forall i :: 0 <= i < |ds| ==> ds[i].constraint == Build(drafts[i], live, platform)
    ensures Cached(ds) == Builds(drafts, live, platform)
    decreases |ds|
  {
    if ds != [] {
      CachedIsBuilds(ds[..|ds| - 1], drafts[..|drafts| - 1], live, platform);
    }
  }

  class ConstraintMaker {
    var descriptions: seq<ConstraintDescription>
    /** The session's view, held weakly: it may have expired by `install`. */
    const view: Box

    /** Every description is a distinct object and addresses this maker's view. */
    ghost predicate Valid()
      reads this
    {
      && (forall i, j :: 0 <= i < j < |descriptions| ==> descriptions[i] != descriptions[j])
      && (forall i :: 0 <= i < |descriptions| ==> descriptions[i].item.target == Some(view))
    }

    /** `init(view:)`: also opts the view out of autoresizing-mask translation. */
    constructor (view: Box, views: Hierarchy)
      modifies views`translatesMask
      ensures this.view == view && descriptions == [] && Valid()
      ensures views.translatesMask == old(views.translatesMask) - {view}
    {
      this.view := view;
      descriptions := [];
      views.translatesMask := views.translatesMask - {view};
    }

    /** `addConstraint(for:)`: append a fresh description of `attribute` and return it. */
    method AddConstraint(attribute: ConstraintAttribute) returns (d: ConstraintDescription)
      requires Valid()
      modifies this`descriptions
      ensures Valid() && fresh(d)
      ensures descriptions == old(descriptions) + [d]
      ensures d.item == Item(Some(view), attribute) && d.State() == Fresh(d.item) && d.constraint == Option.None
    {
      d := new ConstraintDescription(Item(Some(view), attribute));
      descriptions := descriptions + [d];
    }

    method Left() returns (d: ConstraintDescription)
      requires Valid()
      modifies this`descriptions
      ensures Valid() && fresh(d) && descriptions == old(descriptions) + [d]
      ensures d.item == Item(Some(view), ConstraintAttribute.Left) && d.State() == Fresh(d.item) && d.constraint == Option.None
    {
      d := AddConstraint(ConstraintAttribute.Left);
    }

    method Top() returns (d: ConstraintDescription)
      requires Valid()
      modifies this`descriptions
      ensures Valid() && fresh(d) && descriptions == old(descriptions) + [d]
      ensures d.item == Item(Some(view), ConstraintAttribute.Top) && d.State() == Fresh(d.item) && d.constraint == Option.None
    {
      d := AddConstraint(ConstraintAttribute.Top);
    }

    method Right() returns (d: ConstraintDescription)
      requires Valid()
      modifies this`descriptions
      ensures Valid() && fresh(d) && descriptions == old(descriptions) + [d]
      ensures d.item == Item(Some(view), ConstraintAttribute.Right) && d.State() == Fresh(d.item) && d.constraint == Option.None
    {
      d := AddConstraint(ConstraintAttribute.Right);
    }

    method Bottom() returns (d: ConstraintDescription)
      requires Valid()
      modifies this`descriptions
      ensures Valid() && fresh(d) && descriptions == old(descriptions) + [d]
      ensures d.item == Item(Some(view), ConstraintAttribute.Bottom) && d.State() == Fresh(d.item) && d.constraint == Option.None
    {
      d := AddConstraint(ConstraintAttribute.Bottom);
    }

    method Leading() returns (d: ConstraintDescription)
      requires Valid()
      modifies this`descriptions
      ensures Valid() && fresh(d) && descriptions == old(descriptions) + [d]
      ensures d.item == Item(Some(view), ConstraintAttribute.Leading) && d.State() == Fresh(d.item) && d.constraint == Option.None
    {
      d := AddConstraint(ConstraintAttribute.Leading);
    }

    method Trailing() returns (d: ConstraintDescription)
      requires Valid()
      modifies this`descriptions
      ensures Valid() && fresh(d) && descriptions == old(descriptions) + [d]
      ensures d.item == Item(Some(view), ConstraintAttribute.Trailing) && d.State() == Fresh(d.item) && d.constraint == Option.None
    {
      d := AddConstraint(ConstraintAttribute.Trailing);
    }

    method Width() returns (d: ConstraintDescription)
      requires Valid()
      modifies this`descriptions
      ensures Valid() && fresh(d) && descriptions == old(descriptions) + [d]
      ensures d.item == Item(Some(view), ConstraintAttribute.Width) && d.State() == Fresh(d.item) && d.constraint == Option.None
    {
      d := AddConstraint(ConstraintAttribute.Width);
    }

    method Height() returns (d: ConstraintDescription)
      requires Valid()
      modifies this`descriptions
      ensures Valid() && fresh(d) && descriptions == old(descriptions) + [d]
      ensures d.item == Item(Some(view), ConstraintAttribute.Height) && d.State() == Fresh(d.item) && d.constraint == Option.None
    {
      d := AddConstraint(ConstraintAttribute.Height);
    }

    method CenterX() returns (d: ConstraintDescription)
      requires Valid()
      modifies this`descriptions
      ensures Valid() && fresh(d) && descriptions == old(descriptions) + [d]
      ensures d.item == Item(Some(view), ConstraintAttribute.CenterX) && d.State() == Fresh(d.item) && d.constraint == Option.None
    {
      d := AddConstraint(ConstraintAttribute.CenterX);
    }

    method CenterY() returns (d: ConstraintDescription)
      requires Valid()
      modifies this`descriptions
      ensures Valid() && fresh(d) && descriptions == old(descriptions) + [d]
      ensures d.item == Item(Some(view), ConstraintAttribute.CenterY) && d.State() == Fresh(d.item) && d.constraint == Option.None
    {
      d := AddConstraint(ConstraintAttribute.CenterY);
    }

    method LastBaseline() returns (d: ConstraintDescription)
      requires Valid()
      modifies this`descriptions
      ensures Valid() && fresh(d) && descriptions == old(descriptions) + [d]
      ensures d.item == Item(Some(view), ConstraintAttribute.LastBaseline) && d.State() == Fresh(d.item) && d.constraint == Option.None
    {
      d := AddConstraint(ConstraintAttribute.LastBaseline);
    }

    method FirstBaseline() returns (d: ConstraintDescription)
      requires Valid()
      modifies this`descriptions
      ensures Valid() && fresh(d) && descriptions == old(descriptions) + [d]
      ensures d.item == Item(Some(view), ConstraintAttribute.FirstBaseline) && d.State() == Fresh(d.item) && d.constraint == Option.None
    {
      d := AddConstraint(ConstraintAttribute.FirstBaseline);
    }

    method LeftMargin() returns (d: ConstraintDescription)
      requires Valid()
      modifies this`descriptions
      ensures Valid() && fresh(d) && descriptions == old(descriptions) + [d]
      ensures d.item == Item(Some(view), ConstraintAttribute.LeftMargin) && d.State() == Fresh(d.item) && d.constraint == Option.None
    {
      d := AddConstraint(ConstraintAttribute.LeftMargin);
    }

    method RightMargin() returns (d: ConstraintDescription)
      requires Valid()
      modifies this`descriptions
      ensures Valid() && fresh(d) && descriptions == old(descriptions) + [d]
      ensures d.item == Item(Some(view), ConstraintAttribute.RightMargin) && d.State() == Fresh(d.item) && d.constraint == Option.None
    {
      d := AddConstraint(ConstraintAttribute.RightMargin);
    }

    method TopMargin() returns (d: ConstraintDescription)
      requires Valid()
      modifies this`descriptions
      ensures Valid() && fresh(d) && descriptions == old(descriptions) + [d]
      ensures d.item == Item(Some(view), ConstraintAttribute.TopMargin) && d.State() == Fresh(d.item) && d.constraint == Option.None
    {
      d := AddConstraint(ConstraintAttribute.TopMargin);
    }

    method BottomMargin() returns (d: ConstraintDescription)
      requires Valid()
      modifies this`descriptions
      ensures Valid() && fresh(d) && descriptions == old(descriptions) + [d]
      ensures d.item == Item(Some(view), ConstraintAttribute.BottomMargin) && d.State() == Fresh(d.item) && d.constraint == Option.None
    {
      d := AddConstraint(ConstraintAttribute.BottomMargin);
    }

    method LeadingMargin() returns (d: ConstraintDescription)
      requires Valid()
      modifies this`descriptions
      ensures Valid() && fresh(d) && descriptions == old(descriptions) + [d]
      ensures d.item == Item(Some(view), ConstraintAttribute.LeadingMargin) && d.State() == Fresh(d.item) && d.constraint == Option.None
    {
      d := AddConstraint(ConstraintAttribute.LeadingMargin);
    }

    method TrailingMargin() returns (d: ConstraintDescription)
      requires Valid()
      modifies this`descriptions
      ensures Valid() && fresh(d) && descriptions == old(descriptions) + [d]
      ensures d.item == Item(Some(view), ConstraintAttribute.TrailingMargin) && d.State() == Fresh(d.item) && d.constraint == Option.None
    {
      d := AddConstraint(ConstraintAttribute.TrailingMargin);
    }

    method CenterXWithinMargins() returns (d: ConstraintDescription)
      requires Valid()
      modifies this`descriptions
      ensures Valid() && fresh(d) && descriptions == old(descriptions) + [d]
      ensures d.item == Item(Some(view), ConstraintAttribute.CenterXWithinMargins) && d.State() == Fresh(d.item) && d.constraint == Option.None
    {
      d := AddConstraint(ConstraintAttribute.CenterXWithinMargins);
    }

    method CenterYWithinMargins() returns (d: ConstraintDescription)
      requires Valid()
      modifies this`descriptions
      ensures Valid() && fresh(d) && descriptions == old(descriptions) + [d]
      ensures d.item == Item(Some(view), ConstraintAttribute.CenterYWithinMargins) && d.State() == Fresh(d.item) && d.constraint == Option.None
    {
      d := AddConstraint(ConstraintAttribute.CenterYWithinMargins);
    }

    /**
     * `edges`: append descriptions of top, left, bottom and right, and
     * return a `.none` placeholder that is not among them, so configuring it
     * changes none of the four.
     */
    method EdgesAccessor() returns (placeholder: ConstraintDescription)
      requires Valid()
      modifies this`descriptions
      ensures Valid() && fresh(placeholder) && placeholder !in descriptions
      ensures placeholder.item == Item(Some(view), ConstraintAttribute.None) && placeholder.State() == Fresh(placeholder.item)
      ensures |descriptions| >= |old(descriptions)| && descriptions[..|old(descriptions)|] == old(descriptions)
      ensures Describes(descriptions[|old(descriptions)|..], FreshDrafts(view, Expansion(Accessor.Edges)))
      ensures forall i :: |old(descriptions)| <= i < |descriptions| ==> fresh(descriptions[i]) && descriptions[i].constraint == Option.None
    {
      placeholder := new ConstraintDescription(Item(Some(view), ConstraintAttribute.None));
      var top := AddConstraint(ConstraintAttribute.Top);
      var left := AddConstraint(ConstraintAttribute.Left);
      var bottom := AddConstraint(ConstraintAttribute.Bottom);
      var right := AddConstraint(ConstraintAttribute.Right);
      assert descriptions == old(descriptions) + [top, left, bottom, right];
      assert descriptions[|old(descriptions)|..] == [top, left, bottom, right];
      assert FreshDrafts(view, Expansion(Accessor.Edges))
             == [top.State(), left.State(), bottom.State(), right.State()];
    }

    /** `size`: append width then height; return an inert `.none` placeholder. */
    method SizeAccessor() returns (placeholder: ConstraintDescription)
      requires Valid()
      modifies this`descriptions
      ensures Valid() && fresh(placeholder) && placeholder !in descriptions
      ensures placeholder.item == Item(Some(view), ConstraintAttribute.None) && placeholder.State() == Fresh(placeholder.item)
      ensures |descriptions| >= |old(descriptions)| && descriptions[..|old(descriptions)|] == old(descriptions)
      ensures Describes(descriptions[|old(descriptions)|..], FreshDrafts(view, Expansion(Accessor.Size)))
      ensures forall i :: |old(descriptions)| <= i < |descriptions| ==> fresh(descriptions[i]) && descriptions[i].constraint == Option.None
    {
      placeholder := new ConstraintDescription(Item(Some(view), ConstraintAttribute.None));
      var width := AddConstraint(ConstraintAttribute.Width);
      var height := AddConstraint(ConstraintAttribute.Height);
      assert descriptions == old(descriptions) + [width, height];
    }

    /** `center`: append centerX then centerY; return an inert `.none` placeholder. */
    method CenterAccessor() returns (placeholder: ConstraintDescription)
      requires Valid()
      modifies this`descriptions
      ensures Valid() && fresh(placeholder) && placeholder !in descriptions
      ensures placeholder.item == Item(Some(view), ConstraintAttribute.None) && placeholder.State() == Fresh(placeholder.item)
      ensures |descriptions| >= |old(descriptions)| && descriptions[..|old(descriptions)|] == old(descriptions)
      ensures Describes(descriptions[|old(descriptions)|..], FreshDrafts(view, Expansion(Accessor.Center)))
      ensures forall i :: |old(descriptions)| <= i < |descriptions| ==> fresh(descriptions[i]) && descriptions[i].constraint == Option.None
    {
      placeholder := new ConstraintDescription(Item(Some(view), ConstraintAttribute.None));
      var centerX := AddConstraint(ConstraintAttribute.CenterX);
      var centerY := AddConstraint(ConstraintAttribute.CenterY);
      assert descriptions == old(descriptions) + [centerX, centerY];
    }

    /**
     * `install`: nothing when the view has expired; otherwise build every
     * description (skipping those that build nothing) and add each record to
     * the view `Owner` names, dropping it when there is none.
     */
    method Install(views: Hierarchy, ghost drafts: seq<Draft>)
      requires Valid() && views.Valid() && Describes(descriptions, drafts)
      modifies views`constraints, descriptions
      ensures Describes(descriptions, drafts)
      ensures forall i :: 0 <= i < |descriptions| ==>
        descriptions[i].constraint
          == if Build(drafts[i], views.live, views.platform).Some? then Build(drafts[i], views.live, views.platform)
             else old(descriptions[i].constraint)
      ensures views.constraints
              == Installed(old(views.constraints), views.superview, views.rank, view, Builds(drafts, views.live, views.platform))
    {
      if view !in views.live {
        BuildsOfSubject(drafts, view, views.live, views.platform);
        forall i | 0 <= i < |descriptions|
          ensures Build(drafts[i], views.live, views.platform).None?
        {
        }
        return;
      }
      var built := BuildEach(views.live, views.platform, drafts);
      Place(views, built);
    }

    /** `descriptions.compactMap { $0.makeConstraint() }`, caching each record built. */
    method BuildEach(live: set<Box>, platform: Platform, ghost drafts: seq<Draft>) returns (built: seq<Constraint>)
      requires Valid() && Describes(descriptions, drafts)
      modifies descriptions
      ensures built == Builds(drafts, live, platform)
      ensures Describes(descriptions, drafts)
      ensures forall i :: 0 <= i < |descriptions| ==>
        descriptions[i].constraint
          == if Build(drafts[i], live, platform).Some? then Build(drafts[i], live, platform) else old(descriptions[i].constraint)
    {
      built := [];
      var i := 0;
      while i < |descriptions|
        invariant 0 <= i <= |descriptions|
        invariant built == Builds(drafts[..i], live, platform)
        invariant Describes(descriptions, drafts)
        invariant forall j :: 0 <= j < i ==>
          descriptions[j].constraint
            == if Build(drafts[j], live, platform).Some? then Build(drafts[j], live, platform) else old(descriptions[j].constraint)
        invariant forall j :: i <= j < |descriptions| ==> descriptions[j].constraint == old(descriptions[j].constraint)
      {
        var c := descriptions[i].MakeConstraint(live, platform);
        if c.Some? {
          built := built + [c.value];
        }
        assert drafts[..i + 1][..i] == drafts[..i];
        i := i + 1;
      }
      assert drafts[..i] == drafts;
    }

    /** The loop of `install`: add each record to the view that should own it. */
    method Place(views: Hierarchy, built: seq<Constraint>)
      requires views.Valid()
      modifies views`constraints
      ensures views.constraints == Installed(old(views.constraints), views.superview, views.rank, view, built)
    {
      var k := 0;
      while k < |built|
        invariant 0 <= k <= |built|
        invariant views.constraints == Installed(old(views.constraints), views.superview, views.rank, view, built[..k])
      {
        var c := built[k];
        if c.secondItem.Some? {
          var common := views.CommonSuperview(view, c.secondItem.value);
          if common.Some? {
            views.AddConstraint(common.value, c);
          }
        } else {
          views.AddConstraint(view, c);
        }
        assert built[..k + 1][..k] == built[..k];
        k := k + 1;
      }
      assert built[..k] == built;
    }
  }
}
