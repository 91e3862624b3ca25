/*
 * The public DSL entry points on a view (ConstraintView+Extensions.swift):
 * `makeConstraints`, `updateConstraints` and `remakeConstraints`. The
 * closure the caller passes is modelled as the list of statements it runs
 * on the maker: each statement reads one accessor and then chains calls on
 * the description that accessor returns.
 */
module Lifecycle {
  import opened LayoutEngine
  import opened ConstraintAttributes
  import opened ConstraintRelations
  import opened Descriptions
  import opened ViewTree
  import opened Makers

  /** `make.<accessor>.<call>.<call>…` */
  datatype Statement = Statement(accessor: Accessor, calls: seq<Call>)

  /**
   * A closure that only uses the maker's public accessors (there is none for
   * `.none`) and never divides by zero.
   */
  predicate WellFormed(closure: seq<Statement>) {
    forall i :: 0 <= i < |closure| ==> Runnable(closure[i])
  }

  predicate Runnable(s: Statement) {
    s.accessor != Attr(ConstraintAttribute.None) && forall c <- s.calls :: Callable(c)
  }

  /**
   * What one statement leaves in the maker's list: a primitive accessor's
   * description configured by the chain; a composite's plain descriptions,
   * since its chain configures the unlisted placeholder.
   */
  function StatementDrafts(view: Box, s: Statement): seq<Draft>
    requires Runnable(s)
  {
    if s.accessor.Attr? then [ApplyAll(Fresh(Item(Some(view), s.accessor.attribute)), s.calls)]
    else FreshDrafts(view, Expansion(s.accessor))
  }

  /** What one statement adds to the maker's list, as values. */
  function Lists(view: Box, s: Statement): seq<Draft> {
    if Runnable(s) then StatementDrafts(view, s) else []
  }

  /** The lists `f` gives for the elements of `xs`, concatenated in order. */
  function FlatMap<T, U>(f: T -> seq<U>, xs: seq<T>): seq<U>
    decreases |xs|
  {
    if xs == [] then [] else FlatMap(f, xs[..|xs| - 1]) + f(xs[|xs| - 1])
  }

  lemma FlatMapSnoc<T, U>(f: T -> seq<U>, xs: seq<T>, x: T)
    ensures FlatMap(f, xs + [x]) == FlatMap(f, xs) + f(x)
  {
    var ys := xs + [x];
    assert ys[..|ys| - 1] == xs && ys[|ys| - 1] == x;
  }

  lemma {:induction false} FlatMapAppend<T, U>(f: T -> seq<U>, a: seq<T>, b: seq<T>)
    ensures FlatMap(f, a + b) == FlatMap(f, a) + FlatMap(f, b)
    decreases |b|
  {
    var ab := a + b;
    if b == [] {
      assert ab == a;
    } else {
      assert ab[..|ab| - 1] == a + b[..|b| - 1];
      FlatMapAppend(f, a, b[..|b| - 1]);
    }
  }

  /** The maker's list after running `closure`, as values. */
  function Expand(view: Box, closure: seq<Statement>): seq<Draft> {
    FlatMap((s: Statement) => Lists(view, s), closure)
  }

  /** One more statement at the end of a closure adds what that statement lists. */
  lemma ExpandSnoc(view: Box, c: seq<Statement>, s: Statement)
    ensures Expand(view, c + [s]) == Expand(view, c) + Lists(view, s)
  {
    FlatMapSnoc((s: Statement) => Lists(view, s), c, s);
  }

  /** A closure of one statement lists what that statement lists. */
  lemma ExpandOne(view: Box, s: Statement)
    requires Runnable(s)
    ensures Expand(view, [s]) == StatementDrafts(view, s)
  {
    ExpandSnoc(view, [], s);
    assert [] + [s] == [s];
  }

  /** Running two closures one after the other lists both closures' descriptions, in order. */
  lemma ExpandAppend(view: Box, a: seq<Statement>, b: seq<Statement>)
    ensures Expand(view, a + b) == Expand(view, a) + Expand(view, b)
  {
    FlatMapAppend((s: Statement) => Lists(view, s), a, b);
  }

  /**
   * Every description a closure leaves addresses the maker's view, at a real
   * attribute; and there is one per primitive statement, two per `size` or
   * `center`, four per `edges`.
   */
  lemma {:induction false} ExpandSubjects(view: Box, closure: seq<Statement>)
    requires WellFormed(closure)
    ensures forall d <- Expand(view, closure) :: d.item.target == Some(view) && d.item.attribute != ConstraintAttribute.None
    ensures |Expand(view, closure)| == Count(closure)
    decreases |closure|
  {
    if closure != [] {
      var front, s := closure[..|closure| - 1], closure[|closure| - 1];
      assert closure == front + [s];
      ExpandSnoc(view, front, s);
      ExpandSubjects(view, front);
      if s.accessor.Attr? {
        ApplyAllKeepsSubject(Fresh(Item(Some(view), s.accessor.attribute)), s.calls);
      }
    }
  }

  /** How many descriptions a closure's accessors add. */
  function Count(closure: seq<Statement>): nat
    decreases |closure|
  {
    if closure == [] then 0
    else Count(closure[..|closure| - 1]) + |Expansion(closure[|closure| - 1].accessor)|
  }

  /**
   * A composite accessor ignores the chain called on it: `make.edges.equalTo(…)`
   * lists the same four plain descriptions as `make.edges`, top, left,
   * bottom, right.
   */
  lemma CompositeChainIsInert(view: Box, accessor: Accessor, calls: seq<Call>)
    requires !accessor.Attr? && Runnable(Statement(accessor, calls))
    ensures StatementDrafts(view, Statement(accessor, calls)) == StatementDrafts(view, Statement(accessor, []))
    ensures accessor == Accessor.Edges ==>
      StatementDrafts(view, Statement(accessor, calls))
        == [Fresh(Item(Some(view), ConstraintAttribute.Top)), Fresh(Item(Some(view), ConstraintAttribute.Left)),
            Fresh(Item(Some(view), ConstraintAttribute.Bottom)), Fresh(Item(Some(view), ConstraintAttribute.Right))]
    ensures accessor == Accessor.Size ==>
      StatementDrafts(view, Statement(accessor, calls))
        == [Fresh(Item(Some(view), ConstraintAttribute.Width)), Fresh(Item(Some(view), ConstraintAttribute.Height))]
    ensures accessor == Accessor.Center ==>
      StatementDrafts(view, Statement(accessor, calls))
        == [Fresh(Item(Some(view), ConstraintAttribute.CenterX)), Fresh(Item(Some(view), ConstraintAttribute.CenterY))]
  {
  }

  /** One chainable call on `d`, through the description's own method. */
  method Invoke(d: ConstraintDescription, c: Call)
    requires Callable(c)
    modifies d`toItem, d`relation, d`constant, d`multiplier, d`priorityValue
    ensures d.State() == Apply(old(d.State()), c)
  {
    var editable: ConstraintDescription;
    match c
    case Relate(r, operand) => {
      match operand
      case ToItem(other) =>
        if r == ConstraintRelation.Equal { editable := d.EqualTo(other); }
        else if r == ConstraintRelation.LessThanOrEqual { editable := d.LessThanOrEqualTo(other); }
        else { editable := d.GreaterThanOrEqualTo(other); }
      case ToView(other) =>
        if r == ConstraintRelation.Equal { editable := d.EqualToView(other); }
        else if r == ConstraintRelation.LessThanOrEqual { editable := d.LessThanOrEqualToView(other); }
        else { editable := d.GreaterThanOrEqualToView(other); }
      case ToConstant(k) =>
        if r == ConstraintRelation.Equal { editable := d.EqualToConstant(k); }
        else if r == ConstraintRelation.LessThanOrEqual { editable := d.LessThanOrEqualToConstant(k); }
        else { editable := d.GreaterThanOrEqualToConstant(k); }
    }
    case Offset(k) => editable := d.Offset(k);
    case Inset(k) => editable := d.Inset(k);
    case MultipliedBy(k) => editable := d.MultipliedBy(k);
    case DividedBy(k) => editable := d.DividedBy(k);
    case Priority(p) => editable := d.Priority(p);
    case PriorityLevel(p) => editable := d.PriorityLevel(p);
  }

  /** A chain of calls on `d`, left to right. */
  method Chain(d: ConstraintDescription, calls: seq<Call>)
    requires forall c <- calls :: Callable(c)
    modifies d`toItem, d`relation, d`constant, d`multiplier, d`priorityValue
    ensures d.State() == ApplyAll(old(d.State()), calls)
  {
    var i := 0;
    while i < |calls|
      invariant 0 <= i <= |calls|
      invariant d.State() == ApplyAll(old(d.State()), calls[..i])
    {
      Invoke(d, calls[i]);
      assert calls[..i + 1][..i] == calls[..i];
      i := i + 1;
    }
    assert calls[..i] == calls;
  }

  /** `make.<attribute>`, through the maker's accessor of that name. */
  method Access(maker: ConstraintMaker, a: ConstraintAttribute) returns (d: ConstraintDescription)
    requires maker.Valid() && a != ConstraintAttribute.None
    modifies maker`descriptions
    ensures maker.Valid() && fresh(d) && maker.descriptions == old(maker.descriptions) + [d]
    ensures d.item == Item(Some(maker.view), a) && d.State() == Fresh(d.item) && d.constraint == Option.None
  {
    match a
    case Left => d := maker.Left();
    case Top => d := maker.Top();
    case Right => d := maker.Right();
    case Bottom => d := maker.Bottom();
    case Leading => d := maker.Leading();
    case Trailing => d := maker.Trailing();
    case Width => d := maker.Width();
    case Height => d := maker.Height();
    case CenterX => d := maker.CenterX();
    case CenterY => d := maker.CenterY();
    case LastBaseline => d := maker.LastBaseline();
    case FirstBaseline => d := maker.FirstBaseline();
    case LeftMargin => d := maker.LeftMargin();
    case RightMargin => d := maker.RightMargin();
    case TopMargin => d := maker.TopMargin();
    case BottomMargin => d := maker.BottomMargin();
    case LeadingMargin => d := maker.LeadingMargin();
    case TrailingMargin => d := maker.TrailingMargin();
    case CenterXWithinMargins => d := maker.CenterXWithinMargins();
    case CenterYWithinMargins => d := maker.CenterYWithinMargins();
  }

  /** `make.<attribute>.<calls>`: the chain configures the one description listed. */
  method PerformPrimitive(maker: ConstraintMaker, a: ConstraintAttribute, calls: seq<Call>, ghost before: seq<Draft>)
    requires maker.Valid() && Describes(maker.descriptions, before) && Unbuilt(maker.descriptions)
    requires a != ConstraintAttribute.None && forall c <- calls :: Callable(c)
    modifies maker`descriptions
    ensures maker.Valid() && Unbuilt(maker.descriptions)
    ensures Describes(maker.descriptions, before + [ApplyAll(Fresh(Item(Some(maker.view), a)), calls)])
    ensures forall i :: 0 <= i < |maker.descriptions| ==>
      fresh(maker.descriptions[i]) || maker.descriptions[i] in old(maker.descriptions)
  {
    var d := Access(maker, a);
    Chain(d, calls);
    assert maker.descriptions[|before|] == d;
  }

  /** `make.edges`, `make.size` or `make.center`. */
  method AccessComposite(maker: ConstraintMaker, accessor: Accessor) returns (placeholder: ConstraintDescription)
    requires maker.Valid() && !accessor.Attr?
    modifies maker`descriptions
    ensures maker.Valid() && fresh(placeholder) && placeholder !in maker.descriptions
    ensures |maker.descriptions| >= |old(maker.descriptions)|
    ensures maker.descriptions[..|old(maker.descriptions)|] == old(maker.descriptions)
    ensures Describes(maker.descriptions[|old(maker.descriptions)|..], FreshDrafts(maker.view, Expansion(accessor)))
    ensures forall i :: |old(maker.descriptions)| <= i < |maker.descriptions| ==>
      fresh(maker.descriptions[i]) && maker.descriptions[i].constraint == Option.None
  {
    if accessor.Edges? {
      placeholder := maker.EdgesAccessor();
    } else if accessor.Size? {
      placeholder := maker.SizeAccessor();
    } else {
      placeholder := maker.CenterAccessor();
    }
  }

  /** `make.edges.<calls>` and the like: the chain configures the unlisted placeholder. */
  method PerformComposite(maker: ConstraintMaker, accessor: Accessor, calls: seq<Call>, ghost before: seq<Draft>)
    requires maker.Valid() && Describes(maker.descriptions, before) && Unbuilt(maker.descriptions)
    requires !accessor.Attr? && forall c <- calls :: Callable(c)
    modifies maker`descriptions
    ensures maker.Valid() && Unbuilt(maker.descriptions)
    ensures Describes(maker.descriptions, before + FreshDrafts(maker.view, Expansion(accessor)))
    ensures forall i :: 0 <= i < |maker.descriptions| ==>
      fresh(maker.descriptions[i]) || maker.descriptions[i] in old(maker.descriptions)
  {
    var placeholder := AccessComposite(maker, accessor);
    ghost var listed := maker.descriptions;
    ghost var added := FreshDrafts(maker.view, Expansion(accessor));
    forall i | 0 <= i < |listed|
      ensures listed[i].State() == (before + added)[i]
    {
      if i >= |before| {
        assert listed[i] == listed[|before|..][i - |before|];
      }
    }
    Chain(placeholder, calls);
  }

  /** One statement of the closure, run on the maker. */
  method Perform(maker: ConstraintMaker, s: Statement, ghost before: seq<Draft>)
    requires maker.Valid() && Describes(maker.descriptions, before) && Unbuilt(maker.descriptions)
    requires Runnable(s)
    modifies maker`descriptions
    ensures maker.Valid() && Unbuilt(maker.descriptions)
    ensures Describes(maker.descriptions, before + StatementDrafts(maker.view, s))
    ensures forall i :: 0 <= i < |maker.descriptions| ==>
      fresh(maker.descriptions[i]) || maker.descriptions[i] in old(maker.descriptions)
  {
    if s.accessor.Attr? {
      PerformPrimitive(maker, s.accessor.attribute, s.calls, before);
    } else {
      PerformComposite(maker, s.accessor, s.calls, before);
    }
  }

  /** `closure(maker)`: the statements, in order, on a new maker. */
  method RunClosure(maker: ConstraintMaker, closure: seq<Statement>)
    requires maker.Valid() && maker.descriptions == [] && WellFormed(closure)
    modifies maker`descriptions
    ensures maker.Valid() && Unbuilt(maker.descriptions)
    ensures Describes(maker.descriptions, Expand(maker.view, closure))
    ensures forall i :: 0 <= i < |maker.descriptions| ==> fresh(maker.descriptions[i])
  {
    var k := 0;
    while k < |closure|
      invariant 0 <= k <= |closure|
      invariant maker.Valid() && Unbuilt(maker.descriptions)
      invariant Describes(maker.descriptions, Expand(maker.view, closure[..k]))
      invariant forall i :: 0 <= i < |maker.descriptions| ==> fresh(maker.descriptions[i])
    {
      Perform(maker, closure[k], Expand(maker.view, closure[..k]));
      assert closure[..k + 1] == closure[..k] + [closure[k]];
      ExpandSnoc(maker.view, closure[..k], closure[k]);
      k := k + 1;
    }
    assert closure[..k] == closure;
  }

  /**
   * `view.makeConstraints(closure)`: opt the view out of mask translation,
   * run the closure, install, and return every record built, in description
   * order, including those `install` dropped for want of a common superview.
   */
  method MakeConstraints(views: Hierarchy, view: Box, closure: seq<Statement>) returns (built: seq<Constraint>)
    requires views.Valid() && WellFormed(closure)
    modifies views`constraints, views`translatesMask
    ensures views.translatesMask == old(views.translatesMask) - {view}
    ensures built == Builds(Expand(view, closure), views.live, views.platform)
    ensures views.constraints == Installed(old(views.constraints), views.superview, views.rank, view, built)
  {
    var maker := new ConstraintMaker(view, views);
    RunClosure(maker, closure);
    ghost var drafts := Expand(view, closure);
    maker.Install(views, drafts);
    built := Cached(maker.descriptions);
    CachedIsBuilds(maker.descriptions, drafts, views.live, views.platform);
  }

  /** `view.updateConstraints(closure)`: exactly `makeConstraints`; it removes nothing. */
  method UpdateConstraints(views: Hierarchy, view: Box, closure: seq<Statement>) returns (built: seq<Constraint>)
    requires views.Valid() && WellFormed(closure)
    modifies views`constraints, views`translatesMask
    ensures views.translatesMask == old(views.translatesMask) - {view}
    ensures built == Builds(Expand(view, closure), views.live, views.platform)
    ensures views.constraints == Installed(old(views.constraints), views.superview, views.rank, view, built)
  {
    built := MakeConstraints(views, view, closure);
  }

  /** `view.remakeConstraints(closure)`: `removeConstraints`, then `makeConstraints`. */
  method RemakeConstraints(views: Hierarchy, view: Box, closure: seq<Statement>) returns (built: seq<Constraint>)
    requires views.Valid() && WellFormed(closure)
    modifies views`constraints, views`translatesMask
    ensures views.translatesMask == old(views.translatesMask) - {view}
    ensures built == Builds(Expand(view, closure), views.live, views.platform)
    ensures views.constraints
            == Installed(Removed(old(views.constraints), views.superview, view), views.superview, views.rank, view, built)
  {
    views.RemoveConstraints(view);
    built := MakeConstraints(views, view, closure);
  }

  /**
   * What `makeConstraints` returns: one record per listed description while
   * the view is alive, none once it has expired, each with the view as
   * first item.
   */
  lemma MadeRecords(view: Box, closure: seq<Statement>, live: set<Box>, platform: Platform)
    requires WellFormed(closure)
    ensures view in live ==> |Builds(Expand(view, closure), live, platform)| == Count(closure)
    ensures view !in live ==> Builds(Expand(view, closure), live, platform) == []
    ensures forall c <- Builds(Expand(view, closure), live, platform) :: c.firstItem == view
  {
    ExpandSubjects(view, closure);
    BuildsOfSubject(Expand(view, closure), view, live, platform);
  }

  /**
   * `updateConstraints` accumulates: after two calls every view's list is
   * what it was, then the first call's records it owns, then the second's.
   * Nothing is removed, so a record of the first call survives the second.
   */
  lemma UpdateAccumulates(store: map<Box, seq<Constraint>>, superview: map<Box, Box>, rank: map<Box, nat>,
                          view: Box, first: seq<Constraint>, second: seq<Constraint>, b: Box)
    requires Acyclic(superview, rank)
    ensures var after := Installed(Installed(store, superview, rank, view, first), superview, rank, view, second);
      StoreOf(after, b)
        == StoreOf(store, b) + OwnedBy(superview, rank, view, first, b) + OwnedBy(superview, rank, view, second, b)
  {
    InstalledStore(store, superview, rank, view, first, b);
    InstalledStore(Installed(store, superview, rank, view, first), superview, rank, view, second, b);
  }

  /**
   * After `remakeConstraints`, the records in the view's own list and its
   * superview's list that name the view are exactly the new session's
   * records placed there: none survives from before. Lists of views other
   * than these and the new records' owners are unchanged.
   */
  lemma RemakeReplaces(store: map<Box, seq<Constraint>>, superview: map<Box, Box>, rank: map<Box, nat>,
                       view: Box, built: seq<Constraint>, b: Box)
    requires Acyclic(superview, rank)
    ensures var after := Installed(Removed(store, superview, view), superview, rank, view, built);
      var touched := b == view || (view in superview && b == superview[view]);
      && (touched ==> StoreOf(after, b) == Unrelated(StoreOf(store, b), view) + OwnedBy(superview, rank, view, built, b))
      && (touched ==> forall c <- StoreOf(after, b) :: Mentions(c, view) ==> c in built)
      && (!touched ==> StoreOf(after, b) == StoreOf(store, b) + OwnedBy(superview, rank, view, built, b))
  {
    var removed := Removed(store, superview, view);
    RemovedSpec(store, superview, view, b);
    InstalledStore(removed, superview, rank, view, built, b);
    OwnedByMembers(superview, rank, view, built, b);
  }

  /** The record of "attribute == k", at required priority. */
  function FixRecord(view: Box, attribute: LayoutAttribute, k: real): Constraint {
    Constraint(view, attribute, LayoutRelation.Equal, Option.None, NotAnAttribute, 1.0, k, RequiredPriority)
  }

  /** The record of "attribute == target.attribute + k", at required priority. */
  function PinRecord(view: Box, attribute: LayoutAttribute, target: Box, k: real): Constraint {
    Constraint(view, attribute, LayoutRelation.Equal, Some(target), attribute, 1.0, k, RequiredPriority)
  }

  /** An unconfigured description's record: "attribute == 0". */
  function ZeroRecord(view: Box, attribute: LayoutAttribute): Constraint {
    FixRecord(view, attribute, 0.0)
  }

  /** Unconfigured descriptions of a live view build one "attribute == 0" record each, in order. */
  lemma FreshBuilds(view: Box, attributes: seq<ConstraintAttribute>, live: set<Box>, platform: Platform)
    requires view in live
    ensures |Builds(FreshDrafts(view, attributes), live, platform)| == |attributes|
    ensures forall i :: 0 <= i < |attributes| ==>
      Builds(FreshDrafts(view, attributes), live, platform)[i] == ZeroRecord(view, LayoutAttributeOf(attributes[i], platform.family))
  {
    var drafts := FreshDrafts(view, attributes);
    BuildsOfSubject(drafts, view, live, platform);
    forall i | 0 <= i < |attributes|
      ensures Builds(drafts, live, platform)[i] == ZeroRecord(view, LayoutAttributeOf(attributes[i], platform.family))
    {
      assert drafts[i] == Fresh(Item(Some(view), attributes[i]));
    }
  }

  /**
   * The chain on a composite accessor is lost: `make.edges.equalTo(…)` lists
   * four descriptions that were never configured, so while the view is
   * alive the descriptions are finalised as "top == 0", "left == 0",
   * "bottom == 0", "right == 0", none of which has a second view. The engine
   * refuses to create a location record of that shape; the model does not
   * check this and hands them to `install` like any other records.
   */
  lemma EdgesBuildsZeroRecords(view: Box, calls: seq<Call>, live: set<Box>, platform: Platform)
    requires view in live && forall c <- calls :: Callable(c)
    ensures Builds(Expand(view, [Statement(Accessor.Edges, calls)]), live, platform)
            == [ZeroRecord(view, LayoutAttribute.Top), ZeroRecord(view, LayoutAttribute.Left),
                ZeroRecord(view, LayoutAttribute.Bottom), ZeroRecord(view, LayoutAttribute.Right)]
  {
    ExpandOne(view, Statement(Accessor.Edges, calls));
    EdgesFreshBuilds(view, live, platform);
  }

  /** The four unconfigured edge descriptions of a live view, built. */
  lemma EdgesFreshBuilds(view: Box, live: set<Box>, platform: Platform)
    requires view in live
    ensures Builds(FreshDrafts(view, Expansion(Accessor.Edges)), live, platform)
            == [ZeroRecord(view, LayoutAttribute.Top), ZeroRecord(view, LayoutAttribute.Left),
                ZeroRecord(view, LayoutAttribute.Bottom), ZeroRecord(view, LayoutAttribute.Right)]
  {
    var edges := Expansion(Accessor.Edges);
    var built := Builds(FreshDrafts(view, edges), live, platform);
    FreshBuilds(view, edges, live, platform);
    assert built[0] == ZeroRecord(view, LayoutAttributeOf(ConstraintAttribute.Top, platform.family));
    assert built[1] == ZeroRecord(view, LayoutAttributeOf(ConstraintAttribute.Left, platform.family));
    assert built[2] == ZeroRecord(view, LayoutAttributeOf(ConstraintAttribute.Bottom, platform.family));
    assert built[3] == ZeroRecord(view, LayoutAttributeOf(ConstraintAttribute.Right, platform.family));
  }

  /** `make.<attribute>.equalTo(k)` */
  function Fix(attribute: ConstraintAttribute, k: real): Statement {
    Statement(Attr(attribute), [Relate(ConstraintRelation.Equal, ToConstant(k))])
  }

  /** `make.<attribute>.equalTo(target).offset(k)`: the same attribute of `target`, plus `k`. */
  function Pin(attribute: ConstraintAttribute, target: Box, k: real): Statement {
    Statement(Attr(attribute), [Relate(ConstraintRelation.Equal, ToView(target)), Offset(k)])
  }

  /** A one-statement closure on a primitive accessor of a live view builds its one configured description. */
  lemma PrimitiveBuilds(view: Box, attribute: ConstraintAttribute, calls: seq<Call>, live: set<Box>, platform: Platform)
    requires view in live && attribute != ConstraintAttribute.None && forall c <- calls :: Callable(c)
    ensures Build(ApplyAll(Fresh(Item(Some(view), attribute)), calls), live, platform).Some?
    ensures Builds(Expand(view, [Statement(Attr(attribute), calls)]), live, platform)
            == [Build(ApplyAll(Fresh(Item(Some(view), attribute)), calls), live, platform).value]
  {
    var d := ApplyAll(Fresh(Item(Some(view), attribute)), calls);
    ExpandOne(view, Statement(Attr(attribute), calls));
    ApplyAllKeepsSubject(Fresh(Item(Some(view), attribute)), calls);
    BuildsOne(d, live, platform);
  }

  /** `Fix(attribute, k)` builds "attribute == k" with no second view. */
  lemma FixBuilds(view: Box, attribute: ConstraintAttribute, k: real, live: set<Box>, platform: Platform)
    requires view in live && attribute != ConstraintAttribute.None
    ensures Builds(Expand(view, [Fix(attribute, k)]), live, platform)
            == [FixRecord(view, LayoutAttributeOf(attribute, platform.family), k)]
  {
    var calls := Fix(attribute, k).calls;
    PrimitiveBuilds(view, attribute, calls, live, platform);
    ApplyAllOne(Fresh(Item(Some(view), attribute)), calls[0]);
  }

  /** `Pin(attribute, target, k)` builds "attribute == target.attribute + k" while both views are alive. */
  lemma PinBuilds(view: Box, attribute: ConstraintAttribute, target: Box, k: real, live: set<Box>, platform: Platform)
    requires view in live && target in live && attribute != ConstraintAttribute.None
    ensures Builds(Expand(view, [Pin(attribute, target, k)]), live, platform)
            == [PinRecord(view, LayoutAttributeOf(attribute, platform.family), target, k)]
  {
    var start := Fresh(Item(Some(view), attribute));
    var calls := Pin(attribute, target, k).calls;
    PrimitiveBuilds(view, attribute, calls, live, platform);
    ApplyAllOne(start, calls[0]);
    assert calls[..1] == [calls[0]];
    assert ApplyAll(start, calls) == start.(toItem := Some(Item(Some(target), attribute)), constant := k);
  }

  /**
   * `remakeConstraints { width == first }` then `remakeConstraints { width == second }`
   * leaves the view's own list holding what it had that never named the
   * view, then exactly one record naming it: width equal to `second`.
   */
  lemma RemakeTwiceKeepsOneWidth(store: map<Box, seq<Constraint>>, superview: map<Box, Box>, rank: map<Box, nat>,
                                 view: Box, live: set<Box>, platform: Platform, first: real, second: real)
    requires Acyclic(superview, rank) && view in live
    ensures
      var once := Installed(Removed(store, superview, view), superview, rank, view,
                            Builds(Expand(view, [Fix(ConstraintAttribute.Width, first)]), live, platform));
      var twice := Installed(Removed(once, superview, view), superview, rank, view,
                             Builds(Expand(view, [Fix(ConstraintAttribute.Width, second)]), live, platform));
      StoreOf(twice, view)
        == Unrelated(StoreOf(store, view), view) + [FixRecord(view, LayoutAttribute.Width, second)]
  {
    var once := Installed(Removed(store, superview, view), superview, rank, view,
                          Builds(Expand(view, [Fix(ConstraintAttribute.Width, first)]), live, platform));
    RemakeWidth(store, superview, rank, view, live, platform, first);
    RemakeWidth(once, superview, rank, view, live, platform, second);
    var kept := Unrelated(StoreOf(store, view), view);
    var r1 := FixRecord(view, LayoutAttribute.Width, first);
    assert Unrelated(StoreOf(once, view), view) == kept by {
      UnrelatedAppend(kept, [r1], view);
      UnrelatedIdempotent(StoreOf(store, view), view);
      assert Unrelated([r1], view) == [];
    }
  }

  /** One `remakeConstraints { width == k }` on a live view. */
  lemma RemakeWidth(store: map<Box, seq<Constraint>>, superview: map<Box, Box>, rank: map<Box, nat>,
                    view: Box, live: set<Box>, platform: Platform, k: real)
    requires Acyclic(superview, rank) && view in live
    ensures StoreOf(Installed(Removed(store, superview, view), superview, rank, view,
                              Builds(Expand(view, [Fix(ConstraintAttribute.Width, k)]), live, platform)), view)
            == Unrelated(StoreOf(store, view), view) + [FixRecord(view, LayoutAttribute.Width, k)]
  {
    FixBuilds(view, ConstraintAttribute.Width, k, live, platform);
    RemakeOwnRecord(store, superview, rank, view, FixRecord(view, LayoutAttribute.Width, k));
  }

  /** Remaking with a single record that names no second view. */
  lemma RemakeOwnRecord(store: map<Box, seq<Constraint>>, superview: map<Box, Box>, rank: map<Box, nat>, view: Box, r: Constraint)
    requires Acyclic(superview, rank) && r.secondItem.None?
    ensures StoreOf(Installed(Removed(store, superview, view), superview, rank, view, [r]), view)
            == Unrelated(StoreOf(store, view), view) + [r]
  {
    RemakeReplaces(store, superview, rank, view, [r], view);
    assert [r][..0] == [];
  }


  /**
   * A child pinned to its superview `p` on two sides, with a square size:
   * `make.top.equalTo(p).offset(10); make.<side>.equalTo(p).offset(k);
   * make.width.equalTo(size); make.height.equalTo(size)`.
   */
  function Sibling(p: Box, side: ConstraintAttribute, k: real, size: real): seq<Statement> {
    [Pin(ConstraintAttribute.Top, p, 10.0), Pin(side, p, k),
     Fix(ConstraintAttribute.Width, size), Fix(ConstraintAttribute.Height, size)]
  }

  /** A closure of four statements lists what each statement lists, in order. */
  lemma ExpandOfFour(view: Box, s1: Statement, s2: Statement, s3: Statement, s4: Statement)
    ensures Expand(view, [s1, s2, s3, s4])
            == Expand(view, [s1]) + Expand(view, [s2]) + Expand(view, [s3]) + Expand(view, [s4])
  {
    assert [s1, s2, s3, s4] == [s1] + [s2] + [s3] + [s4];
    ExpandAppend(view, [s1], [s2]);
    ExpandAppend(view, [s1] + [s2], [s3]);
    ExpandAppend(view, [s1] + [s2] + [s3], [s4]);
  }

  /** Four lists of descriptions, each building one record, build those four records in order. */
  lemma BuildsOfFourDrafts(d1: seq<Draft>, d2: seq<Draft>, d3: seq<Draft>, d4: seq<Draft>,
                           r1: Constraint, r2: Constraint, r3: Constraint, r4: Constraint, live: set<Box>, platform: Platform)
    requires Builds(d1, live, platform) == [r1] && Builds(d2, live, platform) == [r2]
    requires Builds(d3, live, platform) == [r3] && Builds(d4, live, platform) == [r4]
    ensures Builds(d1 + d2 + d3 + d4, live, platform) == [r1, r2, r3, r4]
  {
    BuildsAppend(d1, d2, live, platform);
    BuildsAppend(d1 + d2, d3, live, platform);
    BuildsAppend(d1 + d2 + d3, d4, live, platform);
    assert [r1] + [r2] + [r3] + [r4] == [r1, r2, r3, r4];
  }

  /** A closure of four statements, each building one record, builds those four records in order. */
  lemma BuildsOfFour(view: Box, s1: Statement, s2: Statement, s3: Statement, s4: Statement,
                     r1: Constraint, r2: Constraint, r3: Constraint, r4: Constraint, live: set<Box>, platform: Platform)
    requires Builds(Expand(view, [s1]), live, platform) == [r1] && Builds(Expand(view, [s2]), live, platform) == [r2]
    requires Builds(Expand(view, [s3]), live, platform) == [r3] && Builds(Expand(view, [s4]), live, platform) == [r4]
    ensures Builds(Expand(view, [s1, s2, s3, s4]), live, platform) == [r1, r2, r3, r4]
  {
    ExpandOfFour(view, s1, s2, s3, s4);
    BuildsOfFourDrafts(Expand(view, [s1]), Expand(view, [s2]), Expand(view, [s3]), Expand(view, [s4]),
                       r1, r2, r3, r4, live, platform);
  }

  /** The engine attributes of the three fixed sides `Sibling` uses, on either platform. */
  lemma SiblingAttributes(family: Family)
    ensures LayoutAttributeOf(ConstraintAttribute.Top, family) == LayoutAttribute.Top
    ensures LayoutAttributeOf(ConstraintAttribute.Width, family) == LayoutAttribute.Width
    ensures LayoutAttributeOf(ConstraintAttribute.Height, family) == LayoutAttribute.Height
  {
  }

  /** What `Sibling(p, side, k, size)` builds for a live child of a live `p`. */
  lemma SiblingBuilds(view: Box, p: Box, side: ConstraintAttribute, k: real, size: real, live: set<Box>, platform: Platform)
    requires view in live && p in live && side != ConstraintAttribute.None
    ensures Builds(Expand(view, Sibling(p, side, k, size)), live, platform)
            == [PinRecord(view, LayoutAttribute.Top, p, 10.0), PinRecord(view, LayoutAttributeOf(side, platform.family), p, k),
                FixRecord(view, LayoutAttribute.Width, size), FixRecord(view, LayoutAttribute.Height, size)]
  {
    SiblingAttributes(platform.family);
    PinBuilds(view, ConstraintAttribute.Top, p, 10.0, live, platform);
    PinBuilds(view, side, p, k, live, platform);
    FixBuilds(view, ConstraintAttribute.Width, size, live, platform);
    FixBuilds(view, ConstraintAttribute.Height, size, live, platform);
    BuildsOfFour(view, Pin(ConstraintAttribute.Top, p, 10.0), Pin(side, p, k),
                 Fix(ConstraintAttribute.Width, size), Fix(ConstraintAttribute.Height, size),
                 PinRecord(view, LayoutAttribute.Top, p, 10.0), PinRecord(view, LayoutAttributeOf(side, platform.family), p, k),
                 FixRecord(view, LayoutAttribute.Width, size), FixRecord(view, LayoutAttribute.Height, size), live, platform);
  }

  /** A child's record pinned to its superview belongs to the superview. */
  lemma PinnedToSuperview(superview: map<Box, Box>, rank: map<Box, nat>, view: Box, c: Constraint)
    requires Acyclic(superview, rank) && view in superview && c.secondItem == Some(superview[view])
    ensures Owner(superview, rank, view, c) == Some(superview[view])
  {
    var p := superview[view];
    assert p != view;
    assert IsDescendant(superview, rank, p, p);
    assert IsDescendant(superview, rank, view, p);
    if IsDescendant(superview, rank, p, view) {
      DescendantAntisymmetric(superview, rank, p, view);
    }
    assert CommonFrom(superview, rank, view, p) == CommonFrom(superview, rank, p, p);
  }

  /** Where a session of two pinned records and two sizes of a child lands. */
  lemma InstallPinsAndSizes(store: map<Box, seq<Constraint>>, superview: map<Box, Box>, rank: map<Box, nat>,
                            view: Box, pins: seq<Constraint>, sizes: seq<Constraint>, v: Box)
    requires Acyclic(superview, rank) && view in superview && |pins| == 2 && |sizes| == 2
    requires forall c <- pins :: c.secondItem == Some(superview[view])
    requires forall c <- sizes :: c.secondItem.None?
    ensures StoreOf(Installed(store, superview, rank, view, pins + sizes), v)
            == StoreOf(store, v) + (if v == superview[view] then pins else if v == view then sizes else [])
  {
    InstalledStore(store, superview, rank, view, pins + sizes, v);
    OwnedByAppend(superview, rank, view, pins, sizes, v);
    OwnedPins(superview, rank, view, pins, v);
    OwnedSizes(superview, rank, view, sizes, v);
    assert superview[view] != view;
  }

  /** Both records pinned to the superview go to the superview. */
  lemma OwnedPins(superview: map<Box, Box>, rank: map<Box, nat>, view: Box, pins: seq<Constraint>, v: Box)
    requires Acyclic(superview, rank) && view in superview && |pins| == 2
    requires forall c <- pins :: c.secondItem == Some(superview[view])
    ensures OwnedBy(superview, rank, view, pins, v) == if v == superview[view] then pins else []
  {
    OwnedByPair(superview, rank, view, pins, v);
    PinnedToSuperview(superview, rank, view, pins[0]);
    PinnedToSuperview(superview, rank, view, pins[1]);
    assert pins == [pins[0], pins[1]];
  }

  /** Both records that name no second view go to the view itself. */
  lemma OwnedSizes(superview: map<Box, Box>, rank: map<Box, nat>, view: Box, sizes: seq<Constraint>, v: Box)
    requires Acyclic(superview, rank) && |sizes| == 2
    requires forall c <- sizes :: c.secondItem.None?
    ensures OwnedBy(superview, rank, view, sizes, v) == if v == view then sizes else []
  {
    OwnedByPair(superview, rank, view, sizes, v);
    assert sizes == [sizes[0], sizes[1]];
  }

  /** Ownership of a two-record session, record by record. */
  lemma OwnedByPair(superview: map<Box, Box>, rank: map<Box, nat>, view: Box, cs: seq<Constraint>, v: Box)
    requires Acyclic(superview, rank) && |cs| == 2
    ensures OwnedBy(superview, rank, view, cs, v)
            == (if Owner(superview, rank, view, cs[0]) == Some(v) then [cs[0]] else [])
               + (if Owner(superview, rank, view, cs[1]) == Some(v) then [cs[1]] else [])
  {
    var front := cs[..1];
    assert front[..0] == [] && front == [cs[0]];
    assert OwnedBy(superview, rank, view, front, v) == [] + (if Owner(superview, rank, view, cs[0]) == Some(v) then [cs[0]] else []);
    assert OwnedBy(superview, rank, view, cs, v)
           == OwnedBy(superview, rank, view, front, v) + (if Owner(superview, rank, view, cs[1]) == Some(v) then [cs[1]] else []);
  }

  /** One child's `makeConstraints(Sibling(p, side, k, size))`, `p` being its live superview. */
  lemma SiblingSession(store: map<Box, seq<Constraint>>, superview: map<Box, Box>, rank: map<Box, nat>,
                       p: Box, child: Box, side: ConstraintAttribute, k: real, size: real, live: set<Box>, platform: Platform, v: Box)
    requires Acyclic(superview, rank) && child in superview && superview[child] == p
    requires p in live && child in live && side != ConstraintAttribute.None
    ensures StoreOf(Installed(store, superview, rank, child, Builds(Expand(child, Sibling(p, side, k, size)), live, platform)), v)
            == StoreOf(store, v)
               + (if v == p then [PinRecord(child, LayoutAttribute.Top, p, 10.0), PinRecord(child, LayoutAttributeOf(side, platform.family), p, k)]
                  else if v == child then [FixRecord(child, LayoutAttribute.Width, size), FixRecord(child, LayoutAttribute.Height, size)]
                  else [])
  {
    var pins := [PinRecord(child, LayoutAttribute.Top, p, 10.0), PinRecord(child, LayoutAttributeOf(side, platform.family), p, k)];
    var sizes := [FixRecord(child, LayoutAttribute.Width, size), FixRecord(child, LayoutAttribute.Height, size)];
    SiblingBuilds(child, p, side, k, size, live, platform);
    assert pins + sizes == [pins[0], pins[1], sizes[0], sizes[1]];
    InstallPinsAndSizes(store, superview, rank, child, pins, sizes, v);
  }

  /**
   * The library's own `testMakeConstraints`: a test view inside a container
   * pins its top and left to the container at 10 and fixes its size at
   * 100 by 100. Afterwards the test view no longer translates its
   * autoresizing mask, and the container's list is not empty: it holds the
   * two pinned records.
   */
  method MakeConstraintsTest(platform: Platform) returns (translates: bool, containerConstraints: seq<Constraint>)
    ensures !translates
    ensures |containerConstraints| > 0
    ensures containerConstraints
            == [PinRecord(1, LayoutAttribute.Top, 0, 10.0), PinRecord(1, LayoutAttributeOf(ConstraintAttribute.Left, platform.family), 0, 10.0)]
  {
    var container: Box, test: Box := 0, 1;
    var views := new Hierarchy(platform, map[test := container], map[container := 0, test := 1], {container, test});
    var built := MakeConstraints(views, test, Sibling(container, ConstraintAttribute.Left, 10.0, 100.0));
    SiblingSession(map[], views.superview, views.rank, container, test, ConstraintAttribute.Left, 10.0, 100.0,
                   views.live, views.platform, container);
    translates := test in views.translatesMask;
    containerConstraints := StoreOf(views.constraints, container);
  }

  /**
   * A derived two-child layout, built from the single-child session above:
   * the first child's `makeConstraints(Sibling(p, left, 10, 80))`, then the
   * second's `makeConstraints(Sibling(p, right, -10, 80))`, install eight records: the
   * four pinned ones in `p`'s list, in order, and each sibling's width and
   * height in its own list. No other list changes.
   */
  lemma SiblingsScenario(store: map<Box, seq<Constraint>>, superview: map<Box, Box>, rank: map<Box, nat>,
                         p: Box, a: Box, b: Box, live: set<Box>, platform: Platform, v: Box)
    requires Acyclic(superview, rank)
    requires a in superview && superview[a] == p && b in superview && superview[b] == p && a != b
    requires p in live && a in live && b in live
    ensures
      var first := Installed(store, superview, rank, a,
                             Builds(Expand(a, Sibling(p, ConstraintAttribute.Left, 10.0, 80.0)), live, platform));
      var second := Installed(first, superview, rank, b,
                              Builds(Expand(b, Sibling(p, ConstraintAttribute.Right, -10.0, 80.0)), live, platform));
      StoreOf(second, v)
        == StoreOf(store, v)
           + (if v == p then [PinRecord(a, LayoutAttribute.Top, p, 10.0), PinRecord(a, LayoutAttribute.Left, p, 10.0),
                              PinRecord(b, LayoutAttribute.Top, p, 10.0), PinRecord(b, LayoutAttribute.Right, p, -10.0)]
              else if v == a then [FixRecord(a, LayoutAttribute.Width, 80.0), FixRecord(a, LayoutAttribute.Height, 80.0)]
              else if v == b then [FixRecord(b, LayoutAttribute.Width, 80.0), FixRecord(b, LayoutAttribute.Height, 80.0)]
              else [])
  {
    assert p != a && p != b;
    var first := Installed(store, superview, rank, a,
                           Builds(Expand(a, Sibling(p, ConstraintAttribute.Left, 10.0, 80.0)), live, platform));
    assert LayoutAttributeOf(ConstraintAttribute.Left, platform.family) == LayoutAttribute.Left;
    assert LayoutAttributeOf(ConstraintAttribute.Right, platform.family) == LayoutAttribute.Right;
    SiblingSession(store, superview, rank, p, a, ConstraintAttribute.Left, 10.0, 80.0, live, platform, v);
    SiblingSession(first, superview, rank, p, b, ConstraintAttribute.Right, -10.0, 80.0, live, platform, v);
  }
}
