/*
 * ConstraintItem and ConstraintDescription (ConstraintItem.swift,
 * ConstraintDescription.swift): the chainable builder for one attribute of
 * one view, and its finalisation into an engine constraint record.
 *
 * A description is a class: every chainable call overwrites some of its
 * fields in place and hands back the same object. What a call does to the
 * fields is specified once, by `Apply` on `Draft` values; the methods are
 * proved against it, and the lemmas below state what `Apply` and `Build`
 * promise.
 */
module Descriptions {
  import opened LayoutEngine
  import opened ConstraintAttributes
  import opened ConstraintRelations

  /**
   * ConstraintItem: a weak reference to a view and one of its attributes.
   * The reference does not keep the view alive; it reads as a view only
   * while that view is still in the live set.
   */
  datatype Item = Item(target: Option<Box>, attribute: ConstraintAttribute)

  /** A weak reference that has not expired. */
  predicate Alive(target: Option<Box>, live: set<Box>) {
    target.Some? && target.value in live
  }

  /** The builder fields of a description, as a value. */
  datatype Draft = Draft(
    item: Item,
    toItem: Option<Item>,
    relation: ConstraintRelation,
    constant: real,
    multiplier: real,
    priority: real)

  /** The fields of a description just created for `item`. */
  function Fresh(item: Item): Draft {
    Draft(item, Option.None, ConstraintRelation.Equal, 0.0, 1.0, RequiredPriority)
  }

  /** The right-hand side of a relation call: an item, a view, or a constant. */
  datatype Operand = ToItem(item: Item) | ToView(view: Box) | ToConstant(amount: real)

  /** One chainable call on a description. */
  datatype Call =
    | Relate(relation: ConstraintRelation, operand: Operand)  // equalTo / lessThanOrEqualTo / greaterThanOrEqualTo
    | Offset(amount: real)
    | Inset(amount: real)
    | MultipliedBy(amount: real)
    | DividedBy(amount: real)
    | Priority(value: real)
    | PriorityLevel(level: LayoutPriority)

  /** The one precondition a caller must respect: never divide by zero. */
  predicate Callable(c: Call) {
    c.DividedBy? ==> c.amount != 0.0
  }

  /** What one chainable call does to the builder fields. */
  function Apply(d: Draft, c: Call): Draft
    requires Callable(c)
  {
    match c
    case Relate(r, ToItem(other)) => d.(relation := r, toItem := Some(other))
    case Relate(r, ToView(view)) => d.(relation := r, toItem := Some(Item(Some(view), d.item.attribute)))
    case Relate(r, ToConstant(k)) => d.(relation := r, constant := k)
    case Offset(k) => d.(constant := k)
    case Inset(k) => d.(constant := k)
    case MultipliedBy(k) => d.(multiplier := k)
    case DividedBy(k) => d.(multiplier := 1.0 / k)
    case Priority(p) => d.(priority := p)
    case PriorityLevel(p) => d.(priority := p.rawValue)
  }

  /** A chain of calls, applied left to right. */
  function ApplyAll(d: Draft, calls: seq<Call>): Draft
    requires forall c <- calls :: Callable(c)
    decreases |calls|
  {
    if calls == [] then d else Apply(ApplyAll(d, calls[..|calls| - 1]), calls[|calls| - 1])
  }

  /**
   * `makeConstraint`: nothing when the subject view has expired; otherwise
   * the engine record. The second item is the target view only while it is
   * alive, but the second attribute comes from the target item whether or
   * not its view is alive.
   */
  function Build(d: Draft, live: set<Box>, platform: Platform): Option<Constraint> {
    if !Alive(d.item.target, live) then Option.None
    else
      var toView := if d.toItem.Some? && Alive(d.toItem.value.target, live) then d.toItem.value.target else Option.None;
      var toAttribute := if d.toItem.Some? then LayoutAttributeOf(d.toItem.value.attribute, platform.family) else NotAnAttribute;
      Some(Constraint(
        d.item.target.value,
        LayoutAttributeOf(d.item.attribute, platform.family),
        LayoutRelationOf(d.relation),
        toView,
        toAttribute,
        d.multiplier,
        d.constant,
        d.priority))
  }

  class ConstraintDescription {
    const item: Item
    var toItem: Option<Item>
    var relation: ConstraintRelation
    var constant: real
    var multiplier: real
    var priorityValue: real
    /** The record most recently built by MakeConstraint. */
    var constraint: Option<Constraint>

    /** The builder fields as a value. */
    ghost function State(): Draft
      reads this
    {
      Draft(item, toItem, relation, constant, multiplier, priorityValue)
    }

    constructor (item: Item)
      ensures this.item == item
      ensures State() == Fresh(item) && constraint == Option.None
    {
      this.item := item;
      toItem := Option.None;
      relation := ConstraintRelation.Equal;
      constant := 0.0;
      multiplier := 1.0;
      priorityValue := RequiredPriority;
      constraint := Option.None;
    }

    method EqualTo(other: Item) returns (editable: ConstraintDescription)
      modifies this`relation, this`toItem
      ensures editable == this
      ensures State() == Apply(old(State()), Relate(ConstraintRelation.Equal, ToItem(other)))
    {
      relation := ConstraintRelation.Equal;
      toItem := Some(other);
      editable := this;
    }

    method EqualToView(other: Box) returns (editable: ConstraintDescription)
      modifies this`relation, this`toItem
      ensures editable == this
      ensures State() == Apply(old(State()), Relate(ConstraintRelation.Equal, ToView(other)))
    {
      editable := EqualTo(Item(Some(other), item.attribute));
    }

    method EqualToConstant(amount: real) returns (editable: ConstraintDescription)
      modifies this`relation, this`constant
      ensures editable == this
      ensures State() == Apply(old(State()), Relate(ConstraintRelation.Equal, ToConstant(amount)))
    {
      relation := ConstraintRelation.Equal;
      constant := amount;
      editable := this;
    }

    method LessThanOrEqualTo(other: Item) returns (editable: ConstraintDescription)
      modifies this`relation, this`toItem
      ensures editable == this
      ensures State() == Apply(old(State()), Relate(ConstraintRelation.LessThanOrEqual, ToItem(other)))
    {
      relation := ConstraintRelation.LessThanOrEqual;
      toItem := Some(other);
      editable := this;
    }

    method LessThanOrEqualToView(other: Box) returns (editable: ConstraintDescription)
      modifies this`relation, this`toItem
      ensures editable == this
      ensures State() == Apply(old(State()), Relate(ConstraintRelation.LessThanOrEqual, ToView(other)))
    {
      editable := LessThanOrEqualTo(Item(Some(other), item.attribute));
    }

    method LessThanOrEqualToConstant(amount: real) returns (editable: ConstraintDescription)
      modifies this`relation, this`constant
      ensures editable == this
      ensures State() == Apply(old(State()), Relate(ConstraintRelation.LessThanOrEqual, ToConstant(amount)))
    {
      relation := ConstraintRelation.LessThanOrEqual;
      constant := amount;
      editable := this;
    }

    method GreaterThanOrEqualTo(other: Item) returns (editable: ConstraintDescription)
      modifies this`relation, this`toItem
      ensures editable == this
      ensures State() == Apply(old(State()), Relate(ConstraintRelation.GreaterThanOrEqual, ToItem(other)))
    {
      relation := ConstraintRelation.GreaterThanOrEqual;
      toItem := Some(other);
      editable := this;
    }

    method GreaterThanOrEqualToView(other: Box) returns (editable: ConstraintDescription)
      modifies this`relation, this`toItem
      ensures editable == this
      ensures State() == Apply(old(State()), Relate(ConstraintRelation.GreaterThanOrEqual, ToView(other)))
    {
      editable := GreaterThanOrEqualTo(Item(Some(other), item.attribute));
    }

    method GreaterThanOrEqualToConstant(amount: real) returns (editable: ConstraintDescription)
      modifies this`relation, this`constant
      ensures editable == this
      ensures State() == Apply(old(State()), Relate(ConstraintRelation.GreaterThanOrEqual, ToConstant(amount)))
    {
      relation := ConstraintRelation.GreaterThanOrEqual;
      constant := amount;
      editable := this;
    }

    method Offset(amount: real) returns (editable: ConstraintDescription)
      modifies this`constant
      ensures editable == this
      ensures State() == Apply(old(State()), Call.Offset(amount))
    {
      constant := amount;
      editable := this;
    }

    method Inset(amount: real) returns (editable: ConstraintDescription)
      modifies this`constant
      ensures editable == this
      ensures State() == Apply(old(State()), Call.Inset(amount))
    {
      constant := amount;
      editable := this;
    }

    method MultipliedBy(amount: real) returns (editable: ConstraintDescription)
      modifies this`multiplier
      ensures editable == this
      ensures State() == Apply(old(State()), Call.MultipliedBy(amount))
    {
      multiplier := amount;
      editable := this;
    }

    /** The caller must not pass zero: the source divides without a check. */
    method DividedBy(amount: real) returns (editable: ConstraintDescription)
      requires amount != 0.0
      modifies this`multiplier
      ensures editable == this
      ensures State() == Apply(old(State()), Call.DividedBy(amount))
    {
      multiplier := 1.0 / amount;
      editable := this;
    }

    method Priority(value: real) returns (editable: ConstraintDescription)
      modifies this`priorityValue
      ensures editable == this
      ensures State() == Apply(old(State()), Call.Priority(value))
    {
      priorityValue := value;
      editable := this;
    }

    method PriorityLevel(level: LayoutPriority) returns (editable: ConstraintDescription)
      modifies this`priorityValue
      ensures editable == this
      ensures State() == Apply(old(State()), Call.PriorityLevel(level))
    {
      priorityValue := level.rawValue;
      editable := this;
    }

    /**
     * `makeConstraint`: build the record and cache it in `constraint`. When
     * the subject has expired nothing is built and the cache is left as it was.
     */
    method MakeConstraint(live: set<Box>, platform: Platform) returns (c: Option<Constraint>)
      modifies this`constraint
      ensures c == Build(State(), live, platform)
      ensures constraint == if c.Some? then c else old(constraint)
    {
      if !(item.target.Some? && item.target.value in live) {
        return Option.None;
      }
      var fromView := item.target.value;
      var toView: Option<Box> := Option.None;
      var toAttribute := NotAnAttribute;
      if toItem.Some? {
        if toItem.value.target.Some? && toItem.value.target.value in live {
          toView := toItem.value.target;
        }
        toAttribute := LayoutAttributeOf(toItem.value.attribute, platform.family);
      }
      var built := Constraint(
        fromView,
        LayoutAttributeOf(item.attribute, platform.family),
        LayoutRelationOf(relation),
        toView,
        toAttribute,
        multiplier,
        constant,
        priorityValue);
      constraint := Some(built);
      c := Some(built);
    }
  }

  /*
   * What the chainable calls promise.
   */

  /** A relation call with an item sets exactly the relation and the target. */
  lemma RelateToItemSetsRelationAndTarget(d: Draft, r: ConstraintRelation, other: Item)
    ensures var e := Apply(d, Relate(r, ToItem(other)));
      e.relation == r && e.toItem == Some(other) &&
      e.item == d.item && e.constant == d.constant &&
      e.multiplier == d.multiplier && e.priority == d.priority
  {
  }

  /** The view form is sugar: target the view, at the subject's own attribute. */
  lemma RelateToViewIsSugar(d: Draft, r: ConstraintRelation, view: Box)
    ensures Apply(d, Relate(r, ToView(view))) == Apply(d, Relate(r, ToItem(Item(Some(view), d.item.attribute))))
  {
  }

  /**
   * The constant form sets the relation and the constant and keeps any
   * target set earlier, so `equalTo(item)` followed by `equalTo(10)` still
   * relates to that item.
   */
  lemma RelateToConstantKeepsTarget(d: Draft, r: ConstraintRelation, k: real)
    ensures var e := Apply(d, Relate(r, ToConstant(k)));
      e.relation == r && e.constant == k && e.toItem == d.toItem &&
      e.item == d.item && e.multiplier == d.multiplier && e.priority == d.priority
  {
  }

  /** `offset` and `inset` are the same call: each overwrites only the constant. */
  lemma OffsetIsInset(d: Draft, k: real)
    ensures Apply(d, Offset(k)) == Apply(d, Inset(k))
    ensures Apply(d, Offset(k)) == d.(constant := k)
  {
  }

  /** Of two constant writes, the last one wins. */
  lemma LastConstantWins(d: Draft, first: Call, k: real)
    requires first.Offset? || first.Inset?
    ensures Apply(Apply(d, first), Inset(k)) == Apply(d, Offset(k))
    ensures Apply(Apply(d, first), Offset(k)) == Apply(d, Offset(k))
  {
  }

  /** `dividedBy(x)` is `multipliedBy(1/x)`; in particular `dividedBy(2)` is `multipliedBy(0.5)`. */
  lemma DividedByIsMultipliedByInverse(d: Draft, x: real)
    requires x != 0.0
    ensures Apply(d, DividedBy(x)) == Apply(d, MultipliedBy(1.0 / x))
    ensures Apply(d, DividedBy(2.0)) == Apply(d, MultipliedBy(0.5))
    ensures Apply(d, MultipliedBy(x)).multiplier == x
  {
  }

  /** Both priority calls set only the priority; the named form uses the level's raw value. */
  lemma PrioritySetsOnlyPriority(d: Draft, level: LayoutPriority, platform: Platform)
    ensures Apply(d, PriorityLevel(level)) == Apply(d, Priority(level.rawValue))
    ensures Apply(d, Priority(level.rawValue)) == d.(priority := level.rawValue)
    ensures Apply(d, PriorityLevel(Medium())).priority == 500.0
    ensures Apply(d, PriorityLevel(High(platform))).priority == platform.defaultHigh
    ensures Apply(d, PriorityLevel(Low(platform))).priority == platform.defaultLow
  {
  }

  /** A chain of one call is that call. */
  lemma ApplyAllOne(d: Draft, c: Call)
    requires Callable(c)
    ensures ApplyAll(d, [c]) == Apply(d, c)
  {
    assert [c][..0] == [];
  }

  /** No chain of calls changes the subject item. */
  lemma {:induction false} ApplyAllKeepsSubject(d: Draft, calls: seq<Call>)
    requires forall c <- calls :: Callable(c)
    ensures ApplyAll(d, calls).item == d.item
    decreases |calls|
  {
    if calls != [] {
      ApplyAllKeepsSubject(d, calls[..|calls| - 1]);
    }
  }

  /** A chain without a relation call to an item or a view leaves the target as it was. */
  lemma {:induction false} ApplyAllKeepsTarget(d: Draft, calls: seq<Call>)
    requires forall c <- calls :: Callable(c)
    requires forall c <- calls :: !(c.Relate? && !c.operand.ToConstant?)
    ensures ApplyAll(d, calls).toItem == d.toItem
    decreases |calls|
  {
    if calls != [] {
      ApplyAllKeepsTarget(d, calls[..|calls| - 1]);
    }
  }

  /*
   * What finalisation promises.
   */

  /** `makeConstraint` yields nothing exactly when the subject view has expired. */
  lemma BuildNoneIffSubjectExpired(d: Draft, live: set<Box>, platform: Platform)
    ensures Build(d, live, platform).None? <==> !Alive(d.item.target, live)
  {
  }

  /** A built record copies the subject and every numeric field of the description. */
  lemma BuildCopiesFields(d: Draft, live: set<Box>, platform: Platform)
    requires Build(d, live, platform).Some?
    ensures var c := Build(d, live, platform).value;
      Some(c.firstItem) == d.item.target &&
      c.firstAttribute == LayoutAttributeOf(d.item.attribute, platform.family) &&
      c.relation == LayoutRelationOf(d.relation) &&
      c.multiplier == d.multiplier && c.constant == d.constant && c.priority == d.priority
  {
  }

  /**
   * The second attribute is `notAnAttribute` exactly when there is no target
   * item or the target item is a `.none` placeholder; a second item is
   * present exactly when the target's view is alive.
   */
  lemma BuildSecondOperand(d: Draft, live: set<Box>, platform: Platform)
    requires Build(d, live, platform).Some?
    ensures var c := Build(d, live, platform).value;
      (c.secondAttribute == NotAnAttribute <==> d.toItem.None? || d.toItem.value.attribute == ConstraintAttribute.None) &&
      (c.secondItem.Some? <==> d.toItem.Some? && Alive(d.toItem.value.target, live)) &&
      (c.secondItem.Some? ==> Some(c.secondItem.value) == d.toItem.value.target)
  {
    var c := Build(d, live, platform).value;
    if d.toItem.Some? {
      NotAnAttributeOnlyFromNone(d.toItem.value.attribute, platform.family);
    }
  }

  /**
   * A target whose view has expired still lends its attribute: the record
   * has no second item but a real second attribute.
   */
  lemma BuildWithExpiredTarget(d: Draft, live: set<Box>, platform: Platform)
    requires Alive(d.item.target, live)
    requires d.toItem.Some? && !Alive(d.toItem.value.target, live)
    requires d.toItem.value.attribute != ConstraintAttribute.None
    ensures Build(d, live, platform).Some?
    ensures Build(d, live, platform).value.secondItem.None?
    ensures Build(d, live, platform).value.secondAttribute != NotAnAttribute
  {
    NotAnAttributeOnlyFromNone(d.toItem.value.attribute, platform.family);
  }

  /**
   * A fresh description left unconfigured finalises as "attribute = 0" at
   * required priority, with no second operand.
   */
  lemma BuildFresh(item: Item, live: set<Box>, platform: Platform)
    requires Alive(item.target, live) && item.attribute != ConstraintAttribute.None
    ensures var c := Build(Fresh(item), live, platform);
      c.Some? && c.value.relation == LayoutRelation.Equal && c.value.secondItem.None? &&
      c.value.secondAttribute == NotAnAttribute && c.value.constant == 0.0 &&
      c.value.multiplier == 1.0 && c.value.priority == 1000.0
  {
  }
}
