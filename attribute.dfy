/*
 * The DSL's addressable attributes and their mapping onto the engine's
 * attribute identifiers (ConstraintAttribute.swift). The mapping has two
 * variants chosen at compile time: on iOS/tvOS every margin attribute maps
 * to the engine's margin attribute of the same name; on macOS, which has no
 * margin attributes, each collapses onto its base attribute.
 */
module ConstraintAttributes {
  import opened LayoutEngine

  datatype ConstraintAttribute =
    | Left | Top | Right | Bottom | Leading | Trailing
    | Width | Height | CenterX | CenterY | LastBaseline | FirstBaseline
    | LeftMargin | RightMargin | TopMargin | BottomMargin
    | LeadingMargin | TrailingMargin | CenterXWithinMargins | CenterYWithinMargins
    | None  // the placeholder returned by composite accessors
  {
    /** One of the twelve attributes that exist on both platforms. */
    predicate IsPrimitive() {
      Left? || Top? || Right? || Bottom? || Leading? || Trailing? ||
      Width? || Height? || CenterX? || CenterY? || LastBaseline? || FirstBaseline?
    }

    /** One of the eight margin-relative variants. */
    predicate IsMargin() {
      LeftMargin? || RightMargin? || TopMargin? || BottomMargin? ||
      LeadingMargin? || TrailingMargin? || CenterXWithinMargins? || CenterYWithinMargins?
    }
  }

  /** `layoutAttribute`, in the variant compiled for `family`. */
  function LayoutAttributeOf(a: ConstraintAttribute, family: Family): (l: LayoutAttribute)
    ensures l == NotAnAttribute <==> a == ConstraintAttribute.None
    ensures family == UIKit ==> AttributeFromLayout(l) == a
    ensures family == AppKit ==> AttributeFromLayout(l) == Base(a)
  {
    match a
    case Left => LayoutAttribute.Left
    case Top => LayoutAttribute.Top
    case Right => LayoutAttribute.Right
    case Bottom => LayoutAttribute.Bottom
    case Leading => LayoutAttribute.Leading
    case Trailing => LayoutAttribute.Trailing
    case Width => LayoutAttribute.Width
    case Height => LayoutAttribute.Height
    case CenterX => LayoutAttribute.CenterX
    case CenterY => LayoutAttribute.CenterY
    case LastBaseline => LayoutAttribute.LastBaseline
    case FirstBaseline => LayoutAttribute.FirstBaseline
    case LeftMargin =>
      if family == UIKit then LayoutAttribute.LeftMargin else LayoutAttribute.Left
    case RightMargin =>
      if family == UIKit then LayoutAttribute.RightMargin else LayoutAttribute.Right
    case TopMargin =>
      if family == UIKit then LayoutAttribute.TopMargin else LayoutAttribute.Top
    case BottomMargin =>
      if family == UIKit then LayoutAttribute.BottomMargin else LayoutAttribute.Bottom
    case LeadingMargin =>
      if family == UIKit then LayoutAttribute.LeadingMargin else LayoutAttribute.Leading
    case TrailingMargin =>
      if family == UIKit then LayoutAttribute.TrailingMargin else LayoutAttribute.Trailing
    case CenterXWithinMargins =>
      if family == UIKit then LayoutAttribute.CenterXWithinMargins else LayoutAttribute.CenterX
    case CenterYWithinMargins =>
      if family == UIKit then LayoutAttribute.CenterYWithinMargins else LayoutAttribute.CenterY
    case None => NotAnAttribute
  }

  /**
   * The attribute a margin variant is relative to; every other attribute is
   * its own base. Defined independently of the engine mapping.
   */
  function Base(a: ConstraintAttribute): (b: ConstraintAttribute)
    ensures !b.IsMargin()
    ensures a.IsPrimitive() || a.None? ==> b == a
  {
    match a
    case LeftMargin => ConstraintAttribute.Left
    case RightMargin => ConstraintAttribute.Right
    case TopMargin => ConstraintAttribute.Top
    case BottomMargin => ConstraintAttribute.Bottom
    case LeadingMargin => ConstraintAttribute.Leading
    case TrailingMargin => ConstraintAttribute.Trailing
    case CenterXWithinMargins => ConstraintAttribute.CenterX
    case CenterYWithinMargins => ConstraintAttribute.CenterY
    case _ => a
  }

  /** Reading an engine attribute back into the DSL's vocabulary. */
  function AttributeFromLayout(l: LayoutAttribute): ConstraintAttribute {
    match l
    case Left => ConstraintAttribute.Left
    case Top => ConstraintAttribute.Top
    case Right => ConstraintAttribute.Right
    case Bottom => ConstraintAttribute.Bottom
    case Leading => ConstraintAttribute.Leading
    case Trailing => ConstraintAttribute.Trailing
    case Width => ConstraintAttribute.Width
    case Height => ConstraintAttribute.Height
    case CenterX => ConstraintAttribute.CenterX
    case CenterY => ConstraintAttribute.CenterY
    case LastBaseline => ConstraintAttribute.LastBaseline
    case FirstBaseline => ConstraintAttribute.FirstBaseline
    case LeftMargin => ConstraintAttribute.LeftMargin
    case RightMargin => ConstraintAttribute.RightMargin
    case TopMargin => ConstraintAttribute.TopMargin
    case BottomMargin => ConstraintAttribute.BottomMargin
    case LeadingMargin => ConstraintAttribute.LeadingMargin
    case TrailingMargin => ConstraintAttribute.TrailingMargin
    case CenterXWithinMargins => ConstraintAttribute.CenterXWithinMargins
    case CenterYWithinMargins => ConstraintAttribute.CenterYWithinMargins
    case NotAnAttribute => ConstraintAttribute.None
  }

  /** `.none` is the one attribute that becomes `notAnAttribute`, on every platform. */
  lemma NotAnAttributeOnlyFromNone(a: ConstraintAttribute, family: Family)
    ensures LayoutAttributeOf(a, family) == NotAnAttribute <==> a == ConstraintAttribute.None
  {
  }

  /**
   * The twelve primitive attributes map the same way on both platforms, and
   * to the engine attribute that reads back as themselves.
   */
  lemma PrimitiveMappingIsPlatformFree(a: ConstraintAttribute)
    requires a.IsPrimitive()
    ensures LayoutAttributeOf(a, UIKit) == LayoutAttributeOf(a, AppKit)
    ensures AttributeFromLayout(LayoutAttributeOf(a, AppKit)) == a
  {
  }

  /**
   * On iOS/tvOS the mapping is a bijection onto the engine's attributes:
   * reading back undoes it in both directions, so it is injective.
   */
  lemma UIKitMappingRoundTrip(a: ConstraintAttribute, l: LayoutAttribute)
    ensures AttributeFromLayout(LayoutAttributeOf(a, UIKit)) == a
    ensures LayoutAttributeOf(AttributeFromLayout(l), UIKit) == l
  {
  }

  lemma UIKitMappingInjective(a: ConstraintAttribute, b: ConstraintAttribute)
    ensures LayoutAttributeOf(a, UIKit) == LayoutAttributeOf(b, UIKit) <==> a == b
  {
    UIKitMappingRoundTrip(a, NotAnAttribute);
    UIKitMappingRoundTrip(b, NotAnAttribute);
  }

  /**
   * On macOS each attribute maps as its base attribute does, so a margin
   * variant and its base reach the same engine attribute (`leftMargin` and
   * `left` both give `left`), and no margin engine attribute is ever produced.
   */
  lemma AppKitCollapsesMargins(a: ConstraintAttribute)
    ensures LayoutAttributeOf(a, AppKit) == LayoutAttributeOf(Base(a), AppKit)
    ensures LayoutAttributeOf(a, AppKit) == LayoutAttributeOf(Base(a), UIKit)
    ensures !AttributeFromLayout(LayoutAttributeOf(a, AppKit)).IsMargin()
    ensures a.IsMargin() ==> LayoutAttributeOf(a, AppKit) != LayoutAttributeOf(a, UIKit)
  {
  }
}
