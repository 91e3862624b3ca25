/*
 * The vocabulary of the external layout engine (UIKit/AppKit), as the DSL
 * sees it: boxes (views) by identity, the engine's attribute and relation
 * identifiers, finished constraint records and the platform's priority
 * constants. Nothing here solves constraints; the engine is only the place
 * records are handed to.
 */
module LayoutEngine {

  datatype Option<T> = None | Some(value: T)

  /** A view, identified by id. The tree and liveness live in ViewTree. */
  type Box = nat

  /** NSLayoutConstraint.Attribute: the engine's attribute identifiers. */
  datatype LayoutAttribute =
    | Left | Top | Right | Bottom | Leading | Trailing
    | Width | Height | CenterX | CenterY | LastBaseline | FirstBaseline
    | LeftMargin | RightMargin | TopMargin | BottomMargin
    | LeadingMargin | TrailingMargin | CenterXWithinMargins | CenterYWithinMargins
    | NotAnAttribute

  /** NSLayoutConstraint.Relation. */
  datatype LayoutRelation = Equal | LessThanOrEqual | GreaterThanOrEqual

  /**
   * A finished NSLayoutConstraint: firstItem.firstAttribute (relation)
   * secondItem.secondAttribute * multiplier + constant, at a priority.
   * A record is immutable once built.
   */
  datatype Constraint = Constraint(
    firstItem: Box,
    firstAttribute: LayoutAttribute,
    relation: LayoutRelation,
    secondItem: Option<Box>,
    secondAttribute: LayoutAttribute,
    multiplier: real,
    constant: real,
    priority: real)

  /** True when the record names `view` as its first or its second item. */
  predicate Mentions(c: Constraint, view: Box) {
    c.firstItem == view || c.secondItem == Some(view)
  }

  /** The two platform families the source compiles for. */
  datatype Family =
    | UIKit   // iOS and tvOS
    | AppKit  // macOS

  /**
   * A platform: its family and the raw values of its `defaultHigh` and
   * `defaultLow` priorities, which the engine defines and the DSL only
   * forwards.
   */
  datatype Platform = Platform(family: Family, defaultHigh: real, defaultLow: real)

  /** UILayoutPriority / NSLayoutConstraint.Priority: a wrapped Float. */
  datatype LayoutPriority = LayoutPriority(rawValue: real)

  /** The priority every description starts with ("required"). */
  const RequiredPriority: real := 1000.0

  /** LayoutPriority.high: the platform's `defaultHigh`. */
  function High(platform: Platform): LayoutPriority {
    LayoutPriority(platform.defaultHigh)
  }

  /** LayoutPriority.medium: fixed at 500 on every platform. */
  function Medium(): LayoutPriority {
    LayoutPriority(500.0)
  }

  /** LayoutPriority.low: the platform's `defaultLow`. */
  function Low(platform: Platform): LayoutPriority {
    LayoutPriority(platform.defaultLow)
  }
}
