# WayneKit constraint DSL, modelled in Dafny

WayneKit is a Swift DSL for declaring Auto Layout constraints:

```swift
view.makeConstraints { make in
    make.top.equalTo(container).offset(10)
    make.width.equalTo(80)
}
```

This project models the part of the library that has its own logic, and it
proves properties of that model. The layout engine itself is abstract here.

- **Descriptions.** A `ConstraintDescription` is a mutable builder of one
  constraint. Its chainable calls update its fields in place, and
  `makeConstraint` turns it into an engine record.
- **The maker.** A `ConstraintMaker` is an append-only list of descriptions.
  - Its accessors append one description each.
  - `edges`, `size` and `center` append several descriptions. Each returns a
    `.none` placeholder that is not in the list.
  - `install` builds every description. It adds each record to the view it
    belongs to.
- **Placement.** A record that names no second view belongs to the subject
  view. Otherwise it belongs to the lowest common ancestor of the two views,
  which `commonSuperview` finds by walking up from the subject. When the
  views share no ancestor, the record is dropped.
- **Lifecycle.**
  - `makeConstraints` opts the view out of autoresizing-mask translation,
    runs the closure, installs and returns the records.
  - `updateConstraints` is the same call.
  - `remakeConstraints` first runs `removeConstraints`. That call removes
    every record naming the view from the view's own list and from its
    superview's list.
- **Mapping tables.** Attributes and relations map onto the engine's
  identifiers. There are two attribute variants, one for iOS/tvOS and one
  for macOS.
- **Insets.** Two convenience initialisers of `ConstraintInsets`.

How the engine is represented:

- A view is a `Box` (a `nat`).
- The view tree is a `superview` map. A ghost `rank` map witnesses that the
  tree has no cycles.
- `view.constraints` is a store `map<Box, seq<Constraint>>`.
- Weak references are modelled by a set of live views. A reference to a view
  outside the set reads as nil.
- `translatesAutoresizingMaskIntoConstraints` is the set of views for which
  it is still true.

All of this world state is held by the class `ViewTree.Hierarchy`. The
caller's closure is modelled as a list of statements. Each statement names an
accessor and a chain of calls on the description that the accessor returns.
`Lifecycle.RunClosure` runs the statements through the real maker and
description methods.

Each stateful operation is proved against a function on values:

| operation | function it is proved against |
|---|---|
| description calls | `Descriptions.Apply` and `ApplyAll` |
| `makeConstraint` | `Descriptions.Build` |
| `install` | `Makers.Builds`, then `Makers.Installed` |
| `removeConstraints` | `ViewTree.Removed` |
| closure | `Lifecycle.Expand` |

The lemmas are stated about those functions.

Files and modules:

| file | module | source |
|---|---|---|
| `engine.dfy` | `LayoutEngine` | engine vocabulary |
| `relation.dfy` | `ConstraintRelations` | `ConstraintRelation.swift` |
| `attribute.dfy` | `ConstraintAttributes` | `ConstraintAttribute.swift` |
| `insets.dfy` | `ConstraintInsets` | `ConstraintInsets.swift` |
| `description.dfy` | `Descriptions` | `ConstraintDescription.swift`, `ConstraintItem.swift` |
| `tree.dfy` | `ViewTree` | the tree part of `ConstraintView+Extensions.swift` |
| `maker.dfy` | `Makers` | `ConstraintMaker.swift` |
| `lifecycle.dfy` | `Lifecycle` | the make/update/remake part of `ConstraintView+Extensions.swift` |

Three behaviours of the code differ from what a reader of the API might
expect. The model follows the code in each:

- **What `makeConstraints` returns.** One might expect the records that were
  actually installed. The code returns every description's cached record
  (`compactMap { $0.constraint }`). That includes records that `install`
  dropped because the two views share no ancestor (`Lifecycle.MadeRecords`).
- **What `edges` builds.** One might expect `make.edges.equalTo(other)` to
  relate four edges to `other`. In the code, the chain is applied to the
  placeholder, so it is lost. The four listed descriptions stay
  unconfigured, and each is finalised as "attribute == 0" with no second
  view (`Lifecycle.EdgesBuildsZeroRecords`).
- **Expired targets.** One might expect a description whose target view has
  expired to be dropped. In the code, only an expired *subject* drops the
  description. An expired target still gives a record. That record has no
  second item but keeps the target's attribute
  (`Descriptions.BuildWithExpiredTarget`).

In the `edges` case, and in the expired-target case when the attribute is a
location, the record relates a location attribute to a constant with no
second item. So does `make.top.equalTo(10)`. The engine rejects such a record when it
is created, so the program stops there. The model does not check this: it
finalises and installs the record like any other (see "## Left out"). The
same holds for a location attribute given a multiplier of 0.

## Model

| member | source | states |
|---|---|---|
| LayoutEngine.High | Sources/WayneKit/LayoutPriority.swift:14-16 | defines `.high` as the platform's `defaultHigh`, given as a parameter; its use is stated by `Descriptions.PrioritySetsOnlyPriority` |
| LayoutEngine.Medium | Sources/WayneKit/LayoutPriority.swift:18-20 | defines `.medium` as raw value 500 |
| LayoutEngine.Low | Sources/WayneKit/LayoutPriority.swift:22-24 | defines `.low` as the platform's `defaultLow` |
| ConstraintRelations.LayoutRelationOf | Sources/WayneKit/ConstraintRelation.swift:20-29 | `layoutRelation`; the reverse table reads its result back to the relation it came from |
| ConstraintRelations.LayoutRelationCases | Sources/WayneKit/ConstraintRelation.swift:20-29 | equal, lessThanOrEqual and greaterThanOrEqual map to the engine relation of the same name |
| ConstraintRelations.LayoutRelationRoundTrip | Sources/WayneKit/ConstraintRelation.swift:20-29 | the relation table is a bijection: reading an engine relation back undoes it in both directions |
| ConstraintRelations.LayoutRelationInjective | Sources/WayneKit/ConstraintRelation.swift:20-29 | two DSL relations map to the same engine relation if and only if they are equal |
| ConstraintAttributes.LayoutAttributeOf | Sources/WayneKit/ConstraintAttribute.swift:40-117 | `layoutAttribute`: the result is `notAnAttribute` exactly for `.none`; on iOS/tvOS the reverse table reads it back to the attribute itself, on macOS to the attribute's base (margins collapse) |
| ConstraintAttributes.Base | Sources/WayneKit/ConstraintAttribute.swift:66-113 | the base attribute of a margin variant is never a margin, and primitives and `.none` are their own base |
| ConstraintAttributes.NotAnAttributeOnlyFromNone | Sources/WayneKit/ConstraintAttribute.swift:40-117 | on either platform, an attribute maps to `notAnAttribute` if and only if it is `.none` |
| ConstraintAttributes.PrimitiveMappingIsPlatformFree | Sources/WayneKit/ConstraintAttribute.swift:42-65 | the twelve primitive attributes map the same way on both platforms, onto the engine attribute of the same name |
| ConstraintAttributes.UIKitMappingRoundTrip | Sources/WayneKit/ConstraintAttribute.swift:40-117 | on iOS/tvOS the mapping is a bijection onto the engine attributes, including each margin variant onto the margin attribute of the same name |
| ConstraintAttributes.UIKitMappingInjective | Sources/WayneKit/ConstraintAttribute.swift:66-113 | on iOS/tvOS two attributes map to the same engine attribute if and only if they are equal |
| ConstraintAttributes.AppKitCollapsesMargins | Sources/WayneKit/ConstraintAttribute.swift:66-113 | on macOS every margin variant maps as its base attribute does (`leftMargin` to `left`, …), no margin engine attribute is produced, and each margin variant maps differently than on iOS |
| ConstraintInsets.Uniform | Sources/WayneKit/ConstraintInsets.swift:22-24 | `init(inset: x)` sets all four sides to x |
| ConstraintInsets.Symmetric | Sources/WayneKit/ConstraintInsets.swift:26-28 | `init(horizontal: h, vertical: v)` sets top = bottom = v and left = right = h |
| ConstraintInsets.SymmetricIsUniform | Sources/WayneKit/ConstraintInsets.swift:22-28 | `init(horizontal: h, vertical: v)` equals `init(inset: h)` if and only if h = v |
| Descriptions.Apply | Sources/WayneKit/ConstraintDescription.swift:31-124 | defines the effect of one chain call on a description's fields; the methods are proved against it and its properties are the lemmas below |
| Descriptions.ApplyAll | Sources/WayneKit/ConstraintDescription.swift:31-124 | defines the effect of a chain of calls, applied left to right |
| Descriptions.Build | Sources/WayneKit/ConstraintDescription.swift:128-150 | defines `makeConstraint`'s record: nothing for an expired subject, otherwise the fields with the mapped attributes and relation, and the target view when it is alive |
| Descriptions.ConstraintDescription.constructor | Sources/WayneKit/ConstraintDescription.swift:17-27 | a new description keeps the given item and has no target, relation equal, constant 0, multiplier 1, priority 1000 and no cached record |
| Descriptions.ConstraintDescription.EqualTo | Sources/WayneKit/ConstraintDescription.swift:32-36 | `equalTo(item)` moves the fields as the `Apply` of that call does and returns the description itself |
| Descriptions.ConstraintDescription.EqualToView | Sources/WayneKit/ConstraintDescription.swift:39-41 | `equalTo(view)` moves the fields as the `Apply` of the view form does |
| Descriptions.ConstraintDescription.EqualToConstant | Sources/WayneKit/ConstraintDescription.swift:44-48 | `equalTo(k)` changes only relation and constant, as the `Apply` of the constant form does |
| Descriptions.ConstraintDescription.LessThanOrEqualTo | Sources/WayneKit/ConstraintDescription.swift:51-55 | the item form with relation lessThanOrEqual |
| Descriptions.ConstraintDescription.LessThanOrEqualToView | Sources/WayneKit/ConstraintDescription.swift:58-60 | the view form with relation lessThanOrEqual |
| Descriptions.ConstraintDescription.LessThanOrEqualToConstant | Sources/WayneKit/ConstraintDescription.swift:63-67 | the constant form with relation lessThanOrEqual |
| Descriptions.ConstraintDescription.GreaterThanOrEqualTo | Sources/WayneKit/ConstraintDescription.swift:70-74 | the item form with relation greaterThanOrEqual |
| Descriptions.ConstraintDescription.GreaterThanOrEqualToView | Sources/WayneKit/ConstraintDescription.swift:77-79 | the view form with relation greaterThanOrEqual |
| Descriptions.ConstraintDescription.GreaterThanOrEqualToConstant | Sources/WayneKit/ConstraintDescription.swift:82-86 | the constant form with relation greaterThanOrEqual |
| Descriptions.ConstraintDescription.Offset | Sources/WayneKit/ConstraintDescription.swift:91-94 | `offset` changes only the constant |
| Descriptions.ConstraintDescription.Inset | Sources/WayneKit/ConstraintDescription.swift:97-100 | `inset` changes only the constant |
| Descriptions.ConstraintDescription.MultipliedBy | Sources/WayneKit/ConstraintDescription.swift:103-106 | `multipliedBy(x)` changes only the multiplier |
| Descriptions.ConstraintDescription.DividedBy | Sources/WayneKit/ConstraintDescription.swift:109-112 | `dividedBy(x)`, for x ≠ 0, changes only the multiplier, to 1/x |
| Descriptions.ConstraintDescription.Priority | Sources/WayneKit/ConstraintDescription.swift:115-118 | `priority(Float)` changes only the priority |
| Descriptions.ConstraintDescription.PriorityLevel | Sources/WayneKit/ConstraintDescription.swift:121-124 | `priority(LayoutPriority)` changes only the priority, to the level's raw value |
| Descriptions.ConstraintDescription.MakeConstraint | Sources/WayneKit/ConstraintDescription.swift:128-150 | the result is `Build` of the fields; the cache holds it when it is a record and is left as it was otherwise |
| Descriptions.RelateToItemSetsRelationAndTarget | Sources/WayneKit/ConstraintDescription.swift:32-36 | a relation call with an item sets exactly the relation and the target; subject, constant, multiplier and priority are kept |
| Descriptions.RelateToViewIsSugar | Sources/WayneKit/ConstraintDescription.swift:39-41 | the view form equals the item form with the given view at the subject's own attribute |
| Descriptions.RelateToConstantKeepsTarget | Sources/WayneKit/ConstraintDescription.swift:44-48 | the constant form sets relation and constant and leaves an earlier target in place |
| Descriptions.OffsetIsInset | Sources/WayneKit/ConstraintDescription.swift:91-100 | `offset(k)` and `inset(k)` are the same update, which overwrites only the constant |
| Descriptions.LastConstantWins | Sources/WayneKit/ConstraintDescription.swift:91-100 | of two constant writes, only the last one counts |
| Descriptions.DividedByIsMultipliedByInverse | Sources/WayneKit/ConstraintDescription.swift:103-112 | `dividedBy(x)` equals `multipliedBy(1/x)`, so `dividedBy(2)` equals `multipliedBy(0.5)` |
| Descriptions.PrioritySetsOnlyPriority | Sources/WayneKit/ConstraintDescription.swift:115-124 | both priority calls set only the priority, and the named form uses the level's raw value: 500 for medium and the platform's defaultHigh / defaultLow for high / low |
| Descriptions.ApplyAllOne | Sources/WayneKit/ConstraintDescription.swift:31-124 | a chain of one call is that call |
| Descriptions.ApplyAllKeepsSubject | Sources/WayneKit/ConstraintDescription.swift:31-124 | no chain of calls changes the subject item |
| Descriptions.ApplyAllKeepsTarget | Sources/WayneKit/ConstraintDescription.swift:44-48 | a chain with no item or view relation call leaves the target as it was |
| Descriptions.BuildNoneIffSubjectExpired | Sources/WayneKit/ConstraintDescription.swift:129-131 | finalising yields nothing if and only if the subject view has expired |
| Descriptions.BuildCopiesFields | Sources/WayneKit/ConstraintDescription.swift:136-146 | a built record copies the subject view, the mapped subject attribute and relation, the multiplier, the constant and the priority |
| Descriptions.BuildSecondOperand | Sources/WayneKit/ConstraintDescription.swift:133-141 | the second attribute is `notAnAttribute` if and only if there is no target or the target is `.none`; a second item is present if and only if the target view is alive, and it is that view |
| Descriptions.BuildWithExpiredTarget | Sources/WayneKit/ConstraintDescription.swift:133-134 | an expired target still yields a record, with no second item but a real second attribute |
| Descriptions.BuildFresh | Sources/WayneKit/ConstraintDescription.swift:17-27 | an unconfigured description builds "attribute == 0" at multiplier 1 and priority 1000, with no second operand |
| ViewTree.IsDescendant | Sources/WayneKit/ConstraintView+Extensions.swift:119 | defines `isDescendant(of:)` as ancestor-or-self in the superview tree |
| ViewTree.CommonFrom | Sources/WayneKit/ConstraintView+Extensions.swift:116-125 | defines the upward walk of `commonSuperview`; its meaning is stated by `CommonSuperviewIsLowestCommonAncestor` |
| ViewTree.Removed | Sources/WayneKit/ConstraintView+Extensions.swift:47-62 | defines the stores after `removeConstraints`; its meaning is stated by `RemovedSpec` |
| ViewTree.WayneLeft | Sources/WayneKit/ConstraintView+Extensions.swift:66-68 | `wayne_left`: the item of this view at `.left` |
| ViewTree.WayneTop | Sources/WayneKit/ConstraintView+Extensions.swift:70-72 | `wayne_top`: the item of this view at `.top` |
| ViewTree.WayneRight | Sources/WayneKit/ConstraintView+Extensions.swift:74-76 | `wayne_right`: the item of this view at `.right` |
| ViewTree.WayneBottom | Sources/WayneKit/ConstraintView+Extensions.swift:78-80 | `wayne_bottom`: the item of this view at `.bottom` |
| ViewTree.WayneLeading | Sources/WayneKit/ConstraintView+Extensions.swift:82-84 | `wayne_leading`: the item of this view at `.leading` |
| ViewTree.WayneTrailing | Sources/WayneKit/ConstraintView+Extensions.swift:86-88 | `wayne_trailing`: the item of this view at `.trailing` |
| ViewTree.WayneWidth | Sources/WayneKit/ConstraintView+Extensions.swift:90-92 | `wayne_width`: the item of this view at `.width` |
| ViewTree.WayneHeight | Sources/WayneKit/ConstraintView+Extensions.swift:94-96 | `wayne_height`: the item of this view at `.height` |
| ViewTree.WayneCenterX | Sources/WayneKit/ConstraintView+Extensions.swift:98-100 | `wayne_centerX`: the item of this view at `.centerX` |
| ViewTree.WayneCenterY | Sources/WayneKit/ConstraintView+Extensions.swift:102-104 | `wayne_centerY`: the item of this view at `.centerY` |
| ViewTree.WayneLastBaseline | Sources/WayneKit/ConstraintView+Extensions.swift:106-108 | `wayne_lastBaseline`: the item of this view at `.lastBaseline` |
| ViewTree.WayneFirstBaseline | Sources/WayneKit/ConstraintView+Extensions.swift:110-112 | `wayne_firstBaseline`: the item of this view at `.firstBaseline` |
| ViewTree.WayneItem | Sources/WayneKit/ConstraintView+Extensions.swift:66-112 | selects the `wayne_*` item named by a primitive attribute; stated by `WayneItemTargetsSelf` |
| ViewTree.DescendantTransitive | Sources/WayneKit/ConstraintView+Extensions.swift:119 | `isDescendant(of:)` is transitive |
| ViewTree.DescendantDepth | Sources/WayneKit/ConstraintView+Extensions.swift:119-122 | a proper ancestor is strictly closer to the root |
| ViewTree.DescendantAntisymmetric | Sources/WayneKit/ConstraintView+Extensions.swift:119 | two views that are each other's descendants are the same view |
| ViewTree.CommonFromSound | Sources/WayneKit/ConstraintView+Extensions.swift:117-124 | whatever the upward walk returns is an ancestor-or-self of both its start and the other view |
| ViewTree.CommonFromLowest | Sources/WayneKit/ConstraintView+Extensions.swift:117-124 | if some view is above both, the walk finds a view that is below it |
| ViewTree.CommonSuperviewIsLowestCommonAncestor | Sources/WayneKit/ConstraintView+Extensions.swift:116-125 | the walk from the subject returns the lowest common ancestor, returns nil if and only if the views share no ancestor, and returns the subject when the other view is the subject or below it |
| ViewTree.CommonSuperviewSymmetric | Sources/WayneKit/ConstraintView+Extensions.swift:116-125 | walking up from either view gives the same result |
| ViewTree.UnrelatedMembers | Sources/WayneKit/ConstraintView+Extensions.swift:48-51 | the filter keeps exactly the records that do not name the view, never grows the list, and keeps a list that names the view nowhere unchanged |
| ViewTree.UnrelatedIdempotent | Sources/WayneKit/ConstraintView+Extensions.swift:48-51 | filtering twice is filtering once |
| ViewTree.UnrelatedAppend | Sources/WayneKit/ConstraintView+Extensions.swift:48-51 | the filter works list piece by list piece |
| ViewTree.RemovedSpec | Sources/WayneKit/ConstraintView+Extensions.swift:47-62 | after removal, no record in the view's or its superview's list names the view; every record there that does not name it stays, in order; every other list is unchanged |
| ViewTree.WayneItemTargetsSelf | Sources/WayneKit/ConstraintView+Extensions.swift:66-112 | each `wayne_*` item has target self and the attribute of the same name, and relating to it is relating to the view |
| ViewTree.Hierarchy.constructor | Tests/WayneKitTests/WayneKitTests.swift:22-27 | a world of views with the given tree, platform and live set; no view holds a constraint, and every live view still translates its autoresizing mask |
| ViewTree.Hierarchy.AddConstraint | Sources/WayneKit/ConstraintMaker.swift:149 | the engine's `addConstraint` appends the record to the owner's list only |
| ViewTree.Hierarchy.CommonSuperview | Sources/WayneKit/ConstraintView+Extensions.swift:116-125 | the loop returns the lowest common ancestor of the two views, or nil exactly when they share none |
| ViewTree.Hierarchy.RemoveConstraints | Sources/WayneKit/ConstraintView+Extensions.swift:47-62 | the stores become `Removed` of the old stores: the view's own list and then its superview's list are filtered |
| Makers.Expansion | Sources/WayneKit/ConstraintMaker.swift:107-129 | a primitive accessor lists its own attribute; `edges`, `size` and `center` list two to four primitive attributes |
| Makers.FreshDrafts | Sources/WayneKit/ConstraintMaker.swift:133-138 | one unconfigured description of the view per attribute, in order |
| Makers.Builds | Sources/WayneKit/ConstraintMaker.swift:143 | defines `compactMap { $0.makeConstraint() }` over the descriptions, in order |
| Makers.Owner | Sources/WayneKit/ConstraintMaker.swift:147-153 | defines which view a record is added to: the subject when there is no second view, else their common superview, else none |
| Makers.Installed | Sources/WayneKit/ConstraintMaker.swift:145-154 | defines the stores after the install loop; its meaning is stated by `InstalledStore` and `OwnedByMembers` |
| Makers.Cached | Sources/WayneKit/ConstraintView+Extensions.swift:30 | defines `compactMap { $0.constraint }`: the cached records, in order |
| Makers.InstalledStore | Sources/WayneKit/ConstraintMaker.swift:145-154 | installing keeps every view's list and appends, in order, exactly the records that view owns |
| Makers.OwnedByMembers | Sources/WayneKit/ConstraintMaker.swift:147-153 | a view receives exactly the session records whose owner it is |
| Makers.OwnedByAppend | Sources/WayneKit/ConstraintMaker.swift:145-154 | ownership is decided record by record |
| Makers.InstallOne | Sources/WayneKit/ConstraintMaker.swift:147-153 | a record with no second view goes to the subject's list; one with a second view goes to their common superview's list, or nowhere |
| Makers.BuildsOne | Sources/WayneKit/ConstraintMaker.swift:143 | `compactMap` of one description is its record, or nothing |
| Makers.BuildsOfSubject | Sources/WayneKit/ConstraintMaker.swift:141-143 | while the view is alive, each description of it builds exactly one record, in order; once it has expired nothing is built; every record's first item is the view |
| Makers.BuildsAppend | Sources/WayneKit/ConstraintMaker.swift:143 | building distributes over concatenation |
| Makers.CachedIsBuilds | Sources/WayneKit/ConstraintView+Extensions.swift:30 | once every description has cached what it builds, the cached records are the built list |
| Makers.ConstraintMaker.constructor | Sources/WayneKit/ConstraintMaker.swift:20-23 | a new maker is empty and removes the view from the autoresizing-mask set |
| Makers.ConstraintMaker.AddConstraint | Sources/WayneKit/ConstraintMaker.swift:133-138 | appends one new unconfigured description of (view, attribute), returns it, and keeps the earlier entries |
| Makers.ConstraintMaker.Left | Sources/WayneKit/ConstraintMaker.swift:27-29 | appends exactly one new description of (view, left) and returns it |
| Makers.ConstraintMaker.Top | Sources/WayneKit/ConstraintMaker.swift:31-33 | the same for top |
| Makers.ConstraintMaker.Right | Sources/WayneKit/ConstraintMaker.swift:35-37 | the same for right |
| Makers.ConstraintMaker.Bottom | Sources/WayneKit/ConstraintMaker.swift:39-41 | the same for bottom |
| Makers.ConstraintMaker.Leading | Sources/WayneKit/ConstraintMaker.swift:43-45 | the same for leading |
| Makers.ConstraintMaker.Trailing | Sources/WayneKit/ConstraintMaker.swift:47-49 | the same for trailing |
| Makers.ConstraintMaker.Width | Sources/WayneKit/ConstraintMaker.swift:51-53 | the same for width |
| Makers.ConstraintMaker.Height | Sources/WayneKit/ConstraintMaker.swift:55-57 | the same for height |
| Makers.ConstraintMaker.CenterX | Sources/WayneKit/ConstraintMaker.swift:59-61 | the same for centerX |
| Makers.ConstraintMaker.CenterY | Sources/WayneKit/ConstraintMaker.swift:63-65 | the same for centerY |
| Makers.ConstraintMaker.LastBaseline | Sources/WayneKit/ConstraintMaker.swift:67-69 | the same for lastBaseline |
| Makers.ConstraintMaker.FirstBaseline | Sources/WayneKit/ConstraintMaker.swift:71-73 | the same for firstBaseline |
| Makers.ConstraintMaker.LeftMargin | Sources/WayneKit/ConstraintMaker.swift:75-77 | the same for leftMargin |
| Makers.ConstraintMaker.RightMargin | Sources/WayneKit/ConstraintMaker.swift:79-81 | the same for rightMargin |
| Makers.ConstraintMaker.TopMargin | Sources/WayneKit/ConstraintMaker.swift:83-85 | the same for topMargin |
| Makers.ConstraintMaker.BottomMargin | Sources/WayneKit/ConstraintMaker.swift:87-89 | the same for bottomMargin |
| Makers.ConstraintMaker.LeadingMargin | Sources/WayneKit/ConstraintMaker.swift:91-93 | the same for leadingMargin |
| Makers.ConstraintMaker.TrailingMargin | Sources/WayneKit/ConstraintMaker.swift:95-97 | the same for trailingMargin |
| Makers.ConstraintMaker.CenterXWithinMargins | Sources/WayneKit/ConstraintMaker.swift:99-101 | the same for centerXWithinMargins |
| Makers.ConstraintMaker.CenterYWithinMargins | Sources/WayneKit/ConstraintMaker.swift:103-105 | the same for centerYWithinMargins |
| Makers.ConstraintMaker.EdgesAccessor | Sources/WayneKit/ConstraintMaker.swift:107-115 | appends four new unconfigured descriptions (top, left, bottom, right, in that order) and keeps the earlier ones; returns a new `.none` placeholder that is not in the list |
| Makers.ConstraintMaker.SizeAccessor | Sources/WayneKit/ConstraintMaker.swift:117-122 | appends width then height and returns an unlisted `.none` placeholder |
| Makers.ConstraintMaker.CenterAccessor | Sources/WayneKit/ConstraintMaker.swift:124-129 | appends centerX then centerY and returns an unlisted `.none` placeholder |
| Makers.ConstraintMaker.Install | Sources/WayneKit/ConstraintMaker.swift:140-155 | nothing happens if the view has expired; otherwise each description caches what it builds, and the stores become `Installed` of the built records |
| Makers.ConstraintMaker.BuildEach | Sources/WayneKit/ConstraintMaker.swift:143 | returns `Builds` of the descriptions, in order, and caches each record built |
| Makers.ConstraintMaker.Place | Sources/WayneKit/ConstraintMaker.swift:145-154 | the loop leaves the stores equal to `Installed` of the records |
| Lifecycle.Expand | Sources/WayneKit/ConstraintView+Extensions.swift:26-31 | defines the descriptions a closure leaves in the maker's list, statement by statement; `RunClosure` is proved against it |
| Lifecycle.ExpandSnoc | Sources/WayneKit/ConstraintView+Extensions.swift:28 | running one more statement appends what that statement lists |
| Lifecycle.ExpandOne | Sources/WayneKit/ConstraintView+Extensions.swift:28 | a closure of one statement lists what that statement lists |
| Lifecycle.ExpandAppend | Sources/WayneKit/ConstraintView+Extensions.swift:28 | running two closures one after the other lists both closures' descriptions, in order |
| Lifecycle.ExpandSubjects | Sources/WayneKit/ConstraintMaker.swift:107-138 | every listed description addresses the maker's view at a real attribute; a closure lists one description per primitive statement and two or four per composite one |
| Lifecycle.CompositeChainIsInert | Sources/WayneKit/ConstraintMaker.swift:107-129 | the chain after `edges`, `size` or `center` changes nothing listed: top, left, bottom, right / width, height / centerX, centerY stay unconfigured |
| Lifecycle.Invoke | Sources/WayneKit/ConstraintDescription.swift:31-124 | running one call through the description's own method moves its fields as `Apply` does |
| Lifecycle.Chain | Sources/WayneKit/ConstraintDescription.swift:31-124 | a chain of calls moves the fields as `ApplyAll` does |
| Lifecycle.Access | Sources/WayneKit/ConstraintMaker.swift:27-105 | the accessor named after a primitive or margin attribute appends one new unconfigured description of it |
| Lifecycle.AccessComposite | Sources/WayneKit/ConstraintMaker.swift:107-129 | a composite accessor appends its expansion and returns an unlisted placeholder |
| Lifecycle.PerformPrimitive | Sources/WayneKit/ConstraintMaker.swift:27-105 | a primitive statement lists one more description, configured by its chain |
| Lifecycle.PerformComposite | Sources/WayneKit/ConstraintMaker.swift:107-129 | a composite statement lists its unconfigured expansion, whatever its chain |
| Lifecycle.Perform | Sources/WayneKit/ConstraintView+Extensions.swift:28 | one statement extends the maker's list by what it lists |
| Lifecycle.RunClosure | Sources/WayneKit/ConstraintView+Extensions.swift:27-28 | after the closure the maker's list holds exactly `Expand` of the closure, as new, unbuilt descriptions |
| Lifecycle.MakeConstraints | Sources/WayneKit/ConstraintView+Extensions.swift:26-31 | the view leaves the autoresizing-mask set; the result is every record built, in description order; the stores become `Installed` of that result |
| Lifecycle.UpdateConstraints | Sources/WayneKit/ConstraintView+Extensions.swift:35-37 | exactly the contract of `makeConstraints`: nothing is removed first |
| Lifecycle.RemakeConstraints | Sources/WayneKit/ConstraintView+Extensions.swift:41-44 | the stores become `Installed` of the new records over `Removed` of the old stores |
| Lifecycle.MadeRecords | Sources/WayneKit/ConstraintView+Extensions.swift:26-31 | while the view is alive, one record per listed description is returned, including dropped ones; none once the view has expired; each has the view as first item |
| Lifecycle.UpdateAccumulates | Sources/WayneKit/ConstraintView+Extensions.swift:35-37 | two `updateConstraints` calls leave every list as it was, then the first call's records, then the second's |
| Lifecycle.RemakeReplaces | Sources/WayneKit/ConstraintView+Extensions.swift:41-44 | after remaking, a record naming the view in its own or its superview's list is one of the new records; other records there stay; other lists only gain new records |
| Lifecycle.FreshBuilds | Sources/WayneKit/ConstraintDescription.swift:128-150 | unconfigured descriptions of a live view build one "attribute == 0" record each, in order |
| Lifecycle.EdgesBuildsZeroRecords | Sources/WayneKit/ConstraintMaker.swift:107-115 | `make.edges.<chain>` builds "top == 0", "left == 0", "bottom == 0", "right == 0", none with a second view |
| Lifecycle.EdgesFreshBuilds | Sources/WayneKit/ConstraintMaker.swift:107-115 | the four unconfigured edge descriptions build those four records |
| Lifecycle.PrimitiveBuilds | Sources/WayneKit/ConstraintView+Extensions.swift:26-31 | a one-statement closure on a live view's primitive accessor builds one record, from its configured description |
| Lifecycle.FixBuilds | Sources/WayneKit/ConstraintDescription.swift:44-48 | `make.<attribute>.equalTo(k)`, for any primitive or margin attribute, builds "attribute == k" with no second view at priority 1000 |
| Lifecycle.PinBuilds | Sources/WayneKit/ConstraintDescription.swift:39-41 | `make.<attribute>.equalTo(target).offset(k)`, for any primitive or margin attribute, builds "attribute == target.attribute + k" |
| Lifecycle.RemakeTwiceKeepsOneWidth | Sources/WayneKit/ConstraintView+Extensions.swift:41-44 | remaking `width == a` and then `width == b` leaves the view's list with its unrelated records and one width record, equal to b |
| Lifecycle.RemakeWidth | Sources/WayneKit/ConstraintView+Extensions.swift:41-44 | one remake with `width == k` leaves the view's list as its unrelated records plus that one record |
| Lifecycle.RemakeOwnRecord | Sources/WayneKit/ConstraintView+Extensions.swift:41-44 | remaking with a single record that names no second view leaves the view's list as its unrelated records plus that record |
| Lifecycle.ExpandOfFour | Sources/WayneKit/ConstraintView+Extensions.swift:28 | a four-statement closure lists what each statement lists, in order |
| Lifecycle.BuildsOfFourDrafts | Sources/WayneKit/ConstraintMaker.swift:143 | four description lists that each build one record build those four records in order |
| Lifecycle.BuildsOfFour | Sources/WayneKit/ConstraintView+Extensions.swift:26-31 | a four-statement closure whose statements each build one record builds those four records, in order |
| Lifecycle.SiblingBuilds | Tests/WayneKitTests/WayneKitTests.swift:37-42 | top pinned to the superview at 10 and a given side at a given offset, width and height fixed at a given size, build the four expected records, in order |
| Lifecycle.PinnedToSuperview | Sources/WayneKit/ConstraintMaker.swift:147-150 | a record between a child and its superview belongs to the superview |
| Lifecycle.InstallPinsAndSizes | Sources/WayneKit/ConstraintMaker.swift:145-154 | two records pinned to the superview go to the superview's list and two size records go to the child's own list; no other list changes |
| Lifecycle.OwnedPins | Sources/WayneKit/ConstraintMaker.swift:147-150 | both records pinned to the superview go to the superview |
| Lifecycle.OwnedSizes | Sources/WayneKit/ConstraintMaker.swift:151-153 | both records with no second view go to the view itself |
| Lifecycle.OwnedByPair | Sources/WayneKit/ConstraintMaker.swift:145-154 | a view receives the records of a two-record session it owns, in order |
| Lifecycle.SiblingSession | Tests/WayneKitTests/WayneKitTests.swift:37-42 | one child's session, for any side, offset and size, puts its two pinned records in the superview's list, its width and height in its own list, and changes no other list |
| Lifecycle.MakeConstraintsTest | Tests/WayneKitTests/WayneKitTests.swift:36-46 | the test's own session (top and left pinned at 10, size 100 by 100): the test view no longer translates its autoresizing mask, and the container's list is not empty, holding exactly the two pinned records |
| Lifecycle.SiblingsScenario | Sources/WayneKit/ConstraintMaker.swift:145-154 | a derived scenario, not in the tests: two siblings' sessions put the four pinned records in the superview's list, in order, and each sibling's sizes in its own list; no other list changes |

## Left out

- The engine's validation when a record is created. The engine raises when a location attribute (an edge, a centre, a baseline or a margin) is related to a constant with no second item. The four records of `edges`, `make.top.equalTo(10)`, and a location record whose target has expired are all of that kind. It also raises when a location attribute gets a multiplier of 0, as `make.left.equalTo(v).multipliedBy(0)` gives; `Descriptions.Apply` accepts `multipliedBy(0)` for every attribute. In the program they raise instead of being installed. The model finalises and installs them like any other record.
- The layout engine. Constraints are never solved, activated or laid out. `addConstraint` appends a record to a list, and removal filters a list by the record's views, which stands in for record identity.
- Weak references. Expiry is modelled as a view missing from the live set. No view expires during one call.
- The tree and liveness do not change during a call. They are set up by the caller, and only the constraint lists and the autoresizing-mask set change.
- CGFloat and Float arithmetic. Numbers are `real`. `dividedBy` requires a non-zero divisor instead of modelling an IEEE infinity. A priority is not checked against the engine's 1…1000 range.
- The closure passed to `makeConstraints` is modelled as a list of statements, each an accessor followed by a chain of calls. Accessing `.none` is not a public accessor, so it is not a statement.
- The chained shorthand of the example apps (`make.width.height`, `make.top.left`) and their `wn_*` accessors are not part of the library and are not modelled. The closure in `WayneKitTests.swift:36-46` uses `containerView.wn_top`. The model (`Lifecycle.MakeConstraintsTest`) writes it with the view form `equalTo(container)`, which yields the same item as `wayne_top` (`ViewTree.WayneItemTargetsSelf`).
- `ConstraintMakerEditable.swift` is a protocol with no behaviour. Chain calls return the description itself.
- `LayoutPriority.swift` is modelled as `LayoutEngine.High`, `Medium` and `Low`. Medium is 500. High and low are the platform's `defaultHigh` and `defaultLow`, given as parameters.
- `Examples/`, `Package.swift` and the version constants are not part of this model.
- Descriptions.ConstraintDescription.MakeConstraint: the cached record is modelled as a value. No engine object is created, so two descriptions that build equal records cannot be told apart.
