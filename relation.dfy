/*
 * The DSL's three comparison operators and their mapping onto the engine's
 * relation identifiers (ConstraintRelation.swift).
 */
module ConstraintRelations {
  import opened LayoutEngine

  datatype ConstraintRelation = Equal | LessThanOrEqual | GreaterThanOrEqual

  /** `layoutRelation`: a three-case table into the engine's relations. */
  function LayoutRelationOf(r: ConstraintRelation): (l: LayoutRelation)
    ensures RelationFromLayout(l) == r
  {
    match r
    case Equal => LayoutRelation.Equal
    case LessThanOrEqual => LayoutRelation.LessThanOrEqual
    case GreaterThanOrEqual => LayoutRelation.GreaterThanOrEqual
  }

  /** Reading an engine relation back into the DSL's vocabulary. */
  function RelationFromLayout(r: LayoutRelation): ConstraintRelation {
    match r
    case Equal => ConstraintRelation.Equal
    case LessThanOrEqual => ConstraintRelation.LessThanOrEqual
    case GreaterThanOrEqual => ConstraintRelation.GreaterThanOrEqual
  }

  /** Each DSL relation lands on the engine relation of the same meaning. */
  lemma LayoutRelationCases()
    ensures LayoutRelationOf(ConstraintRelation.Equal) == LayoutRelation.Equal
    ensures LayoutRelationOf(ConstraintRelation.LessThanOrEqual) == LayoutRelation.LessThanOrEqual
    ensures LayoutRelationOf(ConstraintRelation.GreaterThanOrEqual) == LayoutRelation.GreaterThanOrEqual
  {
  }

  /**
   * The table is a bijection: reading back undoes it in both directions, so
   * it is total, injective and its three results are distinct.
   */
  lemma LayoutRelationRoundTrip(r: ConstraintRelation, l: LayoutRelation)
    ensures RelationFromLayout(LayoutRelationOf(r)) == r
    ensures LayoutRelationOf(RelationFromLayout(l)) == l
  {
  }

  lemma LayoutRelationInjective(r1: ConstraintRelation, r2: ConstraintRelation)
    ensures LayoutRelationOf(r1) == LayoutRelationOf(r2) <==> r1 == r2
  {
    LayoutRelationRoundTrip(r1, LayoutRelationOf(r1));
    LayoutRelationRoundTrip(r2, LayoutRelationOf(r2));
  }
}
