/*
 * The two convenience initialisers added to UIEdgeInsets / NSEdgeInsets
 * (ConstraintInsets.swift).
 */
module ConstraintInsets {

  datatype EdgeInsets = EdgeInsets(top: real, left: real, bottom: real, right: real)

  /** `init(inset:)`: the same inset on all four sides. */
  function Uniform(inset: real): (r: EdgeInsets)
    ensures r.top == r.left == r.bottom == r.right == inset
  {
    EdgeInsets(inset, inset, inset, inset)
  }

  /** `init(horizontal:vertical:)`: left/right from `horizontal`, top/bottom from `vertical`. */
  function Symmetric(horizontal: real, vertical: real): (r: EdgeInsets)
    ensures r.top == r.bottom == vertical
    ensures r.left == r.right == horizontal
  {
    EdgeInsets(vertical, horizontal, vertical, horizontal)
  }

  /** Equal horizontal and vertical insets give the uniform inset, and only they do. */
  lemma SymmetricIsUniform(h: real, v: real)
    ensures Symmetric(h, v) == Uniform(h) <==> h == v
  {
    if Symmetric(h, v) == Uniform(h) {
      assert Symmetric(h, v).top == v;
    }
  }
}
