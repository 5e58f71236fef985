/** Expression nodes of the symbolic model: a closed set of node kinds.
    A node is an immutable value; operators hold their children in order. */
module Symbols {

  /** One node of an expression tree. */
  datatype Symbol =
    | Scalar(value: real)
    | Parameter(name: string)
    | Variable(name: string)
    | Vector(entries: seq<real>)
    | Matrix(rows: seq<seq<real>>)
    | Gradient(child: Symbol)
    | Addition(left: Symbol, right: Symbol)
    | Multiplication(left: Symbol, right: Symbol)

  /** The kind tag of a node, without its payload or children. */
  datatype Kind =
    | ScalarKind
    | ParameterKind
    | VariableKind
    | VectorKind
    | MatrixKind
    | GradientKind
    | AdditionKind
    | MultiplicationKind

  function KindOf(s: Symbol): Kind
  {
    match s
    case Scalar(_) => ScalarKind
    case Parameter(_) => ParameterKind
    case Variable(_) => VariableKind
    case Vector(_) => VectorKind
    case Matrix(_) => MatrixKind
    case Gradient(_) => GradientKind
    case Addition(_, _) => AdditionKind
    case Multiplication(_, _) => MultiplicationKind
  }

  /** Leaves carry a payload and have no children. */
  predicate IsLeaf(s: Symbol)
  {
    !(s.Gradient? || s.Addition? || s.Multiplication?)
  }

  /** The ordered children of a node: one for a unary operator, left then
      right for a binary operator, none for a leaf. */
  function Children(s: Symbol): (cs: seq<Symbol>)
    ensures IsLeaf(s) <==> cs == []
  {
    match s
    case Gradient(c) => [c]
    case Addition(l, r) => [l, r]
    case Multiplication(l, r) => [l, r]
    case _ => []
  }

  /** The names of all Parameter nodes of a tree. */
  function Parameters(s: Symbol): set<string>
  {
    match s
    case Parameter(n) => {n}
    case Gradient(c) => Parameters(c)
    case Addition(l, r) => Parameters(l) + Parameters(r)
    case Multiplication(l, r) => Parameters(l) + Parameters(r)
    case _ => {}
  }

  /** The leaves of a tree, from left to right. */
  function Leaves(s: Symbol): seq<Symbol>
  {
    match s
    case Gradient(c) => Leaves(c)
    case Addition(l, r) => Leaves(l) + Leaves(r)
    case Multiplication(l, r) => Leaves(l) + Leaves(r)
    case _ => [s]
  }

  /** Every leaf really is a leaf, and a Parameter leaf names a parameter of
      the tree; conversely every parameter of the tree is some leaf. */
  lemma {:induction false} LeavesAndParameters(s: Symbol)
    ensures forall i :: 0 <= i < |Leaves(s)| ==> IsLeaf(Leaves(s)[i])
    ensures forall i :: 0 <= i < |Leaves(s)| && Leaves(s)[i].Parameter? ==> Leaves(s)[i].name in Parameters(s)
    ensures forall n :: n in Parameters(s) ==> exists i :: 0 <= i < |Leaves(s)| && Leaves(s)[i] == Parameter(n)
  {
    match s
    case Gradient(c) =>
      LeavesAndParameters(c);
      assert Leaves(s) == Leaves(c) && Parameters(s) == Parameters(c);
    case Addition(l, r) =>
      LeavesAndParameters(l);
      LeavesAndParameters(r);
      BinaryLeaves(Leaves(l), Leaves(r), Parameters(l), Parameters(r));
      assert Leaves(s) == Leaves(l) + Leaves(r) && Parameters(s) == Parameters(l) + Parameters(r);
    case Multiplication(l, r) =>
      LeavesAndParameters(l);
      LeavesAndParameters(r);
      BinaryLeaves(Leaves(l), Leaves(r), Parameters(l), Parameters(r));
      assert Leaves(s) == Leaves(l) + Leaves(r) && Parameters(s) == Parameters(l) + Parameters(r);
    case Parameter(n) =>
      assert Leaves(s)[0] == Parameter(n);
    case _ =>
  }

  /** The step for a binary node: the facts of LeavesAndParameters carry over
      from two leaf sequences to their concatenation. */
  lemma BinaryLeaves(a: seq<Symbol>, b: seq<Symbol>, pa: set<string>, pb: set<string>)
    requires forall i :: 0 <= i < |a| ==> IsLeaf(a[i]) && (a[i].Parameter? ==> a[i].name in pa)
    requires forall i :: 0 <= i < |b| ==> IsLeaf(b[i]) && (b[i].Parameter? ==> b[i].name in pb)
    requires forall n :: n in pa ==> exists i :: 0 <= i < |a| && a[i] == Parameter(n)
    requires forall n :: n in pb ==> exists i :: 0 <= i < |b| && b[i] == Parameter(n)
    ensures forall i :: 0 <= i < |a + b| ==> IsLeaf((a + b)[i])
    ensures forall i :: 0 <= i < |a + b| && (a + b)[i].Parameter? ==> (a + b)[i].name in pa + pb
    ensures forall n :: n in pa + pb ==> exists i :: 0 <= i < |a + b| && (a + b)[i] == Parameter(n)
  {
    forall n | n in pa + pb
      ensures exists i :: 0 <= i < |a + b| && (a + b)[i] == Parameter(n)
    {
      if n in pa {
        var i :| 0 <= i < |a| && a[i] == Parameter(n);
        assert (a + b)[i] == Parameter(n);
      } else {
        var i :| 0 <= i < |b| && b[i] == Parameter(n);
        assert (a + b)[|a| + i] == Parameter(n);
      }
    }
  }
}
