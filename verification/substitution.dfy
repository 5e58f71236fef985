/** The substitution engine behind process_symbol: a post-order rewrite that
    replaces every Parameter leaf by a Scalar holding its stored value and
    rebuilds every operator with its children processed in their order. */
module Substitution {
  import opened Symbols

  /** The value a store holds for a Parameter node (get_parameter_value):
      the value stored under the node's name. */
  function ParameterValue(values: map<string, real>, p: Symbol): (v: real)
    requires p.Parameter? && p.name in values
  {
    values[p.name]
  }

  /** What processing does to a single leaf. */
  function ResolveLeaf(values: map<string, real>, leaf: Symbol): Symbol
    requires leaf.Parameter? ==> leaf.name in values
  {
    if leaf.Parameter? then Scalar(ParameterValue(values, leaf)) else leaf
  }

  /** process_symbol. Every parameter of the tree must be in the store. */
  function Process(values: map<string, real>, s: Symbol): (r: Symbol)
    requires Parameters(s) <= values.Keys
    ensures Parameters(r) == {}
    ensures KindOf(r) == if s.Parameter? then ScalarKind else KindOf(s)
    ensures |Children(r)| == |Children(s)|
  {
    match s
    case Parameter(_) => Scalar(ParameterValue(values, s))
    case Gradient(c) => Gradient(Process(values, c))
    case Addition(l, r) => Addition(Process(values, l), Process(values, r))
    case Multiplication(l, r) => Multiplication(Process(values, l), Process(values, r))
    case _ => s
  }

  /** A Parameter becomes a Scalar carrying exactly its stored value. */
  lemma ProcessParameter(values: map<string, real>, n: string)
    requires n in values
    ensures Process(values, Parameter(n)) == Scalar(values[n])
  {
  }

  /** Leaves other than Parameter come through with the same kind and payload. */
  lemma ProcessLeaf(values: map<string, real>, s: Symbol)
    requires IsLeaf(s) && !s.Parameter?
    ensures Process(values, s) == s
  {
  }

  /** An operator is rebuilt with the same kind, and its i-th child is the
      processed i-th child: left stays left, right stays right. */
  lemma ProcessChildren(values: map<string, real>, s: Symbol, i: int)
    requires Parameters(s) <= values.Keys
    requires 0 <= i < |Children(s)|
    ensures Parameters(Children(s)[i]) <= values.Keys
    ensures KindOf(Process(values, s)) == KindOf(s)
    ensures Children(Process(values, s))[i] == Process(values, Children(s)[i])
  {
  }

  /** A tree without parameters is left exactly as it is, whatever the store. */
  lemma {:induction false} ProcessParameterFree(values: map<string, real>, s: Symbol)
    requires Parameters(s) == {}
    ensures Process(values, s) == s
  {
    match s
    case Gradient(c) =>
      ProcessParameterFree(values, c);
    case Addition(l, r) =>
      ProcessParameterFree(values, l);
      ProcessParameterFree(values, r);
    case Multiplication(l, r) =>
      ProcessParameterFree(values, l);
      ProcessParameterFree(values, r);
    case _ =>
  }

  /** Processing a processed tree a second time changes nothing. */
  lemma ProcessIdempotent(values: map<string, real>, s: Symbol)
    requires Parameters(s) <= values.Keys
    ensures Process(values, Process(values, s)) == Process(values, s)
  {
    ProcessParameterFree(values, Process(values, s));
  }

  /** The leaves of the result are the leaves of the input, in the same
      order, each resolved on its own: processing only touches leaves. */
  lemma {:induction false} ProcessLeaves(values: map<string, real>, s: Symbol)
    requires Parameters(s) <= values.Keys
    ensures |Leaves(Process(values, s))| == |Leaves(s)|
    ensures forall i :: 0 <= i < |Leaves(s)| ==>
      (Leaves(s)[i].Parameter? ==> Leaves(s)[i].name in values) &&
      Leaves(Process(values, s))[i] == ResolveLeaf(values, Leaves(s)[i])
  {
    LeavesAndParameters(s);
    match s
    case Gradient(c) =>
      ProcessLeaves(values, c);
    case Addition(l, r) =>
      ProcessLeaves(values, l);
      ProcessLeaves(values, r);
      ConcatResolved(values, Leaves(l), Leaves(r), Leaves(Process(values, l)), Leaves(Process(values, r)));
    case Multiplication(l, r) =>
      ProcessLeaves(values, l);
      ProcessLeaves(values, r);
      ConcatResolved(values, Leaves(l), Leaves(r), Leaves(Process(values, l)), Leaves(Process(values, r)));
    case _ =>
  }

  /** Resolving two leaf sequences position by position resolves their concatenation. */
  lemma ConcatResolved(values: map<string, real>, a: seq<Symbol>, b: seq<Symbol>, a': seq<Symbol>, b': seq<Symbol>)
    requires |a'| == |a| && |b'| == |b|
    requires forall i :: 0 <= i < |a| ==> (a[i].Parameter? ==> a[i].name in values) && a'[i] == ResolveLeaf(values, a[i])
    requires forall i :: 0 <= i < |b| ==> (b[i].Parameter? ==> b[i].name in values) && b'[i] == ResolveLeaf(values, b[i])
    ensures |a' + b'| == |a + b|
    ensures forall i :: 0 <= i < |a + b| ==>
      ((a + b)[i].Parameter? ==> (a + b)[i].name in values) &&
      (a' + b')[i] == ResolveLeaf(values, (a + b)[i])
  {
  }

  /** The result depends only on the stored values of the tree's own
      parameters: two stores that agree there process the tree alike. */
  lemma {:induction false} ProcessDependsOnlyOnParameters(m1: map<string, real>, m2: map<string, real>, s: Symbol)
    requires Parameters(s) <= m1.Keys && Parameters(s) <= m2.Keys
    requires forall n :: n in Parameters(s) ==> m1[n] == m2[n]
    ensures Process(m1, s) == Process(m2, s)
  {
    match s
    case Gradient(c) =>
      ProcessDependsOnlyOnParameters(m1, m2, c);
    case Addition(l, r) =>
      ProcessDependsOnlyOnParameters(m1, m2, l);
      ProcessDependsOnlyOnParameters(m1, m2, r);
    case Multiplication(l, r) =>
      ProcessDependsOnlyOnParameters(m1, m2, l);
      ProcessDependsOnlyOnParameters(m1, m2, r);
    case _ =>
  }
}
