/** The scenarios the test suite of BaseParameterValues asserts, written as
    clients of the store: each outcome follows from the contracts alone. */
module ParameterValuesTests {
  import opened Symbols
  import opened ParameterValues

  /** A store built from {"a": 1} gives a = 1. */
  method Init() returns (a: real)
    ensures a == 1.0
  {
    var param := new BaseParameterValues(map["a" := 1.0]);
    a := param.Get("a");
  }

  /** Base {"a": 1, "b": 2} with optional {"b": 3} gives a = 1 and b = 3;
      updating with {"a": 4} then gives a = 4 and leaves b = 3. */
  method Overwrite() returns (a: real, b: real, aUpdated: real, bUpdated: real)
    ensures a == 1.0 && b == 3.0
    ensures aUpdated == 4.0 && bUpdated == 3.0
  {
    var param := new BaseParameterValues(base := map["a" := 1.0, "b" := 2.0], optional := map["b" := 3.0]);
    a := param.Get("a");
    b := param.Get("b");
    param.Update(map["a" := 4.0]);
    aUpdated := param.Get("a");
    bUpdated := param.Get("b");
  }

  /** The value for Parameter("a") in the store {"a": 1} is 1. */
  method GetParameterValueOfA() returns (v: real)
    ensures v == 1.0
  {
    var parameterValues := new BaseParameterValues(map["a" := 1.0]);
    v := parameterValues.GetParameterValue(Parameter("a"));
  }

  /** Processing against {"a": 1, "b": 2}: a Parameter, a sum, a product with
      a Scalar, a Gradient, a Variable, a Scalar, a Vector and a Matrix. */
  method ProcessSymbols() returns (a': Symbol, sum': Symbol, mul': Symbol, grad': Symbol,
                                   c': Symbol, d': Symbol, e': Symbol, f': Symbol)
    ensures a' == Scalar(1.0)
    ensures sum' == Addition(Scalar(1.0), Scalar(2.0))
    ensures mul' == Multiplication(Scalar(1.0), Scalar(34.0))
    ensures grad' == Gradient(Scalar(1.0))
    ensures c' == Variable("c")
    ensures d' == Scalar(14.0)
    ensures e' == Vector(seq(4, _ => 1.0))
    ensures f' == Matrix(seq(5, _ => seq(6, _ => 1.0)))
  {
    var parameterValues := new BaseParameterValues(map["a" := 1.0, "b" := 2.0]);
    var a, b := Parameter("a"), Parameter("b");
    a' := parameterValues.ProcessSymbol(a);
    sum' := parameterValues.ProcessSymbol(Addition(a, b));
    mul' := parameterValues.ProcessSymbol(Multiplication(a, Scalar(34.0)));
    grad' := parameterValues.ProcessSymbol(Gradient(a));
    c' := parameterValues.ProcessSymbol(Variable("c"));
    d' := parameterValues.ProcessSymbol(Scalar(14.0));
    e' := parameterValues.ProcessSymbol(Vector(seq(4, _ => 1.0)));
    f' := parameterValues.ProcessSymbol(Matrix(seq(5, _ => seq(6, _ => 1.0))));
  }
}
