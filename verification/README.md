# BaseParameterValues: parameter store and parameter substitution

This project models the parameter-processing core of PyBaMM, a symbolic framework for battery models. It covers two parts:

- **The parameter store** (`BaseParameterValues`). It maps parameter names to values. It is built from a base mapping with an optional mapping laid over it, and the optional values win on conflict. It supports `update`, which overwrites entries in place, indexed lookup, and `get_parameter_value` for a `Parameter` node.
- **`process_symbol`**. This is a post-order rewrite of an expression tree:
  - every `Parameter` leaf becomes a `Scalar` that holds the stored value;
  - every operator (`Gradient`, `Addition`, `Multiplication`) is rebuilt with the same kind, and its children are processed in their original order;
  - `Variable`, `Scalar`, `Vector` and `Matrix` come through unchanged.

The implementation of `BaseParameterValues` is not part of this model. Its behaviour is taken from the assertions of `tests/test_parameters/test_base_parameter_values.py`.

Layout:

- `symbols.dfy` (module `Symbols`) holds the closed node type `Symbol` and its kind tag `Kind`. It also holds the ordered `Children` of a node, the names of a tree's `Parameters`, and its `Leaves` in left-to-right order.
- `substitution.dfy` (module `Substitution`) holds `process_symbol` as the pure function `Process(values, s)`, together with its lemmas. These cover:
  - no Parameter is left after processing;
  - kind and child order are preserved;
  - each leaf is resolved in place;
  - leaves that are not parameters are unchanged;
  - processing is idempotent;
  - the result depends only on the tree's own parameters.
- `parameter_values.dfy` (module `ParameterValues`) has two parts:
  - the pure overlay `Overlay(m, overrides)` that specifies construction and `update`;
  - the class `BaseParameterValues`, whose `values: map<string, real>` field its methods read and update in place.
- `parameter_values_tests.dfy` (module `ParameterValuesTests`) restates the asserted scenarios as client methods. Each scenario's outcome is proved from the contracts above.

Parameter values are modelled as `real`. The values in the tests (1, 2, 3, 4, 14, 34) are exact. Vector entries are a `seq<real>` and matrix rows a `seq<seq<real>>`, so "the same entries and shape" is plain equality.

Construction follows the merge order the tests rely on. It starts from the empty mapping, lays `base` over it, then lays `optional` over that; both default to the empty mapping. The tests at lines 32-33 update the store in place and read the new value back, so `Update` merges into the stored mapping.

## Model

| member | source | states |
|---|---|---|
| Substitution.Process | tests/test_parameters/test_base_parameter_values.py:47-102 | No Parameter node is left in the result. The result has the input's kind, except that a Parameter becomes a Scalar. It has as many children as the input. Every parameter of the tree must be in the store. |
| Substitution.ProcessParameter | tests/test_parameters/test_base_parameter_values.py:50-53 | Processing `Parameter(n)` yields `Scalar` carrying exactly the value stored under `n`. |
| Substitution.ProcessChildren | tests/test_parameters/test_base_parameter_values.py:56-79 | An operator keeps its kind. Its i-th child after processing is its i-th child processed, so left stays left and right stays right. |
| Substitution.ProcessLeaf | tests/test_parameters/test_base_parameter_values.py:82-102 | A Variable, Scalar, Vector or Matrix comes through identical: same kind, name, value, entries and shape. |
| Substitution.ProcessParameterFree | tests/test_parameters/test_base_parameter_values.py:65-72 | A tree with no Parameter node, such as `Scalar(34)`, is returned exactly as it is, against any store. |
| Substitution.ProcessIdempotent | tests/test_parameters/test_base_parameter_values.py:47-102 | Processing a processed tree again changes nothing. |
| Substitution.ProcessLeaves | tests/test_parameters/test_base_parameter_values.py:47-102 | The result's leaves correspond one-to-one, in order, to the input's. Each is the input leaf resolved on its own: a Parameter becomes the Scalar of its stored value, and any other leaf is kept. |
| Substitution.ProcessDependsOnlyOnParameters | tests/test_parameters/test_base_parameter_values.py:43-53 | Two stores that agree on the tree's parameters process the tree to the same result. |
| Symbols.LeavesAndParameters | tests/test_parameters/test_base_parameter_values.py:47-102 | A tree's parameters are exactly the names of its Parameter leaves. So "no Parameter left" means that no leaf is a Parameter. |
| ParameterValues.Overlay | tests/test_parameters/test_base_parameter_values.py:27-31 | The keys are those of the base and the overrides together. A key in the overrides takes the override value. A key only in the base keeps its base value. |
| ParameterValues.OverlayOnEmpty | tests/test_parameters/test_base_parameter_values.py:17-20 | Laying a mapping over the empty mapping gives that mapping back, so the first step of construction leaves exactly the base mapping. |
| ParameterValues.OverlayNothing | tests/test_parameters/test_base_parameter_values.py:17-20 | Laying the empty mapping over a mapping leaves it unchanged, so a store built from one mapping holds exactly that mapping. |
| ParameterValues.OverlayIdempotent | tests/test_parameters/test_base_parameter_values.py:32-33 | Repeating the same update changes nothing more. |
| ParameterValues.OverlayTwice | tests/test_parameters/test_base_parameter_values.py:27-33 | Building from base and optional and then updating equals laying the combined overrides over the base once. |
| ParameterValues.UpdateKeepsUntouchedProcessing | tests/test_parameters/test_base_parameter_values.py:32-33 | An update that names none of a tree's parameters leaves the processed tree unchanged. |
| ParameterValues.UpdateReachesProcessing | tests/test_parameters/test_base_parameter_values.py:32-33 | After an update, a Parameter named by the update is processed into a Scalar carrying the new value. |
| ParameterValues.BaseParameterValues.constructor | tests/test_parameters/test_base_parameter_values.py:17-31 | The stored mapping is the optional mapping laid over the base. Optional values win, and base-only keys keep their base value. Without an optional mapping, the store holds exactly the base mapping. |
| ParameterValues.BaseParameterValues.Update | tests/test_parameters/test_base_parameter_values.py:32-33 | In place, names in the update take their new value and every other stored name keeps its old value. |
| ParameterValues.BaseParameterValues.Get | tests/test_parameters/test_base_parameter_values.py:19-20 | Indexed lookup returns the value stored under the name. |
| ParameterValues.BaseParameterValues.GetParameterValue | tests/test_parameters/test_base_parameter_values.py:42-45 | The value for a Parameter node is the store's lookup of the node's name. It equals `Substitution.ParameterValue`, the pure form of the same lookup that `Process` uses. |
| ParameterValues.BaseParameterValues.ProcessSymbol | tests/test_parameters/test_base_parameter_values.py:47-102 | The result is `Process` over the stored mapping. No Parameter is left, and the kind is preserved, with a Parameter becoming a Scalar. |
| ParameterValuesTests.Init | tests/test_parameters/test_base_parameter_values.py:17-20 | A store built from `{"a": 1}` gives `a = 1`. |
| ParameterValuesTests.Overwrite | tests/test_parameters/test_base_parameter_values.py:25-33 | Base `{a: 1, b: 2}` with optional `{b: 3}` gives `a = 1`, `b = 3`. After `update({"a": 4})`, `a = 4` and `b` is still 3. |
| ParameterValuesTests.GetParameterValueOfA | tests/test_parameters/test_base_parameter_values.py:42-45 | `get_parameter_value(Parameter("a"))` on `{"a": 1}` is 1. |
| ParameterValuesTests.ProcessSymbols | tests/test_parameters/test_base_parameter_values.py:47-102 | Against `{a: 1, b: 2}`, the outputs are exactly the asserted nodes: <br>• `a` → `Scalar(1)`; <br>• `a + b` → `Addition(Scalar(1), Scalar(2))`; <br>• `a * Scalar(34)` → `Multiplication(Scalar(1), Scalar(34))`; <br>• `Gradient(a)` → `Gradient(Scalar(1))`; <br>• `Variable("c")`, `Scalar(14)`, the 4-vector of ones and the 5×6 matrix of ones come through unchanged. |

## Left out

- Reading parameters from CSV files, including construction from a file name (test lines 11-15, 22-23, 35-40): this is file I/O, and the file contents are not part of this model. Only in-memory mappings are modelled.
- `process(model)` (test lines 104-116): its test is skipped, so no behaviour is asserted for it. The model container is not part of this model.
- `BaseParameterValues.Get`, `GetParameterValue`, `ProcessSymbol` and `Substitution.Process` require every name they look up to be in the store. The error raised for a missing name is not stated by the code modelled here, so no error type is invented.
- Parameter values that are symbolic expressions or callables, which would be resolved recursively: no test exercises them, and values are numbers only. Because of this, cyclic parameter definitions cannot arise in the model.
- Node kinds beyond the tested ones are not modelled: InputParameter, Negate and the other operators. `Symbol` is a closed datatype, so no error path for an unknown node kind is modelled.
- Object identity and copying: nodes are values, so "a new node with the same contents" and "the same node" are not distinguished.
- Floating point and numpy dtypes: values are exact reals, and arrays are compared by entries and shape only.
