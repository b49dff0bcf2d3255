/**
 * Concrete configurations from the generator's test suite, stated as facts
 * about the model.
 */
module Scenarios {
  import opened Wrappers
  import opened Types
  import opened Dispatch
  import opened Conformance
  import opened Failures
  import Registries

  /** Two providers that both register `String`: the merge is refused, naming the class. */
  lemma DuplicateStringProviders()
    ensures var tables := [map[StringClassName := Constant(StringValue("test-string"))],
                           map[StringClassName := Constant(StringValue("test-string-2"))]];
            && !Registries.PairwiseDisjoint(tables)
            && Registries.RegisteredTwice(tables, StringClassName)
            && DuplicateGenerator(StringClassName).Message() == "Multiple providers supply generator for type: java.lang.String"
  {
    var tables := [map[StringClassName := Constant(StringValue("test-string"))],
                   map[StringClassName := Constant(StringValue("test-string-2"))]];
    assert StringClassName in tables[0] && StringClassName in tables[1];
  }

  /** The depth-bound messages for the two rejected bounds of the tests. */
  lemma InvalidMaxDepthMessages()
    ensures InvalidMaxDepth(-1).Message() == "maxDepth expected to be more than 0, but got -1"
    ensures InvalidMaxDepth(0).Message() == "maxDepth expected to be more than 0, but got 0"
  {
    assert DigitsOf(1) == "1";
    assert DigitsOf(0) == "0";
  }

  const StringArray: ClassName := "[Ljava.lang.String;"
  const StringArray2D: ClassName := "[[Ljava.lang.String;"

  /** A class with no trait the generator looks at, and no constructors. */
  function PlainClass(name: ClassName): ClassInfo {
    ClassInfo(name, false, None, None, None, None, false, [], [])
  }

  function ArrayClass(name: ClassName, component: ClassName): ClassInfo {
    ClassInfo(name, false, None, Some(component), None, None, false, [], [])
  }

  /** `String`, `String[]` and `String[][]`, with `String` supplied by a constant and a depth bound of 1. */
  function StringArrays(): Config {
    Config(
      map[StringClassName := PlainClass(StringClassName),
          StringArray := ArrayClass(StringArray, StringClassName),
          StringArray2D := ArrayClass(StringArray2D, StringArray)],
      map[StringClassName := Constant(StringValue("test-string"))],
      1)
  }

  /**
   * With a depth bound of 1, a generated `String[][]` is a non-empty array
   * whose inner arrays hold only nulls: the strings would sit at depth 2.
   */
  lemma NullPlacedAtMaxDepth(v: Value, i: nat, j: nat, e: Value)
    requires Conforms(StringArrays(), StringArray2D, 0, v)
    requires ElementAt(v, [i, j]) == Some(e)
    ensures v.ArrayValue? && v.arrayClass == StringArray2D && 1 <= |v.elements|
    ensures e == Null
  {
    var c := StringArrays();
    assert BranchOf(c, StringArray2D) == ArrayBranch;
    assert BranchOf(c, StringArray) == ArrayBranch;
    assert ArrayChain(c, StringArray, 1);
    assert ArrayChain(c, StringArray2D, 2);
    NestedElementConforms(c, StringArray2D, 0, v, [i, j], e);
  }

  /** With a depth bound of 1, generating a `String[][]` succeeds: the depth-2 nulls go into `String` slots, which take them. */
  lemma StringMatrixGenerates()
    ensures Failure(StringArrays(), StringArray2D, 0) == None
  {
    var c := StringArrays();
    assert BranchOf(c, StringArray2D) == ArrayBranch;
    assert BranchOf(c, StringArray) == ArrayBranch;
    assert BranchOf(c, StringClassName) == RegistryBranch;
    assert Failure(c, StringClassName, 2) == None;
    assert SlotFailure(c, StringClassName, 2) == None;
    assert Failure(c, StringArray, 1) == None;
  }

  const IntArray: ClassName := "[I"
  const IntArray2D: ClassName := "[[I"

  /** `int`, `int[]` and `int[][]`, with `int` supplied by a constant and a depth bound of 1. */
  function IntArrays(): Config {
    Config(
      map["int" := ClassInfo("int", true, None, None, None, None, false, [], []),
          IntArray := ArrayClass(IntArray, "int"),
          IntArray2D := ArrayClass(IntArray2D, IntArray)],
      map["int" := Constant(IntValue(7))],
      1)
  }

  /**
   * Null past the bound is returned for primitive classes too, and an `int`
   * slot cannot hold it: with a depth bound of 1 no `int[][]` can be
   * generated, every attempt ends in the refused null.
   */
  lemma NoIntMatrixWithinBoundOne(v: Value)
    ensures !Conforms(IntArrays(), IntArray2D, 0, v)
  {
    var c := IntArrays();
    if Conforms(c, IntArray2D, 0, v) {
      assert BranchOf(c, IntArray2D) == ArrayBranch;
      var row := v.elements[0];
      assert BranchOf(c, IntArray) == ArrayBranch;
      PrimitiveSlotsHoldNoNull(c, IntArray, 1, row, 0);
      assert false;
    }
  }

  /** The same matrix of `int` fails, and the error is the refused null of an `int` slot at depth 2. */
  lemma IntMatrixFailsOnRefusedNull()
    ensures Failure(IntArrays(), IntArray2D, 0) == Some(NullForPrimitive("int"))
  {
    var c := IntArrays();
    assert BranchOf(c, IntArray2D) == ArrayBranch;
    assert BranchOf(c, IntArray) == ArrayBranch;
    assert BranchOf(c, "int") == RegistryBranch;
    assert Failure(c, "int", 2) == None;
    assert Refuses(c, "int", 2);
    assert Failure(c, IntArray, 1) == Some(NullForPrimitive("int"));
  }

  /** An annotated class `Widget` with the given constructors, none taking parameters, and no fields. */
  function Widgets(constructors: seq<Constructor>): Config {
    Config(
      map["Widget" := ClassInfo("Widget", false, None, None, None, None, true, constructors, [])],
      map[],
      1)
  }

  /** When both constructors throw, the first failure is swallowed and the error is the wrapper of the second constructor's exception. */
  lemma LastConstructorErrorSurfaces()
    ensures var c := Widgets([Constructor([], Throws("first")), Constructor([], Throws("second"))]);
            Failure(c, "Widget", 0) == Some(ConstructorThrew("Widget", "second"))
  {
    var c := Widgets([Constructor([], Throws("first")), Constructor([], Throws("second"))]);
    assert BranchOf(c, "Widget") == ConstructorBranch;
    assert CtorFailure(c, "Widget", 0, 0) == Some(ConstructorThrew("Widget", "first"));
    assert CtorFailure(c, "Widget", 1, 0) == Some(ConstructorThrew("Widget", "second"));
  }

  /** When the first constructor throws and the second returns, generation succeeds with the second. */
  lemma LaterConstructorRecovers()
    ensures var c := Widgets([Constructor([], Throws("first")), Constructor([], Returns)]);
            && Failure(c, "Widget", 0) == None
            && CtorFailure(c, "Widget", 0, 0).Some?
            && CtorFailure(c, "Widget", 1, 0).None?
  {
    var c := Widgets([Constructor([], Throws("first")), Constructor([], Returns)]);
    assert BranchOf(c, "Widget") == ConstructorBranch;
    assert CtorFailure(c, "Widget", 1, 0) == None;
  }

  /**
   * Providers {x, y}, {y}, {x}: the merge stops at the second provider, so
   * the class it names is `y`; `x`, repeated only by the third, never is.
   */
  lemma FirstCollisionNamesEarliestRepeat(cls: ClassName)
    requires Registries.FirstCollision([map["x" := Constant(Null), "y" := Constant(Null)],
                                        map["y" := Constant(Null)],
                                        map["x" := Constant(Null)]], cls)
    ensures cls == "y"
  {
    var tables := [map["x" := Constant(Null), "y" := Constant(Null)], map["y" := Constant(Null)], map["x" := Constant(Null)]];
    var firstTwo := tables[..2];
    assert "y" in firstTwo[0] && "y" in firstTwo[1];
    assert !Registries.PairwiseDisjoint(firstTwo);
  }
}
