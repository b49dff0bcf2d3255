/**
 * `PrimitiveGeneratorsProvider`: one supplier per primitive class and per
 * wrapper class, each drawing from the provider's `Random`.
 */
module PrimitiveProvider {
  import opened Wrappers
  import opened Randomness
  import opened Types

  const ByteMaxValue := 127
  const ShortMaxValue := 32767
  const CharacterMaxValue := 65535

  /** The primitive class: `int.class.getName()` is "int". */
  function PrimitiveName(p: Primitive): ClassName {
    match p
    case Boolean => "boolean"
    case Byte => "byte"
    case Short => "short"
    case Int => "int"
    case Long => "long"
    case Float => "float"
    case Double => "double"
    case Char => "char"
  }

  /** The wrapper class of a primitive. */
  function WrapperName(p: Primitive): ClassName {
    match p
    case Boolean => "java.lang.Boolean"
    case Byte => "java.lang.Byte"
    case Short => "java.lang.Short"
    case Int => "java.lang.Integer"
    case Long => "java.lang.Long"
    case Float => "java.lang.Float"
    case Double => "java.lang.Double"
    case Char => "java.lang.Character"
  }

  /** The values a supplier for `p` can return. */
  predicate InRange(p: Primitive, v: Value) {
    match p
    case Boolean => v.BoolValue?
    case Byte => v.ByteValue? && 0 <= v.n < ByteMaxValue
    case Short => v.ShortValue? && 0 <= v.n < ShortMaxValue
    case Int => v.IntValue? && -(Pow2(31) as int) <= v.n < Pow2(31)
    case Long => v.LongValue? && -(Pow2(63) as int) <= v.n < Pow2(63)
    case Float => v.FloatValue? && 0.0 <= v.x < 1.0
    case Double => v.DoubleValue? && 0.0 <= v.x < 1.0
    case Char => v.CharValue? && 0 <= v.n < CharacterMaxValue
  }

  /** Java's `(byte)` narrowing: keep the low 8 bits, two's complement. */
  function ToByte(x: int): (r: int)
    ensures -128 <= r < 128
    ensures -128 <= x < 128 ==> r == x
    ensures (r - x) % 256 == 0
  {
    (x + 128) % 256 - 128
  }

  /** Java's `(short)` narrowing: keep the low 16 bits, two's complement. */
  function ToShort(x: int): (r: int)
    ensures -32768 <= r < 32768
    ensures -32768 <= x < 32768 ==> r == x
    ensures (r - x) % 65536 == 0
  {
    (x + 32768) % 65536 - 32768
  }

  /** Java's `(char)` narrowing: keep the low 16 bits, unsigned. */
  function ToChar(x: int): (r: int)
    ensures 0 <= r < 65536
    ensures 0 <= x < 65536 ==> r == x
    ensures (r - x) % 65536 == 0
  {
    x % 65536
  }

  /** One call of the supplier registered for `p` (the lambdas of `getGenerators`). */
  method Draw(random: Random, p: Primitive) returns (v: Value)
    modifies random
    ensures InRange(p, v)
  {
    match p
    case Boolean =>
      var b := random.NextBoolean();
      v := BoolValue(b);
    case Byte =>
      var x := random.NextIntBelow(ByteMaxValue);
      v := ByteValue(ToByte(x));
    case Short =>
      var x := random.NextIntBelow(ShortMaxValue);
      v := ShortValue(ToShort(x));
    case Int =>
      var x := random.NextInt();
      v := IntValue(x);
    case Long =>
      var x := random.NextLong();
      v := LongValue(x);
    case Float =>
      var x := random.NextFloat();
      v := FloatValue(x);
    case Double =>
      var x := random.NextDouble();
      v := DoubleValue(x);
    case Char =>
      var x := random.NextIntBelow(CharacterMaxValue);
      v := CharValue(ToChar(x));
  }

  /** A drawn value is a boxed instance of the wrapper class. */
  lemma DrawnValueIsBoxed(p: Primitive, v: Value)
    requires InRange(p, v)
    ensures RuntimeClass(v) == Some(WrapperName(p))
  {
  }

  class PrimitiveGeneratorsProvider {
    const random: Random

    constructor (random: Random)
      ensures this.random == random
    {
      this.random := random;
    }

    /**
     * The immutable key table of `getGenerators`: the sixteen primitive and
     * wrapper classes, each mapped to a draw of its primitive from `random`.
     */
    function GetGenerators(): (m: Registry)
      ensures m.Keys == KeyClasses
      ensures StringClassName !in m
    {
      map k | k in KeyClasses :: PrimitiveDraw(random, KeyPrimitive(k))
    }
  }

  /** The eight primitive classes among the keys. */
  const PrimitiveKeys: set<ClassName> := {"boolean", "byte", "short", "int", "long", "float", "double", "char"}

  /** The eight wrapper classes among the keys. */
  const WrapperKeys: set<ClassName> := {
    "java.lang.Boolean", "java.lang.Byte", "java.lang.Short", "java.lang.Integer",
    "java.lang.Long", "java.lang.Float", "java.lang.Double", "java.lang.Character"
  }

  /** The names of the sixteen key classes. */
  const KeyClasses: set<ClassName> := PrimitiveKeys + WrapperKeys

  lemma PrimitiveKeysCount()
    ensures |PrimitiveKeys| == 8
  {}

  lemma WrapperKeysCount()
    ensures |WrapperKeys| == 8
  {}

  lemma KeyClassesCount()
    ensures |KeyClasses| == 16 && StringClassName !in KeyClasses
  {
    PrimitiveKeysCount();
    WrapperKeysCount();
    assert PrimitiveKeys !! WrapperKeys;
  }

  /** The table has sixteen keys, and `String` is not one of them. */
  lemma SixteenKeysWithoutString(provider: PrimitiveGeneratorsProvider)
    ensures provider.GetGenerators().Keys == KeyClasses
    ensures |provider.GetGenerators()| == 16
    ensures StringClassName !in provider.GetGenerators()
  {
    var m := provider.GetGenerators();
    assert m.Keys == KeyClasses;
    KeyClassesCount();
  }

  /** A primitive class and its wrapper class are both keys, mapped to the same draw rule. */
  lemma SameDrawForWrapper(provider: PrimitiveGeneratorsProvider, p: Primitive)
    ensures PrimitiveName(p) in provider.GetGenerators() && WrapperName(p) in provider.GetGenerators()
    ensures provider.GetGenerators()[PrimitiveName(p)] == provider.GetGenerators()[WrapperName(p)]
    ensures provider.GetGenerators()[PrimitiveName(p)] == PrimitiveDraw(provider.random, p)
  {
    match p
    case Boolean => assert KeyPrimitive("boolean") == KeyPrimitive("java.lang.Boolean") == p;
    case Byte => assert KeyPrimitive("byte") == KeyPrimitive("java.lang.Byte") == p;
    case Short => assert KeyPrimitive("short") == KeyPrimitive("java.lang.Short") == p;
    case Int => assert KeyPrimitive("int") == KeyPrimitive("java.lang.Integer") == p;
    case Long => assert KeyPrimitive("long") == KeyPrimitive("java.lang.Long") == p;
    case Float => assert KeyPrimitive("float") == KeyPrimitive("java.lang.Float") == p;
    case Double => assert KeyPrimitive("double") == KeyPrimitive("java.lang.Double") == p;
    case Char => assert KeyPrimitive("char") == KeyPrimitive("java.lang.Character") == p;
  }

  /** Every key is a primitive class or a wrapper class, mapped to a draw of that primitive from the provider's `Random`. */
  lemma KeysArePrimitivesAndWrappers(provider: PrimitiveGeneratorsProvider, k: ClassName)
    requires k in provider.GetGenerators()
    ensures exists p: Primitive ::
      && (k == PrimitiveName(p) || k == WrapperName(p))
      && provider.GetGenerators()[k] == PrimitiveDraw(provider.random, p)
  {
    SixteenKeysWithoutString(provider);
    var p := KeyPrimitive(k);
    SameDrawForWrapper(provider, p);
  }

  /** The primitive a key class stands for. */
  function KeyPrimitive(k: ClassName): (p: Primitive)
    requires k in KeyClasses
    ensures k == PrimitiveName(p) || k == WrapperName(p)
  {
    if k in {"boolean", "java.lang.Boolean"} then Boolean
    else if k in {"byte", "java.lang.Byte"} then Byte
    else if k in {"short", "java.lang.Short"} then Short
    else if k in {"int", "java.lang.Integer"} then Int
    else if k in {"long", "java.lang.Long"} then Long
    else if k in {"float", "java.lang.Float"} then Float
    else if k in {"double", "java.lang.Double"} then Double
    else Char
  }

  /** What a supplier of the table returns is a boxed instance of its key class (or of the key's wrapper). */
  lemma SuppliedValueIsInstance(provider: PrimitiveGeneratorsProvider, k: ClassName, v: Value)
    requires k in provider.GetGenerators()
    requires provider.GetGenerators()[k].PrimitiveDraw?
    requires InRange(provider.GetGenerators()[k].primitive, v)
    ensures exists p: Primitive :: (k == PrimitiveName(p) || k == WrapperName(p)) && RuntimeClass(v) == Some(WrapperName(p))
  {
    KeysArePrimitivesAndWrappers(provider, k);
    var p: Primitive :| (k == PrimitiveName(p) || k == WrapperName(p)) && provider.GetGenerators()[k] == PrimitiveDraw(provider.random, p);
    DrawnValueIsBoxed(p, v);
  }
}
