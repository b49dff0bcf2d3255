/**
 * The vocabulary of the generator: class metadata as Java reflection reports
 * it, the values the generator produces, the leaf suppliers a registry maps
 * classes to, and the errors it raises.
 */
module Types {
  import opened Wrappers
  import opened Randomness

  /** A class as `Class.getName()` spells it: "int", "java.lang.String", "[I". */
  type ClassName = string

  const StringClassName: ClassName := "java.lang.String"

  // ---------------------------------------------------------------------
  // Class metadata
  // ---------------------------------------------------------------------

  /** What `Set.class.isAssignableFrom(c)` and `Queue.class.isAssignableFrom(c)` answer for a collection class. */
  datatype CollectionKind = CollectionKind(isSet: bool, isQueue: bool)

  /** What `SortedMap.class.isAssignableFrom(c)` answers for a map class. */
  datatype MapKind = MapKind(isSorted: bool)

  /** What invoking a constructor's body does once its arguments are accepted. */
  datatype Outcome = Returns | Throws(reason: string)

  /** A declared constructor: its parameter classes, in order, and the outcome of its body. */
  datatype Constructor = Constructor(params: seq<ClassName>, outcome: Outcome)

  /** A type argument of a parameterized field type: a plain `Class`, or anything else (wildcard, type variable, nested generic). */
  datatype TypeArgument = ClassArgument(cls: ClassName) | OtherArgument

  /** A field's generic type: not a `ParameterizedType`, or one with its actual type arguments. */
  datatype GenericType = Raw | Parameterized(arguments: seq<TypeArgument>)

  /** A declared field: its modifiers, its erased class and its generic type. */
  datatype Field = Field(name: string, isStatic: bool, isFinal: bool, cls: ClassName, genericType: GenericType)

  /**
   * Everything the generator asks reflection about a class. The tests are
   * independent, as in Java: `enumConstants` is `Some` exactly when `isEnum()`,
   * `componentType` exactly when `isArray()`, `collectionKind` / `mapKind`
   * exactly when `Collection` / `Map` is assignable from the class, and
   * `isAnnotated` when `@Generatable` is present.
   */
  datatype ClassInfo = ClassInfo(
    name: ClassName,
    isPrimitive: bool,
    enumConstants: Option<nat>,
    componentType: Option<ClassName>,
    collectionKind: Option<CollectionKind>,
    mapKind: Option<MapKind>,
    isAnnotated: bool,
    constructors: seq<Constructor>,
    fields: seq<Field>)

  /** The loaded classes, by name. */
  type World = map<ClassName, ClassInfo>

  /** Every class named by a class's metadata is itself loaded, and declared field names are distinct. */
  ghost predicate Closed(world: World) {
    forall n :: n in world ==> world[n].name == n && RefersWithin(world, world[n])
  }

  ghost predicate RefersWithin(world: World, info: ClassInfo) {
    && (info.componentType.Some? ==> info.componentType.value in world)
    && (forall c :: c in info.constructors ==> forall p :: p in c.params ==> p in world)
    && (forall f :: f in info.fields ==> f.cls in world && ArgumentsWithin(world, f.genericType))
    && (forall i, j :: 0 <= i < j < |info.fields| ==> info.fields[i].name != info.fields[j].name)
  }

  ghost predicate ArgumentsWithin(world: World, g: GenericType) {
    g.Parameterized? ==> forall a :: a in g.arguments && a.ClassArgument? ==> a.cls in world
  }

  // ---------------------------------------------------------------------
  // Generated values
  // ---------------------------------------------------------------------

  /** The concrete collection and map classes the generator instantiates. */
  datatype CollectionImpl = HashSet | LinkedList | ArrayList
  datatype MapImpl = TreeMap | HashMap

  /**
   * A generated value. Boxed scalars carry their exact value; a collection or
   * map records the `add` / `put` calls made on it, in order; an instance
   * records the constructor chosen, its arguments and the values assigned to
   * its fields afterwards.
   */
  datatype Value =
    | Null
    | BoolValue(b: bool)
    | ByteValue(n: int)
    | ShortValue(n: int)
    | IntValue(n: int)
    | LongValue(n: int)
    | FloatValue(x: real)
    | DoubleValue(x: real)
    | CharValue(n: int)
    | StringValue(s: string)
    | EnumConstant(enumClass: ClassName, ordinal: nat)
    | ArrayValue(arrayClass: ClassName, elements: seq<Value>)
    | CollectionValue(collectionImpl: CollectionImpl, added: seq<Value>)
    | MapValue(mapImpl: MapImpl, puts: seq<(Value, Value)>)
    | Instance(cls: ClassName, constructorIndex: nat, arguments: seq<Value>, fields: map<string, Value>)

  /** `v.getClass().getName()`, or None for null. */
  function RuntimeClass(v: Value): Option<ClassName> {
    match v
    case Null => None
    case BoolValue(_) => Some("java.lang.Boolean")
    case ByteValue(_) => Some("java.lang.Byte")
    case ShortValue(_) => Some("java.lang.Short")
    case IntValue(_) => Some("java.lang.Integer")
    case LongValue(_) => Some("java.lang.Long")
    case FloatValue(_) => Some("java.lang.Float")
    case DoubleValue(_) => Some("java.lang.Double")
    case CharValue(_) => Some("java.lang.Character")
    case StringValue(_) => Some("java.lang.String")
    case EnumConstant(e, _) => Some(e)
    case ArrayValue(a, _) => Some(a)
    case CollectionValue(HashSet, _) => Some("java.util.HashSet")
    case CollectionValue(LinkedList, _) => Some("java.util.LinkedList")
    case CollectionValue(ArrayList, _) => Some("java.util.ArrayList")
    case MapValue(TreeMap, _) => Some("java.util.TreeMap")
    case MapValue(HashMap, _) => Some("java.util.HashMap")
    case Instance(c, _, _, _) => Some(c)
  }

  // ---------------------------------------------------------------------
  // Leaf suppliers
  // ---------------------------------------------------------------------

  datatype Primitive = Boolean | Byte | Short | Int | Long | Float | Double | Char

  /**
   * A zero-argument `Supplier`, by what it does: return a fixed value (the
   * lambdas of the tests), draw a primitive from a `Random`, or draw a
   * lower-case string from a `Random`.
   */
  datatype Supplier =
    | Constant(value: Value)
    | PrimitiveDraw(random: Random, primitive: Primitive)
    | LowercaseString(random: Random, maxLength: int)
  {
    /** The randomness sources a call of this supplier advances. */
    function Sources(): set<Random> {
      match this
      case Constant(_) => {}
      case PrimitiveDraw(r, _) => {r}
      case LowercaseString(r, _) => {r}
    }
  }

  /** A provider's `getGenerators()` map, and the merged registry. */
  type Registry = map<ClassName, Supplier>

  // ---------------------------------------------------------------------
  // Errors
  // ---------------------------------------------------------------------

  datatype Error =
    | DuplicateGenerator(cls: ClassName)
    | InvalidMaxDepth(maxDepth: int)
    | NotGeneratable
    | EmptyEnum(cls: ClassName)
    | NoSuitableConstructor(cls: ClassName)
    | ConstructorThrew(cls: ClassName, reason: string)
    | NullForPrimitive(cls: ClassName)
    | NonPositiveBound(bound: int)
  {
    /**
     * The exception message the source builds. A constructor body's exception
     * reaches the caller wrapped by reflection, and the wrapper carries no
     * message of its own (Java's null, here the empty string); the body's
     * message stays in `reason`, the wrapper's cause.
     */
    function Message(): (m: string)
      ensures m == [] <==> this.ConstructorThrew?
    {
      match this
      case DuplicateGenerator(c) => "Multiple providers supply generator for type: " + c
      case InvalidMaxDepth(d) => "maxDepth expected to be more than 0, but got " + IntToString(d)
      case NotGeneratable => "Class is not annotated with @Generatable and not a simple type"
      case EmptyEnum(c) => "enum '" + c + "' cannot generated, because values is empty"
      case NoSuitableConstructor(c) => "No suitable constructor found for class: " + c
      case ConstructorThrew(_, _) => []
      case NullForPrimitive(c) => "null cannot be stored as a value of primitive type " + c
      case NonPositiveBound(_) => "bound must be positive"
    }
  }

  /**
   * The messages name what they are about: the offending class at the end,
   * or between the quotes of the enum message, and the rejected depth at the end.
   */
  lemma MessageNamesCause(e: Error)
    ensures e.DuplicateGenerator? || e.NoSuitableConstructor? || e.NullForPrimitive? ==>
              |e.cls| <= |e.Message()| && e.Message()[|e.Message()| - |e.cls|..] == e.cls
    ensures e.EmptyEnum? ==> 6 + |e.cls| <= |e.Message()| && e.Message()[6..6 + |e.cls|] == e.cls
    ensures e.InvalidMaxDepth? ==>
              var digits := IntToString(e.maxDepth);
              |digits| <= |e.Message()| && e.Message()[|e.Message()| - |digits|..] == digits
  {}

  function DigitsOf(n: nat): string
    decreases n
  {
    var last := ['0' + (n % 10) as char];
    if n < 10 then last else DigitsOf(n / 10) + last
  }

  /** Java's decimal rendering of an int. */
  function IntToString(i: int): string {
    if i < 0 then "-" + DigitsOf(-i) else DigitsOf(i)
  }
}
